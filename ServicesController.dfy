/**
 * The decision rules of the service-booking controller: the multipart upload scan, booking a
 * service, listing services page by page, cancelling ("deleting") a service, the admin-only
 * additions, deleting slots and the admin's booking update. Uploads, the schema parsers, the
 * role check and the delegated service calls are parameters.
 */
module ServicesController {
  import opened Common
  import opened Records

  /** Uploads may be at most 5 MiB. */
  const MaxUploadBytes: nat := 5 * 1024 * 1024

  /** The file types a booking accepts, and those an admin's after-image accepts. */
  const BookingFileTypes: set<string> := {"application/pdf", "image/jpeg", "image/png"}
  const AfterImageTypes: set<string> := {"image/jpeg", "image/png"}

  /** One part of a multipart request: a file (with the length of its content) or a form field. */
  datatype Part = FilePart(filename: string, mimetype: string, size: nat) | FieldPart(name: string, value: string)

  datatype FileInfo = FileInfo(filename: string, mimetype: string)

  /** The upload loop's outcome: the form fields and the file kept, or the refusal. */
  datatype Scan = Scanned(fields: map<string, string>, file: Option<FileInfo>) | Rejected(error: string)

  // ---------------------------------------------------------------- the upload loop

  /** A file part the loop refuses: a type it does not accept, or content over the size limit. */
  predicate BadFile(p: Part, allowed: set<string>)
  {
    p.FilePart? && (p.mimetype !in allowed || p.size > MaxUploadBytes)
  }

  function FirstBadFile(parts: seq<Part>, allowed: set<string>): (r: Option<nat>)
    ensures r.Some? ==> r.value < |parts| && BadFile(parts[r.value], allowed)
    ensures r.Some? ==> forall j :: 0 <= j < r.value ==> !BadFile(parts[j], allowed)
    ensures r.None? <==> forall j :: 0 <= j < |parts| ==> !BadFile(parts[j], allowed)
  {
    FirstIndex(parts, (p: Part) => BadFile(p, allowed))
  }

  /** The form fields, a later field of the same name overwriting an earlier one. */
  function FieldsOf(parts: seq<Part>): map<string, string>
  {
    if parts == [] then map[]
    else
      var last := parts[|parts| - 1];
      var before := FieldsOf(parts[..|parts| - 1]);
      if last.FieldPart? then before[last.name := last.value] else before
  }

  /** The file kept: the last file part, if there is one. */
  function LastFile(parts: seq<Part>): (f: Option<FileInfo>)
    ensures f.None? <==> forall k :: 0 <= k < |parts| ==> !parts[k].FilePart?
    ensures f.Some? ==> exists k :: (
      && 0 <= k < |parts| && parts[k].FilePart?
      && f.value == FileInfo(parts[k].filename, parts[k].mimetype)
      && forall j :: k < j < |parts| ==> !parts[j].FilePart?)
  {
    if parts == [] then None
    else
      var last := parts[|parts| - 1];
      if last.FilePart? then Some(FileInfo(last.filename, last.mimetype))
      else LastFile(parts[..|parts| - 1])
  }

  predicate Carries(p: Part, name: string)
  {
    p.FieldPart? && p.name == name
  }

  /** The value of a field is that of the last part carrying it. */
  lemma {:induction false} FieldsOfLastWins(parts: seq<Part>, name: string, k: nat)
    requires k < |parts| && Carries(parts[k], name)
    requires forall j :: k < j < |parts| ==> !Carries(parts[j], name)
    ensures name in FieldsOf(parts) && FieldsOf(parts)[name] == parts[k].value
  {
    var n := |parts| - 1;
    if k < n {
      FieldsOfLastWins(parts[..n], name, k);
    }
  }

  /** A field no part carries is absent. */
  lemma {:induction false} FieldsOfAbsent(parts: seq<Part>, name: string)
    requires forall k :: 0 <= k < |parts| ==> !Carries(parts[k], name)
    ensures name !in FieldsOf(parts)
  {
    if parts != [] {
      FieldsOfAbsent(parts[..|parts| - 1], name);
    }
  }

  /** What the upload loop produces: the first bad file decides the refusal (an unaccepted type
      before an oversized one), otherwise the fields and the last file. */
  function PartsScan(parts: seq<Part>, allowed: set<string>): (r: Scan)
    ensures r.Scanned? <==> forall k :: 0 <= k < |parts| ==> !BadFile(parts[k], allowed)
    ensures r.Scanned? ==> r.fields == FieldsOf(parts) && r.file == LastFile(parts)
    ensures r.Rejected? ==> r.error in {"Unsupported file type", "File size exceeds 5MB limit"}
  {
    match FirstBadFile(parts, allowed)
    case Some(k) =>
      if parts[k].mimetype !in allowed then Rejected("Unsupported file type")
      else Rejected("File size exceeds 5MB limit")
    case None => Scanned(FieldsOf(parts), LastFile(parts))
  }

  /** The first bad file decides: its type, if unaccepted, else its size. */
  lemma FirstBadFileDecides(parts: seq<Part>, allowed: set<string>, k: nat)
    requires k < |parts| && BadFile(parts[k], allowed)
    requires forall j :: 0 <= j < k ==> !BadFile(parts[j], allowed)
    ensures parts[k].mimetype !in allowed ==> PartsScan(parts, allowed) == Rejected("Unsupported file type")
    ensures parts[k].mimetype in allowed ==> PartsScan(parts, allowed) == Rejected("File size exceeds 5MB limit")
  {
    var first := FirstBadFile(parts, allowed);
    assert first.Some? && first.value == k;
  }

  /** The `for await` loop over the request parts. */
  method ScanParts(parts: seq<Part>, allowed: set<string>) returns (r: Scan)
    ensures r == PartsScan(parts, allowed)
  {
    var fields: map<string, string> := map[];
    var file: Option<FileInfo> := None;
    var i := 0;
    while i < |parts|
      invariant 0 <= i <= |parts|
      invariant forall j :: 0 <= j < i ==> !BadFile(parts[j], allowed)
      invariant fields == FieldsOf(parts[..i]) && file == LastFile(parts[..i])
    {
      var part := parts[i];
      assert parts[..i + 1][..i] == parts[..i];
      if part.FilePart? {
        if part.mimetype !in allowed {
          FirstBadFileDecides(parts, allowed, i);
          return Rejected("Unsupported file type");
        }
        if part.size > MaxUploadBytes {
          FirstBadFileDecides(parts, allowed, i);
          return Rejected("File size exceeds 5MB limit");
        }
        file := Some(FileInfo(part.filename, part.mimetype));
      } else {
        fields := fields[part.name := part.value];
      }
      i := i + 1;
    }
    assert parts[..i] == parts;
    r := Scanned(fields, file);
  }

  // ---------------------------------------------------------------- booking a service

  /** The booking fields the service schema yields (its other fields pass through unexamined). */
  datatype BookingRequest = BookingRequest(serviceId: string, beforeImageUrl: Option<string>)

  /** A service's price after conversion to a number. */
  datatype PriceValue = Finite(amount: real) | NotFinite

  datatype BookReply =
    | Booked(request: BookingRequest, gatewayOrderId: string, price: real, bookingId: string)
    | BookFailed(code: int, error: string)

  /** The price check: a number above zero. */
  predicate BookablePrice(p: PriceValue)
  {
    p.Finite? && p.amount > 0.0
  }

  /** The booking request after the upload: an uploaded file's URL becomes the before-image. */
  function WithUpload(request: BookingRequest, url: Option<string>): (r: BookingRequest)
    ensures r.serviceId == request.serviceId
    ensures url.Some? ==> r.beforeImageUrl == url
    ensures url.None? ==> r == request
  {
    if url.Some? then request.(beforeImageUrl := url) else request
  }

  /** `BookServiceHandler`. The schema, the upload (`None`: it failed), the services' prices
      (`None` inside: a null price), the gateway and the booking service are parameters. */
  method BookService(userId: Option<string>, parts: seq<Part>,
                     parseBooking: map<string, string> -> Option<BookingRequest>,
                     upload: FileInfo -> Option<string>,
                     servicePrices: map<string, Option<PriceValue>>,
                     createGatewayOrder: real -> Option<string>,
                     bookService: (BookingRequest, string, string, real) -> Option<string>)
    returns (r: BookReply)
    ensures !Truthy(userId) ==> r == BookFailed(401, "Unauthorized")
    ensures Truthy(userId) ==>
      match PartsScan(parts, BookingFileTypes)
      case Rejected(error) => r == BookFailed(400, error)
      case Scanned(fields, file) =>
        if parseBooking(fields).None? then r == BookFailed(400, "Validation failed")
        else if file.Some? && upload(file.value).None? then r == BookFailed(500, "Failed to book service")
        else
          var request := WithUpload(parseBooking(fields).value, if file.Some? then upload(file.value) else None);
          if request.serviceId !in servicePrices then r == BookFailed(404, "Service not found")
          else if servicePrices[request.serviceId].None? then r == BookFailed(500, "Service price is missing")
          else if !BookablePrice(servicePrices[request.serviceId].value) then r == BookFailed(400, "Service price is invalid")
          else
            var price := servicePrices[request.serviceId].value.amount;
            if createGatewayOrder(price).None? then r == BookFailed(500, "Failed to book service")
            else
              var booked := bookService(request, userId.value, createGatewayOrder(price).value, price);
              if booked.None? then r == BookFailed(500, "Failed to book service")
              else r == Booked(request, createGatewayOrder(price).value, price, booked.value)
    ensures r.Booked? ==> r.price > 0.0 && servicePrices[r.request.serviceId] == Some(Finite(r.price))
  {
    if !Truthy(userId) {
      return BookFailed(401, "Unauthorized");
    }
    var scan := ScanParts(parts, BookingFileTypes);
    if scan.Rejected? {
      return BookFailed(400, scan.error);
    }
    var parsed := parseBooking(scan.fields);
    if parsed.None? {
      return BookFailed(400, "Validation failed");
    }
    var serviceData := parsed.value;
    if scan.file.Some? {
      var uploadedUrl := upload(scan.file.value);
      if uploadedUrl.None? {
        return BookFailed(500, "Failed to book service");
      }
      serviceData := serviceData.(beforeImageUrl := uploadedUrl);
    }
    if serviceData.serviceId !in servicePrices {
      return BookFailed(404, "Service not found");
    }
    var price := servicePrices[serviceData.serviceId];
    if price.None? {
      return BookFailed(500, "Service price is missing");
    }
    if price.value.NotFinite? || price.value.amount <= 0.0 {
      return BookFailed(400, "Service price is invalid");
    }
    var priceNumber := price.value.amount;
    var gatewayOrder := createGatewayOrder(priceNumber);
    if gatewayOrder.None? {
      return BookFailed(500, "Failed to book service");
    }
    var booked := bookService(serviceData, userId.value, gatewayOrder.value, priceNumber);
    if booked.None? {
      return BookFailed(500, "Failed to book service");
    }
    r := Booked(serviceData, gatewayOrder.value, priceNumber, booked.value);
  }

  // ---------------------------------------------------------------- listing services

  datatype ServiceRecord = ServiceRecord(id: string, ownerId: string)

  datatype Page = Page(message: string, services: seq<ServiceRecord>, take: nat, skip: nat, total: nat, hasNext: bool)
  datatype ListReply = Listed(page: Page) | ListFailed(code: int, error: string)

  predicate VisibleRecord(s: ServiceRecord, isAdminUser: bool, userId: string)
  {
    isAdminUser || s.ownerId == userId
  }

  /** The rows a user may list: every row for an admin, a user's own rows otherwise, in order. */
  function VisibleTo(rows: seq<ServiceRecord>, isAdminUser: bool, userId: string): (v: seq<ServiceRecord>)
    ensures |v| <= |rows|
    ensures forall k :: 0 <= k < |v| ==> v[k] in rows && VisibleRecord(v[k], isAdminUser, userId)
    ensures forall k :: 0 <= k < |rows| && VisibleRecord(rows[k], isAdminUser, userId) ==> rows[k] in v
    ensures isAdminUser ==> v == rows
  {
    if rows == [] then []
    else
      var rest := VisibleTo(rows[1..], isAdminUser, userId);
      assert forall k :: 1 <= k < |rows| ==> rows[k] == rows[1..][k - 1];
      if VisibleRecord(rows[0], isAdminUser, userId) then [rows[0]] + rest else rest
  }

  function Min(a: int, b: int): int
  {
    if a <= b then a else b
  }

  /** The rows `skip` to `skip + take` of the visible rows. */
  function PageRows(v: seq<ServiceRecord>, take: nat, skip: nat): (p: seq<ServiceRecord>)
    ensures |p| <= take
    ensures skip <= |v| ==> p == v[skip..Min(skip + take, |v|)]
    ensures skip >= |v| ==> p == []
  {
    if skip >= |v| then [] else v[skip..Min(skip + take, |v|)]
  }

  /** `GetAllServicesHandler`. The parsed pagination, the role check and the rows are inputs;
      `lookupFails` is a failing query. */
  function ListServices(userId: Option<string>, isAdminUser: bool, take: nat, skip: nat,
                        rows: seq<ServiceRecord>, lookupFails: bool): (r: ListReply)
    ensures !Truthy(userId) ==> r == ListFailed(401, "Unauthorized")
    ensures Truthy(userId) && lookupFails ==> r == ListFailed(500, "API Error")
    ensures r.Listed? ==> Truthy(userId) && r.page.take == take && r.page.skip == skip
    ensures r.Listed? ==> r.page.total == |VisibleTo(rows, isAdminUser, userId.value)|
    ensures r.Listed? ==> (r.page.hasNext <==> skip + take < r.page.total)
    ensures r.Listed? ==> (r.page.message == "No services found" <==> r.page.services == [])
  {
    if !Truthy(userId) then ListFailed(401, "Unauthorized")
    else if lookupFails then ListFailed(500, "API Error")
    else
      var visible := VisibleTo(rows, isAdminUser, userId.value);
      var services := PageRows(visible, take, skip);
      var total := |visible|;
      Listed(Page(
        if |services| > 0 then "Services retrieved successfully" else "No services found",
        services, take, skip, total, skip + take < total))
  }

  /** A non-admin lists only their own rows; an admin lists every row and counts them all. */
  lemma ListingIsScoped(userId: string, isAdminUser: bool, take: nat, skip: nat, rows: seq<ServiceRecord>)
    requires userId != ""
    ensures ListServices(Some(userId), isAdminUser, take, skip, rows, false).Listed?
    ensures !isAdminUser ==> forall s :: s in ListServices(Some(userId), isAdminUser, take, skip, rows, false).page.services ==> s.ownerId == userId
    ensures isAdminUser ==> ListServices(Some(userId), isAdminUser, take, skip, rows, false).page.total == |rows|
  {
    var visible := VisibleTo(rows, isAdminUser, userId);
    var page := PageRows(visible, take, skip);
    forall s | s in page ensures isAdminUser || s.ownerId == userId {
      var k :| 0 <= k < |page| && page[k] == s;
      assert page[k] == visible[skip + k];
    }
  }

  /** When a page says there is more, the next page (at `skip + take`) is not empty. */
  lemma NextPageNonEmpty(userId: string, isAdminUser: bool, take: nat, skip: nat, rows: seq<ServiceRecord>)
    requires userId != "" && take > 0
    requires ListServices(Some(userId), isAdminUser, take, skip, rows, false).page.hasNext
    ensures ListServices(Some(userId), isAdminUser, take, skip + take, rows, false).page.services != []
  {
    var visible := VisibleTo(rows, isAdminUser, userId);
    assert |PageRows(visible, take, skip + take)| == Min(skip + take + take, |visible|) - (skip + take);
  }

  // ---------------------------------------------------------------- cancelling a service

  /** The status update handed to the service layer; `ownerScope` restricts it to one owner's
      rows, `None` leaves it unrestricted. */
  datatype StatusUpdate = StatusUpdate(id: string, status: BookingStatus, ownerScope: Option<string>)

  datatype DeleteReply = Deleted(update: StatusUpdate) | DeleteFailed(code: int, error: string)

  /** `DeleteServiceHandler`: a "delete" is a status update to cancelled, scoped to the caller
      unless the caller is an admin; any failure of the update gives 422. */
  function DeleteService(id: Option<string>, userId: Option<string>, isAdminUser: bool,
                         updateStatus: StatusUpdate -> bool): (r: DeleteReply)
    ensures !Truthy(id) ==> r == DeleteFailed(400, "Service ID is required")
    ensures Truthy(id) ==>
      var update := StatusUpdate(id.value, BookingCancelled, if isAdminUser then None else userId);
      r == if updateStatus(update) then Deleted(update) else DeleteFailed(422, "Failed to delete service")
    ensures r.Deleted? ==> r.update.status == BookingCancelled
    ensures r.Deleted? ==> (r.update.ownerScope.None? <==> isAdminUser || userId.None?)
  {
    if !Truthy(id) then DeleteFailed(400, "Service ID is required")
    else
      var update := StatusUpdate(id.value, BookingStatusNamed("CANCELLED").value, if isAdminUser then None else userId);
      if updateStatus(update) then Deleted(update) else DeleteFailed(422, "Failed to delete service")
  }

  /** The handler does not check for a user: a non-admin request without one hands the service
      layer the same unrestricted update an admin's request does. */
  lemma AnonymousDeleteIsUnscoped(id: string, updateStatus: StatusUpdate -> bool)
    requires id != ""
    ensures DeleteService(Some(id), None, false, updateStatus) == DeleteService(Some(id), Some("any-admin"), true, updateStatus)
  {
  }

  // ---------------------------------------------------------------- admin additions

  datatype AddKind = ServiceDefinitionKind | SlotKind

  /** A delegated call that either returns or throws with a message. */
  datatype Outcome<T> = Done(value: T) | Threw(message: string)

  datatype AdminReply<T> = Added(message: string, value: T) | AdminFailed(code: int, error: string)

  function InvalidBodyMessage(kind: AddKind): string
  {
    match kind
    case ServiceDefinitionKind => "Invalid service data"
    case SlotKind => "Invalid slot data"
  }

  function AddedMessage(kind: AddKind): string
  {
    match kind
    case ServiceDefinitionKind => "Service added successfully"
    case SlotKind => "Slot added successfully"
  }

  /** `AddServiceHandler` and `AddSlotHandler`: the body is validated first, then the caller
      must be an admin with a user id, then the addition runs. */
  function AddHandler<T>(kind: AddKind, bodyValid: bool, userId: Option<string>, isAdminUser: bool,
                         add: Outcome<T>): (r: AdminReply<T>)
    ensures !bodyValid ==> r == AdminFailed(400, InvalidBodyMessage(kind))
    ensures bodyValid && (!Truthy(userId) || !isAdminUser) ==> r == AdminFailed(403, "Forbidden")
    ensures r.Added? <==> bodyValid && Truthy(userId) && isAdminUser && add.Done?
    ensures r.Added? ==> r == Added(AddedMessage(kind), add.value)
    ensures bodyValid && Truthy(userId) && isAdminUser && add.Threw? ==> r == AdminFailed(500, add.message)
  {
    if !bodyValid then AdminFailed(400, InvalidBodyMessage(kind))
    else if !Truthy(userId) || !isAdminUser then AdminFailed(403, "Forbidden")
    else match add
      case Done(value) => Added(AddedMessage(kind), value)
      case Threw(message) => AdminFailed(500, message)
  }

  // ---------------------------------------------------------------- deleting slots

  /** The `slotIds` body field: a list of ids, or a single value that may be missing. */
  datatype SlotIdsField = IdList(ids: seq<string>) | SingleId(id: Option<string>)

  datatype SlotReply = SlotsDeleted(deleted: nat) | SlotFailed(code: int, error: string)

  /** `Array.isArray(x) ? x : [x]`: a single value, even a missing one, becomes a list of one. */
  function SlotIdList(f: SlotIdsField): (ids: seq<Option<string>>)
    ensures f.IdList? ==> |ids| == |f.ids| && forall k :: 0 <= k < |ids| ==> ids[k] == Some(f.ids[k])
    ensures f.SingleId? ==> ids == [f.id]
  {
    match f
    case IdList(ids) => seq(|ids|, k requires 0 <= k < |ids| => Some(ids[k]))
    case SingleId(id) => [id]
  }

  /** Whether the request names at least one slot. */
  predicate SlotIdsGiven(f: SlotIdsField)
  {
    match f
    case IdList(ids) => ids != []
    case SingleId(id) => Truthy(id)
  }

  function SlotDeletion(outcome: Outcome<nat>): SlotReply
  {
    match outcome
    case Done(n) => SlotsDeleted(n)
    case Threw(message) => SlotFailed(422, if message != "" then message else "Failed to delete slot")
  }

  /** `DeleteSlotHandler` as written: the emptiness guard looks at the wrapped list, which a
      missing `slotIds` never leaves empty. */
  function DeleteSlotsAsWritten(userId: Option<string>, isAdminUser: bool, f: SlotIdsField,
                                deleteSlots: seq<Option<string>> -> Outcome<nat>): (r: SlotReply)
    ensures r == SlotFailed(400, "Slot ID is required") <==> f == IdList([])
    ensures f != IdList([]) && (!Truthy(userId) || !isAdminUser) ==> r == SlotFailed(403, "Forbidden")
    ensures r.SlotsDeleted? ==> Truthy(userId) && isAdminUser && deleteSlots(SlotIdList(f)) == Done(r.deleted)
  {
    var slotIds := SlotIdList(f);
    if |slotIds| == 0 then SlotFailed(400, "Slot ID is required")
    else if !Truthy(userId) || !isAdminUser then SlotFailed(403, "Forbidden")
    else SlotDeletion(deleteSlots(slotIds))
  }

  /** A request without `slotIds` passes the guard and reaches the service layer as `[undefined]`. */
  lemma MissingSlotIdPassesGuard(userId: string, deleteSlots: seq<Option<string>> -> Outcome<nat>)
    requires userId != ""
    ensures DeleteSlotsAsWritten(Some(userId), true, SingleId(None), deleteSlots) == SlotDeletion(deleteSlots([None]))
    ensures DeleteSlotsAsWritten(Some(userId), true, SingleId(None), deleteSlots) != SlotFailed(400, "Slot ID is required")
  {
  }

  /** `DeleteSlotHandler` with the guard it evidently intends: 400 whenever no slot id is given. */
  function DeleteSlots(userId: Option<string>, isAdminUser: bool, f: SlotIdsField,
                       deleteSlots: seq<Option<string>> -> Outcome<nat>): (r: SlotReply)
    ensures r == SlotFailed(400, "Slot ID is required") <==> !SlotIdsGiven(f)
    ensures SlotIdsGiven(f) && (!Truthy(userId) || !isAdminUser) ==> r == SlotFailed(403, "Forbidden")
    ensures r.SlotsDeleted? ==> Truthy(userId) && isAdminUser && SlotIdsGiven(f)
  {
    if !SlotIdsGiven(f) then SlotFailed(400, "Slot ID is required")
    else if !Truthy(userId) || !isAdminUser then SlotFailed(403, "Forbidden")
    else SlotDeletion(deleteSlots(SlotIdList(f)))
  }

  /** Whenever a slot id is given, the corrected handler answers as the written one does. */
  lemma DeleteSlotsAgreeWhenGiven(userId: Option<string>, isAdminUser: bool, f: SlotIdsField,
                                  deleteSlots: seq<Option<string>> -> Outcome<nat>)
    requires SlotIdsGiven(f)
    ensures DeleteSlots(userId, isAdminUser, f, deleteSlots) == DeleteSlotsAsWritten(userId, isAdminUser, f, deleteSlots)
  {
    assert |SlotIdList(f)| > 0;
  }

  // ---------------------------------------------------------------- the admin's booking update

  datatype UpdateReply = BookingUpdated(id: string, booking: ServiceBooking) | UpdateFailed(code: int, error: string)

  /** The after-image written: an uploaded URL when one was produced and is non-empty, the
      current one otherwise (`afterImageUrl || undefined` leaves the column as it is). */
  function AfterImage(current: Option<string>, uploaded: Option<string>): (r: Option<string>)
    ensures uploaded.None? ==> r == current
    ensures Truthy(uploaded) ==> r == uploaded
    ensures r == current || r == uploaded
  {
    if Truthy(uploaded) then uploaded else current
  }

  /** The booking table `AdminUpdateBookingHandler` writes. */
  class BookingTable {
    var bookings: map<string, ServiceBooking>

    constructor (bookings: map<string, ServiceBooking>)
      ensures this.bookings == bookings
    {
      this.bookings := bookings;
    }

    /** `AdminUpdateBookingHandler`: only JPEG and PNG files within the size limit, a `status`
        field, an existing booking; an upload failure or a status the enum does not know ends in
        the handler's catch-all 400 "Status is required". The upload is a parameter. */
    method AdminUpdateBooking(id: string, adminId: Option<string>, parts: seq<Part>,
                              upload: FileInfo -> Option<string>) returns (r: UpdateReply)
      modifies this
      ensures r.UpdateFailed? ==> bookings == old(bookings)
      ensures r.BookingUpdated? ==> r.id == id && id in old(bookings) && bookings == old(bookings)[id := r.booking]
      ensures !Truthy(adminId) ==> r == UpdateFailed(401, "Unauthorized")
      ensures Truthy(adminId) ==>
        match PartsScan(parts, AfterImageTypes)
        case Rejected(error) => r == UpdateFailed(400, error)
        case Scanned(fields, file) =>
          var status := if "status" in fields then Some(fields["status"]) else None;
          if !Truthy(status) then r == UpdateFailed(400, "Status is required")
          else if id !in old(bookings) then r == UpdateFailed(404, "Booking not found")
          else if file.Some? && upload(file.value).None? then r == UpdateFailed(400, "Status is required")
          else if BookingStatusNamed(status.value).None? then r == UpdateFailed(400, "Status is required")
          else
            var uploaded := if file.Some? then upload(file.value) else None;
            r == BookingUpdated(id, ServiceBooking(BookingStatusNamed(status.value).value,
                                                   AfterImage(old(bookings)[id].afterImageUrl, uploaded)))
    {
      if !Truthy(adminId) {
        return UpdateFailed(401, "Unauthorized");
      }
      var scan := ScanParts(parts, AfterImageTypes);
      if scan.Rejected? {
        return UpdateFailed(400, scan.error);
      }
      var status := if "status" in scan.fields then Some(scan.fields["status"]) else None;
      if !Truthy(status) {
        return UpdateFailed(400, "Status is required");
      }
      if id !in bookings {
        return UpdateFailed(404, "Booking not found");
      }
      var booking := bookings[id];
      var afterImageUrl := booking.afterImageUrl;
      if scan.file.Some? {
        var uploadedUrl := upload(scan.file.value);
        if uploadedUrl.None? {
          return UpdateFailed(400, "Status is required");
        }
        afterImageUrl := uploadedUrl;
      }
      var newStatus := BookingStatusNamed(status.value);
      if newStatus.None? {
        return UpdateFailed(400, "Status is required");
      }
      var updated := ServiceBooking(newStatus.value, if Truthy(afterImageUrl) then afterImageUrl else booking.afterImageUrl);
      bookings := bookings[id := updated];
      r := BookingUpdated(id, updated);
    }
  }
}
