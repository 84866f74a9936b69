/** backend/src/services/otp.service.ts: sending and checking one-time passwords.

    Phone codes are sent and checked by Twilio Verify: `twilioSend` and `twilioCheck` are the
    two Twilio calls, given the destination (and code). Email codes are generated here, stored
    hashed in an OTP session row and checked against the newest usable row; `encrypt` and
    `compare` are the unseen hashing helpers. Thrown errors are modelled as `Thrown(message)`.
    Times are milliseconds since the epoch, as `Date.now()` gives them. */
module OtpService {
  import opened Common

  datatype Channel = EMAIL | SMS

  datatype User = User(
    id: string,
    email: Option<string>,
    phone: Option<string>,
    isEmailVerified: bool,
    isPhoneVerified: bool)

  /** One row of the OTP session table; rows are kept oldest first. */
  datatype OtpSession = OtpSession(
    otpCode: string,
    channel: Channel,
    expiresAt: int,
    verified: bool,
    email: string,
    userId: string)

  datatype OtpSent = OtpSent(status: string, channel: string)

  /** The outcome of a function that either returns or throws `Error(message)`. */
  datatype SendOutcome = Sent(sent: OtpSent) | Thrown(message: string)

  datatype VerifyResult = VerifyResult(success: bool, message: string)

  /** A Twilio error: its Twilio `code`, its HTTP `status` and its message. */
  datatype TwilioError = TwilioError(code: Option<int>, status: Option<int>, message: string)

  /** What a Twilio Verify call yields: the verification's status, or an error. */
  datatype TwilioReply = TwilioOk(status: string) | TwilioFailed(error: TwilioError)

  /** Email codes are valid for five minutes. */
  const OtpLifetimeMs := 5 * 60 * 1000

  /** Stands for the message of Prisma's record-not-found error on an update. */
  const UpdateFailedMessage := "Record to update not found."

  /** Destination of an SMS: the phone as given when it starts with '+', else with the
      Indian country code in front. Used both when sending and when checking. */
  function SmsDestination(phone: string): (to: string)
    ensures StartsWith(to, "+")
    ensures to == phone || to == "+91" + phone
    ensures to == phone <==> StartsWith(phone, "+")
  {
    if StartsWith(phone, "+") then phone else "+91" + phone
  }

  /** Error thrown when Twilio refuses to send a code. */
  function SendErrorMessage(e: TwilioError): string
  {
    if e.code == Some(60212) || e.status == Some(429) then "Too many OTP requests. Please try again later"
    else if e.code == Some(60200) then "Maximum OTP send attempts reached. Please try again later"
    else if e.code == Some(21211) then "Invalid phone number"
    else if e.message != "" then e.message
    else "Failed to send OTP via phone"
  }

  /** Failure message when Twilio refuses to check a code. */
  function VerifyErrorMessage(e: TwilioError): string
  {
    if e.code == Some(20404) then "OTP verification session not found or expired"
    else if e.code == Some(60200) then "Maximum OTP verification attempts reached"
    else if e.message != "" then e.message
    else "Phone OTP verification failed"
  }

  /** Rate limiting is reported as such whatever else the error says. */
  lemma RateLimitWins(code: Option<int>, message: string)
    ensures SendErrorMessage(TwilioError(code, Some(429), message)) == "Too many OTP requests. Please try again later"
    ensures SendErrorMessage(TwilioError(Some(60212), None, message)) == "Too many OTP requests. Please try again later"
  {
  }

  /** The email code: `Math.floor(100000 + Math.random() * 900000)`, where `draw` is the
      value of `Math.random()` (IEEE rounding is not modelled). */
  function OtpCode(draw: real): (n: int)
    requires 0.0 <= draw < 1.0
    ensures 100000 <= n <= 999999
  {
    (100000.0 + draw * 900000.0).Floor
  }

  function Digit(d: int): (c: char)
    requires 0 <= d <= 9
    ensures '0' <= c <= '9' && c as int - '0' as int == d
  {
    (d + '0' as int) as char
  }

  function Pow10(k: nat): (p: nat)
    ensures p >= 1
  {
    if k == 0 then 1 else 10 * Pow10(k - 1)
  }

  predicate AllDigits(s: string)
  {
    forall i :: 0 <= i < |s| ==> '0' <= s[i] <= '9'
  }

  /** The last `width` decimal digits of `n`, most significant first. */
  function DecimalText(n: nat, width: nat): (s: string)
    ensures |s| == width && AllDigits(s)
  {
    if width == 0 then [] else DecimalText(n / 10, width - 1) + [Digit(n % 10)]
  }

  /** The number a string of decimal digits denotes. */
  function DecimalValue(s: string): (v: nat)
    requires AllDigits(s)
  {
    if s == [] then 0 else DecimalValue(s[..|s| - 1]) * 10 + (s[|s| - 1] as int - '0' as int)
  }

  lemma ModUnique(n: int, m: int, a: int, t: int)
    requires m > 0 && 0 <= t < m && n == m * a + t
    ensures n % m == t
  {
    var d := n / m;
    assert m * (a - d) == n % m - t;
    if a - d >= 1 {
      assert false;
    } else if a - d <= -1 {
      assert false;
    }
  }

  lemma ModOfSum(n: nat, q: nat, r: nat, p: nat)
    requires p >= 1 && r < 10 && n == 10 * q + r
    ensures n % (10 * p) == 10 * (q % p) + r
  {
    var a, b := q / p, q % p;
    assert q == p * a + b;
    assert n == (10 * p) * a + (10 * b + r);
    ModUnique(n, 10 * p, a, 10 * b + r);
  }

  /** Reading back the digits gives the number modulo 10^width. */
  lemma {:induction false} DecimalRoundTrip(n: nat, width: nat)
    ensures DecimalValue(DecimalText(n, width)) == n % Pow10(width)
  {
    if width > 0 {
      var s := DecimalText(n, width);
      var prefix := DecimalText(n / 10, width - 1);
      assert s[..|s| - 1] == prefix;
      DecimalRoundTrip(n / 10, width - 1);
      ModOfSum(n, n / 10, n % 10, Pow10(width - 1));
    }
  }

  /** The code as sent and hashed: its decimal text. */
  function OtpText(n: int): (s: string)
    requires 100000 <= n <= 999999
    ensures |s| == 6 && AllDigits(s)
    ensures DecimalValue(s) == n
  {
    DecimalRoundTrip(n, 6);
    SixDigitsFit(n);
    DecimalText(n, 6)
  }

  lemma SixDigitsFit(n: int)
    requires 100000 <= n <= 999999
    ensures n % Pow10(6) == n
  {
    assert Pow10(6) == 1000000 by {
      assert Pow10(3) == 1000;
      assert Pow10(6) == 10 * (10 * (10 * Pow10(3)));
    }
    ModUnique(n, 1000000, 0, n);
  }

  predicate UserMatches(u: User, key: string)
  {
    u.email == Some(key) || u.phone == Some(key)
  }

  /** `findUserByEmailOrPhone(key)`: the first user whose email or phone is `key`. */
  function FindUser(users: seq<User>, key: string): Option<nat>
  {
    FirstIndex(users, (u: User) => UserMatches(u, key))
  }

  /** `prisma.user.update({ where: { phone } })`: the user row with that phone. */
  function UserWithPhone(users: seq<User>, phone: string): Option<nat>
  {
    FirstIndex(users, (u: User) => u.phone == Some(phone))
  }

  /** A session that the email check may still use at time `now`. */
  predicate Eligible(s: OtpSession, email: string, now: int)
  {
    s.email == email && s.channel == EMAIL && !s.verified && s.expiresAt >= now
  }

  /** The newest eligible session, the only one a check compares against. */
  function NewestEligible(sessions: seq<OtpSession>, email: string, now: int): Option<nat>
  {
    LastIndex(sessions, (s: OtpSession) => Eligible(s, email, now))
  }

  /** The row `SendEmailOtp` stores for `user`. */
  function NewEmailSession(user: User, email: string, now: int, draw: real, encrypt: string -> string): (s: OtpSession)
    requires 0.0 <= draw < 1.0
    ensures s.otpCode == encrypt(OtpText(OtpCode(draw)))
    ensures s.channel == EMAIL && !s.verified && s.email == email && s.userId == user.id
    ensures s.expiresAt - now == OtpLifetimeMs
  {
    OtpSession(encrypt(OtpText(OtpCode(draw))), EMAIL, now + OtpLifetimeMs, false, email, user.id)
  }

  /** A freshly stored code is the one a check uses until it expires, five minutes later. */
  lemma NewSessionIsNewestEligible(sessions: seq<OtpSession>, s: OtpSession, email: string, now: int, later: int)
    requires s.email == email && s.channel == EMAIL && !s.verified
    ensures NewestEligible(sessions + [s], email, later) == Some(|sessions|) <==> later <= s.expiresAt
  {
    var all := sessions + [s];
    assert all[|all| - 1] == s;
    if later > s.expiresAt {
      assert !Eligible(s, email, later);
    }
  }

  /** Once a check marks the newest session verified, that session can never be used again. */
  lemma VerifiedSessionIsSpent(sessions: seq<OtpSession>, k: nat, email: string, now: int, later: int)
    requires NewestEligible(sessions, email, now) == Some(k)
    ensures NewestEligible(sessions[k := sessions[k].(verified := true)], email, later) != Some(k)
  {
  }

  /** An older session is never compared while a newer one is still eligible. */
  lemma OlderSessionShadowed(sessions: seq<OtpSession>, i: nat, j: nat, email: string, now: int)
    requires i < j < |sessions|
    requires Eligible(sessions[j], email, now)
    ensures NewestEligible(sessions, email, now) != Some(i)
  {
  }

  class OtpStore {
    var users: seq<User>
    var sessions: seq<OtpSession>

    constructor (users0: seq<User>, sessions0: seq<OtpSession>)
      ensures users == users0 && sessions == sessions0
    {
      users := users0;
      sessions := sessions0;
    }

    /** `SendEmailOtp(email)`: generate a code, queue it by email (not modelled) and store
        its hash in a new unverified EMAIL session that expires in five minutes. */
    method SendEmailOtp(email: string, now: int, draw: real, encrypt: string -> string) returns (r: SendOutcome)
      requires 0.0 <= draw < 1.0
      modifies this
      ensures users == old(users)
      ensures email == "" ==> r == Thrown("Email must be provided") && sessions == old(sessions)
      ensures email != "" && FindUser(old(users), email).None? ==>
        r == Thrown("User not found") && sessions == old(sessions)
      ensures email != "" && FindUser(old(users), email).Some? ==>
        var u := FindUser(old(users), email).value;
        r == Sent(OtpSent("pending", "email")) &&
        sessions == old(sessions) + [NewEmailSession(old(users)[u], email, now, draw, encrypt)]
    {
      if email == "" {
        return Thrown("Email must be provided");
      }
      var u := FindUser(users, email);
      if u.None? {
        return Thrown("User not found");
      }
      var otp := OtpText(OtpCode(draw));
      var encryptedOtp := encrypt(otp);
      sessions := sessions + [OtpSession(encryptedOtp, EMAIL, now + OtpLifetimeMs, false, email, users[u.value].id)];
      r := Sent(OtpSent("pending", "email"));
    }

    /** `generateAndSendOtp(phone, email)`: the phone channel when a phone is given,
        else the email channel; neither is an error. */
    method GenerateAndSendOtp(phone: Option<string>, email: Option<string>, now: int, draw: real,
                              encrypt: string -> string, twilioSend: string -> TwilioReply)
      returns (r: SendOutcome)
      requires 0.0 <= draw < 1.0
      modifies this
      ensures users == old(users)
      ensures !Truthy(phone) && !Truthy(email) ==>
        r == Thrown("Either phone or email must be provided") && sessions == old(sessions)
      ensures Truthy(phone) ==> sessions == old(sessions)
      ensures Truthy(phone) ==>
        match twilioSend(SmsDestination(phone.value))
        case TwilioOk(status) => r == Sent(OtpSent(status, "phone"))
        case TwilioFailed(e) => r == Thrown(SendErrorMessage(e))
      ensures !Truthy(phone) && Truthy(email) ==>
        var u := FindUser(old(users), email.value);
        if u.None? then r == Thrown("User not found") && sessions == old(sessions)
        else r == Sent(OtpSent("pending", "email")) &&
             sessions == old(sessions) + [NewEmailSession(old(users)[u.value], email.value, now, draw, encrypt)]
    {
      if !Truthy(phone) && !Truthy(email) {
        return Thrown("Either phone or email must be provided");
      }
      if Truthy(phone) {
        var verification := twilioSend(SmsDestination(phone.value));
        match verification
        case TwilioOk(status) =>
          return Sent(OtpSent(status, "phone"));
        case TwilioFailed(e) =>
          return Thrown(SendErrorMessage(e));
      }
      var sent := SendEmailOtp(email.value, now, draw, encrypt);
      match sent
      case Sent(_) =>
        r := Sent(OtpSent("pending", "email"));
      case Thrown(message) =>
        r := Thrown(if message != "" then message else "Failed to send OTP via email");
    }

    /** `verifyOtp(otp, phone)`: a phone code check by Twilio; it reports every failure as
        `success: false` and only an "approved" check marks the phone verified. */
    method VerifyOtp(otp: Option<string>, phone: Option<string>, twilioCheck: (string, string) -> TwilioReply)
      returns (r: VerifyResult)
      modifies this
      ensures sessions == old(sessions)
      ensures r.success ==> Truthy(otp) && Truthy(phone)
      ensures r.success ==> twilioCheck(SmsDestination(phone.value), otp.value) == TwilioOk("approved")
      ensures !r.success ==> users == old(users)
      ensures !Truthy(otp) || !Truthy(phone) ==> r == VerifyResult(false, "OTP and phone number are required")
      ensures Truthy(otp) && Truthy(phone) && FindUser(old(users), phone.value).None? ==>
        r == VerifyResult(false, "User not found")
      ensures Truthy(otp) && Truthy(phone) && FindUser(old(users), phone.value).Some? ==>
        match twilioCheck(SmsDestination(phone.value), otp.value)
        case TwilioFailed(e) => r == VerifyResult(false, VerifyErrorMessage(e))
        case TwilioOk(status) =>
          if status != "approved" then r == VerifyResult(false, "Invalid or expired OTP")
          else match UserWithPhone(old(users), phone.value)
            case None => r == VerifyResult(false, UpdateFailedMessage)
            case Some(k) =>
              r == VerifyResult(true, "Phone OTP verified successfully") &&
              users == old(users)[k := old(users)[k].(isPhoneVerified := true)]
    {
      if !Truthy(otp) || !Truthy(phone) {
        return VerifyResult(false, "OTP and phone number are required");
      }
      var user := FindUser(users, phone.value);
      if user.None? {
        return VerifyResult(false, "User not found");
      }
      var check := twilioCheck(SmsDestination(phone.value), otp.value);
      match check
      case TwilioFailed(e) =>
        r := VerifyResult(false, VerifyErrorMessage(e));
      case TwilioOk(status) =>
        if status == "approved" {
          var k := UserWithPhone(users, phone.value);
          if k.None? {
            r := VerifyResult(false, UpdateFailedMessage);
          } else {
            users := users[k.value := users[k.value].(isPhoneVerified := true)];
            r := VerifyResult(true, "Phone OTP verified successfully");
          }
        } else {
          r := VerifyResult(false, "Invalid or expired OTP");
        }
    }

    /** `verifyEmailOtp(otp, email)`: compare the code with the newest eligible session only;
        a match marks that session and the user's email verified. The two updates are separate
        writes: when the user found by email-or-phone does not have this email, the second one
        fails after the first has been made. */
    method VerifyEmailOtp(otp: Option<string>, email: Option<string>, now: int, compare: (string, string) -> bool)
      returns (r: VerifyResult)
      modifies this
      ensures r.success ==> Truthy(otp) && Truthy(email)
      ensures !Truthy(otp) || !Truthy(email) ==>
        r == VerifyResult(false, "OTP and email are required") && unchanged(this)
      ensures Truthy(otp) && Truthy(email) && FindUser(old(users), email.value).None? ==>
        r == VerifyResult(false, "User not found") && unchanged(this)
      ensures Truthy(otp) && Truthy(email) && FindUser(old(users), email.value).Some? ==>
        var u := FindUser(old(users), email.value).value;
        match NewestEligible(old(sessions), email.value, now)
        case None =>
          r == VerifyResult(false, "OTP session not found or expired. Please request a new OTP") && unchanged(this)
        case Some(k) =>
          if !compare(otp.value, old(sessions)[k].otpCode) then
            r == VerifyResult(false, "Incorrect OTP. Please try again") && unchanged(this)
          else
            sessions == old(sessions)[k := old(sessions)[k].(verified := true)] &&
            if old(users)[u].email == Some(email.value) then
              r == VerifyResult(true, "Email OTP verified successfully") &&
              users == old(users)[u := old(users)[u].(isEmailVerified := true)]
            else
              r == VerifyResult(false, UpdateFailedMessage) && users == old(users)
    {
      if !Truthy(otp) || !Truthy(email) {
        return VerifyResult(false, "OTP and email are required");
      }
      var user := FindUser(users, email.value);
      if user.None? {
        return VerifyResult(false, "User not found");
      }
      var session := NewestEligible(sessions, email.value, now);
      if session.None? {
        return VerifyResult(false, "OTP session not found or expired. Please request a new OTP");
      }
      var k := session.value;
      if !compare(otp.value, sessions[k].otpCode) {
        return VerifyResult(false, "Incorrect OTP. Please try again");
      }
      sessions := sessions[k := sessions[k].(verified := true)];
      var u := user.value;
      if users[u].email != Some(email.value) {
        return VerifyResult(false, UpdateFailedMessage);
      }
      users := users[u := users[u].(isEmailVerified := true)];
      r := VerifyResult(true, "Email OTP verified successfully");
    }
  }
}
