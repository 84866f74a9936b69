/** backend/src/schemas/otp.schema.ts: the two zod validators of the OTP endpoints.
    A body field is `None` when the property is absent (`undefined`). zod's `.email()`
    check is a library regular expression; it is the parameter `isEmail`. zod measures
    `.min` and `.length` of a string in UTF-16 code units, as JavaScript's `length` does. */
module OtpSchema {
  import opened Common

  /** The body of a request-OTP call. */
  datatype RequestOtpBody = RequestOtpBody(phone: Option<string>, email: Option<string>)

  /** A verify-OTP body as posted. `otp` is a property clients may send,
      but the schema does not declare it. */
  datatype RawVerifyBody = RawVerifyBody(
    phone: Option<string>,
    email: Option<string>,
    phoneOtp: Option<string>,
    emailOtp: Option<string>,
    otp: Option<string>)

  /** What `verifyOtpSchema.safeParse` yields on success: exactly the declared properties
      (zod objects strip unknown keys). */
  datatype VerifyOtpBody = VerifyOtpBody(
    phone: Option<string>,
    email: Option<string>,
    phoneOtp: Option<string>,
    emailOtp: Option<string>)

  /** The number of UTF-16 code units of `s`: a character outside the Basic Multilingual Plane
      takes a surrogate pair. */
  function Utf16Length(s: string): (n: nat)
    ensures |s| <= n <= 2 * |s|
  {
    if s == [] then 0
    else (if s[0] as int >= 0x1_0000 then 2 else 1) + Utf16Length(s[1..])
  }

  /** A string of Basic Multilingual Plane characters (digits, say) has one unit per character. */
  lemma {:induction false} Utf16LengthOfBmp(s: string)
    requires forall i :: 0 <= i < |s| ==> s[i] as int < 0x1_0000
    ensures Utf16Length(s) == |s|
  {
    if s != [] {
      Utf16LengthOfBmp(s[1..]);
    }
  }

  /** An optional property that, when present, satisfies `check`. */
  predicate OptionalOk(o: Option<string>, check: string -> bool)
  {
    o.None? || check(o.value)
  }

  /** The refinement shared by both schemas: `data.phone || data.email`. */
  predicate HasChannel(phone: Option<string>, email: Option<string>)
  {
    Truthy(phone) || Truthy(email)
  }

  /** `requestOtpSchema.safeParse(body)`: `None` is a failed parse. */
  function ParseRequestOtp(body: RequestOtpBody, isEmail: string -> bool): (r: Option<RequestOtpBody>)
    ensures r.Some? ==> r.value == body
    ensures r.Some? ==> HasChannel(r.value.phone, r.value.email)
    ensures r.Some? ==> OptionalOk(body.email, isEmail)
    ensures r.None? ==> !HasChannel(body.phone, body.email) || !OptionalOk(body.email, isEmail)
  {
    if OptionalOk(body.email, isEmail) && HasChannel(body.phone, body.email) then Some(body) else None
  }

  /** `verifyOtpSchema.safeParse(body)`: `None` is a failed parse. */
  function ParseVerifyOtp(body: RawVerifyBody, isEmail: string -> bool): (r: Option<VerifyOtpBody>)
    ensures r.Some? ==> HasChannel(r.value.phone, r.value.email)
    ensures r.Some? ==> OptionalOk(r.value.email, isEmail)
    ensures r.Some? ==> (r.value.phone.Some? ==> Utf16Length(r.value.phone.value) >= 10)
    ensures r.Some? ==> (r.value.phoneOtp.Some? ==> Utf16Length(r.value.phoneOtp.value) == 6)
    ensures r.Some? ==> (r.value.emailOtp.Some? ==> Utf16Length(r.value.emailOtp.value) == 6)
    ensures r.Some? ==> r.value.phone == body.phone && r.value.email == body.email &&
                        r.value.phoneOtp == body.phoneOtp && r.value.emailOtp == body.emailOtp
    ensures r.None? ==>
      !HasChannel(body.phone, body.email) || !OptionalOk(body.email, isEmail) ||
      (body.phone.Some? && Utf16Length(body.phone.value) < 10) ||
      (body.phoneOtp.Some? && Utf16Length(body.phoneOtp.value) != 6) ||
      (body.emailOtp.Some? && Utf16Length(body.emailOtp.value) != 6)
  {
    if && OptionalOk(body.email, isEmail)
       && (body.phone.None? || Utf16Length(body.phone.value) >= 10)
       && (body.phoneOtp.None? || Utf16Length(body.phoneOtp.value) == 6)
       && (body.emailOtp.None? || Utf16Length(body.emailOtp.value) == 6)
       && HasChannel(body.phone, body.email)
    then Some(VerifyOtpBody(body.phone, body.email, body.phoneOtp, body.emailOtp))
    else None
  }

  /** An empty phone is as good as none in the request schema. */
  lemma EmptyPhoneCountsAsAbsent(email: Option<string>, isEmail: string -> bool)
    ensures ParseRequestOtp(RequestOtpBody(Some(""), email), isEmail).Some? <==>
            ParseRequestOtp(RequestOtpBody(None, email), isEmail).Some?
  {
  }

  /** The verify schema never looks at the undeclared `otp` property. */
  lemma VerifyParseIgnoresOtp(body: RawVerifyBody, otp: Option<string>, isEmail: string -> bool)
    ensures ParseVerifyOtp(body.(otp := otp), isEmail) == ParseVerifyOtp(body, isEmail)
  {
  }

  /** No OTP code is required: a body with a long enough phone and no codes at all is accepted. */
  lemma VerifyAcceptsBodyWithoutCodes(phone: string, isEmail: string -> bool)
    requires Utf16Length(phone) >= 10
    ensures ParseVerifyOtp(RawVerifyBody(Some(phone), None, None, None, None), isEmail).Some?
  {
  }

  /** Length is counted as JavaScript counts it: eight digits and a telephone-receiver emoji
      (U+1F4DE, a surrogate pair) make a phone of length 10, which the schema accepts. */
  lemma AstralCharacterCountsTwice(isEmail: string -> bool)
    ensures ParseVerifyOtp(RawVerifyBody(Some("12345678\U{1F4DE}"), None, None, None, None), isEmail).Some?
  {
    assert Utf16Length("12345678\U{1F4DE}") == 10;
  }
}
