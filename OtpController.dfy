/** backend/src/controllers/auth/auth.otp.controller.ts: the two OTP endpoints, which validate
    the body, call the OTP service and shape the reply. */
module OtpController {
  import opened Common
  import opened OtpSchema
  import opened OtpService

  datatype RequestReply = RequestReply(code: int, message: string, channel: Option<string>)

  /** The `response` object of a verify call: one entry per verifier that ran. */
  datatype VerifyResults = VerifyResults(phone: Option<VerifyResult>, email: Option<VerifyResult>)

  datatype VerifyReply = VerifyReply(code: int, message: string, results: VerifyResults)

  /** Whether a verifier ran and reported success (`phoneResult?.success`). */
  predicate Succeeded(r: Option<VerifyResult>)
  {
    r.Some? && r.value.success
  }

  /** `requestOtpHandler`: 400 when the schema fails, 200 with the channel only for a
      "pending" status, 500 for any other status or a thrown error. */
  method RequestOtpHandler(store: OtpStore, body: RequestOtpBody, isEmail: string -> bool, now: int, draw: real,
                           encrypt: string -> string, twilioSend: string -> TwilioReply)
    returns (reply: RequestReply)
    requires 0.0 <= draw < 1.0
    modifies store
    ensures store.users == old(store.users)
    ensures ParseRequestOtp(body, isEmail).None? ==>
      reply == RequestReply(400, "Validation error", None) && store.sessions == old(store.sessions)
    ensures reply.code == 200 || reply.code == 400 || reply.code == 500
    ensures reply.code == 200 ==> reply.message == "OTP sent successfully"
    ensures ParseRequestOtp(body, isEmail).Some? && Truthy(body.phone) ==>
      store.sessions == old(store.sessions) &&
      (reply.code == 200 <==> twilioSend(SmsDestination(body.phone.value)) == TwilioOk("pending")) &&
      (reply.code == 200 ==> reply.channel == Some("phone"))
    ensures ParseRequestOtp(body, isEmail).Some? && !Truthy(body.phone) ==>
      (reply.code == 200 <==> FindUser(old(store.users), body.email.value).Some?) &&
      (reply.code == 200 ==>
        reply.channel == Some("email") &&
        store.sessions == old(store.sessions) +
          [NewEmailSession(old(store.users)[FindUser(old(store.users), body.email.value).value],
                           body.email.value, now, draw, encrypt)]) &&
      (reply.code != 200 ==> store.sessions == old(store.sessions))
  {
    var parsed := ParseRequestOtp(body, isEmail);
    if parsed.None? {
      return RequestReply(400, "Validation error", None);
    }
    var phone, email := parsed.value.phone, parsed.value.email;
    var sent := store.GenerateAndSendOtp(phone, email, now, draw, encrypt, twilioSend);
    match sent
    case Sent(OtpSent(status, channel)) =>
      if status == "pending" {
        reply := RequestReply(200, "OTP sent successfully", Some(channel));
      } else {
        reply := RequestReply(500, "Failed to send OTP", None);
      }
    case Thrown(_) =>
      reply := RequestReply(500, "Request OTP failed", None);
  }

  /** Lines 39-67: copy each verifier's result into the response, and reply 200 exactly when
      some channel succeeded. `None` is a verifier that did not run. Neither verifier throws,
      so every one that ran resolved to a value. */
  method CombineResults(phoneResult: Option<VerifyResult>, emailResult: Option<VerifyResult>)
    returns (reply: VerifyReply)
    ensures reply.results == VerifyResults(phoneResult, emailResult)
    ensures reply.code == 200 <==> Succeeded(phoneResult) || Succeeded(emailResult)
    ensures reply.code == 200 ==> reply.message == "OTP verification completed"
    ensures reply.code != 200 ==> reply.code == 400 && reply.message == "Failed to verify OTP"
  {
    var response := VerifyResults(None, None);
    if phoneResult.Some? {
      response := response.(phone := Some(VerifyResult(phoneResult.value.success, phoneResult.value.message)));
    }
    if emailResult.Some? {
      response := response.(email := Some(VerifyResult(emailResult.value.success, emailResult.value.message)));
    }
    var anySuccess := Succeeded(phoneResult) || Succeeded(emailResult);
    if anySuccess {
      reply := VerifyReply(200, "OTP verification completed", response);
    } else {
      reply := VerifyReply(400, "Failed to verify OTP", response);
    }
  }

  /** `verifyOtpHandler` as written: it passes `body.data.otp` to both verifiers, but the
      schema does not declare `otp` and zod drops undeclared keys, so both verifiers always
      receive `undefined`. Every verify call therefore fails with 400 and changes nothing. */
  method VerifyOtpHandlerAsWritten(store: OtpStore, body: RawVerifyBody, isEmail: string -> bool, now: int,
                                   compare: (string, string) -> bool, twilioCheck: (string, string) -> TwilioReply)
    returns (reply: VerifyReply)
    modifies store
    ensures reply.code == 400
    ensures store.users == old(store.users) && store.sessions == old(store.sessions)
    ensures ParseVerifyOtp(body, isEmail).Some? ==>
      (reply.results.phone.Some? <==> Truthy(body.phone)) &&
      (reply.results.email.Some? <==> Truthy(body.email)) &&
      (reply.results.phone.Some? ==> reply.results.phone.value == VerifyResult(false, "OTP and phone number are required")) &&
      (reply.results.email.Some? ==> reply.results.email.value == VerifyResult(false, "OTP and email are required"))
  {
    var parsed := ParseVerifyOtp(body, isEmail);
    if parsed.None? {
      return VerifyReply(400, "Validation error", VerifyResults(None, None));
    }
    var data := parsed.value;
    var otp: Option<string> := None;  // `body.data.otp`: not a declared property of the schema
    var phoneResult: Option<VerifyResult> := None;
    var emailResult: Option<VerifyResult> := None;
    if Truthy(data.phone) {
      var p := store.VerifyOtp(otp, data.phone, twilioCheck);
      phoneResult := Some(p);
    }
    if Truthy(data.email) {
      var e := store.VerifyEmailOtp(otp, data.email, now, compare);
      emailResult := Some(e);
    }
    reply := CombineResults(phoneResult, emailResult);
  }

  /** `verifyOtpHandler` with each verifier given the code of its own channel
      (`phoneOtp`, `emailOtp`), the properties the schema declares for them. */
  method VerifyOtpHandler(store: OtpStore, body: RawVerifyBody, isEmail: string -> bool, now: int,
                          compare: (string, string) -> bool, twilioCheck: (string, string) -> TwilioReply)
    returns (reply: VerifyReply)
    modifies store
    ensures ParseVerifyOtp(body, isEmail).None? ==>
      reply == VerifyReply(400, "Validation error", VerifyResults(None, None)) && unchanged(store)
    ensures ParseVerifyOtp(body, isEmail).Some? ==>
      (reply.results.phone.Some? <==> Truthy(body.phone)) &&
      (reply.results.email.Some? <==> Truthy(body.email)) &&
      (reply.code == 200 <==> Succeeded(reply.results.phone) || Succeeded(reply.results.email))
    ensures reply.code == 200 || reply.code == 400
    ensures Succeeded(reply.results.phone) ==>
      Truthy(body.phoneOtp) && twilioCheck(SmsDestination(body.phone.value), body.phoneOtp.value) == TwilioOk("approved")
    ensures Succeeded(reply.results.email) ==>
      Truthy(body.emailOtp) && Truthy(body.email) &&
      var k := NewestEligible(old(store.sessions), body.email.value, now);
      k.Some? && compare(body.emailOtp.value, old(store.sessions)[k.value].otpCode) &&
      store.sessions == old(store.sessions)[k.value := old(store.sessions)[k.value].(verified := true)]
    ensures !Succeeded(reply.results.phone) && !Succeeded(reply.results.email) ==> store.users == old(store.users)
  {
    var parsed := ParseVerifyOtp(body, isEmail);
    if parsed.None? {
      return VerifyReply(400, "Validation error", VerifyResults(None, None));
    }
    var data := parsed.value;
    var phoneResult: Option<VerifyResult> := None;
    var emailResult: Option<VerifyResult> := None;
    if Truthy(data.phone) {
      var p := store.VerifyOtp(data.phoneOtp, data.phone, twilioCheck);
      phoneResult := Some(p);
    }
    if Truthy(data.email) {
      var e := store.VerifyEmailOtp(data.emailOtp, data.email, now, compare);
      emailResult := Some(e);
    }
    reply := CombineResults(phoneResult, emailResult);
  }
}
