/**
 * The one-time-password page: the code field keeps only digits, the form
 * submits only a six-digit code, `loading` is set around the
 * verification call, success goes to the dashboard, and a missing phone
 * number sends the user back to the login page. Toasts and navigations
 * are recorded in order as effects.
 */
module VerifyPage {
  import opened Js
  import Api

  // ---------------------------------------------------------------- the code field

  /** `value.replace(/\D/g, '')`: every character other than an ASCII digit is removed. */
  function SanitizeCode(text: string): (r: string)
    ensures |r| <= |text|
    ensures forall i :: 0 <= i < |r| ==> IsDigit(r[i])
    ensures IsSubsequence(r, text)
  {
    if text == [] then ""
    else if IsDigit(text[0]) then
      var rest := SanitizeCode(text[1..]);
      assert ([text[0]] + rest)[1..] == rest;
      [text[0]] + rest
    else SanitizeCode(text[1..])
  }

  /** The sanitiser keeps exactly the digits, in order: it is the filter that keeps digits. */
  lemma {:induction false} SanitizeKeepsDigits(text: string)
    ensures SanitizeCode(text) == Select(text, IsDigit)
  {
    if text != [] {
      SanitizeKeepsDigits(text[1..]);
    }
  }

  /** Text that is already all digits is left alone; in particular the sanitiser is idempotent. */
  lemma {:induction false} SanitizeIdempotent(text: string)
    ensures forall i :: 0 <= i < |text| && IsDigit(text[i]) ==> text[i] in SanitizeCode(text)
    ensures (forall i :: 0 <= i < |text| ==> IsDigit(text[i])) ==> SanitizeCode(text) == text
    ensures SanitizeCode(SanitizeCode(text)) == SanitizeCode(text)
  {
    SanitizeKeepsDigits(text);
    forall i | 0 <= i < |text| && IsDigit(text[i])
      ensures text[i] in SanitizeCode(text)
    {
      SelectKeeps(text, IsDigit, text[i]);
    }
    if forall i :: 0 <= i < |text| ==> IsDigit(text[i]) {
      SelectAll(text, IsDigit);
    }
    var r := SanitizeCode(text);
    SanitizeKeepsDigits(r);
    SelectAll(r, IsDigit);
  }

  /** Pasting two pieces sanitises each on its own. */
  lemma {:induction false} SanitizeAppend(a: string, b: string)
    ensures SanitizeCode(a + b) == SanitizeCode(a) + SanitizeCode(b)
  {
    if a == [] {
      assert a + b == b;
    } else {
      assert (a + b)[1..] == a[1..] + b;
      SanitizeAppend(a[1..], b);
    }
  }

  /** `disabled={loading || code.length !== 6}`, negated. */
  predicate CanSubmit(loading: bool, code: string)
    ensures CanSubmit(loading, code) ==> forall result :: SubmitEffects(code, result)[0] == SetLoading(true)
  {
    !loading && |code| == 6
  }

  /** A code that reaches the submit gate came from the sanitiser, so a submittable code is six digits. */
  lemma SubmittableCodeIsSixDigits(loading: bool, text: string)
    requires CanSubmit(loading, SanitizeCode(text))
    ensures |SanitizeCode(text)| == 6 && forall i :: 0 <= i < 6 ==> IsDigit(SanitizeCode(text)[i])
  {
  }

  // ---------------------------------------------------------------- effects

  /** What the page does besides its own state: navigations, toasts, and the `loading` writes. */
  datatype Effect =
    | Navigate(path: string)
    | ToastSuccess(text: string)
    | ToastError(text: string)
    | ToastErrorOf(failure: Api.Failure)
    | SetLoading(on: bool)

  /** `searchParams.get('phone') || ''`. */
  function PhoneOf(param: Option<string>): (phone: string)
    ensures param.None? ==> phone == ""
    ensures param.Some? ==> phone == param.value
  {
    if param.Some? && param.value != "" then param.value else ""
  }

  /** The redirect effect: an empty phone number goes back to `/login`. */
  function RedirectEffects(phone: string): (r: seq<Effect>)
    ensures r == [] || r == [Navigate("/login")]
    ensures r != [] <==> phone == ""
  {
    if phone == "" then [Navigate("/login")] else []
  }

  /**
   * `toast.error(error.message || 'Invalid OTP code')`: a message the
   * request layer chose, or the fallback when it is empty; for other
   * failures the message is the one the engine gives the thrown error.
   */
  function ErrorToast(f: Api.Failure): (r: Effect)
    ensures f.Message? ==> r.ToastError? && r.text != ""
    ensures f.Message? && f.text != "" ==> r == ToastError(f.text)
    ensures !f.Message? ==> r == ToastErrorOf(f)
  {
    match f
    case Message(text) => ToastError(if text != "" then text else "Invalid OTP code")
    case _ => ToastErrorOf(f)
  }

  /** `handleSubmit`'s effects for the code and the settled verification. */
  function SubmitEffects(code: string, result: Api.Outcome): (r: seq<Effect>)
    ensures |r| >= 1
    ensures |r| == 1 <==> |code| != 6
    ensures Navigate("/dashboard") in r ==> result.Success?
  {
    if |code| != 6 then [ToastError("Please enter a 6-digit code")]
    else
      [SetLoading(true)]
      + (match result
         case Success(_) => [ToastSuccess("Login successful!"), Navigate("/dashboard")]
         case Thrown(f) => [ErrorToast(f)])
      + [SetLoading(false)]
  }

  /** A code that is not six characters long shows the error, and nothing else happens. */
  lemma SubmitGate(code: string, result: Api.Outcome)
    requires |code| != 6
    ensures SubmitEffects(code, result) == [ToastError("Please enter a 6-digit code")]
    ensures forall k :: 0 <= k < |SubmitEffects(code, result)| ==>
      !SubmitEffects(code, result)[k].SetLoading? && !SubmitEffects(code, result)[k].Navigate?
  {
  }

  /**
   * A six-character code brackets the call: `loading` is set first and
   * cleared last, on success and on failure, and is written nowhere else.
   */
  lemma LoadingBracket(code: string, result: Api.Outcome)
    requires |code| == 6
    ensures var e := SubmitEffects(code, result);
      && |e| >= 2 && e[0] == SetLoading(true) && e[|e| - 1] == SetLoading(false)
      && forall k :: 0 < k < |e| - 1 ==> !e[k].SetLoading?
  {
  }

  /**
   * The dashboard is opened exactly when a six-character code was sent
   * and the verification answered 2xx with a JSON body; a message the
   * request layer chose is never empty, so its toast shows that message.
   */
  lemma NavigatesOnlyOnSuccess(code: string, outcome: Api.HttpOutcome)
    ensures Navigate("/dashboard") in SubmitEffects(code, Api.Settle(outcome)) <==>
      |code| == 6 && outcome.Response? && Api.Ok(outcome.status) && outcome.body.Some?
    ensures |code| == 6 && outcome.Response? && !Api.Ok(outcome.status) && Api.ErrorOf(outcome.status, outcome.body).Message? ==>
      ToastError(Api.ErrorOf(outcome.status, outcome.body).text) in SubmitEffects(code, Api.Settle(outcome))
  {
    Api.SettleSuccess(outcome);
    if outcome.Response? && !Api.Ok(outcome.status) {
      Api.ErrorMessages(outcome.status, outcome.body);
    }
  }

  // ---------------------------------------------------------------- the form

  class VerifyForm {
    const phone: string
    var code: string
    var loading: bool
    ghost var trace: seq<Effect>

    /** First render: an empty code, not loading, the phone from the query string. */
    constructor (phoneParam: Option<string>)
      ensures phone == PhoneOf(phoneParam) && code == "" && !loading && trace == []
    {
      phone := PhoneOf(phoneParam);
      code := "";
      loading := false;
      trace := [];
    }

    /** The effect on `phone`: redirect to the login page when it is empty. */
    method CheckPhone()
      modifies this
      ensures code == old(code) && loading == old(loading)
      ensures trace == old(trace) + RedirectEffects(phone)
    {
      if phone == "" {
        trace := trace + [Navigate("/login")];
      }
    }

    /** The code field's `onChange`. */
    method OnInputChange(text: string)
      modifies this
      ensures code == SanitizeCode(text) && loading == old(loading) && trace == old(trace)
    {
      code := SanitizeCode(text);
    }

    /**
     * `handleSubmit`: the length gate, then `loading` on, the verification
     * through the request layer, the toast and navigation for its result,
     * and `loading` off. No request is made when the gate refuses.
     */
    method Submit(api: Api.ApiClient, outcome: Api.HttpOutcome) returns (req: Option<Api.HttpRequest>)
      modifies this, api
      ensures code == old(code)
      ensures trace == old(trace) + SubmitEffects(code, Api.Settle(outcome))
      ensures |code| != 6 ==> req.None? && loading == old(loading) && api.authToken == old(api.authToken)
      ensures |code| == 6 ==> !loading && req.Some?
      ensures |code| == 6 ==> req.value.body == Some(JObject(map["phone" := JString(phone), "code" := JString(code)]))
      ensures |code| == 6 ==>
        api.authToken == (var r := Api.Settle(outcome);
                          if r.Success? && Api.TokenOf(r.data).Some? then Api.TokenOf(r.data) else old(api.authToken))
    {
      if |code| != 6 {
        trace := trace + [ToastError("Please enter a 6-digit code")];
        req := None;
        return;
      }
      loading := true;
      trace := trace + [SetLoading(true)];
      var sent, result := api.VerifyOtp(phone, code, outcome);
      req := Some(sent);
      match result {
        case Success(_) =>
          trace := trace + [ToastSuccess("Login successful!"), Navigate("/dashboard")];
        case Thrown(f) =>
          trace := trace + [ErrorToast(f)];
      }
      loading := false;
      trace := trace + [SetLoading(false)];
    }
  }
}
