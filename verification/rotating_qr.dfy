/** The RotatingQR component of src/components/RotatingQR.jsx: it polls
    qr-issue for a signed payload, shows it as a QR code and counts the
    seconds until the token's `exp` down once per second. */
module RotatingQr {
  import opened Common
  import opened Wire
  import opened Foreign

  /** How one `fetchToken` call ends: something threw before a reply was
      read (`getSession`, `fetch` or `res.json()`, with the error's
      message), or qr-issue replied with a status that is OK or not, the
      JSON's `error` field and the JSON read as a payload. */
  datatype FetchOutcome =
    | Threw(message: string)
    | Replied(ok: bool, errorField: Option<string>, json: QrPayload)

  const FetchFailed := "Failed to fetch QR token"
  const IssueFailed := "qr-issue failed"

  /** `Math.max(0, (json?.token?.exp ?? now) - now)` with `now` the current
      second: a payload without `exp` gives 0. */
  function TtlOf(json: QrPayload, nowMs: int): (r: int)
    ensures r >= 0
  {
    var now := nowMs / 1000;
    var exp := if json.token.Some? && json.token.value.exp.Some? then json.token.value.exp.value else now;
    Max(0, exp - now)
  }

  /** The message the catch block shows: `e.message || "Failed to fetch QR token"`,
      where a non-OK reply throws `json?.error || "qr-issue failed"`. */
  function FailureMessage(outcome: FetchOutcome): (r: string)
    requires !(outcome.Replied? && outcome.ok)
    ensures r != ""
  {
    match outcome
    case Threw(m) => if m != "" then m else FetchFailed
    case Replied(_, e, _) => if Truthy(e) then e.value else IssueFailed
  }

  /** What the component renders: the QR code of `JSON.stringify(payload)`
      with the seconds left, or "No QR yet."; and the error line when the
      error is not empty. */
  datatype Screen = Screen(qr: Option<string>, expiresIn: Option<int>, errorLine: Option<string>)

  class RotatingQrState {
    var payload: Option<QrPayload>
    var error: string
    var ttl: int

    predicate Valid()
      reads this
    {
      ttl >= 0
    }

    /** `useState(null)`, `useState("")`, `useState(0)` */
    constructor ()
      ensures Valid() && payload == None && error == "" && ttl == 0
    {
      payload := None;
      error := "";
      ttl := 0;
    }

    /** `fetchToken()` at time `nowMs`, ending as `outcome`. */
    method FetchToken(nowMs: int, outcome: FetchOutcome)
      requires Valid()
      modifies this
      ensures Valid()
      ensures outcome.Replied? && outcome.ok ==>
        payload == Some(outcome.json) && ttl == TtlOf(outcome.json, nowMs) && error == ""
      ensures !(outcome.Replied? && outcome.ok) ==>
        payload == None && ttl == 0 && error == FailureMessage(outcome)
    {
      error := "";
      if outcome.Threw? || !outcome.ok {
        error := FailureMessage(outcome);
        payload := None;
        ttl := 0;
        return;
      }
      payload := Some(outcome.json);
      var now := nowMs / 1000;
      var exp := if outcome.json.token.Some? && outcome.json.token.value.exp.Some?
                 then outcome.json.token.value.exp.value else now;
      ttl := Max(0, exp - now);
    }

    /** The one-second countdown: `setTtl(t => Math.max(0, t - 1))`. */
    method Tick()
      requires Valid()
      modifies this
      ensures Valid()
      ensures ttl == Max(0, old(ttl) - 1) && payload == old(payload) && error == old(error)
    {
      ttl := Max(0, ttl - 1);
    }

    function Render(f: Foreign): (s: Screen)
      reads this
      ensures s.qr.Some? <==> payload.Some?
      ensures payload.Some? ==> s.qr == Some(f.stringifyPayload(payload.value)) && s.expiresIn == Some(ttl)
      ensures s.errorLine.Some? <==> error != ""
    {
      Screen(if payload.Some? then Some(f.stringifyPayload(payload.value)) else None,
             if payload.Some? then Some(ttl) else None,
             if error != "" then Some(error) else None)
    }
  }

  /** The seconds shown after `k` ticks from `ttl`. */
  function Countdown(ttl: int, k: nat): int
    decreases k
  {
    if k == 0 then ttl else Max(0, Countdown(ttl, k - 1) - 1)
  }

  /** The countdown never goes below zero and drops by one per tick until then. */
  lemma {:induction false} CountdownClosedForm(ttl: int, k: nat)
    requires ttl >= 0
    ensures Countdown(ttl, k) == Max(0, ttl - k)
    decreases k
  {
    if k > 0 {
      CountdownClosedForm(ttl, k - 1);
    }
  }

  /** The seconds left are the whole seconds from now until `exp`: positive
      exactly when `exp` is later than the current second; a token without
      `exp` shows 0. */
  lemma TtlMeaning(json: QrPayload, nowMs: int)
    ensures json.token.Some? && json.token.value.exp.Some? ==>
      (TtlOf(json, nowMs) > 0 <==> json.token.value.exp.value > nowMs / 1000) &&
      (TtlOf(json, nowMs) > 0 ==> TtlOf(json, nowMs) + nowMs / 1000 == json.token.value.exp.value)
    ensures !(json.token.Some? && json.token.value.exp.Some?) ==> TtlOf(json, nowMs) == 0
  {
  }
}
