/** The Scan page of src/pages/Scan.jsx: `handleScan` reads the QR text,
    checks it, and asks the mint function to mint a POAP to the stored
    wallet, showing the first error on the way. */
module Scan {
  import opened Common
  import opened Wire
  import opened Foreign

  /** The body of a failed invocation, as `mintError.context` yields it:
      none, a JSON body (its `error` and `detail` fields), a text body, or a
      body that could not be read. */
  datatype ErrorContext =
    | NoContext
    | JsonBody(error: Option<string>, detail: Option<string>)
    | TextBody(text: string)
    | Unreadable

  /** How `supabase.functions.invoke("mint", ...)` ends: with `data` (its
      `minted_asset` field), with an error (its message and context), or by throwing. */
  datatype MintReply =
    | Minted(asset: Option<string>)
    | MintError(message: string, context: ErrorContext)
    | MintThrew(message: string)

  /** What the page shows as its error: a text, or the JSON error body
      itself when it has neither `error` nor `detail`. */
  datatype Shown = Message(text: string) | WholeBody(body: ErrorContext)

  const EmptyCode := "Empty QR code"
  const NotJson := "Invalid QR format - not valid JSON"
  const MissingFields := "Invalid QR payload - missing required fields"
  const NoWallet := "No wallet found. Create or login first."
  const MintFailed := "Mint failed"

  /** `body?.error || body?.detail || body || msg` */
  function SelectError(message: string, context: ErrorContext): (r: Shown)
    ensures context.JsonBody? && Truthy(context.error) ==> r == Message(context.error.value)
    ensures context.JsonBody? && !Truthy(context.error) && Truthy(context.detail) ==> r == Message(context.detail.value)
    ensures context.JsonBody? && !Truthy(context.error) && !Truthy(context.detail) ==> r == WholeBody(context)
    ensures context.TextBody? ==> r == Message(if context.text != "" then context.text else message)
    ensures context.NoContext? || context.Unreadable? ==> r == Message(message)
  {
    match context
    case JsonBody(e, d) =>
      if Truthy(e) then Message(e.value) else if Truthy(d) then Message(d.value) else WholeBody(context)
    case TextBody(t) => Message(if t != "" then t else message)
    case _ => Message(message)
  }

  /** `!token?.event || !sig || !signer` fails. */
  predicate Complete(p: QrPayload) {
    p.token.Some? && Truthy(p.token.value.event) && Truthy(p.sig) && Truthy(p.signer)
  }

  /** The body `handleScan` sends for a complete payload and a wallet address. */
  function MintRequest(p: QrPayload, wallet: string): (b: MintBody)
    requires Complete(p)
  {
    MintBody(p.token.value.event, p.token, p.sig, p.signer, Some(wallet))
  }

  /** The effect of one `handleScan` on a page that is not busy: the error
      shown, the payload stored by `setScanned` (`None` when it is not
      called), the mint body sent (if any), and the new `mintSig` (`None`
      when it is not set). */
  datatype ScanStep = ScanStep(error: Shown, scanned: Option<QrPayload>, sent: Option<MintBody>,
                               minted: Option<Option<string>>)

  function HandleScanStep(f: Foreign, text: string, wallet: Option<string>, reply: MintReply): ScanStep {
    if text == "" then ScanStep(Message(EmptyCode), None, None, None)
    else match f.parsePayload(text)
      case None => ScanStep(Message(NotJson), None, None, None)
      case Some(p) =>
        if !Complete(p) then ScanStep(Message(MissingFields), Some(p), None, None)
        else if !Truthy(wallet) then ScanStep(Message(NoWallet), Some(p), None, None)
        else
          var body := MintRequest(p, wallet.value);
          match reply
          case Minted(asset) => ScanStep(Message(""), Some(p), Some(body), Some(if Truthy(asset) then asset else None))
          case MintError(m, c) => ScanStep(SelectError(m, c), Some(p), Some(body), None)
          case MintThrew(m) => ScanStep(Message(if m != "" then m else MintFailed), Some(p), Some(body), None)
  }

  /** `String(result)` for the scanner's array of `n` detected-code objects:
      each object reads "[object Object]", joined with ",". */
  function ArrayText(n: nat): string
    decreases n
  {
    if n <= 1 then (if n == 0 then "" else ObjectText) else ArrayText(n - 1) + "," + ObjectText
  }

  const ObjectText := "[object Object]"

  /** What `onScanSuccess` passes to `handleScan` for a non-empty result whose
      codes have the raw values `codes`: `result[0]?.rawValue || result`. A
      missing `rawValue` is "". */
  function ScanText(codes: seq<string>): string
    requires |codes| > 0
  {
    if codes[0] != "" then codes[0] else ArrayText(|codes|)
  }

  /** The text of `n >= 1` objects has length 16n - 1 and begins with the
      first object's text, so it is never empty. */
  lemma {:induction false} ArrayTextShape(n: nat)
    requires n >= 1
    ensures |ArrayText(n)| == 16 * n - 1 && StartsWith(ArrayText(n), ObjectText)
  {
    if n > 1 {
      ArrayTextShape(n - 1);
      assert ArrayText(n) == ArrayText(n - 1) + ("," + ObjectText);
      assert ArrayText(n)[..|ObjectText|] == ArrayText(n - 1)[..|ObjectText|];
    }
  }

  /** The scanner's first raw value is scanned when it is non-empty; otherwise
      the array's text is. Either way the text is not empty, so the scan gets
      past the empty-code check and stores whatever the text parses to. */
  lemma ScanTextMeaning(f: Foreign, codes: seq<string>, wallet: Option<string>, reply: MintReply)
    requires |codes| > 0
    ensures codes[0] != "" ==> ScanText(codes) == codes[0]
    ensures codes[0] == "" ==> StartsWith(ScanText(codes), ObjectText) && |ScanText(codes)| == 16 * |codes| - 1
    ensures ScanText(codes) != "" &&
            HandleScanStep(f, ScanText(codes), wallet, reply).scanned == f.parsePayload(ScanText(codes))
  {
    if codes[0] == "" {
      ArrayTextShape(|codes|);
    }
  }

  /** `JSON.parse` rejects the array's text, which is not JSON; with that,
      a scan whose first raw value is empty shows "Invalid QR format - not
      valid JSON", stores no payload and sends nothing. */
  lemma ArrayTextNotJson(f: Foreign, codes: seq<string>, wallet: Option<string>, reply: MintReply)
    requires |codes| > 0 && codes[0] == "" && f.parsePayload(ArrayText(|codes|)).None?
    ensures HandleScanStep(f, ScanText(codes), wallet, reply) == ScanStep(Message(NotJson), None, None, None)
  {
    ArrayTextShape(|codes|);
  }

  class ScanPage {
    var busy: bool
    var error: Shown
    var scanned: Option<QrPayload>
    var mintSig: Option<string>
    /** The bodies sent to the mint function, oldest first. */
    var sent: seq<MintBody>

    constructor ()
      ensures !busy && error == Message("") && scanned == None && mintSig == None && sent == []
    {
      busy := false;
      error := Message("");
      scanned := None;
      mintSig := None;
      sent := [];
    }

    /** `handleScan(text)` with the store's wallet address and the mint reply. */
    method HandleScan(f: Foreign, text: string, wallet: Option<string>, reply: MintReply)
      modifies this
      ensures old(busy) ==> busy && error == old(error) && scanned == old(scanned) &&
                            mintSig == old(mintSig) && sent == old(sent)
      ensures !old(busy) ==>
        var s := HandleScanStep(f, text, wallet, reply);
        !busy && error == s.error &&
        scanned == (if s.scanned.Some? then s.scanned else old(scanned)) &&
        mintSig == (if s.minted.Some? then s.minted.value else old(mintSig)) &&
        sent == old(sent) + (if s.sent.Some? then [s.sent.value] else [])
    {
      if busy {
        return;
      }
      busy := true;
      error := Message("");
      Attempt(f, text, wallet, reply);
      busy := false;
    }

    /** `onScanSuccess(result)`, the scanner's `onScan` callback: an empty
        result is ignored, any other is scanned as `ScanText` says. */
    method OnScanSuccess(f: Foreign, codes: seq<string>, wallet: Option<string>, reply: MintReply)
      modifies this
      ensures |codes| == 0 ==> busy == old(busy) && error == old(error) && scanned == old(scanned) &&
                               mintSig == old(mintSig) && sent == old(sent)
      ensures |codes| > 0 && old(busy) ==> busy && error == old(error) && scanned == old(scanned) &&
                                           mintSig == old(mintSig) && sent == old(sent)
      ensures |codes| > 0 && !old(busy) ==>
        var s := HandleScanStep(f, ScanText(codes), wallet, reply);
        !busy && error == s.error &&
        scanned == (if s.scanned.Some? then s.scanned else old(scanned)) &&
        mintSig == (if s.minted.Some? then s.minted.value else old(mintSig)) &&
        sent == old(sent) + (if s.sent.Some? then [s.sent.value] else [])
    {
      if |codes| > 0 {
        HandleScan(f, ScanText(codes), wallet, reply);
      }
    }

    /** The body of the `try` block, with its early returns. */
    method Attempt(f: Foreign, text: string, wallet: Option<string>, reply: MintReply)
      requires error == Message("")
      modifies this
      ensures var s := HandleScanStep(f, text, wallet, reply);
        error == s.error && busy == old(busy) &&
        scanned == (if s.scanned.Some? then s.scanned else old(scanned)) &&
        mintSig == (if s.minted.Some? then s.minted.value else old(mintSig)) &&
        sent == old(sent) + (if s.sent.Some? then [s.sent.value] else [])
    {
      if text == "" {
        error := Message(EmptyCode);
        return;
      }
      var parsed := f.parsePayload(text);
      if parsed.None? {
        error := Message(NotJson);
        return;
      }
      var payload := parsed.value;
      scanned := Some(payload);
      if !(payload.token.Some? && Truthy(payload.token.value.event)) || !Truthy(payload.sig) || !Truthy(payload.signer) {
        error := Message(MissingFields);
        return;
      }
      if !Truthy(wallet) {
        error := Message(NoWallet);
        return;
      }
      var body := MintBody(payload.token.value.event, payload.token, payload.sig, payload.signer, wallet);
      sent := sent + [body];
      match reply
      case MintError(m, c) =>
        error := SelectError(m, c);
        return;
      case MintThrew(m) =>
        error := Message(if m != "" then m else MintFailed);
        return;
      case Minted(asset) =>
        mintSig := if Truthy(asset) then asset else None;
    }
  }

  /** The checks come in order: empty text, then JSON, then the payload's
      fields (after the payload is shown), then the wallet; each stops the
      scan before anything is sent. */
  lemma CheckOrder(f: Foreign, text: string, wallet: Option<string>, reply: MintReply)
    ensures var s := HandleScanStep(f, text, wallet, reply);
      (text == "" ==> s == ScanStep(Message(EmptyCode), None, None, None)) &&
      (text != "" && f.parsePayload(text).None? ==> s == ScanStep(Message(NotJson), None, None, None)) &&
      (text != "" && f.parsePayload(text).Some? && !Complete(f.parsePayload(text).value) ==>
         s == ScanStep(Message(MissingFields), f.parsePayload(text), None, None)) &&
      (text != "" && f.parsePayload(text).Some? && Complete(f.parsePayload(text).value) && !Truthy(wallet) ==>
         s == ScanStep(Message(NoWallet), f.parsePayload(text), None, None))
  {
  }

  /** A mint request is sent exactly when the text parses to a complete
      payload and there is a wallet; it carries the token's event as
      `event_id`, the token, signature and signer unchanged, and the wallet
      address. */
  lemma SentIff(f: Foreign, text: string, wallet: Option<string>, reply: MintReply)
    ensures var s := HandleScanStep(f, text, wallet, reply);
      s.sent.Some? <==> text != "" && f.parsePayload(text).Some? && Complete(f.parsePayload(text).value) && Truthy(wallet)
    ensures var s := HandleScanStep(f, text, wallet, reply);
      s.sent.Some? ==>
        var p := f.parsePayload(text).value;
        s.sent.value.eventId == p.token.value.event && s.sent.value.token == p.token &&
        s.sent.value.sig == p.sig && s.sent.value.signer == p.signer && s.sent.value.wallet == wallet &&
        Truthy(s.sent.value.eventId) && Truthy(s.sent.value.wallet)
  {
  }

  /** Only a successful mint sets `mintSig`, and every outcome other than
      success shows a non-empty error text or the error body. */
  lemma Outcomes(f: Foreign, text: string, wallet: Option<string>, reply: MintReply)
    ensures var s := HandleScanStep(f, text, wallet, reply);
      (s.minted.Some? <==> s.sent.Some? && reply.Minted?) &&
      (s.minted.Some? ==> s.error == Message("") && (s.minted.value.Some? ==> s.minted.value.value != "")) &&
      (s.minted.None? && !(reply.MintError? && !reply.context.JsonBody?) ==>
         s.error.WholeBody? || s.error.text != "")
  {
  }

  /** The error body's `error` field wins over `detail`, which wins over the
      body itself, which wins over the invocation's message. */
  lemma ErrorPrecedence(message: string, e: Option<string>, d: Option<string>, text: string)
    ensures Truthy(e) ==> SelectError(message, JsonBody(e, d)) == Message(e.value)
    ensures !Truthy(e) && Truthy(d) ==> SelectError(message, JsonBody(e, d)) == Message(d.value)
    ensures SelectError(message, TextBody(text)).text != "" <==> text != "" || message != ""
  {
  }
}
