/** The EventDisplay page of src/pages/EventDisplay.jsx: it loads one event
    row, classifies the current time against the event's start and end, and
    shows the rotating QR code only while the event is live. */
module EventDisplay {
  import opened Common
  import opened Foreign
  import opened Store
  import Mint

  /** How the `events` lookup ends: the error it returns, or the row (`None` when no row matches). */
  datatype Lookup = LookupFailed(message: string) | Found(row: Option<EventRow>)

  const NotFound := "Event not found"
  const LoadFailed := "Failed to load event"
  /** The polling period the page passes to RotatingQR. */
  const QrIntervalMs := 10000

  /** `isActive`, `isPast`, `isFuture`. A date that does not parse is NaN,
      and every comparison with NaN is false. */
  datatype Phase = Phase(active: bool, past: bool, future: bool)

  function Classify(nowMs: int, starts: Option<int>, ends: Option<int>): (p: Phase)
    ensures p.active <==> starts.Some? && ends.Some? && starts.value <= nowMs <= ends.value
    ensures p.past <==> ends.Some? && nowMs > ends.value
    ensures p.future <==> starts.Some? && nowMs < starts.value
  {
    Phase(starts.Some? && ends.Some? && nowMs >= starts.value && nowMs <= ends.value,
          ends.Some? && nowMs > ends.value,
          starts.Some? && nowMs < starts.value)
  }

  /** What the page shows: "Loading...", the error card, or the event with
      its status banners, the QR code (with its polling period) or the
      heading that replaces it. */
  datatype View =
    | Loading
    | ErrorCard(message: string)
    | EventView(row: EventRow, phase: Phase, qrIntervalMs: Option<int>, heading: Option<string>)

  /** The event card for `row` at time `nowMs`. */
  function ShowEvent(f: Foreign, row: EventRow, nowMs: int): (v: View)
    ensures v.EventView? && v.row == row
    ensures v.qrIntervalMs.Some? <==> v.phase.active
    ensures v.qrIntervalMs.Some? ==> v.qrIntervalMs.value == QrIntervalMs
    ensures v.heading.Some? <==> !v.phase.active
  {
    var phase := Classify(nowMs, f.parseDate(row.startsAt), f.parseDate(row.endsAt));
    EventView(row, phase,
              if phase.active then Some(QrIntervalMs) else None,
              if phase.active then None else Some(if phase.future then "Coming Soon" else "Event Ended"))
  }

  class Page {
    var event: Option<EventRow>
    var error: string
    var loading: bool

    /** `useState(null)`, `useState("")`, `useState(true)` */
    constructor ()
      ensures event == None && error == "" && loading
    {
      event := None;
      error := "";
      loading := true;
    }

    /** `loadEvent()`: the lookup, then `loading` is false whatever happened. */
    method LoadEvent(lookup: Lookup)
      modifies this
      ensures !loading
      ensures lookup.LookupFailed? ==>
        event == old(event) && error == (if lookup.message != "" then lookup.message else LoadFailed)
      ensures lookup.Found? && lookup.row.None? ==> event == old(event) && error == NotFound
      ensures lookup.Found? && lookup.row.Some? ==> event == lookup.row && error == old(error)
    {
      loading := true;
      if lookup.LookupFailed? {
        error := if lookup.message != "" then lookup.message else LoadFailed;
      } else if lookup.row.None? {
        error := NotFound;
      } else {
        event := lookup.row;
      }
      loading := false;
    }

    /** The effect on `eventId`: the event is loaded only when the route names one. */
    method Mount(eventId: Option<string>, lookup: Lookup)
      modifies this
      ensures eventId.Some? && eventId.value != "" ==> !loading
      ensures eventId.Some? && eventId.value != "" && lookup.LookupFailed? ==>
        event == old(event) && error == (if lookup.message != "" then lookup.message else LoadFailed)
      ensures eventId.Some? && eventId.value != "" && lookup.Found? && lookup.row.None? ==>
        event == old(event) && error == NotFound
      ensures eventId.Some? && eventId.value != "" && lookup.Found? && lookup.row.Some? ==>
        event == lookup.row && error == old(error)
      ensures !(eventId.Some? && eventId.value != "") ==>
        event == old(event) && error == old(error) && loading == old(loading)
    {
      if eventId.Some? && eventId.value != "" {
        LoadEvent(lookup);
      }
    }

    function Render(f: Foreign, nowMs: int): (v: View)
      reads this
      ensures loading ==> v == Loading
      ensures !loading && (error != "" || event.None?) ==> v == ErrorCard(if error != "" then error else NotFound)
      ensures v.EventView? <==> !loading && error == "" && event.Some?
    {
      if loading then Loading
      else if error != "" || event.None? then ErrorCard(if error != "" then error else NotFound)
      else ShowEvent(f, event.value, nowMs)
    }
  }

  /** When the start is not after the end, every instant is in exactly one
      of the three classes. */
  lemma ExactlyOneClass(nowMs: int, starts: int, ends: int)
    requires starts <= ends
    ensures var p := Classify(nowMs, Some(starts), Some(ends));
      (p.active && !p.past && !p.future) || (!p.active && p.past && !p.future) ||
      (!p.active && !p.past && p.future)
  {
  }

  /** With the start after the end, an instant between them is both past and
      future, and such an event is never active. */
  lemma InvertedEvent(nowMs: int, starts: int, ends: int)
    requires ends < nowMs < starts
    ensures var p := Classify(nowMs, Some(starts), Some(ends));
      p.past && p.future && !p.active
    ensures forall t :: !Classify(t, Some(starts), Some(ends)).active
  {
  }

  /** The heading that replaces the QR code reads "Coming Soon" exactly when
      the event is in the future; an event whose dates do not parse reads
      "Event Ended". */
  lemma HeadingMeaning(f: Foreign, row: EventRow, nowMs: int)
    ensures var v := ShowEvent(f, row, nowMs);
      !v.phase.active ==> (v.heading == Some("Coming Soon") <==> v.phase.future)
    ensures var v := ShowEvent(f, row, nowMs);
      !v.phase.active ==> (v.heading == Some("Event Ended") <==> !v.phase.future)
    ensures f.parseDate(row.startsAt).None? && f.parseDate(row.endsAt).None? ==>
      ShowEvent(f, row, nowMs).heading == Some("Event Ended")
  {
  }

  /** Rounding milliseconds down to seconds keeps their order. */
  lemma SecondsMonotone(a: int, b: int)
    requires a <= b
    ensures a / 1000 <= b / 1000
  {
    var qa, ra := a / 1000, a % 1000;
    var qb, rb := b / 1000, b % 1000;
    assert a == 1000 * qa + ra && 0 <= ra < 1000;
    assert b == 1000 * qb + rb && 0 <= rb < 1000;
  }

  /** While the page shows the QR code, the mint function's window check
      passes for the same instant: both bounds are inclusive, and rounding
      down to seconds keeps the order. */
  lemma ActiveMeansMintable(f: Foreign, row: EventRow, nowMs: int)
    requires Classify(nowMs, f.parseDate(row.startsAt), f.parseDate(row.endsAt)).active
    ensures !Mint.OutsideWindow(nowMs / 1000, Mint.Seconds(f, row.startsAt), Mint.Seconds(f, row.endsAt))
  {
    SecondsMonotone(f.parseDate(row.startsAt).value, nowMs);
    SecondsMonotone(nowMs, f.parseDate(row.endsAt).value);
  }

  /** The converse fails within a second: 200 ms before the start the page
      says "Coming Soon" while the mint function, which compares whole
      seconds, already accepts. */
  lemma MintAcceptsBeforeDisplay(f: Foreign, row: EventRow)
    requires f.parseDate(row.startsAt) == Some(1500) && f.parseDate(row.endsAt) == Some(5000)
    ensures Classify(1300, f.parseDate(row.startsAt), f.parseDate(row.endsAt)).future
    ensures !Mint.OutsideWindow(1300 / 1000, Mint.Seconds(f, row.startsAt), Mint.Seconds(f, row.endsAt))
  {
  }
}
