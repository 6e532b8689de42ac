/** The interval segmenter: the decoder's four-integer state and the three
    events that drive it (one iteration of the decode loop, a flush, and a
    reset), each a pure step returning the next state and what `put` is
    handed. */
module Segmenter {
  import opened Results
  import opened FsmStates
  import opened Channels

  /** The "no value yet" marker held by `cur` and `prev`. */
  const NoValue: int := -1

  /** The decoder's state: the pending interval's `begin` and `end`, the code
      of the latest observation `cur`, and `prev` (the decoder's `_old`),
      the code to be displayed. */
  datatype State = State(begin: nat, end: nat, cur: int, prev: int)

  /** A labelled interval handed to the annotation sink. */
  datatype Emission = Emission(begin: nat, end: nat, data: Entry)

  /** What drives the segmenter: an observation of the pins at a sample
      number, a flush at the end of a block of samples, or a reset. */
  datatype Event =
    | Observe(pins: Pins, samplenum: nat)
    | Flush(endsample: nat)
    | Reset

  /** What one step produces: the next state, and either nothing, one emitted
      interval, or the key error of a failed label-table lookup. */
  datatype Outcome = Outcome(next: State, out: Result<Option<Emission>, int>)

  /** A code slot holds either the marker or a state code. */
  predicate InRange(k: int)
  {
    k == NoValue || 0 <= k < 8
  }

  /** The states the decoder can reach: both code slots in range, and a code
      to display only once a code has been observed. */
  predicate Valid(s: State)
  {
    && InRange(s.cur)
    && InRange(s.prev)
    && (s.prev != NoValue ==> s.cur != NoValue)
  }

  /** The state set up at construction and by every reset. */
  function Initial(): (s: State)
    ensures Valid(s)
    ensures s.begin == 0 && s.end == 0
    ensures s.cur == NoValue && s.prev == NoValue
  {
    State(0, 0, NoValue, NoValue)
  }

  /** Emission of the pending interval: nothing while there is no code to
      display, a key error for a code outside the table, and otherwise the
      interval [begin, end) labelled with the entry of the displayed code. */
  function Put(s: State): (r: Result<Option<Emission>, int>)
    ensures r == Success(None) <==> s.prev == NoValue
    ensures r.Failure? <==> !InRange(s.prev)
    ensures r.Failure? ==> r.error == s.prev
    ensures r.Success? && r.value.Some? ==>
      && r.value.value.begin == s.begin
      && r.value.value.end == s.end
      && 0 <= s.prev < 8
      && r.value.value.data == Values[s.prev]
      && Code(r.value.value.data.annotation) == s.prev
  {
    if s.prev == NoValue then Success(None)
    else match Lookup(s.prev)
      case None => Failure(s.prev)
      case Some(e) => Success(Some(Emission(s.begin, s.end, e)))
  }

  /** One iteration of the decode loop. The first observation leaves the
      boundaries alone and emits nothing; every later one moves the boundary
      to the sample number and emits the interval that ends there, labelled
      with the code held before this observation. */
  function ObserveStep(s: State, pins: Pins, samplenum: nat): (r: Outcome)
    ensures r.next.cur == StateCode(pins)
    ensures r.next.prev == s.cur
    ensures s.cur == NoValue ==>
      && r.next.begin == s.begin
      && r.next.end == s.end
      && r.out == Success(None)
    ensures s.cur != NoValue && InRange(s.cur) ==>
      && r.next.begin == s.end
      && r.next.end == samplenum
      && r.out == Success(Some(Emission(s.end, samplenum, Values[s.cur])))
  {
    var moved := if s.cur == NoValue then s else s.(begin := s.end, end := samplenum);
    var next := moved.(prev := s.cur, cur := StateCode(pins));
    Outcome(next, Put(next))
  }

  /** A flush at the end of a block of samples. It closes the pending
      interval at `endsample`; its start advances to the last boundary only
      when the code changed since the previous display, and afterwards the
      displayed code is the current one. */
  function FlushStep(s: State, endsample: nat): (r: Outcome)
    ensures r.next.prev == r.next.cur == s.cur
    ensures r.next.end == endsample
    ensures r.next.begin == (if s.prev != s.cur then s.end else s.begin)
    ensures s.cur == NoValue ==> r.out == Success(None)
    ensures s.cur != NoValue && InRange(s.cur) ==>
      r.out == Success(Some(Emission(r.next.begin, endsample, Values[s.cur])))
  {
    var moved := if s.prev != s.cur then s.(begin := s.end) else s;
    var next := moved.(end := endsample, prev := s.cur);
    Outcome(next, Put(next))
  }

  /** A flush keeps the start of the pending interval or advances it to the
      last boundary, never further; with ordered positions the interval it
      emits is never reversed. */
  lemma FlushKeepsOrAdvancesBegin(s: State, endsample: nat)
    requires s.begin <= s.end <= endsample
    ensures var n := FlushStep(s, endsample).next;
      && (n.begin == s.begin || n.begin == s.end)
      && s.begin <= n.begin <= n.end
  {
  }

  /** A second flush in a row finds nothing changed: it keeps the start of
      the first flush's interval and re-emits it, same label, with the new
      end. */
  lemma RepeatedFlushReemitsStart(s: State, first: nat, second: nat)
    requires Valid(s) && s.cur != NoValue
    ensures var o1 := FlushStep(s, first);
      var o2 := FlushStep(o1.next, second);
      && o1.out.Success? && o1.out.value.Some?
      && o2.out.Success? && o2.out.value.Some?
      && o2.out.value.value.begin == o1.out.value.value.begin
      && o2.out.value.value.data == o1.out.value.value.data
      && o2.out.value.value.end == second
  {
  }

  /** A reset: back to the initial state, emitting nothing. */
  function ResetStep(s: State): (r: Outcome)
    ensures r.next == Initial() && r.out == Success(None)
  {
    Outcome(Initial(), Success(None))
  }

  /** The segmenter's reaction to one event. From a reachable state it never
      fails a table lookup and it reaches a reachable state again. */
  function Step(s: State, e: Event): (r: Outcome)
    ensures Valid(s) ==> Valid(r.next) && r.out.Success?
    ensures r.out.Failure? ==> !InRange(r.out.error)
  {
    match e
    case Observe(pins, samplenum) => ObserveStep(s, pins, samplenum)
    case Flush(endsample) => FlushStep(s, endsample)
    case Reset => ResetStep(s)
  }

  /** The state after a sequence of events and the intervals emitted in
      order. */
  datatype Trace = Trace(state: State, emitted: seq<Emission>)

  /** The decode loop fed events one after another: each event emits at most
      one interval, and a run ends early only on the key error of a code
      outside the label table. */
  function Run(s: State, events: seq<Event>): (r: Result<Trace, int>)
    ensures r.Success? ==> |r.value.emitted| <= |events|
    ensures r.Failure? ==> !InRange(r.error)
    decreases |events|
  {
    if events == [] then Success(Trace(s, []))
    else match Run(s, events[..|events| - 1])
      case Failure(k) => Failure(k)
      case Success(t) => Extend(t, Step(t.state, events[|events| - 1]))
  }

  /** A trace extended by one step's outcome. */
  function Extend(t: Trace, o: Outcome): Result<Trace, int>
  {
    match o.out
    case Failure(k) => Failure(k)
    case Success(None) => Success(Trace(o.next, t.emitted))
    case Success(Some(e)) => Success(Trace(o.next, t.emitted + [e]))
  }
}
