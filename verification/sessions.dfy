/** Properties of whole event sequences fed to the segmenter: it never fails
    a label lookup, the emitted intervals follow a closed-form reference,
    consecutive intervals are contiguous (or, after an unchanged flush,
    extend the previous one), positions stay ordered, and a reset starts an
    independent session. */
module Sessions {
  import opened Results
  import opened FsmStates
  import opened Channels
  import opened Segmenter

  /** A sampled observation: the pins read at a sample number. */
  datatype Sample = Sample(pins: Pins, at: nat)

  /** The decode-loop events for a sequence of observations. */
  function Observations(obs: seq<Sample>): seq<Event>
  {
    seq(|obs|, i requires 0 <= i < |obs| => Observe(obs[i].pins, obs[i].at))
  }

  /** The table entry of the code a sample carries. */
  function Label(x: Sample): Entry
  {
    Values[StateCode(x.pins)]
  }

  /** Reference timeline of an observation run: the j-th interval spans from
      the j-th sample (the stream start for the first) to the next sample,
      labelled with the j-th sample's code. The last sample's interval is
      still open. */
  function ReferenceIntervals(obs: seq<Sample>): seq<Emission>
  {
    if |obs| < 2 then []
    else
      seq(|obs| - 1, j requires 0 <= j < |obs| - 1 =>
        Emission(if j == 0 then 0 else obs[j].at, obs[j + 1].at, Label(obs[j])))
  }

  /** Reference state after a non-empty observation run. */
  function ReferenceState(obs: seq<Sample>): State
    requires |obs| > 0
  {
    var n := |obs|;
    if n == 1 then State(0, 0, StateCode(obs[0].pins), NoValue)
    else State(if n == 2 then 0 else obs[n - 2].at, obs[n - 1].at,
               StateCode(obs[n - 1].pins), StateCode(obs[n - 2].pins))
  }

  /** Two intervals in emission order are linked when the second starts
      where the first ends, or re-emits the first's start and label with a
      new end (a flush with no change since the last display). */
  predicate Linked(a: Emission, b: Emission)
  {
    b.begin == a.end || (b.begin == a.begin && b.data == a.data)
  }

  /** Every interval is linked to the one emitted before it. */
  predicate Chained(es: seq<Emission>)
  {
    forall j :: 0 < j < |es| ==> Linked(es[j - 1], es[j])
  }

  /** No event of the sequence is a reset. */
  predicate ResetFree(evs: seq<Event>)
  {
    forall i :: 0 <= i < |evs| ==> !evs[i].Reset?
  }

  /** The stream position an event carries; a reset carries none. */
  function Position(e: Event): nat
  {
    match e
    case Observe(_, samplenum) => samplenum
    case Flush(endsample) => endsample
    case Reset => 0
  }

  /** Stream positions never decrease along the sequence. */
  predicate Ordered(evs: seq<Event>)
  {
    forall i, j :: 0 <= i < j < |evs| ==> Position(evs[i]) <= Position(evs[j])
  }

  /** A run followed, after a reset, by a run from the initial state. */
  function Join(before: Result<Trace, int>, after: Result<Trace, int>): Result<Trace, int>
  {
    match before
    case Failure(k) => Failure(k)
    case Success(t) =>
      match after
      case Failure(k) => Failure(k)
      case Success(u) => Success(Trace(u.state, t.emitted + u.emitted))
  }

  /** From any reachable state, no sequence of events makes the label lookup
      fail, and the state stays reachable. */
  lemma {:induction false} RunNeverFaults(s: State, evs: seq<Event>)
    requires Valid(s)
    ensures Run(s, evs).Success?
    ensures Valid(Run(s, evs).value.state)
  {
    if evs != [] {
      RunNeverFaults(s, evs[..|evs| - 1]);
    }
  }

  /** Running one more event continues the run of the events before it. */
  lemma RunSnoc(s: State, evs: seq<Event>, e: Event)
    ensures Run(s, evs + [e]) ==
      match Run(s, evs)
      case Failure(k) => Failure(k)
      case Success(t) => Extend(t, Step(t.state, e))
  {
  }

  /** One more observation appends one event. */
  lemma ObservationsSnoc(obs: seq<Sample>)
    requires |obs| > 0
    ensures Observations(obs)
      == Observations(obs[..|obs| - 1]) + [Observe(obs[|obs| - 1].pins, obs[|obs| - 1].at)]
  {
  }

  /** The interval the latest observation closes, in the reference timeline. */
  function LastInterval(obs: seq<Sample>): Emission
    requires |obs| >= 2
  {
    var n := |obs|;
    Emission(if n == 2 then 0 else obs[n - 2].at, obs[n - 1].at, Label(obs[n - 2]))
  }

  /** The j-th interval of the reference timeline. */
  lemma ReferenceIntervalAt(obs: seq<Sample>, j: int)
    requires 0 <= j < |obs| - 1
    ensures |ReferenceIntervals(obs)| == |obs| - 1
    ensures ReferenceIntervals(obs)[j]
      == Emission(if j == 0 then 0 else obs[j].at, obs[j + 1].at, Label(obs[j]))
  {
  }

  /** The reference timeline grows by the interval the latest observation
      closes. */
  lemma ReferenceIntervalsSnoc(obs: seq<Sample>)
    requires |obs| >= 2
    ensures ReferenceIntervals(obs) == ReferenceIntervals(obs[..|obs| - 1]) + [LastInterval(obs)]
  {
    var p := obs[..|obs| - 1];
    var r, rp := ReferenceIntervals(obs), ReferenceIntervals(p);
    ReferenceIntervalAt(obs, |obs| - 2);
    if |obs| == 2 {
      assert rp == [];
    } else {
      forall j | 0 <= j < |obs| - 2
        ensures r[j] == rp[j]
      {
        ReferenceIntervalAt(obs, j);
        ReferenceIntervalAt(p, j);
      }
    }
  }

  /** An observation after a run of at least one moves from the reference
      state of the shorter run to that of the longer one, emitting the
      interval it closes. */
  lemma ObserveExtendsReference(obs: seq<Sample>)
    requires |obs| >= 2
    ensures var n := |obs|;
      ObserveStep(ReferenceState(obs[..n - 1]), obs[n - 1].pins, obs[n - 1].at)
        == Outcome(ReferenceState(obs), Success(Some(LastInterval(obs))))
  {
    var n := |obs|;
    var p := obs[..n - 1];
    assert p[|p| - 1] == obs[n - 2];
    if n > 2 {
      assert p[|p| - 2] == obs[n - 3];
    }
  }

  /** A run of observations from the initial state emits exactly the
      reference timeline and ends in the reference state. */
  lemma {:induction false} ObservationsFollowReference(obs: seq<Sample>)
    ensures |obs| == 0 ==> Run(Initial(), Observations(obs)) == Success(Trace(Initial(), []))
    ensures |obs| > 0 ==>
      Run(Initial(), Observations(obs)) == Success(Trace(ReferenceState(obs), ReferenceIntervals(obs)))
  {
    var n := |obs|;
    if n == 0 {
      assert Observations(obs) == [];
    } else {
      var p := obs[..n - 1];
      var e := Observe(obs[n - 1].pins, obs[n - 1].at);
      ObservationsSnoc(obs);
      RunSnoc(Initial(), Observations(p), e);
      ObservationsFollowReference(p);
      if n >= 2 {
        ObserveExtendsReference(obs);
        ReferenceIntervalsSnoc(obs);
      }
    }
  }

  /** Sample numbers never decrease. */
  predicate NonDecreasing(obs: seq<Sample>)
  {
    forall i, k :: 0 <= i < k < |obs| ==> obs[i].at <= obs[k].at
  }

  /** Sample numbers strictly increase. */
  predicate Increasing(obs: seq<Sample>)
  {
    forall i, k :: 0 <= i < k < |obs| ==> obs[i].at < obs[k].at
  }

  /** The reference timeline of an observation run: one interval per
      observation after the first, the first starting at 0, each labelled
      with the code of the observation that opened it, consecutive intervals
      contiguous, none reversed when sample numbers never decrease, and none
      empty when they strictly increase. */
  lemma ReferenceTimelineShape(obs: seq<Sample>)
    ensures var es := ReferenceIntervals(obs);
      && |es| == (if |obs| == 0 then 0 else |obs| - 1)
      && (|es| > 0 ==> es[0].begin == 0)
      && (forall j :: 0 <= j < |es| ==> es[j].end == obs[j + 1].at && es[j].data == Label(obs[j]))
      && (forall j :: 0 < j < |es| ==> es[j].begin == es[j - 1].end)
      && (NonDecreasing(obs) ==> forall j :: 0 <= j < |es| ==> es[j].begin <= es[j].end)
      && (Increasing(obs) ==> forall j :: 0 <= j < |es| ==> es[j].begin < es[j].end)
  {
    var es := ReferenceIntervals(obs);
    forall j | 0 <= j < |es|
      ensures es[j].begin == (if j == 0 then 0 else obs[j].at)
      ensures es[j].end == obs[j + 1].at && es[j].data == Label(obs[j])
    {
      ReferenceIntervalAt(obs, j);
    }
    if NonDecreasing(obs) {
      forall j | 0 < j < |es|
        ensures es[j].begin <= es[j].end
      {
        assert obs[j].at <= obs[j + 1].at;
      }
    }
    if Increasing(obs) {
      forall j | 0 <= j < |es|
        ensures es[j].begin < es[j].end
      {
        assert obs[j].at < obs[j + 1].at;
      }
    }
  }

  /** Observation runs from the initial state: one interval per observation
      after the first, the first starting at position 0, each labelled with
      the code of the observation that opened it, consecutive intervals
      contiguous, none reversed (`begin <= end`) when sample numbers never
      decrease, and none empty (`begin < end`) when they strictly increase. */
  lemma ObservationIntervalsContiguous(obs: seq<Sample>)
    ensures Run(Initial(), Observations(obs)).Success?
    ensures var es := Run(Initial(), Observations(obs)).value.emitted;
      && |es| == (if |obs| == 0 then 0 else |obs| - 1)
      && (|es| > 0 ==> es[0].begin == 0)
      && (forall j :: 0 <= j < |es| ==> es[j].end == obs[j + 1].at && es[j].data == Label(obs[j]))
      && (forall j :: 0 < j < |es| ==> es[j].begin == es[j - 1].end)
      && (NonDecreasing(obs) ==> forall j :: 0 <= j < |es| ==> es[j].begin <= es[j].end)
      && (Increasing(obs) ==> forall j :: 0 <= j < |es| ==> es[j].begin < es[j].end)
  {
    ObservationsFollowReference(obs);
    ReferenceTimelineShape(obs);
  }

  /** The interval a flush emits after a non-empty observation run: from the
      last boundary, or from the pending start when the last observation
      repeated the code before it, to `endsample`, labelled with the last
      observation's code. */
  function ClosingInterval(obs: seq<Sample>, endsample: nat): Emission
    requires |obs| > 0
  {
    var st := ReferenceState(obs);
    Emission(if st.prev != st.cur then st.end else st.begin, endsample, Label(obs[|obs| - 1]))
  }

  /** An observation run closed by a flush emits the reference timeline and
      then the closing interval; with no observation the flush emits nothing
      and only moves `end`. */
  lemma FlushClosesReference(obs: seq<Sample>, endsample: nat)
    ensures |obs| == 0 ==>
      Run(Initial(), Observations(obs) + [Flush(endsample)])
        == Success(Trace(State(0, endsample, NoValue, NoValue), []))
    ensures |obs| > 0 ==>
      Run(Initial(), Observations(obs) + [Flush(endsample)])
        == Success(Trace(FlushStep(ReferenceState(obs), endsample).next,
                         ReferenceIntervals(obs) + [ClosingInterval(obs, endsample)]))
  {
    RunSnoc(Initial(), Observations(obs), Flush(endsample));
    ObservationsFollowReference(obs);
  }

  /** A session of observations closed by a flush at `endsample`: one
      interval per observation, starting at position 0, ending at
      `endsample` with the last observation's label, and linked throughout;
      the only non-contiguous pair is a final flush after an observation that
      repeated the previous code, which re-emits the previous interval's
      start and label. With no observation the flush emits nothing. */
  lemma SessionCover(obs: seq<Sample>, endsample: nat)
    ensures Run(Initial(), Observations(obs) + [Flush(endsample)]).Success?
    ensures var es := Run(Initial(), Observations(obs) + [Flush(endsample)]).value.emitted;
      && |es| == |obs|
      && (|es| > 0 ==> es[0].begin == 0 && es[|es| - 1].end == endsample && es[|es| - 1].data == Label(obs[|obs| - 1]))
      && Chained(es)
      && (forall j :: 0 < j < |es| - 1 ==> es[j].begin == es[j - 1].end)
      && (|obs| >= 2 && StateCode(obs[|obs| - 2].pins) != StateCode(obs[|obs| - 1].pins) ==>
            es[|es| - 1].begin == es[|es| - 2].end)
  {
    FlushClosesReference(obs, endsample);
    if |obs| > 0 {
      ClosedTimelineShape(obs, endsample);
    }
  }

  /** The shape of the reference timeline closed by a flush: one interval per
      observation from 0 to `endsample`, contiguous except that the closing
      interval re-emits the previous start and label when the last
      observation repeated the code before it. */
  lemma ClosedTimelineShape(obs: seq<Sample>, endsample: nat)
    requires |obs| > 0
    ensures var es := ReferenceIntervals(obs) + [ClosingInterval(obs, endsample)];
      && |es| == |obs|
      && es[0].begin == 0 && es[|es| - 1].end == endsample && es[|es| - 1].data == Label(obs[|obs| - 1])
      && Chained(es)
      && (forall j :: 0 < j < |es| - 1 ==> es[j].begin == es[j - 1].end)
      && (|obs| >= 2 && StateCode(obs[|obs| - 2].pins) != StateCode(obs[|obs| - 1].pins) ==>
            es[|es| - 1].begin == es[|es| - 2].end)
  {
    var n := |obs|;
    var r := ReferenceIntervals(obs);
    var c := ClosingInterval(obs, endsample);
    var es := r + [c];
    if n == 1 {
      assert es == [c];
      assert ReferenceState(obs).begin == ReferenceState(obs).end == 0;
    } else {
      ReferenceIntervalAt(obs, 0);
      assert es[0] == r[0];
      forall j | 0 < j < n - 1
        ensures es[j].begin == es[j - 1].end
      {
        ReferenceIntervalAt(obs, j);
        ReferenceIntervalAt(obs, j - 1);
        assert es[j] == r[j] && es[j - 1] == r[j - 1];
      }
      ClosingIntervalLinked(obs, endsample);
      assert es[n - 2] == r[n - 2] && es[n - 1] == c;
      forall j | 0 < j < n
        ensures Linked(es[j - 1], es[j])
      {
      }
    }
  }

  /** The closing interval is linked to the last reference interval: it
      starts where that one ends, unless the last observation repeated the
      code before it, when it re-emits that one's start and label. */
  lemma ClosingIntervalLinked(obs: seq<Sample>, endsample: nat)
    requires |obs| >= 2
    ensures var last := ReferenceIntervals(obs)[|obs| - 2];
      var c := ClosingInterval(obs, endsample);
      && Linked(last, c)
      && (StateCode(obs[|obs| - 2].pins) != StateCode(obs[|obs| - 1].pins) ==> c.begin == last.end)
  {
    ReferenceIntervalAt(obs, |obs| - 2);
  }

  /** Within a reset-free run from a reachable state, every emitted interval
      is linked to its predecessor; the last emitted interval is always the
      pending one of the current state. */
  lemma {:induction false} ResetFreeRunsChained(s: State, evs: seq<Event>)
    requires Valid(s)
    requires ResetFree(evs)
    ensures Run(s, evs).Success?
    ensures var t := Run(s, evs).value;
      && Chained(t.emitted)
      && (|t.emitted| > 0 ==>
            && 0 <= t.state.prev < 8
            && t.emitted[|t.emitted| - 1] == Emission(t.state.begin, t.state.end, Values[t.state.prev]))
  {
    RunNeverFaults(s, evs);
    if evs != [] {
      var p := evs[..|evs| - 1];
      ResetFreeRunsChained(s, p);
      RunNeverFaults(s, p);
    }
  }

  /** In a reset-free run from the initial state whose positions never
      decrease, every emitted interval has `begin <= end`. */
  lemma {:induction false} OrderedRunsWellFormed(evs: seq<Event>)
    requires ResetFree(evs)
    requires Ordered(evs)
    ensures Run(Initial(), evs).Success?
    ensures var t := Run(Initial(), evs).value;
      && t.state.begin <= t.state.end
      && (|evs| > 0 ==> t.state.end <= Position(evs[|evs| - 1]))
      && forall j :: 0 <= j < |t.emitted| ==> t.emitted[j].begin <= t.emitted[j].end
  {
    RunNeverFaults(Initial(), evs);
    if evs != [] {
      var p := evs[..|evs| - 1];
      OrderedRunsWellFormed(p);
    }
  }

  /** A reset in the middle of a run forgets everything before it: the run
      emits what the events before the reset emit, followed by what the
      events after it emit from the initial state. */
  lemma {:induction false} ResetStartsFreshSession(s: State, before: seq<Event>, after: seq<Event>)
    ensures Run(s, before + [Reset] + after) == Join(Run(s, before), Run(Initial(), after))
  {
    if after == [] {
      assert before + [Reset] + after == before + [Reset];
      RunSnoc(s, before, Reset);
      match Run(s, before)
      case Failure(k) =>
      case Success(t) =>
        assert t.emitted + [] == t.emitted;
    } else {
      var a', last := after[..|after| - 1], after[|after| - 1];
      assert after == a' + [last];
      assert before + [Reset] + after == (before + [Reset] + a') + [last];
      RunSnoc(s, before + [Reset] + a', last);
      RunSnoc(Initial(), a', last);
      ResetStartsFreshSession(s, before, a');
      JoinThenStep(Run(s, before), Run(Initial(), a'), last);
    }
  }

  /** Taking one more step after joining two runs is joining the first run
      with the second run taken one step further. */
  lemma JoinThenStep(before: Result<Trace, int>, after: Result<Trace, int>, e: Event)
    ensures
      (match Join(before, after)
       case Failure(k) => Failure(k)
       case Success(v) => Extend(v, Step(v.state, e)))
      == Join(before,
              match after
              case Failure(k) => Failure(k)
              case Success(u) => Extend(u, Step(u.state, e)))
  {
    match before
    case Failure(k) =>
    case Success(t) =>
      match after
      case Failure(k) =>
      case Success(u) =>
        match Step(u.state, e).out
        case Failure(k) =>
        case Success(None) =>
        case Success(Some(x)) =>
          assert t.emitted + u.emitted + [x] == t.emitted + (u.emitted + [x]);
  }

  /** A block boundary inside a run of one code is not merged away: with
      (0,0,0) at 0, (1,0,0) at 10, a flush at 25, (0,1,0) at 40 and a flush
      at 50, code 1 is shown as two adjacent intervals [10,25) and [25,40),
      because the flush closes the pending interval at 25 and the next
      observation starts its interval there. */
  lemma BlockBoundaryIsNotMerged()
    ensures Run(Initial(), [
        Observe(Pins(false, false, false), 0),
        Observe(Pins(true, false, false), 10),
        Flush(25),
        Observe(Pins(false, true, false), 40),
        Flush(50)])
      == Success(Trace(State(40, 50, 2, 2), [
        Emission(0, 10, Values[0]),
        Emission(10, 25, Values[1]),
        Emission(25, 40, Values[1]),
        Emission(40, 50, Values[2])]))
  {
    var p000, p100, p010 := Pins(false, false, false), Pins(true, false, false), Pins(false, true, false);
    assert StateCode(p000) == 0 && StateCode(p100) == 1 && StateCode(p010) == 2;
    var i0, i1, i2, i3 := Emission(0, 10, Values[0]), Emission(10, 25, Values[1]),
      Emission(25, 40, Values[1]), Emission(40, 50, Values[2]);

    var e1 := [Observe(p000, 0)];
    RunSnoc(Initial(), [], e1[0]);
    assert Run(Initial(), e1) == Success(Trace(State(0, 0, 0, NoValue), []));

    var e2 := e1 + [Observe(p100, 10)];
    assert Step(State(0, 0, 0, NoValue), Observe(p100, 10)) == Outcome(State(0, 10, 1, 0), Success(Some(i0)));
    RunSnoc(Initial(), e1, Observe(p100, 10));
    assert Run(Initial(), e2) == Success(Trace(State(0, 10, 1, 0), [] + [i0]));

    var e3 := e2 + [Flush(25)];
    assert Step(State(0, 10, 1, 0), Flush(25)) == Outcome(State(10, 25, 1, 1), Success(Some(i1)));
    RunSnoc(Initial(), e2, Flush(25));
    assert Run(Initial(), e3) == Success(Trace(State(10, 25, 1, 1), [] + [i0] + [i1]));

    var e4 := e3 + [Observe(p010, 40)];
    assert Step(State(10, 25, 1, 1), Observe(p010, 40)) == Outcome(State(25, 40, 2, 1), Success(Some(i2)));
    RunSnoc(Initial(), e3, Observe(p010, 40));
    assert Run(Initial(), e4) == Success(Trace(State(25, 40, 2, 1), [] + [i0] + [i1] + [i2]));

    var e5 := e4 + [Flush(50)];
    assert Step(State(25, 40, 2, 1), Flush(50)) == Outcome(State(40, 50, 2, 2), Success(Some(i3)));
    RunSnoc(Initial(), e4, Flush(50));
    assert [] + [i0] + [i1] + [i2] + [i3] == [i0, i1, i2, i3];
    assert e5 == [Observe(p000, 0), Observe(p100, 10), Flush(25), Observe(p010, 40), Flush(50)];
  }

  /** A single observation of code 0 at 0 followed by a flush at 5 emits the
      one interval [0,5) labelled with code 0. */
  lemma SingleObservationSession()
    ensures Run(Initial(), [Observe(Pins(false, false, false), 0), Flush(5)])
      == Success(Trace(State(0, 5, 0, 0), [Emission(0, 5, Values[0])]))
  {
    var evs := [Observe(Pins(false, false, false), 0), Flush(5)];
    var obs := [Sample(Pins(false, false, false), 0)];
    assert evs[..1] == Observations(obs);
    ObservationsFollowReference(obs);
    assert StateCode(Pins(false, false, false)) == 0;
    assert Run(Initial(), evs[..1]) == Success(Trace(State(0, 0, 0, NoValue), []));
    assert Step(State(0, 0, 0, NoValue), evs[1])
      == Outcome(State(0, 5, 0, 0), Success(Some(Emission(0, 5, Values[0]))));
    assert [] + [Emission(0, 5, Values[0])] == [Emission(0, 5, Values[0])];
  }
}
