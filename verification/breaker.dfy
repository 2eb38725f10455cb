/** The circuit breaker in front of a language-model provider, with any number of calls in flight at once. */
module Breaker {
  import opened Common

  const FAILURE_THRESHOLD := 3
  const OPEN_INTERVAL := 30_000

  datatype Phase = Closed | Open | HalfOpen

  /** How a call ended; a permanent failure is any that is neither a cancellation nor transient. */
  datatype Outcome = Success | Cancelled | Permanent | Transient

  datatype State = State(phase: Phase, consecutiveFails: int, openUntil: Option<Instant>, halfOpenInFlight: bool)

  const FRESH := State(Closed, 0, None, false)

  predicate Cooling(b: State, now: Instant) { b.openUntil.Some? && now < b.openUntil.value }

  /** Whether a call made now is let through. */
  predicate Admits(b: State, now: Instant) {
    match b.phase
    case Closed => true
    case Open => !Cooling(b, now)
    case HalfOpen => !b.halfOpenInFlight
  }

  /** The breaker once a call was let through, or not. */
  function Entered(b: State, now: Instant): State {
    if Admits(b, now) && b.phase != Closed then b.(phase := HalfOpen, halfOpenInFlight := true) else b
  }

  function Tripped(now: Instant): State { State(Open, 0, Some(now + OPEN_INTERVAL), false) }

  /** The breaker once a call has ended. */
  function Left(b: State, o: Outcome, now: Instant): State {
    match o
    case Success => FRESH
    case Permanent => FRESH
    case Cancelled => if b.phase == HalfOpen then b.(halfOpenInFlight := false) else b
    case Transient =>
      if b.phase == HalfOpen || b.consecutiveFails + 1 >= FAILURE_THRESHOLD then Tripped(now)
      else b.(consecutiveFails := b.consecutiveFails + 1)
  }

  class ProviderBreaker {
    var phase: Phase
    var consecutiveFails: int
    var openUntil: Option<Instant>
    var halfOpenInFlight: bool

    function Now(): State
      reads this
    {
      State(phase, consecutiveFails, openUntil, halfOpenInFlight)
    }

    constructor ()
      ensures Now() == FRESH
    {
      phase, consecutiveFails, openUntil, halfOpenInFlight := Closed, 0, None, false;
    }

    /** Whether the call may go ahead; if not, its caller is told that the circuit is open. */
    method BeforeCall(now: Instant) returns (admitted: bool)
      modifies this
      ensures admitted == Admits(old(Now()), now)
      ensures Now() == Entered(old(Now()), now)
    {
      match phase {
      case Open =>
        if openUntil.Some? && now < openUntil.value {
          return false;
        }
        phase := HalfOpen;
        halfOpenInFlight := false;
      case HalfOpen =>
        if halfOpenInFlight {
          return false;
        }
      case Closed =>
      }
      if phase == HalfOpen {
        halfOpenInFlight := true;
      }
      return true;
    }

    method AfterCall(outcome: Outcome, now: Instant)
      modifies this
      ensures Now() == Left(old(Now()), outcome, now)
    {
      match outcome {
      case Success =>
        phase, consecutiveFails, openUntil, halfOpenInFlight := Closed, 0, None, false;
      case Cancelled =>
        if phase == HalfOpen {
          halfOpenInFlight := false;
        }
      case Permanent =>
        phase, consecutiveFails, openUntil, halfOpenInFlight := Closed, 0, None, false;
      case Transient =>
        if phase == HalfOpen {
          TripLocked(now);
          return;
        }
        consecutiveFails := consecutiveFails + 1;
        if consecutiveFails >= FAILURE_THRESHOLD {
          TripLocked(now);
        }
      }
    }

    method TripLocked(now: Instant)
      modifies this
      ensures Now() == Tripped(now)
    {
      phase, consecutiveFails, openUntil, halfOpenInFlight := Open, 0, Some(now + OPEN_INTERVAL), false;
    }
  }

  // ----- overlapping calls

  /**
   The breaker among its calls: those let through and not yet ended, those of them let through since the breaker last
   became half-open, the last one let through to probe, and whether the current half-open phase began with no other call
   under way.
   */
  datatype Traffic = Traffic(b: State, outstanding: set<Handle>, probes: set<Handle>, probe: Option<Handle>, alone: bool)

  datatype Step = Enter(call: Handle, now: Instant) | Leave(call: Handle, outcome: Outcome, now: Instant)

  predicate CanStep(t: Traffic, s: Step) {
    match s
    case Enter(call, _) => call !in t.outstanding
    case Leave(call, _, _) => call in t.outstanding
  }

  function After(t: Traffic, s: Step): Traffic
    requires CanStep(t, s)
  {
    match s
    case Enter(call, now) =>
      if !Admits(t.b, now) then t
      else
        var b := Entered(t.b, now);
        Traffic(b, t.outstanding + {call},
                if b.phase != HalfOpen then t.probes else if t.b.phase == Open then {call} else t.probes + {call},
                if b.phase == HalfOpen then Some(call) else t.probe,
                if t.b.phase == Open then t.outstanding == {} else t.alone)
    case Leave(call, outcome, now) =>
      t.(b := Left(t.b, outcome, now), outstanding := t.outstanding - {call}, probes := t.probes - {call})
  }

  predicate CanRun(t: Traffic, run: seq<Step>)
    decreases |run|
  {
    run == [] || (CanStep(t, run[0]) && CanRun(After(t, run[0]), run[1..]))
  }

  function AfterRun(t: Traffic, run: seq<Step>): Traffic
    requires CanRun(t, run)
    decreases |run|
  {
    if run == [] then t else AfterRun(After(t, run[0]), run[1..])
  }

  const START := Traffic(FRESH, {}, {}, None, false)

  /** A probe in flight means half-open and the last probe not yet ended; the count stays below the threshold. */
  predicate Inv(t: Traffic) {
    && 0 <= t.b.consecutiveFails < FAILURE_THRESHOLD
    && t.probes <= t.outstanding
    && (t.b.halfOpenInFlight ==> t.b.phase == HalfOpen && t.probe.Some? && t.probe.value in t.outstanding)
    && (t.b.phase == Open ==> t.b.openUntil.Some?)
    && (t.b.phase == HalfOpen && t.alone ==>
          t.outstanding == if t.b.halfOpenInFlight && t.probe.Some? then {t.probe.value} else {})
  }

  lemma StepKeepsInv(t: Traffic, s: Step)
    requires Inv(t) && CanStep(t, s)
    ensures Inv(After(t, s))
  {
    match s
    case Enter(call, now) =>
      if Admits(t.b, now) && t.b.phase != Closed && After(t, s).alone {
        assert t.outstanding == {};
        assert After(t, s).outstanding == {call};
      }
    case Leave(call, outcome, now) =>
      if t.b.phase == HalfOpen && t.alone {
        assert t.outstanding - {call} == {};
      }
  }

  lemma {:induction false} RunKeepsInv(t: Traffic, run: seq<Step>)
    requires Inv(t) && CanRun(t, run)
    ensures Inv(AfterRun(t, run))
    decreases |run|
  {
    if run == [] {
    } else {
      StepKeepsInv(t, run[0]);
      RunKeepsInv(After(t, run[0]), run[1..]);
    }
  }

  /** Under any overlap of calls the failure count stays below three, and a probe in flight is the last one let through. */
  lemma CountAndProbe(run: seq<Step>)
    requires CanRun(START, run)
    ensures var t := AfterRun(START, run);
            && 0 <= t.b.consecutiveFails < 3
            && (t.b.halfOpenInFlight ==> t.b.phase == HalfOpen && t.probe.Some? && t.probe.value in t.outstanding)
  {
    RunKeepsInv(START, run);
  }

  /** The breaker never shuts callers out for good: with no call under way and the open interval over, the next call goes through. */
  lemma IdleBreakerAdmits(run: seq<Step>, now: Instant)
    requires CanRun(START, run) && AfterRun(START, run).outstanding == {}
    ensures var b := AfterRun(START, run).b;
            Admits(b, now) <==> !(b.phase == Open && b.openUntil.Some? && now < b.openUntil.value)
  {
    RunKeepsInv(START, run);
  }

  /** A half-open phase entered with no other call under way never has more than one. */
  lemma OneProbeIfAlone(run: seq<Step>)
    requires CanRun(START, run)
    ensures var t := AfterRun(START, run);
            t.b.phase == HalfOpen && t.alone ==> |t.outstanding| <= 1
  {
    RunKeepsInv(START, run);
  }

  lemma {:induction false} OneMore(t: Traffic, s: Step, run: seq<Step>)
    requires CanStep(t, s) && CanRun(After(t, s), run)
    ensures CanRun(t, [s] + run) && AfterRun(t, [s] + run) == AfterRun(After(t, s), run)
  {
    assert ([s] + run)[1..] == run;
  }

  /** Two more calls: `ended` ends, then `entering` comes in. */
  lemma ThenTwo(t: Traffic, ended: Step, entering: Step)
    requires CanStep(t, ended) && CanStep(After(t, ended), entering)
    ensures CanRun(t, [ended, entering]) && AfterRun(t, [ended, entering]) == After(After(t, ended), entering)
  {
    var end := After(After(t, ended), entering);
    assert CanRun(end, []) && AfterRun(end, []) == end;
    OneMore(After(t, ended), entering, []);
    assert [entering] + [] == [entering];
    OneMore(t, ended, [entering]);
    assert [ended] + [entering] == [ended, entering];
  }

  /**
   Otherwise it can: while a probe is out, the cancellation of any other call, one from before the trip say, lets a
   second probe through.
   */
  lemma LateCancelAdmitsSecondProbe(t: Traffic, late: Handle, second: Handle, now: Instant)
    requires Inv(t) && t.b.phase == HalfOpen && t.b.halfOpenInFlight
    requires late in t.outstanding && late != t.probe.value && second !in t.outstanding
    ensures CanRun(t, [Leave(late, Cancelled, now), Enter(second, now)])
    ensures var u := AfterRun(t, [Leave(late, Cancelled, now), Enter(second, now)]);
            u.b.phase == HalfOpen && {t.probe.value, second} <= u.outstanding
  {
    ThenTwo(t, Leave(late, Cancelled, now), Enter(second, now));
  }

  /** The calls of the run can be made with the breaker half-open from its start to its end. */
  ghost predicate StaysHalfOpen(t: Traffic, run: seq<Step>)
    decreases |run|
  {
    t.b.phase == HalfOpen && (run == [] || (CanStep(t, run[0]) && StaysHalfOpen(After(t, run[0]), run[1..])))
  }

  /** Both are calls the half-open breaker let through, and neither has ended. */
  predicate TwoProbes(t: Traffic, a: Handle, b: Handle) { a != b && {a, b} <= t.probes }

  lemma {:induction false} AlonePhaseStaysAlone(t: Traffic, run: seq<Step>)
    requires Inv(t) && t.alone && StaysHalfOpen(t, run)
    ensures CanRun(t, run) && forall a, b :: !TwoProbes(AfterRun(t, run), a, b)
    decreases |run|
  {
    if run == [] {
    } else {
      StepKeepsInv(t, run[0]);
      AlonePhaseStaysAlone(After(t, run[0]), run[1..]);
    }
  }

  /** The caller whose late call is cancelled can itself ask again, and be the second probe. */
  lemma SecondProbe(t: Traffic, late: Handle, now: Instant)
    requires Inv(t) && t.b.phase == HalfOpen && t.b.halfOpenInFlight
    requires late in t.outstanding && late != t.probe.value
    ensures var run := [Leave(late, Cancelled, now), Enter(late, now)];
            StaysHalfOpen(t, run) && CanRun(t, run) && AfterRun(t, run).probes == t.probes + {late}
  {
    var ended, entering := Leave(late, Cancelled, now), Enter(late, now);
    ThenTwo(t, ended, entering);
    assert [ended, entering][1..] == [entering] && [entering][1..] == [];
    assert StaysHalfOpen(After(After(t, ended), entering), []);
    assert StaysHalfOpen(After(t, ended), [entering]);
  }

  /** However long the breaker stays half-open from here on, it never has two probes out at once. */
  ghost predicate OneAtATime(t: Traffic) {
    forall run, a, b | StaysHalfOpen(t, run) && CanRun(t, run) :: !TwoProbes(AfterRun(t, run), a, b)
  }

  lemma TwoProbesIfNotAlone(t: Traffic, call: Handle, now: Instant)
    requires Inv(t) && t.b.phase == Open && Admits(t.b, now) && call !in t.outstanding && t.outstanding != {}
    ensures !OneAtATime(After(t, Enter(call, now)))
  {
    var late := MemberOf(t.outstanding);
    var u := After(t, Enter(call, now));
    StepKeepsInv(t, Enter(call, now));
    SecondProbe(u, late, now);
    assert TwoProbes(AfterRun(u, [Leave(late, Cancelled, now), Enter(late, now)]), call, late);
  }

  lemma AlonePhaseExactly(t: Traffic, call: Handle, now: Instant)
    requires Inv(t) && t.b.phase == Open && Admits(t.b, now) && call !in t.outstanding
    ensures t.outstanding == {} <==> OneAtATime(After(t, Enter(call, now)))
  {
    var u := After(t, Enter(call, now));
    StepKeepsInv(t, Enter(call, now));
    if t.outstanding == {} {
      forall run, a, b | StaysHalfOpen(u, run) && CanRun(u, run)
        ensures !TwoProbes(AfterRun(u, run), a, b)
      {
        AlonePhaseStaysAlone(u, run);
      }
    } else {
      TwoProbesIfNotAlone(t, call, now);
    }
  }

  /**
   When the open interval is over and a call is let through, the half-open phase it begins is certain never to have two
   probes out at once exactly when no other call is still under way.
   */
  lemma OneProbeExactly(run: seq<Step>, call: Handle, now: Instant)
    requires CanRun(START, run) && AfterRun(START, run).b.phase == Open
    requires Admits(AfterRun(START, run).b, now) && call !in AfterRun(START, run).outstanding
    ensures var t := AfterRun(START, run);
            t.outstanding == {} <==> OneAtATime(After(t, Enter(call, now)))
  {
    RunKeepsInv(START, run);
    AlonePhaseExactly(AfterRun(START, run), call, now);
  }

  /** Such a state is reached: of four calls under way three fail, and after the open interval a fifth is let through. */
  lemma ProbeAmongLateCalls()
    ensures exists run ::
              CanRun(START, run)
              && AfterRun(START, run) == Traffic(State(HalfOpen, 0, Some(OPEN_INTERVAL), true), {3, 4}, {4}, Some(4), false)
  {
    hide CanRun, AfterRun;
    var t1 := After(START, Enter(0, 0));
    var t2 := After(t1, Enter(1, 0));
    var t3 := After(t2, Enter(2, 0));
    var t4 := After(t3, Enter(3, 0));
    var t5 := After(t4, Leave(0, Transient, 0));
    var t6 := After(t5, Leave(1, Transient, 0));
    var t7 := After(t6, Leave(2, Transient, 0));
    assert t4 == Traffic(FRESH, {0, 1, 2, 3}, {}, None, false);
    assert t7 == Traffic(Tripped(0), {3}, {}, None, false);
    ThenProbe(t7);
    var r7 := [Enter(4, OPEN_INTERVAL)];
    OneMore(t6, Leave(2, Transient, 0), r7);
    var r6 := [Leave(2, Transient, 0)] + r7;
    OneMore(t5, Leave(1, Transient, 0), r6);
    var r5 := [Leave(1, Transient, 0)] + r6;
    OneMore(t4, Leave(0, Transient, 0), r5);
    var r4 := [Leave(0, Transient, 0)] + r5;
    OneMore(t3, Enter(3, 0), r4);
    var r3 := [Enter(3, 0)] + r4;
    OneMore(t2, Enter(2, 0), r3);
    var r2 := [Enter(2, 0)] + r3;
    OneMore(t1, Enter(1, 0), r2);
    OneMore(START, Enter(0, 0), [Enter(1, 0)] + r2);
    var run := [Enter(0, 0)] + ([Enter(1, 0)] + r2);
    assert CanRun(START, run);
  }

  lemma ThenProbe(t: Traffic)
    requires t == Traffic(Tripped(0), {3}, {}, None, false)
    ensures CanRun(t, [Enter(4, OPEN_INTERVAL)])
    ensures AfterRun(t, [Enter(4, OPEN_INTERVAL)]) ==
            Traffic(State(HalfOpen, 0, Some(OPEN_INTERVAL), true), {3, 4}, {4}, Some(4), false)
  {
    var end := After(t, Enter(4, OPEN_INTERVAL));
    assert CanRun(end, []) && AfterRun(end, []) == end;
    OneMore(t, Enter(4, OPEN_INTERVAL), []);
    assert [Enter(4, OPEN_INTERVAL)] + [] == [Enter(4, OPEN_INTERVAL)];
  }

  /** A breaker that opens stays shut for thirty seconds from then, and no longer. */
  lemma OpensForThirtySeconds(t: Traffic, call: Handle, outcome: Outcome, now: Instant, later: Instant)
    requires CanStep(t, Leave(call, outcome, now)) && t.b.phase != Open && After(t, Leave(call, outcome, now)).b.phase == Open
    ensures outcome == Transient
    ensures Admits(After(t, Leave(call, outcome, now)).b, later) <==> later >= now + 30_000
  {
  }

  /**
   How a call's end moves the breaker among any others: a success or a permanent failure closes it afresh, a cancellation
   frees the probe's place, and a transient failure opens it from half-open or as the third in a row, and counts else,
   while it is open too.
   */
  lemma LeavingMoves(run: seq<Step>, call: Handle, outcome: Outcome, now: Instant)
    requires CanRun(START, run) && CanStep(AfterRun(START, run), Leave(call, outcome, now))
    ensures var b := AfterRun(START, run).b;
            var after := After(AfterRun(START, run), Leave(call, outcome, now)).b;
            && (outcome == Success || outcome == Permanent ==>
                  after.phase == Closed && after.consecutiveFails == 0 && after.openUntil == None && !after.halfOpenInFlight)
            && (outcome == Cancelled ==>
                  && after.phase == b.phase && after.consecutiveFails == b.consecutiveFails && after.openUntil == b.openUntil
                  && !after.halfOpenInFlight)
            && (outcome == Transient ==>
                  if b.phase == HalfOpen || b.consecutiveFails == 2 then
                    && after.phase == Open && after.consecutiveFails == 0 && after.openUntil == Some(now + 30_000)
                    && !after.halfOpenInFlight
                  else
                    && after.phase == b.phase && after.consecutiveFails == b.consecutiveFails + 1 && after.openUntil == b.openUntil
                    && !after.halfOpenInFlight)
  {
    RunKeepsInv(START, run);
  }

  // ----- one caller at a time

  /** A call made at `start` that ends as `outcome` at `end`, if it is let through. */
  datatype Call = Call(start: Instant, outcome: Outcome, end: Instant)

  function Called(b: State, c: Call): State {
    if Admits(b, c.start) then Left(Entered(b, c.start), c.outcome, c.end) else b
  }

  function AfterCalls(b: State, calls: seq<Call>): State
    decreases |calls|
  {
    if calls == [] then b else Called(AfterCalls(b, calls[..|calls| - 1]), calls[|calls| - 1])
  }

  /** The outcomes, cancellations aside, since the breaker last became closed; none unless it is closed. */
  function Since(b: State, calls: seq<Call>): seq<Outcome>
    decreases |calls|
  {
    if calls == [] then []
    else
      var before := AfterCalls(b, calls[..|calls| - 1]);
      var c := calls[|calls| - 1];
      if before.phase == Closed && AfterCalls(b, calls).phase == Closed then
        Since(b, calls[..|calls| - 1]) + (if c.outcome == Cancelled then [] else [c.outcome])
      else []
  }

  /** How many outcomes at the end are transient failures. */
  function Trailing(outcomes: seq<Outcome>): nat {
    if outcomes == [] || outcomes[|outcomes| - 1] != Transient then 0 else 1 + Trailing(outcomes[..|outcomes| - 1])
  }

  predicate LastThreeTransient(outcomes: seq<Outcome>) {
    |outcomes| >= 3 && forall i | |outcomes| - 3 <= i < |outcomes| :: outcomes[i] == Transient
  }

  lemma {:induction false} TrailingIsLast(outcomes: seq<Outcome>, k: nat)
    ensures Trailing(outcomes) >= k <==> |outcomes| >= k && forall i | |outcomes| - k <= i < |outcomes| :: outcomes[i] == Transient
    decreases k
  {
    if k > 0 && outcomes != [] {
      var n := |outcomes| - 1;
      TrailingIsLast(outcomes[..n], k - 1);
      assert forall i | 0 <= i < n :: outcomes[..n][i] == outcomes[i];
      if outcomes[n] == Transient {
        assert Trailing(outcomes) == 1 + Trailing(outcomes[..n]);
      }
    }
  }

  lemma {:induction false} CountIsTrailing(calls: seq<Call>)
    ensures var b := AfterCalls(FRESH, calls);
            && !b.halfOpenInFlight
            && b.consecutiveFails == Trailing(Since(FRESH, calls))
            && b.consecutiveFails < FAILURE_THRESHOLD
            && (b.phase != Closed ==> b.consecutiveFails == 0)
    decreases |calls|
  {
    if calls != [] {
      var before := calls[..|calls| - 1];
      var o := calls[|calls| - 1].outcome;
      CountIsTrailing(before);
      assert (Since(FRESH, before) + [o])[..|Since(FRESH, before)|] == Since(FRESH, before);
      assert Since(FRESH, before) + [] == Since(FRESH, before);
    }
  }

  /** With one caller at a time the breaker opens exactly when the last three outcomes since it closed are transient failures. */
  lemma TripsOnThirdTransient(calls: seq<Call>, c: Call)
    requires AfterCalls(FRESH, calls).phase == Closed
    ensures Called(AfterCalls(FRESH, calls), c).phase == Open <==>
            c.outcome != Cancelled && LastThreeTransient(Since(FRESH, calls) + [c.outcome])
  {
    CountIsTrailing(calls);
    var outcomes := Since(FRESH, calls) + [c.outcome];
    assert outcomes[..|outcomes| - 1] == Since(FRESH, calls);
    TrailingIsLast(outcomes, 3);
  }

  /** A failed probe opens the breaker again at once; any other end of it but a cancellation closes it. */
  lemma ProbeDecides(calls: seq<Call>, c: Call)
    requires AfterCalls(FRESH, calls).phase != Closed && Admits(AfterCalls(FRESH, calls), c.start)
    ensures Called(AfterCalls(FRESH, calls), c).phase ==
            match c.outcome
            case Transient => Open
            case Cancelled => HalfOpen
            case _ => Closed
  {
  }
}
