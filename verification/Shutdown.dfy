/**
 Starting, counting down and stopping the server.

 An event is one handler run on the server's strand, or one part of `run`; the
 times it reads from the clock are parameters, and the clock never goes back.
 Waits cancelled by `stop` have no effect when they complete and are left out;
 `missed` says that a completed wait was already queued and escaped the cancel.
 */
module Shutdown {
  import opened Wrappers

  type Service = nat

  const STEP := 10                     // seconds between announcements
  const GRACE := 30                    // countdown started by a signal

  // ----- rounding up a duration -----

  /** Whole seconds in ticks of the clock. */
  function Ticks(seconds: int): int {
    seconds * 1_000_000_000
  }

  /** `duration_cast<seconds>`, which truncates towards zero. */
  function CastSeconds(d: int): int {
    if d >= 0 then d / 1_000_000_000 else -((-d) / 1_000_000_000)
  }

  function Ceil(d: int): int {
    var t := CastSeconds(d);
    if Ticks(t) < d then t + 1 else t
  }

  /** `ceil` is the least number of whole seconds not below the duration, of either sign. */
  lemma CeilIsLeastUpper(d: int, n: int)
    ensures d <= Ticks(n) <==> Ceil(d) <= n
  {
  }

  // ----- the server -----

  datatype Phase = Idle | Running | Finished

  /** The services and what `run` has called on them. */
  datatype Agents = Agents(
    phase: Phase, services: seq<Service>, registered: seq<Service>,
    started: seq<Service>, stopped: seq<Service>)

  /** The countdown: clock, deadline, the timer and its outstanding waits, and what was announced. */
  datatype Clock = Clock(
    now: int, deadline: int, expiry: Option<int>, waits: seq<int>, cooldown: int, announced: seq<int>)

  datatype State = State(agents: Agents, clock: Clock, stop: bool, signals: bool)

  datatype Event =
    | Insert(sp: Service)
    | RunBegins
    | RunEnds
    | ShutDown(seconds: int, t1: int, t2: int, t3: int, missed: bool)
    | Timer(t2: int, t3: int, missed: bool)
    | Signal(t1: int, t2: int, t3: int, missed: bool)
    | Stop(missed: bool)

  function Init(now: int): State {
    State(Agents(Idle, [], [], [], []), Clock(now, 0, None, [], 0, []), false, false)
  }

  function DoStop(s: State, missed: bool): State {
    if s.stop then s
    else State(s.agents, if missed then s.clock else s.clock.(waits := []), true, missed && s.signals)
  }

  function Least(a: int, b: int): int {
    if a <= b then a else b
  }

  /** Announce what remains and wait for at most 10 seconds of it. */
  function Announce(c: Clock, remain: int, t3: int): Clock {
    var at := t3 + Ticks(Least(remain, STEP));
    c.(now := t3, expiry := Some(at), waits := c.waits + [at], announced := c.announced + [remain])
  }

  function Proceed(s: State, remain: int, t3: int, missed: bool): State {
    if remain <= 0 then DoStop(s.(clock := s.clock.(now := t3)), missed)
    else s.(clock := Announce(s.clock, remain, t3))
  }

  function OnTimer(s: State, t2: int, t3: int, missed: bool): State {
    Proceed(s, Ceil(s.clock.deadline - t2), t3, missed)
  }

  function DoShutdown(s: State, seconds: int, t1: int, t2: int, t3: int, missed: bool): State {
    if s.clock.expiry.Some? then s.(clock := s.clock.(now := t3))
    else OnTimer(s.(clock := s.clock.(deadline := t1 + Ticks(seconds), cooldown := seconds)), t2, t3, missed)
  }

  predicate Enabled(s: State, e: Event) {
    match e
    case Insert(_) => true
    case RunBegins => true
    case RunEnds => s.agents.phase.Running? && s.stop
    case ShutDown(_, t1, t2, t3, _) => s.clock.now <= t1 <= t2 <= t3
    case Timer(t2, t3, _) => s.clock.waits != [] && s.clock.waits[0] <= t2 && s.clock.now <= t2 <= t3
    case Signal(t1, t2, t3, _) => s.signals && s.clock.now <= t1 <= t2 <= t3
    case Stop(_) => true
  }

  /** A wait that completes is no longer outstanding. */
  function Fired(s: State): State
    requires s.clock.waits != []
  {
    s.(clock := s.clock.(waits := s.clock.waits[1..]))
  }

  /** The part of `run` and `insert`; both throw, and change nothing, once the server runs. */
  function Serve(a: Agents, e: Event): Agents {
    match e
    case Insert(sp) =>
      if !a.phase.Idle? then a else a.(services := a.services + [sp], registered := a.registered + [sp])
    case RunBegins =>
      if !a.phase.Idle? then a else a.(phase := Running, started := a.started + a.services)
    case RunEnds => a.(phase := Finished, services := [], stopped := a.stopped + a.services)
    case _ => a
  }

  function Next(s: State, e: Event): State
    requires Enabled(s, e)
  {
    match e
    case Insert(_) => s.(agents := Serve(s.agents, e))
    case RunBegins => s.(agents := Serve(s.agents, e), signals := s.signals || s.agents.phase.Idle?)
    case RunEnds => s.(agents := Serve(s.agents, e))
    case ShutDown(seconds, t1, t2, t3, missed) => DoShutdown(s, seconds, t1, t2, t3, missed)
    case Timer(t2, t3, missed) => OnTimer(Fired(s), t2, t3, missed)
    case Signal(t1, t2, t3, missed) =>
      if s.clock.expiry.None? then DoShutdown(s, GRACE, t1, t2, t3, missed)
      else DoStop(s.(signals := false), missed)
    case Stop(missed) => DoStop(s, missed)
  }

  ghost predicate CanRun(s: State, es: seq<Event>)
    decreases |es|
  {
    es == [] || (Enabled(s, es[0]) && CanRun(Next(s, es[0]), es[1..]))
  }

  ghost function After(s: State, es: seq<Event>): State
    requires CanRun(s, es)
    decreases |es|
  {
    if es == [] then s else After(Next(s, es[0]), es[1..])
  }

  // ----- the invariant -----

  function Last(c: Clock): int
    requires c.announced != []
  {
    c.announced[|c.announced| - 1]
  }

  ghost predicate Decreasing(a: seq<int>) {
    forall i, j | 0 <= i < j < |a| :: a[i] > a[j]
  }

  /** What was announced last leaves room for the wait, and for the announcements before it. */
  ghost predicate Counting(c: Clock) {
    && Decreasing(c.announced) && (c.expiry.Some? <==> c.announced != [])
    && (c.expiry.Some? ==>
          && 1 <= Last(c) <= c.cooldown - STEP * (|c.announced| - 1)
          && c.deadline - c.expiry.value <= Ticks(Last(c) - Least(Last(c), STEP)))
  }

  /** At most one wait is outstanding, and one is as long as a countdown goes on. */
  ghost predicate Waiting(c: Clock, stop: bool) {
    && |c.waits| <= 1
    && (c.waits != [] ==> c.expiry == Some(c.waits[0]))
    && (c.expiry.Some? && !stop ==> c.waits != [])
  }

  ghost predicate Serving(a: Agents, stop: bool) {
    match a.phase
    case Idle => a.services == a.registered && a.started == [] && a.stopped == []
    case Running => a.services == a.registered && a.started == a.registered && a.stopped == []
    case Finished => a.services == [] && a.started == a.registered && a.stopped == a.registered && stop
  }

  ghost predicate Inv(s: State) {
    Counting(s.clock) && Waiting(s.clock, s.stop) && Serving(s.agents, s.stop)
  }

  /** When the wait is over, the time left has shrunk by what was waited for. */
  lemma RemainShrinks(c: Clock, t: int)
    requires Counting(c) && c.expiry.Some? && c.expiry.value <= t
    ensures Ceil(c.deadline - t) <= Last(c) - Least(Last(c), STEP)
  {
    CeilIsLeastUpper(c.deadline - t, Last(c) - Least(Last(c), STEP));
  }

  /** An announcement goes with less than before, and with a wait that fits the deadline. */
  lemma AnnounceKeepsCounting(c: Clock, remain: int, t3: int)
    requires Counting(c)
    requires c.deadline - t3 <= Ticks(remain) && remain >= 1
    requires Plausible(c, remain)
    ensures Counting(Announce(c, remain, t3))
  {
    var a, a' := c.announced, c.announced + [remain];
    assert Last(Announce(c, remain, t3)) == remain;
    forall i, j | 0 <= i < j < |a'| ensures a'[i] > a'[j] {
      if j == |a| && i < j - 1 { assert a[i] > a[j - 1]; }
    }
  }

  /** What may remain of a countdown: no more than it began with, less than was announced before. */
  ghost predicate Plausible(c: Clock, remain: int) {
    if c.announced == [] then remain <= c.cooldown else remain <= Last(c) - Least(Last(c), STEP)
  }

  lemma ProceedKeepsInv(s: State, remain: int, t3: int, missed: bool)
    requires Counting(s.clock) && Serving(s.agents, s.stop) && s.clock.waits == []
    requires Plausible(s.clock, remain) && s.clock.deadline - t3 <= Ticks(remain)
    ensures Inv(Proceed(s, remain, t3, missed))
  {
    if remain <= 0 {
      assert Counting(s.clock.(now := t3));
    } else {
      AnnounceKeepsCounting(s.clock, remain, t3);
    }
  }

  /** One run of the timer handler, for what the clock shows. */
  lemma OnTimerKeepsInv(s: State, t2: int, t3: int, missed: bool, remain: int)
    requires Counting(s.clock) && Serving(s.agents, s.stop) && s.clock.waits == [] && t2 <= t3
    requires remain == Ceil(s.clock.deadline - t2) && Plausible(s.clock, remain)
    ensures Inv(OnTimer(s, t2, t3, missed))
  {
    assert s.clock.deadline - t2 <= Ticks(remain) by { CeilIsLeastUpper(s.clock.deadline - t2, remain); }
    ProceedKeepsInv(s, remain, t3, missed);
    assert OnTimer(s, t2, t3, missed) == Proceed(s, remain, t3, missed);
  }

  lemma ShutdownKeepsInv(s: State, seconds: int, t1: int, t2: int, t3: int, missed: bool)
    requires Inv(s) && t1 <= t2 <= t3
    ensures Inv(DoShutdown(s, seconds, t1, t2, t3, missed))
  {
    if s.clock.expiry.None? {
      var s1 := s.(clock := s.clock.(deadline := t1 + Ticks(seconds), cooldown := seconds));
      CeilIsLeastUpper(s1.clock.deadline - t2, seconds);
      OnTimerKeepsInv(s1, t2, t3, missed, Ceil(s1.clock.deadline - t2));
    }
  }

  lemma StepKeepsInv(s: State, e: Event)
    requires Inv(s) && Enabled(s, e)
    ensures Inv(Next(s, e))
  {
    match e
    case ShutDown(k, t1, t2, t3, missed) => ShutdownKeepsInv(s, k, t1, t2, t3, missed);
    case Timer(t2, t3, missed) =>
      RemainShrinks(s.clock, t2);
      OnTimerKeepsInv(Fired(s), t2, t3, missed, Ceil(s.clock.deadline - t2));
    case Signal(t1, t2, t3, missed) => ShutdownKeepsInv(s, GRACE, t1, t2, t3, missed);
    case _ =>
  }

  lemma {:induction false} EveryRunKeepsInv(s: State, es: seq<Event>)
    requires Inv(s) && CanRun(s, es)
    ensures Inv(After(s, es))
    decreases |es|
  {
    if es != [] {
      StepKeepsInv(s, es[0]);
      EveryRunKeepsInv(Next(s, es[0]), es[1..]);
    }
  }

  // ----- the countdown -----

  /** A countdown of k seconds announces strictly decreasing times, at most ceil(k / 10) of them. */
  lemma FewAnnouncements(now: int, es: seq<Event>)
    requires CanRun(Init(now), es) && After(Init(now), es).clock.announced != []
    ensures var c := After(Init(now), es).clock;
            && Decreasing(c.announced) && Last(c) >= 1
            && |c.announced| <= (c.cooldown + 9) / 10
  {
    EveryRunKeepsInv(Init(now), es);
  }

  /** A countdown never stops the server before its deadline. */
  lemma NeverEarly(s: State, e: Event)
    requires Enabled(s, e) && !s.stop && Next(s, e).stop
    requires e.Timer? || e.ShutDown? || (e.Signal? && s.clock.expiry.None?)
    ensures e.t2 >= Next(s, e).clock.deadline
  {
    CeilIsLeastUpper(Next(s, e).clock.deadline - e.t2, 0);
  }

  /** Every completed wait either stops the server or leaves at least 10 seconds less to go. */
  lemma TimerProgress(s: State, t2: int, t3: int, missed: bool)
    requires Inv(s) && Enabled(s, Timer(t2, t3, missed))
    ensures var s' := Next(s, Timer(t2, t3, missed));
            s'.stop || (s'.clock.expiry.Some? && s'.clock.announced != [] && Last(s'.clock) <= Last(s.clock) - STEP)
  {
    RemainShrinks(s.clock, t2);
  }

  function Timers(es: seq<Event>): nat {
    if es == [] then 0 else (if es[0].Timer? then 1 else 0) + Timers(es[1..])
  }

  /** No event but a completed wait touches what was announced while a countdown goes on. */
  lemma OthersLeaveCountdown(s: State, e: Event)
    requires Inv(s) && s.clock.expiry.Some? && Enabled(s, e) && !e.Timer?
    ensures Next(s, e).clock.expiry.Some? && Next(s, e).clock.announced == s.clock.announced
  {
  }

  /**
   In every run in which ceil(r / 10) waits complete after r seconds were announced,
   however they are interleaved with other events, the server has stopped.
   */
  lemma {:induction false} CountdownReachesStop(s: State, es: seq<Event>)
    requires Inv(s) && s.clock.expiry.Some? && CanRun(s, es) && 10 * Timers(es) >= Last(s.clock)
    ensures After(s, es).stop
    decreases |es|
  {
    if s.stop {
      StopAndDeadlineAreFinal(s, es);
    } else if es != [] {
      var e := es[0];
      StepKeepsInv(s, e);
      if e.Timer? {
        TimerProgress(s, e.t2, e.t3, e.missed);
        if Next(s, e).stop {
          StopAndDeadlineAreFinal(Next(s, e), es[1..]);
        } else {
          CountdownReachesStop(Next(s, e), es[1..]);
        }
      } else {
        OthersLeaveCountdown(s, e);
        CountdownReachesStop(Next(s, e), es[1..]);
      }
    }
  }

  /** And such waits never run out: until it stops, the server has one that can complete. */
  lemma CountdownNeverStalls(s: State, t: int)
    requires Inv(s) && s.clock.expiry.Some? && !s.stop && s.clock.now <= t && s.clock.expiry.value <= t
    ensures Enabled(s, Timer(t, t, false))
  {
  }

  /** A timer that fires when it expires, in a handler during which the clock does not advance. */
  predicate Punctual(s: State, e: Event) {
    && (e.Timer? ==> s.clock.waits != [] && e.t2 == e.t3 == s.clock.waits[0])
    && (e.ShutDown? || e.Signal? ==> e.t2 == e.t3)
  }

  ghost predicate AllPunctual(s: State, es: seq<Event>)
    requires CanRun(s, es)
    decreases |es|
  {
    es != [] ==> Punctual(s, es[0]) && AllPunctual(Next(s, es[0]), es[1..])
  }

  lemma Prepend(s: State, e: Event, es: seq<Event>)
    requires Enabled(s, e) && CanRun(Next(s, e), es)
    ensures CanRun(s, [e] + es) && After(s, [e] + es) == After(Next(s, e), es)
    ensures Punctual(s, e) && AllPunctual(Next(s, e), es) ==> AllPunctual(s, [e] + es)
  {
    assert ([e] + es)[1..] == es;
  }

  /** What an undisturbed countdown says: every tenth second, then the rest. */
  function Countdown(r: int): seq<int>
    decreases if r <= 0 then 0 else r
  {
    if r <= 0 then [] else [r] + Countdown(r - 10)
  }

  lemma CountdownUnfolds(a: seq<int>, r: int)
    ensures a + Countdown(r) == if r <= 0 then a else a + [r] + Countdown(r - STEP)
  {
  }

  /** Exactly r seconds before the deadline r was announced, and the timer set. */
  ghost predicate Exact(s: State, r: int) {
    && Inv(s) && !s.stop && s.clock.announced != [] && Last(s.clock) == r
    && s.clock.expiry == Some(s.clock.deadline - Ticks(r - Least(r, STEP)))
    && s.clock.now <= s.clock.expiry.value
  }

  lemma ExactStep(s: State, r: int)
    requires Exact(s, r)
    ensures var t := s.clock.expiry.value;
            && Enabled(s, Timer(t, t, false))
            && var s' := Next(s, Timer(t, t, false));
            && s'.clock.now == t && s'.clock.deadline == s.clock.deadline
            && if r <= STEP then s'.stop && t == s.clock.deadline && s'.clock.announced == s.clock.announced
               else Exact(s', r - STEP) && s'.clock.announced == s.clock.announced + [r - STEP]
  {
    var t := s.clock.expiry.value;
    StepKeepsInv(s, Timer(t, t, false));
    assert Ceil(s.clock.deadline - t) == r - Least(r, STEP) by {
      CeilIsLeastUpper(s.clock.deadline - t, r - Least(r, STEP));
      CeilIsLeastUpper(s.clock.deadline - t, r - Least(r, STEP) - 1);
    }
  }

  lemma {:induction false} ExactCountdown(s: State, r: int) returns (es: seq<Event>)
    requires Exact(s, r)
    ensures CanRun(s, es) && AllPunctual(s, es) && forall e | e in es :: e.Timer?
    ensures After(s, es).stop && After(s, es).clock.now == s.clock.deadline
    ensures After(s, es).clock.announced == s.clock.announced + Countdown(r - STEP)
    decreases r
  {
    ExactStep(s, r);
    var t := s.clock.expiry.value;
    var e := Timer(t, t, false);
    var s' := Next(s, e);
    if r <= STEP {
      Prepend(s, e, []);
      es := [e] + [];
      CountdownUnfolds(s.clock.announced, r - STEP);
    } else {
      var rest := ExactCountdown(s', r - STEP);
      Prepend(s, e, rest);
      es := [e] + rest;
      CountdownUnfolds(s.clock.announced, r - STEP);
    }
  }

  /** The countdown that begins at time `t` and is not delayed. */
  lemma CountdownFrom(s: State, e: Event, k: int, t: int) returns (es: seq<Event>)
    requires Inv(s) && !s.stop && s.clock.expiry.None? && k >= 1
    requires Enabled(s, e) && Punctual(s, e) && Next(s, e) == DoShutdown(s, k, t, t, t, false)
    ensures CanRun(s, es) && es != [] && es[0] == e
    ensures AllPunctual(s, es) && forall e | e in es[1..] :: e.Timer?
    ensures After(s, es).stop && After(s, es).clock.now == t + Ticks(k)
    ensures After(s, es).clock.announced == Countdown(k)
  {
    StepKeepsInv(s, e);
    var s' := Next(s, e);
    assert Ceil(t + Ticks(k) - t) == k;
    var rest := ExactCountdown(s', k);
    Prepend(s, e, rest);
    es := [e] + rest;
    assert es[1..] == rest;
    assert [k] + Countdown(k - STEP) == Countdown(k);
  }

  /**
   With no delays, `shutdown(k)` announces k, k - 10, k - 20 and so on down to the
   last positive value, and stops the server exactly k seconds later.
   */
  lemma UndisturbedShutdown(s: State, k: int, t: int) returns (es: seq<Event>)
    requires Inv(s) && !s.stop && s.clock.expiry.None? && s.clock.now <= t && k >= 1
    ensures CanRun(s, es) && es != [] && es[0] == ShutDown(k, t, t, t, false)
    ensures AllPunctual(s, es) && forall e | e in es[1..] :: e.Timer?
    ensures After(s, es).stop && After(s, es).clock.now == t + Ticks(k)
    ensures After(s, es).clock.announced == Countdown(k)
  {
    es := CountdownFrom(s, ShutDown(k, t, t, t, false), k, t);
  }

  /** A first signal is a shutdown in 30 seconds: it announces 30, 20 and 10. */
  lemma UndisturbedSignal(s: State, t: int) returns (es: seq<Event>)
    requires Inv(s) && !s.stop && s.clock.expiry.None? && s.clock.now <= t && s.signals
    ensures CanRun(s, es) && es != [] && es[0] == Signal(t, t, t, false)
    ensures AllPunctual(s, es) && forall e | e in es[1..] :: e.Timer?
    ensures After(s, es).stop && After(s, es).clock.now == t + Ticks(30)
    ensures After(s, es).clock.announced == [30, 20, 10]
  {
    es := CountdownFrom(s, Signal(t, t, t, false), 30, t);
    assert Countdown(30) == [30] + Countdown(20) && Countdown(20) == [20] + Countdown(10);
    assert Countdown(10) == [10] + Countdown(0);
  }

  /** The wait ends less than a second after the deadline if the handlers take no time. */
  ghost predicate OnTime(c: Clock) {
    c.expiry.Some? && c.announced != []
    ==> c.deadline - c.expiry.value > Ticks(Last(c) - 1 - Least(Last(c), STEP))
  }

  lemma AnnouncedOnTime(s: State, t: int, missed: bool)
    requires OnTime(s.clock)
    ensures OnTime(OnTimer(s, t, t, missed).clock)
  {
    var remain := Ceil(s.clock.deadline - t);
    CeilIsLeastUpper(s.clock.deadline - t, remain - 1);
    if remain >= 1 { assert Last(Announce(s.clock, remain, t)) == remain; }
  }

  lemma PunctualStaysOnTime(s: State, e: Event)
    requires Inv(s) && OnTime(s.clock) && Enabled(s, e) && Punctual(s, e)
    ensures OnTime(Next(s, e).clock)
  {
    if e.Timer? {
      AnnouncedOnTime(Fired(s), e.t2, e.missed);
    } else if (e.ShutDown? || e.Signal?) && s.clock.expiry.None? {
      var seconds := if e.Signal? then GRACE else e.seconds;
      AnnouncedOnTime(s.(clock := s.clock.(deadline := e.t1 + Ticks(seconds), cooldown := seconds)), e.t2, e.missed);
    }
  }

  lemma {:induction false} PunctualRuns(s: State, es: seq<Event>)
    requires Inv(s) && OnTime(s.clock) && CanRun(s, es) && AllPunctual(s, es)
    ensures Inv(After(s, es)) && OnTime(After(s, es).clock)
    decreases |es|
  {
    if es != [] {
      StepKeepsInv(s, es[0]);
      PunctualStaysOnTime(s, es[0]);
      PunctualRuns(Next(s, es[0]), es[1..]);
    }
  }

  /** With punctual timers and handlers, the wait that stops the server ends within a second of the deadline. */
  lemma StopsWithinASecond(now: int, es: seq<Event>, t: int, missed: bool)
    requires CanRun(Init(now), es) && AllPunctual(Init(now), es)
    requires var s, e := After(Init(now), es), Timer(t, t, missed);
             Enabled(s, e) && Punctual(s, e) && !s.stop && Next(s, e).stop
    ensures var c := After(Init(now), es).clock; c.deadline <= t < c.deadline + Ticks(1)
  {
    PunctualRuns(Init(now), es);
    NeverEarly(After(Init(now), es), Timer(t, t, missed));
  }

  // ----- stopping -----

  /** `stop_` never reverts, and a deadline whose countdown has begun never changes. */
  lemma {:induction false} StopAndDeadlineAreFinal(s: State, es: seq<Event>)
    requires CanRun(s, es)
    ensures var s' := After(s, es);
            && (s.stop ==> s'.stop)
            && (s.clock.expiry.Some? ==> s'.clock.expiry.Some? && s'.clock.deadline == s.clock.deadline)
    decreases |es|
  {
    if es != [] { StopAndDeadlineAreFinal(Next(s, es[0]), es[1..]); }
  }

  function Signals(es: seq<Event>): nat {
    if es == [] then 0 else (if es[0].Signal? then 1 else 0) + Signals(es[1..])
  }

  /** Two signals stop the server, whatever else happens before, between and after them. */
  lemma {:induction false} TwoSignalsStop(s: State, es: seq<Event>)
    requires CanRun(s, es) && Signals(es) >= (if s.stop then 0 else if s.clock.expiry.Some? then 1 else 2)
    ensures After(s, es).stop
    decreases |es|
  {
    if s.stop {
      StopAndDeadlineAreFinal(s, es);
    } else if es != [] {
      TwoSignalsStop(Next(s, es[0]), es[1..]);
    }
  }

  /** A server that runs and has not stopped waits for signals, before and during a countdown. */
  predicate Listening(s: State) {
    s.agents.phase.Running? && !s.stop ==> s.signals
  }

  lemma {:induction false} ListensUntilStopped(s: State, es: seq<Event>)
    requires Listening(s) && CanRun(s, es)
    ensures Listening(After(s, es))
    decreases |es|
  {
    if es != [] { ListensUntilStopped(Next(s, es[0]), es[1..]); }
  }

  /** So whenever the server runs two signals can arrive, one after the other, and have then stopped it. */
  lemma TwoSignalsArrive(now: int, es: seq<Event>, t: int, u: int)
    requires CanRun(Init(now), es)
    requires var s := After(Init(now), es); s.agents.phase.Running? && !s.stop && s.clock.now <= t <= u
    ensures var s, e1, e2 := After(Init(now), es), Signal(t, t, t, false), Signal(u, u, u, false);
            && Enabled(s, e1)
            && (!Next(s, e1).stop ==> Enabled(Next(s, e1), e2) && Next(Next(s, e1), e2).stop)
  {
    ListensUntilStopped(Init(now), es);
    EveryRunKeepsInv(Init(now), es);
    var s := After(Init(now), es);
    assert Ceil(Ticks(30)) == 30;
    ListensUntilStopped(s, [Signal(t, t, t, false)]);
  }

  lemma {:induction false} DeafForGood(s: State, es: seq<Event>)
    requires !s.signals && !s.agents.phase.Idle? && CanRun(s, es)
    ensures forall e | e in es :: !e.Signal?
    decreases |es|
  {
    if es != [] {
      DeafForGood(Next(s, es[0]), es[1..]);
      assert es == [es[0]] + es[1..];
    }
  }

  /** The signal that stops a countdown is the last one handled: the server does not wait for another. */
  lemma SecondSignalIsLast(s: State, e: Event, es: seq<Event>)
    requires e.Signal? && Enabled(s, e) && s.clock.expiry.Some? && !s.agents.phase.Idle?
    requires CanRun(Next(s, e), es)
    ensures Next(s, e).stop && forall f | f in es :: !f.Signal?
  {
    DeafForGood(Next(s, e), es);
  }

  /** A `stop` that is executed is obeyed. */
  lemma {:induction false} StopIsObeyed(s: State, es: seq<Event>, missed: bool)
    requires CanRun(s, es) && Stop(missed) in es
    ensures After(s, es).stop
    decreases |es|
  {
    if es[0] == Stop(missed) {
      StopAndDeadlineAreFinal(Next(s, es[0]), es[1..]);
    } else {
      StopIsObeyed(Next(s, es[0]), es[1..], missed);
    }
  }

  /** A stopped countdown whose waits are cancelled. */
  predicate Silent(s: State) {
    s.stop && s.clock.expiry.Some? && s.clock.waits == [] && !s.signals && !s.agents.phase.Idle?
  }

  /** Stopping in time cancels the waits, and then nothing is announced or handled any more. */
  lemma {:induction false} StopSilences(s: State, es: seq<Event>)
    requires !s.stop && s.clock.expiry.Some? && !s.agents.phase.Idle?
    requires CanRun(Next(s, Stop(false)), es)
    ensures Silent(After(Next(s, Stop(false)), es))
    ensures After(Next(s, Stop(false)), es).clock.announced == s.clock.announced
    ensures forall e | e in es :: !e.Timer? && !e.Signal?
  {
    SilenceLasts(Next(s, Stop(false)), es);
  }

  lemma {:induction false} SilenceLasts(s: State, es: seq<Event>)
    requires Silent(s) && CanRun(s, es)
    ensures Silent(After(s, es)) && After(s, es).clock.announced == s.clock.announced
    ensures forall e | e in es :: !e.Timer? && !e.Signal?
    decreases |es|
  {
    if es != [] {
      SilenceLasts(Next(s, es[0]), es[1..]);
      assert es == [es[0]] + es[1..];
    }
  }

  // ----- services -----

  /** The services inserted before the server runs, in order. */
  function Inserted(es: seq<Event>): seq<Service> {
    if es == [] || es[0].RunBegins? then []
    else (if es[0].Insert? then [es[0].sp] else []) + Inserted(es[1..])
  }

  /** What one event does to the phase and to the services registered. */
  lemma AgentSteps(s: State, e: Event)
    requires Enabled(s, e)
    ensures var a, a' := s.agents, Next(s, e).agents;
            && (a'.phase.Idle? <==> a.phase.Idle? && !e.RunBegins?)
            && (a'.phase.Finished? <==> a.phase.Finished? || e.RunEnds?)
            && a'.registered == if a.phase.Idle? && e.Insert? then a.registered + [e.sp] else a.registered
  {
  }

  lemma {:induction false} PhaseOfRun(s: State, es: seq<Event>)
    requires CanRun(s, es)
    ensures After(s, es).agents.phase.Idle? <==> s.agents.phase.Idle? && RunBegins !in es
    ensures After(s, es).agents.phase.Finished? <==> s.agents.phase.Finished? || RunEnds in es
    decreases |es|
  {
    if es != [] {
      AgentSteps(s, es[0]);
      PhaseOfRun(Next(s, es[0]), es[1..]);
      assert es == [es[0]] + es[1..];
    }
  }

  lemma {:induction false} RegisteredInRun(s: State, es: seq<Event>)
    requires CanRun(s, es)
    ensures After(s, es).agents.registered
            == s.agents.registered + (if s.agents.phase.Idle? then Inserted(es) else [])
    decreases |es|
  {
    var before := s.agents.registered;
    if es == [] {
      assert before + [] == before;
    } else {
      AgentSteps(s, es[0]);
      RegisteredInRun(Next(s, es[0]), es[1..]);
      if es[0].Insert? { assert before + ([es[0].sp] + Inserted(es[1..])) == before + [es[0].sp] + Inserted(es[1..]); }
      assert [] + Inserted(es[1..]) == Inserted(es[1..]);
    }
  }

  /**
   In every run exactly the services inserted before the server runs are started, once,
   when it does, and are stopped at most once, when `run` comes to its end after `stop`.
   */
  lemma ServicesStartAndStopOnce(now: int, es: seq<Event>)
    requires CanRun(Init(now), es)
    ensures var s := After(Init(now), es);
            && s.agents.registered == Inserted(es)
            && s.agents.started == (if RunBegins in es then Inserted(es) else [])
            && s.agents.stopped == (if RunEnds in es then Inserted(es) else [])
            && (RunEnds in es ==> s.stop)
  {
    EveryRunKeepsInv(Init(now), es);
    PhaseOfRun(Init(now), es);
    RegisteredInRun(Init(now), es);
    assert [] + Inserted(es) == Inserted(es);
  }

  // ----- the fields and their updates -----

  class Server {
    var agents: Agents
    var stop: bool
    var signals: bool
    var shutdownTime: int
    var expiry: Option<int>
    var waits: seq<int>
    ghost var now: int
    ghost var cooldown: int
    ghost var announced: seq<int>

    ghost function Value(): State
      reads this
    {
      State(agents, Clock(now, shutdownTime, expiry, waits, cooldown, announced), stop, signals)
    }

    ghost predicate Valid()
      reads this
    {
      Inv(Value())
    }

    constructor (start: int)
      ensures Valid() && Value() == Init(start)
    {
      agents := Agents(Idle, [], [], [], []);
      stop, signals, shutdownTime, expiry, waits := false, false, 0, None, [];
      now, cooldown, announced := start, 0, [];
    }

    method AddService(sp: Service) returns (thrown: bool)
      requires Valid()
      modifies this
      ensures Valid() && Value() == Next(old(Value()), Insert(sp)) && thrown == !old(agents).phase.Idle?
    {
      StepKeepsInv(Value(), Insert(sp));
      if !agents.phase.Idle? { return true; }
      agents := agents.(services := agents.services + [sp], registered := agents.registered + [sp]);
      return false;
    }

    /** `run` up to the point where the main thread blocks: a loop over the services. */
    method Begin() returns (thrown: bool)
      requires Valid()
      modifies this
      ensures Valid() && Value() == Next(old(Value()), RunBegins) && thrown == !old(agents).phase.Idle?
    {
      ghost var after := Next(Value(), RunBegins);
      StepKeepsInv(Value(), RunBegins);
      if !agents.phase.Idle? { return true; }
      agents := agents.(phase := Running);
      var called := [];
      for i := 0 to |agents.services|
        invariant called == agents.services[..i]
      {
        called := called + [agents.services[i]];
      }
      assert called == agents.services;
      agents := agents.(started := agents.started + called);
      signals := true;
      assert Value() == after;
      return false;
    }

    /** The rest of `run`, once the main thread has been woken: every service is stopped. */
    method End()
      requires Valid() && Enabled(Value(), RunEnds)
      modifies this
      ensures Valid() && Value() == Next(old(Value()), RunEnds)
    {
      StepKeepsInv(Value(), RunEnds);
      ghost var after := Next(Value(), RunEnds);
      var moved := agents.services;
      agents := agents.(phase := Finished, services := []);
      var called := [];
      for i := 0 to |moved|
        invariant called == moved[..i]
      {
        called := called + [moved[i]];
      }
      assert called == moved;
      agents := agents.(stopped := agents.stopped + called);
      assert Value() == after;
    }

    method RequestStop(missed: bool)
      modifies this
      ensures Value() == Next(old(Value()), Stop(missed)) && (old(Valid()) ==> Valid())
    {
      if Valid() { StepKeepsInv(Value(), Stop(missed)); }
      if stop { return; }
      stop := true;
      if !missed { waits, signals := [], false; }
    }

    /** The body of `on_timer`, also called by `shutdown`. */
    method Proceeding(t2: int, t3: int, missed: bool)
      modifies this
      ensures Value() == OnTimer(old(Value()), t2, t3, missed)
    {
      var remain := Ceil(shutdownTime - t2);
      now := t3;
      if remain <= 0 {
        RequestStop(missed);
        return;
      }
      var amount := remain;
      if amount > STEP { amount := STEP; }
      announced := announced + [remain];
      expiry := Some(t3 + Ticks(amount));
      waits := waits + [t3 + Ticks(amount)];
    }

    method TimerHandler(t2: int, t3: int, missed: bool)
      requires Valid() && Enabled(Value(), Timer(t2, t3, missed))
      modifies this
      ensures Valid() && Value() == Next(old(Value()), Timer(t2, t3, missed))
    {
      StepKeepsInv(Value(), Timer(t2, t3, missed));
      waits := waits[1..];
      Proceeding(t2, t3, missed);
    }

    method RequestShutdown(seconds: int, t1: int, t2: int, t3: int, missed: bool)
      requires Valid() && Enabled(Value(), ShutDown(seconds, t1, t2, t3, missed))
      modifies this
      ensures Valid() && Value() == Next(old(Value()), ShutDown(seconds, t1, t2, t3, missed))
    {
      ghost var before := Value();
      if expiry.Some? {
        now := t3;
      } else {
        shutdownTime, cooldown := t1 + Ticks(seconds), seconds;
        assert Value() == before.(clock := before.clock.(deadline := t1 + Ticks(seconds), cooldown := seconds));
        Proceeding(t2, t3, missed);
      }
      assert Value() == DoShutdown(before, seconds, t1, t2, t3, missed);
      StepKeepsInv(before, ShutDown(seconds, t1, t2, t3, missed));
    }

    method SignalHandler(t1: int, t2: int, t3: int, missed: bool)
      requires Valid() && Enabled(Value(), Signal(t1, t2, t3, missed))
      modifies this
      ensures Valid() && Value() == Next(old(Value()), Signal(t1, t2, t3, missed))
    {
      StepKeepsInv(Value(), Signal(t1, t2, t3, missed));
      if expiry.None? {
        RequestShutdown(GRACE, t1, t2, t3, missed);   // the signal set waits again
      } else {
        signals := false;
        RequestStop(missed);
      }
    }
  }
}
