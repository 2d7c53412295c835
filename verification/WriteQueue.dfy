/**
 The outgoing queue of a WebSocket session.

 A write always takes the last message and remembers its index; on completion
 that entry is swapped with the last one and dropped.  Several writes may be
 outstanding in the model, and a broken assertion or index sets `fault`: that
 neither happens is proved, not assumed.
 */
module WriteQueue {

  type Msg = nat

  /** An asynchronous write in progress: the bound index and the buffer being written. */
  datatype Flight = Flight(idx: nat, msg: Msg)

  datatype State = State(
    queue: seq<Msg>, flights: seq<Flight>,
    accepted: seq<Msg>, written: seq<Msg>, failed: bool, fault: bool)

  datatype Event =
    | Send(m: Msg, open: bool)       // `do_send`, with the state of the socket
    | Finish(k: nat, ok: bool)       // `on_write` for the k-th outstanding write

  const EMPTY := State([], [], [], [], false, false)

  function DoWrite(s: State): State {
    if s.queue == [] then s.(fault := true)
    else
      var last := |s.queue| - 1;
      s.(flights := s.flights + [Flight(last, s.queue[last])])
  }

  function DoSend(s: State, m: Msg, open: bool): State {
    if !open then s
    else
      var s1 := s.(queue := s.queue + [m], accepted := s.accepted + [m]);
      if |s1.queue| == 1 then DoWrite(s1) else s1
  }

  function SwapRemove(q: seq<Msg>, idx: nat): seq<Msg>
    requires idx < |q|
  {
    q[idx := q[|q| - 1]][..|q| - 1]
  }

  function OnWrite(s: State, f: Flight, ok: bool): State {
    if s.queue == [] then s.(fault := true)
    else if !ok then s.(failed := true)
    else if f.idx >= |s.queue| then s.(fault := true)
    else
      var s1 := s.(queue := SwapRemove(s.queue, f.idx), written := s.written + [f.msg]);
      if s1.queue != [] then DoWrite(s1) else s1
  }

  predicate Enabled(s: State, e: Event) {
    e.Finish? ==> e.k < |s.flights|
  }

  function Next(s: State, e: Event): State
    requires Enabled(s, e)
  {
    match e
    case Send(m, open) => DoSend(s, m, open)
    case Finish(k, ok) =>
      OnWrite(s.(flights := s.flights[..k] + s.flights[k + 1..]), s.flights[k], ok)
  }

  ghost predicate CanRun(s: State, es: seq<Event>)
    decreases |es|
  {
    es == [] || (Enabled(s, es[0]) && CanRun(Next(s, es[0]), es[1..]))
  }

  ghost function After(s: State, es: seq<Event>): State
    requires CanRun(s, es)
    decreases |es|
  {
    if es == [] then s else After(Next(s, es[0]), es[1..])
  }

  // ----- safety -----

  ghost predicate Valid(s: State) {
    && !s.fault && |s.flights| <= 1
    && (|s.flights| == 1 ==> s.flights[0].idx < |s.queue| && s.queue[s.flights[0].idx] == s.flights[0].msg)
    && (s.failed ==> s.flights == [] && s.queue != [])
    && (!s.failed ==> (s.flights == [] <==> s.queue == []))
  }

  /** Nothing is lost, duplicated or invented. */
  ghost predicate Conserved(s: State) {
    multiset(s.accepted) == multiset(s.written) + multiset(s.queue)
  }

  lemma SwapRemoveTakesOne(q: seq<Msg>, idx: nat)
    requires idx < |q|
    ensures multiset(SwapRemove(q, idx)) + multiset{q[idx]} == multiset(q)
  {
    var last := |q| - 1;
    var q' := q[idx := q[last]];
    assert q' == q'[..last] + [q[last]];
    assert multiset(q') == multiset(q) - multiset{q[idx]} + multiset{q[last]};
  }

  lemma StepKeepsValid(s: State, e: Event)
    requires Valid(s) && Enabled(s, e)
    ensures Valid(Next(s, e))
  {
    match e
    case Send(m, open) =>
    case Finish(k, ok) =>
      assert s.flights[..k] + s.flights[k + 1..] == [];
  }

  lemma StepConserves(s: State, e: Event)
    requires Valid(s) && Conserved(s) && Enabled(s, e)
    ensures Conserved(Next(s, e))
  {
    match e
    case Send(m, open) =>
    case Finish(k, ok) =>
      SwapRemoveTakesOne(s.queue, s.flights[k].idx);
  }

  /**
   Over every interleaving of sends and completions: at most one write is
   outstanding, its index names the message being written, and the messages
   accepted are those written plus those queued, each as often.
   */
  lemma {:induction false} EveryRunIsValid(s: State, es: seq<Event>)
    requires Valid(s) && Conserved(s) && CanRun(s, es)
    ensures Valid(After(s, es)) && Conserved(After(s, es))
    decreases |es|
  {
    if es != [] {
      StepKeepsValid(s, es[0]);
      StepConserves(s, es[0]);
      EveryRunIsValid(Next(s, es[0]), es[1..]);
    }
  }

  /** The messages offered while the socket is open, in order. */
  function Offered(es: seq<Event>): seq<Msg> {
    if es == [] then [] else (if es[0].Send? && es[0].open then [es[0].m] else []) + Offered(es[1..])
  }

  /** Exactly the messages sent over an open socket are accepted, so these are what is written or queued. */
  lemma {:induction false} OfferedIsAccepted(s: State, es: seq<Event>)
    requires CanRun(s, es)
    ensures After(s, es).accepted == s.accepted + Offered(es)
    decreases |es|
  {
    if es != [] { OfferedIsAccepted(Next(s, es[0]), es[1..]); }
  }

  /** After the first failed write nothing is ever written again; whatever is sent stays queued. */
  lemma {:induction false} FailureIsFinal(s: State, es: seq<Event>)
    requires Valid(s) && s.failed && CanRun(s, es)
    ensures var s' := After(s, es);
            s'.failed && s'.flights == [] && s'.written == s.written && s.queue <= s'.queue
    decreases |es|
  {
    if es != [] {
      StepKeepsValid(s, es[0]);
      FailureIsFinal(Next(s, es[0]), es[1..]);
    }
  }

  // ----- the order of writes -----

  function Completions(n: nat): seq<Event> {
    if n == 0 then [] else [Finish(0, true)] + Completions(n - 1)
  }

  function Reversed(q: seq<Msg>): seq<Msg> {
    if q == [] then [] else [q[|q| - 1]] + Reversed(q[..|q| - 1])
  }

  lemma Prepend(s: State, e: Event, es: seq<Event>)
    requires Enabled(s, e) && CanRun(Next(s, e), es)
    ensures CanRun(s, [e] + es) && After(s, [e] + es) == After(Next(s, e), es)
  {
    assert ([e] + es)[1..] == es;
  }

  /** What one successful completion does: drop the written entry, then write the last one. */
  lemma CompletionStep(s: State)
    requires Valid(s) && !s.failed && s.queue != []
    ensures var s' := Next(s, Finish(0, true));
            && Valid(s') && !s'.failed
            && s'.queue == SwapRemove(s.queue, s.flights[0].idx)
            && s'.written == s.written + [s.flights[0].msg]
            && (s'.queue != [] ==> s'.flights[0].idx == |s'.queue| - 1)
  {
    StepKeepsValid(s, Finish(0, true));
    assert s.flights[..0] + s.flights[1..] == [];
  }

  /** With the last entry in flight and no arrivals, the queue is written from back to front. */
  lemma {:induction false} DrainsBackwards(s: State)
    requires Valid(s) && !s.failed && (s.queue != [] ==> s.flights[0].idx == |s.queue| - 1)
    ensures CanRun(s, Completions(|s.queue|))
    ensures var s' := After(s, Completions(|s.queue|));
            s'.queue == [] && s'.written == s.written + Reversed(s.queue)
    decreases |s.queue|
  {
    if s.queue != [] {
      CompletionStep(s);
      var s1 := Next(s, Finish(0, true));
      assert s1.queue == s.queue[..|s.queue| - 1];
      DrainsBackwards(s1);
      Prepend(s, Finish(0, true), Completions(|s1.queue|));
      assert s1.written + Reversed(s1.queue) == s.written + Reversed(s.queue);
    }
  }

  lemma {:induction false} ReversedFront(q: seq<Msg>)
    requires q != []
    ensures Reversed(q) == Reversed(q[1..]) + [q[0]]
  {
    if |q| > 1 {
      var front := q[..|q| - 1];
      ReversedFront(front);
      assert front[1..] == q[1..][..|q| - 2];
      assert Reversed(q[1..]) == [q[|q| - 1]] + Reversed(front[1..]);
    }
  }

  /**
   For m0 .. m(n-1) with m0 in flight and no arrivals, exactly n completions empty
   the queue, and the order of writing is m0, m(n-2), .., m1, m(n-1).
   */
  lemma WriteOrder(s: State)
    requires Valid(s) && !s.failed && |s.queue| >= 2 && s.flights[0].idx == 0
    ensures CanRun(s, Completions(|s.queue|))
    ensures var n := |s.queue|;
            var s' := After(s, Completions(n));
            && s'.queue == []
            && s'.written == s.written + [s.queue[0]] + Reversed(s.queue[1..n - 1]) + [s.queue[n - 1]]
  {
    CompletionStep(s);
    var n, s1 := |s.queue|, Next(s, Finish(0, true));
    FirstSwappedOut(s.queue);
    DrainsBackwards(s1);
    Prepend(s, Finish(0, true), Completions(n - 1));
    var mid := Reversed(s.queue[1..n - 1]);
    assert s1.written + (mid + [s.queue[n - 1]]) == s1.written + mid + [s.queue[n - 1]];
  }

  /** Dropping the first entry moves the last one to the front, to be written last. */
  lemma FirstSwappedOut(q: seq<Msg>)
    requires |q| >= 2
    ensures |SwapRemove(q, 0)| == |q| - 1
    ensures Reversed(SwapRemove(q, 0)) == Reversed(q[1..|q| - 1]) + [q[|q| - 1]]
  {
    var q' := SwapRemove(q, 0);
    ReversedFront(q');
    assert q'[1..] == q[1..|q| - 1];
  }

  /** Fewer completions leave something queued. */
  lemma {:induction false} EachCompletionWritesOne(s: State, n: nat)
    requires Valid(s) && !s.failed && n <= |s.queue|
    ensures CanRun(s, Completions(n)) && |After(s, Completions(n)).queue| == |s.queue| - n
    decreases n
  {
    if n > 0 {
      CompletionStep(s);
      EachCompletionWritesOne(Next(s, Finish(0, true)), n - 1);
      Prepend(s, Finish(0, true), Completions(n - 1));
    }
  }

  // ----- which entries are written -----

  /** Some state of the run has exactly the write `f` in progress. */
  ghost predicate Launched(s: State, es: seq<Event>, f: Flight)
    requires CanRun(s, es)
    decreases |es|
  {
    s.flights == [f] || (es != [] && Launched(Next(s, es[0]), es[1..], f))
  }

  /** What an event adds to the length of the queue. */
  function Growth(e: Event): int {
    match e
    case Send(_, open) => if open then 1 else 0
    case Finish(_, ok) => if ok then -1 else 0
  }

  /** Counting arrivals and completions from `length`, the count comes to `n`. */
  predicate FallsTo(length: int, es: seq<Event>, n: int)
    decreases |es|
  {
    length == n || (es != [] && FallsTo(length + Growth(es[0]), es[1..], n))
  }

  /** Entry `i` waits below the entry being written, or for ever behind a failed write. */
  ghost predicate Waits(s: State, i: nat) {
    Valid(s) && i + 1 < |s.queue| && (s.flights != [] ==> i < s.flights[0].idx)
  }

  lemma WaitingStep(s: State, e: Event, i: nat)
    requires Waits(s, i) && Enabled(s, e)
    ensures var s' := Next(s, e);
            && |s'.queue| == |s.queue| + Growth(e) && i < |s'.queue| && s'.queue[i] == s.queue[i]
            && (if |s'.queue| == i + 1 then s'.flights == [Flight(i, s.queue[i])] else Waits(s', i))
  {
    StepKeepsValid(s, e);
    if e.Finish? {
      assert s.flights[..e.k] + s.flights[e.k + 1..] == [];
    }
  }

  /**
   Exactly when an entry below the one being written is put on the wire: when
   completions outnumber arrivals so far that the queue ends with that entry.  If
   they never do, the entry stays where it is.
   */
  lemma {:induction false} WrittenIffQueueShrinks(s: State, es: seq<Event>, i: nat)
    requires Waits(s, i) && CanRun(s, es)
    ensures Launched(s, es, Flight(i, s.queue[i])) <==> FallsTo(|s.queue|, es, i + 1)
    ensures !FallsTo(|s.queue|, es, i + 1) ==>
              Waits(After(s, es), i) && After(s, es).queue[i] == s.queue[i]
    decreases |es|
  {
    assert s.flights != [Flight(i, s.queue[i])];
    if es != [] {
      WaitingStep(s, es[0], i);
      var s' := Next(s, es[0]);
      if |s'.queue| > i + 1 { WrittenIffQueueShrinks(s', es[1..], i); }
    }
  }

  /**
   Every entry is in that position after the first successful completion: the last
   one has taken the place of the entry written, the others have kept theirs, and
   whichever is not written next waits below it.
   */
  lemma CompletionSettles(s: State, k: nat)
    requires Valid(s) && !s.failed && k < |s.queue| && k != s.flights[0].idx
    ensures var s', p := Next(s, Finish(0, true)), if k == |s.queue| - 1 then s.flights[0].idx else k;
            && p < |s'.queue| && s'.queue[p] == s.queue[k]
            && (s'.flights == [Flight(p, s.queue[k])] || Waits(s', p))
  {
    CompletionStep(s);
  }

  // ----- no fairness -----

  function Rounds(zs: seq<Msg>): seq<Event> {
    if zs == [] then [] else [Send(zs[0], true)] + ([Finish(0, true)] + Rounds(zs[1..]))
  }

  ghost predicate Starving(s: State) {
    Valid(s) && !s.failed && |s.queue| == 2 && s.flights[0].idx == 1
  }

  lemma StarvingRound(s: State, z: Msg)
    requires Starving(s)
    ensures var s1 := Next(s, Send(z, true));
            && Enabled(s1, Finish(0, true))
            && var s2 := Next(s1, Finish(0, true));
            && Starving(s2) && s2.queue == [s.queue[0], z] && s2.written == s.written + [s.queue[1]]
  {
    var s1 := Next(s, Send(z, true));
    StepKeepsValid(s, Send(z, true));
    CompletionStep(s1);
    assert SwapRemove(s1.queue, 1) == [s.queue[0], z];
  }

  /** One arrival per completion keeps the queue's first message from ever being put on the wire. */
  lemma {:induction false} FirstMessageStarves(s: State, zs: seq<Msg>)
    requires Starving(s)
    ensures CanRun(s, Rounds(zs))
    ensures var s' := After(s, Rounds(zs));
            && Starving(s') && s'.queue[0] == s.queue[0]
            && s'.written + [s'.queue[1]] == s.written + [s.queue[1]] + zs
    decreases |zs|
  {
    if zs == [] {
      assert s.written + [s.queue[1]] + zs == s.written + [s.queue[1]];
    } else {
      var s1 := Next(s, Send(zs[0], true));
      var s2 := Next(s1, Finish(0, true));
      StarvingRound(s, zs[0]);
      FirstMessageStarves(s2, zs[1..]);
      Prepend(s1, Finish(0, true), Rounds(zs[1..]));
      Prepend(s, Send(zs[0], true), [Finish(0, true)] + Rounds(zs[1..]));
      assert s2.written + [zs[0]] + zs[1..] == s.written + [s.queue[1]] + ([zs[0]] + zs[1..]);
      assert [zs[0]] + zs[1..] == zs;
    }
  }

  /** The run of a new session that sends three messages, completes one write, and goes on in rounds. */
  function StarvingRun(a: Msg, b: Msg, c: Msg, zs: seq<Msg>): seq<Event> {
    [Send(a, true)] + ([Send(b, true)] + ([Send(c, true)] + ([Finish(0, true)] + Rounds(zs))))
  }

  lemma StarvingReached(a: Msg, b: Msg, c: Msg)
    ensures var s := Next(Next(Next(EMPTY, Send(a, true)), Send(b, true)), Send(c, true));
            && Enabled(s, Finish(0, true))
            && var s' := Next(s, Finish(0, true));
            && Starving(s') && s'.queue == [c, b] && s'.written == [a]
  {
    var s := Next(Next(Next(EMPTY, Send(a, true)), Send(b, true)), Send(c, true));
    assert s.queue == [a, b, c] && s.flights == [Flight(0, a)];
    CompletionStep(s);
    assert SwapRemove([a, b, c], 0) == [c, b];
  }

  /** So a new session can starve its third message for ever, writing all that come before and after it. */
  lemma ThirdMessageStarves(a: Msg, b: Msg, c: Msg, zs: seq<Msg>)
    ensures CanRun(EMPTY, StarvingRun(a, b, c, zs))
    ensures var s := After(EMPTY, StarvingRun(a, b, c, zs));
            Starving(s) && s.queue[0] == c && s.written + [s.queue[1]] == [a, b] + zs
  {
    var s1 := Next(EMPTY, Send(a, true));
    var s2 := Next(s1, Send(b, true));
    var s3 := Next(s2, Send(c, true));
    StarvingReached(a, b, c);
    var s4 := Next(s3, Finish(0, true));
    FirstMessageStarves(s4, zs);
    Prepend(s3, Finish(0, true), Rounds(zs));
    Prepend(s2, Send(c, true), [Finish(0, true)] + Rounds(zs));
    Prepend(s1, Send(b, true), [Send(c, true)] + ([Finish(0, true)] + Rounds(zs)));
    Prepend(EMPTY, Send(a, true), [Send(b, true)] + ([Send(c, true)] + ([Finish(0, true)] + Rounds(zs))));
    assert s4.written + [s4.queue[1]] == [a, b];
  }

  // ----- the fields and their updates -----

  class Session {
    var mq: seq<Msg>
    ghost var flights: seq<Flight>     // writes handed to the network layer
    ghost var accepted: seq<Msg>
    ghost var written: seq<Msg>
    ghost var failed: bool

    ghost function Value(): State
      reads this
    {
      State(mq, flights, accepted, written, failed, false)
    }

    constructor ()
      ensures Value() == EMPTY && Valid(Value())
    {
      mq, flights, accepted, written, failed := [], [], [], [], false;
    }

    method Send(m: Msg, open: bool)
      requires Valid(Value())
      modifies this
      ensures Valid(Value()) && Value() == Next(old(Value()), Event.Send(m, open))
    {
      StepKeepsValid(Value(), Event.Send(m, open));
      if !open { return; }
      mq, accepted := mq + [m], accepted + [m];
      if |mq| == 1 { Write(); }
    }

    method Write()
      requires mq != []
      modifies this`flights
      ensures Value() == DoWrite(old(Value()))
    {
      flights := flights + [Flight(|mq| - 1, mq[|mq| - 1])];
    }

    method Complete(idx: nat, ok: bool)
      requires Valid(Value()) && flights != [] && idx == flights[0].idx
      modifies this
      ensures Valid(Value()) && Value() == Next(old(Value()), Finish(0, ok))
    {
      StepKeepsValid(Value(), Finish(0, ok));
      ghost var f := flights[0];
      flights := [];
      assert old(flights)[..0] + old(flights)[1..] == [];
      if !ok {
        failed := true;
        return;
      }
      var last := |mq| - 1;
      if idx != last { mq := mq[idx := mq[last]][last := mq[idx]]; }
      mq := mq[..last];
      assert mq == SwapRemove(old(mq), idx);
      written := written + [f.msg];
      if mq != [] { Write(); }
    }
  }
}
