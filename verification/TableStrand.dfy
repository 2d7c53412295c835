/**
 The blackjack table as a channel: the membership protocol together with the
 table's strand, a queue of posted handlers executed in order.

 Seats record bare user addresses.  `session` counts how often an address has
 been inserted into the table's `users_`; the tags on seats and queued handlers
 record the session they belong to, which the program itself does not store.  A
 call has the session its sender was in, if it was a member.
 */
module TableStrand {
  import opened Wrappers
  import M = Membership
  import G = Game

  type Addr = M.Addr

  const TABLE: M.Cid := 3

  datatype Call = Play | Watch | Bet | Start | HitOrStand

  /** A posted handler.  All but `DoErase` own a strong pointer to the user. */
  datatype Job =
    | DoInsert(u: Addr)
    | DoErase(u: Addr, session: nat)
    | DoPlay(u: Addr, session: nat)
    | DoCall(u: Addr, call: Call, sent: Option<nat>)

  datatype State = State(
    lounge: M.State, queue: seq<Job>, table: G.Table, tags: seq<nat>, session: map<Addr, nat>)

  datatype Event =
    | Lounge(e: M.Event)
    | Dispatch(u: Addr, call: Call)
    | RunHead(card: G.Card)

  function SessionOf(s: State, u: Addr): nat {
    if u in s.session then s.session[u] else 0
  }

  predicate Joined(m: M.State, u: Addr) {
    M.LinkOf(m, u, TABLE).In?
  }

  /** A member, or a user whose `erase` has not yet posted `do_erase`. */
  predicate Engaged(m: M.State, u: Addr) {
    !M.LinkOf(m, u, TABLE).Out?
  }

  predicate Referenced(q: seq<Job>, u: Addr) {
    exists j :: 0 <= j < |q| && !q[j].DoErase? && q[j].u == u
  }

  predicate Enabled(s: State, e: Event) {
    match e
    case Lounge(e) => M.Enabled(s.lounge, e) && (e.Drop? ==> !Referenced(s.queue, e.u))
    case Dispatch(u, _) => M.Ready(s.lounge, u, M.Alive)
    case RunHead(_) => s.queue != [] && (s.queue[0].DoCall? && s.queue[0].call.Start? ==> G.HasRoom(s.table))
  }

  /** What the table's virtual `on_insert` and `on_erase` post. */
  function Posted(s: State, e: M.Event): seq<Job>
    requires M.Enabled(s.lounge, e)
  {
    if !e.Hook? then []
    else if s.lounge.users[e.u].pc == M.EraseHook(TABLE) then [DoErase(e.u, SessionOf(s, e.u))]
    else if s.lounge.users[e.u].pc == M.InsertHook(TABLE) then [DoInsert(e.u)]
    else []
  }

  function LoungeStep(s: State, e: M.Event): State
    requires M.Enabled(s.lounge, e)
  {
    var m := M.Next(s.lounge, e);
    var arrived := !Joined(s.lounge, e.u) && Joined(m, e.u);
    s.(lounge := m, queue := s.queue + Posted(s, e),
       session := if arrived then s.session[e.u := SessionOf(s, e.u) + 1] else s.session)
  }

  function Run(s: State, job: Job, card: G.Card): State
    requires job.DoCall? && job.call.Start? ==> G.HasRoom(s.table)
  {
    match job
    case DoInsert(_) => s
    case DoErase(u, _) => s.(table := G.Surrender(s.table, u))
    case DoPlay(u, session) =>
      var (t, r) := G.Join(s.table, u);
      s.(table := t, tags := if r.Done? && r.value < |s.tags| then s.tags[r.value := session] else s.tags)
    case DoCall(u, call, _) =>
      match call
      case Watch => s.(table := G.Leave(s.table, u).0)
      case Bet => s.(table := G.Bet(s.table, u).0)
      case Start => s.(table := G.Start(s.table, card))
      case _ => s
  }

  function Next(s: State, e: Event): State
    requires Enabled(s, e)
  {
    match e
    case Lounge(e) => LoungeStep(s, e)
    case Dispatch(u, call) =>
      var job := if call.Play? then DoPlay(u, SessionOf(s, u))
                 else DoCall(u, call, if Joined(s.lounge, u) then Some(SessionOf(s, u)) else None);
      s.(queue := s.queue + [job])
    case RunHead(card) => Run(s, s.queue[0], card).(queue := s.queue[1..])
  }

  // ----- the invariant -----

  ghost predicate Queued(q: seq<Job>, u: Addr, session: nat, from: nat) {
    exists j :: from <= j < |q| && q[j] == DoErase(u, session)
  }

  /** A claim to a seat, of `u` in `session`, that something will still end. */
  ghost predicate Covered(s: State, u: Addr, session: nat, from: nat) {
    (Engaged(s.lounge, u) && SessionOf(s, u) == session) || Queued(s.queue, u, session, from)
  }

  predicate Occupied(s: State, i: int) {
    1 <= i < G.SEATS && i < |s.table.seats| && !s.table.seats[i].state.Open? && s.table.seats[i].user.Some?
  }

  function Holder(s: State, i: int): Addr
    requires Occupied(s, i)
  {
    s.table.seats[i].user.value
  }

  ghost predicate Shape(s: State) {
    M.Inv(s.lounge) && G.Valid(s.table) && |s.tags| == G.SEATS
  }

  ghost predicate SeatsCovered(s: State)
    requires |s.tags| == G.SEATS
  {
    forall i | Occupied(s, i) :: Covered(s, Holder(s, i), s.tags[i], 0)
  }

  ghost predicate PlaysCovered(s: State) {
    forall j | 0 <= j < |s.queue| && s.queue[j].DoPlay? ::
      Covered(s, s.queue[j].u, s.queue[j].session, j + 1)
  }

  /** A queued `do_erase` ends a session that is over, and they are queued in order. */
  ghost predicate ErasesOrdered(s: State) {
    && (forall j | 0 <= j < |s.queue| && s.queue[j].DoErase? ::
          && s.queue[j].session <= SessionOf(s, s.queue[j].u)
          && (s.queue[j].session == SessionOf(s, s.queue[j].u) ==> !Engaged(s.lounge, s.queue[j].u)))
    && (forall i, j | 0 <= i < j < |s.queue| && s.queue[i].DoErase? && s.queue[j].DoErase?
                      && s.queue[i].u == s.queue[j].u ::
          s.queue[i].session < s.queue[j].session)
  }

  /** No queued `do_erase` is older than the claim it would end. */
  ghost predicate ErasesFresh(s: State)
    requires |s.tags| == G.SEATS
  {
    && (forall i, j | Occupied(s, i) && 0 <= j < |s.queue| && s.queue[j].DoErase?
                      && s.queue[j].u == Holder(s, i) ::
          s.tags[i] <= s.queue[j].session)
    && (forall i, j | 0 <= i < j < |s.queue| && s.queue[i].DoPlay? && s.queue[j].DoErase?
                      && s.queue[j].u == s.queue[i].u ::
          s.queue[i].session <= s.queue[j].session)
  }

  ghost predicate Inv(s: State) {
    Shape(s) && SeatsCovered(s) && PlaysCovered(s) && ErasesOrdered(s) && ErasesFresh(s)
  }

  // ----- steps of the lounge -----

  /**
   A user stays engaged in the same session until `do_erase` for it is posted,
   and only a new session makes a user engaged.
   */
  lemma EngagedSteps(s: State, e: M.Event, u: Addr)
    requires Shape(s) && M.Enabled(s.lounge, e)
    ensures var s' := LoungeStep(s, e);
            && (Engaged(s.lounge, u) ==>
                  && SessionOf(s', u) == SessionOf(s, u)
                  && (Engaged(s'.lounge, u) <==> Posted(s, e) != [DoErase(u, SessionOf(s, u))]))
            && (!Engaged(s.lounge, u) ==>
                  && SessionOf(s', u) == SessionOf(s, u) + (if Engaged(s'.lounge, u) then 1 else 0)
                  && (forall k :: DoErase(u, k) !in Posted(s, e)))
  {
    if u == e.u {
      M.LinkSteps(s.lounge, e, TABLE);
    } else {
      M.OnlyActorMoves(s.lounge, e);
      assert M.LinkOf(M.Next(s.lounge, e), u, TABLE) == M.LinkOf(s.lounge, u, TABLE);
      assert Posted(s, e) != [DoErase(u, SessionOf(s, u))];
    }
  }

  lemma CoverageSurvives(s: State, e: M.Event, u: Addr, session: nat, from: nat)
    requires Shape(s) && M.Enabled(s.lounge, e) && Covered(s, u, session, from) && from <= |s.queue|
    ensures Covered(LoungeStep(s, e), u, session, from)
  {
    var s' := LoungeStep(s, e);
    EngagedSteps(s, e, u);
    if Queued(s.queue, u, session, from) {
      var j :| from <= j < |s.queue| && s.queue[j] == DoErase(u, session);
      assert s'.queue[j] == DoErase(u, session);
    } else if !Engaged(s'.lounge, u) {
      assert s'.queue[|s.queue|] == DoErase(u, session);
    }
  }

  /** A covered claim is never from a later session than the current one. */
  lemma CoveredIsPast(s: State, u: Addr, session: nat, from: nat)
    requires ErasesOrdered(s) && Covered(s, u, session, from)
    ensures session <= SessionOf(s, u)
  {
  }

  lemma LoungeKeepsOrder(s: State, e: M.Event)
    requires Shape(s) && ErasesOrdered(s) && M.Enabled(s.lounge, e)
    ensures ErasesOrdered(LoungeStep(s, e))
  {
    var s' := LoungeStep(s, e);
    forall j | 0 <= j < |s'.queue| && s'.queue[j].DoErase?
      ensures s'.queue[j].session <= SessionOf(s', s'.queue[j].u)
      ensures s'.queue[j].session == SessionOf(s', s'.queue[j].u) ==> !Engaged(s'.lounge, s'.queue[j].u)
    {
      EngagedSteps(s, e, s'.queue[j].u);
      if j < |s.queue| { assert s'.queue[j] == s.queue[j]; }
    }
    forall i, j | 0 <= i < j < |s'.queue| && s'.queue[i].DoErase? && s'.queue[j].DoErase?
                  && s'.queue[i].u == s'.queue[j].u
      ensures s'.queue[i].session < s'.queue[j].session
    {
      EngagedSteps(s, e, s'.queue[i].u);
      assert s'.queue[i] == s.queue[i];
      if j < |s.queue| { assert s'.queue[j] == s.queue[j]; }
    }
  }

  lemma LoungeKeepsCoverage(s: State, e: M.Event)
    requires Inv(s) && M.Enabled(s.lounge, e)
    ensures SeatsCovered(LoungeStep(s, e)) && PlaysCovered(LoungeStep(s, e))
  {
    var s' := LoungeStep(s, e);
    forall i | Occupied(s', i) ensures Covered(s', Holder(s', i), s'.tags[i], 0) {
      assert Occupied(s, i);
      CoverageSurvives(s, e, Holder(s, i), s.tags[i], 0);
    }
    forall j | 0 <= j < |s'.queue| && s'.queue[j].DoPlay?
      ensures Covered(s', s'.queue[j].u, s'.queue[j].session, j + 1)
    {
      assert s'.queue[j] == s.queue[j];
      CoverageSurvives(s, e, s.queue[j].u, s.queue[j].session, j + 1);
    }
  }

  lemma LoungeKeepsFresh(s: State, e: M.Event)
    requires Inv(s) && M.Enabled(s.lounge, e)
    ensures ErasesFresh(LoungeStep(s, e))
  {
    var s' := LoungeStep(s, e);
    assert s.queue <= s'.queue;
    forall i, j | Occupied(s', i) && 0 <= j < |s'.queue| && s'.queue[j].DoErase?
                  && s'.queue[j].u == Holder(s', i)
      ensures s'.tags[i] <= s'.queue[j].session
    {
      assert Occupied(s, i);
      CoveredIsPast(s, Holder(s, i), s.tags[i], 0);
      if j < |s.queue| { assert s'.queue[j] == s.queue[j]; }
    }
    forall i, j | 0 <= i < j < |s'.queue| && s'.queue[i].DoPlay? && s'.queue[j].DoErase?
                  && s'.queue[j].u == s'.queue[i].u
      ensures s'.queue[i].session <= s'.queue[j].session
    {
      assert s'.queue[i] == s.queue[i];
      CoveredIsPast(s, s.queue[i].u, s.queue[i].session, i + 1);
      if j < |s.queue| { assert s'.queue[j] == s.queue[j]; }
    }
  }

  lemma LoungeKeepsInv(s: State, e: M.Event)
    requires Inv(s) && M.Enabled(s.lounge, e)
    ensures Inv(LoungeStep(s, e))
  {
    M.StepKeepsInv(s.lounge, e);
    LoungeKeepsOrder(s, e);
    LoungeKeepsCoverage(s, e);
    LoungeKeepsFresh(s, e);
  }

  // ----- dispatch -----

  /** Posting more handlers takes no coverage away. */
  lemma CoverageLasts(s: State, s': State, u: Addr, session: nat, from: nat)
    requires Covered(s, u, session, from)
    requires s.queue <= s'.queue && s'.lounge == s.lounge && s'.session == s.session
    ensures Covered(s', u, session, from)
  {
    if Queued(s.queue, u, session, from) {
      var j :| from <= j < |s.queue| && s.queue[j] == DoErase(u, session);
      assert s'.queue[j] == DoErase(u, session);
    }
  }

  lemma DispatchKeepsCoverage(s: State, u: Addr, call: Call)
    requires Inv(s) && Enabled(s, Dispatch(u, call)) && (call.Play? ==> Joined(s.lounge, u))
    ensures var s' := Next(s, Dispatch(u, call)); SeatsCovered(s') && PlaysCovered(s')
  {
    var s' := Next(s, Dispatch(u, call));
    forall i | Occupied(s', i) ensures Covered(s', Holder(s', i), s'.tags[i], 0) {
      assert Occupied(s, i);
      CoverageLasts(s, s', Holder(s, i), s.tags[i], 0);
    }
    forall j | 0 <= j < |s'.queue| && s'.queue[j].DoPlay?
      ensures Covered(s', s'.queue[j].u, s'.queue[j].session, j + 1)
    {
      if j < |s.queue| { CoverageLasts(s, s', s.queue[j].u, s.queue[j].session, j + 1); }
    }
  }

  /** A posted request adds no `do_erase`. */
  lemma DispatchKeepsErases(s: State, u: Addr, call: Call)
    requires Inv(s) && Enabled(s, Dispatch(u, call))
    ensures var s' := Next(s, Dispatch(u, call)); ErasesOrdered(s') && ErasesFresh(s')
  {
    var s' := Next(s, Dispatch(u, call));
    assert forall j | 0 <= j < |s'.queue| && s'.queue[j].DoErase? :: j < |s.queue|;
    assert forall j | 0 <= j < |s.queue| :: s'.queue[j] == s.queue[j];
    assert forall i :: Occupied(s', i) ==> Occupied(s, i) && Holder(s', i) == Holder(s, i);
  }

  /** A dispatched request keeps the invariant unless it is a `play` of a user who is not a member. */
  lemma DispatchKeepsInv(s: State, u: Addr, call: Call)
    requires Inv(s) && Enabled(s, Dispatch(u, call)) && (call.Play? ==> Joined(s.lounge, u))
    ensures Inv(Next(s, Dispatch(u, call)))
  {
    DispatchKeepsCoverage(s, u, call);
    DispatchKeepsErases(s, u, call);
  }

  /** No weaker discipline would do for the invariant: `play` keeps it only if the user is a member. */
  lemma PlayNeedsMembership(s: State, u: Addr)
    requires Inv(s) && Enabled(s, Dispatch(u, Play))
    ensures Inv(Next(s, Dispatch(u, Play))) <==> Joined(s.lounge, u)
  {
    var s' := Next(s, Dispatch(u, Play));
    if Joined(s.lounge, u) {
      DispatchKeepsInv(s, u, Play);
    } else {
      var n := |s.queue|;
      assert s'.queue[n] == DoPlay(u, SessionOf(s, u));
      assert !Covered(s', u, SessionOf(s, u), n + 1);
    }
  }

  // ----- the strand -----

  /** Which seats a handler can change: `do_play` seats its user, `do_erase` unseats its own. */
  lemma SeatChanges(s: State, job: Job, card: G.Card, i: int)
    requires Shape(s) && (job.DoCall? && job.call.Start? ==> G.HasRoom(s.table))
    requires Occupied(Run(s, job, card), i)
    ensures var s' := Run(s, job, card);
            && |s'.tags| == G.SEATS
            && (|| (Occupied(s, i) && Holder(s', i) == Holder(s, i) && s'.tags[i] == s.tags[i]
                    && (job.DoErase? ==> Holder(s, i) != job.u))
                || (job.DoPlay? && Holder(s', i) == job.u && s'.tags[i] == job.session))
  {
    match job
    case DoInsert(_) =>
    case DoErase(u, _) => G.FindSpec(s.table, u);
    case DoPlay(u, _) => G.JoinSpec(s.table, u);
    case DoCall(u, _, _) => G.FindSpec(s.table, u);
  }

  lemma RunKeepsShape(s: State, card: G.Card)
    requires Shape(s) && Enabled(s, RunHead(card))
    ensures Shape(Next(s, RunHead(card)))
  {
    var job, t := s.queue[0], s.table;
    match job
    case DoInsert(_) =>
    case DoErase(u, _) => G.StepKeepsValid(t, G.EvSurrender(u));
    case DoPlay(u, _) => G.StepKeepsValid(t, G.EvJoin(u));
    case DoCall(u, call, _) =>
      G.StepKeepsValid(t, if call.Watch? then G.EvLeave(u) else G.EvBet(u));
      if call.Start? { G.StepKeepsValid(t, G.EvStart(card)); }
  }

  /** Coverage by the rest of the queue is coverage after the head has run. */
  lemma CoverageShifts(s: State, s': State, u: Addr, session: nat, from: nat)
    requires s.queue != [] && s'.queue == s.queue[1..]
    requires s'.lounge == s.lounge && s'.session == s.session
    requires Covered(s, u, session, from)
    requires from >= 1 || s.queue[0] != DoErase(u, session)
    ensures Covered(s', u, session, if from == 0 then 0 else from - 1)
  {
    if Queued(s.queue, u, session, from) {
      var j :| from <= j < |s.queue| && s.queue[j] == DoErase(u, session);
      assert s'.queue[j - 1] == DoErase(u, session);
    }
  }

  lemma RunKeepsCoverage(s: State, card: G.Card)
    requires Inv(s) && Enabled(s, RunHead(card))
    ensures var s' := Next(s, RunHead(card)); |s'.tags| == G.SEATS && SeatsCovered(s') && PlaysCovered(s')
  {
    var s' := Next(s, RunHead(card));
    RunKeepsShape(s, card);
    forall i | Occupied(s', i) ensures Covered(s', Holder(s', i), s'.tags[i], 0) {
      SeatChanges(s, s.queue[0], card, i);
      if Occupied(s, i) && Holder(s', i) == Holder(s, i) && s'.tags[i] == s.tags[i]
         && (s.queue[0].DoErase? ==> Holder(s, i) != s.queue[0].u) {
        CoverageShifts(s, s', Holder(s, i), s.tags[i], 0);
      } else {
        CoverageShifts(s, s', s.queue[0].u, s.queue[0].session, 1);
      }
    }
    forall j | 0 <= j < |s'.queue| && s'.queue[j].DoPlay?
      ensures Covered(s', s'.queue[j].u, s'.queue[j].session, j + 1)
    {
      assert s'.queue[j] == s.queue[j + 1];
      CoverageShifts(s, s', s.queue[j + 1].u, s.queue[j + 1].session, j + 2);
    }
  }

  lemma RunKeepsFresh(s: State, card: G.Card)
    requires Inv(s) && Enabled(s, RunHead(card))
    ensures var s' := Next(s, RunHead(card)); |s'.tags| == G.SEATS && ErasesFresh(s')
  {
    var s' := Next(s, RunHead(card));
    RunKeepsShape(s, card);
    assert forall j | 0 <= j < |s'.queue| :: s'.queue[j] == s.queue[j + 1];
    forall i, j | Occupied(s', i) && 0 <= j < |s'.queue| && s'.queue[j].DoErase?
                  && s'.queue[j].u == Holder(s', i)
      ensures s'.tags[i] <= s'.queue[j].session
    {
      SeatChanges(s, s.queue[0], card, i);
    }
  }

  lemma RunKeepsOrder(s: State, card: G.Card)
    requires Inv(s) && Enabled(s, RunHead(card))
    ensures ErasesOrdered(Next(s, RunHead(card)))
  {
    var s' := Next(s, RunHead(card));
    assert forall j | 0 <= j < |s'.queue| :: s'.queue[j] == s.queue[j + 1];
  }

  lemma RunKeepsInv(s: State, card: G.Card)
    requires Inv(s) && Enabled(s, RunHead(card))
    ensures Inv(Next(s, RunHead(card)))
  {
    RunKeepsShape(s, card);
    RunKeepsCoverage(s, card);
    RunKeepsOrder(s, card);
    RunKeepsFresh(s, card);
  }

  // ----- runs -----

  /** The discipline the clients must supply: only members of the table send `play`. */
  predicate Disciplined(s: State, e: Event) {
    e.Dispatch? && e.call.Play? ==> Joined(s.lounge, e.u)
  }

  ghost predicate CanRun(s: State, es: seq<Event>)
    decreases |es|
  {
    es == [] || (Enabled(s, es[0]) && CanRun(Next(s, es[0]), es[1..]))
  }

  ghost predicate AllDisciplined(s: State, es: seq<Event>)
    requires CanRun(s, es)
    decreases |es|
  {
    es != [] ==> Disciplined(s, es[0]) && AllDisciplined(Next(s, es[0]), es[1..])
  }

  ghost function After(s: State, es: seq<Event>): State
    requires CanRun(s, es)
    decreases |es|
  {
    if es == [] then s else After(Next(s, es[0]), es[1..])
  }

  ghost predicate Initial(s: State) {
    && (exists cids :: s.lounge == M.Init(cids))
    && s.queue == [] && G.Fresh(s.table) && s.tags == [0, 0, 0, 0, 0, 0] && s.session == map[]
  }

  lemma StepKeepsInv(s: State, e: Event)
    requires Inv(s) && Enabled(s, e) && Disciplined(s, e)
    ensures Inv(Next(s, e))
  {
    match e
    case Lounge(e) => LoungeKeepsInv(s, e);
    case Dispatch(u, call) => DispatchKeepsInv(s, u, call);
    case RunHead(card) => RunKeepsInv(s, card);
  }

  lemma {:induction false} EveryRunKeepsInv(s: State, es: seq<Event>)
    requires Inv(s) && CanRun(s, es) && AllDisciplined(s, es)
    ensures Inv(After(s, es))
    decreases |es|
  {
    if es != [] {
      StepKeepsInv(s, es[0]);
      EveryRunKeepsInv(Next(s, es[0]), es[1..]);
    }
  }

  /** Every occupied seat is that of a member, of a user being erased, or of one whose `do_erase` is queued. */
  ghost predicate SeatsAccounted(s: State) {
    forall i | Occupied(s, i) ::
      Engaged(s.lounge, Holder(s, i)) || exists k :: DoErase(Holder(s, i), k) in s.queue
  }

  lemma CoveredSeatsAccounted(s: State)
    requires Inv(s)
    ensures SeatsAccounted(s)
  {
    forall i | Occupied(s, i)
      ensures Engaged(s.lounge, Holder(s, i)) || exists k :: DoErase(Holder(s, i), k) in s.queue
    {
      assert Covered(s, Holder(s, i), s.tags[i], 0);
      assert Queued(s.queue, Holder(s, i), s.tags[i], 0) ==> DoErase(Holder(s, i), s.tags[i]) in s.queue;
    }
  }

  /** So it is in every state of a disciplined run. */
  lemma SeatsBelongToMembers(s0: State, es: seq<Event>)
    requires Initial(s0) && CanRun(s0, es) && AllDisciplined(s0, es)
    ensures SeatsAccounted(After(s0, es))
  {
    EveryRunKeepsInv(s0, es);
    CoveredSeatsAccounted(After(s0, es));
  }

  /**
   Once the strand has run dry, every seat is held in the current session of a
   user still engaged: nothing is left behind by a session that ended, even when
   a later user was given the same address.
   */
  lemma DrainedSeatsAreCurrent(s0: State, es: seq<Event>, i: int)
    requires Initial(s0) && CanRun(s0, es) && AllDisciplined(s0, es) && After(s0, es).queue == []
    requires Occupied(After(s0, es), i)
    ensures var s := After(s0, es);
            var u := Holder(s, i);
            && u in s.lounge.users && !s.lounge.users[u].phase.Freed? && Engaged(s.lounge, u)
            && |s.tags| == G.SEATS && s.tags[i] == SessionOf(s, u)
  {
    EveryRunKeepsInv(s0, es);
    var s := After(s0, es);
    var r := s.lounge.users[Holder(s, i)];
    assert M.UserOk(s.lounge, r);
    if Joined(s.lounge, Holder(s, i)) {
      assert M.Agree(r, true, TABLE);
    }
  }

  /**
   `do_erase` carries a bare address, yet it only ever vacates the seat taken in
   the session whose end posted it, never one taken later from that address.
   */
  lemma EraseHitsItsOwnSession(s: State, i: int, card: G.Card)
    requires Inv(s) && s.queue != [] && s.queue[0].DoErase?
    requires Occupied(s, i) && Holder(s, i) == s.queue[0].u
    ensures s.tags[i] == s.queue[0].session
    ensures !Occupied(Next(s, RunHead(card)), i)
  {
    var u := s.queue[0].u;
    assert Covered(s, u, s.tags[i], 0);
    if !(Engaged(s.lounge, u) && SessionOf(s, u) == s.tags[i]) {
      var j :| 0 <= j < |s.queue| && s.queue[j] == DoErase(u, s.tags[i]);
    }
    G.FindSpec(s.table, u);
  }

  /** The claim to a seat of `u` in `session` ends before the handler at `to` runs. */
  ghost predicate EndsBefore(q: seq<Job>, u: Addr, session: nat, from: nat, to: nat) {
    exists m :: from <= m < to && m < |q| && q[m] == DoErase(u, session)
  }

  /** A claim that a queued call will meet is one of the session it was sent from. */
  ghost predicate Meets(q: seq<Job>, j: nat, u: Addr, session: nat, from: nat)
    requires j < |q| && q[j].DoCall?
  {
    q[j].u == u ==> q[j].sent == Some(session) || EndsBefore(q, u, session, from, j)
  }

  /** So it is for every seat, and every seat that will be taken before the call runs. */
  ghost predicate MeetsOwn(s: State, j: nat)
    requires |s.tags| == G.SEATS && j < |s.queue| && s.queue[j].DoCall?
  {
    && (forall i | Occupied(s, i) :: Meets(s.queue, j, Holder(s, i), s.tags[i], 0))
    && (forall p | 0 <= p < j && s.queue[p].DoPlay? :: Meets(s.queue, j, s.queue[p].u, s.queue[p].session, p + 1))
  }

  ghost predicate CallsMeetOwn(s: State)
    requires |s.tags| == G.SEATS
  {
    forall j | 0 <= j < |s.queue| && s.queue[j].DoCall? :: MeetsOwn(s, j)
  }

  lemma MeetsLasts(q: seq<Job>, q': seq<Job>, j: nat, u: Addr, session: nat, from: nat)
    requires q <= q' && j < |q| && q[j].DoCall? && Meets(q, j, u, session, from)
    ensures q'[j].DoCall? && Meets(q', j, u, session, from)
  {
    if EndsBefore(q, u, session, from, j) {
      var m :| from <= m < j && m < |q| && q[m] == DoErase(u, session);
      assert q'[m] == DoErase(u, session);
    }
  }

  /** The calls already queued meet what they did when more is posted. */
  lemma PostingKeepsCalls(s: State, s': State, j: nat)
    requires |s.tags| == G.SEATS && CallsMeetOwn(s) && s.queue <= s'.queue && s'.table == s.table && s'.tags == s.tags
    requires j < |s.queue| && s.queue[j].DoCall?
    ensures s'.queue[j].DoCall? && MeetsOwn(s', j)
  {
    assert MeetsOwn(s, j);
    forall i | Occupied(s', i) ensures Meets(s'.queue, j, Holder(s', i), s'.tags[i], 0) {
      assert Occupied(s, i);
      MeetsLasts(s.queue, s'.queue, j, Holder(s, i), s.tags[i], 0);
    }
    forall p | 0 <= p < j && s'.queue[p].DoPlay?
      ensures Meets(s'.queue, j, s'.queue[p].u, s'.queue[p].session, p + 1)
    {
      assert s'.queue[p] == s.queue[p];
      MeetsLasts(s.queue, s'.queue, j, s.queue[p].u, s.queue[p].session, p + 1);
    }
  }

  lemma LoungeKeepsCalls(s: State, e: M.Event)
    requires |s.tags| == G.SEATS && CallsMeetOwn(s) && M.Enabled(s.lounge, e)
    ensures CallsMeetOwn(LoungeStep(s, e))
  {
    var s' := LoungeStep(s, e);
    forall j | 0 <= j < |s'.queue| && s'.queue[j].DoCall? ensures MeetsOwn(s', j) {
      PostingKeepsCalls(s, s', j);
    }
  }

  /** What a new call can meet is covered: by the session of its sender, or by a `do_erase` before it. */
  lemma NewCallMeetsOwn(s: State, u: Addr, call: Call)
    requires Inv(s) && Enabled(s, Dispatch(u, call)) && !call.Play?
    ensures var s', j := Next(s, Dispatch(u, call)), |s.queue|;
            s'.queue[j].DoCall? && MeetsOwn(s', j)
  {
    var s', j := Next(s, Dispatch(u, call)), |s.queue|;
    forall i | Occupied(s', i) ensures Meets(s'.queue, j, Holder(s', i), s'.tags[i], 0) {
      assert Occupied(s, i) && Covered(s, Holder(s, i), s.tags[i], 0);
      CoveredIsMet(s, s', u, Holder(s, i), s.tags[i], 0);
    }
    forall p | 0 <= p < j && s'.queue[p].DoPlay?
      ensures Meets(s'.queue, j, s'.queue[p].u, s'.queue[p].session, p + 1)
    {
      assert s'.queue[p] == s.queue[p] && Covered(s, s.queue[p].u, s.queue[p].session, p + 1);
      CoveredIsMet(s, s', u, s.queue[p].u, s.queue[p].session, p + 1);
    }
  }

  lemma CoveredIsMet(s: State, s': State, u: Addr, v: Addr, session: nat, from: nat)
    requires Covered(s, v, session, from) && s.queue <= s'.queue && |s'.queue| == |s.queue| + 1
    requires M.Ready(s.lounge, u, M.Alive)
    requires var job := s'.queue[|s.queue|];
             job.DoCall? && job.u == u && job.sent == (if Joined(s.lounge, u) then Some(SessionOf(s, u)) else None)
    ensures Meets(s'.queue, |s.queue|, v, session, from)
  {
    if Queued(s.queue, v, session, from) {
      var m :| from <= m < |s.queue| && s.queue[m] == DoErase(v, session);
      assert s'.queue[m] == DoErase(v, session);
    }
  }

  lemma DispatchKeepsCalls(s: State, u: Addr, call: Call)
    requires Inv(s) && CallsMeetOwn(s) && Enabled(s, Dispatch(u, call))
    ensures CallsMeetOwn(Next(s, Dispatch(u, call)))
  {
    var s' := Next(s, Dispatch(u, call));
    forall j | 0 <= j < |s'.queue| && s'.queue[j].DoCall? ensures MeetsOwn(s', j) {
      if j < |s.queue| { PostingKeepsCalls(s, s', j); } else { NewCallMeetsOwn(s, u, call); }
    }
  }

  lemma MeetsShifts(q: seq<Job>, j: nat, u: Addr, session: nat, from: nat)
    requires q != [] && j + 1 < |q| && q[j + 1].DoCall? && Meets(q, j + 1, u, session, from)
    requires from >= 1 || q[0] != DoErase(u, session)
    ensures Meets(q[1..], j, u, session, if from == 0 then 0 else from - 1)
  {
    if EndsBefore(q, u, session, from, j + 1) {
      var m :| from <= m < j + 1 && m < |q| && q[m] == DoErase(u, session);
      assert q[1..][m - 1] == DoErase(u, session);
    }
  }

  lemma RunKeepsCalls(s: State, card: G.Card)
    requires Shape(s) && CallsMeetOwn(s) && Enabled(s, RunHead(card))
    ensures var s' := Next(s, RunHead(card)); |s'.tags| == G.SEATS && CallsMeetOwn(s')
  {
    var s' := Next(s, RunHead(card));
    RunKeepsShape(s, card);
    forall j | 0 <= j < |s'.queue| && s'.queue[j].DoCall? ensures MeetsOwn(s', j) {
      assert s.queue[j + 1] == s'.queue[j] && MeetsOwn(s, j + 1);
      forall i | Occupied(s', i) ensures Meets(s'.queue, j, Holder(s', i), s'.tags[i], 0) {
        SeatChanges(s, s.queue[0], card, i);
        if Occupied(s, i) && Holder(s', i) == Holder(s, i) && s'.tags[i] == s.tags[i]
           && (s.queue[0].DoErase? ==> Holder(s, i) != s.queue[0].u) {
          MeetsShifts(s.queue, j, Holder(s, i), s.tags[i], 0);
        } else {
          MeetsShifts(s.queue, j, s.queue[0].u, s.queue[0].session, 1);
        }
      }
      forall p | 0 <= p < j && s'.queue[p].DoPlay?
        ensures Meets(s'.queue, j, s'.queue[p].u, s'.queue[p].session, p + 1)
      {
        assert s'.queue[p] == s.queue[p + 1];
        MeetsShifts(s.queue, j, s.queue[p + 1].u, s.queue[p + 1].session, p + 2);
      }
    }
  }

  lemma {:induction false} EveryRunKeepsCalls(s: State, es: seq<Event>)
    requires Inv(s) && CallsMeetOwn(s) && CanRun(s, es) && AllDisciplined(s, es)
    ensures |After(s, es).tags| == G.SEATS && CallsMeetOwn(After(s, es))
    decreases |es|
  {
    if es != [] {
      match es[0] {
        case Lounge(e) => LoungeKeepsCalls(s, e); LoungeKeepsInv(s, e);
        case Dispatch(u, call) => DispatchKeepsCalls(s, u, call); DispatchKeepsInv(s, u, call);
        case RunHead(card) => RunKeepsCalls(s, card); RunKeepsInv(s, card);
      }
      EveryRunKeepsCalls(Next(s, es[0]), es[1..]);
    }
  }

  /**
   `watch` and `bet` also find their seat by a bare address.  In every disciplined run the
   seat they find was taken in the session they were sent from: never by an earlier or a
   later user of that address, and never for a sender who was no member.
   */
  lemma CallHitsItsOwnSession(s0: State, es: seq<Event>, i: int)
    requires Initial(s0) && CanRun(s0, es) && AllDisciplined(s0, es)
    requires var s := After(s0, es);
             s.queue != [] && s.queue[0].DoCall? && Occupied(s, i) && Holder(s, i) == s.queue[0].u
    ensures var s := After(s0, es); |s.tags| == G.SEATS && s.queue[0].sent == Some(s.tags[i])
  {
    EveryRunKeepsCalls(s0, es);
    var s := After(s0, es);
    assert MeetsOwn(s, 0) && Meets(s.queue, 0, Holder(s, i), s.tags[i], 0);
  }

  /** A seat has its `do_erase` queued exactly when the session it was taken in is over. */
  lemma EraseQueuedIffSessionOver(s: State, i: int)
    requires Inv(s) && Occupied(s, i)
    ensures Queued(s.queue, Holder(s, i), s.tags[i], 0)
            <==> !(Engaged(s.lounge, Holder(s, i)) && SessionOf(s, Holder(s, i)) == s.tags[i])
  {
    assert Covered(s, Holder(s, i), s.tags[i], 0);
  }

  /** A seat may name freed storage, but then the `do_erase` that vacates it is queued. */
  lemma FreedHolderIsQueued(s: State, i: int)
    requires Inv(s) && Occupied(s, i)
    requires Holder(s, i) in s.lounge.users && s.lounge.users[Holder(s, i)].phase.Freed?
    ensures Queued(s.queue, Holder(s, i), s.tags[i], 0)
  {
    var u := Holder(s, i);
    assert Covered(s, u, s.tags[i], 0) && M.UserOk(s.lounge, s.lounge.users[u]);
    if TABLE in s.lounge.members {
      assert M.Agree(s.lounge.users[u], u in s.lounge.members[TABLE], TABLE);
    }
  }

  /** A queued `play` of a user without a seat gets an open one, in the session it was sent from. */
  lemma PlaySeatsItsUser(s: State, card: G.Card)
    requires Inv(s) && s.queue != [] && s.queue[0].DoPlay? && G.Find(s.table, s.queue[0].u) == 0
    requires exists i :: 1 <= i < G.SEATS && s.table.seats[i].state.Open?
    ensures var s' := Next(s, RunHead(card));
            exists i :: && Occupied(s', i) && Holder(s', i) == s.queue[0].u && i < |s'.tags|
                        && s'.tags[i] == s.queue[0].session
  {
    var u := s.queue[0].u;
    G.FindSpec(s.table, u);
    G.JoinSpec(s.table, u);
    var i := G.Join(s.table, u).1.value;
    var s' := Next(s, RunHead(card));
    assert Occupied(s', i) && Holder(s', i) == u && s'.tags[i] == s.queue[0].session;
  }

  // ----- the strand and the game -----

  /** The operation of the game that a handler is. */
  function Operation(job: Job, card: G.Card): seq<G.Event> {
    match job
    case DoInsert(_) => []
    case DoErase(u, _) => [G.EvSurrender(u)]
    case DoPlay(u, _) => [G.EvJoin(u)]
    case DoCall(u, call, _) =>
      match call
      case Watch => [G.EvLeave(u)]
      case Bet => [G.EvBet(u)]
      case Start => [G.EvStart(card)]
      case _ => []
  }

  /** The operations of the game in the order in which the strand runs them. */
  ghost function Operations(s: State, es: seq<Event>): seq<G.Event>
    requires CanRun(s, es)
    decreases |es|
  {
    if es == [] then []
    else (if es[0].RunHead? then Operation(s.queue[0], es[0].card) else []) + Operations(Next(s, es[0]), es[1..])
  }

  lemma OperationStep(s: State, e: Event)
    requires Enabled(s, e)
    ensures var ops := if e.RunHead? then Operation(s.queue[0], e.card) else [];
            if ops == [] then Next(s, e).table == s.table
            else |ops| == 1 && G.Enabled(s.table, ops[0]) && Next(s, e).table == G.Next(s.table, ops[0])
  {
  }

  /**
   Whatever the lounge does in between, what happens to the seats is a run of the game: the
   handlers' operations, in order, and nothing else.
   */
  lemma {:induction false} StrandRunsTheGame(s: State, es: seq<Event>)
    requires CanRun(s, es)
    ensures G.CanRun(s.table, Operations(s, es)) && G.After(s.table, Operations(s, es)) == After(s, es).table
    decreases |es|
  {
    if es != [] {
      var ops := if es[0].RunHead? then Operation(s.queue[0], es[0].card) else [];
      var rest := Operations(Next(s, es[0]), es[1..]);
      OperationStep(s, es[0]);
      StrandRunsTheGame(Next(s, es[0]), es[1..]);
      if ops == [] {
        assert ops + rest == rest;
      } else {
        assert (ops + rest)[1..] == rest;
      }
    }
  }

  lemma SessionStep(s: State, e: Event, u: Addr)
    requires Shape(s) && Enabled(s, e)
    ensures SessionOf(s, u) <= SessionOf(Next(s, e), u)
    ensures SessionOf(Next(s, e), u) == SessionOf(s, u) && Engaged(Next(s, e).lounge, u) ==> Engaged(s.lounge, u)
  {
    if e.Lounge? { EngagedSteps(s, e.e, u); }
  }

  /** Sessions only begin anew: a user engaged in a session has been so ever since it began. */
  lemma {:induction false} SessionsGoOn(s: State, es: seq<Event>, u: Addr)
    requires Shape(s) && CanRun(s, es)
    ensures SessionOf(s, u) <= SessionOf(After(s, es), u)
    ensures SessionOf(After(s, es), u) == SessionOf(s, u) && Engaged(After(s, es).lounge, u) ==> Engaged(s.lounge, u)
    decreases |es|
  {
    if es != [] {
      SessionStep(s, es[0], u);
      StepKeepsShape(s, es[0]);
      SessionsGoOn(Next(s, es[0]), es[1..], u);
    }
  }

  ghost predicate SeatedSince(s: State, u: Addr, i: int, session: nat) {
    Occupied(s, i) && Holder(s, i) == u && i < |s.tags| && s.tags[i] == session
  }

  /** No handler but a `do_erase` for its holder takes a seat away. */
  lemma OnlyEraseUnseats(s: State, card: G.Card, u: Addr, i: int, session: nat)
    requires G.Valid(s.table) && |s.tags| == G.SEATS && Enabled(s, RunHead(card)) && SeatedSince(s, u, i, session)
    requires !(s.queue[0].DoErase? && s.queue[0].u == u)
    ensures SeatedSince(Next(s, RunHead(card)), u, i, session)
  {
    match s.queue[0]
    case DoInsert(_) =>
    case DoErase(v, _) => G.FindSpec(s.table, v);
    case DoPlay(v, _) => G.JoinSpec(s.table, v);
    case DoCall(v, _, _) => G.FindSpec(s.table, v);
  }

  /** The seat of a current session is not taken away. */
  lemma CurrentSeatStays(s: State, e: Event, u: Addr, i: int)
    requires Inv(s) && Enabled(s, e) && SeatedSince(s, u, i, SessionOf(s, u)) && Engaged(s.lounge, u)
    ensures SeatedSince(Next(s, e), u, i, SessionOf(s, u))
  {
    if e.RunHead? { OnlyEraseUnseats(s, e.card, u, i, SessionOf(s, u)); }
  }

  /**
   In every disciplined run, a player that is still in the session in which it took its seat
   still has that seat.
   */
  lemma {:induction false} MembersKeepTheirSeats(s: State, es: seq<Event>, u: Addr, i: int)
    requires Inv(s) && CanRun(s, es) && AllDisciplined(s, es) && SeatedSince(s, u, i, SessionOf(s, u))
    requires Engaged(After(s, es).lounge, u) && SessionOf(After(s, es), u) == SessionOf(s, u)
    ensures SeatedSince(After(s, es), u, i, SessionOf(s, u))
    decreases |es|
  {
    if es != [] {
      var s' := Next(s, es[0]);
      SessionsGoOn(s, es, u);
      CurrentSeatStays(s, es[0], u, i);
      StepKeepsInv(s, es[0]);
      SessionsGoOn(s', es[1..], u);
      SessionStep(s, es[0], u);
      MembersKeepTheirSeats(s', es[1..], u, i);
    }
  }

  // ----- one `do_insert` and one `do_erase` per session -----

  /** In the middle of being inserted, until `on_insert` has posted `do_insert`. */
  predicate Entering(m: M.State, u: Addr) {
    u in m.users && (m.users[u].pc.Joining? || m.users[u].pc.InsertHook?) && m.users[u].pc.c == TABLE
  }

  /** How many `do_insert`, and how many `do_erase`, the step posts for the user. */
  function NewInserts(s: State, e: Event, u: Addr): nat
    requires Enabled(s, e)
  {
    if e.Lounge? && DoInsert(u) in Posted(s, e.e) then 1 else 0
  }

  function NewErases(s: State, e: Event, u: Addr): nat
    requires Enabled(s, e)
  {
    if e.Lounge? && e.e.u == u && Posted(s, e.e) != [] && Posted(s, e.e)[0].DoErase? then 1 else 0
  }

  ghost function Inserts(s: State, es: seq<Event>, u: Addr): nat
    requires CanRun(s, es)
    decreases |es|
  {
    if es == [] then 0 else NewInserts(s, es[0], u) + Inserts(Next(s, es[0]), es[1..], u)
  }

  ghost function Erases(s: State, es: seq<Event>, u: Addr): nat
    requires CanRun(s, es)
    decreases |es|
  {
    if es == [] then 0 else NewErases(s, es[0], u) + Erases(Next(s, es[0]), es[1..], u)
  }

  /** Entering begins with the arrival in `users_` and ends with the call of `on_insert`. */
  ghost predicate EntersOnce(m: M.State, e: M.Event)
    requires M.Enabled(m, e)
  {
    var u, m' := e.u, M.Next(m, e);
    var arrived, called := !Joined(m, u) && Joined(m', u), e.Hook? && m.users[u].pc == M.InsertHook(TABLE);
    && (arrived ==> !Entering(m, u)) && (called ==> Entering(m, u) && !arrived)
    && (Entering(m', u) <==> arrived || (Entering(m, u) && !called))
  }

  lemma LockedEntering(m: M.State, e: M.Event)
    requires M.Inv(m) && M.Enabled(m, e) && M.ChangesUsers(e)
    ensures EntersOnce(m, e)
  {
    assert M.UserOk(m, m.users[e.u]);
  }

  lemma OtherEntering(m: M.State, e: M.Event)
    requires M.Inv(m) && M.Enabled(m, e) && !M.ChangesUsers(e)
    ensures EntersOnce(m, e)
  {
    assert M.Next(m, e).members == m.members;
    if e.u in m.users {
      assert M.UserOk(m, m.users[e.u]);
      if TABLE in m.members { assert M.Agree(m.users[e.u], e.u in m.members[TABLE], TABLE); }
    }
  }

  lemma OwnInsertStep(s: State, e: M.Event)
    requires Enabled(s, Lounge(e)) && EntersOnce(s.lounge, e)
    ensures var s' := LoungeStep(s, e);
            NewInserts(s, Lounge(e), e.u) + (if Entering(s'.lounge, e.u) then 1 else 0) - SessionOf(s', e.u)
            == (if Entering(s.lounge, e.u) then 1 else 0) - SessionOf(s, e.u)
  {
  }

  lemma OtherInsertStep(s: State, e: M.Event, u: Addr)
    requires Enabled(s, Lounge(e)) && e.u != u
    ensures var s' := LoungeStep(s, e);
            && NewInserts(s, Lounge(e), u) == 0 && SessionOf(s', u) == SessionOf(s, u)
            && (Entering(s'.lounge, u) <==> Entering(s.lounge, u))
  {
    M.OnlyActorMoves(s.lounge, e);
  }

  lemma InsertStep(s: State, e: Event, u: Addr)
    requires M.Inv(s.lounge) && Enabled(s, e)
    ensures var s' := Next(s, e);
            NewInserts(s, e, u) + (if Entering(s'.lounge, u) then 1 else 0) - SessionOf(s', u)
            == (if Entering(s.lounge, u) then 1 else 0) - SessionOf(s, u)
  {
    if e.Lounge? {
      if e.e.u != u {
        OtherInsertStep(s, e.e, u);
      } else {
        if M.ChangesUsers(e.e) { LockedEntering(s.lounge, e.e); } else { OtherEntering(s.lounge, e.e); }
        OwnInsertStep(s, e.e);
      }
    }
  }

  lemma EraseStep(s: State, e: Event, u: Addr)
    requires Shape(s) && Enabled(s, e)
    ensures var s' := Next(s, e);
            NewErases(s, e, u) + (if Engaged(s'.lounge, u) then 1 else 0) - SessionOf(s', u)
            == (if Engaged(s.lounge, u) then 1 else 0) - SessionOf(s, u)
  {
    if e.Lounge? { EngagedSteps(s, e.e, u); }
  }

  lemma {:induction false} PostsBalance(s: State, es: seq<Event>, u: Addr)
    requires Shape(s) && CanRun(s, es)
    ensures var s' := After(s, es);
            && Inserts(s, es, u) + (if Entering(s'.lounge, u) then 1 else 0) - SessionOf(s', u)
               == (if Entering(s.lounge, u) then 1 else 0) - SessionOf(s, u)
            && Erases(s, es, u) + (if Engaged(s'.lounge, u) then 1 else 0) - SessionOf(s', u)
               == (if Engaged(s.lounge, u) then 1 else 0) - SessionOf(s, u)
    decreases |es|
  {
    if es != [] {
      InsertStep(s, es[0], u);
      EraseStep(s, es[0], u);
      StepKeepsShape(s, es[0]);
      PostsBalance(Next(s, es[0]), es[1..], u);
    }
  }

  /**
   In every run, for every address: each session has posted one `do_insert`, unless the
   `insert` that began it is still under way, and one `do_erase`, unless it goes on.
   */
  lemma OnePostPerSession(s0: State, es: seq<Event>, u: Addr)
    requires Initial(s0) && CanRun(s0, es)
    ensures var s := After(s0, es);
            && Inserts(s0, es, u) + (if Entering(s.lounge, u) then 1 else 0) == SessionOf(s, u)
            && Erases(s0, es, u) + (if Engaged(s.lounge, u) then 1 else 0) == SessionOf(s, u)
  {
    PostsBalance(s0, es, u);
  }

  // ----- without the discipline -----

  /** Any user may be seated without being a member, and then nothing queued will end it. */
  lemma UnjoinedPlayerSticks(s: State, u: Addr, card: G.Card)
    requires Inv(s) && s.queue == [] && M.Ready(s.lounge, u, M.Alive) && !Joined(s.lounge, u)
    requires exists i :: 1 <= i < G.SEATS && s.table.seats[i].state.Open?
    ensures var s' := Next(Next(s, Dispatch(u, Play)), RunHead(card));
            && s'.queue == [] && s'.lounge == s.lounge && !Engaged(s'.lounge, u)
            && (exists i :: Occupied(s', i) && Holder(s', i) == u)
  {
    var s1 := Next(s, Dispatch(u, Play));
    assert s1.queue[0] == DoPlay(u, SessionOf(s, u));
    var s2 := Next(s1, RunHead(card));
    G.JoinSpec(s.table, u);
    forall i | 1 <= i < G.SEATS ensures !G.Holds(s.table.seats[i], u) {
      if Occupied(s, i) { assert Covered(s, Holder(s, i), s.tags[i], 0); }
    }
    var k := G.Join(s.table, u).1.value;
    assert Occupied(s2, k) && Holder(s2, k) == u;
  }

  /**
   The check the source leaves out is exactly `is_joined`: when the strand is idle and a
   seat is open, a `play` leaves every seat accounted for if and only if it was sent by a
   member of the table.
   */
  lemma SeatsAccountedIffJoined(s: State, u: Addr, card: G.Card)
    requires Inv(s) && s.queue == [] && M.Ready(s.lounge, u, M.Alive)
    requires exists i :: 1 <= i < G.SEATS && s.table.seats[i].state.Open?
    ensures SeatsAccounted(Next(Next(s, Dispatch(u, Play)), RunHead(card))) <==> Joined(s.lounge, u)
  {
    var s1 := Next(s, Dispatch(u, Play));
    var s2 := Next(s1, RunHead(card));
    if Joined(s.lounge, u) {
      DispatchKeepsInv(s, u, Play);
      RunKeepsInv(s1, card);
      CoveredSeatsAccounted(s2);
    } else {
      UnjoinedPlayerSticks(s, u, card);
      var i :| Occupied(s2, i) && Holder(s2, i) == u;
    }
  }

  lemma Prepend(s: State, e: Event, es: seq<Event>)
    requires Enabled(s, e) && CanRun(Next(s, e), es)
    ensures CanRun(s, [e] + es) && After(s, [e] + es) == After(Next(s, e), es)
  {
    assert ([e] + es)[1..] == es;
  }

  /** Seat `i` names the freed storage of `u`. */
  ghost predicate FreedSeat(s: State, u: Addr, i: int) {
    Occupied(s, i) && Holder(s, i) == u && u in s.lounge.users && s.lounge.users[u].phase.Freed?
  }

  /** It does, and nothing is queued that would vacate it. */
  ghost predicate StrandedSeat(s: State, u: Addr, i: int) {
    FreedSeat(s, u, i) && s.queue == []
  }

  /** A user that is in no channel can disconnect at once, and keeps any seat it has. */
  lemma LeaverKeepsSeat(s: State, u: Addr, i: int) returns (es: seq<Event>)
    requires Occupied(s, i) && Holder(s, i) == u && s.queue == []
    requires M.Ready(s.lounge, u, M.Alive) && s.lounge.users[u].channels == {} && !M.Held(s.lounge, u)
    ensures CanRun(s, es) && StrandedSeat(After(s, es), u, i)
  {
    var s1 := Next(s, Lounge(M.Drop(u)));
    Prepend(s1, Lounge(M.Free(u)), []);
    Prepend(s, Lounge(M.Drop(u)), [Lounge(M.Free(u))] + []);
    es := [Lounge(M.Drop(u))] + ([Lounge(M.Free(u))] + []);
  }

  /** A quiet state with a user in no channel and an open seat. */
  ghost predicate Stranger(s: State, u: Addr) {
    && Inv(s) && s.queue == [] && M.Ready(s.lounge, u, M.Alive) && !Joined(s.lounge, u)
    && s.lounge.users[u].channels == {} && !M.Held(s.lounge, u)
    && exists i :: 1 <= i < G.SEATS && s.table.seats[i].state.Open?
  }

  /** From any quiet state, a user in no channel can take an open seat and disconnect. */
  lemma StrangerLeavesSeat(s: State, u: Addr) returns (es: seq<Event>, i: int)
    requires Stranger(s, u)
    ensures CanRun(s, es) && StrandedSeat(After(s, es), u, i)
  {
    UnjoinedPlayerSticks(s, u, 0);
    var s1 := Next(s, Dispatch(u, Play));
    var s2 := Next(s1, RunHead(0));
    i :| Occupied(s2, i) && Holder(s2, i) == u;
    var rest := LeaverKeepsSeat(s2, u, i);
    Prepend(s1, RunHead(0), rest);
    Prepend(s, Dispatch(u, Play), [RunHead(0)] + rest);
    es := [Dispatch(u, Play)] + ([RunHead(0)] + rest);
  }

  lemma FirstConnection(s0: State, u: Addr)
    requires Initial(s0)
    ensures Enabled(s0, Lounge(M.Connect(u))) && Stranger(Next(s0, Lounge(M.Connect(u))), u)
  {
    LoungeKeepsInv(s0, M.Connect(u));
    assert s0.table.seats[1].state.Open?;
  }

  /** The consequence: the program has runs at whose end a seat names freed storage and nothing queued vacates it. */
  lemma SeatOfFreedUser(s0: State, u: Addr) returns (es: seq<Event>, i: int)
    requires Initial(s0)
    ensures CanRun(s0, es) && StrandedSeat(After(s0, es), u, i)
  {
    FirstConnection(s0, u);
    var e := Lounge(M.Connect(u));
    var rest;
    rest, i := StrangerLeavesSeat(Next(s0, e), u);
    Prepend(s0, e, rest);
    es := [e] + rest;
  }

  // ----- freed storage in disciplined runs -----

  /** A disciplined run from `s` to `s'`. */
  ghost predicate Leads(s: State, es: seq<Event>, s': State) {
    CanRun(s, es) && AllDisciplined(s, es) && After(s, es) == s'
  }

  lemma {:induction false} LeadsOn(s: State, es: seq<Event>, s1: State, fs: seq<Event>, s2: State)
    requires Leads(s, es, s1) && Leads(s1, fs, s2)
    ensures Leads(s, es + fs, s2)
    decreases |es|
  {
    if es == [] {
      assert es + fs == fs;
    } else {
      LeadsOn(Next(s, es[0]), es[1..], s1, fs, s2);
      assert (es + fs)[1..] == es[1..] + fs;
    }
  }

  lemma LeadsStep(s: State, e: Event)
    requires Enabled(s, e) && Disciplined(s, e)
    ensures Leads(s, [e], Next(s, e))
  {
    assert [e][1..] == [];
  }

  function Lifted(es: seq<M.Event>): seq<Event> {
    if es == [] then [] else [Lounge(es[0])] + Lifted(es[1..])
  }

  /** What no step of the lounge changes; all it can do to the strand is post `do_insert` and `do_erase`. */
  ghost predicate OnlyPosts(s: State, s': State) {
    && s'.table == s.table && s'.tags == s.tags && s.queue <= s'.queue
    && forall j | |s.queue| <= j < |s'.queue| :: s'.queue[j].DoInsert? || s'.queue[j].DoErase?
  }

  /** A run of the lounge is a run of the table as long as no user's last reference goes away. */
  lemma {:induction false} LoungeRun(s: State, es: seq<M.Event>)
    requires M.CanRun(s.lounge, es) && forall e | e in es :: !e.Drop?
    ensures CanRun(s, Lifted(es)) && AllDisciplined(s, Lifted(es))
    ensures After(s, Lifted(es)).lounge == M.After(s.lounge, es) && OnlyPosts(s, After(s, Lifted(es)))
    ensures forall e | e in Lifted(es) :: e.Lounge? && !e.e.Drop?
    decreases |es|
  {
    if es != [] {
      assert es[0] in es;
      var s1 := Next(s, Lounge(es[0]));
      LoungeRun(s1, es[1..]);
      assert Lifted(es)[1..] == Lifted(es[1..]);
      assert OnlyPosts(s, s1);
    }
  }

  /** Without a drop, only a user that is dying already can be freed. */
  lemma {:induction false} AliveUntilDropped(s: State, es: seq<Event>, u: Addr)
    requires CanRun(s, es) && forall e | e in es :: e.Lounge? && !e.e.Drop?
    requires u in s.lounge.users && s.lounge.users[u].phase.Alive?
    ensures u in After(s, es).lounge.users && After(s, es).lounge.users[u].phase.Alive?
    decreases |es|
  {
    if es != [] {
      assert es[0] in es;
      M.OnlyActorMoves(s.lounge, es[0].e);
      AliveUntilDropped(Next(s, es[0]), es[1..], u);
    }
  }

  /** Once dropped, a player can be freed by its own steps, before the strand gets to its `do_erase`. */
  lemma DroppedHolderIsFreed(s: State, u: Addr, i: int) returns (es: seq<Event>)
    requires M.Inv(s.lounge) && Occupied(s, i) && Holder(s, i) == u && u in s.lounge.users
    requires !s.lounge.users[u].phase.Alive?
    ensures CanRun(s, es) && AllDisciplined(s, es) && forall e | e in es :: e.Lounge? && !e.e.Drop?
    ensures FreedSeat(After(s, es), u, i) && s.queue <= After(s, es).queue
  {
    if s.lounge.users[u].phase.Freed? {
      es := [];
    } else {
      var fs := M.DrainCompletes(s.lounge, u);
      LoungeRun(s, fs);
      es := Lifted(fs);
    }
  }

  /**
   Exactly when a seat can come to name freed storage without anyone else being dropped
   or the strand running: when its holder has been dropped.
   */
  lemma FreedIffDropped(s: State, u: Addr, i: int)
    requires M.Inv(s.lounge) && Occupied(s, i) && Holder(s, i) == u && u in s.lounge.users
    ensures (exists es: seq<Event> ::
               && CanRun(s, es) && (forall e | e in es :: e.Lounge? && !e.e.Drop?)
               && FreedSeat(After(s, es), u, i))
            <==> !s.lounge.users[u].phase.Alive?
  {
    if s.lounge.users[u].phase.Alive? {
      forall es: seq<Event> | CanRun(s, es) && forall e | e in es :: e.Lounge? && !e.e.Drop?
        ensures !FreedSeat(After(s, es), u, i)
      {
        AliveUntilDropped(s, es, u);
      }
    } else {
      var es := DroppedHolderIsFreed(s, u, i);
    }
  }

  /**
   Members are not safe either.  From any state, whatever is queued, a player that no
   handler keeps alive can disconnect and be freed before the strand gets to its `do_erase`.
   */
  lemma HolderFreedFirst(s: State, u: Addr, i: int) returns (es: seq<Event>)
    requires Inv(s) && Occupied(s, i) && Holder(s, i) == u
    requires M.Ready(s.lounge, u, M.Alive) && !M.Held(s.lounge, u) && !Referenced(s.queue, u)
    ensures CanRun(s, es) && AllDisciplined(s, es) && forall e | e in es :: e.Lounge?
    ensures FreedSeat(After(s, es), u, i) && s.queue <= After(s, es).queue
  {
    var e := Lounge(M.Drop(u));
    var s1 := Next(s, e);
    LoungeKeepsInv(s, M.Drop(u));
    var fs := DroppedHolderIsFreed(s1, u, i);
    es := [e] + fs;
    LeadsStep(s, e);
    LeadsOn(s, [e], s1, fs, After(s1, fs));
  }

  /** A user that some handler keeps alive is not freed by any steps of the lounge. */
  lemma {:induction false} ReferencedStaysAlive(s: State, es: seq<Event>, u: Addr)
    requires CanRun(s, es) && (forall e | e in es :: e.Lounge?) && Referenced(s.queue, u)
    requires u in s.lounge.users && s.lounge.users[u].phase.Alive?
    ensures u in After(s, es).lounge.users && After(s, es).lounge.users[u].phase.Alive?
    decreases |es|
  {
    if es != [] {
      assert es[0] in es;
      var s' := Next(s, es[0]);
      var j :| 0 <= j < |s.queue| && !s.queue[j].DoErase? && s.queue[j].u == u;
      assert s'.queue[j] == s.queue[j];
      M.OnlyActorMoves(s.lounge, es[0].e);
      ReferencedStaysAlive(s', es[1..], u);
    }
  }

  /**
   How long a drop can be put off: a ready player can be dropped and freed before the strand
   runs its next handler exactly when no queued handler owns a pointer to it.
   */
  lemma FreedFirstIffUnreferenced(s: State, u: Addr, i: int)
    requires Inv(s) && Occupied(s, i) && Holder(s, i) == u
    requires M.Ready(s.lounge, u, M.Alive) && !M.Held(s.lounge, u)
    ensures (exists es: seq<Event> ::
               CanRun(s, es) && (forall e | e in es :: e.Lounge?) && FreedSeat(After(s, es), u, i))
            <==> !Referenced(s.queue, u)
  {
    if Referenced(s.queue, u) {
      forall es: seq<Event> | CanRun(s, es) && forall e | e in es :: e.Lounge?
        ensures !FreedSeat(After(s, es), u, i)
      {
        ReferencedStaysAlive(s, es, u);
      }
    } else {
      var es := HolderFreedFirst(s, u, i);
    }
  }

  /**
   In particular while another user's `start` is at the head of the queue, whose update
   then reads the name of every seated user.
   */
  lemma UpdateMeetsFreedSeat(s: State, u: Addr, i: int, v: Addr, card: G.Card) returns (es: seq<Event>)
    requires Inv(s) && s.queue == [] && G.HasRoom(s.table) && Occupied(s, i) && Holder(s, i) == u
    requires M.Ready(s.lounge, u, M.Alive) && !M.Held(s.lounge, u)
    requires M.Ready(s.lounge, v, M.Alive) && v != u
    ensures CanRun(s, es) && AllDisciplined(s, es)
    ensures var s' := After(s, es);
            && s'.queue != [] && s'.queue[0].DoCall? && s'.queue[0].u == v && s'.queue[0].call.Start?
            && Enabled(s', RunHead(card))
            && FreedSeat(Next(s', RunHead(card)), u, i)
  {
    var e := Dispatch(v, Start);
    var s1 := Next(s, e);
    DispatchKeepsInv(s, v, Start);
    var fs := HolderFreedFirst(s1, u, i);
    var s2 := After(s1, fs);
    LeadsStep(s, e);
    LeadsOn(s, [e], s1, fs, s2);
    es := [e] + fs;
    LoungeKeepsTable(s1, fs);
    assert s2.queue[0] == s1.queue[0];
  }

  lemma {:induction false} LoungeKeepsTable(s: State, es: seq<Event>)
    requires CanRun(s, es) && forall e | e in es :: e.Lounge?
    ensures After(s, es).table == s.table
    decreases |es|
  {
    if es != [] {
      assert es[0] in es;
      LoungeKeepsTable(Next(s, es[0]), es[1..]);
    }
  }

  // ----- runs in which no seat ever names freed storage -----

  ghost predicate Seated(s: State, u: Addr) {
    exists i :: Occupied(s, i) && Holder(s, i) == u
  }

  /** The guard the source lacks: a user that holds a seat is not let go of. */
  ghost predicate Careful(s: State, e: Event) {
    e.Lounge? && e.e.Drop? ==> !Seated(s, e.e.u)
  }

  ghost predicate AllCareful(s: State, es: seq<Event>)
    requires CanRun(s, es)
    decreases |es|
  {
    es != [] ==> Careful(s, es[0]) && AllCareful(Next(s, es[0]), es[1..])
  }

  predicate IsAlive(m: M.State, u: Addr) {
    u in m.users && m.users[u].phase.Alive?
  }

  /** Whoever holds a seat, or may be given one by a queued handler, is alive. */
  ghost predicate HoldersAlive(s: State) {
    && (forall i | Occupied(s, i) :: IsAlive(s.lounge, Holder(s, i)))
    && (forall j | 0 <= j < |s.queue| && !s.queue[j].DoErase? :: IsAlive(s.lounge, s.queue[j].u))
  }

  /** The only step that ends a user's life is its drop. */
  lemma AliveSteps(m: M.State, e: M.Event, u: Addr)
    requires M.Inv(m) && M.Enabled(m, e) && IsAlive(m, u) && !(e.Drop? && e.u == u)
    ensures IsAlive(M.Next(m, e), u)
  {
    M.OnlyActorMoves(m, e);
  }

  lemma CarefulLounge(s: State, e: M.Event)
    requires Shape(s) && HoldersAlive(s) && Enabled(s, Lounge(e)) && Careful(s, Lounge(e))
    ensures HoldersAlive(LoungeStep(s, e))
  {
    var s' := LoungeStep(s, e);
    forall i | Occupied(s', i) ensures IsAlive(s'.lounge, Holder(s', i)) {
      assert Occupied(s, i);
      AliveSteps(s.lounge, e, Holder(s, i));
    }
    forall j | 0 <= j < |s'.queue| && !s'.queue[j].DoErase? ensures IsAlive(s'.lounge, s'.queue[j].u) {
      if j < |s.queue| {
        assert s'.queue[j] == s.queue[j];
        AliveSteps(s.lounge, e, s.queue[j].u);
      } else {
        assert M.UserOk(s.lounge, s.lounge.users[e.u]);
      }
    }
  }

  lemma StepKeepsShape(s: State, e: Event)
    requires Shape(s) && Enabled(s, e)
    ensures Shape(Next(s, e))
  {
    match e
    case Lounge(e) => M.StepKeepsInv(s.lounge, e);
    case Dispatch(u, call) =>
    case RunHead(card) => RunKeepsShape(s, card);
  }

  lemma CarefulStep(s: State, e: Event)
    requires Shape(s) && HoldersAlive(s) && Enabled(s, e) && Careful(s, e)
    ensures HoldersAlive(Next(s, e))
  {
    var s' := Next(s, e);
    match e
    case Lounge(e) => CarefulLounge(s, e);
    case Dispatch(u, call) =>
      assert forall i :: Occupied(s', i) ==> Occupied(s, i) && Holder(s', i) == Holder(s, i);
    case RunHead(card) =>
      assert forall j | 0 <= j < |s'.queue| :: s'.queue[j] == s.queue[j + 1];
      forall i | Occupied(s', i) ensures IsAlive(s'.lounge, Holder(s', i)) {
        SeatChanges(s, s.queue[0], card, i);
      }
  }

  lemma {:induction false} CarefulRuns(s: State, es: seq<Event>)
    requires Shape(s) && HoldersAlive(s) && CanRun(s, es) && AllCareful(s, es)
    ensures HoldersAlive(After(s, es))
    decreases |es|
  {
    if es != [] {
      CarefulStep(s, es[0]);
      StepKeepsShape(s, es[0]);
      CarefulRuns(Next(s, es[0]), es[1..]);
    }
  }

  /**
   Whoever sends `play`: as long as no user is dropped while it holds a seat, no seat ever
   names freed storage.
   */
  lemma CarefulRunsHaveNoFreedSeat(s0: State, es: seq<Event>, u: Addr, i: int)
    requires Initial(s0) && CanRun(s0, es) && AllCareful(s0, es)
    ensures !FreedSeat(After(s0, es), u, i)
  {
    CarefulRuns(s0, es);
  }

  /** And no weaker condition will do: from the first such drop on, a seat can come to name freed storage. */
  lemma {:induction false} CarelessRunsCanFreeASeat(s: State, es: seq<Event>)
      returns (k: nat, fs: seq<Event>, u: Addr, i: int)
    requires Shape(s) && CanRun(s, es) && !AllCareful(s, es)
    ensures k <= |es| && CanRun(s, es[..k] + fs) && forall e | e in fs :: e.Lounge? && !e.e.Drop?
    ensures FreedSeat(After(s, es[..k] + fs), u, i)
    decreases |es|
  {
    var s1 := Next(s, es[0]);
    if Careful(s, es[0]) {
      StepKeepsShape(s, es[0]);
      k, fs, u, i := CarelessRunsCanFreeASeat(s1, es[1..]);
      Prepend(s, es[0], es[1..][..k] + fs);
      assert es[..k + 1] + fs == [es[0]] + (es[1..][..k] + fs);
      k := k + 1;
    } else {
      k, u := 1, es[0].e.u;
      i :| Occupied(s, i) && Holder(s, i) == u;
      StepKeepsShape(s, es[0]);
      fs := DroppedHolderIsFreed(s1, u, i);
      Prepend(s, es[0], fs);
      assert es[..1] + fs == [es[0]] + fs;
    }
  }

  // ----- a player: connect, identify, join the table and play -----

  /** The lounge as it is while `u` is the only user there has been, and ready. */
  ghost predicate Alone(s: State, u: Addr) {
    && Inv(s) && M.Ready(s.lounge, u, M.Alive) && s.lounge.users.Keys == {u}
    && M.SYSTEM in s.lounge.members && TABLE in s.lounge.members
    && s.queue == [] && EmptyTable(s.table)
  }

  lemma {:induction false} NobodyElse(m: M.State, es: seq<M.Event>, u: Addr)
    requires M.CanRun(m, es) && m.users.Keys == {u} && forall e | e in es :: e.u == u
    ensures M.After(m, es).users.Keys == {u}
    decreases |es|
  {
    if es != [] {
      assert es[0] in es;
      M.OnlyActorMoves(m, es[0]);
      NobodyElse(M.Next(m, es[0]), es[1..], u);
    }
  }

  /** Some disciplined run leads from `s` to `s'`. */
  ghost predicate Reaches(s: State, s': State) {
    exists es :: Leads(s, es, s')
  }

  lemma ReachesStep(s: State, e: Event, s': State)
    requires Enabled(s, e) && Disciplined(s, e) && Reaches(Next(s, e), s')
    ensures Reaches(s, s')
  {
    var es :| Leads(Next(s, e), es, s');
    LeadsStep(s, e);
    LeadsOn(s, [e], Next(s, e), es, s');
  }

  lemma ReachesOn(s: State, s1: State, s2: State)
    requires Reaches(s, s1) && Reaches(s1, s2)
    ensures Reaches(s, s2)
  {
    var es :| Leads(s, es, s1);
    var fs :| Leads(s1, fs, s2);
    LeadsOn(s, es, s1, fs, s2);
  }

  lemma ReachesItself(s: State)
    ensures Reaches(s, s)
  {
    assert Leads(s, [], s);
  }

  lemma ReachesInv(s: State, s': State)
    requires Inv(s) && Reaches(s, s')
    ensures Inv(s')
  {
    var es :| Leads(s, es, s');
    EveryRunKeepsInv(s, es);
  }

  predicate EmptyTable(t: G.Table) {
    |t.seats| == G.SEATS && forall i | 1 <= i < G.SEATS :: t.seats[i].state.Open?
  }

  /** The strand has nothing to do for an empty table. */
  lemma {:induction false} StrandDrains(s: State)
    requires G.Valid(s.table) && EmptyTable(s.table)
    requires forall j | 0 <= j < |s.queue| :: s.queue[j].DoInsert? || s.queue[j].DoErase?
    ensures Reaches(s, s.(queue := []))
    decreases |s.queue|
  {
    if s.queue == [] {
      ReachesItself(s);
    } else {
      if s.queue[0].DoErase? { G.FindSpec(s.table, s.queue[0].u); }
      var s1 := Next(s, RunHead(0));
      assert s1 == s.(queue := s.queue[1..]);
      StrandDrains(s1);
      ReachesStep(s, RunHead(0), s.(queue := []));
    }
  }

  /** An operation under way is carried to its end by its own user. */
  lemma LoneCompletion(s: State, u: Addr) returns (s': State)
    requires M.Inv(s.lounge) && s.lounge.users.Keys == {u}
    ensures Reaches(s, s') && OnlyPosts(s, s')
    ensures s'.lounge.users.Keys == {u} && s'.lounge.users[u].pc.Idle?
    ensures s'.lounge.members == s.lounge.members && M.SameUser(s.lounge.users[u], s'.lounge.users[u])
  {
    if s.lounge.users[u].pc.Idle? {
      ReachesItself(s);
      s' := s;
    } else {
      var es := M.OperationCompletes(s.lounge, u);
      NobodyElse(s.lounge, es, u);
      LoungeRun(s, es);
      s' := After(s, Lifted(es));
      assert Leads(s, Lifted(es), s');
    }
  }

  lemma LoneBeginning(s: State, u: Addr, e: M.Event)
    requires Alone(s, u) && M.Enabled(s.lounge, e) && e.u == u && (e.Identify? || e.Join?)
    ensures var s1 := Next(s, Lounge(e));
            && M.Inv(s1.lounge) && s1.lounge.users.Keys == {u} && s1.lounge.users[u].phase.Alive?
            && s1.lounge.members.Keys == s.lounge.members.Keys
            && s1.queue == [] && s1.table == s.table && s1.tags == s.tags
  {
    M.StepKeepsInv(s.lounge, e);
    M.OnlyActorMoves(s.lounge, e);
  }

  /** One operation of a lone user, carried to its end. */
  lemma LoneOperation(s: State, u: Addr, e: M.Event) returns (s': State)
    requires Alone(s, u) && M.Enabled(s.lounge, e) && e.u == u && (e.Identify? || e.Join?)
    ensures Reaches(s, s') && Alone(s', u)
    ensures s'.lounge.members == M.Next(s.lounge, e).members
    ensures s'.lounge.users[u].name == M.Next(s.lounge, e).users[u].name
  {
    LoneBeginning(s, u, e);
    var s1 := Next(s, Lounge(e));
    var s2 := LoneCompletion(s1, u);
    s' := s2.(queue := []);
    StrandDrains(s2);
    ReachesOn(s1, s2, s');
    ReachesStep(s, Lounge(e), s');
    ReachesInv(s, s');
  }

  /** A lone member takes a seat. */
  lemma LonePlay(s: State, u: Addr) returns (s': State, i: int)
    requires Alone(s, u) && Joined(s.lounge, u)
    ensures Reaches(s, s') && Inv(s') && s'.lounge == s.lounge && s'.queue == []
    ensures Occupied(s', i) && Holder(s', i) == u
  {
    var s1 := Next(s, Dispatch(u, Play));
    DispatchKeepsInv(s, u, Play);
    G.FindSpec(s.table, u);
    assert G.Find(s.table, u) == 0 || G.Holds(s.table.seats[G.Find(s.table, u)], u);
    assert s1.queue == [DoPlay(u, SessionOf(s, u))] && s1.table.seats[1].state.Open?;
    PlaySeatsItsUser(s1, 0);
    s' := Next(s1, RunHead(0));
    RunKeepsInv(s1, 0);
    i :| Occupied(s', i) && Holder(s', i) == u;
    ReachesItself(s');
    ReachesStep(s1, RunHead(0), s');
    ReachesStep(s, Dispatch(u, Play), s');
  }

  lemma LoneConnection(s0: State, u: Addr)
    requires Initial(s0) && M.SYSTEM in s0.lounge.members && TABLE in s0.lounge.members
    ensures Enabled(s0, Lounge(M.Connect(u)))
    ensures var s := Next(s0, Lounge(M.Connect(u)));
            Alone(s, u) && s.lounge.users[u].name == ""
  {
    FirstConnection(s0, u);
  }

  lemma LoneMember(s: State, u: Addr) returns (s': State)
    requires Alone(s, u) && s.lounge.users[u].name == ""
    ensures Reaches(s, s') && Alone(s', u) && Joined(s'.lounge, u)
  {
    M.AdmissionSpec(s.lounge, u, M.SYSTEM, "a");
    var s1 := LoneOperation(s, u, M.Identify(u, "a"));
    M.AdmissionSpec(s1.lounge, u, TABLE, "a");
    s' := LoneOperation(s1, u, M.Join(u, TABLE));
    ReachesOn(s, s1, s');
  }

  /** Connect, identify, join and play. */
  lemma LonePlayer(s0: State, u: Addr) returns (s: State, i: int)
    requires Initial(s0) && M.SYSTEM in s0.lounge.members && TABLE in s0.lounge.members
    ensures Reaches(s0, s) && Inv(s) && s.queue == [] && Occupied(s, i) && Holder(s, i) == u
    ensures M.Ready(s.lounge, u, M.Alive) && !M.Held(s.lounge, u)
  {
    LoneConnection(s0, u);
    var s1 := Next(s0, Lounge(M.Connect(u)));
    var s2 := LoneMember(s1, u);
    s, i := LonePlay(s2, u);
    ReachesOn(s1, s2, s);
    ReachesStep(s0, Lounge(M.Connect(u)), s);
  }

  /** From the start, with only members sending `play`, a seat can come to name freed storage. */
  lemma FreedSeatInDisciplinedRun(s0: State, u: Addr)
    requires Initial(s0) && M.SYSTEM in s0.lounge.members && TABLE in s0.lounge.members
    ensures exists s, i :: Reaches(s0, s) && FreedSeat(s, u, i)
  {
    var s, i := LonePlayer(s0, u);
    var es := HolderFreedFirst(s, u, i);
    assert Leads(s, es, After(s, es));
    ReachesOn(s0, s, After(s, es));
  }
}
