/**
 The membership protocol between channels and users.

 `channel::users_` and `user::channels_` refer to each other but are updated in
 two separate critical sections, with a broadcast in between.  Every locked
 update, every snapshot and every attempt to lock a weak pointer is one event
 here, so a run is an arbitrary interleaving of the operations of any number of
 users.  One user's own operations are serialised, which the program counter
 `pc` expresses.  A user is identified by its address; an address may be reused
 after the storage is freed, and `gen` counts its incarnations.
 */
module Membership {
  import opened Wrappers

  type Addr = nat
  type Cid = nat

  const SYSTEM: Cid := 1
  const MAX_NAME := 20

  datatype Phase = Alive | Dying | Freed

  /** A `weak_ptr<user>`: locking succeeds only for the incarnation it was made from. */
  datatype Weak = Weak(addr: Addr, gen: nat)

  /** Progress of the broadcast inside `insert` and `erase`. */
  datatype Hop =
    | Snapshot   // about to copy `users_`
    // walking the copy `made`: the part still to do, and the strong pointer held, if any
    | Sending(made: set<Weak>, todo: set<Weak>, hold: Option<Addr>)

  datatype Pc =
    | Idle
    | Joining(c: Cid, hop: Hop)   // in `users_`, not yet in `channels_`
    | Leaving(c: Cid, hop: Hop)   // out of `users_`, still in `channels_`
    | InsertHook(c: Cid)          // about to call the virtual `on_insert`
    | EraseHook(c: Cid)           // about to call the virtual `on_erase`

  datatype User = User(phase: Phase, gen: nat, name: string, channels: set<Cid>, pc: Pc)

  datatype State = State(users: map<Addr, User>, members: map<Cid, set<Addr>>)

  datatype Event =
    | Connect(u: Addr)
    | Identify(u: Addr, name: string)
    | Join(u: Addr, cid: Cid)
    | Leave(u: Addr, cid: Cid)
    | Drop(u: Addr)                 // the last strong reference goes away: `~user` starts
    | Drain(u: Addr, cid: Cid)      // one iteration of the `~user` loop starts
    | Free(u: Addr)                 // `~user` returns and the storage is released
    | TakeSnapshot(u: Addr)
    | Lock(u: Addr, w: Weak)
    | Deliver(u: Addr)
    | OnInsert(u: Addr)             // `user::on_insert`
    | OnErase(u: Addr)              // `user::on_erase`
    | Hook(u: Addr)                 // the virtual `channel::on_insert` / `on_erase`

  function Init(cids: set<Cid>): State {
    State(map[], map c | c in cids :: {})
  }

  function Holding(pc: Pc): Option<Addr> {
    if (pc.Joining? || pc.Leaving?) && pc.hop.Sending? then pc.hop.hold else None
  }

  predicate Held(s: State, v: Addr) {
    exists u :: u in s.users && Holding(s.users[u].pc) == Some(v)
  }

  predicate BroadcastDone(pc: Pc) {
    (pc.Joining? || pc.Leaving?) && pc.hop.Sending? && pc.hop.todo == {} && pc.hop.hold.None?
  }

  predicate Ready(s: State, u: Addr, phase: Phase) {
    u in s.users && s.users[u].phase == phase && s.users[u].pc.Idle?
  }

  predicate Enabled(s: State, e: Event) {
    match e
    case Connect(u) => u in s.users ==> s.users[u].phase.Freed?
    case Identify(u, name) => Ready(s, u, Alive) && SYSTEM in s.members
    case Join(u, c) => Ready(s, u, Alive) && c in s.members
    case Leave(u, c) => Ready(s, u, Alive) && c in s.members
    case Drop(u) => Ready(s, u, Alive) && !Held(s, u)
    case Drain(u, c) => Ready(s, u, Dying) && c in s.users[u].channels && c in s.members
    case Free(u) => Ready(s, u, Dying) && s.users[u].channels == {}
    case TakeSnapshot(u) =>
      && u in s.users
      && (s.users[u].pc.Joining? || s.users[u].pc.Leaving?)
      && s.users[u].pc.hop.Snapshot?
      && s.users[u].pc.c in s.members
    case Lock(u, w) =>
      && u in s.users
      && (s.users[u].pc.Joining? || s.users[u].pc.Leaving?)
      && s.users[u].pc.hop.Sending?
      && s.users[u].pc.hop.hold.None?
      && w in s.users[u].pc.hop.todo
    case Deliver(u) => u in s.users && Holding(s.users[u].pc).Some?
    case OnInsert(u) => u in s.users && s.users[u].pc.Joining? && BroadcastDone(s.users[u].pc)
    case OnErase(u) => u in s.users && s.users[u].pc.Leaving? && BroadcastDone(s.users[u].pc)
    case Hook(u) => u in s.users && (s.users[u].pc.InsertHook? || s.users[u].pc.EraseHook?)
  }

  function SetPc(s: State, u: Addr, pc: Pc): State
    requires u in s.users
  {
    s.(users := s.users[u := s.users[u].(pc := pc)])
  }

  /** The first critical section of `channel::insert`; nothing happens for a present user. */
  function BeginInsert(s: State, u: Addr, c: Cid): State
    requires u in s.users && c in s.members
  {
    if u in s.members[c] then s
    else SetPc(s, u, Joining(c, Snapshot)).(members := s.members[c := s.members[c] + {u}])
  }

  /** The first critical section of `channel::erase`; nothing happens for an absent user. */
  function BeginErase(s: State, u: Addr, c: Cid): State
    requires u in s.users && c in s.members
  {
    if u !in s.members[c] then s
    else SetPc(s, u, Leaving(c, Snapshot)).(members := s.members[c := s.members[c] - {u}])
  }

  /** The weak pointers made while `users_` is locked; `gen` is read from each user's storage. */
  function Weaks(s: State, us: set<Addr>): set<Weak> {
    set v | v in us && v in s.users :: Weak(v, s.users[v].gen)
  }

  /** Whether a weak pointer can still be turned into a strong one. */
  predicate Lockable(s: State, w: Weak) {
    w.addr in s.users && s.users[w.addr].phase.Alive? && s.users[w.addr].gen == w.gen
  }

  function Next(s: State, e: Event): State
    requires Enabled(s, e)
  {
    match e
    case Connect(u) =>
      var gen := if u in s.users then s.users[u].gen + 1 else 0;
      s.(users := s.users[u := User(Alive, gen, "", {}, Idle)])
    case Identify(u, name) =>
      if |name| > MAX_NAME || s.users[u].name != "" then s
      else BeginInsert(s.(users := s.users[u := s.users[u].(name := name)]), u, SYSTEM)
    case Join(u, c) => if s.users[u].name == "" then s else BeginInsert(s, u, c)
    case Leave(u, c) => BeginErase(s, u, c)
    case Drop(u) => s.(users := s.users[u := s.users[u].(phase := Dying)])
    case Drain(u, c) => BeginErase(s, u, c)
    case Free(u) => s.(users := s.users[u := s.users[u].(phase := Freed)])
    case TakeSnapshot(u) =>
      var pc := s.users[u].pc;
      // `erase` also notifies the user that left, through a weak pointer of its own
      var self := if pc.Leaving? then {u} else {};
      var made := Weaks(s, s.members[pc.c] + self);
      SetPc(s, u, pc.(hop := Sending(made, made, None)))
    case Lock(u, w) =>
      var hop := s.users[u].pc.hop;
      var hold := if Lockable(s, w) then Some(w.addr) else None;
      SetPc(s, u, s.users[u].pc.(hop := Sending(hop.made, hop.todo - {w}, hold)))
    case Deliver(u) =>
      SetPc(s, u, s.users[u].pc.(hop := s.users[u].pc.hop.(hold := None)))
    case OnInsert(u) =>
      var c := s.users[u].pc.c;
      s.(users := s.users[u := s.users[u].(channels := s.users[u].channels + {c}, pc := InsertHook(c))])
    case OnErase(u) =>
      var c := s.users[u].pc.c;
      s.(users := s.users[u := s.users[u].(channels := s.users[u].channels - {c}, pc := EraseHook(c))])
    case Hook(u) => SetPc(s, u, Idle)
  }

  ghost predicate CanRun(s: State, es: seq<Event>)
    decreases |es|
  {
    es == [] || (Enabled(s, es[0]) && CanRun(Next(s, es[0]), es[1..]))
  }

  ghost function After(s: State, es: seq<Event>): State
    requires CanRun(s, es)
    decreases |es|
  {
    if es == [] then s else After(Next(s, es[0]), es[1..])
  }

  // ----- the invariant -----

  /** How one user and one channel see each other; they may differ only for the pair in transit. */
  predicate Agree(r: User, member: bool, c: Cid) {
    if r.pc.Joining? && r.pc.c == c then member && c !in r.channels
    else if r.pc.Leaving? && r.pc.c == c then !member && c in r.channels
    else member <==> c in r.channels
  }

  predicate UserOk(s: State, r: User) {
    && r.channels <= s.members.Keys
    && (!r.pc.Idle? ==> r.pc.c in s.members)
    && (r.phase.Freed? ==> r.channels == {} && r.pc.Idle?)
    && (r.phase.Dying? ==> !r.pc.Joining? && !r.pc.InsertHook?)
    && (r.pc.EraseHook? ==> r.pc.c !in r.channels)
    && |r.name| <= MAX_NAME
    && (r.name == "" ==> r.channels <= {SYSTEM} && (r.pc.Joining? ==> r.pc.c == SYSTEM))
  }

  predicate HoldOk(s: State, pc: Pc) {
    && ((pc.Joining? || pc.Leaving?) && pc.hop.Sending? ==> pc.hop.todo <= pc.hop.made)
    && (Holding(pc).Some? ==>
          var v := Holding(pc).value;
          && v in s.users && s.users[v].phase.Alive?
          && Weak(v, s.users[v].gen) in pc.hop.made - pc.hop.todo)
  }

  ghost predicate Inv(s: State) {
    && (forall u, c | u in s.users && c in s.members :: Agree(s.users[u], u in s.members[c], c))
    && (forall c | c in s.members :: s.members[c] <= s.users.Keys)
    && (forall u | u in s.users :: UserOk(s, s.users[u]))
    && (forall u | u in s.users :: HoldOk(s, s.users[u].pc))
  }

  /** An event changes the record and the memberships of its own user only. */
  lemma OnlyActorMoves(s: State, e: Event)
    requires Enabled(s, e)
    ensures var s' := Next(s, e);
            && s'.members.Keys == s.members.Keys
            && s'.users.Keys == s.users.Keys + {e.u}
            && (forall v | v in s.users && v != e.u :: s'.users[v] == s.users[v])
            && (forall v, c | c in s.members && v != e.u :: v in s'.members[c] <==> v in s.members[c])
  {
  }

  lemma ActorAgrees(s: State, e: Event, c: Cid)
    requires Inv(s) && Enabled(s, e) && c in s.members
    ensures c in Next(s, e).members
    ensures Agree(Next(s, e).users[e.u], e.u in Next(s, e).members[c], c)
  {
    if e.u in s.users { assert Agree(s.users[e.u], e.u in s.members[c], c) && UserOk(s, s.users[e.u]); }
  }

  lemma ActorOk(s: State, e: Event)
    requires Inv(s) && Enabled(s, e)
    ensures UserOk(Next(s, e), Next(s, e).users[e.u])
  {
    OnlyActorMoves(s, e);
    if e.u in s.users {
      var r := s.users[e.u];
      assert UserOk(s, r);
      if e.Drain? { assert Agree(r, e.u in s.members[e.cid], e.cid); }
    }
  }

  /** A user that is held cannot start to die, and its incarnation stays. */
  lemma HeldStaysAlive(s: State, e: Event, v: Addr)
    requires Enabled(s, e) && v in s.users && s.users[v].phase.Alive? && Held(s, v)
    ensures var r' := Next(s, e).users[v]; r'.phase.Alive? && r'.gen == s.users[v].gen
  {
  }

  lemma BystanderHoldOk(s: State, e: Event, u: Addr)
    requires Enabled(s, e) && u in s.users && u != e.u && HoldOk(s, s.users[u].pc)
    ensures u in Next(s, e).users && HoldOk(Next(s, e), Next(s, e).users[u].pc)
  {
    OnlyActorMoves(s, e);
    var pc := s.users[u].pc;
    if Holding(pc).Some? {
      assert Held(s, Holding(pc).value);
      HeldStaysAlive(s, e, Holding(pc).value);
    }
  }

  lemma ActorHoldOk(s: State, e: Event)
    requires Enabled(s, e) && (e.u in s.users ==> HoldOk(s, s.users[e.u].pc))
    ensures HoldOk(Next(s, e), Next(s, e).users[e.u].pc)
  {
    if e.Lock? && Lockable(s, e.w) {
      assert Weak(e.w.addr, s.users[e.w.addr].gen) == e.w;
    }
  }

  lemma StepKeepsInv(s: State, e: Event)
    requires Inv(s) && Enabled(s, e)
    ensures Inv(Next(s, e))
  {
    var s' := Next(s, e);
    OnlyActorMoves(s, e);
    forall u, c | u in s'.users && c in s'.members
      ensures Agree(s'.users[u], u in s'.members[c], c)
    {
      if u == e.u { ActorAgrees(s, e, c); } else { assert Agree(s.users[u], u in s.members[c], c); }
    }
    forall c | c in s'.members ensures s'.members[c] <= s'.users.Keys {
      forall v | v in s'.members[c] ensures v in s'.users.Keys {
        if v != e.u { assert v in s.members[c]; }
      }
    }
    forall u | u in s'.users ensures UserOk(s', s'.users[u]) && HoldOk(s', s'.users[u].pc) {
      if u == e.u {
        ActorOk(s, e);
        ActorHoldOk(s, e);
      } else {
        assert UserOk(s, s.users[u]) && HoldOk(s, s.users[u].pc);
        BystanderHoldOk(s, e, u);
      }
    }
  }

  /** Where a user stands with one channel; `Going` lasts until the channel's `on_erase` has run. */
  datatype Link = Out | In | Going

  function LinkBetween(r: User, member: bool, c: Cid): Link {
    if member then In
    else if (r.pc.Leaving? && r.pc.c == c) || r.pc == EraseHook(c) then Going
    else Out
  }

  function LinkOf(s: State, u: Addr, c: Cid): Link {
    if u !in s.users then Out else LinkBetween(s.users[u], c in s.members && u in s.members[c], c)
  }

  /** A user goes round Out, In, Going, and only the call of `on_erase` closes the round. */
  ghost predicate GoesRound(s: State, e: Event, c: Cid)
    requires Enabled(s, e)
  {
    var closes := e.Hook? && s.users[e.u].pc == EraseHook(c);
    match LinkOf(s, e.u, c)
    case Out => !closes && LinkOf(Next(s, e), e.u, c) != Going
    case In => !closes && LinkOf(Next(s, e), e.u, c) != Out
    case Going => LinkOf(Next(s, e), e.u, c) == if closes then Out else Going
  }

  predicate ChangesUsers(e: Event) {
    e.Join? || e.Identify? || e.Leave? || e.Drain?
  }

  lemma LockedLinkSteps(s: State, e: Event, c: Cid)
    requires Inv(s) && Enabled(s, e) && ChangesUsers(e)
    ensures GoesRound(s, e, c)
  {
    assert UserOk(s, s.users[e.u]);
    if c in s.members { assert Agree(s.users[e.u], e.u in s.members[c], c); }
  }

  lemma OtherLinkSteps(s: State, e: Event, c: Cid)
    requires Inv(s) && Enabled(s, e) && !ChangesUsers(e)
    ensures GoesRound(s, e, c)
  {
    assert Next(s, e).members == s.members;
    if e.u in s.users {
      assert UserOk(s, s.users[e.u]);
      if c in s.members { assert Agree(s.users[e.u], e.u in s.members[c], c); }
    }
  }

  lemma LinkSteps(s: State, e: Event, c: Cid)
    requires Inv(s) && Enabled(s, e)
    ensures GoesRound(s, e, c)
  {
    if ChangesUsers(e) { LockedLinkSteps(s, e, c); } else { OtherLinkSteps(s, e, c); }
  }

  lemma Prepend(s: State, e: Event, es: seq<Event>)
    requires Enabled(s, e) && CanRun(Next(s, e), es)
    ensures CanRun(s, [e] + es) && After(s, [e] + es) == After(Next(s, e), es)
  {
    assert ([e] + es)[1..] == es;
  }

  lemma {:induction false} RunKeepsInv(s: State, es: seq<Event>)
    requires Inv(s) && CanRun(s, es)
    ensures Inv(After(s, es))
    decreases |es|
  {
    if es != [] {
      StepKeepsInv(s, es[0]);
      RunKeepsInv(Next(s, es[0]), es[1..]);
    }
  }

  // ----- what every reachable state guarantees -----

  ghost predicate Reachable(s: State) {
    exists cids: set<Cid>, es: seq<Event> :: CanRun(Init(cids), es) && s == After(Init(cids), es)
  }

  lemma ReachableInv(s: State)
    requires Reachable(s)
    ensures Inv(s)
  {
    var cids: set<Cid>, es: seq<Event> :| CanRun(Init(cids), es) && s == After(Init(cids), es);
    RunKeepsInv(Init(cids), es);
  }

  predicate InTransit(pc: Pc, c: Cid) {
    (pc.Joining? || pc.Leaving?) && pc.c == c
  }

  /**
   The two sets mirror each other, except for the single pair a user is moving
   between its two locked updates, where they must differ.
   */
  lemma SetsMirror(s: State, u: Addr, c: Cid)
    requires Reachable(s) && u in s.users && c in s.members
    ensures (u in s.members[c] <==> c in s.users[u].channels) <==> !InTransit(s.users[u].pc, c)
  {
    ReachableInv(s);
    assert Agree(s.users[u], u in s.members[c], c);
  }

  /** Neither BOOST_VERIFY in `user::on_insert` and `user::on_erase` can fail. */
  lemma VerifyNeverFails(s: State, u: Addr)
    requires Reachable(s)
    ensures Enabled(s, OnInsert(u)) ==> s.users[u].pc.c !in s.users[u].channels
    ensures Enabled(s, OnErase(u)) ==> s.users[u].pc.c in s.users[u].channels
  {
    ReachableInv(s);
    if u in s.users && !s.users[u].pc.Idle? {
      var c := s.users[u].pc.c;
      assert UserOk(s, s.users[u]);
      assert Agree(s.users[u], u in s.members[c], c);
    }
  }

  /** A freed user is in no channel, so `users_` never holds a dangling pointer. */
  lemma NoDanglingMember(s: State, c: Cid, v: Addr)
    requires Reachable(s) && c in s.members && v in s.members[c]
    ensures v in s.users && !s.users[v].phase.Freed?
  {
    ReachableInv(s);
    assert Agree(s.users[v], true, c) && UserOk(s, s.users[v]);
  }

  /** The snapshot in `channel::send` dereferences only users whose storage is not freed. */
  lemma SnapshotReadsLiveStorage(s: State, u: Addr)
    requires Reachable(s) && Enabled(s, TakeSnapshot(u))
    ensures var pc := s.users[u].pc;
            && (forall v | v in s.members[pc.c] :: v in s.users && !s.users[v].phase.Freed?)
            && |Next(s, TakeSnapshot(u)).users[u].pc.hop.todo|
               == |s.members[pc.c]| + (if pc.Leaving? then 1 else 0)
  {
    var pc := s.users[u].pc;
    forall v | v in s.members[pc.c] ensures v in s.users && !s.users[v].phase.Freed? {
      NoDanglingMember(s, pc.c, v);
    }
    ReachableInv(s);
    assert Agree(s.users[u], u in s.members[pc.c], pc.c);
    var us := s.members[pc.c] + (if pc.Leaving? then {u} else {});
    WeaksCount(s, us);
  }

  /** One weak pointer is made per listed user. */
  lemma {:induction false} WeaksCount(s: State, us: set<Addr>)
    requires us <= s.users.Keys
    ensures |Weaks(s, us)| == |us|
    decreases us
  {
    if us == {} {
      assert Weaks(s, us) == {};
    } else {
      var v :| v in us;
      WeaksCount(s, us - {v});
      assert Weaks(s, us) == Weaks(s, us - {v}) + {Weak(v, s.users[v].gen)};
    }
  }

  /**
   A message is only ever handed to a user that is alive and is the very
   incarnation found in `users_` (or the leaver itself) when the copy was made:
   a new user at a reused address never receives an old broadcast.
   */
  lemma DeliverReachesLiveUser(s: State, u: Addr)
    requires Reachable(s) && Enabled(s, Deliver(u))
    ensures var v := Holding(s.users[u].pc).value;
            v in s.users && s.users[v].phase.Alive? && Weak(v, s.users[v].gen) in s.users[u].pc.hop.made
  {
    ReachableInv(s);
    assert HoldOk(s, s.users[u].pc);
  }

  // ----- who receives a broadcast -----

  /** A weak pointer that can be locked leads to a delivery. */
  lemma LockLeadsToDeliver(s: State, u: Addr, w: Weak)
    requires Enabled(s, Lock(u, w))
    ensures var s' := Next(s, Lock(u, w));
            if w.addr in s.users && s.users[w.addr].phase.Alive? && s.users[w.addr].gen == w.gen
            then Enabled(s', Deliver(u)) && Holding(s'.users[u].pc) == Some(w.addr)
            else !Enabled(s', Deliver(u))
  {
  }

  /** How often the broadcast of `u` is handed to the user that `w` was made from. */
  ghost function Deliveries(s: State, es: seq<Event>, u: Addr, w: Weak): nat
    requires CanRun(s, es)
    decreases |es|
  {
    if es == [] then 0
    else (if es[0] == Deliver(u) && Holds(s, u, w) then 1 else 0) + Deliveries(Next(s, es[0]), es[1..], u, w)
  }

  /** The strong pointer `u` holds is to the user that `w` was made from. */
  predicate Holds(s: State, u: Addr, w: Weak) {
    && u in s.users && Holding(s.users[u].pc) == Some(w.addr)
    && w.addr in s.users && s.users[w.addr].gen == w.gen
  }

  predicate Sends(s: State, u: Addr) {
    u in s.users && (s.users[u].pc.Joining? || s.users[u].pc.Leaving?) && s.users[u].pc.hop.Sending?
  }

  /** Whether `w` is still to be handed the message: on the list, or held. */
  predicate Expects(s: State, u: Addr, w: Weak)
    requires Sends(s, u)
  {
    w in s.users[u].pc.hop.todo || Holds(s, u, w)
  }

  /** The steps of a broadcast, between the copy and the second critical section. */
  predicate InBroadcast(e: Event, u: Addr) {
    e.u == u ==> e.Lock? || e.Deliver?
  }

  /** An incarnation that is gone stays gone. */
  lemma GoneForGood(s: State, e: Event, w: Weak)
    requires Inv(s) && Enabled(s, e) && w.addr in s.users && w.gen <= s.users[w.addr].gen
    ensures w.addr in Next(s, e).users && w.gen <= Next(s, e).users[w.addr].gen
    ensures Lockable(Next(s, e), w) ==> Lockable(s, w)
  {
    OnlyActorMoves(s, e);
  }

  lemma OwnBroadcastStep(s: State, e: Event, w: Weak)
    requires Inv(s) && Enabled(s, e) && Sends(s, e.u) && (e.Lock? || e.Deliver?)
    ensures var s' := Next(s, e);
            var due, due', sent := Expects(s, e.u, w), Expects(s', e.u, w), e.Deliver? && Holds(s, e.u, w);
            && Sends(s', e.u)
            && (due' || sent ==> due) && !(due' && sent)
            && (due && Lockable(s, w) ==> due' || sent)
  {
    assert HoldOk(s, s.users[e.u].pc);
  }

  lemma OtherBroadcastStep(s: State, e: Event, u: Addr, w: Weak)
    requires Inv(s) && Enabled(s, e) && Sends(s, u) && e.u != u
    requires w.addr in s.users && w.gen <= s.users[w.addr].gen
    ensures Sends(Next(s, e), u) && (Expects(Next(s, e), u, w) <==> Expects(s, u, w))
  {
    OnlyActorMoves(s, e);
    assert HoldOk(s, s.users[u].pc);
    if Holding(s.users[u].pc).Some? { HeldStaysAlive(s, e, Holding(s.users[u].pc).value); }
  }

  /** Over a stretch of the broadcast: what was due to `w` is handed over at most once, and not lost while `w` lives. */
  lemma {:induction false} BroadcastBalance(s: State, es: seq<Event>, u: Addr, w: Weak)
    requires Inv(s) && CanRun(s, es) && Sends(s, u) && forall e | e in es :: InBroadcast(e, u)
    requires w.addr in s.users && w.gen <= s.users[w.addr].gen
    ensures Sends(After(s, es), u)
    ensures var due, due' := if Expects(s, u, w) then 1 else 0, if Expects(After(s, es), u, w) then 1 else 0;
            && Deliveries(s, es, u, w) + due' <= due
            && (Lockable(After(s, es), w) ==> Deliveries(s, es, u, w) + due' == due && Lockable(s, w))
    decreases |es|
  {
    if es != [] {
      var e := es[0];
      assert e in es;
      StepKeepsInv(s, e);
      GoneForGood(s, e, w);
      if e.u == u { OwnBroadcastStep(s, e, w); } else { OtherBroadcastStep(s, e, u, w); }
      BroadcastBalance(Next(s, e), es[1..], u, w);
    }
  }

  /** Who is not in the copy does not receive it, not even at the address of one who is. */
  lemma {:induction false} OnlyCopiedReceive(s: State, es: seq<Event>, u: Addr, w: Weak)
    requires Inv(s) && CanRun(s, es) && Sends(s, u) && forall e | e in es :: InBroadcast(e, u)
    requires w !in s.users[u].pc.hop.made
    ensures Deliveries(s, es, u, w) == 0
    decreases |es|
  {
    if es != [] {
      var e := es[0];
      assert e in es;
      assert HoldOk(s, s.users[u].pc);
      StepKeepsInv(s, e);
      OnlyActorMoves(s, e);
      OnlyCopiedReceive(Next(s, e), es[1..], u, w);
    }
  }

  /** The users a broadcast is meant for: those listed when the copy is made, and the leaver itself. */
  predicate Addressed(s: State, u: Addr, w: Weak)
    requires Enabled(s, TakeSnapshot(u))
  {
    && w.addr in s.users && s.users[w.addr].gen == w.gen
    && (w.addr in s.members[s.users[u].pc.c] || (s.users[u].pc.Leaving? && w.addr == u))
  }

  /**
   The broadcast of `insert` and `erase`, from the copy to the second critical section, under
   any interleaving: a user listed when the copy was made, and in `erase` the leaver, receives
   it at most once, and exactly once if it is still alive at the end; nobody else receives it.
   */
  lemma BroadcastReachesMembers(s: State, u: Addr, es: seq<Event>, w: Weak)
    requires Reachable(s) && Enabled(s, TakeSnapshot(u))
    requires CanRun(Next(s, TakeSnapshot(u)), es) && forall e | e in es :: InBroadcast(e, u)
    requires var s' := After(Next(s, TakeSnapshot(u)), es); u in s'.users && BroadcastDone(s'.users[u].pc)
    ensures var s1 := Next(s, TakeSnapshot(u));
            && Deliveries(s1, es, u, w) <= (if Addressed(s, u, w) then 1 else 0)
            && var r := After(s1, es).users;
               (Addressed(s, u, w) && w.addr in r && r[w.addr].phase.Alive? && r[w.addr].gen == w.gen
                ==> Deliveries(s1, es, u, w) == 1)
  {
    ReachableInv(s);
    StepKeepsInv(s, TakeSnapshot(u));
    var s1 := Next(s, TakeSnapshot(u));
    var c := s.users[u].pc.c;
    assert s1.users[u].pc.hop.made == Weaks(s, s.members[c] + (if s.users[u].pc.Leaving? then {u} else {}));
    if Addressed(s, u, w) {
      BroadcastBalance(s1, es, u, w);
    } else {
      OnlyCopiedReceive(s1, es, u, w);
    }
  }

  // ----- operations have their effect -----

  /** `join` admits exactly the users that have a name, `identify` those whose new name is accepted. */
  lemma AdmissionSpec(s: State, u: Addr, c: Cid, name: string)
    requires Ready(s, u, Alive) && c in s.members && SYSTEM in s.members
    ensures u in Next(s, Join(u, c)).members[c] <==> u in s.members[c] || s.users[u].name != ""
    ensures u !in Next(s, Leave(u, c)).members[c]
    ensures var r' := Next(s, Identify(u, name)).users[u];
            r'.name == if s.users[u].name == "" && |name| <= 20 then name else s.users[u].name
    ensures u in Next(s, Identify(u, name)).members[SYSTEM]
            <==> u in s.members[SYSTEM] || (s.users[u].name == "" && |name| <= 20)
  {
  }

  /** What is left of an operation after its first critical section. */
  function Remaining(pc: Pc): (nat, nat) {
    match pc
    case Idle => (0, 0)
    case InsertHook(_) => (1, 0)
    case EraseHook(_) => (1, 0)
    case _ =>
      if pc.hop.Snapshot? then (3, 0)
      else (2, 2 * |pc.hop.todo| + (if pc.hop.hold.Some? then 1 else 0))
  }

  /** The next step of a user in the middle of an operation. */
  ghost function OperationEvent(u: Addr, pc: Pc): Event
    requires !pc.Idle?
  {
    if pc.InsertHook? || pc.EraseHook? then Hook(u)
    else if pc.hop.Snapshot? then TakeSnapshot(u)
    else if pc.hop.hold.Some? then Deliver(u)
    else if pc.hop.todo != {} then (var w :| w in pc.hop.todo; Lock(u, w))
    else if pc.Joining? then OnInsert(u)
    else OnErase(u)
  }

  predicate Less(a: (nat, nat), b: (nat, nat)) {
    a.0 < b.0 || (a.0 == b.0 && a.1 < b.1)
  }

  predicate SameUser(r: User, r': User) {
    r.phase == r'.phase && r.gen == r'.gen && r.name == r'.name
  }

  /** Every step of a user in the middle of an operation brings the operation closer to its end. */
  lemma OperationDescends(s: State, e: Event)
    requires Inv(s) && Enabled(s, e) && e.u in s.users && !s.users[e.u].pc.Idle?
    ensures var pc, pc' := s.users[e.u].pc, Next(s, e).users[e.u].pc;
            && Less(Remaining(pc'), Remaining(pc)) && (!pc'.Idle? ==> pc'.c == pc.c)
            && Next(s, e).members == s.members && SameUser(s.users[e.u], Next(s, e).users[e.u])
  {
    assert UserOk(s, s.users[e.u]);
    if e.Lock? {
      assert Next(s, e).users[e.u].pc.hop.todo == s.users[e.u].pc.hop.todo - {e.w};
    }
  }

  /** No state blocks it: it has a next step whatever all other users are doing. */
  lemma OperationNeverBlocks(s: State, u: Addr)
    requires Inv(s) && u in s.users && !s.users[u].pc.Idle?
    ensures Enabled(s, OperationEvent(u, s.users[u].pc)) && OperationEvent(u, s.users[u].pc).u == u
  {
    assert UserOk(s, s.users[u]);
  }

  /**
   Every `insert` and `erase` that has begun can be carried to its end whatever
   state the others are in, and then both sets agree on its channel.
   */
  lemma {:induction false} OperationCompletes(s: State, u: Addr) returns (es: seq<Event>)
    requires Inv(s) && u in s.users && !s.users[u].pc.Idle?
    ensures forall e | e in es :: e.u == u && !e.Drop?
    ensures CanRun(s, es) && u in After(s, es).users && After(s, es).users[u].pc.Idle?
    ensures SameUser(s.users[u], After(s, es).users[u])
    ensures var c := s.users[u].pc.c;
            && After(s, es).members == s.members && c in s.members
            && (u in s.members[c] <==> c in After(s, es).users[u].channels)
    decreases Remaining(s.users[u].pc).0, Remaining(s.users[u].pc).1
  {
    OperationNeverBlocks(s, u);
    var e := OperationEvent(u, s.users[u].pc);
    var c := s.users[u].pc.c;
    OperationDescends(s, e);
    StepKeepsInv(s, e);
    var s' := Next(s, e);
    if s'.users[u].pc.Idle? {
      es := [e];
      assert es[1..] == [];
      assert Agree(s'.users[u], u in s'.members[c], c);
    } else {
      var rest := OperationCompletes(s', u);
      Prepend(s, e, rest);
      es := [e] + rest;
    }
  }

  ghost predicate IdleDuring(s: State, es: seq<Event>, u: Addr)
    requires CanRun(s, es)
    decreases |es|
  {
    || (u in s.users && s.users[u].pc.Idle?)
    || (es != [] && IdleDuring(Next(s, es[0]), es[1..], u))
  }

  /**
   Under any interleaving, a user in the middle of an operation is either done with it
   on the way or strictly closer to its end if it took a step, and exactly where it was
   if it took none.
   */
  lemma {:induction false} OperationDescendsInEveryRun(s: State, es: seq<Event>, u: Addr)
    requires Inv(s) && CanRun(s, es) && u in s.users && !s.users[u].pc.Idle?
    ensures IdleDuring(s, es, u)
            || (&& u in After(s, es).users
                && if exists e :: e in es && e.u == u
                   then Less(Remaining(After(s, es).users[u].pc), Remaining(s.users[u].pc))
                   else After(s, es).users[u] == s.users[u])
    decreases |es|
  {
    if es != [] {
      var e, s' := es[0], Next(s, es[0]);
      StepKeepsInv(s, e);
      assert es == [e] + es[1..];
      if e.u == u {
        OperationDescends(s, e);
        if s'.users[u].pc.Idle? {
          assert IdleDuring(s', es[1..], u);
        } else {
          OperationDescendsInEveryRun(s', es[1..], u);
        }
      } else {
        OnlyActorMoves(s, e);
        OperationDescendsInEveryRun(s', es[1..], u);
      }
    }
  }

  // ----- the `~user` loop -----

  /** What is left of `~user`, compared lexicographically: channels, stage of this erase, sends. */
  function Rank(r: User): (nat, nat, nat) {
    ( |r.channels|,
      match r.pc
      case Idle => 3
      case Joining(_, _) => 0
      case InsertHook(_) => 0
      case EraseHook(_) => 4
      case Leaving(_, hop) => if hop.Snapshot? then 2 else 1,
      if r.pc.Leaving? && r.pc.hop.Sending?
        then 2 * |r.pc.hop.todo| + (if r.pc.hop.hold.Some? then 1 else 0) else 0 )
  }

  predicate Below(a: (nat, nat, nat), b: (nat, nat, nat)) {
    a.0 < b.0 || (a.0 == b.0 && (a.1 < b.1 || (a.1 == b.1 && a.2 < b.2)))
  }

  /**
   Every step of a user in `~user` brings it closer to its end; above all, the
   `erase` called by the loop cannot return false and leave `channels_` as it was.
   */
  lemma DrainDescends(s: State, e: Event)
    requires Inv(s) && Enabled(s, e) && e.u in s.users && s.users[e.u].phase.Dying?
    ensures var r' := Next(s, e).users[e.u];
            r'.phase.Freed? || (r'.phase.Dying? && Below(Rank(r'), Rank(s.users[e.u])))
  {
    var r := s.users[e.u];
    assert UserOk(s, r);
    match e
    case Drain(u, c) => assert Agree(r, u in s.members[c], c);
    case OnErase(u) =>
      assert Agree(r, u in s.members[r.pc.c], r.pc.c);
      assert Next(s, e).users[u].channels == r.channels - {r.pc.c};
    case Lock(u, w) => assert Next(s, e).users[u].pc.hop.todo == r.pc.hop.todo - {w};
    case _ =>
  }

  /** The next step of a user in `~user`. */
  ghost function DrainEvent(s: State, u: Addr): Event
    requires u in s.users && s.users[u].phase.Dying?
    requires !s.users[u].pc.Joining? && !s.users[u].pc.InsertHook?
  {
    var r := s.users[u];
    match r.pc
    case Idle => if r.channels == {} then Free(u) else (var c :| c in r.channels; Drain(u, c))
    case EraseHook(_) => Hook(u)
    case Leaving(_, hop) =>
      if hop.Snapshot? then TakeSnapshot(u)
      else if hop.hold.Some? then Deliver(u)
      else if hop.todo == {} then OnErase(u)
      else (var w :| w in hop.todo; Lock(u, w))
  }

  /** No state blocks `~user`: it has a next step whatever all other users are doing. */
  lemma DrainNeverBlocks(s: State, u: Addr)
    requires Inv(s) && u in s.users && s.users[u].phase.Dying?
    ensures UserOk(s, s.users[u])
    ensures Enabled(s, DrainEvent(s, u)) && DrainEvent(s, u).u == u
  {
  }

  /** The steps of other users do not touch what `DrainDescends` measures. */
  lemma DrainUndisturbed(s: State, e: Event, u: Addr)
    requires Enabled(s, e) && u in s.users && e.u != u
    ensures u in Next(s, e).users && Next(s, e).users[u] == s.users[u]
  {
    OnlyActorMoves(s, e);
  }

  /** `~user` terminates: from any state it runs to the release of the storage, leaving every channel. */
  lemma {:induction false} DrainCompletes(s: State, u: Addr) returns (es: seq<Event>)
    requires Inv(s) && u in s.users && s.users[u].phase.Dying?
    ensures forall e | e in es :: e.u == u && !e.Drop?
    ensures CanRun(s, es) && u in After(s, es).users && After(s, es).users[u].phase.Freed?
    ensures forall c | c in After(s, es).members :: u !in After(s, es).members[c]
    decreases Rank(s.users[u]).0, Rank(s.users[u]).1, Rank(s.users[u]).2
  {
    DrainNeverBlocks(s, u);
    var e := DrainEvent(s, u);
    var s' := Next(s, e);
    DrainDescends(s, e);
    StepKeepsInv(s, e);
    if s'.users[u].phase.Freed? {
      es := [e];
      assert es[1..] == [];
      forall c | c in s'.members ensures u !in s'.members[c] {
        assert Agree(s'.users[u], u in s'.members[c], c) && UserOk(s', s'.users[u]);
      }
    } else {
      var rest := DrainCompletes(s', u);
      Prepend(s, e, rest);
      es := [e] + rest;
    }
  }

  ghost predicate FreedDuring(s: State, es: seq<Event>, u: Addr)
    requires CanRun(s, es)
    decreases |es|
  {
    || (u in s.users && s.users[u].phase.Freed?)
    || (es != [] && FreedDuring(Next(s, es[0]), es[1..], u))
  }

  /**
   Under any interleaving, a user in `~user` is either freed on the way or strictly
   closer to it if it took a step, and exactly where it was if it took none.
   */
  lemma {:induction false} DrainDescendsInEveryRun(s: State, es: seq<Event>, u: Addr)
    requires Inv(s) && CanRun(s, es) && u in s.users && s.users[u].phase.Dying?
    ensures FreedDuring(s, es, u)
            || (&& u in After(s, es).users && After(s, es).users[u].phase.Dying?
                && if exists e :: e in es && e.u == u
                   then Below(Rank(After(s, es).users[u]), Rank(s.users[u]))
                   else After(s, es).users[u] == s.users[u])
    decreases |es|
  {
    if es != [] {
      var e, s' := es[0], Next(s, es[0]);
      StepKeepsInv(s, e);
      assert es == [e] + es[1..];
      if e.u == u {
        DrainDescends(s, e);
        if s'.users[u].phase.Freed? {
          assert FreedDuring(s', es[1..], u);
        } else {
          DrainDescendsInEveryRun(s', es[1..], u);
        }
      } else {
        DrainUndisturbed(s, e, u);
        DrainDescendsInEveryRun(s', es[1..], u);
      }
    }
  }

  // ----- names -----

  lemma StepKeepsName(s: State, e: Event, u: Addr)
    requires Enabled(s, e) && u in s.users
    ensures var r' := Next(s, e).users[u];
            && r'.gen >= s.users[u].gen
            && (r'.gen == s.users[u].gen && s.users[u].name != "" ==> r'.name == s.users[u].name)
  {
  }

  /** Once set, a user's name stays what it is for as long as that user exists. */
  lemma {:induction false} NameNeverChanges(s: State, es: seq<Event>, u: Addr)
    requires CanRun(s, es) && u in s.users
    ensures var s' := After(s, es);
            && u in s'.users && s'.users[u].gen >= s.users[u].gen
            && (s'.users[u].gen == s.users[u].gen && s.users[u].name != ""
                ==> s'.users[u].name == s.users[u].name)
    decreases |es|
  {
    if es != [] {
      OnlyActorMoves(s, es[0]);
      StepKeepsName(s, es[0], u);
      NameNeverChanges(Next(s, es[0]), es[1..], u);
    }
  }

  /** Every member of a channel other than System carries a name of 1 to 20 bytes. */
  lemma MembersAreNamed(s: State, c: Cid, u: Addr)
    requires Reachable(s) && c in s.members && c != SYSTEM && u in s.members[c]
    ensures u in s.users && 1 <= |s.users[u].name| <= 20
  {
    ReachableInv(s);
    assert Agree(s.users[u], true, c) && UserOk(s, s.users[u]);
  }

  /** The System channel makes no such promise: an empty name is accepted by `identify`. */
  lemma SystemAdmitsEmptyName()
    ensures exists s, u :: Reachable(s) && SYSTEM in s.members && u in s.members[SYSTEM]
                           && u in s.users && s.users[u].name == ""
  {
    var s0 := Init({SYSTEM});
    var s1 := Next(s0, Connect(7));
    var s2 := Next(s1, Identify(7, ""));
    Prepend(s1, Identify(7, ""), []);
    Prepend(s0, Connect(7), [Identify(7, "")] + []);
    assert Reachable(s2) && 7 in s2.members[SYSTEM];
  }
}
