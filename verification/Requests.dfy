/**
 The life of a request in the running server: received by a session's read loop,
 checked against the state of the lounge, carried out there or posted to the
 table's strand, and answered.

 A state is the lounge and table of `TableStrand` together with the books kept
 here: who asked for what, which calls are under way, and which replies were sent.
 An `rpc_call` travels as a `Ticket`, inside the handler that owns it.  An exception
 that is no `rpc_error` is caught by nobody and ends the process: `down`.
 */
module Requests {
  import opened Wrappers
  import R = Rpc
  import M = Membership
  import G = Game
  import T = TableStrand

  type Addr = M.Addr

  datatype Request = Request(u: Addr, jv: R.Json)

  datatype Ticket = Ticket(serial: nat, u: Addr, call: R.Call)

  /** A response object; success replies carry no error. */
  datatype Reply = Reply(serial: nat, to: Addr, id: R.Json, error: Option<int>)

  datatype Books = Books(
    requests: seq<Request>,
    tickets: seq<Option<Ticket>>,   // for each handler on the strand, the call it owns
    busy: map<Addr, Ticket>,        // for each user in `insert` or `erase`, the call that asked for it
    replies: seq<Reply>,
    thrown: set<nat>,               // the call whose exception ended the process
    down: bool)

  datatype State = State(world: T.State, books: Books)

  const NO_BOOKS := Books([], [], map[], [], {}, false)

  datatype Event =
    | Receive(u: Addr, jv: R.Json)
    | Step(e: M.Event)              // any step of the lounge that is not the beginning of a request
    | RunHead(card: G.Card)

  // ----- what the channels decide -----

  datatype Decision =
    | Answer(error: Option<int>)
    | Begin(e: M.Event)             // `insert` or `erase` starts
    | Post(call: T.Call)            // the call is moved to the table's strand
    | Escape

  function KindOf(cid: nat): R.Kind {
    if cid == M.SYSTEM then R.System else if cid == T.TABLE then R.Table else R.Room
  }

  function GameCall(name: string): T.Call {
    if name == "play" then T.Play
    else if name == "watch" then T.Watch
    else if name == "bet" then T.Bet
    else if name == "start" then T.Start
    else T.HitOrStand
  }

  /** `channel::dispatch` and the `on_dispatch` of the three channels. */
  function OnChannel(m: M.State, u: Addr, cid: nat, c: R.Call): Decision
    requires u in m.users && cid in m.members
  {
    var fail := Answer(Some(R.INVALID_PARAMS));
    if c.method_ == "join" then
      if m.users[u].name == "" || u in m.members[cid] then fail else Begin(M.Join(u, cid))
    else if c.method_ == "leave" then
      if u !in m.members[cid] then fail else Begin(M.Leave(u, cid))
    else if c.method_ !in R.Methods(KindOf(cid)) then Answer(Some(R.METHOD_NOT_FOUND))
    else match KindOf(cid)
      case System =>
        if c.method_ != "identify" then Answer(None)
        else if !R.CheckedString(c.params, "name") then fail
        else if |c.params.fields["name"].s| > M.MAX_NAME || m.users[u].name != "" then fail
        else Begin(M.Identify(u, c.params.fields["name"].s))
      case Room =>
        if m.users[u].name == "" || u !in m.members[cid] || !R.CheckedString(c.params, "message")
        then fail else Answer(None)
      case Table => Post(GameCall(c.method_))
  }

  predicate Begins(e: M.Event) {
    e.Join? || e.Leave? || e.Identify?
  }

  function Decide(m: M.State, u: Addr, jv: R.Json): (d: Decision)
    requires M.Ready(m, u, M.Alive)
    ensures d.Begin? ==> Begins(d.e) && d.e.u == u && M.Enabled(m, d.e)
  {
    match R.RouteOf(m.members.Keys, jv)
    case Refused(code) => Answer(Some(code))
    case Unconvertible => Escape
    case To(cid, c) => OnChannel(m, u, cid, c)
  }

  // ----- steps -----

  /** `complete`: nothing is sent for a call without an id. */
  function Replied(b: Books, tk: Ticket, error: Option<int>): Books {
    if tk.call.id.None? then b
    else b.(replies := b.replies + [Reply(tk.serial, tk.u, tk.call.id.value, error)])
  }

  /** Whether the head of the strand is a `start` for a seat whose hand is full. */
  predicate Overflowing(w: T.State) {
    w.queue != [] && w.queue[0].DoCall? && w.queue[0].call.Start? && !G.HasRoom(w.table)
  }

  /** What the posted handlers report. */
  function TableError(t: G.Table, job: T.Job): Option<int> {
    var refused :=
      match job
      case DoPlay(u, _) => G.Join(t, u).1.Refused?
      case DoCall(u, call, _) => (call.Watch? && G.Leave(t, u).1.Refused?) || (call.Bet? && G.Bet(t, u).1.Refused?)
      case _ => false;
    if refused then Some(R.INVALID_PARAMS) else None
  }

  predicate Enabled(s: State, e: Event) {
    && !s.books.down
    && match e
       case Receive(u, _) => M.Ready(s.world.lounge, u, M.Alive)
       case Step(e) => T.Enabled(s.world, T.Lounge(e)) && !Begins(e)
       case RunHead(_) => s.world.queue != []
  }

  function Filed(b: Books, u: Addr, jv: R.Json): Books {
    b.(requests := b.requests + [Request(u, jv)])
  }

  function NewTicket(b: Books, u: Addr, jv: R.Json): Ticket {
    Ticket(|b.requests|, u, R.Extract(jv).0)
  }

  /** An exception leaves the call's handler, and ends the process. */
  function Thrown(b: Books, owned: Option<Ticket>): Books {
    b.(thrown := b.thrown + (if owned.Some? then {owned.value.serial} else {}), down := true)
  }

  function Received(s: State, u: Addr, jv: R.Json): State
    requires Enabled(s, Receive(u, jv))
  {
    var b, tk := Filed(s.books, u, jv), NewTicket(s.books, u, jv);
    match Decide(s.world.lounge, u, jv)
    case Answer(error) => s.(books := Replied(b, tk, error))
    case Begin(e) =>
      var w := T.Next(s.world, T.Lounge(e));
      // `identify` completes even if the user is in the channel already
      State(w, if w.lounge.users[u].pc.Idle? then Replied(b, tk, None) else b.(busy := b.busy[u := tk]))
    case Post(call) => State(T.Next(s.world, T.Dispatch(u, call)), b.(tickets := b.tickets + [Some(tk)]))
    case Escape => s.(books := Thrown(b, Some(tk)))
  }

  /** The `insert` or `erase` of `u` returns. */
  function WorkDone(b: Books, u: Addr): Books
    requires u in b.busy
  {
    Replied(b.(busy := b.busy - {u}), b.busy[u], None)
  }

  function Stepped(s: State, e: M.Event): State
    requires Enabled(s, Step(e))
  {
    var b := if T.Posted(s.world, e) == [] then s.books else s.books.(tickets := s.books.tickets + [None]);
    State(T.Next(s.world, T.Lounge(e)), if e.Hook? && e.u in b.busy then WorkDone(b, e.u) else b)
  }

  /** The call owned by the head of the strand. */
  function HeadTicket(b: Books): Option<Ticket> {
    if b.tickets == [] then None else b.tickets[0]
  }

  function HeadRun(s: State, card: G.Card): State
    requires Enabled(s, RunHead(card))
  {
    var tk := HeadTicket(s.books);
    var b := s.books.(tickets := if s.books.tickets == [] then [] else s.books.tickets[1..]);
    if Overflowing(s.world) then
      State(s.world.(queue := s.world.queue[1..]), Thrown(b, tk))
    else
      State(T.Next(s.world, T.RunHead(card)),
            if tk.Some? then Replied(b, tk.value, TableError(s.world.table, s.world.queue[0])) else b)
  }

  function Next(s: State, e: Event): State
    requires Enabled(s, e)
  {
    match e
    case Receive(u, jv) => Received(s, u, jv)
    case Step(e) => Stepped(s, e)
    case RunHead(card) => HeadRun(s, card)
  }

  ghost predicate CanRun(s: State, es: seq<Event>)
    decreases |es|
  {
    es == [] || (Enabled(s, es[0]) && CanRun(Next(s, es[0]), es[1..]))
  }

  ghost function After(s: State, es: seq<Event>): State
    requires CanRun(s, es)
    decreases |es|
  {
    if es == [] then s else After(Next(s, es[0]), es[1..])
  }

  ghost predicate Initial(s: State) {
    T.Initial(s.world) && s.books == NO_BOOKS
  }

  // ----- the world -----

  function Cids(s: State): set<nat> {
    s.world.lounge.members.Keys
  }

  lemma StepKeepsCids(s: State, e: Event)
    requires Enabled(s, e)
    ensures Cids(Next(s, e)) == Cids(s)
  {
    match e
    case Receive(u, jv) =>
      var d := Decide(s.world.lounge, u, jv);
      if d.Begin? { M.OnlyActorMoves(s.world.lounge, d.e); }
    case Step(e) => M.OnlyActorMoves(s.world.lounge, e);
    case RunHead(_) =>
  }

  /** The lounge and the table stay well formed. */
  lemma StepKeepsShape(s: State, e: Event)
    requires T.Shape(s.world) && Enabled(s, e)
    ensures T.Shape(Next(s, e).world)
  {
    match e
    case Receive(u, jv) =>
      var d := Decide(s.world.lounge, u, jv);
      if d.Begin? { M.StepKeepsInv(s.world.lounge, d.e); }
    case Step(e) => M.StepKeepsInv(s.world.lounge, e);
    case RunHead(card) =>
      if !Overflowing(s.world) { T.RunKeepsShape(s.world, card); }
  }

  // ----- calls under way belong to their requests -----

  /** A ticket carries what its request said. */
  predicate Fits(b: Books, tk: Ticket) {
    && tk.serial < |b.requests| && b.requests[tk.serial].u == tk.u
    && tk.call == R.Extract(b.requests[tk.serial].jv).0
  }

  predicate IsCall(job: T.Job) {
    job.DoPlay? || job.DoCall?
  }

  /** The request is the game call `call`, addressed to the table. */
  predicate AtTable(cids: set<nat>, jv: R.Json, call: T.Call) {
    && R.Target(cids, jv) == Some(T.TABLE) && R.CallsFor(jv, R.Methods(R.Table))
    && GameCall(jv.fields["method"].s) == call
  }

  /** Exactly the handlers of game calls own a call, and it is the one they carry out. */
  predicate JobFits(cids: set<nat>, b: Books, job: T.Job, owned: Option<Ticket>) {
    match owned
    case None => !IsCall(job)
    case Some(tk) =>
      && IsCall(job) && Fits(b, tk) && tk.u == job.u
      && AtTable(cids, b.requests[tk.serial].jv, if job.DoPlay? then T.Play else job.call)
  }

  predicate StrandFits(cids: set<nat>, b: Books, q: seq<T.Job>) {
    |b.tickets| == |q| && forall j | 0 <= j < |q| :: JobFits(cids, b, q[j], b.tickets[j])
  }

  /** What a user is in the middle of is what its request asks for. */
  predicate Pursues(m: M.State, u: Addr, jv: R.Json) {
    && u in m.users && m.users[u].phase.Alive? && !m.users[u].pc.Idle?
    && var cid := m.users[u].pc.c;
    && R.Target(m.members.Keys, jv) == Some(cid)
    && if R.CallsFor(jv, {"join"}) then u in m.members[cid]
       else if R.CallsFor(jv, {"leave"}) then u !in m.members[cid]
       else
         && R.CallsFor(jv, {"identify"}) && cid == M.SYSTEM && u in m.members[cid]
         && R.CheckedValue(jv.fields["params"], "name") == Some(R.Str(m.users[u].name))
  }

  predicate WorkFits(s: State, u: Addr) {
    && u in s.books.busy && Fits(s.books, s.books.busy[u]) && s.books.busy[u].u == u
    && Pursues(s.world.lounge, u, s.books.requests[s.books.busy[u].serial].jv)
  }

  /** The code of an error reply means what it says: invalid request, method not found, invalid params. */
  predicate ErrorFits(cids: set<nat>, jv: R.Json, error: Option<int>) {
    && (error == Some(-32600) <==> !R.WellFormed(jv))
    && (error == Some(-32601) <==>
          && R.Target(cids, jv).Some?
          && !R.CallsFor(jv, R.Methods(KindOf(R.Target(cids, jv).value)) + {"join", "leave"}))
    && (error.Some? ==> error.value in {-32600, -32601, -32602})
  }

  /** A reply goes to the user that asked, with the id it gave. */
  predicate ReplyFits(cids: set<nat>, b: Books, r: Reply) {
    && r.serial < |b.requests| && b.requests[r.serial].u == r.to
    && var jv := b.requests[r.serial].jv;
    && R.HasId(jv) && jv.fields["id"] == r.id && ErrorFits(cids, jv, r.error)
  }

  predicate RepliesFit(cids: set<nat>, b: Books) {
    forall i | 0 <= i < |b.replies| :: ReplyFits(cids, b, b.replies[i])
  }

  ghost predicate BooksFit(s: State) {
    && StrandFits(Cids(s), s.books, s.world.queue)
    && (forall u | u in s.books.busy :: WorkFits(s, u))
    && RepliesFit(Cids(s), s.books)
  }

  /** Later requests change nothing for what belongs to earlier ones. */
  lemma StrandLasts(cids: set<nat>, b: Books, b': Books, q: seq<T.Job>)
    requires StrandFits(cids, b, q) && b.requests <= b'.requests && b'.tickets == b.tickets
    ensures StrandFits(cids, b', q)
  {
    forall j | 0 <= j < |q| ensures JobFits(cids, b', q[j], b'.tickets[j]) {
      assert JobFits(cids, b, q[j], b.tickets[j]);
    }
  }

  lemma StrandGrows(cids: set<nat>, b: Books, b': Books, q: seq<T.Job>, job: T.Job, owned: Option<Ticket>)
    requires StrandFits(cids, b, q) && b.requests <= b'.requests && b'.tickets == b.tickets + [owned]
    requires JobFits(cids, b', job, owned)
    ensures StrandFits(cids, b', q + [job])
  {
    forall j | 0 <= j < |q| ensures JobFits(cids, b', q[j], b'.tickets[j]) {
      assert JobFits(cids, b, q[j], b.tickets[j]);
    }
  }

  lemma RepliesLast(cids: set<nat>, b: Books, b': Books)
    requires RepliesFit(cids, b) && b.requests <= b'.requests && b'.replies == b.replies
    ensures RepliesFit(cids, b')
  {
    forall i | 0 <= i < |b.replies| ensures ReplyFits(cids, b', b.replies[i]) {
      assert ReplyFits(cids, b, b.replies[i]);
    }
  }

  /** One more reply, to a request it fits. */
  lemma RepliesGrow(cids: set<nat>, b: Books, tk: Ticket, error: Option<int>)
    requires RepliesFit(cids, b) && Fits(b, tk) && ErrorFits(cids, b.requests[tk.serial].jv, error)
    ensures RepliesFit(cids, Replied(b, tk, error))
  {
    R.ExtractKeepsId(b.requests[tk.serial].jv);
    if tk.call.id.Some? {
      var b', r := Replied(b, tk, error), Reply(tk.serial, tk.u, tk.call.id.value, error);
      assert ReplyFits(cids, b', r);
      forall i | 0 <= i < |b'.replies| ensures ReplyFits(cids, b', b'.replies[i]) {
        if i < |b.replies| { assert ReplyFits(cids, b, b.replies[i]); }
      }
    }
  }

  lemma DecisionSpec(m: M.State, u: Addr, jv: R.Json)
    requires M.Ready(m, u, M.Alive)
    ensures var d := Decide(m, u, jv);
            && (d.Answer? ==> ErrorFits(m.members.Keys, jv, d.error))
            && (!d.Answer? && !d.Escape? ==> ErrorFits(m.members.Keys, jv, None))
            && (d.Post? ==> AtTable(m.members.Keys, jv, d.call))
            && (d.Escape? <==> R.BadCid(jv))
  {
    R.RouteSpec(m.members.Keys, jv);
  }

  /** What makes the server begin an operation in the lounge. */
  lemma BeginSpec(m: M.State, u: Addr, jv: R.Json, cid: nat, name: string)
    requires M.Ready(m, u, M.Alive)
    ensures Decide(m, u, jv) == Begin(M.Join(u, cid)) <==>
              R.Calls(jv, cid, "join") && cid in m.members && m.users[u].name != "" && u !in m.members[cid]
    ensures Decide(m, u, jv) == Begin(M.Leave(u, cid)) <==>
              R.Calls(jv, cid, "leave") && cid in m.members && u in m.members[cid]
    ensures Decide(m, u, jv) == Begin(M.Identify(u, name)) <==>
              && R.Calls(jv, 1, "identify") && 1 in m.members
              && R.Param(jv, "name") == Some(R.Str(name)) && |name| <= 20 && m.users[u].name == ""
  {
    R.RouteSpec(m.members.Keys, jv);
    R.TargetIff(m.members.Keys, jv, cid);
    R.TargetIff(m.members.Keys, jv, 1);
  }

  /** What is posted to the table's strand. */
  lemma PostSpec(m: M.State, u: Addr, jv: R.Json)
    requires M.Ready(m, u, M.Alive)
    ensures var d, here := Decide(m, u, jv), 3 in m.members;
            && (d == Post(T.Play) <==> here && R.Calls(jv, 3, "play"))
            && (d == Post(T.Watch) <==> here && R.Calls(jv, 3, "watch"))
            && (d == Post(T.Bet) <==> here && R.Calls(jv, 3, "bet"))
            && (d == Post(T.Start) <==> here && R.Calls(jv, 3, "start"))
            && (d == Post(T.HitOrStand) <==> here && (R.Calls(jv, 3, "hit") || R.Calls(jv, 3, "stand")))
  {
    R.RouteSpec(m.members.Keys, jv);
    R.TargetIff(m.members.Keys, jv, 3);
  }

  /**
   What is answered with success at once: `shutdown` and `stop` to System, and in a room a
   message from a member that has a name.
   */
  lemma AnswerSpec(m: M.State, u: Addr, jv: R.Json, cid: nat)
    requires M.Ready(m, u, M.Alive) && cid in m.members && R.AddressedTo(jv, cid)
    ensures Decide(m, u, jv) == Answer(None) <==>
              || (cid == 1 && (R.Calls(jv, cid, "shutdown") || R.Calls(jv, cid, "stop")))
              || (&& cid != 1 && cid != 3 && (R.Calls(jv, cid, "say") || R.Calls(jv, cid, "slash"))
                  && m.users[u].name != "" && u in m.members[cid]
                  && R.Param(jv, "message").Some? && R.Param(jv, "message").value.Str?)
    ensures Decide(m, u, jv) == Answer(Some(-32601)) <==>
              && !R.Calls(jv, cid, "join") && !R.Calls(jv, cid, "leave")
              && !(cid == 1 && jv.fields["method"].s in {"identify", "shutdown", "stop"})
              && !(cid == 3 && jv.fields["method"].s in {"play", "watch", "bet", "start", "hit", "stand"})
              && !(cid != 1 && cid != 3 && jv.fields["method"].s in {"say", "slash"})
  {
    R.RouteSpec(m.members.Keys, jv);
    R.TargetIff(m.members.Keys, jv, cid);
  }

  lemma PursuitLasts(m: M.State, e: M.Event, u: Addr, jv: R.Json)
    requires M.Inv(m) && M.Enabled(m, e) && Pursues(m, u, jv) && (e.u == u ==> !e.Hook?)
    ensures Pursues(M.Next(m, e), u, jv)
  {
    M.OnlyActorMoves(m, e);
    if e.u == u { M.OperationDescends(m, e); }
  }

  lemma BeginningPursues(m: M.State, u: Addr, jv: R.Json)
    requires M.Ready(m, u, M.Alive) && Decide(m, u, jv).Begin?
    ensures var m' := M.Next(m, Decide(m, u, jv).e);
            m'.users[u].pc.Idle? || Pursues(m', u, jv)
  {
    R.RouteSpec(m.members.Keys, jv);
  }

  /** A step of the lounge leaves the operations of other users what they were. */
  lemma WorkLasts(s: State, e: M.Event, s': State, u: Addr)
    requires M.Inv(s.world.lounge) && M.Enabled(s.world.lounge, e) && s'.world.lounge == M.Next(s.world.lounge, e)
    requires WorkFits(s, u) && u in s'.books.busy && s'.books.busy[u] == s.books.busy[u]
    requires s.books.requests <= s'.books.requests && (e.u == u ==> !e.Hook?)
    ensures WorkFits(s', u)
  {
    PursuitLasts(s.world.lounge, e, u, s.books.requests[s.books.busy[u].serial].jv);
  }

  lemma ReceiveKeepsStrand(s: State, u: Addr, jv: R.Json)
    requires StrandFits(Cids(s), s.books, s.world.queue) && Enabled(s, Receive(u, jv))
    ensures var s' := Received(s, u, jv); StrandFits(Cids(s), s'.books, s'.world.queue)
  {
    var s', d := Received(s, u, jv), Decide(s.world.lounge, u, jv);
    DecisionSpec(s.world.lounge, u, jv);
    if d.Post? {
      var job := s'.world.queue[|s.world.queue|];
      StrandGrows(Cids(s), s.books, s'.books, s.world.queue, job, s'.books.tickets[|s.books.tickets|]);
    } else {
      StrandLasts(Cids(s), s.books, s'.books, s.world.queue);
      if d.Begin? { assert s'.world.queue == s.world.queue; }
    }
  }

  lemma WorkSame(s: State, s': State, u: Addr)
    requires WorkFits(s, u) && s'.world.lounge == s.world.lounge && s'.books.busy == s.books.busy
    requires s.books.requests <= s'.books.requests
    ensures WorkFits(s', u)
  {
  }

  lemma NewWorkFits(s: State, u: Addr, jv: R.Json)
    requires Enabled(s, Receive(u, jv)) && u !in s.books.busy && u in Received(s, u, jv).books.busy
    ensures WorkFits(Received(s, u, jv), u)
  {
    BeginningPursues(s.world.lounge, u, jv);
  }

  lemma OldWorkFits(s: State, u: Addr, jv: R.Json, v: Addr)
    requires M.Inv(s.world.lounge) && Enabled(s, Receive(u, jv)) && v != u && WorkFits(s, v)
    ensures WorkFits(Received(s, u, jv), v)
  {
    var s', d := Received(s, u, jv), Decide(s.world.lounge, u, jv);
    if d.Begin? { WorkLasts(s, d.e, s', v); } else { WorkSame(s, s', v); }
  }

  lemma ReceiveKeepsWork(s: State, u: Addr, jv: R.Json, v: Addr)
    requires M.Inv(s.world.lounge) && Enabled(s, Receive(u, jv)) && v in Received(s, u, jv).books.busy
    requires forall v | v in s.books.busy :: WorkFits(s, v)
    ensures WorkFits(Received(s, u, jv), v)
  {
    if v == u {
      ReadyIsNotBusy(s, u);
      NewWorkFits(s, u, jv);
    } else {
      assert v in s.books.busy;
      OldWorkFits(s, u, jv, v);
    }
  }

  lemma ReadyIsNotBusy(s: State, u: Addr)
    requires M.Ready(s.world.lounge, u, M.Alive) && forall v | v in s.books.busy :: WorkFits(s, v)
    ensures u !in s.books.busy
  {
  }

  lemma ReceiveKeepsReplies(s: State, u: Addr, jv: R.Json)
    requires RepliesFit(Cids(s), s.books) && Enabled(s, Receive(u, jv))
    ensures RepliesFit(Cids(s), Received(s, u, jv).books)
  {
    var b, tk := Filed(s.books, u, jv), NewTicket(s.books, u, jv);
    RepliesLast(Cids(s), s.books, b);
    DecisionSpec(s.world.lounge, u, jv);
    match Decide(s.world.lounge, u, jv)
    case Answer(error) => RepliesGrow(Cids(s), b, tk, error);
    case Begin(_) => RepliesGrow(Cids(s), b, tk, None);
    case _ =>
  }

  lemma ReceiveKeepsFit(s: State, u: Addr, jv: R.Json)
    requires M.Inv(s.world.lounge) && BooksFit(s) && Enabled(s, Receive(u, jv))
    ensures BooksFit(Received(s, u, jv))
  {
    StepKeepsCids(s, Receive(u, jv));
    ReceiveKeepsStrand(s, u, jv);
    ReceiveKeepsReplies(s, u, jv);
    forall v | v in Received(s, u, jv).books.busy ensures WorkFits(Received(s, u, jv), v) {
      ReceiveKeepsWork(s, u, jv, v);
    }
  }

  lemma PursuitIsNoError(m: M.State, u: Addr, jv: R.Json)
    requires Pursues(m, u, jv)
    ensures ErrorFits(m.members.Keys, jv, None)
  {
  }

  lemma StepKeepsStrand(s: State, e: M.Event)
    requires StrandFits(Cids(s), s.books, s.world.queue) && Enabled(s, Step(e))
    ensures var s' := Stepped(s, e); StrandFits(Cids(s), s'.books, s'.world.queue)
  {
    var s', jobs := Stepped(s, e), T.Posted(s.world, e);
    if jobs == [] {
      StrandLasts(Cids(s), s.books, s'.books, s.world.queue);
      assert s'.world.queue == s.world.queue;
    } else {
      StrandGrows(Cids(s), s.books, s'.books, s.world.queue, jobs[0], None);
      assert s'.world.queue == s.world.queue + [jobs[0]];
    }
  }

  lemma StepKeepsReplies(s: State, e: M.Event)
    requires RepliesFit(Cids(s), s.books) && Enabled(s, Step(e))
    requires e.u in s.books.busy ==> WorkFits(s, e.u)
    ensures RepliesFit(Cids(s), Stepped(s, e).books)
  {
    var b := if T.Posted(s.world, e) == [] then s.books else s.books.(tickets := s.books.tickets + [None]);
    RepliesLast(Cids(s), s.books, b);
    if e.Hook? && e.u in s.books.busy {
      var tk := s.books.busy[e.u];
      RepliesLast(Cids(s), s.books, b.(busy := b.busy - {e.u}));
      PursuitIsNoError(s.world.lounge, e.u, s.books.requests[tk.serial].jv);
      RepliesGrow(Cids(s), b.(busy := b.busy - {e.u}), tk, None);
    }
  }

  lemma StepKeepsFit(s: State, e: M.Event)
    requires M.Inv(s.world.lounge) && BooksFit(s) && Enabled(s, Step(e))
    ensures BooksFit(Stepped(s, e))
  {
    var s' := Stepped(s, e);
    StepKeepsCids(s, Step(e));
    StepKeepsStrand(s, e);
    StepKeepsReplies(s, e);
    forall v | v in s'.books.busy ensures WorkFits(s', v) {
      assert WorkFits(s, v);
      WorkLasts(s, e, s', v);
    }
  }

  lemma HeadKeepsStrand(s: State, card: G.Card)
    requires StrandFits(Cids(s), s.books, s.world.queue) && Enabled(s, RunHead(card))
    ensures var s' := HeadRun(s, card); StrandFits(Cids(s), s'.books, s'.world.queue)
  {
    var s' := HeadRun(s, card);
    forall j | 0 <= j < |s'.world.queue|
      ensures JobFits(Cids(s), s'.books, s'.world.queue[j], s'.books.tickets[j])
    {
      assert JobFits(Cids(s), s.books, s.world.queue[j + 1], s.books.tickets[j + 1]);
    }
  }

  lemma HeadKeepsReplies(s: State, card: G.Card)
    requires StrandFits(Cids(s), s.books, s.world.queue) && RepliesFit(Cids(s), s.books)
    requires Enabled(s, RunHead(card))
    ensures RepliesFit(Cids(s), HeadRun(s, card).books)
  {
    var tk, b := HeadTicket(s.books), s.books.(tickets := s.books.tickets[1..]);
    RepliesLast(Cids(s), s.books, b);
    RepliesLast(Cids(s), s.books, HeadRun(s, card).books.(replies := s.books.replies));
    assert JobFits(Cids(s), s.books, s.world.queue[0], s.books.tickets[0]);
    if tk.Some? {
      RepliesGrow(Cids(s), b, tk.value, TableError(s.world.table, s.world.queue[0]));
    }
  }

  lemma HeadSparesLounge(s: State, card: G.Card)
    requires Enabled(s, RunHead(card))
    ensures var s' := HeadRun(s, card);
            && s'.world.lounge == s.world.lounge && s'.books.busy == s.books.busy
            && s'.books.requests == s.books.requests
  {
  }

  lemma HeadKeepsFit(s: State, card: G.Card)
    requires BooksFit(s) && Enabled(s, RunHead(card))
    ensures BooksFit(HeadRun(s, card))
  {
    var s' := HeadRun(s, card);
    HeadSparesLounge(s, card);
    HeadKeepsStrand(s, card);
    HeadKeepsReplies(s, card);
    forall v | v in s'.books.busy ensures WorkFits(s', v) {
      WorkSame(s, s', v);
    }
  }

  // ----- one reply each -----

  function Answers(rs: seq<Reply>, n: nat): nat {
    if rs == [] then 0 else Answers(rs[..|rs| - 1], n) + (if rs[|rs| - 1].serial == n then 1 else 0)
  }

  predicate Owns(owned: Option<Ticket>, n: nat) {
    owned.Some? && owned.value.serial == n
  }

  function Waiting(tickets: seq<Option<Ticket>>, n: nat): nat {
    if tickets == [] then 0 else (if Owns(tickets[0], n) then 1 else 0) + Waiting(tickets[1..], n)
  }

  function Working(b: Books, n: nat): nat {
    if n < |b.requests| && b.requests[n].u in b.busy && b.busy[b.requests[n].u].serial == n then 1 else 0
  }

  /** How many calls for request `n` are under way, on the strand or in the lounge, to answer it. */
  function Due(b: Books, n: nat): nat {
    Waiting(b.tickets, n) + Working(b, n)
  }

  /** A request with an id has one answer, sent or due; one without an id, or thrown out, has none. */
  predicate Balanced(b: Books, n: nat) {
    if n >= |b.requests| then Answers(b.replies, n) == 0 && Due(b, n) == 0 && n !in b.thrown
    else if n in b.thrown then Answers(b.replies, n) == 0 && Due(b, n) == 0
    else if R.HasId(b.requests[n].jv) then Answers(b.replies, n) + Due(b, n) == 1
    else Answers(b.replies, n) == 0 && Due(b, n) <= 1
  }

  lemma {:induction false} WaitingAppend(tickets: seq<Option<Ticket>>, owned: Option<Ticket>, n: nat)
    ensures Waiting(tickets + [owned], n) == Waiting(tickets, n) + (if Owns(owned, n) then 1 else 0)
  {
    if tickets == [] {
      assert tickets + [owned] == [owned];
    } else {
      assert (tickets + [owned])[1..] == tickets[1..] + [owned];
      WaitingAppend(tickets[1..], owned, n);
    }
  }

  lemma AnswersReplied(b: Books, tk: Ticket, error: Option<int>, n: nat)
    ensures Answers(Replied(b, tk, error).replies, n)
            == Answers(b.replies, n) + (if tk.serial == n && tk.call.id.Some? then 1 else 0)
  {
    if tk.call.id.Some? {
      var r := Reply(tk.serial, tk.u, tk.call.id.value, error);
      assert (b.replies + [r])[..|b.replies|] == b.replies;
    }
  }

  /** A new request is answered at once or thrown out. */
  lemma FiledAndDone(b: Books, u: Addr, jv: R.Json, error: Option<int>, n: nat)
    requires Balanced(b, n) && u !in b.busy
    ensures Balanced(Replied(Filed(b, u, jv), NewTicket(b, u, jv), error), n)
    ensures Balanced(Thrown(Filed(b, u, jv), Some(NewTicket(b, u, jv))), n)
  {
    R.ExtractKeepsId(jv);
    AnswersReplied(Filed(b, u, jv), NewTicket(b, u, jv), error, n);
  }

  /** Or its call is under way, in the lounge or on the strand. */
  lemma FiledAndDue(b: Books, u: Addr, jv: R.Json, n: nat)
    requires Balanced(b, n) && u !in b.busy
    ensures var b', tk := Filed(b, u, jv), NewTicket(b, u, jv);
            Balanced(b'.(busy := b'.busy[u := tk]), n) && Balanced(b'.(tickets := b'.tickets + [Some(tk)]), n)
  {
    WaitingAppend(b.tickets, Some(NewTicket(b, u, jv)), n);
  }

  lemma ReceiveKeepsBalance(s: State, u: Addr, jv: R.Json, n: nat)
    requires Enabled(s, Receive(u, jv)) && u !in s.books.busy && Balanced(s.books, n)
    ensures Balanced(Received(s, u, jv).books, n)
  {
    var d := Decide(s.world.lounge, u, jv);
    FiledAndDone(s.books, u, jv, if d.Answer? then d.error else None, n);
    FiledAndDue(s.books, u, jv, n);
  }

  lemma WorkKeepsBalance(b: Books, u: Addr, n: nat)
    requires Balanced(b, n) && u in b.busy && Fits(b, b.busy[u]) && b.busy[u].u == u
    ensures Balanced(WorkDone(b, u), n)
  {
    R.ExtractKeepsId(b.requests[b.busy[u].serial].jv);
    AnswersReplied(b.(busy := b.busy - {u}), b.busy[u], None, n);
  }

  lemma StepKeepsBalance(s: State, e: M.Event, n: nat)
    requires Enabled(s, Step(e)) && Balanced(s.books, n) && (e.u in s.books.busy ==> WorkFits(s, e.u))
    ensures Balanced(Stepped(s, e).books, n)
  {
    var b := if T.Posted(s.world, e) == [] then s.books else s.books.(tickets := s.books.tickets + [None]);
    WaitingAppend(s.books.tickets, None, n);
    assert Balanced(b, n);
    if e.Hook? && e.u in s.books.busy { WorkKeepsBalance(b, e.u, n); }
  }

  /** The call at the head of the strand is answered or thrown out. */
  lemma HeadTicketDone(b: Books, error: Option<int>, n: nat)
    requires Balanced(b, n) && b.tickets != [] && (b.tickets[0].Some? ==> Fits(b, b.tickets[0].value))
    ensures var b', tk := b.(tickets := b.tickets[1..]), b.tickets[0];
            && Balanced(Thrown(b', tk), n)
            && Balanced(if tk.Some? then Replied(b', tk.value, error) else b', n)
  {
    if b.tickets[0].Some? {
      R.ExtractKeepsId(b.requests[b.tickets[0].value.serial].jv);
      AnswersReplied(b.(tickets := b.tickets[1..]), b.tickets[0].value, error, n);
    }
  }

  lemma HeadKeepsBalance(s: State, card: G.Card, n: nat)
    requires Enabled(s, RunHead(card)) && Balanced(s.books, n) && StrandFits(Cids(s), s.books, s.world.queue)
    ensures Balanced(HeadRun(s, card).books, n)
  {
    assert JobFits(Cids(s), s.books, s.world.queue[0], s.books.tickets[0]);
    HeadTicketDone(s.books, TableError(s.world.table, s.world.queue[0]), n);
  }

  lemma StepKeepsBalances(s: State, e: Event)
    requires BooksFit(s) && Enabled(s, e) && forall n: nat :: Balanced(s.books, n)
    ensures forall n: nat :: Balanced(Next(s, e).books, n)
  {
    if e.Receive? { ReadyIsNotBusy(s, e.u); }
    forall n: nat ensures Balanced(Next(s, e).books, n) {
      match e
      case Receive(u, jv) => ReceiveKeepsBalance(s, u, jv, n);
      case Step(e) => StepKeepsBalance(s, e, n);
      case RunHead(card) => HeadKeepsBalance(s, card, n);
    }
  }

  /** A call throws in exactly these two cases: a bad cid, or a `start` for a full hand. */
  predicate Throws(s: State, e: Event, n: nat) {
    match e
    case Receive(u, jv) => n == |s.books.requests| && R.BadCid(jv)
    case RunHead(_) => Overflowing(s.world) && Owns(HeadTicket(s.books), n)
    case _ => false
  }

  lemma ThrowSteps(s: State, e: Event, n: nat)
    requires Enabled(s, e)
    ensures n in Next(s, e).books.thrown <==> n in s.books.thrown || Throws(s, e, n)
  {
    if e.Receive? { DecisionSpec(s.world.lounge, e.u, e.jv); }
  }

  lemma RequestSteps(s: State, e: Event)
    requires Enabled(s, e)
    ensures Next(s, e).books.requests
            == s.books.requests + if e.Receive? then [Request(e.u, e.jv)] else []
  {
  }

  predicate BadCidsThrown(b: Books) {
    forall n | 0 <= n < |b.requests| :: R.BadCid(b.requests[n].jv) ==> n in b.thrown
  }

  lemma StepKeepsThrown(s: State, e: Event)
    requires BadCidsThrown(s.books) && Enabled(s, e)
    ensures BadCidsThrown(Next(s, e).books)
  {
    var b' := Next(s, e).books;
    RequestSteps(s, e);
    forall n | 0 <= n < |b'.requests| && R.BadCid(b'.requests[n].jv) ensures n in b'.thrown {
      ThrowSteps(s, e, n);
    }
  }

  ghost predicate Inv(s: State) {
    && T.Shape(s.world) && BooksFit(s)
    && (forall n: nat :: Balanced(s.books, n)) && BadCidsThrown(s.books)
  }

  lemma StepKeepsInv(s: State, e: Event)
    requires Inv(s) && Enabled(s, e)
    ensures Inv(Next(s, e))
  {
    StepKeepsShape(s, e);
    StepKeepsBalances(s, e);
    StepKeepsThrown(s, e);
    match e
    case Receive(u, jv) => ReceiveKeepsFit(s, u, jv);
    case Step(e) => StepKeepsFit(s, e);
    case RunHead(card) => HeadKeepsFit(s, card);
  }

  lemma {:induction false} EveryRunKeepsInv(s: State, es: seq<Event>)
    requires Inv(s) && CanRun(s, es)
    ensures Inv(After(s, es))
    decreases |es|
  {
    if es != [] {
      StepKeepsInv(s, es[0]);
      EveryRunKeepsInv(Next(s, es[0]), es[1..]);
    }
  }

  /** Somewhere in the run the `start` that request `n` asks for is run for a seat whose hand is full. */
  ghost predicate Overflows(s: State, es: seq<Event>, n: nat)
    requires CanRun(s, es)
    decreases |es|
  {
    es != [] && (|| (es[0].RunHead? && Overflowing(s.world) && Owns(HeadTicket(s.books), n))
                 || Overflows(Next(s, es[0]), es[1..], n))
  }

  lemma {:induction false} ThrownIff(s: State, es: seq<Event>, n: nat)
    requires BadCidsThrown(s.books) && CanRun(s, es) && n < |After(s, es).books.requests|
    ensures n in After(s, es).books.thrown
            <==> n in s.books.thrown || R.BadCid(After(s, es).books.requests[n].jv) || Overflows(s, es, n)
    decreases |es|
  {
    if es != [] {
      StepKeepsThrown(s, es[0]);
      ThrowSteps(s, es[0], n);
      ThrownIff(Next(s, es[0]), es[1..], n);
      RequestSteps(s, es[0]);
      RequestsLast(Next(s, es[0]), es[1..]);
    }
  }

  lemma {:induction false} RequestsLast(s: State, es: seq<Event>)
    requires CanRun(s, es)
    ensures s.books.requests <= After(s, es).books.requests
    decreases |es|
  {
    if es != [] {
      RequestSteps(s, es[0]);
      RequestsLast(Next(s, es[0]), es[1..]);
    }
  }

  lemma InitialInv(s: State)
    requires Initial(s)
    ensures Inv(s)
  {
  }

  /**
   In every run the books are balanced: a request with an id has one reply, or none and one
   call under way.  The exceptions are exactly the call whose exception ended the process,
   a cid that does not convert or a `start` run for a full hand: it has neither.
   */
  lemma EveryCallAccounted(s0: State, es: seq<Event>, n: nat)
    requires Initial(s0) && CanRun(s0, es) && n < |After(s0, es).books.requests|
    ensures var b := After(s0, es).books;
            var jv := b.requests[n].jv;
            if R.BadCid(jv) || Overflows(s0, es, n) then Answers(b.replies, n) == 0 && Due(b, n) == 0
            else if R.HasId(jv) then Answers(b.replies, n) + Due(b, n) == 1
            else Answers(b.replies, n) == 0 && Due(b, n) <= 1
  {
    InitialInv(s0);
    EveryRunKeepsInv(s0, es);
    ThrownIff(s0, es, n);
    assert Balanced(After(s0, es).books, n);
  }

  /** The two steps that end the process. */
  predicate Fatal(s: State, e: Event) {
    match e
    case Receive(_, jv) => R.BadCid(jv)
    case RunHead(_) => Overflowing(s.world)
    case Step(_) => false
  }

  lemma FatalSteps(s: State, e: Event)
    requires Enabled(s, e)
    ensures Next(s, e).books.down <==> Fatal(s, e)
    ensures if Fatal(s, e) then Next(s, e).books.replies == s.books.replies
            else Next(s, e).books.thrown == s.books.thrown
  {
    if e.Receive? { DecisionSpec(s.world.lounge, e.u, e.jv); }
  }

  /** The step ends the process, and the request is the one received or has its call under way. */
  predicate Cuts(s: State, e: Event, n: nat) {
    Fatal(s, e) && ((e.Receive? && n == |s.books.requests|) || Due(s.books, n) == 1)
  }

  ghost predicate CutOff(s: State, es: seq<Event>, n: nat)
    requires CanRun(s, es)
    decreases |es|
  {
    es != [] && (Cuts(s, es[0], n) || CutOff(Next(s, es[0]), es[1..], n))
  }

  /** A request that asks for a reply: it has one, or is about to, unless the process ended first. */
  predicate AnsweredOr(b: Books, n: nat, cut: bool) {
    if !b.down then Answers(b.replies, n) + Due(b, n) == 1
    else Answers(b.replies, n) == if cut then 0 else 1
  }

  lemma FatalCuts(s: State, e: Event, n: nat)
    requires Inv(s) && s.books.thrown == {} && Enabled(s, e) && Fatal(s, e)
    requires n < |Next(s, e).books.requests| && R.HasId(Next(s, e).books.requests[n].jv)
    ensures AnsweredOr(Next(s, e).books, n, Cuts(s, e, n))
  {
    assert Balanced(s.books, n);
    FatalSteps(s, e);
    RequestSteps(s, e);
  }

  lemma {:induction false} AnsweredUnlessCutOff(s: State, es: seq<Event>, n: nat)
    requires Inv(s) && !s.books.down && s.books.thrown == {} && CanRun(s, es)
    requires n < |After(s, es).books.requests| && R.HasId(After(s, es).books.requests[n].jv)
    ensures AnsweredOr(After(s, es).books, n, CutOff(s, es, n))
    decreases |es|
  {
    if es == [] {
      assert Balanced(s.books, n);
    } else {
      FatalSteps(s, es[0]);
      if Fatal(s, es[0]) {
        assert es[1..] == [];
        FatalCuts(s, es[0], n);
      } else {
        StepKeepsInv(s, es[0]);
        AnsweredUnlessCutOff(Next(s, es[0]), es[1..], n);
      }
    }
  }

  /**
   In every run, a request with an id has exactly one reply, or has none and one call under
   way to send it, as long as the process lives.  When the process has ended, which only a
   bad cid and a `start` for a full hand bring about, it has exactly one reply unless it was
   the request that ended it or had its call under way at that step: then it has none.  A
   request without an id never has a reply.
   */
  lemma EveryRequestAnsweredOnce(s0: State, es: seq<Event>, n: nat)
    requires Initial(s0) && CanRun(s0, es) && n < |After(s0, es).books.requests|
    ensures var b := After(s0, es).books;
            if R.HasId(b.requests[n].jv) then AnsweredOr(b, n, CutOff(s0, es, n)) else Answers(b.replies, n) == 0
  {
    InitialInv(s0);
    if R.HasId(After(s0, es).books.requests[n].jv) {
      AnsweredUnlessCutOff(s0, es, n);
    } else {
      EveryCallAccounted(s0, es, n);
    }
  }

  /** In every run each reply goes to the user that asked, with the id it gave, and its code means what it says. */
  lemma RepliesAreTruthful(s0: State, es: seq<Event>, i: nat)
    requires Initial(s0) && CanRun(s0, es) && i < |After(s0, es).books.replies|
    ensures var s := After(s0, es); ReplyFits(Cids(s), s.books, s.books.replies[i])
  {
    InitialInv(s0);
    EveryRunKeepsInv(s0, es);
  }

  // ----- calls under way get on -----

  /** The number of handlers the strand runs. */
  function Heads(es: seq<Event>): nat {
    if es == [] then 0 else (if es[0].RunHead? then 1 else 0) + Heads(es[1..])
  }

  lemma TicketSteps(s: State, e: Event)
    requires Enabled(s, e)
    ensures if e.RunHead? && s.books.tickets != [] then Next(s, e).books.tickets == s.books.tickets[1..]
            else s.books.tickets <= Next(s, e).books.tickets
  {
  }

  lemma ReceivingAddsNone(s: State, u: Addr, jv: R.Json, n: nat)
    requires Enabled(s, Receive(u, jv)) && n < |s.books.requests|
    ensures Due(Received(s, u, jv).books, n) <= Due(s.books, n)
  {
    WaitingAppend(s.books.tickets, Some(NewTicket(s.books, u, jv)), n);
  }

  lemma SteppingAddsNone(s: State, e: M.Event, n: nat)
    requires Enabled(s, Step(e))
    ensures Due(Stepped(s, e).books, n) <= Due(s.books, n)
  {
    WaitingAppend(s.books.tickets, None, n);
  }

  /** No new call is ever made for an old request. */
  lemma DueNeverRises(s: State, e: Event, n: nat)
    requires Enabled(s, e) && n < |s.books.requests|
    ensures Due(Next(s, e).books, n) <= Due(s.books, n)
  {
    match e
    case Receive(u, jv) => ReceivingAddsNone(s, u, jv, n);
    case Step(e) => SteppingAddsNone(s, e, n);
    case RunHead(_) =>
  }

  lemma {:induction false} DoneIsDone(s: State, es: seq<Event>, n: nat)
    requires CanRun(s, es) && n < |s.books.requests| && Due(s.books, n) == 0
    ensures Due(After(s, es).books, n) == 0
    decreases |es|
  {
    if es != [] {
      DueNeverRises(s, es[0], n);
      RequestSteps(s, es[0]);
      DoneIsDone(Next(s, es[0]), es[1..], n);
    }
  }

  lemma HeadIsServed(s: State, card: G.Card)
    requires Inv(s) && Enabled(s, RunHead(card)) && HeadTicket(s.books).Some?
    ensures var n := HeadTicket(s.books).value.serial;
            n < |HeadRun(s, card).books.requests| && Due(HeadRun(s, card).books, n) == 0
  {
    var n := HeadTicket(s.books).value.serial;
    assert JobFits(Cids(s), s.books, s.world.queue[0], s.books.tickets[0]);
    assert Balanced(s.books, n);
    TicketSteps(s, RunHead(card));
    HeadSparesLounge(s, card);
  }

  lemma HeadStaysServed(s: State, es: seq<Event>)
    requires Inv(s) && CanRun(s, es) && es != [] && es[0].RunHead? && HeadTicket(s.books).Some?
    ensures Due(After(s, es).books, HeadTicket(s.books).value.serial) == 0
  {
    HeadIsServed(s, es[0].card);
    DoneIsDone(Next(s, es[0]), es[1..], HeadTicket(s.books).value.serial);
  }

  lemma {:induction false} CallMovesUp(s: State, es: seq<Event>, j: nat)
    requires CanRun(s, es) && Heads(es) <= j < |s.books.tickets|
    ensures var b, k := After(s, es).books, Heads(es);
            j - k < |b.tickets| && b.tickets[j - k] == s.books.tickets[j]
    decreases |es|
  {
    if es != [] {
      TicketSteps(s, es[0]);
      CallMovesUp(Next(s, es[0]), es[1..], if es[0].RunHead? then j - 1 else j);
    }
  }

  lemma {:induction false} CallIsServed(s: State, es: seq<Event>, j: nat)
    requires Inv(s) && CanRun(s, es) && j < |s.books.tickets| && s.books.tickets[j].Some? && j < Heads(es)
    ensures Due(After(s, es).books, s.books.tickets[j].value.serial) == 0
    decreases |es|
  {
    if es[0].RunHead? && j == 0 {
      HeadStaysServed(s, es);
    } else {
      StepKeepsInv(s, es[0]);
      TicketSteps(s, es[0]);
      CallIsServed(Next(s, es[0]), es[1..], if es[0].RunHead? then j - 1 else j);
    }
  }

  /**
   The strand serves its calls in order, whatever else happens: a call with j handlers
   before it is still under way, that much closer to the head, until j + 1 have run, and
   then no longer.
   */
  lemma StrandServesInOrder(s: State, es: seq<Event>, j: nat)
    requires Inv(s) && CanRun(s, es) && j < |s.books.tickets| && s.books.tickets[j].Some?
    ensures var b, k := After(s, es).books, Heads(es);
            if k <= j then j - k < |b.tickets| && b.tickets[j - k] == s.books.tickets[j]
            else Due(b, s.books.tickets[j].value.serial) == 0
  {
    if Heads(es) <= j { CallMovesUp(s, es, j); } else { CallIsServed(s, es, j); }
  }

  /** The operation of `u` that its request asked for goes on. */
  ghost predicate StillAt(s: State, s': State, u: Addr)
    requires u in s.books.busy && u in s.world.lounge.users
  {
    && u in s'.books.busy && s'.books.busy[u] == s.books.busy[u] && u in s'.world.lounge.users
    && M.Less(M.Remaining(s'.world.lounge.users[u].pc), M.Remaining(s.world.lounge.users[u].pc))
  }

  lemma HookEndsWork(s: State, u: Addr)
    requires WorkFits(s, u) && Balanced(s.books, s.books.busy[u].serial) && Enabled(s, Step(M.Hook(u)))
    ensures Due(Stepped(s, M.Hook(u)).books, s.books.busy[u].serial) == 0
  {
    WaitingAppend(s.books.tickets, None, s.books.busy[u].serial);
  }

  lemma OtherStepsDescend(s: State, e: M.Event)
    requires M.Inv(s.world.lounge) && WorkFits(s, e.u) && Enabled(s, Step(e)) && !e.Hook?
    ensures StillAt(s, Stepped(s, e), e.u)
  {
    M.OperationDescends(s.world.lounge, e);
  }

  /** Every step of a user whose request is carried out in the lounge ends it or brings it closer to its end. */
  lemma WorkDescends(s: State, e: M.Event)
    requires Inv(s) && Enabled(s, Step(e)) && e.u in s.books.busy
    ensures e.u in s.world.lounge.users
    ensures Due(Stepped(s, e).books, s.books.busy[e.u].serial) == 0 || StillAt(s, Stepped(s, e), e.u)
  {
    assert WorkFits(s, e.u) && Balanced(s.books, s.books.busy[e.u].serial);
    if e.Hook? { HookEndsWork(s, e.u); } else { OtherStepsDescend(s, e); }
  }

  // ----- what a success reply means -----

  /** From here on, request `n` can only be answered with success, or only with an error. */
  predicate Settled(b: Books, n: nat, ok: bool) {
    && n < |b.requests| && Waiting(b.tickets, n) == 0 && (!ok ==> Working(b, n) == 0)
    && forall i | 0 <= i < |b.replies| :: b.replies[i].serial == n ==> (b.replies[i].error.None? <==> ok)
  }

  lemma ReceiveKeepsSettled(s: State, u: Addr, jv: R.Json, n: nat, ok: bool)
    requires Enabled(s, Receive(u, jv)) && Settled(s.books, n, ok) && u !in s.books.busy
    ensures Settled(Received(s, u, jv).books, n, ok)
  {
    WaitingAppend(s.books.tickets, Some(NewTicket(s.books, u, jv)), n);
  }

  lemma StepKeepsSettled(s: State, e: M.Event, n: nat, ok: bool)
    requires Enabled(s, Step(e)) && Settled(s.books, n, ok) && (e.u in s.books.busy ==> WorkFits(s, e.u))
    ensures Settled(Stepped(s, e).books, n, ok)
  {
    WaitingAppend(s.books.tickets, None, n);
  }

  lemma HeadKeepsSettled(s: State, card: G.Card, n: nat, ok: bool)
    requires Enabled(s, RunHead(card)) && Settled(s.books, n, ok)
    ensures Settled(HeadRun(s, card).books, n, ok)
  {
  }

  lemma {:induction false} SettledStays(s: State, es: seq<Event>, n: nat, ok: bool)
    requires Inv(s) && CanRun(s, es) && Settled(s.books, n, ok)
    ensures Settled(After(s, es).books, n, ok)
    decreases |es|
  {
    if es != [] {
      match es[0] {
        case Receive(u, jv) => ReadyIsNotBusy(s, u); ReceiveKeepsSettled(s, u, jv, n, ok);
        case Step(e) => StepKeepsSettled(s, e, n, ok);
        case RunHead(card) => HeadKeepsSettled(s, card, n, ok);
      }
      StepKeepsInv(s, es[0]);
      SettledStays(Next(s, es[0]), es[1..], n, ok);
    }
  }

  /** Whether the request changed the lounge from `m` to `m'` as it asks. */
  predicate TookEffect(m: M.State, m': M.State, u: Addr, jv: R.Json)
    requires R.Target(m.members.Keys, jv).Some? && m'.members.Keys == m.members.Keys && u in m.users && u in m'.users
  {
    var cid := R.Target(m.members.Keys, jv).value;
    if R.CallsFor(jv, {"join"}) then u !in m.members[cid] && u in m'.members[cid]
    else if R.CallsFor(jv, {"leave"}) then u in m.members[cid] && u !in m'.members[cid]
    else
      && m.users[u].name == ""
      && R.CheckedValue(jv.fields["params"], "name") == Some(R.Str(m'.users[u].name))
  }

  /** A request that is carried out in the lounge. */
  predicate LoungeCall(cids: set<nat>, jv: R.Json) {
    && R.Target(cids, jv).Some?
    && (R.CallsFor(jv, {"join", "leave"}) || (R.CallsFor(jv, {"identify"}) && R.Target(cids, jv) == Some(M.SYSTEM)))
  }

  lemma EffectSpec(m: M.State, u: Addr, jv: R.Json)
    requires M.Ready(m, u, M.Alive) && LoungeCall(m.members.Keys, jv)
    ensures var d := Decide(m, u, jv);
            var m' := if d.Begin? then M.Next(m, d.e) else m;
            && (d.Begin? || d == Answer(Some(R.INVALID_PARAMS)))
            && m'.members.Keys == m.members.Keys && u in m'.users
            && (d.Begin? <==> TookEffect(m, m', u, jv))
  {
    R.RouteSpec(m.members.Keys, jv);
  }

  /** A new request is settled by the answer it gets at once, or by becoming work in the lounge. */
  lemma NewlySettled(cids: set<nat>, b: Books, u: Addr, jv: R.Json, error: Option<int>)
    requires RepliesFit(cids, b) && Balanced(b, |b.requests|) && u !in b.busy
    ensures var b', tk := Filed(b, u, jv), NewTicket(b, u, jv);
            && Settled(Replied(b', tk, error), |b.requests|, error.None?)
            && Settled(b'.(busy := b'.busy[u := tk]), |b.requests|, true)
  {
    assert forall i | 0 <= i < |b.replies| ::
        ReplyFits(cids, b, b.replies[i]) && b.replies[i].serial != |b.requests|;
  }

  lemma EffectSettles(s: State, u: Addr, jv: R.Json)
    requires BooksFit(s) && Balanced(s.books, |s.books.requests|)
    requires Enabled(s, Receive(u, jv)) && LoungeCall(Cids(s), jv)
    ensures var s' := Received(s, u, jv);
            && Cids(s') == Cids(s) && u in s'.world.lounge.users
            && Settled(s'.books, |s.books.requests|, TookEffect(s.world.lounge, s'.world.lounge, u, jv))
  {
    EffectSpec(s.world.lounge, u, jv);
    ReadyIsNotBusy(s, u);
    NewlySettled(Cids(s), s.books, u, jv, None);
    NewlySettled(Cids(s), s.books, u, jv, Some(R.INVALID_PARAMS));
  }

  /**
   In every run, whenever a `join`, `leave` or `identify` is answered, it is answered with
   success if and only if it made the user a member, ended its membership, or gave it the
   name it asked for.
   */
  lemma SucceedsIffTookEffect(s: State, u: Addr, jv: R.Json, es: seq<Event>, i: nat)
    requires Inv(s) && Enabled(s, Receive(u, jv)) && LoungeCall(Cids(s), jv)
    requires CanRun(Received(s, u, jv), es) && i < |After(Received(s, u, jv), es).books.replies|
    requires After(Received(s, u, jv), es).books.replies[i].serial == |s.books.requests|
    ensures var s' := Received(s, u, jv);
            && Cids(s') == Cids(s) && u in s'.world.lounge.users
            && (After(s', es).books.replies[i].error.None?
                <==> TookEffect(s.world.lounge, s'.world.lounge, u, jv))
  {
    var s' := Received(s, u, jv);
    EffectSettles(s, u, jv);
    StepKeepsInv(s, Receive(u, jv));
    SettledStays(s', es, |s.books.requests|, TookEffect(s.world.lounge, s'.world.lounge, u, jv));
  }

  /** Both sets, the channel's users and the user's channels, show what the request asks for. */
  predicate Shows(m: M.State, u: Addr, jv: R.Json) {
    && u in m.users && R.Target(m.members.Keys, jv).Some?
    && var cid := R.Target(m.members.Keys, jv).value;
       if R.CallsFor(jv, {"leave"}) then u !in m.members[cid] && cid !in m.users[u].channels
       else u in m.members[cid] && cid in m.users[u].channels
  }

  lemma PursuitShows(m: M.State, u: Addr, jv: R.Json)
    requires M.Inv(m) && Pursues(m, u, jv) && M.Enabled(m, M.Hook(u))
    ensures Shows(M.Next(m, M.Hook(u)), u, jv)
  {
    var cid := m.users[u].pc.c;
    assert M.Agree(m.users[u], u in m.members[cid], cid);
  }

  /** They do at the moment that success is reported. */
  lemma SuccessIsComplete(s: State, u: Addr)
    requires Inv(s) && u in s.books.busy && Enabled(s, Step(M.Hook(u)))
    ensures Fits(s.books, s.books.busy[u])
    ensures Shows(Stepped(s, M.Hook(u)).world.lounge, u, s.books.requests[s.books.busy[u].serial].jv)
  {
    assert WorkFits(s, u);
    PursuitShows(s.world.lounge, u, s.books.requests[s.books.busy[u].serial].jv);
  }

  /** A request received by a user at rest is answered with success only if it shows already. */
  lemma ShownAtOnce(s: State, u: Addr, jv: R.Json)
    requires M.Inv(s.world.lounge) && Enabled(s, Receive(u, jv)) && LoungeCall(Cids(s), jv)
    requires Decide(s.world.lounge, u, jv).Begin? && Received(s, u, jv).world.lounge.users[u].pc.Idle?
    ensures Shows(Received(s, u, jv).world.lounge, u, jv)
  {
    var m, e := s.world.lounge, Decide(s.world.lounge, u, jv).e;
    BeginningShows(m, u, jv, e);
  }

  lemma BeginningShows(m: M.State, u: Addr, jv: R.Json, e: M.Event)
    requires M.Inv(m) && M.Ready(m, u, M.Alive) && LoungeCall(m.members.Keys, jv)
    requires Decide(m, u, jv) == Begin(e) && M.Next(m, e).users[u].pc.Idle?
    ensures Shows(M.Next(m, e), u, jv)
  {
    R.RouteSpec(m.members.Keys, jv);
    M.StepKeepsInv(m, e);
    var m', cid := M.Next(m, e), R.Target(m.members.Keys, jv).value;
    assert M.Agree(m'.users[u], u in m'.members[cid], cid);
  }

  /** Reply `i` of the step from `s` to `s'` is new, and reports the success of a call carried out in the lounge. */
  predicate ReportsSuccess(s: State, s': State, i: nat) {
    && |s.books.replies| <= i < |s'.books.replies|
    && var r := s'.books.replies[i];
    && r.error.None? && r.serial < |s'.books.requests| && LoungeCall(Cids(s), s'.books.requests[r.serial].jv)
  }

  predicate ReportIsTrue(s': State, i: nat)
    requires i < |s'.books.replies| && s'.books.replies[i].serial < |s'.books.requests|
  {
    var r := s'.books.replies[i];
    Shows(s'.world.lounge, r.to, s'.books.requests[r.serial].jv)
  }

  lemma ReceiveReportsTruly(s: State, u: Addr, jv: R.Json, i: nat)
    requires M.Inv(s.world.lounge) && Enabled(s, Receive(u, jv)) && ReportsSuccess(s, Received(s, u, jv), i)
    ensures ReportIsTrue(Received(s, u, jv), i)
  {
    EffectSpec(s.world.lounge, u, jv);
    ShownAtOnce(s, u, jv);
  }

  lemma StepReportsTruly(s: State, e: M.Event, i: nat)
    requires M.Inv(s.world.lounge) && Enabled(s, Step(e)) && ReportsSuccess(s, Stepped(s, e), i)
    requires e.u in s.books.busy ==> WorkFits(s, e.u)
    ensures ReportIsTrue(Stepped(s, e), i)
  {
    PursuitShows(s.world.lounge, e.u, s.books.requests[s.books.busy[e.u].serial].jv);
  }

  lemma HeadReportsNone(s: State, card: G.Card, i: nat)
    requires StrandFits(Cids(s), s.books, s.world.queue) && Enabled(s, RunHead(card))
    ensures !ReportsSuccess(s, HeadRun(s, card), i)
  {
    assert JobFits(Cids(s), s.books, s.world.queue[0], s.books.tickets[0]);
  }

  /**
   Whatever step sends it, a success reply to `join`, `leave` or `identify` is sent when both
   sets show what was asked for, and not before.
   */
  lemma SuccessIsShown(s: State, e: Event, i: nat)
    requires Inv(s) && Enabled(s, e) && ReportsSuccess(s, Next(s, e), i)
    ensures ReportIsTrue(Next(s, e), i)
  {
    match e
    case Receive(u, jv) => ReceiveReportsTruly(s, u, jv, i);
    case Step(e) => StepReportsTruly(s, e, i);
    case RunHead(card) => HeadReportsNone(s, card, i);
  }

  /** Whether a game call changed the table from `t` to `t'` as it asks; `hit` and `stand` ask for nothing. */
  ghost predicate Played(t: G.Table, t': G.Table, job: T.Job, card: G.Card)
    requires |t.seats| == |t'.seats| == G.SEATS
  {
    match job
    case DoPlay(u, _) => G.Find(t, u) == 0 && G.Find(t', u) != 0
    case DoCall(u, Watch, _) =>
      exists i :: 1 <= i < G.SEATS && G.Holds(t.seats[i], u) && t.seats[i].state.Playing? && t'.seats[i].state.Leaves?
    case DoCall(u, Bet, _) =>
      exists i :: 1 <= i < G.SEATS && G.Holds(t.seats[i], u) && t'.seats[i].wager == t.seats[i].wager + 5
    case DoCall(_, Start, _) =>
      && t.turn < G.SEATS && t'.turn == (if t.turn == 5 then 0 else t.turn + 1)
      && t'.seats[t.turn].cards == t.seats[t.turn].cards + [card]
    case _ => true
  }

  lemma PlayedIff(w: T.State, job: T.Job, card: G.Card)
    requires G.Valid(w.table) && (job.DoCall? && job.call.Start? ==> G.HasRoom(w.table))
    ensures var t' := T.Run(w, job, card).table;
            |t'.seats| == G.SEATS && (TableError(w.table, job).None? <==> Played(w.table, t', job, card))
  {
    var t := w.table;
    match job
    case DoPlay(u, _) =>
      G.FindSpec(t, u);
      G.JoinSpec(t, u);
      G.StepKeepsValid(t, G.EvJoin(u));
      G.FindSpec(G.Join(t, u).0, u);
    case DoCall(u, Watch, _) =>
      G.FindSpec(t, u);
      G.RefusalsSpec(t, u);
    case DoCall(u, Bet, _) =>
      G.FindSpec(t, u);
      G.RefusalsSpec(t, u);
    case DoErase(u, _) => G.FindSpec(t, u);
    case _ =>
  }

  /**
   A game call is answered with success if and only if it did something: `play` took a
   seat, `watch` turned a playing seat into a leaving one, `bet` raised the wager, `start`
   dealt a card to the seat whose turn it was.
   */
  lemma GameCallSucceedsIff(s: State, card: G.Card)
    requires Inv(s) && Enabled(s, RunHead(card)) && !Overflowing(s.world)
    requires HeadTicket(s.books).Some? && HeadTicket(s.books).value.call.id.Some?
    ensures var s' := HeadRun(s, card);
            && |s'.books.replies| == |s.books.replies| + 1 && |s'.world.table.seats| == G.SEATS
            && var r := s'.books.replies[|s.books.replies|];
            && r.serial == HeadTicket(s.books).value.serial
            && (r.error.None? <==> Played(s.world.table, s'.world.table, s.world.queue[0], card))
  {
    PlayedIff(s.world, s.world.queue[0], card);
  }

  // ----- requests that get no reply -----

  lemma Prepend(s: State, e: Event, es: seq<Event>)
    requires Enabled(s, e) && CanRun(Next(s, e), es)
    ensures CanRun(s, [e] + es) && After(s, [e] + es) == After(Next(s, e), es)
  {
    assert ([e] + es)[1..] == es;
  }

  /** Request `n` asks for a reply, has none, and no call is under way that could send one; the process is down. */
  ghost predicate Unanswered(b: Books, n: nat) {
    && n < |b.requests| && R.HasId(b.requests[n].jv)
    && Answers(b.replies, n) == 0 && Due(b, n) == 0 && b.down
  }

  /** Whatever the state, a request with an id and a bad cid is left without a reply. */
  lemma BadCidUnanswered(s: State, u: Addr, jv: R.Json)
    requires Inv(s) && Enabled(s, Receive(u, jv)) && R.BadCid(jv) && R.HasId(jv)
    ensures Unanswered(Received(s, u, jv).books, |s.books.requests|)
  {
    ReadyIsNotBusy(s, u);
    DecisionSpec(s.world.lounge, u, jv);
    FiledAndDone(s.books, u, jv, None, |s.books.requests|);
  }

  /** And so is a `start` with an id whose turn comes when the hand is full. */
  lemma FullHandUnanswered(s: State, card: G.Card)
    requires Inv(s) && Enabled(s, RunHead(card)) && Overflowing(s.world)
    requires HeadTicket(s.books).Some? && HeadTicket(s.books).value.call.id.Some?
    ensures Unanswered(HeadRun(s, card).books, HeadTicket(s.books).value.serial)
  {
    var tk := HeadTicket(s.books).value;
    assert JobFits(Cids(s), s.books, s.world.queue[0], s.books.tickets[0]);
    R.ExtractKeepsId(s.books.requests[tk.serial].jv);
    StepKeepsInv(s, RunHead(card));
    assert Balanced(HeadRun(s, card).books, tk.serial);
  }

  lemma FirstConnection(s0: State, u: Addr)
    requires Initial(s0)
    ensures Enabled(s0, Step(M.Connect(u)))
    ensures var s := Stepped(s0, M.Connect(u));
            && Inv(s) && M.Ready(s.world.lounge, u, M.Alive) && s.world.queue == [] && s.books == NO_BOOKS
            && s.world.table == s0.world.table && Cids(s) == Cids(s0) && s.world.lounge.users.Keys == {u}
  {
    InitialInv(s0);
    StepKeepsInv(s0, Step(M.Connect(u)));
    StepKeepsCids(s0, Step(M.Connect(u)));
  }

  /** So from the start: connect, and send any method with a string as cid. */
  lemma StringCidUnanswered(s0: State, u: Addr, id: real, name: string, text: string) returns (es: seq<Event>)
    requires Initial(s0)
    ensures CanRun(s0, es) && Unanswered(After(s0, es).books, 0)
  {
    var jv := R.MakeRequest(id, name, R.Str(text));
    R.StringCidEscapes(id, name, text);
    FirstConnection(s0, u);
    var s1 := Stepped(s0, M.Connect(u));
    BadCidUnanswered(s1, u, jv);
    Prepend(s1, Receive(u, jv), []);
    Prepend(s0, Step(M.Connect(u)), [Receive(u, jv)] + []);
    es := [Step(M.Connect(u))] + ([Receive(u, jv)] + []);
  }

  /** A user about to ask an idle table for a card; `n` requests were sent and answered, each dealing one. */
  ghost predicate Asking(s: State, u: Addr, n: nat) {
    && Inv(s) && !s.books.down && M.Ready(s.world.lounge, u, M.Alive) && s.world.queue == []
    && T.TABLE in Cids(s) && G.Even(s.world.table, n)
    && |s.books.requests| == n && |s.books.replies| == n
  }

  function GameRequest(name: string): R.Json {
    R.MakeRequest(1.0, name, R.Number(3.0))
  }

  lemma GameCallIsPosted(s: State, u: Addr, name: string)
    requires M.Ready(s.world.lounge, u, M.Alive) && T.TABLE in Cids(s) && name in R.Methods(R.Table)
    ensures Decide(s.world.lounge, u, GameRequest(name)) == Post(GameCall(name))
    ensures R.HasId(GameRequest(name)) && !R.BadCid(GameRequest(name))
    ensures R.Extract(GameRequest(name)).0.id == Some(R.Number(1.0))
  {
    R.RouteSpec(Cids(s), GameRequest(name));
    assert R.NumberCast(R.Number(3.0)) == Some(3);
  }

  /** One request and one posted handler. */
  lemma StartAsked(s: State, u: Addr, n: nat)
    requires Asking(s, u, n)
    ensures Enabled(s, Receive(u, GameRequest("start")))
    ensures var s1 := Received(s, u, GameRequest("start"));
            && Inv(s1) && Enabled(s1, RunHead(1)) && s1.world == s.world.(queue := s1.world.queue)
            && |s1.world.queue| == 1 && s1.world.queue[0].DoCall? && s1.world.queue[0].call.Start?
            && s1.books == Filed(s.books, u, GameRequest("start")).(tickets := s1.books.tickets)
            && HeadTicket(s1.books) == Some(NewTicket(s.books, u, GameRequest("start")))
  {
    GameCallIsPosted(s, u, "start");
    StepKeepsInv(s, Receive(u, GameRequest("start")));
  }

  lemma StartServed(s: State, u: Addr, n: nat)
    requires Asking(s, u, n) && n < 132
    ensures Enabled(s, Receive(u, GameRequest("start")))
    ensures var s1 := Received(s, u, GameRequest("start"));
            Enabled(s1, RunHead(1)) && Asking(HeadRun(s1, 1), u, n + 1)
  {
    StartAsked(s, u, n);
    GameCallIsPosted(s, u, "start");
    var s1 := Received(s, u, GameRequest("start"));
    StepKeepsInv(s1, RunHead(1));
    G.EvenHasRoom(s.world.table, n);
    G.EvenStep(s.world.table, G.EvStart(1), n);
  }

  lemma StartOverflows(s: State, u: Addr)
    requires Asking(s, u, 132)
    ensures Enabled(s, Receive(u, GameRequest("start")))
    ensures var s1 := Received(s, u, GameRequest("start"));
            && Enabled(s1, RunHead(1))
            && var b := HeadRun(s1, 1).books;
            && Unanswered(b, 132) && |b.requests| == 133 && |b.replies| == 132
  {
    StartAsked(s, u, 132);
    GameCallIsPosted(s, u, "start");
    G.EvenHasRoom(s.world.table, G.TABLE_CAPACITY);
    FullHandUnanswered(Received(s, u, GameRequest("start")), 1);
  }

  lemma {:induction false} StartsUntilOverflow(s: State, u: Addr, n: nat) returns (es: seq<Event>)
    requires Asking(s, u, n) && n <= 132
    ensures CanRun(s, es)
    ensures var b := After(s, es).books; Unanswered(b, 132) && |b.requests| == 133 && |b.replies| == 132
    decreases 132 - n
  {
    var e := Receive(u, GameRequest("start"));
    var s1, rest := Received(s, u, GameRequest("start")), [];
    if n == 132 {
      StartOverflows(s, u);
    } else {
      StartServed(s, u, n);
      rest := StartsUntilOverflow(HeadRun(s1, 1), u, n + 1);
    }
    Prepend(s1, RunHead(1), rest);
    Prepend(s, e, [RunHead(1)] + rest);
    es := [e] + ([RunHead(1)] + rest);
  }

  /**
   From the start, one user alone: of 133 requests to `start`, all with an id, the first
   132 are answered and the last is not.
   */
  lemma LastStartUnanswered(s0: State, u: Addr) returns (es: seq<Event>)
    requires Initial(s0) && T.TABLE in Cids(s0)
    ensures CanRun(s0, es)
    ensures var b := After(s0, es).books; Unanswered(b, 132) && |b.requests| == 133 && |b.replies| == 132
  {
    FirstConnection(s0, u);
    var rest := StartsUntilOverflow(Stepped(s0, M.Connect(u)), u, 0);
    Prepend(s0, Step(M.Connect(u)), rest);
    es := [Step(M.Connect(u))] + rest;
  }

  /** Whoever has a call under way when the process ends is left without a reply, for good. */
  lemma BystanderUnanswered(s: State, e: Event, n: nat)
    requires Inv(s) && Enabled(s, e) && Fatal(s, e)
    requires n < |s.books.requests| && R.HasId(s.books.requests[n].jv) && Due(s.books, n) == 1
    ensures Answers(Next(s, e).books.replies, n) == 0 && forall f :: !Enabled(Next(s, e), f)
  {
    assert Balanced(s.books, n);
    FatalSteps(s, e);
  }

  lemma PostedIsDue(s: State, u: Addr, name: string)
    requires Inv(s) && Enabled(s, Receive(u, GameRequest(name)))
    requires T.TABLE in Cids(s) && name in R.Methods(R.Table)
    ensures var s' := Received(s, u, GameRequest(name));
            && Inv(s') && !s'.books.down && s'.world.lounge == s.world.lounge
            && Due(s'.books, |s.books.requests|) == 1
            && s'.books.requests == s.books.requests + [Request(u, GameRequest(name))]
  {
    GameCallIsPosted(s, u, name);
    StepKeepsInv(s, Receive(u, GameRequest(name)));
    var tk := NewTicket(s.books, u, GameRequest(name));
    assert Balanced(s.books, |s.books.requests|);
    WaitingAppend(s.books.tickets, Some(tk), |s.books.requests|);
  }

  lemma AnotherConnection(s: State, u: Addr, v: Addr)
    requires Inv(s) && !s.books.down && u != v && M.Ready(s.world.lounge, u, M.Alive) && v !in s.world.lounge.users
    ensures Enabled(s, Step(M.Connect(v)))
    ensures var s' := Stepped(s, M.Connect(v));
            && Inv(s') && s'.books == s.books && Cids(s') == Cids(s)
            && M.Ready(s'.world.lounge, u, M.Alive) && M.Ready(s'.world.lounge, v, M.Alive)
  {
    StepKeepsInv(s, Step(M.Connect(v)));
    StepKeepsCids(s, Step(M.Connect(v)));
  }

  /** Two users, both about to send a request; nothing has been sent yet. */
  ghost predicate BothReady(s: State, u: Addr, v: Addr) {
    && Inv(s) && s.books == NO_BOOKS && T.TABLE in Cids(s)
    && u != v && M.Ready(s.world.lounge, u, M.Alive) && M.Ready(s.world.lounge, v, M.Alive)
  }

  /** A request that was posted without a reply, in a process that has ended. */
  ghost predicate Abandoned(b: Books, u: Addr, jv: R.Json) {
    && |b.requests| == 2 && b.requests[0] == Request(u, jv) && R.HasId(jv) && !R.BadCid(jv)
    && Answers(b.replies, 0) == 0 && b.down
  }

  lemma GoodThenBad(s: State, u: Addr, v: Addr, name: string, bad: R.Json)
    requires BothReady(s, u, v) && name in R.Methods(R.Table) && R.BadCid(bad)
    ensures Enabled(s, Receive(u, GameRequest(name)))
    ensures var s1 := Received(s, u, GameRequest(name));
            && Enabled(s1, Receive(v, bad))
            && Abandoned(Received(s1, v, bad).books, u, GameRequest(name))
  {
    GameCallIsPosted(s, u, name);
    PostedIsDue(s, u, name);
    var s1 := Received(s, u, GameRequest(name));
    BystanderUnanswered(s1, Receive(v, bad), 0);
    FatalSteps(s1, Receive(v, bad));
    RequestSteps(s1, Receive(v, bad));
  }

  lemma BothConnect(s0: State, u: Addr, v: Addr)
    requires Initial(s0) && T.TABLE in Cids(s0) && u != v
    ensures Enabled(s0, Step(M.Connect(u)))
    ensures var s1 := Stepped(s0, M.Connect(u));
            Enabled(s1, Step(M.Connect(v))) && BothReady(Stepped(s1, M.Connect(v)), u, v)
  {
    FirstConnection(s0, u);
    AnotherConnection(Stepped(s0, M.Connect(u)), u, v);
  }

  /** So from the start: one user's game call, well-formed and routed, and another user's bad cid. */
  lemma GoodRequestUnanswered(s0: State, u: Addr, v: Addr, name: string, bad: R.Json) returns (es: seq<Event>)
    requires Initial(s0) && T.TABLE in Cids(s0) && u != v && name in R.Methods(R.Table) && R.BadCid(bad)
    ensures CanRun(s0, es) && Abandoned(After(s0, es).books, u, GameRequest(name))
  {
    BothConnect(s0, u, v);
    var s1 := Stepped(s0, M.Connect(u));
    var s2 := Stepped(s1, M.Connect(v));
    GoodThenBad(s2, u, v, name, bad);
    var good := Receive(u, GameRequest(name));
    Prepend(Next(s2, good), Receive(v, bad), []);
    var es2 := [good] + ([Receive(v, bad)] + []);
    Prepend(s2, good, [Receive(v, bad)] + []);
    Prepend(s1, Step(M.Connect(v)), es2);
    Prepend(s0, Step(M.Connect(u)), [Step(M.Connect(v))] + es2);
    es := [Step(M.Connect(u))] + ([Step(M.Connect(v))] + es2);
  }
}
