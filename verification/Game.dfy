/**
 The seats of the blackjack table: `seat` and `game` of the server.

 The functions give the new state and the outcome of each operation; the class
 `Game` holds the fields the source updates in place, and each of its methods
 is proved against the function of the same name.
 */
module Game {
  import opened Wrappers
  import Membership
  import Shoe
  import Hand

  type Addr = Membership.Addr
  type Card = Shoe.Card

  const SEATS := 6
  const CAPACITY := Hand.CAPACITY
  const BUY_IN := 1000
  const BET := 5

  datatype SeatState = Dealer | Waiting | Playing | Leaves | Open

  datatype Seat = Seat(user: Option<Addr>, state: SeatState, cards: seq<Card>, chips: int, wager: int)

  datatype Table = Table(seats: seq<Seat>, turn: nat)

  datatype Error = NotPlaying | AlreadyPlaying | AlreadyLeaving | NoOpenSeat | NoMoreBets

  datatype Outcome = Done(value: nat) | Refused(error: Error)

  datatype Event =
    | EvJoin(u: Addr)
    | EvLeave(u: Addr)
    | EvSurrender(u: Addr)
    | EvBet(u: Addr)
    | EvStart(card: Card)

  predicate Holds(s: Seat, u: Addr) {
    !s.state.Open? && s.user == Some(u)
  }

  /** The first seat from `i` on held by `u`; 0, the dealer's seat, stands for none. */
  function FindFrom(seats: seq<Seat>, u: Addr, i: nat): (r: nat)
    requires i <= |seats|
    ensures r == 0 || r < |seats|
    decreases |seats| - i
  {
    if i == |seats| then 0
    else if Holds(seats[i], u) then i
    else FindFrom(seats, u, i + 1)
  }

  function Find(t: Table, u: Addr): (r: nat)
    ensures r == 0 || r < |t.seats|
  {
    FindFrom(t.seats, u, 0)
  }

  /** The first open seat from `i` on, or the number of seats. */
  function OpenFrom(seats: seq<Seat>, i: nat): nat
    requires i <= |seats|
    decreases |seats| - i
  {
    if i == |seats| || seats[i].state.Open? then i else OpenFrom(seats, i + 1)
  }

  function Join(t: Table, u: Addr): (Table, Outcome) {
    if Find(t, u) != 0 then (t, Refused(AlreadyPlaying))
    else
      var i := OpenFrom(t.seats, 0);
      if i < |t.seats|
      then (t.(seats := t.seats[i := t.seats[i].(user := Some(u), state := Playing)]), Done(i))
      else (t, Refused(NoOpenSeat))
  }

  function Cleared(s: Seat): Seat {
    s.(cards := [], wager := 0, chips := BUY_IN)
  }

  function Leave(t: Table, u: Addr): (Table, Outcome) {
    var i := Find(t, u);
    if i == 0 then (t, Refused(NotPlaying))
    else match t.seats[i].state
      case Waiting => (t.(seats := t.seats[i := t.seats[i].(state := Open)]), Done(2))
      case Playing => (t.(seats := t.seats[i := Cleared(t.seats[i].(state := Leaves))]), Done(1))
      case _ => (t, Refused(AlreadyLeaving))
  }

  /** The seat is opened; its user, cards, chips and wager are left as they are. */
  function Surrender(t: Table, u: Addr): Table {
    var i := Find(t, u);
    if i == 0 then t
    else t.(seats := t.seats[i := t.seats[i].(state := Open)])
  }

  function Bet(t: Table, u: Addr): (Table, Outcome) {
    var i := Find(t, u);
    if i == 0 then (t, Refused(NotPlaying))
    else if t.seats[i].state.Playing? || t.seats[i].state.Leaves? then
      (t.(seats := t.seats[i := t.seats[i].(wager := t.seats[i].wager + BET,
                                            chips := t.seats[i].chips - BET)]), Done(0))
    else (t, Refused(NoMoreBets))
  }

  /** Whether the next card fits; otherwise `push_back` throws out of the posted handler. */
  predicate HasRoom(t: Table) {
    t.turn < |t.seats| && |t.seats[t.turn].cards| < CAPACITY
  }

  function Start(t: Table, card: Card): Table
    requires HasRoom(t)
  {
    var seat := t.seats[t.turn];
    Table(t.seats[t.turn := seat.(cards := seat.cards + [card])],
          if t.turn + 1 >= |t.seats| then 0 else t.turn + 1)
  }

  predicate Enabled(t: Table, e: Event) {
    e.EvStart? ==> HasRoom(t)
  }

  function Next(t: Table, e: Event): Table
    requires Enabled(t, e)
  {
    match e
    case EvJoin(u) => Join(t, u).0
    case EvLeave(u) => Leave(t, u).0
    case EvSurrender(u) => Surrender(t, u)
    case EvBet(u) => Bet(t, u).0
    case EvStart(card) => Start(t, card)
  }

  ghost predicate CanRun(t: Table, es: seq<Event>)
    decreases |es|
  {
    es == [] || (Enabled(t, es[0]) && CanRun(Next(t, es[0]), es[1..]))
  }

  ghost function After(t: Table, es: seq<Event>): Table
    requires CanRun(t, es)
    decreases |es|
  {
    if es == [] then t else After(Next(t, es[0]), es[1..])
  }

  /** A new game; `chips` is not initialised by the source, so its values are arbitrary. */
  ghost predicate Fresh(t: Table) {
    && |t.seats| == SEATS && t.turn == 0
    && (forall i | 0 <= i < SEATS ::
          && t.seats[i].user.None? && t.seats[i].cards == [] && t.seats[i].wager == 0
          && t.seats[i].state == (if i == 0 then Dealer else Open))
  }

  ghost predicate SeatOk(s: Seat) {
    s.state in {Playing, Leaves, Open} && (!s.state.Open? ==> s.user.Some?)
  }

  ghost predicate Valid(t: Table) {
    && |t.seats| == SEATS && t.turn < SEATS
    && t.seats[0].state.Dealer? && t.seats[0].user.None?
    && (forall i | 1 <= i < SEATS :: SeatOk(t.seats[i]))
    && (forall i | 0 <= i < SEATS :: |t.seats[i].cards| <= CAPACITY)
    && (forall i, j | 1 <= i < j < SEATS && !t.seats[i].state.Open? && !t.seats[j].state.Open? ::
          t.seats[i].user != t.seats[j].user)
  }

  lemma {:induction false} FindFromSpec(seats: seq<Seat>, u: Addr, i: nat)
    requires i <= |seats|
    ensures var r := FindFrom(seats, u, i);
            || (r == 0 && forall k | i <= k < |seats| :: k != 0 ==> !Holds(seats[k], u))
            || (i <= r < |seats| && Holds(seats[r], u))
    decreases |seats| - i
  {
    if i < |seats| && !Holds(seats[i], u) { FindFromSpec(seats, u, i + 1); }
  }

  /** `find` returns a player seat exactly when the user holds that seat. */
  lemma FindSpec(t: Table, u: Addr)
    requires Valid(t)
    ensures Find(t, u) < SEATS
    ensures forall i | 1 <= i < SEATS :: Find(t, u) == i <==> Holds(t.seats[i], u)
  {
    FindFromSpec(t.seats, u, 0);
    var r := Find(t, u);
    assert !Holds(t.seats[0], u);
    forall i | 1 <= i < SEATS && Holds(t.seats[i], u) ensures r == i {
      assert Holds(t.seats[r], u);
    }
  }

  lemma {:induction false} OpenFromSpec(seats: seq<Seat>, i: nat)
    requires i <= |seats|
    ensures var r := OpenFrom(seats, i);
            && i <= r <= |seats| && (r < |seats| ==> seats[r].state.Open?)
            && (forall k | i <= k < r :: !seats[k].state.Open?)
    decreases |seats| - i
  {
    if i < |seats| && !seats[i].state.Open? { OpenFromSpec(seats, i + 1); }
  }

  /**
   `join` is refused exactly to a user who already holds a seat, or who holds none
   while the five player seats are taken; otherwise it gives the lowest open seat.
   */
  lemma JoinSpec(t: Table, u: Addr)
    requires Valid(t)
    ensures var (t', r) := Join(t, u);
            && (r == Refused(AlreadyPlaying) <==> exists i :: 1 <= i < SEATS && Holds(t.seats[i], u))
            && (r == Refused(NoOpenSeat) <==>
                  && (forall i | 1 <= i < SEATS :: !t.seats[i].state.Open?)
                  && (forall i | 1 <= i < SEATS :: !Holds(t.seats[i], u)))
            && (r.Refused? ==> t' == t && r.error in {AlreadyPlaying, NoOpenSeat})
            && (r.Done? ==>
                  && 1 <= r.value < SEATS && t.seats[r.value].state.Open?
                  && (forall i | 1 <= i < r.value :: !t.seats[i].state.Open?)
                  && Holds(t'.seats[r.value], u)
                  && t'.seats[r.value] == t.seats[r.value].(user := Some(u), state := Playing)
                  && t' == t.(seats := t.seats[r.value := t'.seats[r.value]]))
  {
    FindSpec(t, u);
    OpenFromSpec(t.seats, 0);
    if Find(t, u) != 0 { assert Holds(t.seats[Find(t, u)], u); }
  }

  lemma StepKeepsValid(t: Table, e: Event)
    requires Valid(t) && Enabled(t, e)
    ensures Valid(Next(t, e))
  {
    match e
    case EvJoin(u) => JoinSpec(t, u); FindSpec(t, u);
    case EvLeave(u) => FindSpec(t, u);
    case EvSurrender(u) => FindSpec(t, u);
    case EvBet(u) => FindSpec(t, u);
    case EvStart(_) =>
  }

  /**
   In every run from a new game the dealer keeps seat 0, nobody holds two seats,
   no seat is ever `waiting`, and no hand outgrows its buffer.
   */
  lemma {:induction false} RunKeepsValid(t: Table, es: seq<Event>)
    requires (Fresh(t) || Valid(t)) && CanRun(t, es)
    ensures Valid(After(t, es))
    decreases |es|
  {
    if es != [] {
      StepKeepsValid(t, es[0]);
      RunKeepsValid(Next(t, es[0]), es[1..]);
    }
  }

  /** Hence two branches of the source are dead: `leave` never returns 2, `bet` is never too late. */
  lemma DeadBranches(t: Table, es: seq<Event>, u: Addr)
    requires Fresh(t) && CanRun(t, es)
    ensures Leave(After(t, es), u).1 != Done(2)
    ensures Bet(After(t, es), u).1 != Refused(NoMoreBets)
  {
    RunKeepsValid(t, es);
    FindSpec(After(t, es), u);
  }

  /** Who holds a seat keeps that very seat until it surrenders it. */
  lemma {:induction false} SeatKeptUntilSurrender(t: Table, es: seq<Event>, i: nat, u: Addr)
    requires Valid(t) && CanRun(t, es) && 1 <= i < SEATS && Holds(t.seats[i], u)
    requires EvSurrender(u) !in es
    ensures |After(t, es).seats| == SEATS && Holds(After(t, es).seats[i], u)
    ensures t.seats[i].state.Leaves? ==> After(t, es).seats[i].state.Leaves?
    decreases |es|
  {
    if es != [] {
      StepKeepsValid(t, es[0]);
      SeatChanges(t, es[0], i);
      SeatKeptUntilSurrender(Next(t, es[0]), es[1..], i, u);
    }
  }

  /**
   What an operation does to a seat: nothing to the seat of another user, and to
   one's own exactly the change asked for.  Joining takes one open seat.
   */
  lemma SeatChanges(t: Table, e: Event, i: nat)
    requires Valid(t) && Enabled(t, e) && i < SEATS
    ensures var s, s' := t.seats[i], Next(t, e).seats[i];
            match e
            case EvJoin(u) => s' == s || (s.state.Open? && s' == s.(user := Some(u), state := Playing))
            case EvLeave(u) =>
              s' == if Holds(s, u) && s.state.Playing? then Seat(s.user, Leaves, [], 1000, 0) else s
            case EvSurrender(u) => s' == if Holds(s, u) then s.(state := Open) else s
            case EvBet(u) =>
              s' == if Holds(s, u) then s.(chips := s.chips - 5, wager := s.wager + 5) else s
            case EvStart(card) =>
              s' == if i == t.turn then s.(cards := s.cards + [card]) else s
  {
    match e
    case EvJoin(u) => JoinSpec(t, u);
    case EvLeave(u) => FindSpec(t, u);
    case EvSurrender(u) => FindSpec(t, u);
    case EvBet(u) => FindSpec(t, u);
    case EvStart(_) =>
  }

  /** `leave` and `bet` are refused exactly to users without a seat, and `leave` to those already leaving. */
  lemma RefusalsSpec(t: Table, u: Addr)
    requires Valid(t)
    ensures Bet(t, u).1 == (if Find(t, u) == 0 then Refused(NotPlaying) else Done(0))
    ensures Leave(t, u).1 == if Find(t, u) == 0 then Refused(NotPlaying)
                             else if t.seats[Find(t, u)].state.Leaves? then Refused(AlreadyLeaving) else Done(1)
  {
    FindSpec(t, u);
  }

  /** What those branches would do to a seat that is waiting: `leave` opens it, `bet` comes too late. */
  lemma WaitingSeat(t: Table, u: Addr)
    requires Find(t, u) != 0
    ensures var i := Find(t, u);
            match t.seats[i].state
            case Waiting =>
              && Leave(t, u) == (t.(seats := t.seats[i := t.seats[i].(state := Open)]), Done(2))
              && Bet(t, u) == (t, Refused(NoMoreBets))
            case Playing => true
            case _ => Leave(t, u) == (t, Refused(AlreadyLeaving))
  {
  }

  // ----- the hands -----

  /** The `leave` that clears seat `i`. */
  predicate ClearsNow(t: Table, e: Event, i: nat) {
    e.EvLeave? && Find(t, e.u) == i && 0 < i < |t.seats| && t.seats[i].state.Playing?
  }

  /** Whether some `leave` of the run clears seat `i`. */
  ghost predicate Clears(t: Table, es: seq<Event>, i: nat)
    requires CanRun(t, es)
    decreases |es|
  {
    es != [] && (ClearsNow(t, es[0], i) || Clears(Next(t, es[0]), es[1..], i))
  }

  /** How much of the run is over when seat `i` is cleared for the last time; 0 if it never is. */
  ghost function LastClear(t: Table, es: seq<Event>, i: nat): (k: nat)
    requires CanRun(t, es)
    ensures k <= |es| && (k > 0 <==> Clears(t, es, i))
    decreases |es|
  {
    if es == [] then 0
    else
      var k := LastClear(Next(t, es[0]), es[1..], i);
      if k > 0 then k + 1 else if ClearsNow(t, es[0], i) then 1 else 0
  }

  function CardsOf(es: seq<Event>): seq<Card> {
    if es == [] then [] else (if es[0].EvStart? then [es[0].card] else []) + CardsOf(es[1..])
  }

  /** The turn passes from the last seat to the dealer. */
  function Passed(turn: nat): nat {
    if turn + 1 == SEATS then 0 else turn + 1
  }

  /** The seat whose turn it is after `n` more cards. */
  function TurnAfter(turn: nat, n: nat): nat
    decreases n
  {
    if n == 0 then turn else TurnAfter(Passed(turn), n - 1)
  }

  lemma {:induction false} TurnIsRemainder(turn: nat, n: nat)
    requires turn < SEATS
    ensures TurnAfter(turn, n) == (turn + n) % SEATS
    decreases n
  {
    if n > 0 { TurnIsRemainder(Passed(turn), n - 1); }
  }

  /** What seat `i` gets of the cards when they go round the table, beginning with the seat `turn`. */
  function Portion(turn: nat, cards: seq<Card>, i: nat): seq<Card>
    decreases |cards|
  {
    if cards == [] then []
    else (if turn == i then [cards[0]] else []) + Portion(Passed(turn), cards[1..], i)
  }

  /** That is every sixth card, beginning with the first one to reach the seat. */
  lemma {:induction false} PortionSize(turn: nat, cards: seq<Card>, i: nat)
    requires turn < SEATS && i < SEATS
    ensures |Portion(turn, cards, i)|
            == (|cards| + SEATS - 1 - (if i >= turn then i - turn else i + SEATS - turn)) / SEATS
    decreases |cards|
  {
    if cards != [] { PortionSize(Passed(turn), cards[1..], i); }
  }

  /** Only `start` moves the turn and deals a card, and only a clearing `leave` takes cards away. */
  lemma HandChanges(t: Table, e: Event, i: nat)
    requires Valid(t) && Enabled(t, e) && i < SEATS
    ensures var t' := Next(t, e);
            && t'.turn == (if e.EvStart? then Passed(t.turn) else t.turn)
            && t'.seats[i].cards == if ClearsNow(t, e, i) then []
                                    else t.seats[i].cards + (if e.EvStart? && i == t.turn then [e.card] else [])
  {
    match e
    case EvJoin(u) => JoinSpec(t, u);
    case EvLeave(u) => FindSpec(t, u);
    case EvSurrender(u) => FindSpec(t, u);
    case EvBet(u) => FindSpec(t, u);
    case EvStart(_) =>
  }

  /** In every run the turn goes round once per card dealt. */
  lemma {:induction false} TurnGoesRound(t: Table, es: seq<Event>)
    requires Valid(t) && CanRun(t, es)
    ensures After(t, es).turn == TurnAfter(t.turn, |CardsOf(es)|)
    decreases |es|
  {
    if es != [] {
      StepKeepsValid(t, es[0]);
      HandChanges(t, es[0], 0);
      TurnGoesRound(Next(t, es[0]), es[1..]);
    }
  }

  lemma PortionUnfolds(held: seq<Card>, turn: nat, es: seq<Event>, i: nat)
    requires es != [] && turn < SEATS
    ensures var turn' := if es[0].EvStart? then Passed(turn) else turn;
            held + Portion(turn, CardsOf(es), i)
            == held + (if es[0].EvStart? && i == turn then [es[0].card] else [])
               + Portion(turn', CardsOf(es[1..]), i)
  {
    assert if es[0].EvStart? then CardsOf(es)[1..] == CardsOf(es[1..]) else CardsOf(es) == CardsOf(es[1..]);
  }

  /** A seat that is not cleared adds its portion to what it holds. */
  lemma {:induction false} UnclearedHand(t: Table, es: seq<Event>, i: nat)
    requires Valid(t) && CanRun(t, es) && i < SEATS && !Clears(t, es, i)
    ensures |After(t, es).seats| == SEATS
    ensures After(t, es).seats[i].cards == t.seats[i].cards + Portion(t.turn, CardsOf(es), i)
    decreases |es|
  {
    if es == [] {
      assert t.seats[i].cards + [] == t.seats[i].cards;
    } else {
      var t1 := Next(t, es[0]);
      StepKeepsValid(t, es[0]);
      HandChanges(t, es[0], i);
      UnclearedHand(t1, es[1..], i);
      PortionUnfolds(t.seats[i].cards, t.turn, es, i);
    }
  }

  lemma SplitCards(es: seq<Event>, k: nat)
    requires k < |es|
    ensures es[k + 1..] == es[1..][k..] && (k == 0 ==> es[1..][k..] == es[1..])
    ensures |CardsOf(es[..k + 1])| == (if es[0].EvStart? then 1 else 0) + |CardsOf(es[1..][..k])|
  {
    assert es[..k + 1][1..] == es[1..][..k];
  }

  /** A seat that is cleared ends up with its portion of the cards dealt after the last time. */
  lemma {:induction false} ClearedHand(t: Table, es: seq<Event>, i: nat)
    requires Valid(t) && CanRun(t, es) && i < SEATS && Clears(t, es, i)
    ensures |After(t, es).seats| == SEATS
    ensures var k := LastClear(t, es, i);
            After(t, es).seats[i].cards
            == Portion(TurnAfter(t.turn, |CardsOf(es[..k])|), CardsOf(es[k..]), i)
    decreases |es|
  {
    var t1 := Next(t, es[0]);
    var k1 := LastClear(t1, es[1..], i);
    StepKeepsValid(t, es[0]);
    HandChanges(t, es[0], i);
    if k1 > 0 {
      ClearedHand(t1, es[1..], i);
      SplitCards(es, k1);
    } else {
      UnclearedHand(t1, es[1..], i);
      SplitCards(es, 0);
    }
  }

  /** Both cases, for a game from its beginning. */
  lemma {:induction false} HandFromFresh(t: Table, es: seq<Event>, i: nat)
    requires Fresh(t) && CanRun(t, es) && i < SEATS
    ensures |After(t, es).seats| == SEATS
    ensures var k := LastClear(t, es, i);
            After(t, es).seats[i].cards == Portion(TurnAfter(0, |CardsOf(es[..k])|), CardsOf(es[k..]), i)
  {
    if Clears(t, es, i) {
      ClearedHand(t, es, i);
    } else {
      UnclearedHand(t, es, i);
      assert es[..0] == [] && es[0..] == es;
      assert [] + Portion(0, CardsOf(es), i) == Portion(0, CardsOf(es), i);
    }
  }

  /**
   Hence exactly when the next `start` is served in a game: when the seat whose turn it
   is has been given fewer than 22 cards since it was last cleared.
   */
  lemma {:induction false} StartFitsIff(t: Table, es: seq<Event>, card: Card)
    requires Fresh(t) && CanRun(t, es)
    ensures var i := |CardsOf(es)| % SEATS;
            var k := LastClear(t, es, i);
            Enabled(After(t, es), EvStart(card))
            <==> |Portion(|CardsOf(es[..k])| % SEATS, CardsOf(es[k..]), i)| < 22
  {
    var i := |CardsOf(es)| % SEATS;
    TurnGoesRound(t, es);
    TurnIsRemainder(0, |CardsOf(es)|);
    TurnIsRemainder(0, |CardsOf(es[..LastClear(t, es, i)])|);
    HandFromFresh(t, es, i);
  }

  /** How many cards the hands hold together. */
  const TABLE_CAPACITY := SEATS * CAPACITY

  /** A table at which `n` cards went round and none were taken away. */
  ghost predicate Even(t: Table, n: nat) {
    && Valid(t) && t.turn == n % SEATS
    && forall i | 0 <= i < SEATS :: |t.seats[i].cards| == (n + SEATS - 1 - i) / SEATS
  }

  lemma EvenHasRoom(t: Table, n: nat)
    requires Even(t, n)
    ensures HasRoom(t) <==> n < TABLE_CAPACITY
  {
    assert |t.seats[n % SEATS].cards| == (n + SEATS - 1 - n % SEATS) / SEATS == n / SEATS;
  }

  /** One more card goes to the seat whose turn it is. */
  lemma EvenCount(n: nat, i: nat)
    requires i < SEATS
    ensures (n + 1) % SEATS == Passed(n % SEATS)
    ensures (n + 1 + SEATS - 1 - i) / SEATS == (n + SEATS - 1 - i) / SEATS + (if i == n % SEATS then 1 else 0)
  {
  }

  lemma EvenStep(t: Table, e: Event, n: nat)
    requires Even(t, n) && !e.EvLeave? && Enabled(t, e)
    ensures Even(Next(t, e), if e.EvStart? then n + 1 else n)
  {
    StepKeepsValid(t, e);
    forall i | 0 <= i < SEATS
      ensures |Next(t, e).seats[i].cards| == ((if e.EvStart? then n + 1 else n) + SEATS - 1 - i) / SEATS
    {
      EvenCount(n, i);
      HandChanges(t, e, i);
    }
    EvenCount(n, 0);
    HandChanges(t, e, 0);
  }

  lemma {:induction false} EvenRuns(t: Table, es: seq<Event>, n: nat)
    requires Even(t, n) && n <= TABLE_CAPACITY && forall e | e in es :: !e.EvLeave?
    ensures CanRun(t, es) <==> n + |CardsOf(es)| <= TABLE_CAPACITY
    decreases |es|
  {
    if es != [] {
      assert es[0] in es;
      EvenHasRoom(t, n);
      if Enabled(t, es[0]) {
        EvenStep(t, es[0], n);
        EvenRuns(Next(t, es[0]), es[1..], if es[0].EvStart? then n + 1 else n);
      }
    }
  }

  lemma {:induction false} NoLeaveNoClear(t: Table, es: seq<Event>, i: nat)
    requires CanRun(t, es) && forall e | e in es :: !e.EvLeave?
    ensures !Clears(t, es, i)
    decreases |es|
  {
    if es != [] {
      assert es[0] in es;
      NoLeaveNoClear(Next(t, es[0]), es[1..], i);
    }
  }

  /**
   As long as nobody leaves, however many join, bet and surrender, seat i holds every
   sixth card from the i-th on, and exactly 6 * 22 starts are served.  The next one
   overflows a hand, which nothing in the source prevents or catches.
   */
  lemma StartsFitExactly(t: Table, es: seq<Event>)
    requires Fresh(t) && forall e | e in es :: !e.EvLeave?
    ensures CanRun(t, es) <==> |CardsOf(es)| <= 132
    ensures CanRun(t, es) ==>
              && |After(t, es).seats| == SEATS
              && forall i | 0 <= i < SEATS :: After(t, es).seats[i].cards == Portion(0, CardsOf(es), i)
  {
    EvenRuns(t, es, 0);
    if CanRun(t, es) {
      RunKeepsValid(t, es);
      var seats := After(t, es).seats;
      forall i | 0 <= i < SEATS ensures seats[i].cards == Portion(0, CardsOf(es), i) {
        NoLeaveNoClear(t, es, i);
        UnclearedHand(t, es, i);
        assert [] + Portion(0, CardsOf(es), i) == Portion(0, CardsOf(es), i);
      }
    }
  }

  // ----- chips -----

  function Worth(s: Seat): int {
    s.chips + s.wager
  }

  /** Chips and wager of a seat are conserved by every operation but the `leave` that clears it. */
  lemma StepConservesWorth(t: Table, e: Event, i: nat)
    requires Valid(t) && Enabled(t, e) && i < SEATS
    ensures Worth(Next(t, e).seats[i])
            == if e.EvLeave? && i != 0 && Holds(t.seats[i], e.u) && t.seats[i].state.Playing?
               then BUY_IN else Worth(t.seats[i])
  {
    match e
    case EvJoin(u) => JoinSpec(t, u);
    case EvLeave(u) => FindSpec(t, u);
    case EvSurrender(u) => FindSpec(t, u);
    case EvBet(u) => FindSpec(t, u);
    case EvStart(_) =>
  }

  /** Over a whole run: a seat is worth what it was at first until it is cleared, then 1000 for good. */
  lemma {:induction false} RunConservesWorth(t: Table, es: seq<Event>, i: nat)
    requires Valid(t) && CanRun(t, es) && i < SEATS
    ensures |After(t, es).seats| == SEATS
    ensures Worth(After(t, es).seats[i]) == if Clears(t, es, i) then 1000 else Worth(t.seats[i])
    decreases |es|
  {
    if es != [] {
      StepKeepsValid(t, es[0]);
      StepConservesWorth(t, es[0], i);
      RunConservesWorth(Next(t, es[0]), es[1..], i);
      if es[0].EvLeave? { FindSpec(t, es[0].u); }
    }
  }

  // ----- the fields and their updates -----

  class Game {
    var seats: seq<Seat>
    var turn: nat

    ghost function Value(): Table
      reads this
    {
      Table(seats, turn)
    }

    constructor (chips: seq<int>)
      requires |chips| == SEATS
      ensures Fresh(Value())
      ensures forall i | 0 <= i < SEATS :: seats[i].chips == chips[i]
    {
      seats := seq(SEATS, i requires 0 <= i < SEATS =>
                     Seat(None, if i == 0 then Dealer else Open, [], chips[i], 0));
      turn := 0;
    }

    method FindSeat(u: Addr) returns (r: nat)
      ensures r == Find(Value(), u)
    {
      for i := 0 to |seats|
        invariant FindFrom(seats, u, 0) == FindFrom(seats, u, i)
      {
        if !seats[i].state.Open? && seats[i].user == Some(u) { return i; }
      }
      return 0;
    }

    method JoinGame(u: Addr) returns (r: Outcome)
      modifies this
      ensures (Value(), r) == Join(old(Value()), u)
    {
      var at := FindSeat(u);
      if at != 0 { return Refused(AlreadyPlaying); }
      for i := 0 to |seats|
        invariant seats == old(seats) && turn == old(turn)
        invariant OpenFrom(seats, 0) == OpenFrom(seats, i)
      {
        if seats[i].state.Open? {
          seats := seats[i := seats[i].(user := Some(u), state := Playing)];
          return Done(i);
        }
      }
      return Refused(NoOpenSeat);
    }

    method LeaveGame(u: Addr) returns (r: Outcome)
      modifies this
      ensures (Value(), r) == Leave(old(Value()), u)
    {
      var i := FindSeat(u);
      if i == 0 { return Refused(NotPlaying); }
      match seats[i].state
      case Waiting =>
        seats := seats[i := seats[i].(state := Open)];
        r := Done(2);
      case Playing =>
        seats := seats[i := seats[i].(state := Leaves)];
        seats := seats[i := Cleared(seats[i])];
        assert seats == old(seats)[i := Cleared(old(seats)[i].(state := Leaves))];
        r := Done(1);
      case _ =>
        r := Refused(AlreadyLeaving);
    }

    method SurrenderSeat(u: Addr) returns (gaveUp: bool)
      modifies this
      ensures Value() == Surrender(old(Value()), u)
      ensures gaveUp <==> Find(old(Value()), u) != 0
    {
      var i := FindSeat(u);
      if i == 0 { return false; }
      seats := seats[i := seats[i].(state := Open)];
      return true;
    }

    method PlaceBet(u: Addr) returns (r: Outcome)
      modifies this
      ensures (Value(), r) == Bet(old(Value()), u)
    {
      var i := FindSeat(u);
      if i == 0 { return Refused(NotPlaying); }
      if !seats[i].state.Playing? && !seats[i].state.Leaves? { return Refused(NoMoreBets); }
      seats := seats[i := seats[i].(wager := seats[i].wager + BET)];
      seats := seats[i := seats[i].(chips := seats[i].chips - BET)];
      assert seats == old(seats)[i := seats[i]];
      r := Done(0);
    }

    /** On a full hand `push_back` throws, when `turn` has already moved on and not been wrapped. */
    method DealOne(card: Card) returns (thrown: bool)
      requires turn < |seats|
      modifies this
      ensures thrown <==> !HasRoom(old(Value()))
      ensures !thrown ==> Value() == Start(old(Value()), card)
      ensures thrown ==> seats == old(seats) && turn == old(turn) + 1
    {
      var at := turn;
      turn := turn + 1;
      if |seats[at].cards| >= CAPACITY { return true; }
      seats := seats[at := seats[at].(cards := seats[at].cards + [card])];
      if turn >= |seats| { turn := 0; }
      return false;
    }
  }
}
