/**
 A blackjack hand: the value of a card, the evaluation that counts aces as 11
 and takes 10 back while the hand is over 21, and playing a hand out.
 */
module Hand {
  import opened Shoe

  const CAPACITY := 22

  /** The remainder of C++ division, which truncates towards zero. */
  function CppRem(a: int, b: int): int
    requires b > 0
  {
    if a >= 0 then a % b else -((-a) % b)
  }

  /** The value of a card: 1 for an ace, 0 for the hole card. */
  function Value(c: Card): (v: int)
    ensures 0 <= v <= 10 && (v == 0 <==> c == 0)
  {
    var v := 1 + CppRem(c - 1, 13);
    if v > 10 then 10 else v
  }

  predicate IsAce(c: Card) {
    Value(c) == 1
  }

  /** A card of rank 1 to 13 in one of the four suits 0 to 3. */
  function CardOf(suit: nat, rank: nat): Card
    requires suit < 4 && 1 <= rank <= 13
  {
    13 * suit + rank
  }

  /** In every suit the ranks 1 to 9 are worth their number and the ranks 10 to 13 ten; the hole card nothing. */
  lemma ValueSpec(suit: nat, rank: nat)
    requires suit < 4 && 1 <= rank <= 13
    ensures Value(CardOf(suit, rank)) == (if rank <= 10 then rank else 10) && Value(0) == 0
    ensures IsAce(CardOf(suit, rank)) <==> rank == 1
  {
    assert (13 * suit + (rank - 1)) % 13 == rank - 1;
  }

  /** Every card but the hole card has a suit and a rank. */
  lemma RankAndSuit(c: Card) returns (suit: nat, rank: nat)
    requires c >= 1
    ensures suit < 4 && 1 <= rank <= 13 && c == CardOf(suit, rank)
  {
    suit, rank := (c - 1) / 13, (c - 1) % 13 + 1;
  }

  /** Ace and ten by their codes: 1, 14, 27, 40, and the last four ranks of each suit. */
  predicate AceCode(c: Card) {
    c in {1, 14, 27, 40}
  }

  predicate TenCode(c: Card) {
    10 <= c <= 13 || 23 <= c <= 26 || 36 <= c <= 39 || 49 <= c <= 52
  }

  lemma CodesSpec(c: Card)
    ensures Value(c) == 1 <==> AceCode(c)
    ensures Value(c) == 10 <==> TenCode(c)
  {
    if c >= 1 {
      var suit, rank := RankAndSuit(c);
      ValueSpec(suit, rank);
      assert suit == 0 || suit == 1 || suit == 2 || suit == 3;
    }
  }

  /** The total with every ace counted as 1. */
  function Low(cards: seq<Card>): (r: nat) {
    if cards == [] then 0 else Low(cards[..|cards| - 1]) + Value(cards[|cards| - 1])
  }

  function Aces(cards: seq<Card>): (r: nat)
    ensures r <= |cards|
  {
    if cards == [] then 0
    else Aces(cards[..|cards| - 1]) + (if IsAce(cards[|cards| - 1]) then 1 else 0)
  }

  /** `while (total > 21 && aces--) total -= 10` */
  function Reduced(total: int, aces: nat): int {
    if total > 21 && aces > 0 then Reduced(total - 10, aces - 1) else total
  }

  /** The total `eval` settles on. */
  function Total(cards: seq<Card>): int {
    Reduced(Low(cards) + 10 * Aces(cards), Aces(cards))
  }

  // ----- what the total means -----

  /** The total when the aces marked in `high` count 11 and the others 1. */
  function Counted(cards: seq<Card>, high: seq<bool>): int
    requires |high| == |cards|
  {
    if cards == [] then 0
    else
      var n := |cards| - 1;
      Counted(cards[..n], high[..n])
      + (if IsAce(cards[n]) && high[n] then 11 else Value(cards[n]))
  }

  lemma {:induction false} CountedIsLowPlusTens(cards: seq<Card>, high: seq<bool>) returns (k: nat)
    requires |high| == |cards|
    ensures k <= Aces(cards) && Counted(cards, high) == Low(cards) + 10 * k
    decreases |cards|
  {
    if cards == [] {
      k := 0;
    } else {
      var n := |cards| - 1;
      k := CountedIsLowPlusTens(cards[..n], high[..n]);
      if IsAce(cards[n]) && high[n] { k := k + 1; }
    }
  }

  /** Any number of the aces can be counted as 11. */
  lemma {:induction false} SomeCounting(cards: seq<Card>, k: nat) returns (high: seq<bool>)
    requires k <= Aces(cards)
    ensures |high| == |cards| && Counted(cards, high) == Low(cards) + 10 * k
    decreases |cards|
  {
    if cards == [] {
      high := [];
    } else {
      var n := |cards| - 1;
      var up := IsAce(cards[n]) && k > 0;
      var front := SomeCounting(cards[..n], if up then k - 1 else k);
      high := front + [up];
      assert high[..n] == front;
    }
  }

  lemma {:induction false} AcesAreWorthOne(cards: seq<Card>)
    ensures Aces(cards) <= Low(cards)
  {
    if cards != [] { AcesAreWorthOne(cards[..|cards| - 1]); }
  }

  lemma {:induction false} ReducedSpec(low: nat, k: nat)
    requires k <= low
    ensures Reduced(low + 10 * k, k) == if k > 0 && low <= 11 then low + 10 else low
    decreases k
  {
    if low + 10 * k > 21 && k > 0 {
      assert low + 10 * k - 10 == low + 10 * (k - 1);
      ReducedSpec(low, k - 1);
    }
  }

  /** At most one ace counts 11: when there is one and the rest is at most 10. */
  lemma SoftTotal(cards: seq<Card>)
    ensures Total(cards) == if Aces(cards) > 0 && Low(cards) <= 11 then Low(cards) + 10 else Low(cards)
  {
    AcesAreWorthOne(cards);
    ReducedSpec(Low(cards), Aces(cards));
  }

  /**
   The greedy total is one of the possible ones, and it is the best: none that is
   21 or less exceeds it, and when it is over 21 all are, and it counts aces as 1.
   */
  lemma {:induction false} TotalIsBest(cards: seq<Card>)
    ensures exists high :: |high| == |cards| && Counted(cards, high) == Total(cards)
    ensures forall high | |high| == |cards| && Counted(cards, high) <= 21 ::
              Counted(cards, high) <= Total(cards) <= 21
    ensures Total(cards) > 21 ==> Total(cards) == Low(cards)
  {
    SoftTotal(cards);
    var best := SomeCounting(cards, if Aces(cards) > 0 && Low(cards) <= 11 then 1 else 0);
    forall high | |high| == |cards| && Counted(cards, high) <= 21
      ensures Counted(cards, high) <= Total(cards) <= 21
    {
      NoneIsBetter(cards, high);
    }
  }

  lemma {:induction false} NoneIsBetter(cards: seq<Card>, high: seq<bool>)
    requires |high| == |cards| && Counted(cards, high) <= 21
    ensures Counted(cards, high) <= Total(cards) <= 21
  {
    SoftTotal(cards);
    AcesAreWorthOne(cards);
    var k := CountedIsLowPlusTens(cards, high);
  }

  // ----- the order of the cards -----

  lemma {:induction false} LowOfParts(a: seq<Card>, b: seq<Card>)
    ensures Low(a + b) == Low(a) + Low(b) && Aces(a + b) == Aces(a) + Aces(b)
    decreases |b|
  {
    if b == [] {
      assert a + b == a;
    } else {
      var n := |b| - 1;
      assert (a + b)[..|a + b| - 1] == a + b[..n];
      LowOfParts(a, b[..n]);
    }
  }

  lemma {:induction false} LowIgnoresOrder(a: seq<Card>, b: seq<Card>)
    requires multiset(a) == multiset(b)
    ensures Low(a) == Low(b) && Aces(a) == Aces(b)
    decreases |a|
  {
    if a == [] {
      assert |multiset(b)| == 0;
      assert b == [];
    } else {
      var n := |a| - 1;
      var j := WithoutLast(a, b);
      var rest := b[..j] + b[j + 1..];
      LowIgnoresOrder(a[..n], rest);
      LowOfParts(b[..j], b[j + 1..]);
      LowOfParts(b[..j + 1], b[j + 1..]);
      assert b == b[..j + 1] + b[j + 1..] && b[..j + 1][..j] == b[..j];
    }
  }

  lemma {:induction false} TakenOut(s: seq<Card>, j: nat)
    requires j < |s|
    ensures multiset(s) == multiset(s[..j] + s[j + 1..]) + multiset{s[j]}
  {
    assert s == s[..j] + [s[j]] + s[j + 1..];
  }

  /** Somewhere in b is the last card of a; without it both still hold the same cards. */
  lemma {:induction false} WithoutLast(a: seq<Card>, b: seq<Card>) returns (j: nat)
    requires a != [] && multiset(a) == multiset(b)
    ensures j < |b| && b[j] == a[|a| - 1]
    ensures multiset(a[..|a| - 1]) == multiset(b[..j] + b[j + 1..])
  {
    var n := |a| - 1;
    assert a[n] in multiset(b);
    j :| 0 <= j < |b| && b[j] == a[n];
    TakenOut(a, n);
    TakenOut(b, j);
    assert a[..n] + a[n + 1..] == a[..n];
    assert multiset(a[..n]) == multiset(a) - multiset{a[n]};
    assert multiset(b[..j] + b[j + 1..]) == multiset(b) - multiset{a[n]};
  }

  /** The total depends on which cards are held, not on their order. */
  lemma TotalIgnoresOrder(a: seq<Card>, b: seq<Card>)
    requires multiset(a) == multiset(b)
    ensures Total(a) == Total(b)
  {
    LowIgnoresOrder(a, b);
  }

  lemma LowOfTwo(x: Card, y: Card)
    ensures Low([x, y]) == Value(x) + Value(y)
    ensures Aces([x, y]) == (if IsAce(x) then 1 else 0) + (if IsAce(y) then 1 else 0)
  {
    assert [x, y][..1] == [x] && [x][..0] == [];
    assert Low([x]) == Low([]) + Value(x) && Low([x, y]) == Low([x]) + Value(y);
    assert Aces([x]) == Aces([]) + (if IsAce(x) then 1 else 0);
  }

  /** Two cards make 21 exactly when one is an ace and the other a ten, jack, queen or king. */
  lemma BlackjackIsAceAndTen(cards: seq<Card>)
    ensures |cards| == 2 && Total(cards) == 21 <==>
            && |cards| == 2
            && ((AceCode(cards[0]) && TenCode(cards[1])) || (TenCode(cards[0]) && AceCode(cards[1])))
  {
    if |cards| == 2 {
      var x, y := cards[0], cards[1];
      assert cards == [x, y];
      LowOfTwo(x, y);
      SoftTotal(cards);
      CodesSpec(x);
      CodesSpec(y);
    }
  }

  // ----- playing a hand out -----

  predicate Done(cards: seq<Card>) {
    Total(cards) >= 21
  }

  /** Every proper part from the front of the hand was still open: a hand as it is dealt. */
  ghost predicate PlayedOut(cards: seq<Card>) {
    && (forall i | 0 <= i < |cards| :: !Done(cards[..i]))
    && (forall i | 0 <= i < |cards| :: cards[i] >= 1)
  }

  /** An open hand has at least as many points as cards, and one more once it is past 10. */
  lemma {:induction false} OpenHandsAreShort(cards: seq<Card>)
    requires PlayedOut(cards) && !Done(cards)
    ensures |cards| <= Low(cards) && (Low(cards) >= 11 ==> |cards| + 1 <= Low(cards)) && Low(cards) <= 20
    decreases |cards|
  {
    SoftTotal(cards);
    if cards != [] {
      var n := |cards| - 1;
      var front := cards[..n];
      assert forall i | 0 <= i < n :: front[..i] == cards[..i];
      OpenHandsAreShort(front);
    }
  }

  /** A hand dealt until it is done never needs more than 20 cards. */
  lemma AtMostTwentyCards(cards: seq<Card>)
    requires PlayedOut(cards)
    ensures |cards| <= 20
  {
    if cards != [] {
      var n := |cards| - 1;
      var front := cards[..n];
      assert forall i | 0 <= i < n :: front[..i] == cards[..i];
      OpenHandsAreShort(front);
    }
  }

  /** One more card for an open hand: it has room, and its points grow. */
  lemma {:induction false} OneMoreCard(cards: seq<Card>, c: Card)
    requires PlayedOut(cards) && !Done(cards) && c >= 1
    ensures |cards| < CAPACITY && PlayedOut(cards + [c])
    ensures Low(cards) < Low(cards + [c]) && Low(cards) <= 20
  {
    OpenHandsAreShort(cards);
    var next := cards + [c];
    assert next[..|cards|] == cards;
    forall i | 0 <= i < |next| ensures !Done(next[..i]) {
      if i < |cards| { assert next[..i] == cards[..i]; }
    }
  }

  /** A hole card in front changes no total, so such a hand fits its 22-card buffer as well. */
  lemma HoleCardIsFree(cards: seq<Card>)
    ensures Total([0] + cards) == Total(cards)
    ensures PlayedOut(cards) ==> |[0] + cards| < 22
  {
    LowOfParts([0], cards);
    assert [0 as Card][..0] == [];
    assert Low([0]) == Low([]) + Value(0) && Aces([0]) == Aces([]);
    if PlayedOut(cards) { AtMostTwentyCards(cards); }
  }

  function Repeat(c: Card, n: nat): (r: seq<Card>)
    ensures |r| == n
  {
    seq(n, _ => c)
  }

  lemma {:induction false} AcesOnly(n: nat)
    ensures Low(Repeat(1, n)) == n && Aces(Repeat(1, n)) == n
  {
    if n > 0 {
      AcesOnly(n - 1);
      assert Repeat(1, n)[..n - 1] == Repeat(1, n - 1);
    }
  }

  /** Twenty cards are possible: ten aces, a two, nine aces. */
  function Longest(): seq<Card> {
    Repeat(1, 10) + [2] + Repeat(1, 9)
  }

  lemma LongestPrefix(i: nat)
    requires i <= 20
    ensures Low(Longest()[..i]) == (if i <= 10 then i else i + 1)
    ensures i > 0 ==> Aces(Longest()[..i]) > 0
  {
    var front := Longest()[..i];
    if i <= 10 {
      assert front == Repeat(1, i);
      AcesOnly(i);
    } else {
      assert front == Repeat(1, 10) + ([2] + Repeat(1, i - 11));
      AcesOnly(10);
      AcesOnly(i - 11);
      LowOfParts(Repeat(1, 10), [2] + Repeat(1, i - 11));
      LowOfParts([2], Repeat(1, i - 11));
      assert Low([2]) == Low([]) + Value(2);
    }
  }

  lemma TwentyCardsHappen()
    ensures PlayedOut(Longest()) && Done(Longest()) && |Longest()| == 20
  {
    forall i | 0 <= i < 20 ensures !Done(Longest()[..i]) {
      LongestPrefix(i);
      SoftTotal(Longest()[..i]);
    }
    LongestPrefix(20);
    assert Longest()[..20] == Longest();
    SoftTotal(Longest());
  }

  // ----- the fields and their updates -----

  class HandObject {
    var cards: seq<Card>
    var busted: bool
    var twentyOne: bool
    var blackjack: bool

    ghost predicate Evaluated()
      reads this
    {
      && (busted <==> Total(cards) > 21)
      && (twentyOne <==> Total(cards) == 21)
      && (blackjack <==> Total(cards) == 21 && |cards| == 2)
    }

    constructor ()
      ensures cards == [] && Evaluated()
    {
      cards, busted, twentyOne, blackjack := [], false, false, false;
    }

    predicate IsDone()
      reads this
    {
      busted || twentyOne
    }

    method Eval()
      modifies this`busted, this`twentyOne, this`blackjack
      ensures Evaluated()
    {
      var aces, total := 0, 0;
      for i := 0 to |cards|
        invariant 0 <= aces == Aces(cards[..i]) && total == Low(cards[..i]) + 10 * aces
      {
        assert cards[..i + 1][..i] == cards[..i];
        var v := Value(cards[i]);
        if v != 1 {
          total := total + v;
        } else {
          aces := aces + 1;
          total := total + 11;
        }
      }
      assert cards[..|cards|] == cards;
      while total > 21 && aces > 0
        invariant aces >= 0 && Reduced(total, aces) == Total(cards)
      {
        aces := aces - 1;
        total := total - 10;
      }
      busted := total > 21;
      twentyOne := total == 21;
      blackjack := twentyOne && |cards| == 2;
    }

    /**
     `deal`: take a card from the shoe into the 22-card buffer and evaluate.  On a full
     buffer `push_back` throws, when the card has already been taken.
     */
    method DealFrom(s: ShoeObject, rand: nat -> nat) returns (thrown: bool)
      requires s.Valid()
      modifies this, s`pos, s`used, s.cards
      ensures s.Valid() && s.Value() == Deal(old(s.Value()), rand).1
      ensures thrown <==> |old(cards)| >= 22
      ensures thrown ==> unchanged(this)
      ensures !thrown ==> Evaluated() && |cards| == |old(cards)| + 1 && cards[..|old(cards)|] == old(cards)
                          && cards[|old(cards)|] >= 1 && cards[|old(cards)|] == Deal(old(s.Value()), rand).0
    {
      var c := s.DealCard(rand);
      if |cards| >= CAPACITY { return true; }
      cards := cards + [c];
      Eval();
      return false;
    }

    /**
     Dealing to an empty hand until it is done ends within 20 cards, whatever the
     shoe holds and however often it is reshuffled, so the buffer cannot overflow.
     */
    method PlayOut(s: ShoeObject, rand: nat -> nat)
      requires s.Valid() && cards == [] && Evaluated()
      modifies this, s`pos, s`used, s.cards
      ensures s.Valid() && Evaluated() && IsDone() && PlayedOut(cards) && |cards| <= 20
    {
      while !IsDone()
        invariant s.Valid() && Evaluated() && PlayedOut(cards)
        decreases 21 - Low(cards) + (if IsDone() then 0 else 1)
      {
        ghost var before := cards;
        OneMoreCard(before, 1);
        var thrown := DealFrom(s, rand);
        assert !thrown && cards == before + [cards[|before|]];
        OneMoreCard(before, cards[|before|]);
        SoftTotal(cards);
      }
      AtMostTwentyCards(cards);
    }
  }
}
