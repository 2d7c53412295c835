/**
 The shoe: d decks of the cards 1..52, shuffled in place by exchanging each
 position with one at or after it, and dealt from front to back with a new
 shuffle when it runs out.  `rand` is an arbitrary stream of numbers.
 */
module Shoe {

  /** Card 0 is the hole card, which no shoe contains. */
  type Card = c: int | 0 <= c <= 52

  const DECK := 52

  /** The cards before shuffling. */
  function Ordered(n: nat): (r: seq<Card>)
    ensures |r| == n
  {
    seq(n, i requires 0 <= i < n => 1 + i % 52)
  }

  function Exchanged<T>(s: seq<T>, i: nat, j: nat): (r: seq<T>)
    requires i < |s| && j < |s|
    ensures |r| == |s| && r[i] == s[j] && r[j] == s[i]
  {
    s[i := s[j]][j := s[i]]
  }

  /** A choice for each position from i to the last but one: the position it is exchanged with. */
  predicate Choices(n: nat, i: nat, js: seq<nat>) {
    i + |js| + 1 == n && forall k | 0 <= k < |js| :: i + k <= js[k] < n
  }

  /** The exchanges from position i on. */
  function Shuffled<T>(s: seq<T>, i: nat, js: seq<nat>): (r: seq<T>)
    requires Choices(|s|, i, js)
    ensures |r| == |s|
    decreases |js|
  {
    if js == [] then s else Shuffled(Exchanged(s, i, js[0]), i + 1, js[1..])
  }

  // ----- every arrangement, each in exactly one way -----

  ghost predicate Distinct<T>(s: seq<T>) {
    forall i, j | 0 <= i < j < |s| :: s[i] != s[j]
  }

  lemma ExchangePermutes<T>(s: seq<T>, i: nat, j: nat)
    requires i < |s| && j < |s|
    ensures multiset(Exchanged(s, i, j)) == multiset(s)
  {
  }

  /** One exchange, with the choices of the positions before i already used. */
  lemma {:induction false} NextExchange<T>(s: seq<T>, i: nat, js: seq<nat>)
    requires i < |js| && |js| + 1 == |s| && Choices(|s|, i, js[i..])
    ensures i <= js[i] < |s| && Choices(|s|, i + 1, js[i + 1..])
    ensures Shuffled(s, i, js[i..]) == Shuffled(Exchanged(s, i, js[i]), i + 1, js[i + 1..])
  {
    assert js[i..][0] == js[i] && js[i..][1..] == js[i + 1..];
  }

  lemma {:induction false} ShufflePermutes<T>(s: seq<T>, i: nat, js: seq<nat>)
    requires Choices(|s|, i, js)
    ensures multiset(Shuffled(s, i, js)) == multiset(s)
    decreases |js|
  {
    if js != [] {
      ExchangePermutes(s, i, js[0]);
      ShufflePermutes(Exchanged(s, i, js[0]), i + 1, js[1..]);
    }
  }

  /** Positions before i are not touched any more. */
  lemma {:induction false} ShuffleKeepsFront<T>(s: seq<T>, i: nat, js: seq<nat>, k: nat)
    requires Choices(|s|, i, js) && k < i
    ensures Shuffled(s, i, js)[k] == s[k]
    decreases |js|
  {
    if js != [] { ShuffleKeepsFront(Exchanged(s, i, js[0]), i + 1, js[1..], k); }
  }

  /** Position i gets the chosen element and keeps it. */
  lemma {:induction false} FirstChoiceStays<T>(s: seq<T>, i: nat, js: seq<nat>)
    requires Choices(|s|, i, js) && js != []
    ensures Shuffled(s, i, js)[i] == s[js[0]]
  {
    var s' := Exchanged(s, i, js[0]);
    assert s'[i] == s[js[0]];
    ShuffleKeepsFront(s', i + 1, js[1..], i);
  }

  /** Different choices give different arrangements. */
  lemma {:induction false} ShuffleInjective<T>(s: seq<T>, i: nat, js: seq<nat>, ks: seq<nat>)
    requires Distinct(s) && Choices(|s|, i, js) && Choices(|s|, i, ks)
    requires Shuffled(s, i, js) == Shuffled(s, i, ks)
    ensures js == ks
    decreases |js|
  {
    if js != [] {
      FirstChoiceStays(s, i, js);
      FirstChoiceStays(s, i, ks);
      assert js[0] == ks[0];
      ShuffleInjective(Exchanged(s, i, js[0]), i + 1, js[1..], ks[1..]);
      assert js == [js[0]] + js[1..] && ks == [ks[0]] + ks[1..];
    }
  }

  /** An element of a permutation that agrees up to i is found at or after i. */
  lemma FindTarget<T>(s: seq<T>, t: seq<T>, i: nat) returns (j: nat)
    requires Distinct(s) && multiset(t) == multiset(s) && |t| == |s| && i < |s| && t[..i] == s[..i]
    ensures i <= j < |s| && s[j] == t[i]
  {
    assert t[i] in multiset(t);
    assert t[i] in s;
    j :| 0 <= j < |s| && s[j] == t[i];
    DistinctFromMultiset(s, t);
    assert forall k | 0 <= k < i :: t[k] == t[..i][k] == s[..i][k] == s[k];
  }

  /** Rearranging distinct elements leaves them distinct. */
  lemma DistinctFromMultiset<T>(s: seq<T>, t: seq<T>)
    requires Distinct(s) && multiset(t) == multiset(s)
    ensures Distinct(t)
  {
    forall i, j | 0 <= i < j < |t| ensures t[i] != t[j] {
      if t[i] == t[j] {
        var x := t[i];
        assert t == t[..i] + [x] + t[i + 1..j] + [x] + t[j + 1..];
        assert multiset(t)[x] >= 2;
        DistinctOnce(s, x);
      }
    }
  }

  lemma {:induction false} DistinctOnce<T>(s: seq<T>, x: T)
    requires Distinct(s)
    ensures multiset(s)[x] <= 1
  {
    if s != [] {
      assert s == [s[0]] + s[1..];
      DistinctOnce(s[1..], x);
      assert x in s[1..] <==> multiset(s[1..])[x] > 0;
    }
  }

  /** Every arrangement is reached. */
  lemma {:induction false} ShuffleSurjective<T>(s: seq<T>, t: seq<T>, i: nat) returns (js: seq<nat>)
    requires Distinct(s) && multiset(t) == multiset(s) && |t| == |s| && i < |s| && t[..i] == s[..i]
    ensures Choices(|s|, i, js) && Shuffled(s, i, js) == t
    decreases |s| - i
  {
    var j := FindTarget(s, t, i);
    if i == |s| - 1 {
      js := [];
      assert s == s[..i] + [s[i]] && t == t[..i] + [t[i]];
    } else {
      var s' := Exchanged(s, i, j);
      ExchangePermutes(s, i, j);
      DistinctFromMultiset(s, s');
      assert s'[..i + 1] == s[..i] + [t[i]] == t[..i + 1];
      var rest := ShuffleSurjective(s', t, i + 1);
      js := [j] + rest;
      assert js[1..] == rest;
    }
  }

  function Positions(n: nat): seq<nat> {
    seq(n, i requires 0 <= i < n => i)
  }

  lemma {:induction false} ChoicesFor(n: nat, p: seq<nat>) returns (js: seq<nat>)
    requires n >= 1 && multiset(p) == multiset(Positions(n))
    ensures |p| == n && Choices(n, 0, js) && Shuffled(Positions(n), 0, js) == p
  {
    var s := Positions(n);
    assert |multiset(p)| == |p| && |multiset(s)| == |s|;
    js := ShuffleSurjective(s, p, 0);
  }

  /**
   The shuffle is a bijection from choice sequences to arrangements of n positions:
   each arrangement is reached by exactly one sequence of choices, for every n >= 1.
   */
  lemma ShuffleIsBijection(n: nat, p: seq<nat>)
    requires n >= 1 && multiset(p) == multiset(Positions(n))
    ensures exists js ::
              && Choices(n, 0, js) && Shuffled(Positions(n), 0, js) == p
              && forall ks | Choices(n, 0, ks) && Shuffled(Positions(n), 0, ks) == p :: ks == js
  {
    var s := Positions(n);
    var js := ChoicesFor(n, p);
    forall ks | Choices(n, 0, ks) && Shuffled(s, 0, ks) == p ensures ks == js {
      ShuffleInjective(s, 0, ks, js);
    }
  }

  /** And nothing else is reached. */
  lemma ShuffleStaysWithin(n: nat, js: seq<nat>)
    requires Choices(n, 0, js)
    ensures multiset(Shuffled(Positions(n), 0, js)) == multiset(Positions(n))
  {
    ShufflePermutes(Positions(n), 0, js);
  }

  // ----- dealing -----

  /** What is in the shoe, the next position, and how much of the random stream is used up. */
  datatype Deck = Deck(cards: seq<Card>, pos: nat, used: nat)

  /** The position i is exchanged with: `rand() % (n - i)` places after it. */
  function Pick(r: nat, i: nat, n: nat): (j: nat)
    requires i < n
    ensures i <= j < n
  {
    i + r % (n - i)
  }

  /** The choices made from the stream. */
  function Drawn(rand: nat -> nat, used: nat, n: nat): (js: seq<nat>)
    requires n >= 1
    ensures Choices(n, 0, js) && forall i | 0 <= i < n - 1 :: js[i] == Pick(rand(used + i), i, n)
  {
    var pick := (i: nat) requires i < n - 1 => Pick(rand(used + i), i, n);
    var js := seq<nat>(n - 1, pick);
    assert forall i | 0 <= i < n - 1 :: js[i] == pick(i) == Pick(rand(used + i), i, n);
    js
  }

  /** A stream with these differences in it makes these choices. */
  lemma StreamMakesChoices(rand: nat -> nat, used: nat, n: nat, js: seq<nat>)
    requires n >= 1 && Choices(n, 0, js) && forall i | 0 <= i < |js| :: rand(used + i) == js[i] - i
    ensures Drawn(rand, used, n) == js
  {
    var ks := Drawn(rand, used, n);
    forall i | 0 <= i < |js| ensures ks[i] == js[i] {
      var r := js[i] - i;
      assert 0 <= r < n - i && rand(used + i) == r;
      assert r % (n - i) == r;
    }
    assert ks == js;
  }

  /** Any choices can come out of a stream. */
  lemma StreamsReachAllChoices(n: nat, used: nat, js: seq<nat>)
    requires n >= 1 && Choices(n, 0, js)
    ensures exists rand: nat -> nat :: Drawn(rand, used, n) == js
  {
    var rand: nat -> nat := k => if used <= k < used + |js| then js[k - used] - (k - used) else 0;
    StreamMakesChoices(rand, used, n, js);
  }

  function Shuffle(n: nat, used: nat, rand: nat -> nat): Deck
    requires n >= 1
  {
    Deck(Shuffled(Ordered(n), 0, Drawn(rand, used, n)), 0, used + n - 1)
  }

  function Deal(d: Deck, rand: nat -> nat): (Card, Deck)
    requires d.pos <= |d.cards| && |d.cards| >= 1
  {
    var d1 := if d.pos == |d.cards| then Shuffle(|d.cards|, d.used, rand) else d;
    (d1.cards[d1.pos], d1.(pos := d1.pos + 1))
  }

  /** The exchanges do not look at what they exchange. */
  lemma {:induction false} ShuffledElementwise(s: seq<nat>, t: seq<Card>, i: nat, js: seq<nat>)
    requires |s| == |t| && Choices(|s|, i, js) && forall k | 0 <= k < |s| :: t[k] == 1 + s[k] % 52
    ensures forall k | 0 <= k < |s| :: Shuffled(t, i, js)[k] == 1 + Shuffled(s, i, js)[k] % 52
    decreases |js|
  {
    if js != [] {
      var s', t' := Exchanged(s, i, js[0]), Exchanged(t, i, js[0]);
      assert forall k | 0 <= k < |s| :: t'[k] == 1 + s'[k] % 52;
      ShuffledElementwise(s', t', i + 1, js[1..]);
    }
  }

  /** The shoe holds the cards in the arrangement `p`. */
  predicate Arranged(cards: seq<Card>, p: seq<nat>) {
    |cards| == |p| && forall i | 0 <= i < |p| :: cards[i] == 1 + p[i] % 52
  }

  lemma ChoicesArrange(n: nat, used: nat, rand: nat -> nat, p: seq<nat>, js: seq<nat>)
    requires n >= 1 && |p| == n && Choices(n, 0, js) && Shuffled(Positions(n), 0, js) == p && Drawn(rand, used, n) == js
    ensures Arranged(Shuffle(n, used, rand).cards, p)
  {
    ShuffledElementwise(Positions(n), Ordered(n), 0, js);
  }

  /** One stream for two sets of choices, one after the other. */
  lemma StreamForBoth(n: nat, used: nat, js: seq<nat>, ks: seq<nat>) returns (rand: nat -> nat)
    requires n >= 1 && Choices(n, 0, js) && Choices(n, 0, ks)
    ensures Drawn(rand, used, n) == js && Drawn(rand, used + n - 1, n) == ks
  {
    var m := n - 1;
    rand := k =>
      if used <= k < used + m then js[k - used] - (k - used)
      else if used + m <= k < used + m + m then ks[k - used - m] - (k - used - m) else 0;
    StreamMakesChoices(rand, used, n, js);
    StreamMakesChoices(rand, used + m, n, ks);
  }

  /** The shoe holds `p` after `shuffle`, and `q` once it was dealt to the end and once more. */
  predicate TwoPasses(n: nat, used: nat, rand: nat -> nat, p: seq<nat>, q: seq<nat>)
    requires n >= 1
  {
    var d := Shuffle(n, used, rand);
    Arranged(d.cards, p) && Arranged(Deal(d.(pos := n), rand).1.cards, q)
  }

  lemma {:induction false} BothPasses(n: nat, used: nat, rand: nat -> nat, p: seq<nat>, q: seq<nat>,
                                      js: seq<nat>, ks: seq<nat>)
    requires n >= 1 && |p| == |q| == n && Choices(n, 0, js) && Choices(n, 0, ks)
    requires Shuffled(Positions(n), 0, js) == p && Shuffled(Positions(n), 0, ks) == q
    requires Drawn(rand, used, n) == js && Drawn(rand, used + n - 1, n) == ks
    ensures TwoPasses(n, used, rand, p, q)
  {
    ChoicesArrange(n, used, rand, p, js);
    ChoicesArrange(n, used + n - 1, rand, q, ks);
  }

  /**
   Shuffling leaves nothing out, and a reshuffle does not depend on the shuffle before:
   any two arrangements of the cards follow each other for some stream.
   */
  lemma {:induction false} AnyTwoPasses(n: nat, used: nat, p: seq<nat>, q: seq<nat>)
    requires n >= 1 && multiset(p) == multiset(q) == multiset(Positions(n))
    ensures exists rand: nat -> nat :: TwoPasses(n, used, rand, p, q)
  {
    var js := ChoicesFor(n, p);
    var ks := ChoicesFor(n, q);
    var rand := StreamForBoth(n, used, js, ks);
    BothPasses(n, used, rand, p, q, js, ks);
  }

  /** A shoe of full decks in some order. */
  ghost predicate Full(d: Deck, decks: nat) {
    && decks >= 1 && |d.cards| == decks * DECK && d.pos <= |d.cards|
    && multiset(d.cards) == multiset(Ordered(decks * DECK))
  }

  /** The first N cards dealt and the shoe after them. */
  function Deals(d: Deck, rand: nat -> nat, n: nat, ghost decks: nat): (r: (seq<Card>, Deck))
    requires Full(d, decks)
    ensures |r.0| == n && Full(r.1, decks)
  {
    if n == 0 then ([], d)
    else
      var (cs, d') := Deals(d, rand, n - 1, decks);
      DealKeepsFull(d', rand, decks);
      var (c, d'') := Deal(d', rand);
      (cs + [c], d'')
  }

  lemma ShuffleIsFull(decks: nat, used: nat, rand: nat -> nat)
    requires decks >= 1
    ensures Full(Shuffle(decks * DECK, used, rand), decks)
  {
    var n := decks * DECK;
    ShufflePermutes(Ordered(n), 0, Drawn(rand, used, n));
  }

  lemma DealKeepsFull(d: Deck, rand: nat -> nat, decks: nat)
    requires Full(d, decks)
    ensures Full(Deal(d, rand).1, decks) && 1 <= Deal(d, rand).1.pos
  {
    if d.pos == |d.cards| { ShuffleIsFull(decks, d.used, rand); }
  }

  /** How often a card occurs among the first n cards of the unshuffled shoe. */
  lemma {:induction false} OrderedCount(n: nat, c: Card)
    requires c >= 1
    ensures multiset(Ordered(n))[c] == n / 52 + (if c - 1 < n % 52 then 1 else 0)
  {
    if n == 0 {
      assert Ordered(0) == [];
    } else {
      OrderedCount(n - 1, c);
      assert Ordered(n) == Ordered(n - 1) + [1 + (n - 1) % 52];
      assert n % 52 == (if (n - 1) % 52 == 51 then 0 else (n - 1) % 52 + 1);
      assert n / 52 == (n - 1) / 52 + (if (n - 1) % 52 == 51 then 1 else 0);
    }
  }

  lemma FullCount(d: Deck, decks: nat, c: Card)
    requires Full(d, decks) && c >= 1
    ensures multiset(d.cards)[c] == decks
  {
    OrderedCount(decks * 52, c);
  }

  /** What one deal adds to the dealt part of a pass; a new pass starts when the last is complete. */
  lemma DealCounts(d: Deck, rand: nat -> nat, decks: nat, c: Card)
    requires Full(d, decks) && c >= 1
    ensures var (x, d') := Deal(d, rand);
            var one := if x == c then 1 else 0;
            && d'.pos <= |d'.cards| && |d'.cards| == |d.cards|
            && (d.pos == |d.cards| ==>
                  && d'.pos == 1 && multiset(d'.cards[..1])[c] == one
                  && multiset(d.cards[..d.pos])[c] == decks)
            && (d.pos < |d.cards| ==>
                  && d'.pos == d.pos + 1
                  && multiset(d'.cards[..d'.pos])[c] == multiset(d.cards[..d.pos])[c] + one)
  {
    var (x, d') := Deal(d, rand);
    if d.pos == |d.cards| {
      FullCount(d, decks, c);
      assert d.cards[..d.pos] == d.cards;
      assert d'.cards[..1] == [x];
    } else {
      assert d'.cards[..d'.pos] == d.cards[..d.pos] + [x];
    }
  }

  /** The cards dealt in the current pass are the front of the shoe. */
  lemma LastDealt(cs: seq<Card>, d: Deck, rand: nat -> nat)
    requires d.pos <= |d.cards| && |d.cards| >= 1 && d.pos <= |cs| && cs[|cs| - d.pos..] == d.cards[..d.pos]
    ensures var (x, d') := Deal(d, rand);
            d'.pos <= |d'.cards| && d'.pos <= |cs| + 1 && (cs + [x])[|cs| + 1 - d'.pos..] == d'.cards[..d'.pos]
  {
    var (x, d') := Deal(d, rand);
    if d.pos == |d.cards| {
      assert d'.cards[..1] == [x];
    } else {
      assert (cs + [x])[|cs| - d.pos..] == cs[|cs| - d.pos..] + [x];
      assert d'.cards[..d'.pos] == d.cards[..d.pos] + [x];
    }
  }

  /** The count of card c among the cards dealt, in terms of whole passes and the current one. */
  ghost predicate Tally(cs: seq<Card>, d: Deck, decks: nat, c: Card, k: nat) {
    && d.pos <= |d.cards| && |cs| == k * |d.cards| + d.pos
    && multiset(cs)[c] == k * decks + multiset(d.cards[..d.pos])[c]
  }

  lemma TallyStep(cs: seq<Card>, d: Deck, rand: nat -> nat, decks: nat, c: Card, k: nat) returns (k': nat)
    requires Full(d, decks) && c >= 1 && Tally(cs, d, decks, c, k)
    ensures var (x, d') := Deal(d, rand); Tally(cs + [x], d', decks, c, k') && |d'.cards| == |d.cards|
  {
    DealCounts(d, rand, decks, c);
    OneMore(k, |d.cards|);
    OneMore(k, decks);
    k' := if d.pos == |d.cards| then k + 1 else k;
  }

  /** After n deals: k whole passes, and the part of the current pass that has been dealt. */
  lemma {:induction false} DealtInPasses(d0: Deck, decks: nat, rand: nat -> nat, n: nat, c: Card) returns (k: nat)
    requires Full(d0, decks) && d0.pos == 0 && c >= 1
    ensures var (cs, d) := Deals(d0, rand, n, decks); Tally(cs, d, decks, c, k) && |d.cards| == |d0.cards|
    decreases n
  {
    if n == 0 {
      k := 0;
      assert d0.cards[..0] == [];
    } else {
      k := DealtInPasses(d0, decks, rand, n - 1, c);
      var (cs, d) := Deals(d0, rand, n - 1, decks);
      k := TallyStep(cs, d, rand, decks, c, k);
    }
  }

  lemma {:induction false} DealtInThisPass(d0: Deck, decks: nat, rand: nat -> nat, n: nat)
    requires Full(d0, decks) && d0.pos == 0
    ensures var (cs, d) := Deals(d0, rand, n, decks);
            d.pos <= n && cs[n - d.pos..] == d.cards[..d.pos]
    decreases n
  {
    if n > 0 {
      DealtInThisPass(d0, decks, rand, n - 1);
      var (cs, d) := Deals(d0, rand, n - 1, decks);
      var (x, d') := Deal(d, rand);
      assert Deals(d0, rand, n, decks) == (cs + [x], d');
      LastDealt(cs, d, rand);
    }
  }

  lemma PassIsComplete(d: Deck, decks: nat, c: Card)
    requires Full(d, decks) && c >= 1
    ensures multiset(d.cards[..d.pos])[c] + multiset(d.cards[d.pos..])[c] == decks
  {
    FullCount(d, decks, c);
    assert d.cards == d.cards[..d.pos] + d.cards[d.pos..];
  }

  lemma OneMore(k: nat, m: nat)
    ensures (k + 1) * m == k * m + m
  {
  }

  lemma Quotient(n: nat, k: nat, len: nat, rest: nat)
    requires len >= 1 && n == k * len + rest && rest < len
    ensures n / len == k
  {
    var q := n / len;
    assert n == q * len + n % len;
    if q < k { assert (q + 1) * len <= k * len by { AtMost(q + 1, k, len); } }
    if q > k { assert (k + 1) * len <= q * len by { AtMost(k + 1, q, len); } }
  }

  lemma AtMost(a: nat, b: nat, len: nat)
    requires a <= b
    ensures a * len <= b * len
  {
    assert b * len == a * len + (b - a) * len;
  }

  lemma FairBounds(n: nat, k: nat, len: nat, pos: nat, decks: nat, front: nat)
    requires len >= 1 && n == k * len + pos && pos <= len && front <= decks && (pos == len ==> front == decks)
    ensures n / len * decks <= k * decks + front <= n / len * decks + decks
  {
    if pos == len {
      OneMore(k, len);
      OneMore(k, decks);
      Quotient(n, k + 1, len, 0);
    } else {
      Quotient(n, k, len, pos);
    }
  }

  /**
   From a fresh shoe of d decks, whatever the random stream, after any n deals each
   card has been dealt between d * (n / 52d) and d * (n / 52d) + d times.
   */
  lemma DealsAreFair(d0: Deck, decks: nat, rand: nat -> nat, n: nat, c: Card)
    requires Full(d0, decks) && d0.pos == 0 && c >= 1
    ensures var cs := Deals(d0, rand, n, decks).0;
            n / |d0.cards| * decks <= multiset(cs)[c] <= n / |d0.cards| * decks + decks
  {
    var k := DealtInPasses(d0, decks, rand, n, c);
    var d := Deals(d0, rand, n, decks).1;
    PassIsComplete(d, decks, c);
    if d.pos == |d.cards| { assert d.cards[d.pos..] == []; }
    FairBounds(n, k, |d0.cards|, d.pos, decks, multiset(d.cards[..d.pos])[c]);
  }

  /** The cards dealt in the current pass plus those left in the shoe are d of each. */
  lemma PassesAreComplete(d0: Deck, decks: nat, rand: nat -> nat, n: nat, c: Card)
    requires Full(d0, decks) && d0.pos == 0 && c >= 1
    ensures var (cs, d) := Deals(d0, rand, n, decks);
            d.pos <= n && multiset(cs[n - d.pos..])[c] + multiset(d.cards[d.pos..])[c] == decks
  {
    DealtInThisPass(d0, decks, rand, n);
    PassIsComplete(Deals(d0, rand, n, decks).1, decks, c);
  }

  // ----- the fields and their updates -----

  class ShoeObject {
    const cards: array<Card>
    var pos: nat
    var used: nat
    const decks: nat

    ghost predicate Valid()
      reads this, cards
    {
      Full(Value(), decks)
    }

    ghost function Value(): Deck
      reads this, cards
    {
      Deck(cards[..], pos, used)
    }

    constructor (decks: nat, rand: nat -> nat)
      requires decks >= 1
      ensures Valid() && fresh(cards) && Value() == Shuffle(decks * DECK, 0, rand) && this.decks == decks
    {
      this.decks := decks;
      this.cards := new Card[decks * DECK](_ => 0);
      pos, used := 0, 0;
      new;
      ShuffleCards(rand);
    }

    method Refill()
      modifies cards
      ensures cards[..] == Ordered(cards.Length)
    {
      for i := 0 to cards.Length
        invariant forall k | 0 <= k < i :: cards[k] == 1 + k % 52
      {
        cards[i] := 1 + i % 52;
      }
    }

    method SwapCards(i: nat, j: nat)
      requires i < cards.Length && j < cards.Length
      modifies cards
      ensures cards[..] == Exchanged(old(cards[..]), i, j)
    {
      cards[i], cards[j] := cards[j], cards[i];
    }

    method ExchangeAll(rand: nat -> nat)
      requires cards.Length >= 1
      modifies cards
      ensures cards[..] == Shuffled(old(cards[..]), 0, Drawn(rand, used, cards.Length))
    {
      var n := cards.Length;
      ghost var js := Drawn(rand, used, n);
      assert js[0..] == js;
      for i := 0 to n - 1
        invariant Choices(n, i, js[i..])
        invariant Shuffled(cards[..], i, js[i..]) == Shuffled(old(cards[..]), 0, js)
      {
        NextExchange(cards[..], i, js);
        SwapCards(i, Pick(rand(used + i), i, n));
      }
    }

    /** Refill in order, exchange each position with a random later one, start again at the front. */
    method ShuffleCards(rand: nat -> nat)
      requires decks >= 1 && cards.Length == decks * DECK
      modifies this`pos, this`used, cards
      ensures Valid() && Value() == Shuffle(cards.Length, old(used), rand)
    {
      Refill();
      ExchangeAll(rand);
      ShuffleIsFull(decks, used, rand);
      used := used + cards.Length - 1;
      pos := 0;
    }

    method DealCard(rand: nat -> nat) returns (c: Card)
      requires Valid()
      modifies this`pos, this`used, cards
      ensures Valid() && (c, Value()) == Deal(old(Value()), rand) && c >= 1
    {
      DealKeepsFull(Value(), rand, decks);
      if pos == cards.Length { ShuffleCards(rand); }
      c := cards[pos];
      pos := pos + 1;
      NoHoleCard(Value(), decks, pos - 1);
    }
  }

  /** A shoe holds only cards 1..52. */
  lemma NoHoleCard(d: Deck, decks: nat, i: nat)
    requires Full(d, decks) && i < |d.cards|
    ensures d.cards[i] >= 1
  {
    var s := Ordered(decks * DECK);
    assert d.cards[i] in multiset(d.cards);
    assert d.cards[i] in s;
  }
}
