/**
 The reference-counted buffer `message`: handles that share one heap block, whose
 header holds the count.  Each atomic step of any thread is one event, so that
 dropping the count to zero and releasing the block are separate.  Using a block
 that has been released, or a count that runs below zero, sets `fault`.
 */
module SharedBuffer {
  import opened Wrappers

  type Handle = nat
  type Block = nat
  type Byte = b: int | 0 <= b < 256

  /** A block as allocated: payload, units allocated, count, pending and finished releases. */
  datatype Impl = Impl(data: seq<Byte>, units: nat, count: nat, releasing: nat, released: seq<nat>)

  datatype State = State(handles: map<Handle, Option<Block>>, blocks: map<Block, Impl>, fault: bool)

  datatype Event =
    | MakeNull(h: Handle)
    | Make(h: Handle, b: Block, data: seq<Byte>)   // construct a flat copy
    | Copy(h: Handle, from: Handle)
    | Move(h: Handle, from: Handle)
    | Swap(h: Handle, other: Handle)
    | Destroy(h: Handle)                     // `--count`, keeping the result
    | Release(b: Block)                      // deallocate, by the thread that saw zero

  const EMPTY := State(map[], map[], false)

  /** Units of the header's size `S` that are asked of the allocator for n bytes of payload. */
  function Units(S: nat, n: nat): nat
    requires S >= 1
  {
    (2 * S + n - 1) / S
  }

  predicate Enabled(s: State, e: Event) {
    match e
    case MakeNull(h) => h !in s.handles
    case Make(h, b, _) => h !in s.handles && b !in s.blocks
    case Copy(h, from) => h !in s.handles && from in s.handles
    case Move(h, from) => h !in s.handles && from in s.handles
    case Swap(h, other) => h in s.handles && other in s.handles
    case Destroy(h) => h in s.handles
    case Release(b) => b in s.blocks && s.blocks[b].releasing > 0
  }

  predicate Usable(s: State, b: Block) {
    b in s.blocks && s.blocks[b].released == []
  }

  function Next(S: nat, s: State, e: Event): State
    requires S >= 1 && Enabled(s, e)
  {
    match e
    case MakeNull(h) => s.(handles := s.handles[h := None])
    case Make(h, b, data) =>
      s.(handles := s.handles[h := Some(b)], blocks := s.blocks[b := Impl(data, Units(S, |data|), 1, 0, [])])
    case Copy(h, from) =>
      var p := s.handles[from];
      var s1 := s.(handles := s.handles[h := p]);
      if p.None? then s1
      else if !Usable(s, p.value) then s.(fault := true)
      else s1.(blocks := s.blocks[p.value := s.blocks[p.value].(count := s.blocks[p.value].count + 1)])
    case Move(h, from) => s.(handles := s.handles[h := s.handles[from]][from := None])
    case Swap(h, other) => s.(handles := s.handles[h := s.handles[other]][other := s.handles[h]])
    case Destroy(h) =>
      var p := s.handles[h];
      var s1 := s.(handles := s.handles - {h});
      if p.None? then s1
      else if !Usable(s, p.value) || s.blocks[p.value].count == 0 then s.(fault := true)
      else
        var i := s.blocks[p.value];
        s1.(blocks := s.blocks[p.value :=
              i.(count := i.count - 1, releasing := i.releasing + (if i.count == 1 then 1 else 0))])
    case Release(b) =>
      if !Usable(s, b) then s.(fault := true)
      else
        var i := s.blocks[b];
        s.(blocks := s.blocks[b := i.(releasing := i.releasing - 1, released := i.released + [Units(S, |i.data|)])])
  }

  ghost predicate CanRun(S: nat, s: State, es: seq<Event>)
    requires S >= 1
    decreases |es|
  {
    es == [] || (Enabled(s, es[0]) && CanRun(S, Next(S, s, es[0]), es[1..]))
  }

  ghost function After(S: nat, s: State, es: seq<Event>): State
    requires S >= 1 && CanRun(S, s, es)
    decreases |es|
  {
    if es == [] then s else After(S, Next(S, s, es[0]), es[1..])
  }

  // ----- the invariant -----

  function Owners(hs: map<Handle, Option<Block>>, b: Block): set<Handle> {
    set h | h in hs && hs[h] == Some(b)
  }

  /** The count is the number of handles; a block without handles is released, or about to be, once. */
  ghost predicate BlockOk(s: State, b: Block)
    requires b in s.blocks
  {
    var i := s.blocks[b];
    && i.count == |Owners(s.handles, b)|
    && i.releasing + |i.released| == (if i.count == 0 then 1 else 0)
  }

  ghost predicate Inv(S: nat, s: State)
    requires S >= 1
  {
    && !s.fault
    && (forall h | h in s.handles && s.handles[h].Some? :: s.handles[h].value in s.blocks)
    && (forall b | b in s.blocks :: BlockOk(s, b))
    && (forall b | b in s.blocks :: s.blocks[b].units == Units(S, |s.blocks[b].data|))
    && (forall b, k | b in s.blocks && 0 <= k < |s.blocks[b].released| ::
          s.blocks[b].released[k] == s.blocks[b].units)
  }

  /** A block some handle points to can be used: it has not been released. */
  lemma OwnedIsUsable(S: nat, s: State, h: Handle)
    requires S >= 1 && Inv(S, s) && h in s.handles && s.handles[h].Some?
    ensures Usable(s, s.handles[h].value) && s.blocks[s.handles[h].value].count > 0
  {
    var b := s.handles[h].value;
    assert BlockOk(s, b);
    assert h in Owners(s.handles, b);
    assert Owners(s.handles, b) != {};
  }

  /** Redirecting one handle moves one owner from its old block to its new one. */
  lemma RedirectOwner(hs: map<Handle, Option<Block>>, h: Handle, p: Option<Block>, b: Block)
    requires h in hs
    ensures |Owners(hs[h := p], b)| + (if hs[h] == Some(b) then 1 else 0)
            == |Owners(hs, b)| + (if p == Some(b) then 1 else 0)
  {
    var now, was := Owners(hs[h := p], b), Owners(hs, b);
    var rest := was - {h};
    if hs[h] == Some(b) { assert was == rest + {h}; } else { assert was == rest; }
    if p == Some(b) { assert now == rest + {h}; } else { assert now == rest; }
  }

  /** Moving and swapping handles keeps the number of owners of every block. */
  lemma ExchangeKeepsOwners(hs: map<Handle, Option<Block>>, h: Handle, o: Handle, b: Block)
    requires h in hs && o in hs
    ensures |Owners(hs[h := hs[o]][o := hs[h]], b)| == |Owners(hs, b)|
  {
    RedirectOwner(hs, h, hs[o], b);
    RedirectOwner(hs[h := hs[o]], o, hs[h], b);
  }

  lemma AddOwner(hs: map<Handle, Option<Block>>, h: Handle, p: Option<Block>, b: Block)
    requires h !in hs
    ensures |Owners(hs[h := p], b)| == |Owners(hs, b)| + (if p == Some(b) then 1 else 0)
  {
    var now, was := Owners(hs[h := p], b), Owners(hs, b);
    if p == Some(b) { assert now == was + {h}; } else { assert now == was; }
  }

  lemma DropOwner(hs: map<Handle, Option<Block>>, h: Handle, b: Block)
    requires h in hs
    ensures |Owners(hs - {h}, b)| == |Owners(hs, b)| - (if hs[h] == Some(b) then 1 else 0)
  {
    var now, was := Owners(hs - {h}, b), Owners(hs, b);
    if hs[h] == Some(b) { assert now == was - {h}; } else { assert now == was; }
  }

  /** How each event changes the number of owners of a block. */
  lemma OwnersChange(S: nat, s: State, e: Event, b: Block)
    requires S >= 1 && Inv(S, s) && Enabled(s, e)
    ensures var now, was := |Owners(Next(S, s, e).handles, b)|, |Owners(s.handles, b)|;
            match e
            case Make(_, b', _) => now == was + (if b == b' then 1 else 0)
            case Copy(_, from) => now == was + (if s.handles[from] == Some(b) then 1 else 0)
            case Destroy(h) => now == was - (if s.handles[h] == Some(b) then 1 else 0)
            case _ => now == was
  {
    match e
    case MakeNull(h) => AddOwner(s.handles, h, None, b);
    case Make(h, b', _) => AddOwner(s.handles, h, Some(b'), b);
    case Copy(h, from) =>
      if s.handles[from].Some? { OwnedIsUsable(S, s, from); }
      AddOwner(s.handles, h, s.handles[from], b);
    case Move(h, from) =>
      AddOwner(s.handles, h, None, b);
      var hs := s.handles[h := None];
      ExchangeKeepsOwners(hs, h, from, b);
      assert hs[h := hs[from]][from := hs[h]] == s.handles[h := s.handles[from]][from := None];
    case Swap(h, o) => ExchangeKeepsOwners(s.handles, h, o, b);
    case Destroy(h) =>
      if s.handles[h].Some? { OwnedIsUsable(S, s, h); }
      DropOwner(s.handles, h, b);
    case Release(_) =>
  }

  /** A block being released has no handle and has not been released before. */
  lemma ReleaseIsSafe(S: nat, s: State, b: Block)
    requires S >= 1 && Inv(S, s) && Enabled(s, Release(b))
    ensures Usable(s, b) && s.blocks[b].count == 0 && Owners(s.handles, b) == {}
  {
    assert BlockOk(s, b);
  }

  lemma StepKeepsBlockOk(S: nat, s: State, e: Event, b: Block)
    requires S >= 1 && Inv(S, s) && Enabled(s, e) && b in Next(S, s, e).blocks
    ensures BlockOk(Next(S, s, e), b)
  {
    OwnersChange(S, s, e, b);
    if b in s.blocks {
      assert BlockOk(s, b);
      match e
      case Copy(_, from) => if s.handles[from].Some? { OwnedIsUsable(S, s, from); }
      case Destroy(h) => if s.handles[h].Some? { OwnedIsUsable(S, s, h); }
      case Release(b') => ReleaseIsSafe(S, s, b');
      case _ => assert Next(S, s, e).blocks[b] == s.blocks[b];
    } else {
      assert e.Make? && e.b == b && Owners(s.handles, b) == {};
    }
  }

  lemma StepKeepsInv(S: nat, s: State, e: Event)
    requires S >= 1 && Inv(S, s) && Enabled(s, e)
    ensures Inv(S, Next(S, s, e))
  {
    var s' := Next(S, s, e);
    if e.Copy? && s.handles[e.from].Some? { OwnedIsUsable(S, s, e.from); }
    if e.Destroy? && s.handles[e.h].Some? { OwnedIsUsable(S, s, e.h); }
    if e.Release? { ReleaseIsSafe(S, s, e.b); }
    forall b | b in s'.blocks ensures BlockOk(s', b) { StepKeepsBlockOk(S, s, e, b); }
  }

  lemma {:induction false} EveryRunKeepsInv(S: nat, s: State, es: seq<Event>)
    requires S >= 1 && Inv(S, s) && CanRun(S, s, es)
    ensures Inv(S, After(S, s, es))
    decreases |es|
  {
    if es != [] {
      StepKeepsInv(S, s, es[0]);
      EveryRunKeepsInv(S, Next(S, s, es[0]), es[1..]);
    }
  }

  /** The block holds header and payload, with less than one unit to spare. */
  lemma UnitsFit(S: nat, n: nat)
    requires S >= 1
    ensures S + n <= Units(S, n) * S < S + n + S
  {
    var q := Units(S, n);
    assert 2 * S + n - 1 == q * S + (2 * S + n - 1) % S;
  }

  /**
   Over every interleaving of constructions, copies, moves, swaps and destructions:
   no released block is touched, the count is the number of live handles, a block
   is released at most once and never while a handle points to it, with the number
   of units it was allocated with, which hold its header and payload; and a block
   that has lost its last handle and has no release under way has been released.
   */
  lemma ReleasedOnceAfterLastHandle(S: nat, es: seq<Event>, b: Block)
    requires S >= 1 && CanRun(S, EMPTY, es) && b in After(S, EMPTY, es).blocks
    ensures var s := After(S, EMPTY, es);
            var i := s.blocks[b];
            && !s.fault && i.count == |Owners(s.handles, b)|
            && |i.released| <= 1 && (i.released != [] ==> Owners(s.handles, b) == {} && i.released == [i.units])
            && (Owners(s.handles, b) == {} && i.releasing == 0 ==> i.released != [])
            && S + |i.data| <= i.units * S < S + |i.data| + S
  {
    EveryRunKeepsInv(S, EMPTY, es);
    assert BlockOk(After(S, EMPTY, es), b);
    UnitsFit(S, |After(S, EMPTY, es).blocks[b].data|);
  }

  /** What a block holds never changes: no operation writes to a payload. */
  lemma {:induction false} PayloadIsImmutable(S: nat, s: State, es: seq<Event>, b: Block)
    requires S >= 1 && CanRun(S, s, es) && b in s.blocks
    ensures b in After(S, s, es).blocks && After(S, s, es).blocks[b].data == s.blocks[b].data
    decreases |es|
  {
    if es != [] { PayloadIsImmutable(S, Next(S, s, es[0]), es[1..], b); }
  }

  /**
   In every run, a block made from some bytes holds just those bytes for as long as the run
   goes on, in units enough for them and the header, and it is those units that are released.
   */
  lemma {:induction false} BlockHoldsItsBytes(S: nat, s: State, es: seq<Event>, h: Handle, b: Block, data: seq<Byte>)
    requires S >= 1 && Inv(S, s) && CanRun(S, s, es) && Make(h, b, data) in es
    ensures b in After(S, s, es).blocks
    ensures var i := After(S, s, es).blocks[b];
            && i.data == data && S + |data| <= i.units * S < S + |data| + S
            && forall k | 0 <= k < |i.released| :: i.released[k] == i.units
    decreases |es|
  {
    StepKeepsInv(S, s, es[0]);
    if es[0] == Make(h, b, data) {
      PayloadIsImmutable(S, Next(S, s, es[0]), es[1..], b);
      EveryRunKeepsInv(S, s, es);
      UnitsFit(S, |data|);
    } else {
      BlockHoldsItsBytes(S, Next(S, s, es[0]), es[1..], h, b, data);
    }
  }

  /** What a handle refers to after each operation; all but those named keep what they had. */
  lemma HandlesFollow(S: nat, s: State, e: Event, k: Handle)
    requires S >= 1 && Inv(S, s) && Enabled(s, e)
    ensures var hs, hs' := s.handles, Next(S, s, e).handles;
            && (k in hs' <==> if e.Destroy? then k in hs && k != e.h else k in hs || (!e.Release? && k == e.h))
            && (k in hs' ==>
                  hs'[k] == match e
                    case MakeNull(h) => if k == h then None else hs[k]
                    case Make(h, b, _) => if k == h then Some(b) else hs[k]
                    case Copy(h, from) => if k == h then hs[from] else hs[k]
                    case Move(h, from) => if k == h then hs[from] else if k == from then None else hs[k]
                    case Swap(h, other) => if k == h then hs[other] else if k == other then hs[h] else hs[k]
                    case _ => hs[k])
  {
    if e.Copy? && s.handles[e.from].Some? { OwnedIsUsable(S, s, e.from); }
    if e.Destroy? && s.handles[e.h].Some? { OwnedIsUsable(S, s, e.h); }
    if e.Release? { ReleaseIsSafe(S, s, e.b); }
  }

  /** A copy refers to the same block, and destroying it restores everything. */
  lemma CopyThenDestroy(S: nat, s: State, h: Handle, from: Handle)
    requires S >= 1 && Inv(S, s) && Enabled(s, Copy(h, from))
    ensures var s1 := Next(S, s, Copy(h, from));
            && h in s1.handles && s1.handles[h] == s.handles[from]
            && Next(S, s1, Destroy(h)) == s
  {
    var s1 := Next(S, s, Copy(h, from));
    StepKeepsInv(S, s, Copy(h, from));
    if s.handles[from].Some? {
      OwnedIsUsable(S, s, from);
      var b := s.handles[from].value;
      assert Next(S, s1, Destroy(h)).blocks == s.blocks;
    }
    assert Next(S, s1, Destroy(h)).handles == s.handles;
  }

  /** A move hands the block over without touching it, and moving back undoes it. */
  lemma MoveThenMoveBack(S: nat, s: State, h: Handle, from: Handle)
    requires S >= 1 && Enabled(s, Move(h, from))
    ensures var s1 := Next(S, s, Move(h, from));
            && s1.handles[h] == s.handles[from] && s1.handles[from] == None && s1.blocks == s.blocks
            && var s2 := Next(S, s1, Destroy(from));
            && Enabled(s2, Move(from, h)) && Next(S, Next(S, s2, Move(from, h)), Destroy(h)) == s
  {
    var s2 := Next(S, Next(S, s, Move(h, from)), Destroy(from));
    assert Next(S, Next(S, s2, Move(from, h)), Destroy(h)).handles == s.handles;
  }

  /** A swap exchanges the two blocks, and swapping again undoes it. */
  lemma SwapTwice(S: nat, s: State, h: Handle, other: Handle)
    requires S >= 1 && Enabled(s, Swap(h, other))
    ensures var s1 := Next(S, s, Swap(h, other));
            && s1.handles[h] == s.handles[other] && s1.handles[other] == s.handles[h]
            && Next(S, s1, Swap(h, other)) == s
  {
    assert Next(S, Next(S, s, Swap(h, other)), Swap(h, other)).handles == s.handles;
  }

  lemma Prepend(S: nat, s: State, e: Event, es: seq<Event>)
    requires S >= 1 && Enabled(s, e) && CanRun(S, Next(S, s, e), es)
    ensures CanRun(S, s, [e] + es) && After(S, s, [e] + es) == After(S, Next(S, s, e), es)
  {
    assert ([e] + es)[1..] == es;
  }

  /** Two handles of a block are destroyed, and the one that saw zero releases it. */
  lemma LastHandleReleases(S: nat, s: State, j: Handle, k: Handle, b: Block) returns (es: seq<Event>)
    requires S >= 1 && Inv(S, s) && j != k && Owners(s.handles, b) == {j, k} && b in s.blocks
    ensures es == [Destroy(j)] + ([Destroy(k)] + ([Release(b)] + []))
    ensures CanRun(S, s, es) && b in After(S, s, es).blocks
    ensures After(S, s, es).handles == s.handles - {j, k}
    ensures After(S, s, es).blocks[b].released == [Units(S, |s.blocks[b].data|)]
  {
    assert j in Owners(s.handles, b) && k in Owners(s.handles, b) && BlockOk(s, b);
    assert s.blocks[b].count == 2;
    var s1 := Next(S, s, Destroy(j));
    var s2 := Next(S, s1, Destroy(k));
    Prepend(S, s2, Release(b), []);
    Prepend(S, s1, Destroy(k), [Release(b)] + []);
    Prepend(S, s, Destroy(j), [Destroy(k)] + ([Release(b)] + []));
    es := [Destroy(j)] + ([Destroy(k)] + ([Release(b)] + []));
  }

  lemma {:induction false} Append(S: nat, s: State, es: seq<Event>, fs: seq<Event>)
    requires S >= 1 && CanRun(S, s, es) && CanRun(S, After(S, s, es), fs)
    ensures CanRun(S, s, es + fs) && After(S, s, es + fs) == After(S, After(S, s, es), fs)
    decreases |es|
  {
    if es == [] {
      assert es + fs == fs;
    } else {
      Append(S, Next(S, s, es[0]), es[1..], fs);
      assert (es + fs)[1..] == es[1..] + fs;
    }
  }

  /** A message is constructed, copied, moved and swapped. */
  function Handing(h: Handle, j: Handle, k: Handle, b: Block, data: seq<Byte>): seq<Event> {
    [Make(h, b, data)] + ([Copy(k, h)] + ([Move(j, h)] + ([Swap(j, k)] + ([Destroy(h)] + []))))
  }

  lemma HandingRuns(S: nat, h: Handle, j: Handle, k: Handle, b: Block, data: seq<Byte>)
    requires S >= 1 && h != j && j != k && h != k
    ensures CanRun(S, EMPTY, Handing(h, j, k, b, data))
    ensures After(S, EMPTY, Handing(h, j, k, b, data)).handles == map[j := Some(b), k := Some(b)]
  {
    var s1 := Next(S, EMPTY, Make(h, b, data));
    var s2 := Next(S, s1, Copy(k, h));
    var s3 := Next(S, s2, Move(j, h));
    var s4 := Next(S, s3, Swap(j, k));
    Prepend(S, s4, Destroy(h), []);
    Prepend(S, s3, Swap(j, k), [Destroy(h)] + []);
    Prepend(S, s2, Move(j, h), [Swap(j, k)] + ([Destroy(h)] + []));
    Prepend(S, s1, Copy(k, h), [Move(j, h)] + ([Swap(j, k)] + ([Destroy(h)] + [])));
    Prepend(S, EMPTY, Make(h, b, data), [Copy(k, h)] + ([Move(j, h)] + ([Swap(j, k)] + ([Destroy(h)] + []))));
  }

  /**
   The life of a message: each operation can be carried out, and at the end no handle is
   left and the block is released.
   */
  lemma LifeOfAMessage(S: nat, h: Handle, j: Handle, k: Handle, b: Block, data: seq<Byte>)
    requires S >= 1 && h != j && j != k && h != k
    ensures var es := Handing(h, j, k, b, data) + ([Destroy(j)] + ([Destroy(k)] + ([Release(b)] + [])));
            && CanRun(S, EMPTY, es) && b in After(S, EMPTY, es).blocks && After(S, EMPTY, es).handles == map[]
            && After(S, EMPTY, es).blocks[b].released == [Units(S, |data|)]
  {
    var front := Handing(h, j, k, b, data);
    HandingRuns(S, h, j, k, b, data);
    var s := After(S, EMPTY, front);
    EveryRunKeepsInv(S, EMPTY, front);
    assert front[0] == Make(h, b, data);
    BlockHoldsItsBytes(S, EMPTY, front, h, b, data);
    assert Owners(s.handles, b) == {j, k};
    var rest := LastHandleReleases(S, s, j, k, b);
    Append(S, EMPTY, front, rest);
  }

  // ----- the fields and their updates -----

  /** The handles and blocks of a process, updated by the operations of `message`. */
  class Heap {
    const unit: nat
    var handles: map<Handle, Option<Block>>
    var blocks: map<Block, Impl>

    ghost function Value(): State
      reads this
    {
      State(handles, blocks, false)
    }

    ghost predicate Valid()
      reads this
    {
      unit >= 1 && Inv(unit, Value())
    }

    constructor (unit: nat)
      requires unit >= 1
      ensures Valid() && this.unit == unit && Value() == EMPTY
    {
      this.unit := unit;
      handles, blocks := map[], map[];
    }

    method Construct(h: Handle, b: Block, data: seq<Byte>)
      requires Valid() && Enabled(Value(), Make(h, b, data))
      modifies this
      ensures Valid() && Value() == Next(unit, old(Value()), Make(h, b, data))
    {
      StepKeepsInv(unit, Value(), Make(h, b, data));
      blocks := blocks[b := Impl(data, (2 * unit + |data| - 1) / unit, 1, 0, [])];
      handles := handles[h := Some(b)];
    }

    method CopyConstruct(h: Handle, from: Handle)
      requires Valid() && Enabled(Value(), Copy(h, from))
      modifies this
      ensures Valid() && Value() == Next(unit, old(Value()), Copy(h, from))
    {
      StepKeepsInv(unit, Value(), Copy(h, from));
      var p := handles[from];
      handles := handles[h := p];
      if p.Some? {
        var i := blocks[p.value];
        blocks := blocks[p.value := i.(count := i.count + 1)];
      }
    }

    method MoveConstruct(h: Handle, from: Handle)
      requires Valid() && Enabled(Value(), Move(h, from))
      modifies this
      ensures Valid() && Value() == Next(unit, old(Value()), Move(h, from))
    {
      StepKeepsInv(unit, Value(), Move(h, from));
      handles := handles[h := handles[from]];
      handles := handles[from := None];
    }

    method SwapHandles(h: Handle, other: Handle)
      requires Valid() && Enabled(Value(), Swap(h, other))
      modifies this
      ensures Valid() && Value() == Next(unit, old(Value()), Swap(h, other))
    {
      StepKeepsInv(unit, Value(), Swap(h, other));
      var p := handles[h];
      handles := handles[h := handles[other]];
      handles := handles[other := p];
    }

    /** The destructor up to the decrement; `last` tells whether this thread must release the block. */
    method DestroyHandle(h: Handle) returns (last: bool)
      requires Valid() && Enabled(Value(), Destroy(h))
      modifies this
      ensures Valid() && Value() == Next(unit, old(Value()), Destroy(h))
      ensures last <==> old(handles)[h].Some? && Enabled(Value(), Release(old(handles)[h].value))
    {
      StepKeepsInv(unit, Value(), Destroy(h));
      var p := handles[h];
      if p.Some? {
        OwnedIsUsable(unit, Value(), h);
        assert BlockOk(Value(), p.value);
      }
      handles := handles - {h};
      last := false;
      if p.Some? {
        var i := blocks[p.value];
        last := i.count == 1;
        blocks := blocks[p.value := i.(count := i.count - 1, releasing := i.releasing + (if last then 1 else 0))];
      }
    }

    method ReleaseBlock(b: Block)
      requires Valid() && Enabled(Value(), Release(b))
      modifies this
      ensures Valid() && Value() == Next(unit, old(Value()), Release(b))
    {
      StepKeepsInv(unit, Value(), Release(b));
      ReleaseIsSafe(unit, Value(), b);
      var i := blocks[b];
      blocks := blocks[b := i.(releasing := i.releasing - 1,
                               released := i.released + [(2 * unit + |i.data| - 1) / unit])];
    }
  }
}
