/**
  `ChunkStore`: a deque kept in blocks of a fixed size, found by absolute index.
  Evicted slots of the head block hold None until the whole block goes.
 */
module ChunkStores {
  import opened Common
  import Division

  datatype Op<T> = Append(value: T) | PopLeft | At(index: int) | Iterate

  datatype Seen<T> = Nothing | Value(value: T) | IndexError | All(values: seq<T>)

  /** The plain sequence the store must be indistinguishable from. */
  function Apply<T>(s: seq<T>, op: Op<T>): seq<T> {
    match op
    case Append(v) => s + [v]
    case PopLeft => if s == [] then s else s[1..]
    case At(_) | Iterate => s
  }

  function Observe<T>(s: seq<T>, op: Op<T>): Seen<T> {
    match op
    case Append(_) => Nothing
    case PopLeft => if s == [] then IndexError else Value(s[0])
    case At(i) =>
      var k := if i < 0 then i + |s| else i;
      if 0 <= k < |s| then Value(s[k]) else IndexError
    case Iterate => All(s)
  }

  function Trace<T>(s: seq<T>, ops: seq<Op<T>>): seq<Seen<T>>
    decreases |ops|
  {
    if ops == [] then [] else [Observe(s, ops[0])] + Trace(Apply(s, ops[0]), ops[1..])
  }

  lemma {:induction false} TraceSnoc<T>(s: seq<T>, ops: seq<Op<T>>, op: Op<T>)
    ensures Trace(s, ops + [op]) == Trace(s, ops) + [Observe(After(s, ops), op)]
    ensures After(s, ops + [op]) == Apply(After(s, ops), op)
    decreases |ops|
  {
    if ops == [] {
      assert ops + [op] == [op];
    } else {
      assert (ops + [op])[1..] == ops[1..] + [op];
      TraceSnoc(Apply(s, ops[0]), ops[1..], op);
    }
  }

  function After<T>(s: seq<T>, ops: seq<Op<T>>): seq<T>
    decreases |ops|
  {
    if ops == [] then s else After(Apply(s, ops[0]), ops[1..])
  }

  // ------------------------------------------------------ slots held in blocks

  ghost function Total<V>(blocks: map<nat, seq<V>>): nat
    decreases |blocks|
  {
    if blocks == map[] then 0
    else
      var b :| b in blocks;
      assert |blocks - {b}| < |blocks| by { assert (blocks - {b}).Keys < blocks.Keys; SmallerKeys(blocks, b); }
      |blocks[b]| + Total(blocks - {b})
  }

  lemma SmallerKeys<V>(blocks: map<nat, seq<V>>, b: nat)
    requires b in blocks
    ensures |blocks - {b}| == |blocks| - 1
  {
    assert (blocks - {b}).Keys == blocks.Keys - {b};
    assert |blocks.Keys| == |blocks| && |(blocks - {b}).Keys| == |blocks - {b}|;
  }

  lemma {:induction false} TotalWithout<V>(blocks: map<nat, seq<V>>, b: nat)
    requires b in blocks
    ensures Total(blocks) == |blocks[b]| + Total(blocks - {b})
    decreases |blocks|
  {
    var c :| c in blocks && Total(blocks) == |blocks[c]| + Total(blocks - {c});
    if c != b {
      SmallerKeys(blocks, c);
      SmallerKeys(blocks, b);
      TotalWithout(blocks - {c}, b);
      TotalWithout(blocks - {b}, c);
      assert blocks - {c} - {b} == blocks - {b} - {c};
    }
  }

  lemma TotalWith<V>(blocks: map<nat, seq<V>>, b: nat, v: seq<V>)
    ensures Total(blocks[b := v]) == |v| + Total(blocks - {b})
  {
    TotalWithout(blocks[b := v], b);
    assert blocks[b := v] - {b} == blocks - {b};
  }

  // ------------------------------------------------------------ block addresses

  /** Block and offset of absolute index `k`, counted up from 0. */
  ghost function Addr(k: nat, size: nat): (a: (nat, nat))
    requires size > 0
    ensures a.1 < size
  {
    if k == 0 then (0, 0)
    else
      var a := Addr(k - 1, size);
      if a.1 + 1 < size then (a.0, a.1 + 1) else (a.0 + 1, 0)
  }

  /** They are the quotient and remainder the source computes. */
  lemma {:induction false} AddrIsDivMod(k: nat, size: nat)
    requires size > 0
    ensures Addr(k, size) == (k / size, k % size)
  {
    if k == 0 {
      Division.Unique(0, size, 0, 0);
    } else {
      AddrIsDivMod(k - 1, size);
      Division.Successor(k - 1, size);
    }
  }

  lemma {:induction false} AddrGrows(j: nat, k: nat, size: nat)
    requires size > 0 && j < k
    ensures var a, b := Addr(j, size), Addr(k, size); a.0 < b.0 || (a.0 == b.0 && a.1 < b.1)
    decreases k
  {
    if j < k - 1 {
      AddrGrows(j, k - 1, size);
    }
  }

  /** The representation as a value. */
  datatype Rep<T> = Rep(size: nat, blocks: map<nat, seq<Option<T>>>, start: nat, end: nat, log: seq<T>)

  ghost predicate Holds<T>(r: Rep<T>, k: nat)
    requires r.size > 0 && k < |r.log|
  {
    var (b, o) := Addr(k, r.size);
    b in r.blocks && o < |r.blocks[b]| && r.blocks[b][o] == Some(r.log[k])
  }

  /** Blocks from the one of `start` up to the one of `end`, none longer than
      `size`, the last one ending where `end` points. */
  ghost predicate Framed<T>(r: Rep<T>) {
    && r.size > 0 && r.start <= r.end == |r.log|
    && (forall b <- r.blocks :: Addr(r.start, r.size).0 <= b <= Addr(r.end, r.size).0 && |r.blocks[b]| <= r.size)
    && var (b, o) := Addr(r.end, r.size);
       if o == 0 then b !in r.blocks else b in r.blocks && |r.blocks[b]| == o
  }

  ghost predicate RepOk<T>(r: Rep<T>) {
    && Framed(r)
    && (forall k :: r.start <= k < r.end ==> Holds(r, k))
    && Total(r.blocks) == r.end - r.start + Addr(r.start, r.size).1
  }

  function Appended<T>(r: Rep<T>, b: nat, o: nat, value: T): Rep<T>
    requires o != 0 ==> b in r.blocks
  {
    r.(blocks := r.blocks[b := (if o == 0 then [] else r.blocks[b]) + [Some(value)]], end := r.end + 1, log := r.log + [value])
  }

  lemma AppendKeeps<T>(r: Rep<T>, value: T)
    requires RepOk(r)
    ensures var (b, o) := Addr(r.end, r.size); RepOk(Appended(r, b, o, value))
  {
    var (b, o) := Addr(r.end, r.size);
    var t := Appended(r, b, o, value);
    assert Framed(t);
    forall k | t.start <= k < t.end
      ensures Holds(t, k)
    {
      if k < r.end {
        assert Holds(r, k);
        AddrGrows(k, r.end, r.size);
      }
    }
    TotalWith(r.blocks, b, t.blocks[b]);
    if o == 0 {
      assert r.blocks - {b} == r.blocks;
    } else {
      TotalWithout(r.blocks, b);
    }
  }

  /** `popleft` of a non-empty store: the slot is blanked, a finished block goes. */
  function Popped<T>(r: Rep<T>, b: nat, o: nat): Rep<T>
    requires b in r.blocks && o < |r.blocks[b]|
  {
    r.(blocks := if o + 1 == r.size then r.blocks - {b} else r.blocks[b := r.blocks[b][o := None]], start := r.start + 1)
  }

  lemma PopKeeps<T>(r: Rep<T>)
    requires RepOk(r) && r.start < r.end
    ensures Holds(r, r.start)
    ensures var (b, o) := Addr(r.start, r.size); RepOk(Popped(r, b, o))
  {
    var (b, o) := Addr(r.start, r.size);
    assert Holds(r, r.start);
    var t := Popped(r, b, o);
    PopFrames(r);
    forall k | t.start <= k < t.end
      ensures Holds(t, k)
    {
      assert Holds(r, k);
      AddrGrows(r.start, k, r.size);
    }
    TotalWithout(r.blocks, b);
    if o + 1 < r.size {
      TotalWith(r.blocks, b, t.blocks[b]);
    }
  }

  lemma PopFrames<T>(r: Rep<T>)
    requires Framed(r) && r.start < r.end && Holds(r, r.start)
    ensures var (b, o) := Addr(r.start, r.size); Framed(Popped(r, b, o)) && (o + 1 == r.size ==> |r.blocks[b]| == r.size)
  {
    AddrGrows(r.start, r.end, r.size);
  }

  /** Python's `divmod` on the absolute index. */
  method DivMod(k: nat, size: nat) returns (block: nat, offset: nat)
    requires size > 0
    ensures (block, offset) == Addr(k, size)
  {
    Division.Split(k, size);
    AddrIsDivMod(k, size);
    block, offset := k / size, k % size;
  }

  // ---------------------------------------------------------------- the class

  class ChunkStore<T> {
    const size: nat
    var blocks: map<nat, seq<Option<T>>>
    var start: nat
    var end: nat
    /** Every value ever appended. */
    ghost var log: seq<T>

    ghost function View(): Rep<T>
      reads this
    {
      Rep(size, blocks, start, end, log)
    }

    ghost predicate Valid()
      reads this
    {
      RepOk(View())
    }

    ghost function Contents(): seq<T>
      requires Valid()
      reads this
    {
      log[start..end]
    }

    constructor (size: nat)
      requires size > 0
      ensures Valid() && Contents() == [] && this.size == size
    {
      this.size := size;
      blocks, start, end, log := map[], 0, 0, [];
    }

    method Length() returns (n: nat)
      requires Valid()
      ensures n == |Contents()|
    {
      n := end - start;
    }

    method Append(value: T)
      requires Valid()
      modifies this
      ensures Valid() && Contents() == old(Contents()) + [value]
    {
      AppendKeeps(View(), value);
      var block, offset := DivMod(end, size);
      if offset == 0 {
        blocks := blocks[block := []];
      }
      blocks := blocks[block := blocks[block] + [Some(value)]];
      end := end + 1;
      log := log + [value];
      assert View() == Appended(old(View()), block, offset, value);
      assert log[start..end] == old(log[start..end]) + [value];
    }

    method GetItem(index: int) returns (r: Seen<T>)
      requires Valid()
      ensures r == Observe(Contents(), At(index))
      ensures 0 <= index < |Contents()| ==> r == Value(Contents()[index])
      ensures -|Contents()| <= index < 0 ==> r == Value(Contents()[|Contents()| + index])
      ensures !(-|Contents()| <= index < |Contents()|) ==> r == IndexError
    {
      var i := index;
      if i < 0 {
        i := i + (end - start);
      }
      if !(0 <= i < end - start) {
        return IndexError;
      }
      assert Holds(View(), start + i);
      var block, offset := DivMod(start + i, size);
      r := Value(blocks[block][offset].value);
    }

    /** The part of `popleft` that forgets the head value. */
    method Evict()
      requires size > 0 && var (b, o) := Addr(start, size); b in blocks && o < |blocks[b]|
      modifies this
      ensures var (b, o) := Addr(old(start), size); View() == Popped(old(View()), b, o)
    {
      var block, offset := DivMod(start, size);
      blocks := blocks[block := blocks[block][offset := None]];
      start := start + 1;
      var _, left := DivMod(start, size);
      if left == 0 {
        blocks := blocks - {block};
        assert blocks == old(blocks) - {block};
      }
    }

    method PopLeft() returns (r: Seen<T>)
      requires Valid()
      modifies this
      ensures Valid()
      ensures r == Observe(old(Contents()), Op.PopLeft) && Contents() == Apply(old(Contents()), Op.PopLeft)
      ensures old(Contents()) == [] ==> r == IndexError && Contents() == []
      ensures old(Contents()) != [] ==> r == Value(old(Contents())[0]) && Contents() == old(Contents())[1..]
    {
      r := GetItem(0);
      if r.IndexError? {
        return;
      }
      PopKeeps(View());
      Evict();
    }

    method Iterate() returns (values: seq<T>)
      requires Valid()
      ensures values == Contents()
    {
      values := [];
      for i := 0 to end - start
        invariant values == Contents()[..i]
      {
        var item := GetItem(i);
        values := values + [item.value];
      }
    }

    /** Retention: the slots held are the live ones plus the evicted part of the
        head block, fewer than one block. */
    lemma SlotsHeld()
      requires Valid()
      ensures Total(blocks) == |Contents()| + start % size
      ensures Total(blocks) < |Contents()| + size
    {
      AddrIsDivMod(start, size);
    }
  }

  /** Any mix of operations on a new store shows exactly what a sequence shows. */
  method Execute<T>(size: nat, ops: seq<Op<T>>) returns (seen: seq<Seen<T>>)
    requires size > 0
    ensures seen == Trace([], ops)
  {
    var store := new ChunkStore<T>(size);
    seen := [];
    for i := 0 to |ops|
      invariant fresh(store) && store.Valid()
      invariant store.Contents() == After([], ops[..i]) && seen == Trace([], ops[..i])
    {
      TraceSnoc([], ops[..i], ops[i]);
      assert ops[..i + 1] == ops[..i] + [ops[i]];
      var o: Seen<T>;
      match ops[i] {
        case Append(v) => store.Append(v); o := Nothing;
        case PopLeft => o := store.PopLeft();
        case At(k) => o := store.GetItem(k);
        case Iterate => var all := store.Iterate(); o := All(all);
      }
      seen := seen + [o];
    }
    assert ops[..|ops|] == ops;
  }
}
