/** The bounded cache of recent blocks: a slice sorted by descending number, edited in place. */
module BlockCaching {
  import opened Wrappers

  datatype Block = Block(number: nat, parentHash: string, hash: string, extrinsics: seq<string>)

  predicate Descending(s: seq<Block>) {
    forall i, j :: 0 <= i < j < |s| ==> s[i].number > s[j].number
  }

  function Bound(capacity: nat): nat { if capacity == 0 then 1 else 2 * capacity }

  predicate CacheInv(s: seq<Block>, capacity: nat) { Descending(s) && |s| <= Bound(capacity) }

  // A full slice is cut back to its `capacity` highest blocks first.
  function Kept(s: seq<Block>, capacity: nat): seq<Block> {
    if |s| + 1 > 2 * capacity && capacity <= |s| then s[..capacity] else s
  }

  // The number of leading blocks above `n`.
  function Rank(s: seq<Block>, n: nat): (i: nat)
    ensures i <= |s|
  {
    if s == [] || s[0].number <= n then 0 else 1 + Rank(s[1..], n)
  }

  // A block goes in front of the first lower one; without a lower one it is not inserted.
  function Inserted(s: seq<Block>, b: Block): seq<Block> {
    var i := Rank(s, b.number);
    if i < |s| && s[i].number < b.number then s[..i] + [b] + s[i..] else s
  }

  function Added(s: seq<Block>, capacity: nat, b: Block): seq<Block> {
    if s == [] then [b] else Inserted(Kept(s, capacity), b)
  }

  // The first block with the number, and with the hash.
  function FindNumber(s: seq<Block>, n: nat): Option<Block> {
    if s == [] then None else if s[0].number == n then Some(s[0]) else FindNumber(s[1..], n)
  }

  function FindHash(s: seq<Block>, h: string): Option<Block> {
    if s == [] then None else if s[0].hash == h then Some(s[0]) else FindHash(s[1..], h)
  }

  // What the cache holds after others had their turn: something else, or what it held before.
  function Changed(others: Option<seq<Block>>, s: seq<Block>): seq<Block> {
    if others.Some? then others.value else s
  }

  class BlockCache {
    const capacity: nat
    var buf: array<Block>   // the backing array of the slice
    var len: nat

    ghost var contents: seq<Block>

    ghost predicate Valid()
      reads this, buf
    {
      len <= buf.Length && contents == buf[..len]
    }

    constructor (capacity: nat)
      ensures Valid() && fresh(buf) && contents == [] && this.capacity == capacity
    {
      this.capacity := capacity;
      buf := new Block[0];
      len := 0;
      contents := [];
    }

    method GetByHash(hash: string) returns (r: Option<Block>)
      requires Valid()
      ensures r == FindHash(contents, hash)
    {
      for i := 0 to len
        invariant FindHash(contents, hash) == FindHash(contents[i..], hash)
      {
        if buf[i].hash == hash {
          return Some(buf[i]);
        }
        assert contents[i..][1..] == contents[i + 1..];
      }
      return None;
    }

    method Get(number: nat) returns (r: Option<Block>)
      requires Valid()
      ensures r == FindNumber(contents, number)
    {
      for i := 0 to len
        invariant FindNumber(contents, number) == FindNumber(contents[i..], number)
      {
        if buf[i].number == number {
          return Some(buf[i]);
        }
        assert contents[i..][1..] == contents[i + 1..];
      }
      return None;
    }

    // blocks = append(blocks[:i+1], blocks[i:]...); blocks[i] = block.  Both operands share the
    // backing array, so when there is room the tail moves onto itself and is copied from its end.
    method InsertAt(i: nat, block: Block)
      requires Valid() && i < len
      modifies this, buf
      ensures Valid() && (buf == old(buf) || fresh(buf))
      ensures contents == old(contents[..i]) + [block] + old(contents[i..])
    {
      ghost var was := contents;
      Reserve();
      var tail := len;
      while tail > i
        invariant i <= tail <= len == |was| < buf.Length
        invariant len == old(len) && (buf == old(buf) || fresh(buf))
        invariant forall k :: 0 <= k < tail ==> buf[k] == was[k]
        invariant forall k :: tail < k <= len ==> buf[k] == was[k - 1]
      {
        buf[tail] := buf[tail - 1];
        tail := tail - 1;
      }
      buf[i] := block;
      len := len + 1;
      contents := buf[..len];
      GapFilled(was, contents, i, block);
    }

    // Not in the code: the turn of other goroutines.
    method ChangedBy(others: Option<seq<Block>>)
      requires Valid()
      modifies this
      ensures Valid() && (buf == old(buf) || fresh(buf)) && contents == Changed(others, old(contents))
    {
      if others.Some? {
        var blocks := others.value;
        buf := new Block[|blocks|](i requires 0 <= i < |blocks| => blocks[i]);
        len, contents := |blocks|, blocks;
      }
    }

    // What append does when the backing array is full.
    method Reserve()
      requires Valid()
      modifies this`buf
      ensures Valid() && len < buf.Length && (buf == old(buf) || fresh(buf))
      ensures contents == old(contents)
    {
      if len == buf.Length {
        var bigger := new Block[2 * len + 1];
        forall k | 0 <= k < len { bigger[k] := buf[k]; }
        buf := bigger;
      }
    }

    method Add(block: Block)
      requires Valid()
      modifies this, buf
      ensures Valid() && (buf == old(buf) || fresh(buf))
      ensures contents == Added(old(contents), capacity, block)
    {
      if len == 0 {
        Reserve();
        buf[0] := block;
        len := 1;
        contents := [block];
        return;
      }
      if len + 1 > capacity * 2 {
        len := capacity;
        contents := buf[..len];
      }
      ghost var kept := contents;
      assert kept == Kept(old(contents), capacity);
      for i := 0 to len
        invariant Valid() && buf == old(buf) && len == |kept| && contents == kept
        invariant forall j :: 0 <= j < i ==> kept[j].number > block.number
      {
        assert buf[i] == kept[i];
        if block.number >= buf[i].number { RankIs(kept, block.number, i); }
        if block.number > buf[i].number {
          InsertAt(i, block);
          return;
        }
        if block.number == buf[i].number {
          return;
        }
      }
      RankIs(kept, block.number, |kept|);
    }
  }

  lemma GapFilled(was: seq<Block>, now: seq<Block>, i: nat, b: Block)
    requires i < |was| && |now| == |was| + 1 && now[i] == b
    requires forall k :: 0 <= k < i ==> now[k] == was[k]
    requires forall k :: i < k <= |was| ==> now[k] == was[k - 1]
    ensures now == was[..i] + [b] + was[i..]
  {
  }

  lemma {:induction false} RankSplits(s: seq<Block>, n: nat)
    ensures var i := Rank(s, n);
      && (forall j :: 0 <= j < i ==> s[j].number > n)
      && (i < |s| ==> s[i].number <= n)
  {
    if s != [] && s[0].number > n {
      RankSplits(s[1..], n);
      assert forall j :: 0 < j < Rank(s, n) ==> s[j] == s[1..][j - 1];
    }
  }

  lemma RankIs(s: seq<Block>, n: nat, i: nat)
    requires i <= |s| && forall j :: 0 <= j < i ==> s[j].number > n
    requires i < |s| ==> s[i].number <= n
    ensures Rank(s, n) == i
  {
    RankSplits(s, n);
  }

  /* ---------- lookups: the cache as a map ---------- */

  ghost predicate HasNumber(s: seq<Block>, n: nat) { exists i :: 0 <= i < |s| && s[i].number == n }

  // Numbers are keys: a block is found under its number exactly if it is in the cache.
  lemma {:induction false} FoundIffCached(s: seq<Block>, b: Block)
    requires Descending(s)
    ensures FindNumber(s, b.number) == Some(b) <==> b in s
    ensures FindNumber(s, b.number).None? <==> !HasNumber(s, b.number)
    ensures FindNumber(s, b.number).Some? ==>
        FindNumber(s, b.number).value in s && FindNumber(s, b.number).value.number == b.number
  {
    if s != [] {
      FoundIffCached(s[1..], b);
      assert s == [s[0]] + s[1..];
    }
  }

  // A lookup by hash finds the first block with it, and fails only without one.
  lemma {:induction false} FirstWithHash(s: seq<Block>, h: string, i: nat)
    requires i < |s| && s[i].hash == h && forall j :: 0 <= j < i ==> s[j].hash != h
    ensures FindHash(s, h) == Some(s[i])
  {
    if i > 0 {
      assert forall j :: 0 <= j < i - 1 ==> s[1..][j] == s[j + 1];
      FirstWithHash(s[1..], h, i - 1);
    }
  }

  lemma {:induction false} HashFound(s: seq<Block>, h: string)
    ensures match FindHash(s, h)
      case Some(b) => b in s && b.hash == h
      case None => forall b :: b in s ==> b.hash != h
  {
    if s != [] {
      HashFound(s[1..], h);
      assert s == [s[0]] + s[1..];
    }
  }

  /* ---------- one add ---------- */

  lemma KeptInv(s: seq<Block>, capacity: nat)
    requires CacheInv(s, capacity)
    ensures Descending(Kept(s, capacity)) && forall x :: x in Kept(s, capacity) ==> x in s
    ensures Kept(s, capacity) != [] ==> |Kept(s, capacity)| + 1 <= Bound(capacity)
  {
  }

  lemma AddKeepsInv(s: seq<Block>, capacity: nat, b: Block)
    requires CacheInv(s, capacity)
    ensures CacheInv(Added(s, capacity, b), capacity)
    ensures |Added(s, capacity, b)| <= if capacity == 0 then 1 else 2 * capacity
    ensures forall x :: x in Added(s, capacity, b) ==> x in s || x == b
  {
    var kept := Kept(s, capacity);
    var i := Rank(kept, b.number);
    RankSplits(kept, b.number);
    KeptInv(s, capacity);
    if s != [] && i < |kept| && kept[i].number < b.number {
      InsertKeepsDescending(kept, i, b);
    }
  }

  lemma InsertKeepsDescending(s: seq<Block>, i: nat, b: Block)
    requires Descending(s) && i < |s| && s[i].number < b.number
    requires forall j :: 0 <= j < i ==> s[j].number > b.number
    ensures Descending(s[..i] + [b] + s[i..])
    ensures forall x :: x in s[..i] + [b] + s[i..] ==> x in s || x == b
  {
    var t := s[..i] + [b] + s[i..];
    forall p, q | 0 <= p < q < |t| ensures t[p].number > t[q].number {
      assert t[p] == if p < i then s[p] else if p == i then b else s[p - 1];
      assert t[q] == if q < i then s[q] else if q == i then b else s[q - 1];
      assert i < q ==> s[q - 1].number <= s[i].number;
    }
  }

  // Whether Add takes the block: it needs a lower block to go in front of, and no block of the
  // same number.
  ghost predicate Takes(s: seq<Block>, capacity: nat, b: Block) {
    var kept := Kept(s, capacity);
    s == [] || (kept != [] && kept[|kept| - 1].number < b.number && !HasNumber(kept, b.number))
  }

  lemma AddInsertsOneOrNothing(s: seq<Block>, capacity: nat, b: Block)
    requires CacheInv(s, capacity)
    ensures Takes(s, capacity, b) ==> multiset(Added(s, capacity, b)) == multiset(Kept(s, capacity)) + multiset{b}
    ensures !Takes(s, capacity, b) ==> Added(s, capacity, b) == Kept(s, capacity)
  {
    var kept := Kept(s, capacity);
    var i := Rank(kept, b.number);
    KeptInv(s, capacity);
    PlaceIff(kept, b);
    if s != [] && i < |kept| && kept[i].number < b.number {
      OneInserted(kept, i, b);
    }
  }

  // There is a place for the block exactly if some block is lower and none has its number.
  lemma PlaceIff(s: seq<Block>, b: Block)
    requires Descending(s)
    ensures var i := Rank(s, b.number);
      i < |s| && s[i].number < b.number <==> s != [] && s[|s| - 1].number < b.number && !HasNumber(s, b.number)
  {
    var i := Rank(s, b.number);
    RankSplits(s, b.number);
    if i < |s| {
      forall k | i < k < |s| ensures s[k].number < s[i].number {
      }
    }
  }

  lemma OneInserted(s: seq<Block>, i: nat, b: Block)
    requires i <= |s|
    ensures multiset(s[..i] + [b] + s[i..]) == multiset(s) + multiset{b}
  {
    assert s == s[..i] + s[i..];
  }

  lemma TakenIsCached(s: seq<Block>, capacity: nat, b: Block)
    requires CacheInv(s, capacity) && Takes(s, capacity, b)
    ensures b in Added(s, capacity, b)
  {
    AddInsertsOneOrNothing(s, capacity, b);
    assert b in multiset(Added(s, capacity, b));
  }

  // An add loses no block while there is room for one more, and otherwise exactly those beyond
  // the `capacity` highest.
  lemma SurvivesIff(s: seq<Block>, capacity: nat, b: Block, i: nat)
    requires CacheInv(s, capacity) && i < |s|
    ensures s[i] in Added(s, capacity, b) <==> i < capacity || |s| + 1 <= 2 * capacity
  {
    var kept := Kept(s, capacity);
    KeptInv(s, capacity);
    AddInsertsOneOrNothing(s, capacity, b);
    assert forall x :: x in Added(s, capacity, b) <==> x in multiset(Added(s, capacity, b));
    if i < capacity || |s| + 1 <= 2 * capacity {
      assert kept[i] == s[i] && s[i] in multiset(kept);
    } else {
      assert kept == s[..capacity] && s[i] !in kept;
      if kept != [] { assert kept[|kept| - 1].number > s[i].number; }
    }
  }

  // An add never drops one of the `capacity` highest blocks, and never moves one down by more
  // than the one place the new block needs.
  lemma HighestSurvive(s: seq<Block>, capacity: nat, b: Block, i: nat)
    requires CacheInv(s, capacity) && i < |s| && i < capacity
    ensures var t := Added(s, capacity, b);
      if Takes(s, capacity, b) && b.number > s[i].number then i + 1 < |t| && t[i + 1] == s[i]
      else i < |t| && t[i] == s[i]
  {
    var kept := Kept(s, capacity);
    var r := Rank(kept, b.number);
    RankSplits(kept, b.number);
    assert kept[i] == s[i];
    if r < |kept| && kept[r].number < b.number {
      assert Added(s, capacity, b) == kept[..r] + [b] + kept[r..];
      if r <= i {
        assert kept[i].number <= kept[r].number;
      }
    }
  }

  /* ---------- any sequence of adds ---------- */

  function AddAll(s: seq<Block>, capacity: nat, bs: seq<Block>): seq<Block>
    decreases |bs|
  {
    if bs == [] then s else Added(AddAll(s, capacity, bs[..|bs| - 1]), capacity, bs[|bs| - 1])
  }

  lemma {:induction false} AddAllInv(s: seq<Block>, capacity: nat, bs: seq<Block>)
    requires CacheInv(s, capacity)
    ensures CacheInv(AddAll(s, capacity, bs), capacity)
    ensures forall b :: b in AddAll(s, capacity, bs) ==> b in s || b in bs
    decreases |bs|
  {
    if bs != [] {
      AddAllInv(s, capacity, bs[..|bs| - 1]);
      AddKeepsInv(AddAll(s, capacity, bs[..|bs| - 1]), capacity, bs[|bs| - 1]);
    }
  }

  // Unless its capacity is zero, the cache always holds a block of the highest number it was
  // ever given, in front.
  lemma {:induction false} HighestInFront(capacity: nat, bs: seq<Block>)
    requires capacity > 0 && bs != []
    ensures AddAll([], capacity, bs) != [] && AddAll([], capacity, bs)[0] in bs
    ensures forall b :: b in bs ==> b.number <= AddAll([], capacity, bs)[0].number
  {
    var before, b := bs[..|bs| - 1], bs[|bs| - 1];
    assert bs == before + [b];
    if before != [] {
      HighestInFront(capacity, before);
      AddAllInv([], capacity, before);
      FrontAfterAdd(AddAll([], capacity, before), capacity, b);
    }
  }

  lemma FrontAfterAdd(s: seq<Block>, capacity: nat, b: Block)
    requires CacheInv(s, capacity) && capacity > 0 && s != []
    ensures Added(s, capacity, b) != []
    ensures Added(s, capacity, b)[0] == if b.number > s[0].number then b else s[0]
  {
    assert Kept(s, capacity)[0] == s[0];
  }

  // With capacity zero every second add empties the cache instead.
  lemma {:induction false} ZeroCapacityForgets(bs: seq<Block>)
    ensures |AddAll([], 0, bs)| == |bs| % 2
  {
    if bs != [] {
      ZeroCapacityForgets(bs[..|bs| - 1]);
    }
  }
}
