/**
 The first-fit allocator over an intrusive doubly linked list of chunk headers. `Chunk` lists are the
 specification: what the headers in the region say, in address order, back links included. `Heap` is the
 allocator on the headers themselves.
 */
module Allocator {
  import opened Prelude

  const DYNAMIC_SIZE: nat := 4096 * 10000
  const MIN_CHUNK: nat := 128
  const HEADER: nat := 24                // bytes of a list node

  /** A chunk: the address of its header, and what the header says. */
  datatype Chunk = Chunk(addr: nat, inUse: bool, prev: nat)

  function CeilAlign(x: nat): (y: nat)
    ensures x <= y < x + 8 && y % 8 == 0
  {
    (x + 7) / 8 * 8
  }

  datatype Region = Region(start: nat) {
    const end := start + DYNAMIC_SIZE

    predicate Valid() {
      start > 0 && start % 8 == 0
    }
  }

  /** Where chunk `i` ends. */
  function EndOf(r: Region, s: seq<Chunk>, i: nat): nat
    requires i < |s|
  {
    if i + 1 < |s| then s[i + 1].addr else r.end
  }

  function Room(r: Region, s: seq<Chunk>, i: nat): int
    requires i < |s|
  {
    EndOf(r, s, i) - (s[i].addr + HEADER)
  }

  // ----- well-formed lists -----

  /** The chunks tile the region, with 8-aligned headers. */
  ghost predicate Tiles(r: Region, s: seq<Chunk>) {
    && r.Valid() && |s| > 0 && s[0].addr == r.start
    && (forall i :: 0 <= i < |s| ==> TileAt(r, s, i))
  }

  ghost predicate TileAt(r: Region, s: seq<Chunk>, i: nat)
    requires i < |s|
  {
    s[i].addr % 8 == 0 && Room(r, s, i) >= 0
  }

  ghost predicate BackLinks(s: seq<Chunk>) {
    forall i :: 0 <= i < |s| ==> BackLink(s, i)
  }

  ghost predicate BackLink(s: seq<Chunk>, i: nat)
    requires i < |s|
  {
    s[i].prev == if i == 0 then 0 else s[i - 1].addr
  }

  ghost predicate NoFreePair(s: seq<Chunk>) {
    forall i :: 0 <= i < |s| ==> Separated(s, i)
  }

  /** Chunk `i` and the next one are not both free. */
  ghost predicate Separated(s: seq<Chunk>, i: nat)
    requires i < |s|
  {
    i + 1 < |s| ==> s[i].inUse || s[i + 1].inUse
  }

  ghost predicate WellFormed(r: Region, s: seq<Chunk>) {
    Tiles(r, s) && BackLinks(s) && NoFreePair(s)
  }

  /** The region when `alloc` is first called. */
  function InitList(r: Region): seq<Chunk> {
    [Chunk(r.start, false, 0)]
  }

  lemma InitWellFormed(r: Region)
    requires r.Valid()
    ensures WellFormed(r, InitList(r)) && |InitList(r)| == 1
    ensures InitList(r)[0] == Chunk(r.start, false, 0) && EndOf(r, InitList(r), 0) == r.start + 40_960_000
  {
  }

  // ----- adding and removing a header -----

  function Insert(s: seq<Chunk>, i: nat, c: Chunk): seq<Chunk>
    requires i < |s|
  {
    s[..i + 1] + [c] + s[i + 1..]
  }

  function Remove(s: seq<Chunk>, i: nat): seq<Chunk>
    requires i < |s|
  {
    s[..i] + s[i + 1..]
  }

  lemma InsertRoom(r: Region, s: seq<Chunk>, i: nat, c: Chunk, k: nat)
    requires i < |s| && k <= |s|
    ensures |Insert(s, i, c)| == |s| + 1
    ensures Insert(s, i, c)[k] == if k <= i then s[k] else if k == i + 1 then c else s[k - 1]
    ensures Room(r, Insert(s, i, c), k) ==
            if k < i then Room(r, s, k)
            else if k == i then c.addr - (s[i].addr + HEADER)
            else if k == i + 1 then EndOf(r, s, i) - (c.addr + HEADER)
            else Room(r, s, k - 1)
  {
  }

  lemma RemoveRoom(r: Region, s: seq<Chunk>, i: nat, k: nat)
    requires 0 < i < |s| && k < |s| - 1
    ensures |Remove(s, i)| == |s| - 1
    ensures Remove(s, i)[k] == if k < i then s[k] else s[k + 1]
    ensures Room(r, Remove(s, i), k) ==
            if k < i - 1 then Room(r, s, k)
            else if k == i - 1 then EndOf(r, s, i) - (s[i - 1].addr + HEADER)
            else Room(r, s, k + 1)
  {
  }

  lemma InsertTiles(r: Region, s: seq<Chunk>, i: nat, c: Chunk)
    requires Tiles(r, s) && i < |s| && c.addr % 8 == 0
    requires s[i].addr + HEADER <= c.addr && c.addr + HEADER <= EndOf(r, s, i)
    ensures Tiles(r, Insert(s, i, c))
  {
    var t := Insert(s, i, c);
    forall k | 0 <= k < |t| ensures TileAt(r, t, k) {
      InsertRoom(r, s, i, c, k);
      assert TileAt(r, s, if k <= i then k else k - 1);
    }
    InsertRoom(r, s, i, c, 0);
  }

  lemma RemoveTiles(r: Region, s: seq<Chunk>, i: nat)
    requires Tiles(r, s) && 0 < i < |s|
    ensures Tiles(r, Remove(s, i))
  {
    var t := Remove(s, i);
    assert TileAt(r, s, i - 1) && TileAt(r, s, i);
    forall k | 0 <= k < |t| ensures TileAt(r, t, k) {
      RemoveRoom(r, s, i, k);
      assert TileAt(r, s, if k < i then k else k + 1);
    }
    RemoveRoom(r, s, i, 0);
  }

  /** Flags and links do not matter for the tiling. */
  lemma SameTiles(r: Region, s: seq<Chunk>, t: seq<Chunk>)
    requires Tiles(r, s) && |t| == |s| && forall k :: 0 <= k < |s| ==> t[k].addr == s[k].addr
    ensures Tiles(r, t)
  {
    forall k | 0 <= k < |t| ensures TileAt(r, t, k) {
      assert TileAt(r, s, k);
    }
  }

  // ----- live blocks -----

  /** A block handed out: its address and its capacity. */
  datatype Block = Block(at: nat, capacity: int)

  function BlockAt(r: Region, s: seq<Chunk>, i: nat): Block
    requires i < |s|
  {
    Block(s[i].addr + HEADER, Room(r, s, i))
  }

  ghost predicate LiveAt(r: Region, s: seq<Chunk>, i: nat, b: Block) {
    i < |s| && s[i].inUse && b == BlockAt(r, s, i)
  }

  ghost predicate Live(r: Region, s: seq<Chunk>, b: Block) {
    exists i: nat :: LiveAt(r, s, i, b)
  }

  ghost predicate Apart(a: Block, b: Block) {
    a.at + a.capacity <= b.at || b.at + b.capacity <= a.at
  }

  lemma {:induction false} Increasing(r: Region, s: seq<Chunk>, i: nat, j: nat)
    requires Tiles(r, s) && i < j < |s|
    ensures EndOf(r, s, i) <= s[j].addr
    decreases j
  {
    if j > i + 1 {
      Increasing(r, s, i, j - 1);
      assert TileAt(r, s, j - 1);
    }
  }

  lemma InsideRegion(r: Region, s: seq<Chunk>, i: nat)
    requires Tiles(r, s) && i < |s|
    ensures r.start <= s[i].addr && EndOf(r, s, i) <= r.end && s[i].addr + HEADER <= EndOf(r, s, i)
  {
    assert TileAt(r, s, 0) && TileAt(r, s, i) && TileAt(r, s, |s| - 1);
    if i > 0 { Increasing(r, s, 0, i); }
    if i < |s| - 1 { Increasing(r, s, i, |s| - 1); }
  }

  /** Live blocks lie inside the region and do not overlap. */
  lemma LiveBlocksApart(r: Region, s: seq<Chunk>, a: Block, b: Block)
    requires Tiles(r, s) && Live(r, s, a) && Live(r, s, b) && a != b
    ensures Apart(a, b) && a.at % 8 == 0 && a.capacity >= 0
    ensures r.start + HEADER <= a.at && a.at + a.capacity <= r.end
  {
    var i: nat :| LiveAt(r, s, i, a);
    var j: nat :| LiveAt(r, s, j, b);
    assert TileAt(r, s, i) && TileAt(r, s, j);
    InsideRegion(r, s, i);
    if i < j { Increasing(r, s, i, j); } else if j < i { Increasing(r, s, j, i); }
  }

  // ----- alloc -----

  predicate Fits(r: Region, s: seq<Chunk>, i: nat, size: nat)
    requires i < |s|
  {
    !s[i].inUse && Room(r, s, i) >= size
  }

  /** The first free chunk from index `i` on that holds `size` bytes. */
  function FirstFit(r: Region, s: seq<Chunk>, size: nat, i: nat): (k: Option<nat>)
    requires i <= |s|
    ensures k.None? ==> forall j :: i <= j < |s| ==> !Fits(r, s, j, size)
    ensures k.Some? ==> i <= k.value < |s| && Fits(r, s, k.value, size)
                        && forall j :: i <= j < k.value ==> !Fits(r, s, j, size)
    decreases |s| - i
  {
    if i == |s| then None
    else if Fits(r, s, i, size) then Some(i)
    else FirstFit(r, s, size, i + 1)
  }

  predicate Splits(r: Region, s: seq<Chunk>, i: nat, size: nat)
    requires i < |s|
  {
    Room(r, s, i) - size > MIN_CHUNK
  }

  function SetUse(s: seq<Chunk>, i: nat, use: bool): seq<Chunk>
    requires i < |s|
  {
    s[i := s[i].(inUse := use)]
  }

  /** Set the back link of chunk `k`, if there is one. */
  function Relink(s: seq<Chunk>, k: nat, prev: nat): seq<Chunk> {
    if k < |s| then s[k := s[k].(prev := prev)] else s
  }

  function Rest(s: seq<Chunk>, i: nat, size: nat): Chunk
    requires i < |s|
  {
    Chunk(s[i].addr + HEADER + size, false, s[i].addr)
  }

  /** Chunk `i` taken for `size` bytes, as in the source: a split leaves the back link of the chunk
      after the new one as it was. */
  function Take(r: Region, s: seq<Chunk>, i: nat, size: nat): seq<Chunk>
    requires i < |s|
  {
    var used := SetUse(s, i, true);
    if Splits(r, s, i, size) then Insert(used, i, Rest(s, i, size)) else used
  }

  /** The same with that back link set too. */
  function TakeLinked(r: Region, s: seq<Chunk>, i: nat, size: nat): seq<Chunk>
    requires i < |s|
  {
    var t := Take(r, s, i, size);
    if Splits(r, s, i, size) then Relink(t, i + 2, Rest(s, i, size).addr) else t
  }

  lemma TakeTiles(r: Region, s: seq<Chunk>, i: nat, size: nat)
    requires Tiles(r, s) && i < |s| && Fits(r, s, i, size) && size % 8 == 0
    ensures Tiles(r, Take(r, s, i, size)) && Tiles(r, TakeLinked(r, s, i, size))
  {
    assert TileAt(r, s, i);
    var used := SetUse(s, i, true);
    SameTiles(r, s, used);
    if Splits(r, s, i, size) { InsertTiles(r, used, i, Rest(s, i, size)); }
    SameTiles(r, Take(r, s, i, size), TakeLinked(r, s, i, size));
  }

  /** The literal `alloc` keeps the back links exactly when it does not split a chunk that has a
      successor. */
  lemma AllocBackLinks(r: Region, s: seq<Chunk>, i: nat, size: nat)
    requires WellFormed(r, s) && i < |s| && Fits(r, s, i, size)
    ensures BackLinks(Take(r, s, i, size)) <==> !(Splits(r, s, i, size) && i + 1 < |s|)
  {
    var t, used := Take(r, s, i, size), SetUse(s, i, true);
    if Splits(r, s, i, size) && i + 1 < |s| {
      assert BackLink(s, i + 1);
      InsertRoom(r, used, i, Rest(s, i, size), i + 1);
      InsertRoom(r, used, i, Rest(s, i, size), i + 2);
      assert !BackLink(t, i + 2);
    } else {
      forall k | 0 <= k < |t| ensures BackLink(t, k) {
        TakeLink(r, s, i, size, k);
      }
    }
  }

  lemma TakeLink(r: Region, s: seq<Chunk>, i: nat, size: nat, k: nat)
    requires BackLinks(s) && i < |s| && k < |TakeLinked(r, s, i, size)|
    ensures BackLink(TakeLinked(r, s, i, size), k)
    ensures i + 1 == |s| ==> TakeLinked(r, s, i, size) == Take(r, s, i, size)
  {
    var used := SetUse(s, i, true);
    if Splits(r, s, i, size) {
      InsertRoom(r, used, i, Rest(s, i, size), k);
      if k > 0 { InsertRoom(r, used, i, Rest(s, i, size), k - 1); }
      assert BackLink(s, if k <= i then k else k - 1);
    } else {
      assert BackLink(s, k);
    }
  }

  /** With the back link set, `alloc` keeps the list well formed. */
  lemma TakeWellFormed(r: Region, s: seq<Chunk>, i: nat, size: nat)
    requires WellFormed(r, s) && i < |s| && Fits(r, s, i, size) && size % 8 == 0
    ensures WellFormed(r, TakeLinked(r, s, i, size))
  {
    TakeTiles(r, s, i, size);
    var u := TakeLinked(r, s, i, size);
    forall k | 0 <= k < |u| ensures BackLink(u, k) {
      TakeLink(r, s, i, size, k);
    }
    forall k | 0 <= k < |u| ensures Separated(u, k) {
      TakeSeparated(r, s, i, size, k);
    }
  }

  lemma TakeSeparated(r: Region, s: seq<Chunk>, i: nat, size: nat, k: nat)
    requires NoFreePair(s) && i < |s| && !s[i].inUse && k < |TakeLinked(r, s, i, size)|
    ensures Separated(TakeLinked(r, s, i, size), k)
  {
    assert Separated(s, i);
    var used := SetUse(s, i, true);
    if Splits(r, s, i, size) {
      InsertRoom(r, used, i, Rest(s, i, size), k);
      if k + 1 <= |s| { InsertRoom(r, used, i, Rest(s, i, size), k + 1); }
      assert Separated(s, if k <= i then k else k - 1);
    } else {
      assert Separated(s, k);
    }
  }

  /** `alloc` adds one live block, big enough, and leaves every other one as it is. */
  lemma TakeAddsOneBlock(r: Region, s: seq<Chunk>, i: nat, size: nat, b: Block)
    requires i < |s| && Fits(r, s, i, size)
    ensures i < |Take(r, s, i, size)| && size <= BlockAt(r, Take(r, s, i, size), i).capacity <= size + 128
    ensures BlockAt(r, Take(r, s, i, size), i).at == s[i].addr + HEADER
    ensures Live(r, Take(r, s, i, size), b) <==> Live(r, s, b) || b == BlockAt(r, Take(r, s, i, size), i)
  {
    var t := Take(r, s, i, size);
    TakeKeepsBlock(r, s, i, size, i);
    assert LiveAt(r, t, i, BlockAt(r, t, i));
    if Live(r, s, b) {
      var k: nat :| LiveAt(r, s, k, b);
      TakeKeepsBlock(r, s, i, size, k);
      assert LiveAt(r, t, if k > i && Splits(r, s, i, size) then k + 1 else k, b);
    }
    if Live(r, t, b) {
      var k: nat :| LiveAt(r, t, k, b);
      TakeOnlyBlocks(r, s, i, size, k);
    }
  }

  lemma TakeKeepsBlock(r: Region, s: seq<Chunk>, i: nat, size: nat, k: nat)
    requires i < |s| && k < |s| && Fits(r, s, i, size)
    ensures var t, k' := Take(r, s, i, size), if k > i && Splits(r, s, i, size) then k + 1 else k;
            && k' < |t| && t[k'] == (if k == i then s[i].(inUse := true) else s[k])
            && Room(r, t, k') == (if k == i && Splits(r, s, i, size) then size else Room(r, s, k))
  {
    if Splits(r, s, i, size) {
      InsertRoom(r, SetUse(s, i, true), i, Rest(s, i, size), if k > i then k + 1 else k);
    }
  }

  lemma TakeOnlyBlocks(r: Region, s: seq<Chunk>, i: nat, size: nat, k: nat)
    requires i < |s| && Fits(r, s, i, size) && k < |Take(r, s, i, size)| && Take(r, s, i, size)[k].inUse
    ensures k == i || Live(r, s, BlockAt(r, Take(r, s, i, size), k))
  {
    var t := Take(r, s, i, size);
    if Splits(r, s, i, size) {
      InsertRoom(r, SetUse(s, i, true), i, Rest(s, i, size), k);
      if k > i + 1 { assert LiveAt(r, s, k - 1, BlockAt(r, t, k)); }
      if k < i { assert LiveAt(r, s, k, BlockAt(r, t, k)); }
    } else if k != i {
      assert LiveAt(r, s, k, BlockAt(r, t, k));
    }
  }

  /** The search stops at chunk `i`: it is free and has `size` bytes, and no chunk before it does. */
  ghost predicate FirstLargeEnough(r: Region, s: seq<Chunk>, i: nat, size: nat) {
    && i < |s| && !s[i].inUse && EndOf(r, s, i) - s[i].addr >= size + 24
    && forall j :: 0 <= j < i ==> s[j].inUse || EndOf(r, s, j) - s[j].addr < size + 24
  }

  /** Chunk `i` of `s` is in use in `t`. If it had more than 128 bytes over, these are the next chunk, free;
      if not, no boundary has moved. */
  ghost predicate HandedOut(r: Region, s: seq<Chunk>, t: seq<Chunk>, i: nat, size: nat) {
    && i < |s| <= |t| && t[..i] == s[..i] && t[i] == Chunk(s[i].addr, true, s[i].prev)
    && size + 24 <= EndOf(r, t, i) - t[i].addr <= size + 24 + 128
    && var room := EndOf(r, s, i) - s[i].addr - 24;
       if room - size > 128 then
         && |t| == |s| + 1 && t[i + 1] == Chunk(s[i].addr + 24 + size, false, s[i].addr)
         && EndOf(r, t, i + 1) == EndOf(r, s, i) && t[i + 2..] == s[i + 1..]
       else |t| == |s| && EndOf(r, t, i) == EndOf(r, s, i) && t[i + 1..] == s[i + 1..]
  }

  lemma SkippedTooSmall(r: Region, s: seq<Chunk>, size: nat, n: nat)
    requires n <= |s| && forall j :: 0 <= j < n ==> !Fits(r, s, j, size)
    ensures forall j :: 0 <= j < n ==> s[j].inUse || EndOf(r, s, j) - s[j].addr < size + 24
  {
    forall j | 0 <= j < n ensures s[j].inUse || EndOf(r, s, j) - s[j].addr < size + 24 {
      assert !Fits(r, s, j, size);
    }
  }

  lemma TakeHandsOut(r: Region, s: seq<Chunk>, i: nat, size: nat)
    requires i < |s| && Fits(r, s, i, size)
    ensures HandedOut(r, s, Take(r, s, i, size), i, size)
  {
    var u, used := Take(r, s, i, size), SetUse(s, i, true);
    if Room(r, s, i) - size > 128 {
      InsertRoom(r, used, i, Rest(s, i, size), i);
      InsertRoom(r, used, i, Rest(s, i, size), i + 1);
      assert u[i + 2..] == s[i + 1..] && u[..i] == s[..i];
    } else {
      assert u[i + 1..] == s[i + 1..] && u[..i] == s[..i];
    }
  }

  /** What `alloc` makes of the list, byte for byte. */
  lemma AllocHandsOut(r: Region, s: seq<Chunk>, size: nat)
    ensures match FirstFit(r, s, size, 0)
            case Some(i) => FirstLargeEnough(r, s, i, size) && HandedOut(r, s, Take(r, s, i, size), i, size)
            case None => forall j :: 0 <= j < |s| ==> s[j].inUse || EndOf(r, s, j) - s[j].addr < size + 24
  {
    match FirstFit(r, s, size, 0)
    case Some(i) =>
      SkippedTooSmall(r, s, size, i);
      TakeHandsOut(r, s, i, size);
    case None => SkippedTooSmall(r, s, size, |s|);
  }

  // ----- dealloc -----

  /** Chunk `i` disappears into the one before it. */
  function Absorb(s: seq<Chunk>, i: nat): seq<Chunk>
    requires 0 < i < |s|
  {
    Relink(Remove(s, i), i, s[i - 1].addr)
  }

  /** Chunk `i` is merged with the next one if that is free. */
  function MergeNext(s: seq<Chunk>, i: nat): seq<Chunk>
    requires i < |s|
  {
    if i + 1 < |s| && !s[i + 1].inUse then Absorb(s, i + 1) else s
  }

  /** Freeing chunk `i` of a list with sound back links. */
  function Free(s: seq<Chunk>, i: nat): seq<Chunk>
    requires i < |s|
  {
    var t := SetUse(s, i, false);
    if i > 0 && !s[i - 1].inUse then MergeNext(Absorb(t, i), i - 1) else MergeNext(t, i)
  }

  /** A free chunk `i`, elsewhere no two adjacent ones. */
  ghost predicate SeparatedBut(s: seq<Chunk>, i: nat) {
    forall k :: 0 <= k < |s| && k != i ==> Separated(s, k)
  }

  lemma AbsorbTiles(r: Region, s: seq<Chunk>, i: nat)
    requires Tiles(r, s) && BackLinks(s) && 0 < i < |s|
    ensures Tiles(r, Absorb(s, i)) && BackLinks(Absorb(s, i))
  {
    RemoveTiles(r, s, i);
    var t := Absorb(s, i);
    SameTiles(r, Remove(s, i), t);
    forall k | 0 <= k < |t| ensures BackLink(t, k) {
      RemoveRoom(r, s, i, k);
      if k > 0 { RemoveRoom(r, s, i, k - 1); }
      assert BackLink(s, if k < i then k else k + 1);
    }
  }

  lemma AbsorbSeparated(r: Region, s: seq<Chunk>, i: nat, k: nat)
    requires 0 < i < |s| && k < |s| - 1
    requires k < i - 1 ==> Separated(s, k)
    requires k == i - 1 ==> Separated(s, i) && (s[i].inUse ==> s[i - 1].inUse)
    requires k >= i ==> Separated(s, k + 1)
    ensures k < |Absorb(s, i)| && Separated(Absorb(s, i), k)
  {
    RemoveRoom(r, s, i, k);
    if k + 1 < |s| - 1 { RemoveRoom(r, s, i, k + 1); }
  }

  lemma MergeNextWellFormed(r: Region, s: seq<Chunk>, i: nat)
    requires Tiles(r, s) && BackLinks(s) && i < |s| && SeparatedBut(s, i)
    ensures WellFormed(r, MergeNext(s, i))
  {
    var t := MergeNext(s, i);
    if i + 1 < |s| && !s[i + 1].inUse {
      AbsorbTiles(r, s, i + 1);
      forall k | 0 <= k < |t| ensures Separated(t, k) {
        assert Separated(s, if k < i then k else k + 1);
        AbsorbSeparated(r, s, i + 1, k);
      }
    } else {
      assert Separated(s, i);
      forall k | 0 <= k < |t| ensures Separated(t, k) {}
    }
  }

  /** From a well-formed list `dealloc` gives a well-formed list. */
  lemma FreeWellFormed(r: Region, s: seq<Chunk>, i: nat)
    requires WellFormed(r, s) && i < |s| && s[i].inUse
    ensures WellFormed(r, Free(s, i))
  {
    var t := SetUse(s, i, false);
    SameTiles(r, s, t);
    forall k | 0 <= k < |t| ensures BackLink(t, k) { assert BackLink(s, k); }
    if i > 0 && !s[i - 1].inUse {
      AbsorbTiles(r, t, i);
      var u := Absorb(t, i);
      forall k | 0 <= k < |u| && k != i - 1 ensures Separated(u, k) {
        assert Separated(s, if k < i then k else k + 1);
        AbsorbSeparated(r, t, i, k);
      }
      MergeNextWellFormed(r, u, i - 1);
    } else {
      forall k | 0 <= k < |t| && k != i ensures Separated(t, k) { assert Separated(s, k); }
      MergeNextWellFormed(r, t, i);
    }
  }

  /** With the link set, freeing what was just allocated restores the list: boundaries, flags and links. */
  lemma FreeUndoesLinkedAlloc(r: Region, s: seq<Chunk>, i: nat, size: nat)
    requires WellFormed(r, s) && i < |s| && Fits(r, s, i, size)
    ensures i < |TakeLinked(r, s, i, size)| && Free(TakeLinked(r, s, i, size), i) == s
  {
    var t := TakeLinked(r, s, i, size);
    assert i > 0 ==> Separated(s, i - 1);
    assert Separated(s, i);
    assert i + 1 < |s| ==> BackLink(s, i + 1);
    if Splits(r, s, i, size) {
      RestAbsorbed(r, s, i, size);
    } else {
      assert SetUse(t, i, false) == s;
    }
  }

  lemma RestAbsorbed(r: Region, s: seq<Chunk>, i: nat, size: nat)
    requires i < |s| && !s[i].inUse && Splits(r, s, i, size)
    requires i > 0 ==> s[i - 1].inUse
    requires i + 1 < |s| ==> s[i + 1].prev == s[i].addr
    ensures i < |TakeLinked(r, s, i, size)| && Free(TakeLinked(r, s, i, size), i) == s
  {
    var t := SetUse(TakeLinked(r, s, i, size), i, false);
    assert i > 0 ==> t[i - 1] == s[i - 1];
    assert t[i] == s[i] && t[i + 1] == Rest(s, i, size);
    assert i + 2 < |t| ==> t[i + 2] == s[i + 1].(prev := t[i + 1].addr);
    RestGone(r, s, t, i, size);
  }

  lemma RestGone(r: Region, s: seq<Chunk>, t: seq<Chunk>, i: nat, size: nat)
    requires i < |s| && !s[i].inUse && (i + 1 < |s| ==> s[i + 1].prev == s[i].addr)
    requires Splits(r, s, i, size) && t == SetUse(TakeLinked(r, s, i, size), i, false)
    ensures i + 1 < |t| && Absorb(t, i + 1) == s
  {
    assert Remove(t, i + 1) == Relink(s, i + 1, Rest(s, i, size).addr);
  }

  /** In `t` the chunks from `lo` up to `hi` have become one free chunk; all else is as it was, but for the back
      link to it. */
  ghost predicate OneFree(r: Region, s: seq<Chunk>, t: seq<Chunk>, lo: nat, hi: nat) {
    && lo < hi <= |s| && |t| == |s| - (hi - lo - 1)
    && t[..lo] == s[..lo] && t[lo] == Chunk(s[lo].addr, false, s[lo].prev)
    && EndOf(r, t, lo) == EndOf(r, s, hi - 1)
    && (hi < |s| ==> t[lo + 1] == Chunk(s[hi].addr, s[hi].inUse, s[lo].addr) && t[lo + 2..] == s[hi + 1..])
  }

  /** What `dealloc` makes of a well-formed list: the chunk and its free neighbours become one free chunk. */
  lemma FreeGivesBack(r: Region, s: seq<Chunk>, i: nat)
    requires WellFormed(r, s) && i < |s| && s[i].inUse
    ensures OneFree(r, s, Free(s, i), if i > 0 && !s[i - 1].inUse then i - 1 else i,
                    if i + 1 < |s| && !s[i + 1].inUse then i + 2 else i + 1)
  {
    var t, v := SetUse(s, i, false), Free(s, i);
    var lo := if i > 0 && !s[i - 1].inUse then i - 1 else i;
    var hi := if i + 1 < |s| && !s[i + 1].inUse then i + 2 else i + 1;
    if i + 1 < |s| { assert BackLink(s, i + 1); }
    if lo < i {
      RemoveRoom(r, t, i, i - 1);
      assert Absorb(t, i)[..lo] == s[..lo];
    }
    assert v[..lo] == s[..lo];
    if hi < |s| {
      assert BackLink(s, hi);
      assert v[lo + 2..] == s[hi + 1..];
    }
  }

  /** A chunk that is freed takes no other live block with it. */
  lemma FreeKeepsBlock(r: Region, s: seq<Chunk>, i: nat, k: nat)
    requires i < |s| && k < |s| && k != i && s[k].inUse
    ensures Live(r, Free(s, i), BlockAt(r, s, k))
  {
    var t := SetUse(s, i, false);
    var b := BlockAt(r, s, k);
    assert LiveAt(r, t, k, b);
    if i > 0 && !s[i - 1].inUse {
      AbsorbKeepsBlock(r, t, i, k);
      var k' := if k < i then k else k - 1;
      MergeKeepsBlock(r, Absorb(t, i), i - 1, k', b);
    } else {
      MergeKeepsBlock(r, t, i, k, b);
    }
  }

  lemma AbsorbKeepsBlock(r: Region, s: seq<Chunk>, i: nat, k: nat)
    requires 0 < i < |s| && k < |s| && k != i && k != i - 1
    ensures var k' := if k < i then k else k - 1;
            k' < |Absorb(s, i)| && BlockAt(r, Absorb(s, i), k') == BlockAt(r, s, k)
            && Absorb(s, i)[k'].inUse == s[k].inUse
  {
    RemoveRoom(r, s, i, if k < i then k else k - 1);
  }

  lemma MergeKeepsBlock(r: Region, s: seq<Chunk>, i: nat, k: nat, b: Block)
    requires i < |s| && !s[i].inUse && LiveAt(r, s, k, b)
    ensures Live(r, MergeNext(s, i), b)
  {
    if i + 1 < |s| && !s[i + 1].inUse {
      AbsorbKeepsBlock(r, s, i + 1, k);
      assert LiveAt(r, MergeNext(s, i), if k < i + 1 then k else k - 1, b);
    }
  }

  // ----- dealloc as written -----

  /** The chunks after `j` up to `i` disappear into chunk `j`. */
  function Cut(s: seq<Chunk>, j: nat, i: nat): seq<Chunk>
    requires j < i < |s|
  {
    Relink(s[..j + 1] + s[i + 1..], j + 1, s[j].addr)
  }

  /** The index, below `n`, of the chunk whose header is at `at`. */
  function HeaderAt(s: seq<Chunk>, at: nat, n: nat): (k: Option<nat>)
    requires n <= |s|
    ensures k.Some? ==> k.value < n && s[k.value].addr == at
    ensures k.None? ==> forall j :: 0 <= j < n ==> s[j].addr != at
  {
    if n == 0 then None else if s[n - 1].addr == at then Some(n - 1) else HeaderAt(s, at, n - 1)
  }

  /** `dealloc` follows the back link, wherever before `i` it points. A header that is no longer in the list
      still reads free, as it was left when it was merged; that memory handed out since may hold something
      else there is not modelled. */
  function Release(s: seq<Chunk>, i: nat): seq<Chunk>
    requires i < |s|
  {
    var t, j := SetUse(s, i, false), HeaderAt(s, s[i].prev, i);
    if j.None? then (if s[i].prev == 0 then MergeNext(t, i) else Stray(t, i, s[i].prev))
    else if !s[j.value].inUse then MergeNext(Cut(t, j.value, i), j.value)
    else MergeNext(t, i)
  }

  /** Merging chunk `i` into a dead header at `dead`: the list itself sees new back links only. */
  function Stray(s: seq<Chunk>, i: nat, dead: nat): seq<Chunk>
    requires i < |s|
  {
    StrayNext(Relink(s, i + 1, dead), i, dead)
  }

  function StrayNext(s: seq<Chunk>, i: nat, dead: nat): seq<Chunk>
    requires i < |s|
  {
    if i + 1 < |s| && !s[i + 1].inUse then Relink(s, i + 2, dead) else s
  }

  lemma ReleaseIsFree(r: Region, s: seq<Chunk>, i: nat)
    requires WellFormed(r, s) && i < |s|
    ensures Release(s, i) == Free(s, i)
  {
    assert BackLink(s, i);
    if i > 0 {
      assert HeaderAt(s, s[i].prev, i) == Some(i - 1);
      var t := SetUse(s, i, false);
      assert t[..i] + t[i + 1..] == Remove(t, i);
    }
  }

  /** Freeing what was just allocated restores the list, although the split leaves the back link of the
      next chunk stale: the merge with the rest sets it again. */
  lemma FreeUndoesAlloc(r: Region, s: seq<Chunk>, i: nat, size: nat)
    requires WellFormed(r, s) && i < |s| && Fits(r, s, i, size)
    ensures i < |Take(r, s, i, size)| && Release(Take(r, s, i, size), i) == s
  {
    var t := Take(r, s, i, size);
    assert Separated(s, i) && BackLink(s, i) && (i > 0 ==> Separated(s, i - 1)) && (i + 1 < |s| ==> BackLink(s, i + 1));
    assert t[..i] == s[..i];
    if i > 0 {
      assert HeaderAt(t, t[i].prev, i) == Some(i - 1);
    }
    if Splits(r, s, i, size) {
      var u := SetUse(t, i, false);
      assert Remove(u, i + 1) == s;
      assert Absorb(u, i + 1) == s;
    } else {
      assert SetUse(t, i, false) == s;
    }
  }

  lemma CutRoom(r: Region, s: seq<Chunk>, j: nat, i: nat, k: nat)
    requires j < i < |s| && k < |s| - (i - j)
    ensures |Cut(s, j, i)| == |s| - (i - j)
    ensures Cut(s, j, i)[k] == if k <= j then s[k]
                               else if k == j + 1 then s[i + 1].(prev := s[j].addr) else s[k + (i - j)]
    ensures Room(r, Cut(s, j, i), k) == if k < j then Room(r, s, k)
                                        else if k == j then EndOf(r, s, i) - (s[j].addr + HEADER)
                                        else Room(r, s, k + (i - j))
  {
  }

  /** The chunk that the back link of `i` names, if any, is in use or has only free chunks between it and `i`. */
  ghost predicate HarmlessLink(s: seq<Chunk>, i: nat)
    requires i < |s|
  {
    var j := HeaderAt(s, s[i].prev, i);
    j.Some? ==> s[j.value].inUse || forall m :: j.value < m < i ==> !s[m].inUse
  }

  /** Releasing chunk `i` leaves the live blocks of all other chunks alone exactly when its link is harmless. */
  lemma ReleaseKeepsBlocks(r: Region, s: seq<Chunk>, i: nat)
    requires Tiles(r, s) && i < |s|
    ensures (forall k :: 0 <= k < |s| && k != i && s[k].inUse ==> Live(r, Release(s, i), BlockAt(r, s, k)))
            <==> HarmlessLink(s, i)
  {
    var j := HeaderAt(s, s[i].prev, i);
    if HarmlessLink(s, i) {
      forall k | 0 <= k < |s| && k != i && s[k].inUse ensures Live(r, Release(s, i), BlockAt(r, s, k)) {
        if j.Some? { ReleaseKeepsBlock(r, s, i, j.value, k); } else { UnlinkedKeepsBlock(r, s, i, k); }
      }
    } else {
      var m :| j.value < m < i && s[m].inUse;
      ReleaseDrops(r, s, i, j.value, m);
    }
  }

  lemma UnlinkedKeepsBlock(r: Region, s: seq<Chunk>, i: nat, k: nat)
    requires i < |s| && HeaderAt(s, s[i].prev, i).None? && k < |s| && k != i && s[k].inUse
    ensures Live(r, Release(s, i), BlockAt(r, s, k))
  {
    var t, b := SetUse(s, i, false), BlockAt(r, s, k);
    ClearedKeepsBlock(r, s, i, k);
    if s[i].prev == 0 {
      MergeKeepsBlock(r, t, i, k, b);
    } else {
      StrayKeepsBlock(r, t, i, s[i].prev, k, b);
    }
  }

  lemma StrayKeepsBlock(r: Region, s: seq<Chunk>, i: nat, dead: nat, k: nat, b: Block)
    requires i < |s| && LiveAt(r, s, k, b)
    ensures Live(r, Stray(s, i, dead), b)
  {
    assert LiveAt(r, Stray(s, i, dead), k, b);
  }

  lemma ReleaseKeepsBlock(r: Region, s: seq<Chunk>, i: nat, j: nat, k: nat)
    requires i < |s| && HeaderAt(s, s[i].prev, i) == Some(j) && (s[j].inUse || k < j || i < k)
    requires k < |s| && k != i && s[k].inUse
    ensures Live(r, Release(s, i), BlockAt(r, s, k))
  {
    var t, b := SetUse(s, i, false), BlockAt(r, s, k);
    ClearedKeepsBlock(r, s, i, k);
    if !s[j].inUse {
      CutKeepsBlock(r, t, j, i, k, b);
    } else {
      MergeKeepsBlock(r, t, i, k, b);
    }
  }

  lemma ClearedKeepsBlock(r: Region, s: seq<Chunk>, i: nat, k: nat)
    requires i < |s| && k < |s| && k != i && s[k].inUse
    ensures LiveAt(r, SetUse(s, i, false), k, BlockAt(r, s, k))
  {
  }

  lemma CutKeepsBlock(r: Region, s: seq<Chunk>, j: nat, i: nat, k: nat, b: Block)
    requires j < i < |s| && !s[j].inUse && (k < j || i < k) && LiveAt(r, s, k, b)
    ensures Live(r, MergeNext(Cut(s, j, i), j), b)
  {
    var k' := if k < j then k else k - (i - j);
    CutRoom(r, s, j, i, k');
    CutRoom(r, s, j, i, j);
    assert LiveAt(r, Cut(s, j, i), k', b);
    MergeKeepsBlock(r, Cut(s, j, i), j, k', b);
  }

  lemma ReleaseDrops(r: Region, s: seq<Chunk>, i: nat, j: nat, m: nat)
    requires Tiles(r, s) && i < |s| && HeaderAt(s, s[i].prev, i) == Some(j) && !s[j].inUse && j < m < i
    ensures !Live(r, Release(s, i), BlockAt(r, s, m))
  {
    var t := SetUse(s, i, false);
    var v := MergeNext(Cut(t, j, i), j);
    forall n: nat | n < |v| ensures v[n].addr != s[m].addr {
      DropsHeader(r, s, t, i, j, m, n);
    }
  }

  lemma DropsHeader(r: Region, s: seq<Chunk>, t: seq<Chunk>, i: nat, j: nat, m: nat, n: nat)
    requires Tiles(r, s) && j < m < i < |s| && t == SetUse(s, i, false) && n < |MergeNext(Cut(t, j, i), j)|
    ensures MergeNext(Cut(t, j, i), j)[n].addr != s[m].addr
  {
    var u := Cut(t, j, i);
    var v := MergeNext(u, j);
    var n' := if v == u || n <= j then n else n + 1;
    if v != u { RemoveRoom(r, u, j + 1, n); }
    assert v[n].addr == u[n'].addr;
    CutRoom(r, t, j, i, n');
    var o := if n' <= j then n' else n' + (i - j);
    assert u[n'].addr == s[o].addr && o != m;
    if o < m { Increasing(r, s, o, m); InsideRegion(r, s, o); }
    else { Increasing(r, s, m, o); InsideRegion(r, s, m); }
  }

  // ----- runs -----

  /** `alloc` of `size` bytes, or `dealloc` of the live block at `at`. */
  datatype Op = Alloc(size: nat) | Dealloc(at: nat)

  /** The index of the chunk whose block is at `at`. */
  function IndexOf(s: seq<Chunk>, at: nat, i: nat): Option<nat>
    requires i <= |s|
    decreases |s| - i
  {
    if i == |s| then None
    else if s[i].inUse && s[i].addr + HEADER == at then Some(i)
    else IndexOf(s, at, i + 1)
  }

  lemma {:induction false} IndexOfLive(s: seq<Chunk>, at: nat, i: nat)
    requires i <= |s|
    ensures IndexOf(s, at, i).Some? ==> i <= IndexOf(s, at, i).value < |s| && s[IndexOf(s, at, i).value].inUse
                                        && s[IndexOf(s, at, i).value].addr + HEADER == at
    decreases |s| - i
  {
    if i < |s| && !(s[i].inUse && s[i].addr + HEADER == at) { IndexOfLive(s, at, i + 1); }
  }

  /** One operation; `linked` says whether a split sets the back link it leaves out in the source. */
  function Perform(r: Region, s: seq<Chunk>, op: Op, linked: bool): seq<Chunk> {
    match op
    case Alloc(size) =>
      (match FirstFit(r, s, CeilAlign(size), 0)
       case None => s
       case Some(i) => if linked then TakeLinked(r, s, i, CeilAlign(size)) else Take(r, s, i, CeilAlign(size)))
    case Dealloc(at) =>
      IndexOfLive(s, at, 0);
      (match IndexOf(s, at, 0)
       case None => s
       case Some(i) => Release(s, i))
  }

  /** An allocation that splits only a last chunk, or does not split. */
  predicate SplitsAtEnd(r: Region, s: seq<Chunk>, op: Op) {
    op.Alloc? ==>
      match FirstFit(r, s, CeilAlign(op.size), 0)
      case None => true
      case Some(i) => Splits(r, s, i, CeilAlign(op.size)) ==> i + 1 == |s|
  }

  /** One operation keeps the list well formed: always with the back link set, and as written exactly
      when it splits at the end only. */
  lemma PerformWellFormed(r: Region, s: seq<Chunk>, op: Op)
    requires WellFormed(r, s)
    ensures WellFormed(r, Perform(r, s, op, true))
    ensures WellFormed(r, Perform(r, s, op, false)) <==> SplitsAtEnd(r, s, op)
  {
    if op.Alloc? {
      var size := CeilAlign(op.size);
      var fit := FirstFit(r, s, size, 0);
      if fit.Some? {
        TakeWellFormed(r, s, fit.value, size);
        AllocBackLinks(r, s, fit.value, size);
        if SplitsAtEnd(r, s, op) { LiteralIsLinked(r, s, fit.value, size); }
      }
    } else {
      IndexOfLive(s, op.at, 0);
      var at := IndexOf(s, op.at, 0);
      if at.Some? {
        FreeWellFormed(r, s, at.value);
        ReleaseIsFree(r, s, at.value);
      }
    }
  }

  lemma LiteralIsLinked(r: Region, s: seq<Chunk>, i: nat, size: nat)
    requires i < |s| && (Splits(r, s, i, size) ==> i + 1 == |s|)
    ensures Take(r, s, i, size) == TakeLinked(r, s, i, size)
  {
    if Splits(r, s, i, size) { InsertRoom(r, SetUse(s, i, true), i, Rest(s, i, size), 0); }
  }

  ghost predicate GoodRun(r: Region, s: seq<Chunk>, ops: seq<Op>, linked: bool)
    decreases |ops|
  {
    ops != [] ==> ((linked || SplitsAtEnd(r, s, ops[0])) && GoodRun(r, Perform(r, s, ops[0], linked), ops[1..], linked))
  }

  function PerformAll(r: Region, s: seq<Chunk>, ops: seq<Op>, linked: bool): seq<Chunk>
    decreases |ops|
  {
    if ops == [] then s else PerformAll(r, Perform(r, s, ops[0], linked), ops[1..], linked)
  }

  /** Over any run of the repaired allocator, and over any run of the literal one that splits at the end
      only, the list stays well formed. */
  lemma {:induction false} RunWellFormed(r: Region, s: seq<Chunk>, ops: seq<Op>, linked: bool)
    requires WellFormed(r, s) && GoodRun(r, s, ops, linked)
    ensures WellFormed(r, PerformAll(r, s, ops, linked))
    decreases |ops|
  {
    if ops != [] {
      PerformWellFormed(r, s, ops[0]);
      RunWellFormed(r, Perform(r, s, ops[0], linked), ops[1..], linked);
    }
  }

  lemma FitAt(r: Region, s: seq<Chunk>, size: nat, i: nat)
    requires i < |s| && Fits(r, s, i, size) && size % 8 == 0
    requires forall j :: 0 <= j < i ==> !Fits(r, s, j, size)
    ensures CeilAlign(size) == size && FirstFit(r, s, size, 0) == Some(i)
  {
  }

  /** Over such a run a live block that is not freed stays where it is. */
  lemma {:induction false} RunKeepsBlock(r: Region, s: seq<Chunk>, ops: seq<Op>, linked: bool, b: Block)
    requires WellFormed(r, s) && GoodRun(r, s, ops, linked)
    requires Live(r, s, b) && Dealloc(b.at) !in ops
    ensures Live(r, PerformAll(r, s, ops, linked), b)
    decreases |ops|
  {
    if ops != [] {
      PerformWellFormed(r, s, ops[0]);
      PerformKeepsBlock(r, s, ops[0], linked, b);
      RunKeepsBlock(r, Perform(r, s, ops[0], linked), ops[1..], linked, b);
    }
  }

  lemma PerformKeepsBlock(r: Region, s: seq<Chunk>, op: Op, linked: bool, b: Block)
    requires WellFormed(r, s) && Live(r, s, b) && op != Dealloc(b.at)
    ensures Live(r, Perform(r, s, op, linked), b)
  {
    if op.Alloc? {
      var fit := FirstFit(r, s, CeilAlign(op.size), 0);
      if fit.Some? {
        TakeAddsOneBlock(r, s, fit.value, CeilAlign(op.size), b);
        LinkedLive(r, s, fit.value, CeilAlign(op.size), b);
      }
    } else {
      IndexOfLive(s, op.at, 0);
      var at := IndexOf(s, op.at, 0);
      if at.Some? {
        var k: nat :| LiveAt(r, s, k, b);
        ReleaseIsFree(r, s, at.value);
        FreeKeepsBlock(r, s, at.value, k);
      }
    }
  }

  lemma LinkedLive(r: Region, s: seq<Chunk>, i: nat, size: nat, b: Block)
    requires i < |s| && Live(r, Take(r, s, i, size), b)
    ensures Live(r, TakeLinked(r, s, i, size), b)
  {
    var k: nat :| LiveAt(r, Take(r, s, i, size), k, b);
    assert LiveAt(r, TakeLinked(r, s, i, size), k, b);
  }

  lemma RunSplit(r: Region, s: seq<Chunk>, op: Op, ops: seq<Op>, linked: bool)
    ensures PerformAll(r, s, [op] + ops, linked) == PerformAll(r, Perform(r, s, op, linked), ops, linked)
  {
    assert ([op] + ops)[1..] == ops;
  }

  /** A run of the literal allocator that loses a block. The block of 968 bytes is neither freed nor
      live at the end: the last `dealloc` followed the back link the fourth step left stale. */
  lemma StaleLinkLosesBlock(r: Region)
    requires r.Valid()
    ensures var x := r.start;
            var before := [Alloc(1000), Alloc(8), Dealloc(x + 24), Alloc(8), Alloc(968), Dealloc(x + 24)];
            var s := PerformAll(r, InitList(r), before, false);
            && Live(r, s, Block(x + 56, 968))
            && !Live(r, Perform(r, s, Dealloc(x + 1048), false), Block(x + 56, 968))
  {
    var x := r.start;
    var s3 := [Chunk(x, false, 0), Chunk(x + 1024, true, x), Chunk(x + 1056, false, x + 1024)];
    var s4 := [Chunk(x, true, 0), Chunk(x + 32, false, x), Chunk(x + 1024, true, x), s3[2]];
    var s6 := [Chunk(x, false, 0), Chunk(x + 32, true, x), Chunk(x + 1024, true, x), s3[2]];
    StaleLinkStart(r, s3);
    StaleLinkMiddle(r, s3, s4, s6);
    var end := [Alloc(8), Alloc(968), Dealloc(x + 24)];
    assert [Alloc(1000), Alloc(8), Dealloc(x + 24)] + end
        == [Alloc(1000), Alloc(8), Dealloc(x + 24), Alloc(8), Alloc(968), Dealloc(x + 24)];
    StaleLinkEnd(r, s6);
  }

  lemma StaleLinkStart(r: Region, s3: seq<Chunk>)
    requires r.Valid()
    requires var x := r.start; s3 == [Chunk(x, false, 0), Chunk(x + 1024, true, x), Chunk(x + 1056, false, x + 1024)]
    ensures forall ops :: PerformAll(r, InitList(r), [Alloc(1000), Alloc(8), Dealloc(r.start + 24)] + ops, false)
                          == PerformAll(r, s3, ops, false)
  {
    var x := r.start;
    var s0 := InitList(r);
    var s1 := [Chunk(x, true, 0), Chunk(x + 1024, false, x)];
    var s2 := [Chunk(x, true, 0), Chunk(x + 1024, true, x), Chunk(x + 1056, false, x + 1024)];
    assert Perform(r, s0, Alloc(1000), false) == s1 by { FitAt(r, s0, 1000, 0); }
    assert Perform(r, s1, Alloc(8), false) == s2 by { FitAt(r, s1, 8, 1); }
    assert Perform(r, s2, Dealloc(x + 24), false) == s3;
    forall ops
      ensures PerformAll(r, s0, [Alloc(1000), Alloc(8), Dealloc(x + 24)] + ops, false) == PerformAll(r, s3, ops, false)
    {
      RunThree(r, s0, Alloc(1000), Alloc(8), Dealloc(x + 24), ops, false);
    }
  }

  lemma StaleLinkMiddle(r: Region, s3: seq<Chunk>, s4: seq<Chunk>, s6: seq<Chunk>)
    requires r.Valid()
    requires var x := r.start; s3 == [Chunk(x, false, 0), Chunk(x + 1024, true, x), Chunk(x + 1056, false, x + 1024)]
    requires var x := r.start; s4 == [Chunk(x, true, 0), Chunk(x + 32, false, x), Chunk(x + 1024, true, x), s3[2]]
    requires var x := r.start; s6 == [Chunk(x, false, 0), Chunk(x + 32, true, x), Chunk(x + 1024, true, x), s3[2]]
    ensures PerformAll(r, s3, [Alloc(8), Alloc(968), Dealloc(r.start + 24)], false) == s6
  {
    var s5 := s4[1 := s4[1].(inUse := true)];
    assert Perform(r, s3, Alloc(8), false) == s4 by { FitAt(r, s3, 8, 0); }
    assert Perform(r, s4, Alloc(968), false) == s5 by { FitAt(r, s4, 968, 1); }
    assert Perform(r, s5, Dealloc(r.start + 24), false) == s6;
    RunThree(r, s3, Alloc(8), Alloc(968), Dealloc(r.start + 24), [], false);
    assert [Alloc(8), Alloc(968), Dealloc(r.start + 24)] + [] == [Alloc(8), Alloc(968), Dealloc(r.start + 24)];
  }

  lemma StaleLinkEnd(r: Region, s6: seq<Chunk>)
    requires r.Valid()
    requires var x := r.start;
             s6 == [Chunk(x, false, 0), Chunk(x + 32, true, x), Chunk(x + 1024, true, x),
                     Chunk(x + 1056, false, x + 1024)]
    ensures Live(r, s6, Block(r.start + 56, 968))
    ensures !Live(r, Perform(r, s6, Dealloc(r.start + 1048), false), Block(r.start + 56, 968))
  {
    var x := r.start;
    assert LiveAt(r, s6, 1, Block(x + 56, 968));
    assert IndexOf(s6, x + 1048, 2) == Some(2);
    assert IndexOf(s6, x + 1048, 1) == Some(2);
    assert HeaderAt(s6, x, 1) == Some(0);
    assert Perform(r, s6, Dealloc(x + 1048), false) == [Chunk(x, false, 0)];
  }

  lemma RunThree(r: Region, s: seq<Chunk>, a: Op, b: Op, c: Op, ops: seq<Op>, linked: bool)
    ensures PerformAll(r, s, [a, b, c] + ops, linked)
         == PerformAll(r, Perform(r, Perform(r, Perform(r, s, a, linked), b, linked), c, linked), ops, linked)
  {
    var s1 := Perform(r, s, a, linked);
    var s2 := Perform(r, s1, b, linked);
    assert [a, b, c] + ops == [a] + ([b] + ([c] + ops));
    RunSplit(r, s, a, [b] + ([c] + ops), linked);
    RunSplit(r, s1, b, [c] + ops, linked);
    RunSplit(r, s2, c, ops, linked);
  }
}
