/**
 The allocator of src/lib/util/lin_allocator.cpp on the headers in the region. The ghost field `chunks` is
 the list that the forward links spell out from the root.
 */
module Heap {
  import opened Prelude
  import opened Allocator

  /** A list node as it lies in memory. */
  datatype Header = Header(prev: nat, next: nat, valid: bool, inUse: bool)

  /** The headers of `s` are in memory, linked in the order of the list; back links name earlier headers, in
      the list or not. */
  ghost predicate Represents(r: Region, hdr: map<nat, Header>, s: seq<Chunk>) {
    forall i :: 0 <= i < |s| ==> InMemory(r, hdr, s, i)
  }

  ghost predicate InMemory(r: Region, hdr: map<nat, Header>, s: seq<Chunk>, i: nat)
    requires i < |s|
  {
    && s[i].addr in hdr
    && hdr[s[i].addr] == Header(s[i].prev, EndOf(r, s, i), true, s[i].inUse)
    && (s[i].prev == 0 || (s[i].prev in hdr && s[i].prev < s[i].addr))
  }

  lemma Distinct(r: Region, s: seq<Chunk>, i: nat, j: nat)
    requires Tiles(r, s) && i < |s| && j < |s| && i != j
    ensures s[i].addr != s[j].addr
  {
    InsideRegion(r, s, i);
    InsideRegion(r, s, j);
    if i < j { Increasing(r, s, i, j); } else { Increasing(r, s, j, i); }
  }

  lemma UseInMemory(r: Region, hdr: map<nat, Header>, s: seq<Chunk>, i: nat, use: bool)
    requires Tiles(r, s) && Represents(r, hdr, s) && i < |s|
    ensures InMemory(r, hdr, s, i)
    ensures var h := hdr[s[i].addr := hdr[s[i].addr].(inUse := use)];
            Tiles(r, SetUse(s, i, use)) && Represents(r, h, SetUse(s, i, use))
  {
    var t := SetUse(s, i, use);
    assert InMemory(r, hdr, s, i);
    SameTiles(r, s, t);
    var h := hdr[s[i].addr := hdr[s[i].addr].(inUse := use)];
    forall k | 0 <= k < |t| ensures InMemory(r, h, t, k) {
      assert InMemory(r, hdr, s, k);
      if k != i { Distinct(r, s, i, k); }
    }
  }

  /** Splitting chunk `i`: the new header, and the forward link to it. */
  lemma SplitInMemory(r: Region, hdr: map<nat, Header>, s: seq<Chunk>, i: nat, c: Chunk)
    requires Tiles(r, s) && Represents(r, hdr, s) && i < |s| && InMemory(r, hdr, s, i) && c.addr % 8 == 0
    requires s[i].addr + HEADER <= c.addr && c.addr + HEADER <= EndOf(r, s, i) && c.prev == s[i].addr
    ensures var h := hdr[c.addr := Header(c.prev, EndOf(r, s, i), true, c.inUse)];
            s[i].addr in h && Tiles(r, Insert(s, i, c))
            && Represents(r, h[s[i].addr := h[s[i].addr].(next := c.addr)], Insert(s, i, c))
  {
    var t := Insert(s, i, c);
    InsertTiles(r, s, i, c);
    InsertRoom(r, s, i, c, i);
    InsertRoom(r, s, i, c, i + 1);
    var h := hdr[c.addr := Header(c.prev, EndOf(r, s, i), true, c.inUse)];
    var h' := h[s[i].addr := h[s[i].addr].(next := c.addr)];
    forall k | 0 <= k < |t| ensures InMemory(r, h', t, k) {
      InsertRoom(r, s, i, c, k);
      if k != i && k != i + 1 {
        assert InMemory(r, hdr, s, if k <= i then k else k - 1);
        Distinct(r, t, k, i);
        Distinct(r, t, k, i + 1);
      } else {
        assert k == i + 1 ==> t[k].addr != s[i].addr;
      }
    }
  }

  /** Unlinking the chunks after `j` up to `i`: the forward link of `j`, and the back link of the next. */
  lemma CutInMemory(r: Region, hdr: map<nat, Header>, s: seq<Chunk>, j: nat, i: nat)
    requires Tiles(r, s) && Represents(r, hdr, s) && j < i < |s|
    requires InMemory(r, hdr, s, j) && InMemory(r, hdr, s, i)
    ensures var next := hdr[s[i].addr].next;
            var h := hdr[s[j].addr := hdr[s[j].addr].(next := next)];
            && next == EndOf(r, s, i) && (next == r.end <==> i + 1 == |s|) && (next != r.end ==> next in h)
            && Represents(r, if next == r.end then h else h[next := h[next].(prev := s[j].addr)], Cut(s, j, i))
            && Tiles(r, Cut(s, j, i)) && j < |Cut(s, j, i)| && Cut(s, j, i)[j] == s[j]
  {
    var next := hdr[s[i].addr].next;
    var h := hdr[s[j].addr := hdr[s[j].addr].(next := next)];
    if i + 1 < |s| {
      InsideRegion(r, s, i + 1);
      InsideRegion(r, s, j);
      Increasing(r, s, j, i + 1);
      assert InMemory(r, hdr, s, i + 1);
    }
    var h' := if next == r.end then h else h[next := h[next].(prev := s[j].addr)];
    var t := Cut(s, j, i);
    CutTiles(r, s, j, i);
    CutRoom(r, s, j, i, j);
    forall k | 0 <= k < |t| ensures InMemory(r, h', t, k) {
      CutRoom(r, s, j, i, k);
      var k' := if k <= j then k else k + (i - j);
      assert InMemory(r, hdr, s, k');
      if k != j { Distinct(r, s, k', j); }
      if i + 1 < |s| && k' != i + 1 { Distinct(r, s, k', i + 1); }
    }
  }

  lemma CutTiles(r: Region, s: seq<Chunk>, j: nat, i: nat)
    requires Tiles(r, s) && j < i < |s|
    ensures Tiles(r, Cut(s, j, i))
  {
    var t := Cut(s, j, i);
    Increasing(r, s, j, i);
    InsideRegion(r, s, i);
    assert TileAt(r, s, j);
    forall k | 0 <= k < |t| ensures TileAt(r, t, k) {
      CutRoom(r, s, j, i, k);
      assert TileAt(r, s, if k <= j then k else k + (i - j));
    }
    CutRoom(r, s, j, i, 0);
  }

  /** `at` is the address of no header of the list. */
  predicate Unlisted(s: seq<Chunk>, at: nat) {
    forall k :: 0 <= k < |s| ==> s[k].addr != at
  }

  lemma EarlierUnlisted(r: Region, s: seq<Chunk>, i: nat)
    requires Tiles(r, s) && i < |s| && s[i].prev < s[i].addr && HeaderAt(s, s[i].prev, i).None?
    ensures Unlisted(s, s[i].prev)
  {
    forall k | 0 <= k < |s| ensures s[k].addr != s[i].prev {
      if k > i {
        InsideRegion(r, s, i);
        Increasing(r, s, i, k);
      }
    }
  }

  /** Writing a header that is not in the list, and the back link of a later chunk `k` to it. */
  lemma StrayInMemory(r: Region, hdr: map<nat, Header>, s: seq<Chunk>, i: nat, k: nat, dead: nat, next: nat)
    requires Tiles(r, s) && Represents(r, hdr, s) && i < |s| && i < k
    requires dead in hdr && Unlisted(s, dead) && 0 < dead < s[i].addr
    ensures var h := hdr[dead := hdr[dead].(next := next)];
            && (k < |s| ==> s[k].addr in h) && Tiles(r, Relink(s, k, dead)) && Unlisted(Relink(s, k, dead), dead)
            && Represents(r, if k < |s| then h[s[k].addr := h[s[k].addr].(prev := dead)] else h, Relink(s, k, dead))
  {
    var h := hdr[dead := hdr[dead].(next := next)];
    var t := Relink(s, k, dead);
    SameTiles(r, s, t);
    if k < |s| {
      assert InMemory(r, hdr, s, k);
      InsideRegion(r, s, i);
      Increasing(r, s, i, k);
    }
    var h' := if k < |s| then h[s[k].addr := h[s[k].addr].(prev := dead)] else h;
    forall m | 0 <= m < |t| ensures InMemory(r, h', t, m) {
      assert InMemory(r, hdr, s, m);
      if k < |s| && m != k { Distinct(r, s, m, k); }
    }
  }

  class LinAllocator {
    const region: Region
    var hdr: map<nat, Header>
    ghost var chunks: seq<Chunk>

    ghost predicate Valid()
      reads this
    {
      && region.Valid() && region.start in hdr
      && if hdr[region.start].valid then Tiles(region, chunks) && Represents(region, hdr, chunks) else chunks == []
    }

    /** The list `alloc` works on: the first call writes the root. */
    ghost function Started(): seq<Chunk>
      reads this
    {
      if chunks == [] then InitList(region) else chunks
    }

    constructor (r: Region)
      requires r.Valid()
      ensures Valid() && region == r && chunks == []
    {
      region := r;
      hdr := map[r.start := Header(0, 0, false, false)];
      chunks := [];
    }

    function ChunkSize(node: nat): int
      requires node in hdr
      reads this
    {
      hdr[node].next - (node + HEADER)
    }

    method Alloc(request: nat) returns (p: nat)
      requires Valid()
      modifies this
      ensures Valid()
      ensures match FirstFit(region, old(Started()), CeilAlign(request), 0)
              case None => p == 0 && chunks == old(Started())
              case Some(i) => p == old(Started())[i].addr + HEADER
                              && chunks == Take(region, old(Started()), i, CeilAlign(request))
      ensures p == 0 ==> forall j :: 0 <= j < |chunks| ==>
                chunks[j].inUse || EndOf(region, chunks, j) - chunks[j].addr < CeilAlign(request) + 24
      ensures p != 0 ==> exists i: nat :: FirstLargeEnough(region, old(Started()), i, CeilAlign(request))
                                          && HandedOut(region, old(Started()), chunks, i, CeilAlign(request))
                                          && p == old(Started())[i].addr + 24
    {
      AllocHandsOut(region, Started(), CeilAlign(request));
      var size := CeilAlign(request);
      var root := region.start;
      if !hdr[root].valid {
        hdr := hdr[root := Header(0, region.end, true, false)];
        chunks := InitList(region);
      }
      var curr := root;
      ghost var i := 0;
      while curr != region.end
        invariant Valid() && hdr[root].valid && chunks == old(Started())
        invariant i <= |chunks| && curr == (if i < |chunks| then chunks[i].addr else region.end)
        invariant curr == region.end ==> i == |chunks|
        invariant FirstFit(region, chunks, size, 0) == FirstFit(region, chunks, size, i)
        decreases |chunks| - i
      {
        assert InMemory(region, hdr, chunks, i);
        if hdr[curr].inUse || ChunkSize(curr) < size {
          curr := hdr[curr].next;
          i := i + 1;
          if i < |chunks| { InsideRegion(region, chunks, i); }
          continue;
        }
        TakeChunk(curr, size, i);
        p := curr + HEADER;
        return;
      }
      p := 0;
    }

    /** The body of the search loop once chunk `i` fits. */
    method TakeChunk(curr: nat, size: nat, ghost i: nat)
      requires Valid() && i < |chunks| && curr == chunks[i].addr && curr in hdr
      requires Fits(region, chunks, i, size) && size % 8 == 0
      modifies this
      ensures Valid() && chunks == Take(region, old(chunks), i, size)
    {
      assert TileAt(region, chunks, i) && InMemory(region, hdr, chunks, i);
      ghost var s := chunks;
      if ChunkSize(curr) - size > MIN_CHUNK {
        ghost var c := Rest(chunks, i, size);
        SplitInMemory(region, hdr, chunks, i, c);
        var node := curr + HEADER + size;
        hdr := hdr[node := Header(curr, hdr[curr].next, true, false)];
        hdr := hdr[curr := hdr[curr].(next := node)];
        chunks := Insert(chunks, i, c);
      }
      UseInMemory(region, hdr, chunks, i, true);
      hdr := hdr[curr := hdr[curr].(inUse := true)];
      chunks := SetUse(chunks, i, true);
      assert chunks == Take(region, s, i, size);
      assert InMemory(region, hdr, chunks, 0);
    }

    /** The back link of chunk `at` names a header that is not in the list and does not read free. */
    ghost predicate StrayInUse(at: nat)
      requires Valid() && at < |chunks|
      reads this
    {
      && HeaderAt(chunks, chunks[at].prev, at).None?
      && chunks[at].prev in hdr && chunks[at].prev != 0 && hdr[chunks[at].prev].inUse
    }

    /** `at` is the index of the freed chunk in the list; its back link may name any earlier header. */
    method Dealloc(p: nat, ghost at: nat)
      requires Valid() && at < |chunks| && p == chunks[at].addr + HEADER
      modifies this
      ensures Valid()
      ensures chunks == if old(StrayInUse(at)) then MergeNext(SetUse(old(chunks), at, false), at)
                        else Release(old(chunks), at)
    {
      var node := p - HEADER;
      ghost var s := chunks;
      ghost var j := HeaderAt(s, s[at].prev, at);
      assert InMemory(region, hdr, chunks, at);
      UseInMemory(region, hdr, chunks, at, false);
      hdr := hdr[node := hdr[node].(inUse := false)];
      chunks := SetUse(chunks, at, false);
      assert InMemory(region, hdr, chunks, at);
      InsideRegion(region, chunks, at);
      var prev := hdr[node].prev;
      if j.Some? { PrevInMemory(region, hdr, s, chunks, at); }
      if prev != 0 && !hdr[prev].inUse {
        if j.None? { EarlierUnlisted(region, chunks, at); }
        UnlinkNode(node, prev, at, j);
        MergeWithNext(prev, if j.Some? then j.value else at, j.None?);
      } else {
        MergeWithNext(node, at, false);
      }
    }

    /** The unlinking of `node`, which is chunk `at`: `prev` is chunk `j`, or a header outside the list. */
    method UnlinkNode(node: nat, prev: nat, ghost at: nat, ghost j: Option<nat>)
      requires Valid() && at < |chunks| && node == chunks[at].addr && node in hdr && prev in hdr && 0 < prev < node
      requires if j.Some? then j.value < at && prev == chunks[j.value].addr else Unlisted(chunks, prev)
      modifies this
      ensures Valid() && prev in hdr
      ensures j.Some? ==> chunks == Cut(old(chunks), j.value, at) && j.value < |chunks| && chunks[j.value].addr == prev
      ensures j.None? ==> chunks == Relink(old(chunks), at + 1, prev) && Unlisted(chunks, prev)
                          && hdr[prev].next == EndOf(region, chunks, at)
    {
      assert InMemory(region, hdr, chunks, at);
      if at + 1 < |chunks| {
        InsideRegion(region, chunks, at + 1);
        assert InMemory(region, hdr, chunks, at + 1);
      }
      var next := hdr[node].next;
      if j.Some? {
        assert InMemory(region, hdr, chunks, j.value);
        CutInMemory(region, hdr, chunks, j.value, at);
      } else {
        StrayInMemory(region, hdr, chunks, at, at + 1, prev, next);
      }
      hdr := hdr[prev := hdr[prev].(next := next)];
      if next != region.end {
        hdr := hdr[next := hdr[next].(prev := prev)];
      }
      chunks := if j.Some? then Cut(chunks, j.value, at) else Relink(chunks, at + 1, prev);
      assert InMemory(region, hdr, chunks, 0);
    }

    /** `node` is chunk `here`, or a dead header into which that chunk was merged. */
    method MergeWithNext(node: nat, ghost here: nat, ghost dead: bool)
      requires Valid() && here < |chunks| && node in hdr
      requires if dead then Unlisted(chunks, node) && 0 < node < chunks[here].addr
                            && hdr[node].next == EndOf(region, chunks, here)
               else node == chunks[here].addr
      modifies this
      ensures Valid()
      ensures chunks == if dead then StrayNext(old(chunks), here, node) else MergeNext(old(chunks), here)
    {
      assert InMemory(region, hdr, chunks, here);
      InsideRegion(region, chunks, here);
      if here + 1 < |chunks| {
        InsideRegion(region, chunks, here + 1);
        assert InMemory(region, hdr, chunks, here + 1);
      }
      if here + 2 < |chunks| {
        InsideRegion(region, chunks, here + 2);
        assert InMemory(region, hdr, chunks, here + 2);
      }
      var next := hdr[node].next;
      if next != region.end && !hdr[next].inUse {
        var after := hdr[next].next;
        if dead {
          StrayInMemory(region, hdr, chunks, here, here + 2, node, after);
        } else {
          CutInMemory(region, hdr, chunks, here, here + 1);
          assert chunks[..here + 1] + chunks[here + 2..] == Remove(chunks, here + 1);
        }
        hdr := hdr[node := hdr[node].(next := after)];
        if after != region.end {
          hdr := hdr[after := hdr[after].(prev := node)];
        }
        chunks := if dead then Relink(chunks, here + 2, node) else Cut(chunks, here, here + 1);
        assert InMemory(region, hdr, chunks, 0);
      }
    }

    /** The space behind `p`, for the address of a chunk of the list. */
    method Capacity(p: nat, ghost at: nat) returns (n: int)
      requires Valid() && at < |chunks| && p == chunks[at].addr + HEADER
      ensures n == if chunks[at].inUse then BlockAt(region, chunks, at).capacity else 0
    {
      var node := p - HEADER;
      assert InMemory(region, hdr, chunks, at);
      assert TileAt(region, chunks, at);
      EndAligned(region, chunks, at);
      n := if hdr[node].valid && hdr[node].inUse then ChunkSize(node) / 8 * 8 else 0;
    }
  }

  lemma EndAligned(r: Region, s: seq<Chunk>, i: nat)
    requires Tiles(r, s) && i < |s|
    ensures Room(r, s, i) % 8 == 0
  {
    assert TileAt(r, s, i);
    if i + 1 < |s| { assert TileAt(r, s, i + 1); }
  }

  lemma PrevInMemory(r: Region, hdr: map<nat, Header>, s: seq<Chunk>, t: seq<Chunk>, i: nat)
    requires Tiles(r, t) && Represents(r, hdr, t) && 0 < i < |s| && t == SetUse(s, i, false)
    requires HeaderAt(s, s[i].prev, i).Some?
    ensures var j := HeaderAt(s, s[i].prev, i).value;
            InMemory(r, hdr, t, j) && s[i].prev > 0 && hdr[s[i].prev].inUse == s[j].inUse
  {
    var j := HeaderAt(s, s[i].prev, i).value;
    assert InMemory(r, hdr, t, j);
    InsideRegion(r, t, j);
  }
}
