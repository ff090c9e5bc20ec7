/**
 One node of the shared memory: page states, child page table, child memory. `NodeView` and the
 functions on it are the specification; `DsmNode` is the object that updates its arrays in place.
 */
module PageNode {
  import opened Prelude
  import opened Protection

  type Word = int

  /** A page's contents; `version` says how many of the writes made to the page it contains. */
  datatype Copy = Copy(version: nat, words: seq<Word>)

  datatype NodeView = NodeView(info: seq<Prot>, hw: seq<Hw>, mem: seq<Copy>)

  ghost predicate Sized(v: NodeView, pages: nat) {
    |v.info| == |v.hw| == |v.mem| == pages
  }

  /** The master starts as owner of every page, any other node with nothing. */
  function InitView(mem: seq<Copy>, isMaster: bool): NodeView {
    NodeView(seq(|mem|, i => if isMaster then Write else Invalid),
             seq(|mem|, i => if isMaster then ReadWrite else NoAccess),
             mem)
  }

  /** First half of answering a write request: give up ownership; the child keeps its access. */
  function Flip(v: NodeView, p: nat): NodeView
    requires p < |v.info|
  {
    v.(info := v.info[p := Read])
  }

  /** Second half: the page is copied while the child is stopped, and can no longer be written. */
  function RevokeWrite(v: NodeView, p: nat): NodeView
    requires p < |v.hw|
  {
    v.(hw := v.hw[p := ReadOnly])
  }

  /** Answering a read request leaves an owner with full access. */
  function ShareRead(v: NodeView, p: nat): NodeView
    requires p < |v.hw| && p < |v.info|
  {
    v.(hw := v.hw[p := if Ownership(v.info[p]) then ReadWrite else ReadOnly])
  }

  /** An owner that faults only needs its access back. */
  function Reenable(v: NodeView, p: nat): NodeView
    requires p < |v.hw| && p < |v.info|
  {
    v.(info := v.info[p := Write], hw := v.hw[p := ReadWrite])
  }

  function Install(v: NodeView, p: nat, c: Copy): NodeView
    requires p < |v.hw| && p < |v.mem|
  {
    v.(hw := v.hw[p := ReadWrite], mem := v.mem[p := c])
  }

  function MarkWrite(v: NodeView, p: nat): NodeView
    requires p < |v.info|
  {
    v.(info := v.info[p := Write])
  }

  function MarkRead(v: NodeView, p: nat): NodeView
    requires p < |v.info| && p < |v.hw|
  {
    v.(info := v.info[p := Read], hw := v.hw[p := ReadOnly])
  }

  /** `sync`: no access to any of the first `total` pages. Page states and contents stay. */
  function RevokeAll(v: NodeView, total: nat): NodeView {
    v.(hw := seq(|v.hw|, i requires 0 <= i < |v.hw| => if i < total then NoAccess else v.hw[i]))
  }

  function StoreWord(v: NodeView, p: nat, off: nat, w: Word, version: nat): NodeView
    requires p < |v.mem| && off < |v.mem[p].words|
  {
    v.(mem := v.mem[p := Copy(version, v.mem[p].words[off := w])])
  }

  /** The page left in the data slot of a round after replies arrive in this order. */
  function LastPage(replies: seq<Option<Copy>>): Option<Copy> {
    if replies == [] then None
    else if replies[|replies| - 1].Some? then replies[|replies| - 1]
    else LastPage(replies[..|replies| - 1])
  }

  /** The slot stays empty exactly when no reply carries a page. */
  lemma {:induction false} LastPageNone(replies: seq<Option<Copy>>)
    ensures LastPage(replies).None? <==> forall i :: 0 <= i < |replies| ==> replies[i].None?
  {
    if replies != [] {
      LastPageNone(replies[..|replies| - 1]);
      if replies[|replies| - 1].None? && LastPage(replies).None? {
        forall i | 0 <= i < |replies| ensures replies[i].None? {
          if i < |replies| - 1 { assert replies[..|replies| - 1][i].None?; }
        }
      }
    }
  }

  /** When one reply carries a page, the slot holds that page, in whatever order the replies come. */
  lemma {:induction false} LastPageUnique(replies: seq<Option<Copy>>, k: nat)
    requires k < |replies| && replies[k].Some?
    requires forall i :: 0 <= i < |replies| && i != k ==> replies[i].None?
    ensures LastPage(replies) == replies[k]
  {
    if k < |replies| - 1 {
      LastPageUnique(replies[..|replies| - 1], k);
    }
  }

  /** Reply `k` carries a page, and none after it does. */
  predicate LastFull(replies: seq<Option<Copy>>, k: int) {
    0 <= k < |replies| && replies[k].Some? && forall j :: k < j < |replies| ==> replies[j].None?
  }

  /** Of several replies with a page the last one stays. */
  lemma {:induction false} LastPageWins(replies: seq<Option<Copy>>, k: nat)
    requires LastFull(replies, k)
    ensures LastPage(replies) == replies[k]
  {
    if k < |replies| - 1 {
      assert replies[|replies| - 1].None?;
      LastPageWins(replies[..|replies| - 1], k);
    }
  }

  datatype FaultAction = Reenabled | AskedWrite | AskedRead

  /** What the handler does is decided by the page state alone, not by the kind of access. */
  function FaultKind(p: Prot): FaultAction {
    if Ownership(p) then Reenabled
    else if Readable(p) then AskedWrite
    else AskedRead
  }

  class DsmNode {
    var pageInfo: array<Prot>
    var hw: array<Hw>
    var mem: array<Copy>

    ghost predicate Valid()
      reads this
    {
      pageInfo.Length == hw.Length == mem.Length
    }

    ghost function View(): NodeView
      reads this, pageInfo, hw, mem
    {
      NodeView(pageInfo[..], hw[..], mem[..])
    }

    constructor (contents: array<Copy>, isMaster: bool)
      ensures Valid() && fresh(pageInfo) && fresh(hw) && mem == contents
      ensures View() == InitView(contents[..], isMaster)
      ensures forall p :: 0 <= p < contents.Length ==>
                && pageInfo[p] == (if isMaster then Write else Invalid)
                && hw[p] == (if isMaster then ReadWrite else NoAccess)
    {
      var pages := contents.Length;
      var info := new Prot[pages];
      for i := 0 to pages
        invariant forall j :: 0 <= j < i ==> info[j] == if isMaster then Write else Invalid
      {
        info[i] := if isMaster then Write else Invalid;
      }
      pageInfo := info;
      mem := contents;
      var access := if isMaster then ReadWrite else NoAccess;
      hw := new Hw[pages](_ => access);
    }

    /** The fault handler up to the point where it either is done or starts a round. */
    method HandleFault(p: nat) returns (action: FaultAction)
      requires Valid() && p < pageInfo.Length
      modifies pageInfo, hw
      ensures action == FaultKind(old(pageInfo[p]))
      ensures old(pageInfo[p]) == Write || old(pageInfo[p]) == Owned <==> action == Reenabled
      ensures old(pageInfo[p]) == Read <==> action == AskedWrite
      ensures View() == if action.Reenabled? then Reenable(old(View()), p) else old(View())
    {
      var prot := pageInfo[p];
      var isWrite := Readable(prot);
      if Ownership(prot) {
        var _ := UpdateProt(p);
        return Reenabled;
      }
      if isWrite {
        action := AskedWrite;
      } else {
        action := AskedRead;
      }
    }

    method UpdateProt(p: nat) returns (ok: bool)
      requires Valid() && p < pageInfo.Length
      modifies pageInfo, hw
      ensures ok == Ownership(old(pageInfo[p]))
      ensures ok ==> pageInfo[p] == Write && hw[p] == ReadWrite
      ensures View() == if ok then Reenable(old(View()), p) else old(View())
    {
      if Ownership(pageInfo[p]) {
        pageInfo[p] := Write;
        hw[p] := ReadWrite;
        return true;
      }
      return false;
    }

    /** The locked part of answering a write request. */
    method GiveUpOwnership(p: nat) returns (flipped: bool)
      requires Valid()
      modifies pageInfo
      ensures flipped == (p < pageInfo.Length && Ownership(old(pageInfo[..])[p]))
      ensures View() == if flipped then Flip(old(View()), p) else old(View())
    {
      if p < pageInfo.Length && Ownership(pageInfo[p]) {
        pageInfo[p] := Read;
        return true;
      }
      return false;
    }

    /** The request the tracer serves for a write reply: protect, then copy. */
    method SnapshotForWrite(p: nat) returns (c: Copy)
      requires Valid() && p < pageInfo.Length
      modifies hw
      ensures c == old(View()).mem[p] && View() == RevokeWrite(old(View()), p)
    {
      hw[p] := ReadOnly;
      c := mem[p];
    }

    method ResponseWrite(p: nat) returns (reply: Option<Copy>)
      requires Valid()
      modifies pageInfo, hw
      ensures reply.Some? <==> p < pageInfo.Length && Ownership(old(pageInfo[..])[p])
      ensures reply.Some? ==>
                && reply.value == old(mem[..])[p] && View() == RevokeWrite(Flip(old(View()), p), p)
                && pageInfo[p] == Read && hw[p] == ReadOnly
      ensures reply.None? ==> View() == old(View())
    {
      reply := None;
      var flipped := GiveUpOwnership(p);
      if flipped {
        var c := SnapshotForWrite(p);
        reply := Some(c);
      }
    }

    method ResponseRead(p: nat) returns (reply: Option<Copy>)
      requires Valid()
      modifies hw
      ensures reply.Some? <==> p < pageInfo.Length && Ownership(pageInfo[p])
      ensures reply.Some? ==> reply.value == mem[p] && View() == ShareRead(old(View()), p) && hw[p].ReadWrite?
      ensures reply.None? ==> View() == old(View())
    {
      reply := None;
      if p < pageInfo.Length && Ownership(pageInfo[p]) {
        hw[p] := if Ownership(pageInfo[p]) then ReadWrite else ReadOnly;
        reply := Some(mem[p]);
      }
    }

    /** The reply threads of a round, in the order they take the round's lock. */
    method CollectReplies(replies: seq<Option<Copy>>) returns (data: Option<Copy>)
      ensures data == LastPage(replies)
      ensures forall k :: LastFull(replies, k) ==> data == replies[k]
      ensures data.None? <==> forall k :: 0 <= k < |replies| ==> replies[k].None?
    {
      data := None;
      var i := 0;
      while i < |replies|
        invariant 0 <= i <= |replies|
        invariant data == LastPage(replies[..i])
        invariant forall k :: LastFull(replies[..i], k) ==> data == replies[k]
        invariant data.None? <==> forall k :: 0 <= k < i ==> replies[k].None?
      {
        assert replies[..i + 1][..i] == replies[..i];
        if replies[i].Some? {
          data := replies[i];
        }
        i := i + 1;
      }
      assert replies[..i] == replies;
    }

    method GrantProt(p: nat, replies: seq<Option<Copy>>) returns (succeed: bool)
      requires Valid() && p < pageInfo.Length
      modifies hw, mem
      ensures succeed == LastPage(replies).Some?
      ensures forall k :: LastFull(replies, k) ==> succeed && mem[p] == replies[k].value
      ensures View() == if succeed then Install(old(View()), p, LastPage(replies).value) else old(View())
    {
      var data := CollectReplies(replies);
      succeed := false;
      if data.Some? {
        hw[p] := ReadWrite;
        mem[p] := data.value;
        succeed := true;
      }
    }

    method GrantWrite(p: nat, replies: seq<Option<Copy>>) returns (succeed: bool)
      requires Valid() && p < pageInfo.Length
      modifies pageInfo, hw, mem
      ensures succeed == LastPage(replies).Some?
      ensures forall k :: LastFull(replies, k) ==> succeed && mem[p] == replies[k].value
      ensures View() == if succeed
                        then MarkWrite(Install(old(View()), p, LastPage(replies).value), p)
                        else old(View())
    {
      succeed := GrantProt(p, replies);
      if succeed {
        pageInfo[p] := Write;
      }
    }

    method GrantRead(p: nat, replies: seq<Option<Copy>>) returns (succeed: bool)
      requires Valid() && p < pageInfo.Length
      modifies pageInfo, hw, mem
      ensures succeed == LastPage(replies).Some?
      ensures forall k :: LastFull(replies, k) ==> succeed && mem[p] == replies[k].value
      ensures View() == if succeed
                        then MarkRead(Install(old(View()), p, LastPage(replies).value), p)
                        else old(View())
    {
      succeed := GrantProt(p, replies);
      if succeed {
        pageInfo[p] := Read;
        hw[p] := ReadOnly;
      }
    }
  }

  /** What the child's `mprotect` call in `sync` does to its page table. */
  method Sync(node: DsmNode, total: nat)
    requires node.Valid()
    modifies node.hw
    ensures node.View() == RevokeAll(old(node.View()), total)
    ensures forall p :: 0 <= p < node.hw.Length ==> node.hw[p] == if p < total then NoAccess else old(node.hw[..])[p]
  {
    forall i | 0 <= i < node.hw.Length && i < total {
      node.hw[i] := NoAccess;
    }
  }

  /** One turn of the spin loop: an exchange with 1 on the lock word, which takes the lock if it was 0. The
      page must be writable, or the access faults first. */
  method TestAndSet(node: DsmNode, p: nat, off: nat, version: nat) returns (busy: bool)
    requires node.Valid() && p < node.mem.Length && off < |node.mem[p].words| && node.hw[p].ReadWrite?
    modifies node.mem
    ensures busy <==> old(node.View()).mem[p].words[off] != 0
    ensures node.View() == StoreWord(old(node.View()), p, off, 1, version)
  {
    busy := node.mem[p].words[off] != 0;
    node.mem[p] := Copy(version, node.mem[p].words[off := 1]);
  }

  method MutexUnlock(node: DsmNode, p: nat, off: nat, version: nat)
    requires node.Valid() && p < node.mem.Length && off < |node.mem[p].words| && node.hw[p].ReadWrite?
    modifies node.mem
    ensures node.View() == StoreWord(old(node.View()), p, off, 0, version)
  {
    node.mem[p] := Copy(version, node.mem[p].words[off := 0]);
  }
}
