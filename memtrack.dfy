/**
 * The allocation tracker of src/dmalloc.c: every successful allocation is
 * recorded at the head of a singly linked list of MemTrack nodes, a free
 * unlinks the first node for its pointer, and the leak report walks the
 * list from the head.
 *
 * Pointers are plain numbers; what malloc returns is a parameter, since the
 * allocator is not part of this model.
 */
module MemTrack {
  import opened Common

  /** An address as malloc hands it out. */
  type Ptr = nat

  /** What one MemTrack node records: the pointer and the file and line of the call. */
  datatype Record = Record(ptr: Ptr, file: string, line: int)

  /** struct MemTrack: the recorded fields never change once the node is made; next does. */
  class MemNode {
    const ptr: Ptr
    const file: string
    const line: int
    var next: MemNode?

    constructor (ptr: Ptr, file: string, line: int, next: MemNode?)
      ensures this.ptr == ptr && this.file == file && this.line == line && this.next == next
    {
      this.ptr, this.file, this.line, this.next := ptr, file, line, next;
    }
  }

  /** What a node records. */
  function RecordOf(n: MemNode): Record
  {
    Record(n.ptr, n.file, n.line)
  }

  /** The records held by a run of nodes, in list order. */
  function RecordsOf(ns: seq<MemNode>): (r: seq<Record>)
    ensures |r| == |ns|
    ensures forall i :: 0 <= i < |ns| ==> r[i] == RecordOf(ns[i])
  {
    if ns == [] then [] else [RecordOf(ns[0])] + RecordsOf(ns[1..])
  }

  /** The records without the first one for p; all of them when none is for p. */
  function RemoveFirst(rs: seq<Record>, p: Ptr): (r: seq<Record>)
    ensures |r| == |rs| || |r| == |rs| - 1
    ensures |r| == |rs| <==> forall i :: 0 <= i < |rs| ==> rs[i].ptr != p
  {
    if rs == [] then []
    else if rs[0].ptr == p then rs[1..]
    else [rs[0]] + RemoveFirst(rs[1..], p)
  }

  /** The node after ns[i] in the list, null after the last. */
  ghost function Successor(ns: seq<MemNode>, i: nat): MemNode?
  {
    if i + 1 < |ns| then ns[i + 1] else null
  }

  /** No node occurs twice. */
  ghost predicate Distinct(ns: seq<MemNode>)
  {
    forall i, j :: 0 <= i < j < |ns| ==> ns[i] != ns[j]
  }

  /** The tracker: mem_track_head and, as ghost state, the nodes it reaches in order. */
  class Tracker {
    var head: MemNode?
    ghost var nodes: seq<MemNode>
    ghost var Repr: set<MemNode>

    /** The list from head is exactly nodes: linked in order, ending in null, with no node twice. */
    ghost predicate Valid()
      reads this, Repr
    {
      (forall i :: 0 <= i < |nodes| ==> nodes[i] in Repr)
      && Distinct(nodes)
      && head == (if nodes == [] then null else nodes[0])
      && (forall i :: 0 <= i < |nodes| ==> nodes[i].next == Successor(nodes, i))
    }

    /** The records the list holds, most recent first. */
    ghost function Records(): seq<Record>
      reads this
    {
      RecordsOf(nodes)
    }

    constructor ()
      ensures Valid() && Records() == [] && Repr == {}
    {
      head := null;
      nodes := [];
      Repr := {};
    }

    /**
     * debug_malloc: when the allocation succeeds, a record of the pointer,
     * file and line goes in front of the list; a failed one records nothing.
     * The pointer is returned either way.
     */
    method DebugMalloc(obtained: Option<Ptr>, file: string, line: int) returns (ptr: Option<Ptr>)
      requires Valid()
      modifies this
      ensures Valid() && fresh(Repr - old(Repr))
      ensures ptr == obtained
      ensures obtained.Some? ==> Records() == [Record(obtained.value, file, line)] + old(Records())
      ensures obtained.None? ==> Records() == old(Records()) && Repr == old(Repr)
    {
      ptr := obtained;
      if obtained.Some? {
        var track := new MemNode(obtained.value, file, line, head);
        head := track;
        nodes := [track] + nodes;
        Repr := Repr + {track};
        assert nodes[1..] == old(nodes);
        forall i | 1 <= i < |nodes|
          ensures nodes[i] != track && nodes[i].next == Successor(nodes, i)
        {
          assert nodes[i] == old(nodes[i - 1]);
        }
      }
    }

    /**
     * debug_free: walk the list and unlink the first node that records ptr;
     * the other records keep their order, and an untracked pointer leaves
     * the list as it was.
     */
    method DebugFree(ptr: Ptr)
      requires Valid()
      modifies this, Repr
      ensures Valid() && Repr == old(Repr)
      ensures Records() == RemoveFirst(old(Records()), ptr)
    {
      var prev, current, k := FindTrack(ptr);
      if current != null {
        RemoveFirstAt(Records(), ptr, k);
        RecordsOfCut(nodes, k);
        Unlink(prev, current, k);
      } else {
        RemoveFirstAbsent(Records(), ptr);
      }
    }

    /**
     * The walk of debug_free: the first node that records ptr (null when
     * there is none) and the node before it (null for the head).
     */
    method FindTrack(ptr: Ptr) returns (prev: MemNode?, current: MemNode?, ghost k: nat)
      requires Valid()
      ensures k <= |nodes|
      ensures current == (if k < |nodes| then nodes[k] else null)
      ensures prev == (if k == 0 then null else nodes[k - 1])
      ensures current != null ==> current.ptr == ptr
      ensures forall j :: 0 <= j < k ==> nodes[j].ptr != ptr
    {
      prev := null;
      current := head;
      k := 0;
      while current != null && current.ptr != ptr
        invariant k <= |nodes|
        invariant current == (if k < |nodes| then nodes[k] else null)
        invariant prev == (if k == 0 then null else nodes[k - 1])
        invariant forall j :: 0 <= j < k ==> nodes[j].ptr != ptr
        decreases |nodes| - k
      {
        prev := current;
        current := current.next;
        k := k + 1;
      }
    }

    /** Takes node, which is nodes[k], out of the list by linking its predecessor (or head) past it. */
    method Unlink(prev: MemNode?, node: MemNode, ghost k: nat)
      requires Valid() && k < |nodes| && node == nodes[k]
      requires prev == (if k == 0 then null else nodes[k - 1])
      modifies this, Repr
      ensures Valid() && Repr == old(Repr)
      ensures nodes == old(nodes[..k] + nodes[k + 1..])
    {
      ghost var ns := nodes;
      var after := node.next;
      assert after == Successor(ns, k);
      if prev == null {
        head := after;
      } else {
        prev.next := after;
      }
      nodes := nodes[..k] + nodes[k + 1..];
      forall i | 0 <= i < |nodes|
        ensures nodes[i].next == Successor(nodes, i)
      {
        if i + 1 == k {
          assert nodes[i] == prev;
        } else if i < k {
          assert nodes[i] == ns[i] && ns[i] != prev && ns[i].next == old(ns[i].next);
        } else {
          assert nodes[i] == ns[i + 1] && ns[i + 1] != prev && ns[i + 1].next == old(ns[i + 1].next);
        }
      }
    }

    /**
     * debug_memory_leaks: walk the list from head and report every node's
     * record, most recent first; the list is not changed.
     */
    method DebugMemoryLeaks() returns (report: seq<Record>)
      requires Valid()
      ensures report == Records()
    {
      report := [];
      var current := head;
      ghost var k := 0;
      while current != null
        invariant k <= |nodes|
        invariant current == (if k < |nodes| then nodes[k] else null)
        invariant report == RecordsOf(nodes[..k])
        decreases |nodes| - k
      {
        report := report + [RecordOf(current)];
        current := current.next;
        k := k + 1;
      }
      assert nodes[..k] == nodes;
    }
  }

  /** The records of a list with one node cut out are its records with that record cut out. */
  lemma RecordsOfCut(ns: seq<MemNode>, k: nat)
    requires k < |ns|
    ensures RecordsOf(ns[..k] + ns[k + 1..]) == RecordsOf(ns)[..k] + RecordsOf(ns)[k + 1..]
  {
    var rs := RecordsOf(ns);
    var left := RecordsOf(ns[..k] + ns[k + 1..]);
    var right := rs[..k] + rs[k + 1..];
    forall i | 0 <= i < |ns| - 1
      ensures left[i] == right[i]
    {
      CutAt(ns, k, i);
    }
  }

  /** The i-th node of a list with ns[k] cut out. */
  lemma CutAt(ns: seq<MemNode>, k: nat, i: nat)
    requires k < |ns| && i < |ns| - 1
    ensures (ns[..k] + ns[k + 1..])[i] == if i < k then ns[i] else ns[i + 1]
  {
  }

  // ---------------------------------------------------------------------
  // Properties of the record list
  // ---------------------------------------------------------------------

  /** With the first record for p at k, removing it cuts exactly that record out. */
  lemma {:induction false} RemoveFirstAt(rs: seq<Record>, p: Ptr, k: nat)
    requires k < |rs| && rs[k].ptr == p
    requires forall j :: 0 <= j < k ==> rs[j].ptr != p
    ensures RemoveFirst(rs, p) == rs[..k] + rs[k + 1..]
  {
    if k > 0 {
      RemoveFirstAt(rs[1..], p, k - 1);
      assert rs[..k] == [rs[0]] + rs[1..][..k - 1];
      assert rs[k + 1..] == rs[1..][k..];
    }
  }

  /** With no record for p, removing changes nothing. */
  lemma {:induction false} RemoveFirstAbsent(rs: seq<Record>, p: Ptr)
    requires forall j :: 0 <= j < |rs| ==> rs[j].ptr != p
    ensures RemoveFirst(rs, p) == rs
  {
    if rs != [] {
      RemoveFirstAbsent(rs[1..], p);
    }
  }

  /** Freeing the pointer just obtained gives back the list from before the allocation. */
  lemma MallocThenFree(rs: seq<Record>, p: Ptr, file: string, line: int)
    ensures RemoveFirst([Record(p, file, line)] + rs, p) == rs
  {
    assert ([Record(p, file, line)] + rs)[1..] == rs;
  }

  /** r is rs with the record at k, one for p, cut out. */
  predicate CutOneRecord(rs: seq<Record>, p: Ptr, k: int, r: seq<Record>)
  {
    0 <= k < |rs| && rs[k].ptr == p && r == rs[..k] + rs[k + 1..]
  }

  /**
   * What removal leaves is the original list, or the original list with one
   * record for p cut out, the others in their order.
   */
  lemma RemoveFirstKeepsOrder(rs: seq<Record>, p: Ptr)
    ensures RemoveFirst(rs, p) == rs || exists k :: CutOneRecord(rs, p, k, RemoveFirst(rs, p))
  {
    var k := 0;
    while k < |rs| && rs[k].ptr != p
      invariant k <= |rs|
      invariant forall j :: 0 <= j < k ==> rs[j].ptr != p
    {
      k := k + 1;
    }
    if k == |rs| {
      RemoveFirstAbsent(rs, p);
    } else {
      RemoveFirstAt(rs, p, k);
      assert CutOneRecord(rs, p, k, RemoveFirst(rs, p));
    }
  }



  /** Removal only drops records: it adds none and repeats none. */
  lemma {:induction false} RemoveFirstKeepsRecords(rs: seq<Record>, p: Ptr)
    ensures multiset(RemoveFirst(rs, p)) <= multiset(rs)
    ensures forall r :: r in RemoveFirst(rs, p) ==> r in rs
  {
    if rs != [] {
      assert rs == [rs[0]] + rs[1..];
      if rs[0].ptr != p {
        RemoveFirstKeepsRecords(rs[1..], p);
      }
    }
  }


}
