/** The event lists as they are built: nodes linked from a head to a tail pointer, moved between lists
    without being copied. Every operation is proved to be the one on sequences. */
module EventLists {
  import opened Base
  import opened Cells
  import opened EventQueues

  type Node = Cell<Stamped>

  ghost predicate Apart(s: seq<Node>, t: seq<Node>) {
    forall n <- s :: n !in t
  }

  lemma ChainsJoin(front: seq<Node>, back: seq<Node>)
    requires front != [] && Chained(back) && Apart(back, front)
    requires forall i, j :: 0 <= i < j < |front| ==> front[i] != front[j]
    requires forall i :: 0 <= i < |front| - 1 ==> front[i].next == From(front, i + 1)
    requires front[|front| - 1].next == if back == [] then null else back[0]
    ensures Chained(front + back)
  {
    var s := front + back;
    forall i | 0 <= i < |s| ensures s[i].next == From(s, i + 1) {
      if i >= |front| {
        assert back[i - |front|].next == From(back, i - |front| + 1);
      }
    }
    forall i, j | 0 <= i < j < |s| ensures s[i] != s[j] {
      if i < |front| <= j {
        assert back[j - |front|] in back;
      }
    }
  }

  /** The last node of one chain is made to lead to the first of another. */
  method Link(ghost front: seq<Node>, ghost back: seq<Node>, last: Node, first: Cell?<Stamped>)
    requires Chained(front) && Chained(back) && Apart(back, front)
    requires front != [] && last == front[|front| - 1] && first == From(back, 0)
    modifies last
    ensures Chained(front + back)
  {
    assert last in front && last !in back;
    last.next := first;
    ChainsJoin(front, back);
  }

  lemma FirstData(s: seq<Node>)
    requires s != []
    ensures DataOf(s)[0] == s[0].data && DataOf(s[1..]) == DataOf(s)[1..]
  {}

  lemma LastData(s: seq<Node>, n: Node)
    ensures DataOf(s + [n]) == DataOf(s) + [n.data]
  {}

  /** The first node of the batch may join the events put off. */
  lemma Relinked(inbox: seq<Node>, batch: seq<Node>, deferred: seq<Node>)
    requires batch != [] && batch[0] !in batch[1..]
    requires Apart(inbox, batch) && Apart(inbox, deferred) && Apart(batch, deferred)
    ensures batch[0] !in deferred
    ensures var put := deferred + [batch[0]];
      Apart(inbox, batch[1..]) && Apart(inbox, put) && Apart(batch[1..], put)
  {}

  lemma NoChain()
    ensures Chained<Stamped>([])
  {}

  /** A list with its end pointers; `spine` is the nodes in order. */
  class EvList {
    var head: Cell?<Stamped>
    var tail: Cell?<Stamped>
    ghost var spine: seq<Node>

    ghost predicate Valid()
      reads this, spine
    {
      && Chained(spine)
      && (if spine == [] then head == null && tail == null else head == spine[0] && tail == spine[|spine| - 1])
    }

    constructor ()
      ensures Valid() && spine == []
    {
      head, tail, spine := null, null, [];
    }

    /** The node goes to the end. */
    method Append(n: Node)
      requires Valid() && n !in spine
      modifies this, n, if tail == null then {} else {tail}
      ensures Valid() && spine == old(spine) + [n]
    {
      n.next := null;
      if tail != null {
        tail.next := n;
      } else {
        head := n;
      }
      tail := n;
      spine := spine + [n];
    }

    /** The first node leaves the list; what it leads to is read before. */
    method Pop() returns (n: Node)
      requires Valid() && spine != []
      modifies this
      ensures Valid() && n == old(spine)[0] && spine == old(spine)[1..]
    {
      n := head;
      assert spine[0].next == From(spine, 1);
      head := n.next;
      if head == null {
        tail := null;
      }
      spine := spine[1..];
    }

    /** The nodes of `other` go before those of this list, by one link and two pointers. */
    method Prepend(other: EvList)
      requires Valid() && other.Valid() && other != this && other.spine != []
      requires Apart(spine, other.spine)
      modifies this, other, other.tail
      ensures Valid() && spine == old(other.spine) + old(spine)
      ensures other.Valid() && other.spine == []
    {
      hide Chained, Apart;
      ghost var front, back := other.spine, spine;
      Link(front, back, other.tail, head);
      NoChain();
      head := other.head;
      if tail == null {
        tail := other.tail;
      }
      spine := front + back;
      other.head, other.tail, other.spine := null, null, [];
    }

    /** All the nodes of `other`, by its pointers alone. */
    method TakeFrom(other: EvList)
      requires Valid() && other.Valid() && other != this && spine == []
      modifies this, other
      ensures Valid() && spine == old(other.spine)
      ensures other.Valid() && other.spine == []
    {
      head, tail, spine := other.head, other.tail, other.spine;
      other.head, other.tail, other.spine := null, null, [];
    }
  }

  /** The batch worked through to its end, each event put off or handled as `putOff` says. */
  function Drained(q: Queues, putOff: seq<bool>): Queues
    requires |putOff| == |q.batch|
    decreases |putOff|
  {
    if putOff == [] then q else Drained(if putOff[0] then Defer(q) else Consume(q), putOff[1..])
  }

  lemma DrainOne(q: Queues)
    requires q.batch != [] && QueueInv(q)
    ensures QueueInv(Defer(q)) && QueueInv(Consume(q))
  {
    DeferKeeps(q);
    ConsumeKeeps(q);
  }

  /** Whatever is put off, nothing is lost and what is still to come keeps its order; the events put off stand
      behind those put off before, and all of that comes before the inbox at the next splice. */
  lemma {:induction false} DrainedKeeps(q: Queues, putOff: seq<bool>)
    requires |putOff| == |q.batch| && QueueInv(q)
    ensures var r := Drained(q, putOff);
      && QueueInv(r) && r.batch == [] && r.inbox == q.inbox && q.deferred <= r.deferred && q.consumed <= r.consumed
      && |r.deferred| + |r.consumed| == |q.deferred| + |q.consumed| + |q.batch|
      && (forall i :: 0 <= i < |putOff| ==> q.batch[i] in if putOff[i] then r.deferred else r.consumed)
    decreases |putOff|
  {
    hide QueueInv, Live;
    if putOff != [] {
      var n := if putOff[0] then Defer(q) else Consume(q);
      DrainOne(q);
      DrainedKeeps(n, putOff[1..]);
      var r := Drained(n, putOff[1..]);
      forall i | 0 <= i < |putOff| ensures q.batch[i] in if putOff[i] then r.deferred else r.consumed {
        if i > 0 {
          assert n.batch[i - 1] == q.batch[i] && putOff[1..][i - 1] == putOff[i];
        } else if putOff[0] {
          assert n.deferred[|q.deferred|] == q.batch[0] && n.deferred[|q.deferred|] in r.deferred;
        } else {
          assert n.consumed[|q.consumed|] == q.batch[0] && n.consumed[|q.consumed|] in r.consumed;
        }
      }
    }
  }

  lemma Ends(l: EvList)
    requires l.Valid()
    ensures l.spine != [] ==> l.head in l.spine && l.tail in l.spine && l.head !in l.spine[1..]
    ensures l.spine != [] ==> l.head == l.spine[0]
    ensures l.spine == [] ==> l.head == l.tail == null
  {}

  /** The three lists of a module. */
  class Lists {
    const inbox: EvList
    const batch: EvList
    const deferred: EvList
    var posted: nat
    ghost var consumed: seq<Stamped>
    ghost var held: set<nat>

    /** The lists are well formed and share no node. */
    ghost predicate Valid()
      reads this, inbox, batch, deferred, inbox.spine, batch.spine, deferred.spine
    {
      && inbox != batch && inbox != deferred && batch != deferred
      && inbox.Valid() && batch.Valid() && deferred.Valid()
      && Apart(inbox.spine, batch.spine) && Apart(inbox.spine, deferred.spine) && Apart(batch.spine, deferred.spine)
    }

    ghost function View(): Queues
      reads this, inbox, batch, deferred
    {
      Queues(DataOf(inbox.spine), DataOf(batch.spine), DataOf(deferred.spine), posted, consumed, held)
    }

    constructor ()
      ensures Valid() && View() == NO_EVENTS
      ensures fresh(inbox) && fresh(batch) && fresh(deferred)
    {
      posted, consumed, held := 0, [], {};
      inbox := new EvList();
      batch := new EvList();
      deferred := new EvList();
    }

    /** `post`. */
    method Post(e: Event)
      requires Valid()
      modifies this, inbox, inbox.tail
      ensures Valid() && View() == EventQueues.Post(old(View()), e)
      ensures forall n <- inbox.spine :: n in old(inbox.spine) || fresh(n)
    {
      hide EvList.Valid;
      Ends(inbox);
      var n := new Cell(Stamped(posted, e), null);
      inbox.Append(n);
      posted := posted + 1;
    }

    /** The splice at the top of the loop. */
    method Splice()
      requires Valid() && deferred.spine != []
      modifies inbox, deferred, deferred.tail
      ensures Valid() && View() == EventQueues.Splice(old(View()))
    {
      hide EvList.Valid;
      Ends(deferred);
      inbox.Prepend(deferred);
    }

    method TakeBatch()
      requires Valid() && batch.spine == []
      modifies inbox, batch
      ensures Valid() && View() == EventQueues.TakeBatch(old(View()))
    {
      batch.TakeFrom(inbox);
    }

    /** `defer_ev` of the event whose turn it is: its node is relinked while the rest of the batch waits. */
    method Defer()
      requires Valid() && batch.spine != []
      modifies this, batch, deferred, deferred.tail, batch.head
      ensures Valid() && View() == EventQueues.Defer(old(View()))
      ensures batch.spine == old(batch.spine)[1..] && deferred.spine == old(deferred.spine) + [old(batch.spine)[0]]
    {
      hide EvList.Valid, Chained, DataOf;
      Ends(batch);
      Ends(deferred);
      FirstData(batch.spine);
      LastData(deferred.spine, batch.spine[0]);
      Relinked(inbox.spine, batch.spine, deferred.spine);
      var n := batch.Pop();
      deferred.Append(n);
      held := held + {n.data.at};
    }

    method Consume()
      requires Valid() && batch.spine != []
      modifies this, batch
      ensures Valid() && View() == EventQueues.Consume(old(View()))
      ensures batch.spine == old(batch.spine)[1..] && deferred.spine == old(deferred.spine)
    {
      hide EvList.Valid, Chained;
      FirstData(batch.spine);
      var n := batch.Pop();
      consumed := consumed + [n.data];
    }

    /** The walk over the batch, whichever of its events are put off: each node is left behind or relinked
        while the walk goes on from the node that it led to. */
    method Drain(putOff: seq<bool>)
      requires Valid() && |putOff| == |batch.spine|
      modifies this, batch, deferred, batch.spine, deferred.spine
      ensures Valid() && View() == Drained(old(View()), putOff)
    {
      hide EvList.Valid, Apart;
      var k := 0;
      ghost var nodes := batch.spine + deferred.spine;
      Ends(batch);
      while batch.head != null
        invariant Valid() && k <= |putOff| && |batch.spine| == |putOff| - k
        invariant Drained(View(), putOff[k..]) == Drained(old(View()), putOff)
        invariant forall n <- batch.spine + deferred.spine :: n in nodes
        decreases |putOff| - k
      {
        Ends(batch);
        Ends(deferred);
        ghost var rest := putOff[k..];
        assert rest[0] == putOff[k] && rest[1..] == putOff[k + 1..];
        assert batch.head in nodes && (deferred.tail != null ==> deferred.tail in nodes);
        if putOff[k] {
          Defer();
        } else {
          Consume();
        }
        k := k + 1;
        Ends(batch);
      }
      Ends(batch);
    }
  }
}
