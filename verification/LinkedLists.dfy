/** The lists that are searched and cut by a pointer to the pointer that leads to a node: pending requests,
    notify registrations, live fibers. Every operation is proved to be the one on sequences. */
module LinkedLists {
  import opened Base
  import opened Cells
  import opened Pending
  import opened Machine
  import opened Registry
  import opened Scheduler
  import opened Worlds

  function Filter<T>(s: seq<T>, drop: T -> bool): seq<T> {
    if s == [] then [] else Filter(s[..|s| - 1], drop) + (if drop(s[|s| - 1]) then [] else [s[|s| - 1]])
  }

  ghost predicate Hits<T>(s: seq<T>, p: T -> bool, marked: T -> bool) {
    exists i :: 0 <= i < |s| && p(s[i]) && marked(s[i])
  }

  class List<T> {
    var head: Cell?<T>
    ghost var spine: seq<Cell<T>>

    ghost predicate Valid()
      reads this, spine
    {
      head == From(spine, 0) && Chained(spine)
    }

    ghost function Contents(): seq<T>
      reads this
    {
      DataOf(spine)
    }

    constructor ()
      ensures Valid() && Contents() == [] && spine == []
    {
      head, spine := null, [];
    }

    /** `pending_add`, a registration, a new fiber: in front. */
    method Push(x: T)
      requires Valid()
      modifies this
      ensures Valid() && Contents() == [x] + old(Contents())
      ensures |spine| == |old(spine)| + 1 && fresh(spine[0]) && spine[1..] == old(spine)
    {
      hide Chained, DataOf;
      ghost var was := spine;
      var c := new Cell(x, head);
      ChainPush(c, was);
      head := c;
      spine := [c] + was;
    }

    /** The pointer that leads to the `k`-th node is made to lead past it; `prev` is the node that holds
        that pointer, or null where it is the head. */
    method Cut(ghost k: nat, prev: Cell?<T>, hit: Cell<T>)
      requires Valid() && k < |spine| && hit == spine[k]
      requires prev == if k == 0 then null else spine[k - 1]
      modifies this, prev
      ensures Valid() && spine == old(spine)[..k] + old(spine)[k + 1..]
      ensures Contents() == old(Contents())[..k] + old(Contents())[k + 1..]
    {
      CutData(spine, k);
      CutChain(k);
      if prev == null {
        head := hit.next;
      } else {
        prev.next := hit.next;
      }
      spine := spine[..k] + spine[k + 1..];
    }

    /** Where each node of the cut list leads: only the one before the cut has to change. */
    lemma CutChain(k: nat)
      requires Valid() && k < |spine|
      ensures var s := spine[..k] + spine[k + 1..];
        && spine[k].next == From(spine, k + 1) == From(s, k)
        && (forall i :: 0 <= i < |s| && i != k - 1 ==> s[i].next == From(s, i + 1))
        && (forall i, j :: 0 <= i < j < |s| ==> s[i] != s[j])
    {
      var s := spine[..k] + spine[k + 1..];
      assert spine[k].next == From(spine, k + 1);
      forall i | 0 <= i < |s| && i != k - 1 ensures s[i].next == From(s, i + 1) {
        var o := if i < k then i else i + 1;
        assert s[i] == spine[o] && spine[o].next == From(spine, o + 1);
      }
      CutDistinct(spine, k);
    }

    /** The loop of `pending_take` and `coseq_unreg_notify`. */
    method RemoveFirst(p: T -> bool) returns (found: Option<T>, ghost k: nat)
      requires Valid()
      modifies this, spine
      ensures Valid() && k <= |old(spine)| && forall i :: 0 <= i < k ==> !p(old(Contents())[i])
      ensures k < |old(spine)| ==> p(old(Contents())[k]) && found == Some(old(Contents())[k])
      ensures k == |old(spine)| ==> found == None
      ensures Contents()
              == if k < |old(spine)| then old(Contents())[..k] + old(Contents())[k + 1..] else old(Contents())
    {
      var prev, at := null, head;
      k := 0;
      while at != null && !p(at.data)
        invariant k <= |spine| && at == From(spine, k)
        invariant prev == if k == 0 then null else spine[k - 1]
        invariant forall i :: 0 <= i < k ==> !p(spine[i].data)
        decreases |spine| - k
      {
        assert spine[k].next == From(spine, k + 1);
        prev, at := at, at.next;
        k := k + 1;
      }
      found := None;
      if at != null {
        found := Some(at.data);
        Cut(k, prev, at);
      }
    }

    /** The walk of `reap_done` stands between `kept` and `todo`. */
    ghost predicate Between(kept: seq<Cell<T>>, todo: seq<Cell<T>>, prev: Cell?<T>, at: Cell?<T>)
      reads this
    {
      spine == kept + todo && at == From(todo, 0) && prev == From(kept, |kept| - 1)
    }

    lemma Place(kept: seq<Cell<T>>, todo: seq<Cell<T>>, prev: Cell?<T>, at: Cell<T>)
      requires Valid() && Between(kept, todo, prev, at)
      ensures |kept| < |spine| && spine[|kept|] == at && at.next == From(spine, |kept| + 1) == From(todo[1..], 0)
      ensures prev == (if kept == [] then null else spine[|kept| - 1]) && (prev != null ==> prev in spine)
      ensures todo != [] && todo[0] == at && spine[..|kept|] + spine[|kept| + 1..] == kept + todo[1..]
      ensures prev == From(kept, |kept| - 1) && Between(kept + [at], todo[1..], at, at.next)
    {
      assert (kept + [at]) + todo[1..] == spine;
      assert at == spine[|kept|] && spine[|kept|].next == From(spine, |kept| + 1);
    }

    lemma Stand(kept: seq<Cell<T>>, todo: seq<Cell<T>>, prev: Cell?<T>, at: Cell?<T>)
      requires spine == kept + todo && at == From(todo, 0) && prev == From(kept, |kept| - 1)
      ensures Between(kept, todo, prev, at)
    {}

    /** The node the walk has come to is unlinked or passed. */
    method Pass(p: T -> bool, ghost kept: seq<Cell<T>>, ghost todo: seq<Cell<T>>, prev: Cell?<T>, at: Cell<T>)
      returns (ghost kept': seq<Cell<T>>, prev': Cell?<T>, at': Cell?<T>)
      requires Valid() && Between(kept, todo, prev, at)
      modifies this, prev
      ensures Valid() && todo != [] && todo[0] == at && Between(kept', todo[1..], prev', at')
      ensures kept' == (if p(at.data) then kept else kept + [at]) && (prev' == prev || prev' == at)
    {
      hide List.Valid, List.Between, From;
      Place(kept, todo, prev, at);
      at' := at.next;
      if p(at.data) {
        Cut(|kept|, prev, at);
        Stand(kept, todo[1..], prev, at');
        kept', prev' := kept, prev;
      } else {
        kept', prev' := kept + [at], at;
      }
    }

    /** Of `was`, the nodes `done` have been sifted into `kept`. */
    ghost predicate Sifting(was: seq<Cell<T>>, p: T -> bool, kept: seq<Cell<T>>, done: seq<Cell<T>>,
                            todo: seq<Cell<T>>, prev: Cell?<T>, at: Cell?<T>)
      reads this, spine
    {
      && Valid() && Between(kept, todo, prev, at) && was == done + todo && DataOf(kept) == Filter(DataOf(done), p)
      && (prev == null || prev in was)
    }

    /** One turn of the loop of `reap_done`. */
    method Sift(ghost was: seq<Cell<T>>, p: T -> bool, ghost kept: seq<Cell<T>>, ghost done: seq<Cell<T>>,
                ghost todo: seq<Cell<T>>, prev: Cell?<T>, at: Cell<T>)
      returns (ghost kept': seq<Cell<T>>, prev': Cell?<T>, at': Cell?<T>)
      requires Sifting(was, p, kept, done, todo, prev, at)
      modifies this, prev
      ensures todo != [] && todo[0] == at && Sifting(was, p, kept', done + [at], todo[1..], prev', at')
      ensures prev' == null || prev' in was
    {
      hide List.Valid, List.Between, Filter;
      FilterSnoc(done, at, p);
      kept', prev', at' := Pass(p, kept, todo, prev, at);
      Regroup(done, todo);
      assert todo[0] in done + todo;
    }

    lemma AllDone(was: seq<Cell<T>>, p: T -> bool, kept: seq<Cell<T>>, done: seq<Cell<T>>, todo: seq<Cell<T>>,
                  prev: Cell?<T>)
      requires Sifting(was, p, kept, done, todo, prev, null)
      ensures Valid() && Contents() == Filter(DataOf(was), p) && was == done
    {
      assert todo == [] && spine == kept && was == done;
    }

    /** The loop of `reap_done`: `hit` if it takes out one that `marked` is looking for. */
    method RemoveAll(p: T -> bool, marked: T -> bool) returns (hit: bool)
      requires Valid()
      modifies this, spine
      ensures Valid() && Contents() == Filter(old(Contents()), p)
      ensures hit == Hits(old(Contents()), p, marked)
    {
      ghost var was := spine;
      ghost var done: seq<Cell<T>>, kept: seq<Cell<T>>, todo := [], [], spine;
      var prev, at := null, head;
      assert Sifting(was, p, kept, done, todo, prev, at);
      hide List.Valid, List.Sifting, List.Between, Filter, DataOf, Hits, Chained, From;
      hit := false;
      NoHits(p, marked);
      while at != null
        invariant Sifting(was, p, kept, done, todo, prev, at) && (prev == null || prev in was)
        invariant hit == Hits(DataOf(done), p, marked)
        decreases |todo|
      {
        if p(at.data) && marked(at.data) {
          hit := true;
        }
        MoreHits(done, at, p, marked);
        ghost var at' := at;
        kept, prev, at := Sift(was, p, kept, done, todo, prev, at);
        done, todo := done + [at'], todo[1..];
      }
      AllDone(was, p, kept, done, todo, prev);
    }
  }

  lemma Regroup<T>(a: seq<T>, b: seq<T>)
    requires b != []
    ensures (a + [b[0]]) + b[1..] == a + b
  {}

  lemma FilterSnoc<T>(cells: seq<Cell<T>>, c: Cell<T>, p: T -> bool)
    ensures Filter(DataOf(cells + [c]), p) == Filter(DataOf(cells), p) + if p(c.data) then [] else [c.data]
  {
    assert DataOf(cells + [c]) == DataOf(cells) + [c.data];
  }

  lemma NoHits<T>(p: T -> bool, marked: T -> bool)
    ensures !Hits(DataOf([]), p, marked)
  {}

  lemma MoreHits<T>(cells: seq<Cell<T>>, c: Cell<T>, p: T -> bool, marked: T -> bool)
    ensures Hits(DataOf(cells + [c]), p, marked) == (Hits(DataOf(cells), p, marked) || (p(c.data) && marked(c.data)))
  {
    assert DataOf(cells + [c]) == DataOf(cells) + [c.data];
    assert (DataOf(cells) + [c.data])[|cells|] == c.data;
    forall i | 0 <= i < |cells| ensures DataOf(cells + [c])[i] == DataOf(cells)[i] {}
  }

  lemma ChainPush<T>(c: Cell<T>, cells: seq<Cell<T>>)
    requires Chained(cells) && c !in cells && c.next == From(cells, 0)
    ensures Chained([c] + cells) && DataOf([c] + cells) == [c.data] + DataOf(cells)
    ensures ([c] + cells)[0] == c && ([c] + cells)[1..] == cells
  {
    var s := [c] + cells;
    forall i | 0 <= i < |s| ensures s[i].next == From(s, i + 1) {
      if i > 0 {
        assert cells[i - 1].next == From(cells, i);
      }
    }
  }

  lemma CutDistinct<T>(cells: seq<Cell<T>>, k: nat)
    requires k < |cells| && forall i, j :: 0 <= i < j < |cells| ==> cells[i] != cells[j]
    ensures var s := cells[..k] + cells[k + 1..]; forall i, j :: 0 <= i < j < |s| ==> s[i] != s[j]
  {}

  lemma CutData<T>(cells: seq<Cell<T>>, k: nat)
    requires k < |cells|
    ensures DataOf(cells[..k] + cells[k + 1..]) == DataOf(cells)[..k] + DataOf(cells)[k + 1..]
  {}

  // ---------------------------------------------------------------- the three uses

  /** `pending_add`. */
  method PendingAdd(l: List<Entry>, rid: nat, f: nat)
    requires l.Valid()
    modifies l
    ensures l.Valid() && l.Contents() == [Entry(rid, f)] + old(l.Contents())
    ensures forall id ::
      Peek(l.Contents(), id) == if Wire(id) == Wire(rid) then Some(f) else Peek(old(l.Contents()), id)
  {
    ghost var was := l.Contents();
    l.Push(Entry(rid, f));
    assert l.Contents()[1..] == was;
  }

  /** `coseq_reg_notify` for a fiber that answers to `replyTo`, with the instance's counter: a caller from
      outside gets nothing and leaves the counter alone. */
  method RegNotify(l: List<Client>, replyTo: int, category: nat, counter: nat)
    returns (given: Option<nat>, counter': nat)
    requires l.Valid() && counter <= 0xff
    modifies l
    ensures l.Valid() && counter' <= 0xff
    ensures replyTo == EXTERNAL ==> given == None && counter' == counter && l.Contents() == old(l.Contents())
    ensures replyTo != EXTERNAL ==> given == Some(ClientId(counter)) && counter' == ClientId(counter) + 1
    ensures replyTo != EXTERNAL ==>
      given.value < 0xff && l.Contents() == [Client(category, replyTo, given.value)] + old(l.Contents())
  {
    if replyTo == EXTERNAL {
      return None, counter;
    }
    var id := if counter == 0xff then 0 else counter;
    l.Push(Client(category, replyTo, id));
    return Some(id), id + 1;
  }

  method PendingTake(l: List<Entry>, id: nat) returns (f: Option<nat>)
    requires l.Valid()
    modifies l, l.spine
    ensures l.Valid() && l.Contents() == Take(old(l.Contents()), id) && f == Peek(old(l.Contents()), id)
  {
    ghost var was := l.Contents();
    var hit, k := l.RemoveFirst((e: Entry) => Wire(e.id) == Wire(id));
    FirstMatch(was, k, id);
    return if hit.Some? then Some(hit.value.fid) else None;
  }

  method UnregNotify(l: List<Client>, category: nat, clientId: nat) returns (found: bool)
    requires l.Valid()
    modifies l, l.spine
    ensures l.Valid() && l.Contents() == Removed(old(l.Contents()), category, clientId)
    ensures found == exists c <- old(l.Contents()) :: Matches(c, category, clientId)
  {
    ghost var was := l.Contents();
    var hit, k := l.RemoveFirst((c: Client) => Matches(c, category, clientId));
    RemovedFirst(was, k, category, clientId);
    found := hit.Some?;
    assert found ==> was[k] in was;
  }

  lemma {:induction false} FilterIsAlive(order: seq<nat>, fib: map<nat, Fiber>, drop: nat -> bool)
    requires forall f <- order :: f in fib && drop(f) == fib[f].done
    ensures Filter(order, drop) == Alive(order, fib)
  {
    if order != [] {
      var front, last := order[..|order| - 1], order[|order| - 1];
      FilterIsAlive(front, fib, drop);
      AliveSnoc(front, last, fib);
      assert order == front + [last];
    }
  }

  /** `reap_done`: what is left in the list of fibers is the unfinished ones in their order, and a lock of a
      finished fiber is cleared. */
  method ReapList(l: List<nat>, fib: map<nat, Fiber>, lock: Option<nat>) returns (lock': Option<nat>)
    requires l.Valid() && (forall f <- l.Contents() :: f in fib) && (lock.Some? ==> lock.value in l.Contents())
    modifies l, l.spine
    ensures l.Valid() && l.Contents() == Alive(old(l.Contents()), fib)
    ensures lock' == if lock.Some? && fib[lock.value].done then None else lock
  {
    var drop := (f: nat) => f in fib && fib[f].done;
    FilterIsAlive(l.Contents(), fib, drop);
    var owner := l.RemoveAll(drop, (f: nat) => lock == Some(f));
    return if owner then None else lock;
  }
}
