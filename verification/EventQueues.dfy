/** The three event lists of a module (inbox, the batch being worked on, the events put off by a
    lock) and the moves between them. Every accepted event gets the next arrival stamp. */
module EventQueues {
  import opened Base

  datatype Stamped = Stamped(at: nat, ev: Event)

  /** `posted` counts accepted events; `consumed` lists the handled events in handling order and
      `held` the stamps of those ever put off. The last three are history: no step depends on them. */
  datatype Queues = Queues(
    inbox: seq<Stamped>, batch: seq<Stamped>, deferred: seq<Stamped>,
    posted: nat, consumed: seq<Stamped>, held: set<nat>)

  const NO_EVENTS := Queues([], [], [], 0, [], {})

  function Post(q: Queues, e: Event): Queues {
    q.(inbox := q.inbox + [Stamped(q.posted, e)], posted := q.posted + 1)
  }

  function Splice(q: Queues): Queues {
    q.(inbox := q.deferred + q.inbox, deferred := [])
  }

  function TakeBatch(q: Queues): Queues {
    q.(batch := q.inbox, inbox := [])
  }

  function Defer(q: Queues): Queues
    requires q.batch != []
  {
    q.(batch := q.batch[1..], deferred := q.deferred + [q.batch[0]], held := q.held + {q.batch[0].at})
  }

  function Consume(q: Queues): Queues
    requires q.batch != []
  {
    q.(batch := q.batch[1..], consumed := q.consumed + [q.batch[0]])
  }

  /** Everything not yet handled, in the order in which it would be if no lock intervened. */
  function Live(q: Queues): seq<Stamped> {
    q.deferred + q.batch + q.inbox
  }

  function Stamps(s: seq<Stamped>): (r: seq<nat>)
    ensures |r| == |s| && forall i :: 0 <= i < |s| ==> r[i] == s[i].at
  {
    seq(|s|, i requires 0 <= i < |s| => s[i].at)
  }

  function Iota(n: nat): (r: seq<nat>)
    ensures |r| == n && forall i :: 0 <= i < n ==> r[i] == i
  {
    seq(n, i => i)
  }

  /** Arrival order survives deferral. */
  predicate Ordered(q: Queues) {
    && (forall i, j :: 0 <= i < j < |Live(q)| ==> Live(q)[i].at < Live(q)[j].at)
    && (forall i :: 0 <= i < |Live(q)| ==> Live(q)[i].at < q.posted)
  }

  /** Each accepted event is in exactly one place, exactly once. */
  ghost predicate Conserved(q: Queues) {
    multiset(Stamps(q.consumed)) + multiset(Stamps(Live(q))) == multiset(Iota(q.posted))
  }

  /** An event is overtaken only if it was put off by a lock. */
  predicate OvertakenOnlyIfHeld(q: Queues) {
    && (forall i :: 0 <= i < |q.deferred| ==> q.deferred[i].at in q.held)
    && (forall i, c :: 0 <= i < |Live(q)| && 0 <= c < |q.consumed| ==>
          q.consumed[c].at > Live(q)[i].at ==> Live(q)[i].at in q.held)
    && (forall c, d :: 0 <= c < d < |q.consumed| ==>
          q.consumed[c].at > q.consumed[d].at ==> q.consumed[d].at in q.held)
  }

  ghost predicate QueueInv(q: Queues) {
    Ordered(q) && Conserved(q) && OvertakenOnlyIfHeld(q)
  }

  lemma NothingPosted()
    ensures Live(NO_EVENTS) == [] && QueueInv(NO_EVENTS)
  {
    assert Live(NO_EVENTS) == [] && Stamps([]) == [] && Iota(0) == [];
  }

  lemma PostKeeps(q: Queues, e: Event)
    requires QueueInv(q)
    ensures QueueInv(Post(q, e))
    ensures Live(Post(q, e)) == Live(q) + [Stamped(q.posted, e)]
  {
    var r := Post(q, e);
    assert Live(r) == Live(q) + [Stamped(q.posted, e)];
    assert Stamps(Live(r)) == Stamps(Live(q)) + [q.posted];
    assert Iota(r.posted) == Iota(q.posted) + [q.posted];
    forall c | 0 <= c < |q.consumed| ensures q.consumed[c].at < q.posted {
      ConsumedBounded(q, c);
    }
  }

  lemma ConsumedBounded(q: Queues, c: nat)
    requires Conserved(q) && c < |q.consumed|
    ensures q.consumed[c].at < q.posted
  {
    assert Stamps(q.consumed)[c] in multiset(Stamps(q.consumed));
    assert q.consumed[c].at in multiset(Iota(q.posted));
    assert q.consumed[c].at in Iota(q.posted);
  }

  /** The splice at the top of a pass: with no batch under way it moves nothing past anything. */
  lemma SpliceKeeps(q: Queues)
    requires QueueInv(q) && q.batch == []
    ensures QueueInv(Splice(q)) && Live(Splice(q)) == Live(q)
    ensures Splice(q) == q.(inbox := Splice(q).inbox, deferred := [])
  {
    assert Live(Splice(q)) == Live(q);
  }

  lemma TakeBatchKeeps(q: Queues)
    requires QueueInv(q) && q.batch == []
    ensures QueueInv(TakeBatch(q)) && Live(TakeBatch(q)) == Live(q)
  {
    assert Live(TakeBatch(q)) == Live(q);
  }

  lemma DeferKeeps(q: Queues)
    requires QueueInv(q) && q.batch != []
    ensures QueueInv(Defer(q)) && Live(Defer(q)) == Live(q)
  {
    assert Live(Defer(q)) == Live(q);
  }

  /** Consuming takes the head of the batch out of the live events; what stays keeps its order. */
  lemma ConsumeLive(q: Queues)
    requires q.batch != []
    ensures |Live(Consume(q))| == |Live(q)| - 1
    ensures Live(q)[|q.deferred|] == q.batch[0]
    ensures forall i :: 0 <= i < |Live(Consume(q))| ==>
              Live(Consume(q))[i] == Live(q)[if i < |q.deferred| then i else i + 1]
  {
    assert q.batch == [q.batch[0]] + q.batch[1..];
  }

  lemma ConsumeOrdered(q: Queues)
    requires Ordered(q) && q.batch != []
    ensures Ordered(Consume(q))
  {
    ConsumeLive(q);
  }

  lemma ConsumeConserved(q: Queues)
    requires Conserved(q) && q.batch != []
    ensures Conserved(Consume(q))
  {
    var tail := q.batch[1..] + q.inbox;
    assert q.batch == [q.batch[0]] + q.batch[1..];
    assert Live(q) == q.deferred + [q.batch[0]] + tail;
    assert Stamps(Live(q)) == Stamps(q.deferred) + [q.batch[0].at] + Stamps(tail);
    assert Live(Consume(q)) == q.deferred + tail;
    assert Stamps(Live(Consume(q))) == Stamps(q.deferred) + Stamps(tail);
    assert Stamps(Consume(q).consumed) == Stamps(q.consumed) + [q.batch[0].at];
  }

  lemma ConsumeOvertaken(q: Queues)
    requires Ordered(q) && OvertakenOnlyIfHeld(q) && q.batch != []
    ensures OvertakenOnlyIfHeld(Consume(q))
  {
    var r := Consume(q);
    var n := |q.deferred|;
    ConsumeLive(q);
    forall i, c | 0 <= i < |Live(r)| && 0 <= c < |r.consumed| && r.consumed[c].at > Live(r)[i].at
      ensures Live(r)[i].at in r.held
    {
      var k := if i < n then i else i + 1;
      assert Live(q)[k] == Live(r)[i];
      if c < |q.consumed| {
        assert q.consumed[c] == r.consumed[c];
      } else {
        assert Live(q)[n].at > Live(q)[k].at;
        assert k < n;
        assert q.deferred[k] == Live(q)[k];
      }
    }
    forall c, d | 0 <= c < d < |r.consumed| && r.consumed[c].at > r.consumed[d].at
      ensures r.consumed[d].at in r.held
    {
      assert q.consumed[c] == r.consumed[c];
      if d == |q.consumed| {
        assert r.consumed[d] == Live(q)[n];
      }
    }
  }

  lemma ConsumeKeeps(q: Queues)
    requires QueueInv(q) && q.batch != []
    ensures QueueInv(Consume(q))
  {
    ConsumeOrdered(q);
    ConsumeConserved(q);
    ConsumeOvertaken(q);
  }

  /** What has been handled is live no more. */
  lemma ConsumedNotLive(q: Queues, s: Stamped)
    requires QueueInv(q) && s in q.consumed
    ensures s !in Live(q) && s !in q.deferred && s !in q.batch && s !in q.inbox
  {
    assert Live(q) == q.deferred + (q.batch + q.inbox);
    if s in Live(q) {
      var c :| 0 <= c < |q.consumed| && q.consumed[c] == s;
      var i :| 0 <= i < |Live(q)| && Live(q)[i] == s;
      assert Stamps(q.consumed)[c] == s.at && Stamps(Live(q))[i] == s.at;
      assert multiset(Stamps(q.consumed))[s.at] > 0 && multiset(Stamps(Live(q)))[s.at] > 0;
      IotaOnce(q.posted, s.at);
    }
  }

  lemma {:induction false} IotaOnce(n: nat, k: nat)
    ensures multiset(Iota(n))[k] <= 1
  {
    if n > 0 {
      IotaOnce(n - 1, k);
      assert Iota(n) == Iota(n - 1) + [n - 1];
      if k == n - 1 {
        assert k !in Iota(n - 1);
      }
    }
  }
}
