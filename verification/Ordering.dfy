/** In which order events are handled and replies collected: who passes whom, and exactly when the order of
    posting is kept. */
module Ordering {
  import opened Base
  import opened EventQueues
  import opened Machine
  import opened Frames
  import opened Invariant
  import opened Outcomes
  import opened Runs
  import opened Scheduling

  // ---------------------------------------------------------------- what a step does to the queues

  ghost predicate QueueMove(q: Queues, l: Label, q': Queues) {
    || q' == q || (l.Arrive? && q' == Post(q, l.ev))
    || (q.batch == [] && (q' == Splice(q) || q' == TakeBatch(q) || q' == TakeBatch(Splice(q))))
    || (q.batch != [] && (q' == Defer(q) || q' == Consume(q)))
  }

  lemma QueueStep(m: Mod, l: Label, m': Mod)
    requires Safe(m) && Next(m, l, m')
    ensures QueueMove(m.q, l, m'.q) && QueueInv(m.q) && QueueInv(m'.q)
  {
    SafeStep(m, l, m');
    match l
    case TimerTurn =>
      if m.pc.todo != [] {
        TimerFrame(m);
      }
    case EventTurn => EventMove(m);
    case Act(a) => ActFrame(m, a);
    case _ =>
  }

  lemma EventMove(m: Mod)
    requires forall p <- m.pending :: p.fid in m.fib
    ensures QueueMove(m.q, EventTurn, DoEventTurn(m).q)
  {
    hide DoEventTurn, HandleReply;
    EventCases(m);
    if m.q.batch != [] && m.q.batch[0].ev.Reply? {
      ReplyFrame(m.(q := Consume(m.q)), m.q.batch[0].ev);
    }
  }

  lemma MoveInRun(cfg: Config, ms: seq<Mod>, ls: seq<Label>, k: nat)
    requires RunFrom(cfg, ms, ls) && k + 1 < |ms|
    ensures k < |ls| && QueueMove(ms[k].q, ls[k], ms[k + 1].q) && QueueInv(ms[k].q) && QueueInv(ms[k + 1].q)
  {
    hide Next;
    RunSafe(cfg, ms, ls, k);
    assert Safe(ms[k]) && Next(ms[k], ls[k], ms[k + 1]);
    QueueStep(ms[k], ls[k], ms[k + 1]);
  }

  /** Accepted events stay known, and what was handled stays handled. */
  lemma MoveKeeps(q: Queues, l: Label, q': Queues)
    requires QueueMove(q, l, q')
    ensures q.consumed <= q'.consumed && |q'.consumed| <= |q.consumed| + 1
    ensures |q'.consumed| > |q.consumed| <==> q.batch != [] && q' == Consume(q)
    ensures forall s :: s in q.consumed + Live(q) ==> s in q'.consumed + Live(q')
  {
    if q.batch != [] {
      assert q.batch == [q.batch[0]] + q.batch[1..];
    }
  }

  // ---------------------------------------------------------------- post order

  predicate Ascending(s: seq<Stamped>) {
    forall c, d :: 0 <= c < d < |s| ==> s[c].at < s[d].at
  }

  /** What has been handled was handled in the order of arrival, and nothing it passed is still waiting. */
  predicate InPostOrder(q: Queues) {
    && Ascending(q.consumed)
    && forall c, i :: 0 <= c < |q.consumed| && 0 <= i < |Live(q)| ==> q.consumed[c].at < Live(q)[i].at
  }

  /** If an event is handled between `q` and `q'`, no other is put off at that time. */
  predicate PassesNone(q: Queues, q': Queues) {
    |q'.consumed| > |q.consumed| ==> q.deferred == []
  }

  predicate NoneAt(ms: seq<Mod>, k: nat)
    requires k + 1 < |ms|
  {
    PassesNone(ms[k].q, ms[k + 1].q)
  }

  lemma ConsumeInOrder(q: Queues)
    requires QueueInv(q) && q.batch != []
    ensures InPostOrder(Consume(q)) <==> InPostOrder(q) && q.deferred == []
  {
    var r, n := Consume(q), |q.deferred|;
    ConsumeLive(q);
    assert r.consumed[|q.consumed|] == q.batch[0];
    if n > 0 {
      assert Live(r)[0] == Live(q)[0] && Live(q)[0].at < Live(q)[n].at;
      assert r.consumed[|q.consumed|].at > Live(r)[0].at;
    } else if InPostOrder(r) {
      forall c, d | 0 <= c < d < |q.consumed| ensures q.consumed[c].at < q.consumed[d].at {
        assert r.consumed[c] == q.consumed[c] && r.consumed[d] == q.consumed[d];
      }
      forall c, i | 0 <= c < |q.consumed| && 0 <= i < |Live(q)| ensures q.consumed[c].at < Live(q)[i].at {
        assert r.consumed[c] == q.consumed[c];
        if i > 0 {
          assert Live(r)[i - 1] == Live(q)[i];
        }
      }
    }
  }

  lemma PostInOrder(q: Queues, e: Event)
    requires QueueInv(q)
    ensures InPostOrder(Post(q, e)) <==> InPostOrder(q)
  {
    var r := Post(q, e);
    PostKeeps(q, e);
    assert forall i :: 0 <= i < |Live(q)| ==> Live(r)[i] == Live(q)[i];
    forall c | 0 <= c < |q.consumed| ensures q.consumed[c].at < q.posted {
      ConsumedBounded(q, c);
    }
  }

  lemma SameLive(q: Queues, q': Queues)
    requires q'.consumed == q.consumed && Live(q') == Live(q)
    ensures InPostOrder(q') <==> InPostOrder(q)
  {}

  lemma OrderMove(q: Queues, l: Label, q': Queues)
    requires QueueInv(q) && QueueMove(q, l, q')
    ensures InPostOrder(q') <==> InPostOrder(q) && PassesNone(q, q')
  {
    hide QueueInv, InPostOrder;
    MoveKeeps(q, l, q');
    if q.batch != [] && q' == Consume(q) {
      ConsumeInOrder(q);
    } else if l.Arrive? && q' == Post(q, l.ev) {
      PostInOrder(q, l.ev);
    } else {
      assert Live(q') == Live(q);
      SameLive(q, q');
    }
  }

  /** Exactly when a module keeps the order of posting, over any run: if it never handles an event while
      another is put off. Locking alone does not break the order, nor does putting events off. */
  lemma {:induction false} PostOrderIff(cfg: Config, ms: seq<Mod>, ls: seq<Label>, i: nat)
    requires RunFrom(cfg, ms, ls) && i < |ms|
    ensures InPostOrder(ms[i].q) <==> forall k :: 0 <= k < i ==> NoneAt(ms, k)
  {
    hide InPostOrder, PassesNone, QueueMove, QueueInv, Next;
    if i == 0 {
      NothingHandled();
    } else {
      PostOrderIff(cfg, ms, ls, i - 1);
      MoveInRun(cfg, ms, ls, i - 1);
      OrderMove(ms[i - 1].q, ls[i - 1], ms[i].q);
      assert NoneAt(ms, i - 1) == PassesNone(ms[i - 1].q, ms[i].q);
    }
  }

  lemma NothingHandled()
    ensures InPostOrder(NO_EVENTS)
  {}

  lemma HeadIsLeast(a: seq<nat>, b: seq<nat>)
    requires a != [] && b != [] && multiset(a) == multiset(b)
    requires forall i, j :: 0 <= i < j < |b| ==> b[i] <= b[j]
    ensures b[0] <= a[0]
  {
    assert a[0] in multiset(b);
    var i :| 0 <= i < |b| && b[i] == a[0];
  }

  lemma TailElements(s: seq<nat>)
    requires s != []
    ensures s == [s[0]] + s[1..] && multiset(s[1..]) == multiset(s) - multiset{s[0]}
  {
    assert s == [s[0]] + s[1..];
  }

  /** Two ascending sequences with the same elements are the same. */
  lemma {:induction false} SortedUnique(a: seq<nat>, b: seq<nat>)
    requires multiset(a) == multiset(b)
    requires forall i, j :: 0 <= i < j < |a| ==> a[i] <= a[j]
    requires forall i, j :: 0 <= i < j < |b| ==> b[i] <= b[j]
    ensures a == b
  {
    assert |a| == |multiset(a)| == |multiset(b)| == |b|;
    if a != [] {
      HeadIsLeast(a, b);
      HeadIsLeast(b, a);
      TailElements(a);
      TailElements(b);
      SortedUnique(a[1..], b[1..]);
    }
  }

  /** The stamps of all the events that were ever accepted. */
  lemma AllStamps(q: Queues)
    requires QueueInv(q)
    ensures var all, n := Stamps(q.consumed + Live(q)), |q.consumed|;
      && multiset(all) == multiset(Iota(q.posted)) && |all| == n + |Live(q)|
      && (forall a :: 0 <= a < n ==> all[a] == q.consumed[a].at)
      && (forall i :: 0 <= i < |Live(q)| ==> all[n + i] == Live(q)[i].at)
  {
    hide Live;
    assert Stamps(q.consumed + Live(q)) == Stamps(q.consumed) + Stamps(Live(q));
  }

  /** In post order the k-th event handled is the k-th accepted, and the rest wait in order behind. */
  lemma PlacesIff(q: Queues)
    requires QueueInv(q)
    ensures InPostOrder(q) <==> Stamps(q.consumed + Live(q)) == Iota(q.posted)
  {
    hide Live, QueueInv, InPostOrder, Stamps;
    AllStamps(q);
    var all := Stamps(q.consumed + Live(q));
    if InPostOrder(q) {
      InPlace(q, all);
      SortedUnique(all, Iota(q.posted));
    } else {
      NotInPlace(q, all);
    }
  }

  lemma InPlace(q: Queues, all: seq<nat>)
    requires QueueInv(q) && InPostOrder(q) && |all| == |q.consumed| + |Live(q)|
    requires forall a :: 0 <= a < |q.consumed| ==> all[a] == q.consumed[a].at
    requires forall i :: 0 <= i < |Live(q)| ==> all[|q.consumed| + i] == Live(q)[i].at
    ensures forall a, b :: 0 <= a < b < |all| ==> all[a] <= all[b]
  {
    hide Live, Conserved, OvertakenOnlyIfHeld;
    var n := |q.consumed|;
    forall a, b | 0 <= a < b < |all| ensures all[a] <= all[b] {
      if a >= n {
        assert all[n + (a - n)] == Live(q)[a - n].at;
      }
      if b >= n {
        assert all[n + (b - n)] == Live(q)[b - n].at;
      }
    }
  }

  lemma NotInPlace(q: Queues, all: seq<nat>)
    requires !InPostOrder(q) && |all| == |q.consumed| + |Live(q)|
    requires forall a :: 0 <= a < |q.consumed| ==> all[a] == q.consumed[a].at
    requires forall i :: 0 <= i < |Live(q)| ==> all[|q.consumed| + i] == Live(q)[i].at
    ensures all != Iota(q.posted)
  {
    hide Live;
  }

  ghost predicate NeverLocks(m: Mod, l: Label) {
    l != Act(Lock)
  }

  ghost predicate NothingHeld(m: Mod) {
    m.locked.None? && m.q.held == {} && m.q.deferred == []
  }

  lemma NothingHeldStep(m: Mod, l: Label, m': Mod)
    requires NothingHeld(m) && NeverLocks(m, l) && Next(m, l, m')
    ensures NothingHeld(m')
  {
    match l
    case Act(a) =>
      ActFrame(m, a);
    case EventTurn =>
      if m.q.batch != [] && m.q.batch[0].ev.Reply? {
        ReplyFrame(m.(q := Consume(m.q)), m.q.batch[0].ev);
      }
    case _ =>
  }

  ghost predicate SafeAndUnheld(m: Mod) {
    Safe(m) && NothingHeld(m)
  }

  lemma UnheldInRuns(cfg: Config, ms: seq<Mod>, ls: seq<Label>, i: nat)
    requires RunFrom(cfg, ms, ls) && i < |ms|
    requires forall k :: 0 <= k < i ==> NeverLocks(ms[k], ls[k])
    ensures SafeAndUnheld(ms[i])
  {
    hide Safe, Next, NeverLocks;
    forall m, l, m' | SafeAndUnheld(m) && NeverLocks(m, l) && Next(m, l, m') ensures SafeAndUnheld(m') {
      SafeInv(m);
      SafeStep(m, l, m');
      NothingHeldStep(m, l, m');
    }
    InitialSafe(cfg);
    Invariance(ms, ls, SafeAndUnheld, NeverLocks, 0, i);
  }

  /** A module that never locks handles events in exactly the order in which they were posted: the k-th
      event it handles is the k-th one accepted, and the rest wait in order behind. */
  lemma PostOrderWithoutLocks(cfg: Config, ms: seq<Mod>, ls: seq<Label>, i: nat)
    requires RunFrom(cfg, ms, ls) && i < |ms|
    requires forall k :: 0 <= k < i ==> NeverLocks(ms[k], ls[k])
    ensures Stamps(ms[i].q.consumed + ms[i].q.batch + ms[i].q.inbox) == Iota(ms[i].q.posted)
  {
    hide Next, Safe, InPostOrder, NeverLocks;
    forall k | 0 <= k < i ensures NoneAt(ms, k) {
      UnheldInRuns(cfg, ms, ls, k);
    }
    UnheldInRuns(cfg, ms, ls, i);
    PostOrderIff(cfg, ms, ls, i);
    var q := ms[i].q;
    QueuesOf(ms[i]);
    PlacesIff(q);
    assert q.consumed + Live(q) == q.consumed + q.batch + q.inbox;
  }

  lemma QueuesOf(m: Mod)
    requires Safe(m)
    ensures QueueInv(m.q)
  {}

  // ---------------------------------------------------------------- who passes whom

  lemma Twice(s: seq<nat>, a: nat, b: nat)
    requires a < b < |s| && s[a] == s[b]
    ensures multiset(s)[s[a]] >= 2
  {
    assert s == s[..b] + s[b..];
    assert s[..b][a] == s[a] && s[b..][0] == s[b];
    assert multiset(s) == multiset(s[..b]) + multiset(s[b..]);
  }

  /** Every stamp given out is that of exactly one event, handled or live. */
  lemma StampsName(q: Queues, n: nat)
    requires QueueInv(q) && n < q.posted
    ensures exists s :: s in q.consumed + Live(q) && s.at == n
    ensures forall a, b :: 0 <= a < b < |q.consumed + Live(q)| ==>
      (q.consumed + Live(q))[a].at != (q.consumed + Live(q))[b].at
  {
    hide Live, QueueInv;
    AllStamps(q);
    var known := q.consumed + Live(q);
    var all := Stamps(known);
    EachOnce(all, q.posted);
    IotaHas(q.posted, n);
    assert n in multiset(all);
    var k :| 0 <= k < |all| && all[k] == n;
    assert known[k] in known;
    forall a, b | 0 <= a < b < |known| ensures known[a].at != known[b].at {
      assert all[a] == known[a].at && all[b] == known[b].at;
    }
  }

  lemma IotaHas(posted: nat, n: nat)
    requires n < posted
    ensures n in multiset(Iota(posted))
  {
    assert Iota(posted)[n] == n;
  }

  lemma EachOnce(all: seq<nat>, posted: nat)
    requires multiset(all) == multiset(Iota(posted))
    ensures forall a, b :: 0 <= a < b < |all| ==> all[a] != all[b]
  {
    forall a, b | 0 <= a < b < |all| ensures all[a] != all[b] {
      if all[a] == all[b] {
        Twice(all, a, b);
        IotaOnce(posted, all[a]);
      }
    }
  }

  lemma {:induction false} StaysKnown(cfg: Config, ms: seq<Mod>, ls: seq<Label>, k: nat, i: nat)
    requires RunFrom(cfg, ms, ls) && k <= i < |ms|
    ensures ms[k].q.consumed <= ms[i].q.consumed
    ensures forall s :: s in ms[k].q.consumed + Live(ms[k].q) ==> s in ms[i].q.consumed + Live(ms[i].q)
    decreases i
  {
    hide QueueMove, QueueInv, Live, RunFrom;
    if k < i {
      StaysKnown(cfg, ms, ls, k, i - 1);
      MoveInRun(cfg, ms, ls, i - 1);
      MoveKeeps(ms[i - 1].q, ls[i - 1], ms[i].q);
      assert i - 1 + 1 == i;
    }
  }

  /** Where in the live events one stands that came before the head of the batch. */
  lemma BeforeHead(q: Queues, t: Stamped)
    requires QueueInv(q) && q.batch != []
    ensures t in q.deferred ==> t.at < q.batch[0].at
    ensures t in Live(q) && t.at < q.batch[0].at ==> t in q.deferred
  {
    var n := |q.deferred|;
    assert Live(q)[n] == q.batch[0];
    if t in q.deferred {
      var i :| 0 <= i < n && q.deferred[i] == t;
      assert Live(q)[i] == t;
    }
    if t in Live(q) && t.at < q.batch[0].at {
      var i :| 0 <= i < |Live(q)| && Live(q)[i] == t;
      assert i < n;
      assert Live(q)[i] == q.deferred[i];
    }
  }

  /** Who passes whom, in every run and with any locks: if one event is handled at step `k` and another after
      it, the later one had come first exactly if it lay among the events put off at step `k`. */
  lemma PassesIff(cfg: Config, ms: seq<Mod>, ls: seq<Label>, k: nat, i: nat, t: Stamped)
    requires RunFrom(cfg, ms, ls) && k < i < |ms| && |ms[k + 1].q.consumed| > |ms[k].q.consumed|
    requires t in ms[i].q.consumed && t !in ms[k + 1].q.consumed
    ensures ms[k].q.batch != [] && ms[k + 1].q.consumed == ms[k].q.consumed + [ms[k].q.batch[0]]
    ensures t.at < ms[k].q.batch[0].at <==> t in ms[k].q.deferred
  {
    var q, r := ms[k].q, ms[i].q;
    MoveInRun(cfg, ms, ls, k);
    MoveKeeps(q, ls[k], ms[k + 1].q);
    BeforeHead(q, t);
    if t.at < q.batch[0].at {
      assert q.batch[0] == Live(q)[|q.deferred|];
      StampsName(q, t.at);
      var s :| s in q.consumed + Live(q) && s.at == t.at;
      StaysKnown(cfg, ms, ls, k, i);
      RunSafe(cfg, ms, ls, i);
      SameStamp(r, s, t);
    }
  }

  lemma SameStamp(q: Queues, s: Stamped, t: Stamped)
    requires QueueInv(q) && s in q.consumed + Live(q) && t in q.consumed && s.at == t.at
    ensures s == t
  {
    var known := q.consumed + Live(q);
    var b :| 0 <= b < |q.consumed| && q.consumed[b] == t;
    ConsumedBounded(q, b);
    StampsName(q, t.at);
    var a :| 0 <= a < |known| && known[a] == s;
    assert known[b] == t;
  }

  // ---------------------------------------------------------------- the order in which a fiber collects

  /** The handled events that were `f`'s asynchronous replies, in the order in which it gets them. */
  ghost function Given(m: Mod, f: nat): (r: seq<Stamped>)
    requires f in m.fib && SlotsOk(m.fib[f], m.q.consumed)
    ensures |r| == |m.fib[f].slots| && forall k :: 0 <= k < |r| ==> r[k] == m.q.consumed[m.fib[f].slots[k] - 1]
  {
    var fb, c := m.fib[f], m.q.consumed;
    seq(|fb.slots|, k requires 0 <= k < |fb.slots| => c[fb.slots[k] - 1])
  }

  /** One of the events `g` is handled between `q` and `q'` while another of them is put off. */
  ghost predicate PassesOne(q: Queues, q': Queues, g: seq<Stamped>) {
    && |q'.consumed| > |q.consumed| && q.batch != [] && q.batch[0] in g
    && exists t <- q.deferred :: t in g
  }

  /** The step at which the `n`-th event was handled. */
  lemma {:induction false} StepHandling(cfg: Config, ms: seq<Mod>, ls: seq<Label>, i: nat, n: nat) returns (k: nat)
    requires RunFrom(cfg, ms, ls) && i < |ms| && n < |ms[i].q.consumed|
    ensures k < i && |ms[k].q.consumed| == n && |ms[k + 1].q.consumed| == n + 1
  {
    hide QueueMove, QueueInv, Next;
    if i == 0 {
      assert false;
    } else {
      MoveInRun(cfg, ms, ls, i - 1);
      MoveKeeps(ms[i - 1].q, ls[i - 1], ms[i].q);
      assert i - 1 + 1 == i;
      if n < |ms[i - 1].q.consumed| {
        k := StepHandling(cfg, ms, ls, i - 1, n);
      } else {
        k := i - 1;
      }
    }
  }

  /** `g` are the events that gave fiber `f` what it has collected, holds and has queued. */
  ghost predicate Gave(m: Mod, f: nat, g: seq<Stamped>)
    requires f in m.fib
  {
    var all := m.fib[f].collected + Held(m.fib[f], m.current == Some(f)) + m.fib[f].rq;
    && |g| == |all|
    && forall k :: 0 <= k < |g| ==> g[k] in m.q.consumed && g[k].ev.Reply? && ArrivalOf(g[k].ev) == all[k]
  }

  lemma GivenGave(cfg: Config, ms: seq<Mod>, ls: seq<Label>, i: nat, f: nat)
    requires RunFrom(cfg, ms, ls) && i < |ms| && f in ms[i].fib
    ensures SlotsOk(ms[i].fib[f], ms[i].q.consumed) && Gave(ms[i], f, Given(ms[i], f))
  {
    hide Next;
    CollectionOrder(cfg, ms, ls, i, f);
    RecordInRuns(cfg, ms, ls, i);
  }

  /** Two replies that a fiber gets in the wrong order: the step that handled the first of them passed the
      other, which was put off. */
  lemma InversionPasses(cfg: Config, ms: seq<Mod>, ls: seq<Label>, i: nat, a: nat, b: nat) returns (k: nat)
    requires RunFrom(cfg, ms, ls) && i < |ms| && a < b < |ms[i].q.consumed|
    requires ms[i].q.consumed[b].at < ms[i].q.consumed[a].at
    ensures k < i && |ms[k + 1].q.consumed| > |ms[k].q.consumed| && ms[k].q.batch != []
    ensures ms[k].q.batch[0] == ms[i].q.consumed[a] && ms[i].q.consumed[b] in ms[k].q.deferred
  {
    hide Next, QueueInv, QueueMove;
    var c := ms[i].q.consumed;
    k := StepHandling(cfg, ms, ls, i, a);
    StaysKnown(cfg, ms, ls, k + 1, i);
    NotTwice(cfg, ms, ls, i, a, b);
    PassesIff(cfg, ms, ls, k, i, c[b]);
  }

  /** The event at place `b` of the handling order is none of the first ones. */
  lemma NotTwice(cfg: Config, ms: seq<Mod>, ls: seq<Label>, i: nat, a: nat, b: nat)
    requires RunFrom(cfg, ms, ls) && i < |ms| && a < b < |ms[i].q.consumed|
    ensures ms[i].q.consumed[b] !in ms[i].q.consumed[..a + 1]
  {
    var q := ms[i].q;
    RunSafe(cfg, ms, ls, i);
    ConsumedBounded(q, b);
    StampsName(q, q.consumed[b].at);
    forall d | 0 <= d <= a ensures q.consumed[d] != q.consumed[b] {
      assert (q.consumed + Live(q))[d] == q.consumed[d] && (q.consumed + Live(q))[b] == q.consumed[b];
    }
  }

  /** Conversely, what passes is handled first and had come later. */
  lemma PassingInverts(cfg: Config, ms: seq<Mod>, ls: seq<Label>, k: nat, i: nat, a: nat, b: nat)
    requires RunFrom(cfg, ms, ls) && k < i < |ms| && |ms[k + 1].q.consumed| > |ms[k].q.consumed|
    requires a < |ms[i].q.consumed| && b < |ms[i].q.consumed| && ms[k].q.batch != []
    requires ms[i].q.consumed[a] == ms[k].q.batch[0] && ms[i].q.consumed[b] in ms[k].q.deferred
    ensures a < b && ms[i].q.consumed[b].at < ms[i].q.consumed[a].at
  {
    hide Next;
    var q, c := ms[k].q, ms[i].q.consumed;
    MoveInRun(cfg, ms, ls, k);
    MoveKeeps(q, ls[k], ms[k + 1].q);
    StaysKnown(cfg, ms, ls, k + 1, i);
    BeforeHead(q, c[b]);
    assert c[|q.consumed|] == q.batch[0];
    if b < |q.consumed| {
      ConsumedNotLive(q, c[b]);
    }
    if a != |q.consumed| {
      var n := |q.consumed|;
      NotTwice(cfg, ms, ls, i, if a < n then a else n, if a < n then n else a);
    }
  }

  lemma NotAscending(g: seq<Stamped>, x: nat, y: nat)
    requires x < y < |g| && g[x].at >= g[y].at
    ensures !Ascending(g)
  {}

  lemma SlotsAre(fb: Fiber, consumed: seq<Stamped>, x: nat, y: nat)
    requires SlotsOk(fb, consumed) && x < |fb.slots| && y < |fb.slots|
    ensures 0 < fb.slots[x] <= |consumed| && 0 < fb.slots[y] <= |consumed|
    ensures fb.slots[x] < fb.slots[y] <==> x < y
  {}

  lemma OneInverts(cfg: Config, ms: seq<Mod>, ls: seq<Label>, k: nat, i: nat, f: nat)
    requires RunFrom(cfg, ms, ls) && k < i < |ms| && f in ms[i].fib && SlotsOk(ms[i].fib[f], ms[i].q.consumed)
    requires PassesOne(ms[k].q, ms[k + 1].q, Given(ms[i], f))
    ensures !Ascending(Given(ms[i], f))
  {
    hide Next, RunFrom, SlotsOk, Given, Ascending;
    var g, slots := Given(ms[i], f), ms[i].fib[f].slots;
    var t :| t in ms[k].q.deferred && t in g;
    var x :| 0 <= x < |g| && g[x] == ms[k].q.batch[0];
    var y :| 0 <= y < |g| && g[y] == t;
    SlotsAre(ms[i].fib[f], ms[i].q.consumed, x, y);
    PassingInverts(cfg, ms, ls, k, i, slots[x] - 1, slots[y] - 1);
    NotAscending(g, x, y);
  }

  lemma DistinctAt(cfg: Config, ms: seq<Mod>, ls: seq<Label>, i: nat, a: nat, b: nat)
    requires RunFrom(cfg, ms, ls) && i < |ms| && a < b < |ms[i].q.consumed|
    ensures ms[i].q.consumed[a].at != ms[i].q.consumed[b].at
  {
    hide Next;
    var q := ms[i].q;
    RunSafe(cfg, ms, ls, i);
    ConsumedBounded(q, b);
    StampsName(q, q.consumed[b].at);
    assert (q.consumed + Live(q))[a] == q.consumed[a] && (q.consumed + Live(q))[b] == q.consumed[b];
  }

  lemma InvertedByOne(cfg: Config, ms: seq<Mod>, ls: seq<Label>, i: nat, f: nat) returns (k: nat)
    requires RunFrom(cfg, ms, ls) && i < |ms| && f in ms[i].fib && SlotsOk(ms[i].fib[f], ms[i].q.consumed)
    requires !Ascending(Given(ms[i], f))
    ensures k < i && PassesOne(ms[k].q, ms[k + 1].q, Given(ms[i], f))
  {
    hide Next, RunFrom, SlotsOk, Given;
    var g := Given(ms[i], f);
    var x, y :| 0 <= x < y < |g| && g[x].at >= g[y].at;
    SlotsAre(ms[i].fib[f], ms[i].q.consumed, x, y);
    var a, b := ms[i].fib[f].slots[x] - 1, ms[i].fib[f].slots[y] - 1;
    DistinctAt(cfg, ms, ls, i, a, b);
    k := InversionPasses(cfg, ms, ls, i, a, b);
    assert g[x] in g && g[y] in g;
  }

  /** Exactly when a fiber gets its asynchronous replies in the order in which they arrived, over any run and
      with any locks: unless one of them is handled while another of them is put off. */
  lemma ArrivalOrderIff(cfg: Config, ms: seq<Mod>, ls: seq<Label>, i: nat, f: nat)
    requires RunFrom(cfg, ms, ls) && i < |ms| && f in ms[i].fib
    ensures SlotsOk(ms[i].fib[f], ms[i].q.consumed) && Gave(ms[i], f, Given(ms[i], f))
    ensures Ascending(Given(ms[i], f))
            <==> forall k :: 0 <= k < i ==> !PassesOne(ms[k].q, ms[k + 1].q, Given(ms[i], f))
  {
    hide Next, SlotsOk, Gave, Given, Ascending, PassesOne;
    GivenGave(cfg, ms, ls, i, f);
    if Ascending(Given(ms[i], f)) {
      forall k | 0 <= k < i ensures !PassesOne(ms[k].q, ms[k + 1].q, Given(ms[i], f)) {
        if PassesOne(ms[k].q, ms[k + 1].q, Given(ms[i], f)) {
          OneInverts(cfg, ms, ls, k, i, f);
        }
      }
    } else {
      var k := InvertedByOne(cfg, ms, ls, i, f);
    }
  }

  /** Where no event is handled while another is put off, and so wherever nobody locks, each fiber gets its
      replies in the order of arrival. */
  lemma CollectionIsArrivalOrder(cfg: Config, ms: seq<Mod>, ls: seq<Label>, i: nat, f: nat)
    requires RunFrom(cfg, ms, ls) && i < |ms| && f in ms[i].fib
    requires forall k :: 0 <= k < i ==> NoneAt(ms, k)
    ensures SlotsOk(ms[i].fib[f], ms[i].q.consumed)
    ensures Gave(ms[i], f, Given(ms[i], f)) && Ascending(Given(ms[i], f))
  {
    hide Next, SlotsOk, Gave, Given, Ascending;
    ArrivalOrderIff(cfg, ms, ls, i, f);
    forall k | 0 <= k < i ensures !PassesOne(ms[k].q, ms[k + 1].q, Given(ms[i], f)) {
      assert NoneAt(ms, k);
    }
  }
}
