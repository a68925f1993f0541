/** What every reachable state of a module satisfies: who may be waiting for what, what each fiber's
    counter counts, which entries and references exist. */
module Invariant {
  import opened Base
  import opened Time
  import opened Pending
  import opened EventQueues
  import opened Machine

  predicate Idle(fb: Fiber) {
    !fb.waitingReply && !fb.waitingTimer && !fb.waitingAny
  }

  /** The wait flags of a fiber that has yielded say in which call it did. */
  predicate Parked(fb: Fiber) {
    match fb.point
    case AtUser => false
    case AtRequest => fb.waitingReply && !fb.waitingAny
    case AtSleep => fb.waitingTimer && !fb.waitingReply && !fb.waitingAny
    case AtWait => fb.waitingAny && !fb.waitingReply && !fb.waitingTimer
  }

  /** `async_outstanding` counts the fiber's non-blocking entries, its queued replies, and the one reply
      a resumed collector has not yet returned with. */
  predicate Accounted(f: nat, fb: Fiber, running: bool, pending: seq<Entry>) {
    fb.outstanding == Count(pending, f) - (if fb.waitingReply then 1 else 0)
                      + |fb.rq| + (if running && fb.point == AtWait then 1 else 0)
  }

  ghost predicate FiberOk(f: nat, fb: Fiber, running: bool, pending: seq<Entry>) {
    && (if running then Idle(fb) && !fb.done else if fb.done then Idle(fb) else Parked(fb))
    && (fb.waitingReply ==> Entry(fb.waitId, f) in pending)
    && (fb.waitingAny ==> fb.rq == [] && fb.outstanding > 0)
    && (fb.waitingTimer ==> Normal(fb.deadline))
    && Accounted(f, fb, running, pending)
  }

  ghost predicate FibersOk(fib: map<nat, Fiber>, current: Option<nat>, pending: seq<Entry>) {
    && (current.Some? ==> current.value in fib)
    && forall f <- fib :: FiberOk(f, fib[f], current == Some(f), pending)
  }

  ghost predicate PendingOk(pending: seq<Entry>, next: nat, fib: map<nat, Fiber>) {
    && WireDistinct(pending)
    && (forall p <- pending :: InWindow(p.id, next))
    && (forall p <- pending :: p.fid in fib)
  }

  ghost predicate RepliesOk(live: seq<Stamped>, next: nat) {
    forall s <- live :: s.ev.Reply? ==> InWindow(s.ev.id, next)
  }

  ghost predicate ListOk(order: seq<nat>, fib: map<nat, Fiber>, nextFid: nat) {
    && (forall i, j :: 0 <= i < j < |order| ==> order[i] != order[j])
    && (forall f :: f in order <==> f in fib)
    && (forall f <- fib :: f < nextFid)
  }

  ghost predicate ShapeOk(m: Mod) {
    && (!m.pc.Timers? && !m.pc.Events? ==> m.q.batch == [] && m.current.None?)
    && (m.pc.Top? || m.pc.Sleeping? || m.pc.Stopped? ==> forall f <- m.fib :: !m.fib[f].done)
    && (m.pc.Timers? ==> Normal(m.pc.now) && |m.pc.todo| <= |m.order|
                         && m.pc.todo == m.order[|m.order| - |m.pc.todo|..])
    && (m.locked.Some? ==> m.locked.value in m.fib)
  }

  ghost predicate FiberInv(m: Mod) {
    && ListOk(m.order, m.fib, m.hist.nextFid)
    && FibersOk(m.fib, m.current, m.pending)
    && PendingOk(m.pending, m.next, m.fib)
    && ShapeOk(m)
  }

  ghost predicate Inv(m: Mod) {
    && FiberInv(m)
    && RepliesOk(Live(m.q), m.next)
    && QueueInv(m.q)
  }

  lemma InvSound(m: Mod)
    requires Inv(m)
    ensures Sound(m)
  {}

  lemma InitialInv(cfg: Config)
    ensures Inv(Initial(cfg))
  {
    hide QueueInv, Live;
    NothingPosted();
  }

  // ---------------------------------------------------------------- changes to the pending table

  /** A new entry for a fresh id leaves the table well-formed. */
  lemma PushPending(p: seq<Entry>, next: nat, f: nat, fib: map<nat, Fiber>)
    requires PendingOk(p, next, fib)
    requires forall e <- p :: next < e.id + ID_SPACE
    requires f in fib
    ensures PendingOk([Entry(next, f)] + p, next + 1, fib)
    ensures forall g: nat :: Count([Entry(next, f)] + p, g) == Count(p, g) + (if g == f then 1 else 0)
  {
    var r := [Entry(next, f)] + p;
    forall i, j | 0 <= i < j < |r| ensures Wire(r[i].id) != Wire(r[j].id) {
      assert r[j] == p[j - 1] && r[j] in p;
      if i == 0 && Wire(next) == Wire(r[j].id) {
        WireInjective(next, r[j].id, next + 1);
      }
    }
    forall g: nat ensures Count(r, g) == Count(p, g) + (if g == f then 1 else 0) {
      CountPush(Entry(next, f), p, g);
    }
  }

  /** Taking a live id out of the table removes exactly the entry of that id. */
  lemma TakePending(p: seq<Entry>, next: nat, id: nat, fib: map<nat, Fiber>)
    requires PendingOk(p, next, fib) && InWindow(id, next)
    ensures PendingOk(Take(p, id), next, fib)
    ensures Peek(p, id).Some? ==> Entry(id, Peek(p, id).value) in p
    ensures forall f: nat :: Entry(id, f) in p ==> Peek(p, id) == Some(f)
    ensures forall e :: e in Take(p, id) <==> e in p && e.id != id
    ensures forall f: nat :: Count(Take(p, id), f) == Count(p, f) - (if Peek(p, id) == Some(f) then 1 else 0)
  {
    TakeExact(p, id);
    forall e | e in p && Wire(e.id) == Wire(id) ensures e.id == id {
      WireInjective(e.id, id, next);
    }
    if Peek(p, id).Some? {
      PeekFindsEntry(p, id);
    }
    forall f: nat ensures Count(Take(p, id), f) == Count(p, f) - (if Peek(p, id) == Some(f) then 1 else 0) {
      TakeCount(p, id, f);
    }
  }

  // ---------------------------------------------------------------- steps of the scheduler

  lemma ArriveInv(m: Mod, e: Event)
    requires Inv(m) && Enabled(m, Arrive(e))
    ensures Inv(Step(m, Arrive(e)))
  {
    PostKeeps(m.q, e);
  }

  lemma ProceedInv(m: Mod, now: Timespec)
    requires Inv(m) && (m.pc.Top? || m.pc.Sleeping?) && Normal(now)
    ensures Inv(Proceed(m, now))
  {
    TakeBatchKeeps(m.q);
  }

  lemma EnterInv(m: Mod, now: Timespec)
    requires Inv(m) && Enabled(m, Enter(now))
    ensures Inv(Step(m, Enter(now)))
  {
    SpliceKeeps(m.q);
    var m1 := if m.locked.None? && m.q.deferred != [] then m.(q := Splice(m.q)) else m;
    ProceedInv(m1, now);
  }

  /** Changing one fiber, the table and who runs keeps every fiber in order if the others keep their
      entries and the changed one fits its new state. */
  lemma FibersUpdate(fib: map<nat, Fiber>, current: Option<nat>, pending: seq<Entry>,
                     f: nat, fb: Fiber, current': Option<nat>, pending': seq<Entry>)
    requires FibersOk(fib, current, pending)
    requires current == None || current == Some(f)
    requires current' == None || current' == Some(f)
    requires forall g <- fib :: g != f ==> Count(pending', g) == Count(pending, g)
    requires forall g <- fib :: g != f && fib[g].waitingReply ==> Entry(fib[g].waitId, g) in pending'
    requires FiberOk(f, fb, current' == Some(f), pending')
    ensures FibersOk(fib[f := fb], current', pending')
  {
    forall g | g in fib && g != f ensures FiberOk(g, fib[g], false, pending') {
      assert FiberOk(g, fib[g], false, pending);
    }
  }

  /** The table keeps its form when one fiber changes. */
  lemma PendingUpdate(pending: seq<Entry>, next: nat, fib: map<nat, Fiber>, f: nat, fb: Fiber)
    requires PendingOk(pending, next, fib)
    ensures PendingOk(pending, next, fib[f := fb])
  {}

  lemma ListUpdate(order: seq<nat>, fib: map<nat, Fiber>, nextFid: nat, f: nat, fb: Fiber)
    requires ListOk(order, fib, nextFid) && f in fib
    ensures ListOk(order, fib[f := fb], nextFid)
  {}

  /** The effect of taking `id`, owned by `f`, on every other fiber: none. */
  lemma TakeFrame(m: Mod, id: nat, f: nat)
    requires FiberInv(m) && m.current.None? && Entry(id, f) in m.pending
    ensures forall g <- m.fib :: g != f ==> Count(Take(m.pending, id), g) == Count(m.pending, g)
    ensures forall g <- m.fib :: g != f && m.fib[g].waitingReply ==> Entry(m.fib[g].waitId, g) in Take(m.pending, id)
    ensures Count(Take(m.pending, id), f) == Count(m.pending, f) - 1
    ensures PendingOk(Take(m.pending, id), m.next, m.fib)
  {
    TakePending(m.pending, m.next, id, m.fib);
    forall g | g in m.fib && g != f && m.fib[g].waitingReply
      ensures Entry(m.fib[g].waitId, g) in Take(m.pending, id)
    {
      assert FiberOk(g, m.fib[g], false, m.pending);
      assert m.fib[g].waitId != id;
    }
  }

  /** What a handled reply to a pending id makes of the fiber that owns it. */
  lemma ReplyFiber(m: Mod, m0: Mod, e: Event, f: nat)
    requires FiberInv(m) && m.pc.Events? && m.current.None? && e.Reply?
    requires m0 == m.(q := m0.q) && Entry(e.id, f) in m.pending
    ensures Sound(m0)
    ensures var r := HandleReply(m0, e);
      && r.pending == Take(m.pending, e.id) && f in r.fib && r.fib == m.fib[f := r.fib[f]]
      && (r.current == None || r.current == Some(f))
      && FiberOk(f, r.fib[f], r.current == Some(f), r.pending)
      && r.order == m.order && r.locked == m.locked && r.pc == m.pc && r.next == m.next && r.q == m0.q
      && r.hist.nextFid == m.hist.nextFid
  {
    TakePending(m.pending, m.next, e.id, m.fib);
    TakeFrame(m, e.id, f);
    var fb := m.fib[f];
    assert FiberOk(f, fb, false, m.pending);
    if fb.waitingReply && Wire(fb.waitId) == Wire(e.id) {
      WireInjective(fb.waitId, e.id, m.next);
    }
  }

  lemma ReplyInv(m: Mod, m0: Mod, e: Event)
    requires FiberInv(m) && m.pc.Events? && m.current.None? && e.Reply? && InWindow(e.id, m.next)
    requires m0 == m.(q := m0.q)
    ensures var r := HandleReply(m0, e); FiberInv(r) && r.q == m0.q && r.next == m.next
  {
    TakePending(m.pending, m.next, e.id, m.fib);
    var peek := Peek(m.pending, e.id);
    if peek.Some? {
      var f := peek.value;
      ReplyFiber(m, m0, e, f);
      var r := HandleReply(m0, e);
      TakeFrame(m, e.id, f);
      FibersUpdate(m.fib, None, m.pending, f, r.fib[f], r.current, r.pending);
      PendingUpdate(r.pending, r.next, m.fib, f, r.fib[f]);
      assert ListOk(r.order, r.fib, r.hist.nextFid);
    }
  }

  /** A timer that fires leaves its fiber running, and ends the wait for a reply if there was one. */
  lemma TimerFiber(m: Mod, f: nat)
    requires FiberInv(m) && m.current.None? && f in m.fib && m.fib[f].waitingTimer
    ensures !m.fib[f].done
    ensures var fb := m.fib[f];
      var pending := if fb.waitingReply then Take(m.pending, fb.waitId) else m.pending;
      && FiberOk(f, Cleared(fb), true, pending) && FiberOk(f, Cleared(fb.(src := TimeoutSource(fb))), true, pending)
      && PendingOk(pending, m.next, m.fib)
      && FibersOk(m.fib[f := Cleared(fb)], Some(f), pending)
      && FibersOk(m.fib[f := Cleared(fb.(src := TimeoutSource(fb)))], Some(f), pending)
  {
    var fb := m.fib[f];
    assert FiberOk(f, fb, false, m.pending);
    var pending := m.pending;
    if fb.waitingReply {
      TakeFrame(m, fb.waitId, f);
      pending := Take(m.pending, fb.waitId);
    } else {
      forall g | g in m.fib && m.fib[g].waitingReply ensures Entry(m.fib[g].waitId, g) in m.pending {
        assert FiberOk(g, m.fib[g], false, m.pending);
      }
    }
    FibersUpdate(m.fib, None, m.pending, f, Cleared(fb), Some(f), pending);
    FibersUpdate(m.fib, None, m.pending, f, Cleared(fb.(src := TimeoutSource(fb))), Some(f), pending);
  }

  lemma TimerFiredInv(m: Mod)
    requires FiberInv(m) && m.pc.Timers? && m.current.None? && m.pc.todo != []
    requires m.pc.todo[0] in m.fib && Due(m.fib[m.pc.todo[0]], m.pc.now) && Eligible(m, m.pc.todo[0])
    requires forall f <- m.pc.todo :: f in m.fib
    requires ShapeOk(m.(pc := m.pc.(todo := m.pc.todo[1..])))
    ensures FiberInv(DoTimerTurn(m)) && DoTimerTurn(m).q == m.q && DoTimerTurn(m).next == m.next
  {
    var f := m.pc.todo[0];
    var r := DoTimerTurn(m);
    TimerFiber(m, f);
    PendingUpdate(r.pending, r.next, m.fib, f, r.fib[f]);
    ListUpdate(m.order, m.fib, m.hist.nextFid, f, r.fib[f]);
  }

  lemma TimerTurnInv(m: Mod)
    requires FiberInv(m) && m.pc.Timers? && m.current.None? && forall f <- m.pc.todo :: f in m.fib
    ensures FiberInv(DoTimerTurn(m)) && DoTimerTurn(m).q == m.q && DoTimerTurn(m).next == m.next
  {
    if m.pc.todo != [] {
      assert m.pc.todo[1..] == m.order[|m.order| - |m.pc.todo[1..]|..];
      assert ShapeOk(m.(pc := m.pc.(todo := m.pc.todo[1..])));
      if Due(m.fib[m.pc.todo[0]], m.pc.now) && Eligible(m, m.pc.todo[0]) {
        TimerFiredInv(m);
      } else {
        assert DoTimerTurn(m) == m.(pc := m.pc.(todo := m.pc.todo[1..]));
      }
    }
  }

  lemma SpawnInv(m: Mod, m0: Mod, e: Event)
    requires FiberInv(m) && m.pc.Events? && m.current.None? && !e.Reply?
    requires m0 == m.(q := m0.q)
    ensures FiberInv(Spawn(m0, e))
  {
    var f := m.hist.nextFid;
    var r := Spawn(m0, e);
    CountZero(m.pending, f);
    FibersUpdate(m.fib, None, m.pending, f, r.fib[f], r.current, m.pending);
    PendingUpdate(m.pending, m.next, m.fib, f, r.fib[f]);
    assert r.fib == m.fib[f := r.fib[f]];
  }

  /** Handling or putting off the head of the batch leaves the other replies in the window. */
  lemma HeadLeaves(q: Queues, next: nat)
    requires QueueInv(q) && RepliesOk(Live(q), next) && q.batch != []
    ensures QueueInv(Consume(q)) && RepliesOk(Live(Consume(q)), next)
    ensures QueueInv(Defer(q)) && RepliesOk(Live(Defer(q)), next)
    ensures q.batch[0].ev.Reply? ==> InWindow(q.batch[0].ev.id, next)
  {
    ConsumeKeeps(q);
    ConsumeLive(q);
    DeferKeeps(q);
    assert Live(q)[|q.deferred|] in Live(q);
    forall s | s in Live(Consume(q)) ensures s in Live(q) {
      var i :| 0 <= i < |Live(Consume(q))| && Live(Consume(q))[i] == s;
      assert Live(q)[if i < |q.deferred| then i else i + 1] == s;
    }
  }

  lemma QueueOnly(m: Mod, q: Queues)
    requires Inv(m) && m.pc.Events?
    requires QueueInv(q) && RepliesOk(Live(q), m.next)
    ensures Inv(m.(q := q))
  {}

  lemma EventTurnInv(m: Mod)
    requires Inv(m) && m.pc.Events? && m.current.None? && forall p <- m.pending :: p.fid in m.fib
    ensures Inv(DoEventTurn(m))
  {
    if m.q.batch != [] {
      var e := m.q.batch[0].ev;
      HeadLeaves(m.q, m.next);
      QueueOnly(m, Consume(m.q));
      QueueOnly(m, Defer(m.q));
      var used := m.(q := Consume(m.q));
      hide FiberInv, QueueInv, RepliesOk, HandleReply;
      if e.Reply? {
        ReplyInv(m, used, e);
      } else {
        SpawnInv(m, used, e);
      }
    }
  }

  lemma {:induction false} AliveKeeps(order: seq<nat>, fib: map<nat, Fiber>)
    requires forall f <- order :: f in fib
    requires forall i, j :: 0 <= i < j < |order| ==> order[i] != order[j]
    ensures forall f :: f in Alive(order, fib) <==> f in order && !fib[f].done
    ensures forall i, j :: 0 <= i < j < |Alive(order, fib)| ==> Alive(order, fib)[i] != Alive(order, fib)[j]
  {
    if order != [] {
      AliveKeeps(order[1..], fib);
      assert order == [order[0]] + order[1..];
    }
  }

  lemma ReapInv(m: Mod)
    requires Inv(m) && Enabled(m, Reap)
    ensures Inv(Step(m, Reap))
  {
    AliveKeeps(m.order, m.fib);
  }

  // ---------------------------------------------------------------- steps of the running fiber

  /** The running fiber changes only itself; the table stays. */
  lemma RunnerInv(m: Mod, r: Mod, f: nat, fb: Fiber)
    requires FiberInv(m) && m.current == Some(f) && (r.current == None || r.current == Some(f))
    requires r.fib == m.fib[f := fb] && r.order == m.order && r.hist.nextFid == m.hist.nextFid
    requires r.pending == m.pending && r.next == m.next && r.pc == m.pc && r.q == m.q
    requires r.locked == m.locked || r.locked == None || r.locked == Some(f)
    requires FiberOk(f, fb, r.current == Some(f), m.pending)
    ensures FiberInv(r)
  {
    hide ListOk;
    ListUpdate(m.order, m.fib, m.hist.nextFid, f, fb);
    FibersUpdate(m.fib, m.current, m.pending, f, fb, r.current, m.pending);
    CountZero(m.pending, f);
  }

  /** The running fiber allocates an id and enters it in the table. */
  lemma IssueInv(m: Mod, r: Mod, f: nat, fb: Fiber)
    requires FiberInv(m) && m.current == Some(f) && (r.current == None || r.current == Some(f))
    requires forall e <- m.pending :: m.next < e.id + ID_SPACE
    requires r.fib == m.fib[f := fb] && r.order == m.order && r.hist.nextFid == m.hist.nextFid
    requires r.pending == [Entry(m.next, f)] + m.pending && r.next == m.next + 1 && r.pc == m.pc
    requires r.q == m.q && r.locked == m.locked
    requires FiberOk(f, fb, r.current == Some(f), r.pending)
    ensures FiberInv(r)
  {
    PushPending(m.pending, m.next, f, m.fib);
    ListUpdate(m.order, m.fib, m.hist.nextFid, f, fb);
    PendingUpdate(r.pending, r.next, m.fib, f, fb);
    forall g | g in m.fib && g != f && m.fib[g].waitingReply ensures Entry(m.fib[g].waitId, g) in r.pending {
      assert FiberOk(g, m.fib[g], false, m.pending);
    }
    FibersUpdate(m.fib, m.current, m.pending, f, fb, r.current, r.pending);
  }

  lemma RequestInv(m: Mod, a: Action)
    requires FiberInv(m) && a.Request? && m.current.Some? && MayAct(m, a)
    ensures FiberInv(DoAct(m, a))
  {
    var f := m.current.value;
    var r := DoAct(m, a);
    assert FiberOk(f, m.fib[f], true, m.pending);
    CountPush(Entry(m.next, f), m.pending, f);
    if a.timeout.Some? {
      AddMsExact(a.now, a.timeout.value);
    }
    IssueInv(m, r, f, r.fib[f]);
  }

  lemma RequestAsyncInv(m: Mod, a: Action)
    requires FiberInv(m) && a.RequestAsync? && m.current.Some? && MayAct(m, a)
    ensures FiberInv(DoAct(m, a))
  {
    var f := m.current.value;
    var r := DoAct(m, a);
    assert FiberOk(f, m.fib[f], true, m.pending);
    CountPush(Entry(m.next, f), m.pending, f);
    IssueInv(m, r, f, r.fib[f]);
  }

  lemma SendInv(m: Mod, a: Action)
    requires FiberInv(m) && a.Send? && m.current.Some? && MayAct(m, a)
    ensures FiberInv(DoAct(m, a))
  {}

  lemma WaitReplyInv(m: Mod)
    requires FiberInv(m) && m.current.Some? && MayAct(m, WaitReply)
    ensures FiberInv(DoWaitReply(m))
  {
    var f := m.current.value;
    var fb := m.fib[f];
    var r := DoWaitReply(m);
    assert FiberOk(f, fb, true, m.pending);
    if fb.outstanding != 0 || fb.rq != [] {
      RunnerInv(m, r, f, r.fib[f]);
    }
  }

  lemma ContinueInv(m: Mod)
    requires FiberInv(m) && m.current.Some? && MayAct(m, Continue)
    ensures FiberInv(DoContinue(m))
  {
    var f := m.current.value;
    var r := DoContinue(m);
    assert FiberOk(f, m.fib[f], true, m.pending);
    RunnerInv(m, r, f, r.fib[f]);
  }

  lemma SleepInv(m: Mod, a: Action)
    requires FiberInv(m) && a.Sleep? && m.current.Some? && MayAct(m, a)
    ensures FiberInv(DoAct(m, a))
  {
    var f := m.current.value;
    var r := DoAct(m, a);
    assert FiberOk(f, m.fib[f], true, m.pending);
    AddMsExact(a.now, a.ms);
    RunnerInv(m, r, f, r.fib[f]);
  }

  lemma ReturnInv(m: Mod)
    requires FiberInv(m) && m.current.Some? && MayAct(m, Return)
    ensures FiberInv(DoAct(m, Return))
  {
    var f := m.current.value;
    var r := DoAct(m, Return);
    assert FiberOk(f, m.fib[f], true, m.pending);
    RunnerInv(m, r, f, r.fib[f]);
  }

  /** Sending, answering, locking and the notify registry leave every fiber as it is. */
  lemma PlainInv(m: Mod, a: Action)
    requires FiberInv(m) && m.current.Some? && MayAct(m, a)
    requires a.Answer? || a.Lock? || a.Unlock? || a.Register? || a.Unregister? || a.Publish?
    ensures FiberInv(DoAct(m, a))
  {}

  lemma ActInv(m: Mod, a: Action)
    requires FiberInv(m) && m.current.Some? && MayAct(m, a)
    ensures FiberInv(DoAct(m, a))
  {
    match a
    case Continue => ContinueInv(m);
    case Request(_, _, _, _, _) => RequestInv(m, a);
    case RequestAsync(_, _, _) => RequestAsyncInv(m, a);
    case Send(_, _, _) => SendInv(m, a);
    case WaitReply => WaitReplyInv(m);
    case Sleep(_, _) => SleepInv(m, a);
    case Return => ReturnInv(m);
    case _ => PlainInv(m, a);
  }

  lemma ActQueues(m: Mod, a: Action)
    requires m.current.Some? && m.current.value in m.fib && MayAct(m, a) && RepliesOk(Live(m.q), m.next)
    ensures DoAct(m, a).q == m.q && RepliesOk(Live(m.q), DoAct(m, a).next)
  {}

  /** Every step keeps the invariant. */
  lemma StepInv(m: Mod, l: Label)
    requires Inv(m) && Enabled(m, l)
    ensures Sound(m) && Inv(Step(m, l))
  {
    InvSound(m);
    match l
    case Arrive(e) => ArriveInv(m, e);
    case Enter(now) => EnterInv(m, now);
    case Wake(now) => ProceedInv(m, now);
    case TimerTurn => TimerTurnInv(m);
    case EventTurn => EventTurnInv(m);
    case Reap => ReapInv(m);
    case Act(a) =>
      ActInv(m, a);
      ActQueues(m, a);
    case _ =>
  }
}
