/** When the scheduler sleeps, which timers fire, and what is recorded of the handling order. */
module Scheduling {
  import opened Base
  import opened Time
  import opened Pending
  import opened EventQueues
  import opened Machine
  import opened Frames
  import opened Invariant
  import opened Outcomes
  import opened Runs

  // ---------------------------------------------------------------- sleeping

  predicate TimerMayFire(m: Mod, f: nat) {
    f in m.fib && m.fib[f].waitingTimer && (m.locked.None? || m.locked == Some(f))
  }

  /** The scan finds the least deadline among the timers that may fire, if there is one. */
  lemma {:induction false} NearestIsLeast(m: Mod, order: seq<nat>, best: Option<Timespec>)
    requires forall f <- order :: f in m.fib
    requires forall f <- order :: m.fib[f].waitingTimer ==> Normal(m.fib[f].deadline)
    requires best.Some? ==> Normal(best.value)
    ensures var r := Nearest(m, order, best);
      && (r.None? <==> best.None? && forall f <- order :: !TimerMayFire(m, f))
      && (r.Some? ==>
            Normal(r.value) && (r == best || exists f <- order :: TimerMayFire(m, f) && m.fib[f].deadline == r.value))
      && (r.Some? && best.Some? ==> Total(r.value) <= Total(best.value))
      && (r.Some? ==> forall f <- order :: TimerMayFire(m, f) ==> Total(r.value) <= Total(m.fib[f].deadline))
  {
    if order != [] {
      var fb := m.fib[order[0]];
      var next := if fb.waitingTimer && Eligible(m, order[0]) && (best.None? || Before(fb.deadline, best.value))
                  then Some(fb.deadline) else best;
      if fb.waitingTimer && best.Some? {
        BeforeIsTotalOrder(fb.deadline, best.value);
      }
      NearestIsLeast(m, order[1..], next);
      assert order == [order[0]] + order[1..];
      assert TimerMayFire(m, order[0]) <==> fb.waitingTimer && Eligible(m, order[0]);
    }
  }

  /** There is nothing to do at once: no event but those put off for a live holder of the lock, nobody
      finished but not reaped, and the time to sleep until is the least deadline among the timers that may
      fire; without such a timer it is none. */
  ghost predicate Quiescent(s: Mod)
    requires s.pc.Sleeping?
  {
    && s.q.inbox == [] && s.q.batch == [] && !s.stop && Live(s.q) == s.q.deferred
    && (s.q.deferred != [] ==> s.locked.Some? && s.locked.value in s.fib && !s.fib[s.locked.value].done)
    && (forall f <- s.fib :: !s.fib[f].done)
    && (s.pc.until.None? ==> forall f <- s.fib :: s.fib[f].waitingTimer ==> s.locked.Some? && s.locked != Some(f))
    && (s.pc.until.Some? ==>
          && (exists f <- s.fib :: TimerMayFire(s, f) && s.fib[f].deadline == s.pc.until.value)
          && (forall f <- s.fib :: TimerMayFire(s, f) ==> Total(s.pc.until.value) <= Total(s.fib[f].deadline)))
  }

  /** The scheduler goes to sleep exactly when it is not asked to stop and holds no event it may handle, and
      then there is nothing to do. */
  lemma SleepsOnlyIdle(m: Mod, now: Timespec)
    requires Inv(m) && Enabled(m, Enter(now)) && Sound(m)
    ensures var s := Step(m, Enter(now));
      && (s.pc.Sleeping? <==> !m.stop && m.q.inbox == [] && (m.locked.Some? || m.q.deferred == []))
      && (s.pc.Sleeping? ==> Quiescent(s))
  {
    forall f | f in m.order && m.fib[f].waitingTimer ensures Normal(m.fib[f].deadline) {
      assert FiberOk(f, m.fib[f], false, m.pending);
    }
    NearestIsLeast(m, m.order, None);
    var s := Step(m, Enter(now));
    forall f | f in s.fib ensures TimerMayFire(s, f) <==> TimerMayFire(m, f) {}
  }

  // ---------------------------------------------------------------- timers

  /** A turn of the timer pass fires exactly if the fiber is due and not shut out by the lock; it then
      resumes that fiber and no other, and ends a wait for a reply as timed out. */
  lemma TimerFiresIff(m: Mod)
    requires Inv(m) && m.pc.Timers? && m.current.None? && m.pc.todo != []
    ensures Sound(m)
    ensures var f := m.pc.todo[0];
      var r := DoTimerTurn(m);
      && (r.current == Some(f) <==> TimerMayFire(m, f) && Total(m.fib[f].deadline) <= Total(m.pc.now))
      && (r.current == Some(f) || r == m.(pc := r.pc)) && r.pc == Timers(m.pc.now, m.pc.todo[1..])
      && (r.current == Some(f) && m.fib[f].waitingReply ==>
            r.fib[f].src.result == RequestTimeout && r.fib[f].src.id == m.fib[f].waitId
            && forall e <- r.pending :: e.id != m.fib[f].waitId)
  {
    var f := m.pc.todo[0];
    assert f in m.order;
    assert FiberOk(f, m.fib[f], false, m.pending);
    if m.fib[f].waitingTimer {
      BeforeIsTotalOrder(m.pc.now, m.fib[f].deadline);
    }
    if m.fib[f].waitingReply {
      TakePending(m.pending, m.next, m.fib[f].waitId, m.fib);
    }
  }

  /** The fibers that a stretch of a run gives a turn in its timer pass. */
  function Visited(ms: seq<Mod>, ls: seq<Label>, a: nat, b: nat): seq<nat>
    requires a <= b < |ms| == |ls| + 1
  {
    if a == b then []
    else Visited(ms, ls, a, b - 1)
         + (if ls[b - 1].TimerTurn? && ms[b - 1].pc.Timers? && ms[b - 1].pc.todo != []
            then [ms[b - 1].pc.todo[0]] else [])
  }

  /** One step within a timer pass: the list stays, and a turn takes its fiber off what is still to do. */
  predicate PassStep(m: Mod, l: Label, m': Mod) {
    && m.pc.Timers? && m'.pc.Timers? && m'.order == m.order && m'.pc.now == m.pc.now
    && m'.pc.todo == if l.TimerTurn? && m.pc.todo != [] then m.pc.todo[1..] else m.pc.todo
  }

  lemma TimerPassStep(m: Mod, l: Label, m': Mod)
    requires Next(m, l, m') && m.pc.Timers? && m'.pc.Timers?
    ensures PassStep(m, l, m')
  {
    if l.Act? {
      ActFrame(m, l.a);
    }
  }

  lemma {:induction false} VisitedInOrder(ms: seq<Mod>, ls: seq<Label>, a: nat, b: nat)
    requires a <= b < |ms| == |ls| + 1 && ms[a].pc.Timers?
    requires forall k :: a <= k < b ==> PassStep(ms[k], ls[k], ms[k + 1])
    ensures ms[b].pc.Timers? && ms[b].order == ms[a].order && ms[b].pc.now == ms[a].pc.now
    ensures Visited(ms, ls, a, b) + ms[b].pc.todo == ms[a].pc.todo
    decreases b - a
  {
    if a < b {
      VisitedInOrder(ms, ls, a, b - 1);
      assert PassStep(ms[b - 1], ls[b - 1], ms[b - 1 + 1]);
    }
  }

  /** A timer pass visits every fiber of the list exactly once and in order: what it has visited and what
      it has still to visit is the list it started with, which nothing changes meanwhile. */
  lemma TimerPassVisitsAll(ms: seq<Mod>, ls: seq<Label>, a: nat, b: nat)
    requires IsRun(ms, ls) && a <= b < |ms|
    requires forall k :: a <= k <= b ==> ms[k].pc.Timers?
    requires ms[a].pc.todo == ms[a].order
    ensures ms[b].order == ms[a].order && ms[b].pc.now == ms[a].pc.now
    ensures Visited(ms, ls, a, b) + ms[b].pc.todo == ms[a].order
  {
    forall k | a <= k < b ensures PassStep(ms[k], ls[k], ms[k + 1]) {
      assert Next(ms[k], ls[k], ms[k + 1]);
      TimerPassStep(ms[k], ls[k], ms[k + 1]);
    }
    VisitedInOrder(ms, ls, a, b);
  }

  /** The turn at which a fiber was visited. */
  lemma {:induction false} TurnFor(ms: seq<Mod>, ls: seq<Label>, a: nat, b: nat, f: nat) returns (k: nat)
    requires a <= b < |ms| == |ls| + 1 && f in Visited(ms, ls, a, b)
    ensures a <= k < b && ls[k].TimerTurn? && ms[k].pc.Timers? && ms[k].pc.todo != [] && ms[k].pc.todo[0] == f
    decreases b - a
  {
    if f in Visited(ms, ls, a, b - 1) {
      k := TurnFor(ms, ls, a, b - 1, f);
    } else {
      k := b - 1;
    }
  }

  /** A turn for `f` in a timer pass resumes it exactly if it is due and may fire. */
  ghost predicate FiresAt(m: Mod, m': Mod, f: nat) {
    && m.pc.Timers? && f in m.fib
    && (m'.current == Some(f) <==> TimerMayFire(m, f) && Total(m.fib[f].deadline) <= Total(m.pc.now))
  }

  /** No due timer is missed, in any run: from the start of a timer pass at state `a` to its end at state `b`
      each fiber of the list has a turn, by the clock that the pass began with, and is resumed at that turn
      if it is then due and not shut out by the lock, and not otherwise. */
  lemma DueFires(cfg: Config, ms: seq<Mod>, ls: seq<Label>, a: nat, b: nat, f: nat) returns (k: nat)
    requires RunFrom(cfg, ms, ls) && a <= b < |ms|
    requires forall k :: a <= k <= b ==> ms[k].pc.Timers?
    requires ms[a].pc.todo == ms[a].order && ms[b].pc.todo == [] && f in ms[a].fib
    ensures a <= k < b && ls[k].TimerTurn? && ms[k].pc.Timers? && ms[k].pc.now == ms[a].pc.now
    ensures ms[k].pc.todo != [] && ms[k].pc.todo[0] == f && FiresAt(ms[k], ms[k + 1], f)
  {
    hide Next, Safe, Inv, HistoryInv;
    RunSafe(cfg, ms, ls, a);
    assert f in ms[a].order;
    TimerPassVisitsAll(ms, ls, a, b);
    k := TurnFor(ms, ls, a, b, f);
    ClockStays(ms, ls, a, k);
    RunSafe(cfg, ms, ls, k);
    StepAt(ms, ls, k);
    FiresHere(ms[k], ms[k + 1], f);
  }

  lemma ClockStays(ms: seq<Mod>, ls: seq<Label>, a: nat, k: nat)
    requires IsRun(ms, ls) && a <= k < |ms| && forall i :: a <= i <= k ==> ms[i].pc.Timers?
    requires ms[a].pc.todo == ms[a].order
    ensures ms[k].pc.now == ms[a].pc.now
  {
    hide Next;
    TimerPassVisitsAll(ms, ls, a, k);
  }

  lemma FiresHere(m: Mod, m': Mod, f: nat)
    requires Inv(m) && m.pc.Timers? && m.pc.todo != [] && m.pc.todo[0] == f && Next(m, TimerTurn, m')
    ensures FiresAt(m, m', f)
  {
    hide DoTimerTurn;
    TimerFiresIff(m);
  }

  // ---------------------------------------------------------------- handling order

  /** A fiber's record of handled async replies points into the module's handling order. */
  ghost predicate SlotsOk(fb: Fiber, consumed: seq<Stamped>) {
    && |fb.slots| == |fb.arrived|
    && (forall i :: 0 <= i < |fb.slots| ==>
          && 0 < fb.slots[i] <= |consumed| && consumed[fb.slots[i] - 1].ev.Reply?
          && ArrivalOf(consumed[fb.slots[i] - 1].ev) == fb.arrived[i])
    && (forall i, j :: 0 <= i < j < |fb.slots| ==> fb.slots[i] < fb.slots[j])
  }

  ghost predicate AllSlotsOk(m: Mod) {
    forall f <- m.fib :: SlotsOk(m.fib[f], m.q.consumed)
  }

  lemma SlotsGrow(fb: Fiber, consumed: seq<Stamped>, s: Stamped)
    requires SlotsOk(fb, consumed)
    ensures SlotsOk(fb, consumed + [s])
    ensures s.ev.Reply? ==> SlotsOk(fb.(arrived := fb.arrived + [ArrivalOf(s.ev)],
                                        slots := fb.slots + [|consumed| + 1]), consumed + [s])
  {
    var c := consumed + [s];
    forall i | 0 <= i < |fb.slots| ensures c[fb.slots[i] - 1] == consumed[fb.slots[i] - 1] {}
  }

  lemma SlotsAs(a: Fiber, b: Fiber, consumed: seq<Stamped>)
    requires SameRecord(a, b) && SlotsOk(b, consumed)
    ensures SlotsOk(a, consumed)
  {}

  lemma SlotsReply(m: Mod, m0: Mod, s: Stamped)
    requires AllSlotsOk(m) && s.ev.Reply? && forall p <- m.pending :: p.fid in m.fib
    requires m0 == m.(q := m0.q) && m0.q.consumed == m.q.consumed + [s]
    ensures AllSlotsOk(HandleReply(m0, s.ev))
  {
    hide HandleReply, SlotsOk, Peek, Take, NoteReply;
    var r := HandleReply(m0, s.ev);
    ReplyFrame(m0, s.ev);
    forall f | f in r.fib ensures SlotsOk(r.fib[f], r.q.consumed) {
      var fb := m.fib[f];
      SlotsGrow(fb, m.q.consumed, s);
      if Peek(m.pending, s.ev.id) == Some(f) {
        ReplyRecord(m0, s.ev, f);
        SlotsAs(r.fib[f], if SameRecord(r.fib[f], fb) then fb else WithArrival(m0, fb, s.ev), r.q.consumed);
      }
    }
  }

  lemma NoSlots(e: Event, consumed: seq<Stamped>)
    ensures !e.Reply? ==> SlotsOk(Cleared(NewFiber(e)), consumed)
  {}

  lemma SlotsEvent(m: Mod)
    requires AllSlotsOk(m) && forall p <- m.pending :: p.fid in m.fib
    ensures AllSlotsOk(DoEventTurn(m))
  {
    hide DoEventTurn, HandleReply, SlotsOk;
    EventCases(m);
    if m.q.batch != [] {
      var used := m.(q := Consume(m.q));
      NoSlots(m.q.batch[0].ev, used.q.consumed);
      forall f | f in m.fib ensures SlotsOk(m.fib[f], used.q.consumed) {
        SlotsGrow(m.fib[f], m.q.consumed, m.q.batch[0]);
      }
      if m.q.batch[0].ev.Reply? {
        SlotsReply(m, used, m.q.batch[0]);
      }
    }
  }

  lemma SlotsAct(m: Mod, a: Action)
    requires AllSlotsOk(m) && m.current.Some? && m.current.value in m.fib
    ensures AllSlotsOk(DoAct(m, a))
  {
    var r := DoAct(m, a);
    ActFrame(m, a);
    forall g | g in r.fib ensures SlotsOk(r.fib[g], r.q.consumed) {
      assert SlotsOk(m.fib[g], m.q.consumed);
    }
  }

  lemma SlotsTimer(m: Mod)
    requires AllSlotsOk(m) && m.pc.Timers? && forall f <- m.pc.todo :: f in m.fib
    ensures AllSlotsOk(DoTimerTurn(m))
  {
    if m.pc.todo != [] {
      TimerFrame(m);
    }
  }

  lemma SlotsStep(m: Mod, l: Label, m': Mod)
    requires AllSlotsOk(m) && Next(m, l, m')
    ensures AllSlotsOk(m')
  {
    match l
    case TimerTurn => SlotsTimer(m);
    case EventTurn => SlotsEvent(m);
    case Act(a) => SlotsAct(m, a);
    case _ =>
  }

  ghost predicate SafeAndRecorded(m: Mod) {
    Safe(m) && AllSlotsOk(m)
  }

  lemma RecordInRuns(cfg: Config, ms: seq<Mod>, ls: seq<Label>, i: nat)
    requires RunFrom(cfg, ms, ls) && i < |ms|
    ensures SafeAndRecorded(ms[i])
  {
    hide Safe, Next, SlotsOk;
    forall m, l, m' | SafeAndRecorded(m) && Next(m, l, m') ensures SafeAndRecorded(m') {
      SafeStep(m, l, m');
      SlotsStep(m, l, m');
    }
    InitialSafe(cfg);
    Invariance(ms, ls, SafeAndRecorded, (m, l) => true, 0, i);
  }

  /** In every run a fiber collects its asynchronous replies in the order in which the scheduler handled
      them, whether they were queued or handed over directly: what it has collected, what it holds and
      what is queued for it together are its replies at increasing places of the handling order. */
  lemma CollectionOrder(cfg: Config, ms: seq<Mod>, ls: seq<Label>, i: nat, f: nat)
    requires RunFrom(cfg, ms, ls) && i < |ms| && f in ms[i].fib
    ensures var m := ms[i];
      var fb := m.fib[f];
      var all := fb.collected + Held(fb, m.current == Some(f)) + fb.rq;
      && |fb.slots| == |all|
      && (forall k :: 0 <= k < |all| ==>
            && 0 < fb.slots[k] <= |m.q.consumed| && m.q.consumed[fb.slots[k] - 1].ev.Reply?
            && ArrivalOf(m.q.consumed[fb.slots[k] - 1].ev) == all[k])
      && (forall k, l :: 0 <= k < l < |all| ==> fb.slots[k] < fb.slots[l])
  {
    RecordInRuns(cfg, ms, ls, i);
    var m := ms[i];
    assert FiberHistory(f, m.fib[f], m.current == Some(f), m.hist);
    assert SlotsOk(m.fib[f], m.q.consumed);
  }

  /** In every run every accepted event is in exactly one of inbox, batch, deferred and handled; arrival
      order among those not handled is kept; and an event is overtaken only if a lock put it off. */
  lemma EventsConserved(cfg: Config, ms: seq<Mod>, ls: seq<Label>, i: nat)
    requires RunFrom(cfg, ms, ls) && i < |ms|
    ensures Conserved(ms[i].q) && Ordered(ms[i].q) && OvertakenOnlyIfHeld(ms[i].q)
    ensures ms[i].pc.Stopped? ==> Live(ms[i].q) == ms[i].q.deferred + ms[i].q.inbox
  {
    RunSafe(cfg, ms, ls, i);
  }
}
