/** What the scheduler does at each of its points, said of the state before and after, and what that comes to in
    whole runs: who is started, what is put off, when the module stops. */
module Turns {
  import opened Base
  import opened Time
  import opened Pending
  import opened EventQueues
  import opened Machine
  import opened Frames
  import opened Invariant
  import opened Outcomes
  import opened Runs
  import opened Steps
  import opened Scheduling
  import opened Ordering

  // ---------------------------------------------------------------- a turn of the event loop

  /** What `coseq_source` shows to a sequence that event `e` has started. */
  predicate Introduces(e: Event, src: Source) {
    match e
    case Start(s, id, r, msg) => src == Source(r % 256, s, id, Ignore, 0, msg)
    case Notify(_, c, from, msg) => src == Source(from % 256, 0, 0, Success, c, msg)
    case Reply(_, _, _, _, _) => false
  }

  /** Nothing is asked, awaited, queued or collected yet. */
  predicate JustMade(fb: Fiber) {
    && !fb.waitingReply && !fb.waitingTimer && !fb.waitingAny && fb.outstanding == 0 && fb.rq == [] && !fb.done
    && fb.point == AtUser && fb.firstRun && fb.arrived == [] && fb.slots == [] && fb.collected == []
  }

  predicate TakesOff(q: Queues, q': Queues) {
    q.batch != [] && q' == q.(batch := q.batch[1..], consumed := q.consumed + [q.batch[0]])
  }

  predicate PutsOff(q: Queues, q': Queues) {
    && q.batch != []
    && q' == q.(batch := q.batch[1..], deferred := q.deferred + [q.batch[0]], held := q.held + {q.batch[0].at})
  }

  /** The module is as before but for its queues. */
  predicate OnlyQueues(m: Mod, m': Mod) {
    m' == m.(q := m'.q)
  }

  /** A new fiber stands at the head of the list and runs; it was started by `e` and is shown that. */
  ghost predicate Starts(m: Mod, m': Mod, e: Event) {
    var f := m.hist.nextFid;
    && f !in m.fib && f in m'.fib && m'.fib == m.fib[f := m'.fib[f]]
    && m'.order == [f] + m.order && m'.current == Some(f)
    && StartedBy(m'.fib[f], e) && Introduces(e, m'.fib[f].src) && JustMade(m'.fib[f])
    && m'.hist == m.hist.(nextFid := f + 1, born := m.hist.born[f := e])
    && m' == m.(q := m'.q, order := m'.order, fib := m'.fib, current := m'.current, hist := m'.hist)
  }

  /** What a reply does to the fiber whose it is: it completes the blocked request of its id, or wakes the
      collector, and is shown; or else it goes to the end of the fiber's queue. */
  ghost predicate Reaches(m: Mod, m': Mod, f: nat, e: Event)
    requires e.Reply?
  {
    && f in m.fib && f in m'.fib && m'.fib == m.fib[f := m'.fib[f]]
    && var fb, fb' := m.fib[f], m'.fib[f];
    && var wakes := (fb.waitingReply && fb.waitId == e.id) || fb.waitingAny;
    && (if wakes then
          && m'.current == Some(f) && !fb'.waitingReply && !fb'.waitingTimer && !fb'.waitingAny && fb'.rq == fb.rq
          && fb'.src == Source(e.from % 256, fb.seqIdx, e.id, e.result, 0, e.msg)
        else
          && m'.current == m.current && fb'.src == fb.src && fb'.rq == fb.rq + [Arrival(e.id, e.result, e.msg)]
          && fb'.waitingReply == fb.waitingReply && fb'.waitingTimer == fb.waitingTimer)
    && fb' == fb.(src := fb'.src, waitingReply := fb'.waitingReply, waitingTimer := fb'.waitingTimer,
                  waitingAny := fb'.waitingAny, rq := fb'.rq, arrived := fb'.arrived, slots := fb'.slots)
    && (forall x: Entry :: x in m'.pending <==> x in m.pending && x.id != e.id)
    && m' == m.(q := m'.q, pending := m'.pending, fib := m'.fib, current := m'.current, hist := m'.hist)
  }

  /** Whom a reply is for, if anybody waits for it. */
  ghost predicate For(m: Mod, e: Event, f: nat)
    requires e.Reply?
  {
    Entry(e.id, f) in m.pending
  }

  ghost predicate StartTurn(m: Mod, m': Mod, e: Event)
    requires e.Start?
  {
    if m.locked.Some? then PutsOff(m.q, m'.q) && OnlyQueues(m, m')
    else TakesOff(m.q, m'.q) && if e.seqIdx < m.cfg.nrSeq then Starts(m, m', e) else OnlyQueues(m, m')
  }

  ghost predicate NotifyTurn(m: Mod, m': Mod, e: Event)
    requires e.Notify?
  {
    TakesOff(m.q, m'.q) && if m.cfg.hasNotify then Starts(m, m', e) else OnlyQueues(m, m')
  }

  ghost predicate ReplyTurn(m: Mod, m': Mod, e: Event)
    requires e.Reply?
  {
    if m.locked.Some? && !For(m, e, m.locked.value) then PutsOff(m.q, m'.q) && OnlyQueues(m, m')
    else
      && TakesOff(m.q, m'.q)
      && (forall f: nat :: For(m, e, f) ==> Reaches(m, m', f, e))
      && ((forall f: nat :: !For(m, e, f)) ==> m' == m.(q := m'.q, hist := m'.hist))
  }

  lemma NewFiberIs(m: Mod, e: Event)
    requires Inv(m) && !e.Reply?
    ensures var m' := Spawn(m, e); Starts(m, m', e) && m'.q == m.q
  {}

  lemma NonReplyTurn(m: Mod)
    requires Inv(m) && m.q.batch != [] && !m.q.batch[0].ev.Reply? && forall p <- m.pending :: p.fid in m.fib
    ensures var e, m' := m.q.batch[0].ev, DoEventTurn(m);
      (e.Start? ==> StartTurn(m, m', e)) && (e.Notify? ==> NotifyTurn(m, m', e))
  {
    hide Inv, Spawn, HandleReply, Starts;
    var e := m.q.batch[0].ev;
    NewFiberIs(m, e);
    StartsFrom(m, m.(q := Consume(m.q)), e);
  }

  lemma StartsFrom(m: Mod, used: Mod, e: Event)
    requires Inv(m) && used == m.(q := used.q) && !e.Reply?
    ensures Starts(m, Spawn(used, e), e) && Spawn(used, e).q == used.q
  {}

  /** A reply's id is in the table as the fiber's exactly if searching finds that fiber. */
  lemma PeekIs(m: Mod, id: nat)
    requires FiberInv(m) && InWindow(id, m.next)
    ensures forall f: nat :: Entry(id, f) in m.pending <==> Peek(m.pending, id) == Some(f)
    ensures forall x :: x in Take(m.pending, id) <==> x in m.pending && x.id != id
  {
    TakePending(m.pending, m.next, id, m.fib);
  }

  lemma ReachesIs(m: Mod, used: Mod, e: Event, f: nat)
    requires FiberInv(m) && m.pc.Events? && m.current.None? && e.Reply? && InWindow(e.id, m.next) && Sound(m)
    requires used == m.(q := used.q) && Peek(m.pending, e.id) == Some(f)
    ensures Reaches(m, HandleReply(used, e), f, e) && HandleReply(used, e).q == used.q
  {
    PeekIs(m, e.id);
    ReplyCases(used, e, f);
  }

  lemma ReplyTurnIs(m: Mod)
    requires Inv(m) && m.pc.Events? && m.current.None? && Sound(m) && m.q.batch != [] && m.q.batch[0].ev.Reply?
    ensures ReplyTurn(m, DoEventTurn(m), m.q.batch[0].ev)
  {
    hide DoEventTurn, HandleReply, FiberInv, QueueInv, RepliesOk, Reaches;
    EventCases(m);
    var e, used := m.q.batch[0].ev, m.(q := Consume(m.q));
    HeadLeaves(m.q, m.next);
    PeekIs(m, e.id);
    assert m.locked.Some? ==> (For(m, e, m.locked.value) <==> Peek(m.pending, e.id) == m.locked);
    if Peek(m.pending, e.id).Some? {
      var f := Peek(m.pending, e.id).value;
      ReachesIs(m, used, e, f);
      assert For(m, e, f);
      assert forall g: nat :: For(m, e, g) ==> g == f;
    } else {
      ReplyFrame(used, e);
    }
  }

  /** What the event loop does with the next event of the batch, and with the end of the batch. */
  lemma EventTurnIs(m: Mod, m': Mod)
    requires Inv(m) && Next(m, EventTurn, m')
    ensures m.q.batch == [] ==> m' == m.(pc := Reaping)
    ensures m.q.batch != [] ==>
      var e := m.q.batch[0].ev;
      match e
      case Start(_, _, _, _) => StartTurn(m, m', e)
      case Notify(_, _, _, _) => NotifyTurn(m, m', e)
      case Reply(_, _, _, _, _) => ReplyTurn(m, m', e)
  {
    hide StartTurn, NotifyTurn, ReplyTurn, HandleReply, Spawn, Inv;
    if m.q.batch != [] {
      if m.q.batch[0].ev.Reply? {
        ReplyTurnIs(m);
      } else {
        NonReplyTurn(m);
      }
    }
  }

  // ---------------------------------------------------------------- the other points of the loop

  /** The fiber has been resumed by its timer; a request it waited for is shown as timed out. */
  ghost predicate TimesOut(m: Mod, m': Mod, f: nat) {
    && f in m.fib && f in m'.fib && m'.fib == m.fib[f := m'.fib[f]] && m'.current == Some(f)
    && var fb, fb' := m.fib[f], m'.fib[f];
    && fb' == fb.(src := fb'.src, waitingReply := false, waitingTimer := false, waitingAny := false)
    && fb'.src == (if fb.waitingReply then Source(0, fb.seqIdx, fb.waitId, RequestTimeout, 0, []) else fb.src)
    && (forall x: Entry :: x in m'.pending <==> x in m.pending && !(fb.waitingReply && x.id == fb.waitId))
    && (!fb.waitingReply ==> m'.hist == m.hist)
    && m' == m.(pc := m'.pc, pending := m'.pending, fib := m'.fib, current := m'.current, hist := m'.hist)
  }

  /** The time of the fiber has come, by the clock of the pass, and no lock shuts it out. */
  predicate TimerUp(m: Mod, f: nat)
    requires m.pc.Timers?
  {
    && f in m.fib && m.fib[f].waitingTimer && Total(m.fib[f].deadline) <= Total(m.pc.now)
    && (m.locked.None? || m.locked == Some(f))
  }

  /** What the timer loop does with the next fiber of the list, and with its end. */
  lemma TimerTurnIs(m: Mod, m': Mod)
    requires Inv(m) && Next(m, TimerTurn, m')
    ensures m.pc.todo == [] ==> m' == m.(pc := Pc.Events)
    ensures m.pc.todo != [] ==>
      var f := m.pc.todo[0];
      && f in m.fib && m'.pc == Timers(m.pc.now, m.pc.todo[1..])
      && if TimerUp(m, f) then TimesOut(m, m', f) else m' == m.(pc := m'.pc)
  {
    if m.pc.todo == [] {
      TimersOver(m);
    } else {
      FiringIs(m);
    }
  }

  lemma FiringIs(m: Mod)
    requires FiberInv(m) && m.pc.Timers? && m.current.None? && m.pc.todo != [] && Sound(m)
    ensures var f, m' := m.pc.todo[0], DoTimerTurn(m);
      && f in m.fib && m'.pc == Timers(m.pc.now, m.pc.todo[1..])
      && if TimerUp(m, f) then TimesOut(m, m', f) else m' == m.(pc := m'.pc)
  {
    hide SetStage, Take, FiberInv, Before, Sound;
    SoundList(m);
    NextTimer(m);
  }

  lemma SoundList(m: Mod)
    requires Sound(m) && m.pc.Timers?
    ensures forall f <- m.pc.todo :: f in m.fib
  {}

  /** Its deadline is compared as the time it stands for, and its id, if it waits for one, is its own. */
  lemma NextTimer(m: Mod)
    requires FiberInv(m) && m.pc.Timers? && m.current.None? && m.pc.todo != [] && forall f <- m.pc.todo :: f in m.fib
    ensures var fb := m.fib[m.pc.todo[0]];
      && (fb.waitingTimer ==> (Due(fb, m.pc.now) <==> Total(fb.deadline) <= Total(m.pc.now)))
      && (fb.waitingReply ==> forall x :: x in Take(m.pending, fb.waitId) <==> x in m.pending && x.id != fb.waitId)
  {
    var f := m.pc.todo[0];
    assert FiberOk(f, m.fib[f], false, m.pending);
    if m.fib[f].waitingTimer {
      BeforeIsTotalOrder(m.pc.now, m.fib[f].deadline);
    }
    if m.fib[f].waitingReply {
      PeekIs(m, m.fib[f].waitId);
    }
  }

  /** `a` stands somewhere before `b`. */
  ghost predicate Precedes(s: seq<nat>, a: nat, b: nat) {
    exists i, j :: 0 <= i < j < |s| && s[i] == a && s[j] == b
  }

  lemma {:induction false} AliveOrder(order: seq<nat>, fib: map<nat, Fiber>)
    requires forall f <- order :: f in fib
    ensures forall f :: f in Alive(order, fib) <==> f in order && !fib[f].done
    ensures forall i, j :: 0 <= i < j < |order| && !fib[order[i]].done && !fib[order[j]].done ==>
      Precedes(Alive(order, fib), order[i], order[j])
  {
    if order != [] {
      var rest, kept := order[1..], Alive(order[1..], fib);
      AliveOrder(rest, fib);
      var all := Alive(order, fib);
      assert order == [order[0]] + rest;
      forall i, j | 0 <= i < j < |order| && !fib[order[i]].done && !fib[order[j]].done
        ensures Precedes(all, order[i], order[j])
      {
        if i == 0 {
          assert order[j] == rest[j - 1] && order[j] in kept;
          var k :| 0 <= k < |kept| && kept[k] == order[j];
          assert all[0] == order[0] && all[k + 1] == order[j];
        } else {
          assert order[i] == rest[i - 1] && order[j] == rest[j - 1];
          OneInFront(kept, all, order[i], order[j]);
        }
      }
    }
  }

  lemma OneInFront(kept: seq<nat>, all: seq<nat>, a: nat, b: nat)
    requires Precedes(kept, a, b) && (all == kept || (|all| == |kept| + 1 && all[1..] == kept))
    ensures Precedes(all, a, b)
  {
    var i, j :| 0 <= i < j < |kept| && kept[i] == a && kept[j] == b;
    if all != kept {
      assert all[i + 1] == kept[i] && all[j + 1] == kept[j];
    }
  }

  /** What the reaper does: finished fibers go, and the lock if one of them holds it; the others stay as they
      are, in their order. */
  lemma ReapIs(m: Mod, m': Mod)
    requires Inv(m) && Next(m, Label.Reap, m')
    ensures forall f :: f in m'.fib <==> f in m.fib && !m.fib[f].done
    ensures forall f <- m'.fib :: m'.fib[f] == m.fib[f]
    ensures forall f :: f in m'.order <==> f in m.order && !m.fib[f].done
    ensures forall i, j :: 0 <= i < j < |m.order| && !m.fib[m.order[i]].done && !m.fib[m.order[j]].done ==>
      Precedes(m'.order, m.order[i], m.order[j])
    ensures m'.locked == if m.locked.Some? && m.fib[m.locked.value].done then None else m.locked
    ensures m' == m.(fib := m'.fib, order := m'.order, locked := m'.locked, pc := Top)
  {
    AliveOrder(m.order, m.fib);
  }

  /** What is to be handled next after the splice, and what stays put off. */
  function ToHandle(m: Mod): seq<Stamped> {
    if m.locked.None? then m.q.deferred + m.q.inbox else m.q.inbox
  }

  function StillOff(m: Mod): seq<Stamped> {
    if m.locked.None? then [] else m.q.deferred
  }

  /** What the top of the loop does: events put off go in front of the inbox if nobody holds the lock; asked to
      stop, it stops and leaves everything there; with nothing to handle it sleeps; or else it takes all there
      is and begins a pass with the whole list of fibers. */
  lemma EnterIs(m: Mod, now: Timespec, m': Mod)
    requires Inv(m) && Next(m, Enter(now), m')
    ensures m'.pc.Stopped? <==> m.stop
    ensures m.stop ==> m' == m.(q := m.q.(inbox := ToHandle(m), deferred := StillOff(m)), pc := Stopped)
    ensures !m.stop && ToHandle(m) == [] ==>
      m'.pc.Sleeping? && m' == m.(q := m.q.(inbox := [], deferred := StillOff(m)), pc := m'.pc)
    ensures !m.stop && ToHandle(m) != [] ==>
      m' == m.(q := m.q.(batch := ToHandle(m), inbox := [], deferred := StillOff(m)), pc := Timers(now, m.order))
    ensures Live(m'.q) == Live(m.q)
  {
    hide Nearest, Live, FiberInv, QueueInv, RepliesOk;
    NoBatch(m);
    LiveStep(m.q);
    LiveStep(Splice(m.q));
  }

  lemma NoBatch(m: Mod)
    requires FiberInv(m) && (m.pc.Top? || m.pc.Sleeping?)
    ensures m.q.batch == [] && m.current.None?
  {}

  /** And the end of the wait. */
  lemma WakeIs(m: Mod, now: Timespec, m': Mod)
    requires Inv(m) && Next(m, Wake(now), m')
    ensures m'.pc.Stopped? <==> m.stop
    ensures m.stop ==> m' == m.(pc := Stopped)
    ensures !m.stop ==> m' == m.(q := m.q.(batch := m.q.inbox, inbox := []), pc := Timers(now, m.order))
    ensures Live(m'.q) == Live(m.q)
  {
    assert m.q.batch == [];
    assert Live(m'.q) == Live(m.q);
  }

  // ---------------------------------------------------------------- stopping

  lemma StopStep(m: Mod, l: Label, m': Mod)
    requires Safe(m) && Next(m, l, m')
    ensures m'.stop <==> m.stop || l.AskStop?
    ensures m.pc.Stopped? ==> m'.pc.Stopped? && (l.Arrive? || l.AskStop?)
    ensures m'.pc.Stopped? && !m.pc.Stopped? ==> m.stop && (l.Enter? || l.Wake?)
  {
    hide DoEventTurn, DoTimerTurn, DoAct, Nearest, Alive, HistoryInv, HandleReply;
    match l
    case EventTurn =>
      EventCases(m);
      if m.q.batch != [] && m.q.batch[0].ev.Reply? {
        ReplyFrame(m.(q := Consume(m.q)), m.q.batch[0].ev);
      }
    case TimerTurn =>
      if m.pc.todo == [] {
        TimersOver(m);
      } else {
        TimerFrame(m);
      }
    case Act(a) => ActFrame(m, a);
    case _ =>
  }

  /** A module is asked to stop exactly by somebody's asking, and it is not forgotten. */
  lemma {:induction false} StopIffAsked(cfg: Config, ms: seq<Mod>, ls: seq<Label>, i: nat)
    requires RunFrom(cfg, ms, ls) && i < |ms|
    ensures i <= |ls| && (ms[i].stop <==> exists k :: 0 <= k < i && ls[k] == AskStop)
  {
    hide Next, Safe;
    if i > 0 {
      StepAt(ms, ls, i - 1);
      StopIffAsked(cfg, ms, ls, i - 1);
      SafeAt(cfg, ms, ls, i - 1);
      StopStep(ms[i - 1], ls[i - 1], ms[i]);
    }
  }

  lemma SafeAt(cfg: Config, ms: seq<Mod>, ls: seq<Label>, i: nat)
    requires RunFrom(cfg, ms, ls) && i < |ms|
    ensures Safe(ms[i])
  {
    RunSafe(cfg, ms, ls, i);
  }

  /** Once asked, a module stops the next time it comes to the top of its loop or out of its wait, with no batch
      under way and every event not yet handled still there. */
  lemma StopsNext(cfg: Config, ms: seq<Mod>, ls: seq<Label>, i: nat, j: nat)
    requires RunFrom(cfg, ms, ls) && i < j < |ls| && ls[i] == AskStop && (ls[j].Enter? || ls[j].Wake?)
    ensures ms[j + 1].pc.Stopped? && ms[j + 1].q.batch == [] && Live(ms[j + 1].q) == Live(ms[j].q)
    ensures ms[j + 1] == ms[j].(q := ms[j + 1].q, pc := Stopped)
  {
    hide Next, HistoryInv, Inv;
    StepAt(ms, ls, j);
    StopIffAsked(cfg, ms, ls, j);
    RunSafe(cfg, ms, ls, j);
    RunSafe(cfg, ms, ls, j + 1);
    if ls[j].Enter? {
      EnterIs(ms[j], ls[j].now, ms[j + 1]);
    } else {
      WakeIs(ms[j], ls[j].now, ms[j + 1]);
    }
    StoppedEmpty(ms[j + 1]);
  }

  lemma StoppedEmpty(m: Mod)
    requires Inv(m) && m.pc.Stopped?
    ensures m.q.batch == [] && m.current.None?
  {}

  /** It stops only if asked, and then does nothing any more; only events still come in. */
  lemma {:induction false} StaysStopped(cfg: Config, ms: seq<Mod>, ls: seq<Label>, i: nat, j: nat)
    requires RunFrom(cfg, ms, ls) && i <= j < |ms| && ms[i].pc.Stopped?
    ensures ms[i].stop && ms[j].pc.Stopped? && j <= |ls|
    ensures forall k :: i <= k < j ==> ls[k].Arrive? || ls[k].AskStop?
    decreases j
  {
    hide Next, Safe;
    if i < j {
      StepAt(ms, ls, j - 1);
      StaysStopped(cfg, ms, ls, i, j - 1);
      SafeAt(cfg, ms, ls, j - 1);
      StopStep(ms[j - 1], ls[j - 1], ms[j]);
    } else if i > 0 {
      StepAt(ms, ls, i - 1);
      SafeAt(cfg, ms, ls, i - 1);
      StopStep(ms[i - 1], ls[i - 1], ms[i]);
      if ms[i - 1].pc.Stopped? {
        StaysStopped(cfg, ms, ls, i - 1, i - 1);
      }
    }
  }

  // ---------------------------------------------------------------- who is started

  lemma {:induction false} BornStays(cfg: Config, ms: seq<Mod>, ls: seq<Label>, k: nat, i: nat, f: nat)
    requires RunFrom(cfg, ms, ls) && k <= i < |ms| && f in ms[k].hist.born
    ensures f in ms[i].hist.born && ms[i].hist.born[f] == ms[k].hist.born[f] && f < ms[i].hist.nextFid
    decreases i
  {
    hide Next, Safe;
    if k < i {
      StepAt(ms, ls, i - 1);
      BornStays(cfg, ms, ls, k, i - 1, f);
      SafeAt(cfg, ms, ls, i - 1);
      BornStep(ms[i - 1], ls[i - 1], ms[i], f);
    } else {
      BornBelow(cfg, ms, ls, k);
    }
  }

  lemma BornStep(m: Mod, l: Label, m': Mod, f: nat)
    requires Safe(m) && Next(m, l, m')
    ensures m.hist.nextFid <= m'.hist.nextFid
    ensures f in m.hist.born && f < m.hist.nextFid ==> f in m'.hist.born && m'.hist.born[f] == m.hist.born[f]
    ensures f in m'.hist.born ==> f in m.hist.born || f < m'.hist.nextFid
  {
    if !l.Arrive? {
      LocalStepOf(m, l, m');
    }
  }

  lemma {:induction false} BornBelow(cfg: Config, ms: seq<Mod>, ls: seq<Label>, k: nat)
    requires RunFrom(cfg, ms, ls) && k < |ms|
    ensures forall f <- ms[k].hist.born :: f < ms[k].hist.nextFid
  {
    hide Next, Safe;
    if k > 0 {
      StepAt(ms, ls, k - 1);
      BornBelow(cfg, ms, ls, k - 1);
      SafeAt(cfg, ms, ls, k - 1);
      forall f | f in ms[k].hist.born ensures f < ms[k].hist.nextFid {
        BornStep(ms[k - 1], ls[k - 1], ms[k], f);
      }
    }
  }

  /** Step `k` begins a fiber of its own for the event `s`, which stays recorded as the one that started it. */
  ghost predicate BeginsFiber(ms: seq<Mod>, k: nat, i: nat, e: Event)
    requires k + 1 <= i < |ms|
  {
    var f := ms[k].hist.nextFid;
    f !in ms[k].fib && ms[k + 1].current == Some(f) && f in ms[i].hist.born && ms[i].hist.born[f] == e
  }

  /** No START is lost to a lock: one that has been handled was handled at a turn at which nobody held the lock,
      and it then began a fiber exactly if its sequence exists. */
  lemma StartServed(cfg: Config, ms: seq<Mod>, ls: seq<Label>, i: nat, s: Stamped) returns (k: nat)
    requires RunFrom(cfg, ms, ls) && i < |ms| && s in ms[i].q.consumed && s.ev.Start?
    ensures k < i <= |ls| && ls[k] == EventTurn && ms[k].q.batch != [] && ms[k].q.batch[0] == s
    ensures ms[k].locked.None? && (BeginsFiber(ms, k, i, s.ev) <==> s.ev.seqIdx < ms[k].cfg.nrSeq)
  {
    hide Next, Safe, QueueMove, QueueInv;
    var n :| 0 <= n < |ms[i].q.consumed| && ms[i].q.consumed[n] == s;
    k := StepHandling(cfg, ms, ls, i, n);
    StepAt(ms, ls, k);
    MoveInRun(cfg, ms, ls, k);
    MoveKeeps(ms[k].q, ls[k], ms[k + 1].q);
    StaysKnown(cfg, ms, ls, k + 1, i);
    assert ms[k + 1].q.consumed[n] == s;
    SafeAt(cfg, ms, ls, k);
    HandledByTurn(ms[k], ls[k], ms[k + 1]);
    StartHandled(ms[k], ms[k + 1]);
    if s.ev.seqIdx < ms[k].cfg.nrSeq {
      BornStays(cfg, ms, ls, k + 1, i, ms[k].hist.nextFid);
    }
  }

  lemma HandledByTurn(m: Mod, l: Label, m': Mod)
    requires Safe(m) && Next(m, l, m') && |m'.q.consumed| > |m.q.consumed|
    ensures l == EventTurn
  {
    hide DoTimerTurn, DoAct, Nearest, Alive;
    match l
    case TimerTurn =>
      if m.pc.todo == [] {
        TimersOver(m);
      } else {
        TimerFrame(m);
      }
    case Act(a) => ActFrame(m, a);
    case _ =>
  }

  lemma StartHandled(m: Mod, m': Mod)
    requires Safe(m) && Next(m, EventTurn, m') && m.q.batch != [] && m.q.batch[0].ev.Start?
    requires m'.q.consumed == m.q.consumed + [m.q.batch[0]]
    ensures m.locked.None?
    ensures var e, f := m.q.batch[0].ev, m.hist.nextFid;
      && f !in m.fib
      && (e.seqIdx < m.cfg.nrSeq ==> m'.current == Some(f) && f in m'.hist.born && m'.hist.born[f] == e)
      && (e.seqIdx >= m.cfg.nrSeq ==> m'.current == None)
  {
    EventTurnIs(m, m');
  }

  // ---------------------------------------------------------------- every event has its turn

  /** How a batch is worked through: the next state's batch is this one or lacks its head, which the step took. */
  lemma BatchStep(m: Mod, l: Label, m': Mod)
    requires Safe(m) && Next(m, l, m') && m.pc.Events?
    ensures if l == EventTurn && m.q.batch != [] then m'.q.batch == m.q.batch[1..] && m'.pc.Events?
            else m'.q.batch == m.q.batch && (m'.pc == m.pc || (l == EventTurn && m'.pc.Reaping?))
  {
    hide DoEventTurn, DoAct, HandleReply;
    match l
    case EventTurn =>
      EventCases(m);
      if m.q.batch != [] && m.q.batch[0].ev.Reply? {
        ReplyFrame(m.(q := Consume(m.q)), m.q.batch[0].ev);
      }
    case Act(a) => ActFrame(m, a);
    case _ =>
  }

  /** Whatever the fibers do in between, by the end of the event loop each event of the batch has had its turn. */
  lemma {:induction false} HasItsTurn(cfg: Config, ms: seq<Mod>, ls: seq<Label>, i: nat, j: nat, n: nat)
    returns (k: nat)
    requires RunFrom(cfg, ms, ls) && i <= j < |ms| && ms[i].pc.Events? && ms[j].pc.Reaping? && n < |ms[i].q.batch|
    requires forall x :: i <= x < j ==> ms[x].pc.Events?
    ensures i <= k < j <= |ls| && ls[k] == EventTurn && ms[k].q.batch != [] && ms[k].q.batch[0] == ms[i].q.batch[n]
    decreases j - i
  {
    hide Next, Safe;
    StepAt(ms, ls, i);
    SafeAt(cfg, ms, ls, i);
    SafeAt(cfg, ms, ls, j);
    BatchStep(ms[i], ls[i], ms[i + 1]);
    if ls[i] == EventTurn && n == 0 {
      k := i;
    } else if i + 1 == j {
      k := i;
    } else {
      k := HasItsTurn(cfg, ms, ls, i + 1, j, if ls[i] == EventTurn then n - 1 else n);
    }
  }
}
