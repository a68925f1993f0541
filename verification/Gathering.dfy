/** `coseq_gather`: collecting every outstanding asynchronous reply of a fiber while everything else in
    the module, and around it, goes on. */
module Gathering {
  import opened Base
  import opened Time
  import opened Pending
  import opened EventQueues
  import opened Machine
  import opened Frames
  import opened Invariant
  import opened Outcomes
  import opened Runs
  import opened Scheduling
  import opened Collecting

  /** The ids of the asynchronous requests that the fiber has still to be given the reply of. */
  ghost function Outstanding(m: Mod, f: nat): set<nat>
    requires f in m.fib
  {
    Owed(m.pending, f, m.fib[f], m.current == Some(f))
  }

  function Owed(p: seq<Entry>, f: nat, fb: Fiber, running: bool): set<nat> {
    OpenIds(p, f, fb) + QueuedIds(fb.rq) + QueuedIds(Held(fb, running))
  }

  /** Since it had collected `c0`, the fiber has collected or has outstanding exactly `ids`, `n` in all. */
  ghost predicate Ledger(m: Mod, f: nat, c0: seq<Arrival>, n: int, ids: set<nat>) {
    && f in m.fib && !m.fib[f].done && c0 <= m.fib[f].collected
    && |m.fib[f].collected| - |c0| + m.fib[f].outstanding == n
    && QueuedIds(m.fib[f].collected[|c0|..]) + Outstanding(m, f) == ids
  }

  /** The fiber does not start another asynchronous request, and does not finish. */
  ghost predicate OnlyGathers(m: Mod, l: Label, f: nat) {
    l.Act? && m.current == Some(f) ==> !l.a.RequestAsync? && !l.a.Return?
  }

  /** As far as the fiber's outstanding replies go, nothing happened. */
  ghost predicate Untouched(m: Mod, m': Mod, f: nat) {
    && f in m.fib && f in m'.fib && m'.fib[f] == m.fib[f]
    && (m'.current == Some(f) <==> m.current == Some(f))
    && (forall e: Entry :: e.fid == f ==> (e in m'.pending <==> e in m.pending))
  }

  lemma UntouchedLedger(m: Mod, m': Mod, f: nat, c0: seq<Arrival>, n: int, ids: set<nat>)
    requires Ledger(m, f, c0, n, ids) && Untouched(m, m', f)
    ensures Ledger(m', f, c0, n, ids)
  {
    assert OpenIds(m'.pending, f, m'.fib[f]) == OpenIds(m.pending, f, m.fib[f]);
  }

  lemma QueuedIdsConcat(a: seq<Arrival>, b: seq<Arrival>)
    ensures QueuedIds(a + b) == QueuedIds(a) + QueuedIds(b)
  {}

  /** Outstanding ids may change places without being collected. */
  lemma LedgerMove(m: Mod, r: Mod, f: nat, c0: seq<Arrival>, n: int, ids: set<nat>)
    requires Ledger(m, f, c0, n, ids) && f in r.fib && !r.fib[f].done
    requires r.fib[f].collected == m.fib[f].collected && r.fib[f].outstanding == m.fib[f].outstanding
    requires Outstanding(r, f) == Outstanding(m, f)
    ensures Ledger(r, f, c0, n, ids)
  {}

  /** Whether an entry of the fiber counts as asynchronous. */
  predicate Counts(e: Entry, f: nat, fb: Fiber) {
    e.fid == f && !(fb.waitingReply && e.id == fb.waitId)
  }

  lemma OpenSame(p: seq<Entry>, p': seq<Entry>, f: nat, fb: Fiber, fb': Fiber)
    requires forall e: Entry :: e in p' && Counts(e, f, fb') <==> e in p && Counts(e, f, fb)
    ensures OpenIds(p', f, fb') == OpenIds(p, f, fb)
  {
    forall id | id in OpenIds(p', f, fb') ensures id in OpenIds(p, f, fb) {
      var e :| e in p' && Counts(e, f, fb') && e.id == id;
      assert e in p && Counts(e, f, fb);
    }
    forall id | id in OpenIds(p, f, fb) ensures id in OpenIds(p', f, fb') {
      var e :| e in p && Counts(e, f, fb) && e.id == id;
      assert e in p' && Counts(e, f, fb');
    }
  }

  lemma OpenTaken(p: seq<Entry>, p': seq<Entry>, id: nat, f: nat, fb: Fiber, fb': Fiber)
    requires Entry(id, f) in p && Counts(Entry(id, f), f, fb)
    requires forall e: Entry :: e in p' && Counts(e, f, fb') <==> e in p && e.id != id && Counts(e, f, fb)
    ensures OpenIds(p', f, fb') + {id} == OpenIds(p, f, fb)
  {
    forall k | k in OpenIds(p', f, fb') ensures k in OpenIds(p, f, fb) {
      var e :| e in p' && Counts(e, f, fb') && e.id == k;
      assert e in p && Counts(e, f, fb);
    }
    forall k | k in OpenIds(p, f, fb) && k != id ensures k in OpenIds(p', f, fb') {
      var e :| e in p && Counts(e, f, fb) && e.id == k;
      assert e in p' && Counts(e, f, fb');
    }
    assert Entry(id, f).id in OpenIds(p, f, fb);
  }

  lemma QueuedIdsPush(s: seq<Arrival>, a: Arrival)
    ensures QueuedIds(s + [a]) == QueuedIds(s) + {a.id}
  {
    QueuedIdsConcat(s, [a]);
    assert QueuedIds([a]) == {a.id};
  }

  /** The table without the entry of a blocked request: that entry never counted. */
  lemma OpenUnblocked(p: seq<Entry>, p': seq<Entry>, id: nat, f: nat, fb: Fiber, s: Source)
    requires forall e: Entry :: e in p' <==> e in p && e.id != id
    requires fb.waitingReply && fb.waitId == id && fb.point == AtRequest
    ensures Owed(p', f, Cleared(fb.(src := s)), true) == Owed(p, f, fb, false)
  {
    OpenSame(p, p', f, fb, Cleared(fb.(src := s)));
  }

  /** The table without the entry of an asynchronous request: its id is in the fiber's hand or queue. */
  lemma OpenHanded(m: Mod, p: seq<Entry>, p': seq<Entry>, e: Event, f: nat, fb: Fiber)
    requires e.Reply? && Entry(e.id, f) in p && !(fb.waitingReply && fb.waitId == e.id)
    requires forall x: Entry :: x in p' <==> x in p && x.id != e.id
    ensures var fb' := Cleared(WithArrival(m, fb, e).(src := ReplySource(fb, e)));
      !fb.waitingReply && fb.point == AtWait ==> Owed(p', f, fb', true) == Owed(p, f, fb, false)
    ensures var fb' := WithArrival(m, fb, e).(rq := fb.rq + [ArrivalOf(e)]);
      Owed(p', f, fb', false) == Owed(p, f, fb, false)
  {
    var woken := Cleared(WithArrival(m, fb, e).(src := ReplySource(fb, e)));
    var queued := WithArrival(m, fb, e).(rq := fb.rq + [ArrivalOf(e)]);
    OpenTaken(p, p', e.id, f, fb, queued);
    QueuedIdsPush(fb.rq, ArrivalOf(e));
    if !fb.waitingReply {
      OpenTaken(p, p', e.id, f, fb, woken);
      HeldIds(woken, true);
    }
  }

  /** A reply of the fiber moves from the table to its queue or into its hand. */
  lemma OutstandingReply(m: Mod, e: Event, f: nat)
    requires FiberInv(m) && m.pc.Events? && m.current.None? && e.Reply? && InWindow(e.id, m.next)
    requires f in m.fib && Entry(e.id, f) in m.pending && Peek(m.pending, e.id) == Some(f) && Sound(m)
    ensures f in HandleReply(m, e).fib && Outstanding(HandleReply(m, e), f) == Outstanding(m, f)
  {
    var fb := m.fib[f];
    assert FiberOk(f, fb, false, m.pending);
    assert fb.waitingAny ==> !fb.waitingReply;
    hide HandleReply, FiberInv, FiberOk, Sound, Take, Peek, SetStage, NoteReply, PendingOk, InWindow, Owed,
      WithArrival, Cleared, ReplySource;
    ReplyCases(m, e, f);
    TakePending(m.pending, m.next, e.id, m.fib);
    if fb.waitingReply && fb.waitId == e.id {
      OpenUnblocked(m.pending, Take(m.pending, e.id), e.id, f, fb, ReplySource(fb, e));
    } else {
      OpenHanded(m, m.pending, Take(m.pending, e.id), e, f, fb);
    }
  }

  lemma LedgerReply(m: Mod, e: Event, f: nat, c0: seq<Arrival>, n: int, ids: set<nat>)
    requires FiberInv(m) && m.pc.Events? && m.current.None? && e.Reply? && InWindow(e.id, m.next)
    requires Ledger(m, f, c0, n, ids) && Peek(m.pending, e.id) == Some(f) && Sound(m)
    ensures Ledger(HandleReply(m, e), f, c0, n, ids)
  {
    assert Entry(e.id, f) in m.pending by {
      TakePending(m.pending, m.next, e.id, m.fib);
    }
    OutstandingReply(m, e, f);
    ReplyCases(m, e, f);
    LedgerMove(m, HandleReply(m, e), f, c0, n, ids);
  }

  lemma LedgerTimer(m: Mod, f: nat, c0: seq<Arrival>, n: int, ids: set<nat>)
    requires FiberInv(m) && m.pc.Timers? && m.current.None? && m.pc.todo != [] && m.pc.todo[0] == f
    requires Ledger(m, f, c0, n, ids) && forall g <- m.pc.todo :: g in m.fib
    ensures Ledger(DoTimerTurn(m), f, c0, n, ids)
  {
    var fb := m.fib[f];
    var r := DoTimerTurn(m);
    assert FiberOk(f, fb, false, m.pending);
    if Due(fb, m.pc.now) && Eligible(m, f) {
      if fb.waitingReply {
        TakePending(m.pending, m.next, fb.waitId, m.fib);
      }
      assert OpenIds(r.pending, f, r.fib[f]) == OpenIds(m.pending, f, fb);
      assert fb.point != AtWait;
    }
  }

  /** One more collected reply, out of the hand or the queue. */
  lemma LedgerCollect(m: Mod, r: Mod, a: Arrival, f: nat, c0: seq<Arrival>, n: int, ids: set<nat>)
    requires Ledger(m, f, c0, n, ids) && f in r.fib && !r.fib[f].done
    requires r.fib[f].collected == m.fib[f].collected + [a] && r.fib[f].outstanding == m.fib[f].outstanding - 1
    requires Outstanding(r, f) + {a.id} == Outstanding(m, f)
    ensures Ledger(r, f, c0, n, ids)
  {
    var c := m.fib[f].collected;
    assert r.fib[f].collected[|c0|..] == c[|c0|..] + [a];
    QueuedIdsPush(c[|c0|..], a);
  }

  /** A running fiber waits for nothing, and no id in the table is still to be allocated. */
  lemma RunnerWaitsNot(m: Mod, f: nat)
    requires FiberInv(m) && m.current == Some(f)
    ensures f in m.fib && !m.fib[f].waitingReply && !m.fib[f].done && forall e <- m.pending :: e.id < m.next
  {
    assert FiberOk(f, m.fib[f], true, m.pending);
  }

  lemma ContinueParts(m: Mod, f: nat)
    requires m.current == Some(f) && f in m.fib
    ensures var r, fb := DoContinue(m), m.fib[f];
      && r.pending == m.pending && r.current == m.current
      && r.fib == m.fib[f := if fb.point == AtWait then WithCollected(fb) else fb.(point := AtUser)]
  {}

  lemma LedgerContinue(m: Mod, f: nat, c0: seq<Arrival>, n: int, ids: set<nat>)
    requires FiberInv(m) && m.current == Some(f) && Ledger(m, f, c0, n, ids) && MayAct(m, Continue)
    ensures Ledger(DoContinue(m), f, c0, n, ids)
  {
    hide DoContinue, FiberInv, Ledger, QueuedIds, OpenIds, MayAct;
    RunnerWaitsNot(m, f);
    ContinueParts(m, f);
    var fb := m.fib[f];
    var r := DoContinue(m);
    OpenSame(m.pending, r.pending, f, fb, r.fib[f]);
    HeldIds(fb, true);
    HeldIds(r.fib[f], true);
    if fb.point == AtWait {
      LedgerCollect(m, r, SeenAs(fb.src), f, c0, n, ids);
    } else {
      LedgerMove(m, r, f, c0, n, ids);
    }
  }

  lemma WaitReplyParts(m: Mod, f: nat)
    requires m.current == Some(f) && f in m.fib
    ensures var r, fb := DoWaitReply(m), m.fib[f];
      && r.pending == m.pending && f in r.fib
      && if fb.rq != [] then r.current == m.current && r.fib[f] == WithPopped(fb, r.fib[f].src)
         else if fb.outstanding == 0 then r == m
         else r.current == None && r.fib[f] == fb.(waitingAny := true, point := AtWait, firstRun := false)
  {}

  lemma LedgerWaitReply(m: Mod, f: nat, c0: seq<Arrival>, n: int, ids: set<nat>)
    requires FiberInv(m) && m.current == Some(f) && Ledger(m, f, c0, n, ids) && MayAct(m, WaitReply)
    ensures Ledger(DoWaitReply(m), f, c0, n, ids)
  {
    hide DoWaitReply, FiberInv, Ledger, OpenIds;
    RunnerWaitsNot(m, f);
    WaitReplyParts(m, f);
    var fb := m.fib[f];
    var r := DoWaitReply(m);
    OpenSame(m.pending, r.pending, f, fb, r.fib[f]);
    if fb.rq != [] {
      assert fb.rq == [fb.rq[0]] + fb.rq[1..];
      QueuedIdsConcat([fb.rq[0]], fb.rq[1..]);
      assert QueuedIds([fb.rq[0]]) == {fb.rq[0].id};
      LedgerCollect(m, r, fb.rq[0], f, c0, n, ids);
    } else {
      LedgerMove(m, r, f, c0, n, ids);
    }
  }

  lemma RequestParts(m: Mod, a: Action, f: nat)
    requires m.current == Some(f) && f in m.fib && a.Request?
    ensures var r, fb := DoAct(m, a), m.fib[f];
      && r.pending == [Entry(m.next, f)] + m.pending && r.current == None && f in r.fib
      && r.fib[f] == fb.(waitingReply := true, waitId := m.next, point := AtRequest, firstRun := false,
                         waitingTimer := r.fib[f].waitingTimer, deadline := r.fib[f].deadline)
  {}

  lemma LedgerRequest(m: Mod, a: Action, f: nat, c0: seq<Arrival>, n: int, ids: set<nat>)
    requires FiberInv(m) && m.current == Some(f) && Ledger(m, f, c0, n, ids) && a.Request? && MayAct(m, a)
    ensures Ledger(DoAct(m, a), f, c0, n, ids)
  {
    hide DoAct, FiberInv, Ledger, OpenIds, QueuedIds;
    RunnerWaitsNot(m, f);
    RequestParts(m, a, f);
    var r := DoAct(m, a);
    OpenSame(m.pending, r.pending, f, m.fib[f], r.fib[f]);
    LedgerMove(m, r, f, c0, n, ids);
  }

  lemma LedgerSleep(m: Mod, a: Action, f: nat, c0: seq<Arrival>, n: int, ids: set<nat>)
    requires FiberInv(m) && m.current == Some(f) && Ledger(m, f, c0, n, ids) && a.Sleep? && MayAct(m, a)
    ensures Ledger(DoAct(m, a), f, c0, n, ids)
  {
    var r := DoAct(m, a);
    assert FiberOk(f, m.fib[f], true, m.pending);
    assert OpenIds(r.pending, f, r.fib[f]) == OpenIds(m.pending, f, m.fib[f]);
  }

  lemma LedgerOwnAct(m: Mod, a: Action, f: nat, c0: seq<Arrival>, n: int, ids: set<nat>)
    requires FiberInv(m) && m.current == Some(f) && Ledger(m, f, c0, n, ids) && MayAct(m, a)
    requires !a.RequestAsync? && !a.Return?
    ensures Ledger(DoAct(m, a), f, c0, n, ids)
  {
    if a.Continue? {
      LedgerContinue(m, f, c0, n, ids);
    } else if a.WaitReply? {
      LedgerWaitReply(m, f, c0, n, ids);
    } else if a.Request? {
      LedgerRequest(m, a, f, c0, n, ids);
    } else if a.Sleep? {
      LedgerSleep(m, a, f, c0, n, ids);
    } else {
      UntouchedLedger(m, DoAct(m, a), f, c0, n, ids);
    }
  }

  /** An action of another fiber. */
  lemma LedgerOtherAct(m: Mod, a: Action, f: nat, c0: seq<Arrival>, n: int, ids: set<nat>)
    requires FiberInv(m) && m.current.Some? && m.current != Some(f) && Ledger(m, f, c0, n, ids) && MayAct(m, a)
    ensures Ledger(DoAct(m, a), f, c0, n, ids)
  {
    ActFrame(m, a);
    ActPending(m, a);
    UntouchedLedger(m, DoAct(m, a), f, c0, n, ids);
  }

  lemma SameQueues(m: Mod, q: Queues, f: nat, c0: seq<Arrival>, n: int, ids: set<nat>)
    requires FiberInv(m) && m.pc.Events? && m.current.None? && Ledger(m, f, c0, n, ids) && Sound(m)
    ensures var m' := m.(q := q); Ledger(m', f, c0, n, ids) && (FiberInv(m') && Sound(m'))
  {
    UntouchedLedger(m, m.(q := q), f, c0, n, ids);
  }

  lemma LedgerOwnReply(m: Mod, f: nat, c0: seq<Arrival>, n: int, ids: set<nat>)
    requires FiberInv(m) && m.pc.Events? && m.current.None? && Ledger(m, f, c0, n, ids) && Sound(m)
    requires m.q.batch != [] && m.q.batch[0].ev.Reply? && InWindow(m.q.batch[0].ev.id, m.next)
    requires Peek(m.pending, m.q.batch[0].ev.id) == Some(f)
    ensures Ledger(DoEventTurn(m), f, c0, n, ids)
  {
    hide DoEventTurn, HandleReply, Ledger, FiberInv;
    EventCases(m);
    var used := m.(q := Consume(m.q));
    SameQueues(m, Consume(m.q), f, c0, n, ids);
    SameQueues(m, Defer(m.q), f, c0, n, ids);
    LedgerReply(used, m.q.batch[0].ev, f, c0, n, ids);
  }

  lemma LedgerOtherReply(m: Mod, f: nat, c0: seq<Arrival>, n: int, ids: set<nat>)
    requires FiberInv(m) && m.pc.Events? && m.current.None? && Ledger(m, f, c0, n, ids) && Sound(m)
    requires m.q.batch != [] && m.q.batch[0].ev.Reply? && InWindow(m.q.batch[0].ev.id, m.next)
    requires Peek(m.pending, m.q.batch[0].ev.id) != Some(f)
    ensures Ledger(DoEventTurn(m), f, c0, n, ids)
  {
    hide DoEventTurn, HandleReply, Consume, Defer;
    EventCases(m);
    var e := m.q.batch[0].ev;
    ReplyFrame(m.(q := Consume(m.q)), e);
    TakePending(m.pending, m.next, e.id, m.fib);
    UntouchedLedger(m, DoEventTurn(m), f, c0, n, ids);
  }

  lemma LedgerEvent(m: Mod, f: nat, c0: seq<Arrival>, n: int, ids: set<nat>)
    requires Inv(m) && m.pc.Events? && m.current.None? && Ledger(m, f, c0, n, ids) && Sound(m)
    ensures Ledger(DoEventTurn(m), f, c0, n, ids)
  {
    hide DoEventTurn, Consume, Defer, QueueInv;
    EventCases(m);
    if m.q.batch != [] && m.q.batch[0].ev.Reply? {
      HeadLeaves(m.q, m.next);
      if Peek(m.pending, m.q.batch[0].ev.id) == Some(f) {
        LedgerOwnReply(m, f, c0, n, ids);
      } else {
        LedgerOtherReply(m, f, c0, n, ids);
      }
    } else {
      UntouchedLedger(m, DoEventTurn(m), f, c0, n, ids);
    }
  }

  lemma LedgerTimerTurn(m: Mod, f: nat, c0: seq<Arrival>, n: int, ids: set<nat>)
    requires Inv(m) && m.pc.Timers? && m.current.None? && Ledger(m, f, c0, n, ids) && Sound(m)
    ensures Ledger(DoTimerTurn(m), f, c0, n, ids)
  {
    hide DoTimerTurn, QueueInv;
    if m.pc.todo == [] {
      TimersOver(m);
      UntouchedLedger(m, DoTimerTurn(m), f, c0, n, ids);
    } else if m.pc.todo[0] == f {
      LedgerTimer(m, f, c0, n, ids);
    } else {
      var g := m.pc.todo[0];
      TimerFrame(m);
      assert FiberOk(g, m.fib[g], false, m.pending);
      if m.fib[g].waitingReply {
        TakePending(m.pending, m.next, m.fib[g].waitId, m.fib);
      }
      UntouchedLedger(m, DoTimerTurn(m), f, c0, n, ids);
    }
  }

  lemma LedgerStep(m: Mod, l: Label, m': Mod, f: nat, c0: seq<Arrival>, n: int, ids: set<nat>)
    requires Next(m, l, m') && Inv(m) && Ledger(m, f, c0, n, ids) && OnlyGathers(m, l, f)
    ensures Ledger(m', f, c0, n, ids)
  {
    hide Ledger, FiberInv, QueueInv, RepliesOk;
    match l
    case TimerTurn => LedgerTimerTurn(m, f, c0, n, ids);
    case EventTurn => LedgerEvent(m, f, c0, n, ids);
    case Act(a) =>
      if m.current == Some(f) {
        LedgerOwnAct(m, a, f, c0, n, ids);
      } else {
        LedgerOtherAct(m, a, f, c0, n, ids);
      }
    case _ => LedgerElse(m, l, m', f, c0, n, ids);
  }

  lemma LedgerElse(m: Mod, l: Label, m': Mod, f: nat, c0: seq<Arrival>, n: int, ids: set<nat>)
    requires Next(m, l, m') && Inv(m) && Ledger(m, f, c0, n, ids) && !l.TimerTurn? && !l.EventTurn? && !l.Act?
    ensures Ledger(m', f, c0, n, ids)
  {
    UntouchedLedger(m, m', f, c0, n, ids);
  }

  ghost predicate SafeLedger(m: Mod, f: nat, c0: seq<Arrival>, n: int, ids: set<nat>) {
    Safe(m) && Ledger(m, f, c0, n, ids)
  }

  lemma LedgerStarts(m: Mod, f: nat)
    requires Safe(m) && f in m.fib && !m.fib[f].done
    ensures SafeLedger(m, f, m.fib[f].collected, m.fib[f].outstanding, Outstanding(m, f))
  {
    assert QueuedIds(m.fib[f].collected[|m.fib[f].collected|..]) == {};
  }

  lemma LedgerNext(m: Mod, l: Label, m': Mod, f: nat, c0: seq<Arrival>, n: int, ids: set<nat>)
    requires SafeLedger(m, f, c0, n, ids) && OnlyGathers(m, l, f) && Next(m, l, m')
    ensures SafeLedger(m', f, c0, n, ids)
  {
    SafeStep(m, l, m');
    LedgerStep(m, l, m', f, c0, n, ids);
  }

  /** While a fiber gathers, whatever other fibers, timers and the environment do in between, what it has
      collected since and what is outstanding always make up what was outstanding at the start. */
  lemma GatherKeepsLedger(cfg: Config, ms: seq<Mod>, ls: seq<Label>, i: nat, j: nat, f: nat)
    requires RunFrom(cfg, ms, ls) && i <= j < |ms| && f in ms[i].fib && !ms[i].fib[f].done
    requires forall k :: i <= k < j ==> OnlyGathers(ms[k], ls[k], f)
    ensures SafeLedger(ms[j], f, ms[i].fib[f].collected, ms[i].fib[f].outstanding, Outstanding(ms[i], f))
  {
    var c0, n, ids := ms[i].fib[f].collected, ms[i].fib[f].outstanding, Outstanding(ms[i], f);
    RunSafe(cfg, ms, ls, i);
    LedgerStarts(ms[i], f);
    hide SafeLedger, OnlyGathers, Next, Inv, HistoryInv, Outstanding;
    forall m, l, m' | SafeLedger(m, f, c0, n, ids) && OnlyGathers(m, l, f) && Next(m, l, m')
      ensures SafeLedger(m', f, c0, n, ids)
    {
      LedgerNext(m, l, m', f, c0, n, ids);
    }
    Invariance(ms, ls, m => SafeLedger(m, f, c0, n, ids), (m, l) => OnlyGathers(m, l, f), i, j);
  }

  /** `coseq_wait_reply` has nothing left to give, which ends the gathering loop. */
  predicate NothingLeft(m: Mod, f: nat)
    requires f in m.fib
  {
    m.fib[f].outstanding == 0 && m.fib[f].rq == []
  }

  /** Gathering is complete and exact. When `coseq_wait_reply` first has nothing left, the fiber has been
      given as many replies as were outstanding when it began, each outstanding id exactly once and with
      the first reply handled for it, and nothing is outstanding. */
  lemma GatherExact(cfg: Config, ms: seq<Mod>, ls: seq<Label>, i: nat, j: nat, f: nat)
    requires RunFrom(cfg, ms, ls) && i <= j < |ms| && f in ms[i].fib && !ms[i].fib[f].done
    requires forall k :: i <= k < j ==> OnlyGathers(ms[k], ls[k], f)
    requires f in ms[j].fib && NothingLeft(ms[j], f)
    ensures ms[i].fib[f].collected <= ms[j].fib[f].collected
    ensures var got := ms[j].fib[f].collected[|ms[i].fib[f].collected|..];
      && |got| == ms[i].fib[f].outstanding
      && QueuedIds(got) == Outstanding(ms[i], f)
      && (forall a, b :: 0 <= a < b < |got| ==> got[a].id != got[b].id)
      && (forall r <- got :: FirstSeen(ms[j].hist, r))
    ensures Outstanding(ms[j], f) == {}
  {
    GatherKeepsLedger(cfg, ms, ls, i, j, f);
    GatherEnds(ms[j], f, ms[i].fib[f].collected, ms[i].fib[f].outstanding, Outstanding(ms[i], f));
  }

  lemma GatherEnds(m: Mod, f: nat, c0: seq<Arrival>, n: int, ids: set<nat>)
    requires SafeLedger(m, f, c0, n, ids) && NothingLeft(m, f)
    ensures Outstanding(m, f) == {}
    ensures var got := m.fib[f].collected[|c0|..];
      && |got| == n && QueuedIds(got) == ids
      && (forall a, b :: 0 <= a < b < |got| ==> got[a].id != got[b].id)
      && (forall r <- got :: FirstSeen(m.hist, r))
  {
    hide Held;
    NothingOutstanding(m, f);
    CollectedAre(m, f);
  }

  lemma NothingOutstanding(m: Mod, f: nat)
    requires Safe(m) && f in m.fib && NothingLeft(m, f)
    ensures Outstanding(m, f) == {}
  {
    hide Inv, HistoryInv;
    Accounting(m, f);
  }

  lemma CollectedAre(m: Mod, f: nat)
    requires Safe(m) && f in m.fib
    ensures var got := m.fib[f].collected;
      && (forall a, b :: 0 <= a < b < |got| ==> got[a].id != got[b].id)
      && (forall r <- got :: FirstSeen(m.hist, r))
  {
    assert FiberHistory(f, m.fib[f], m.current == Some(f), m.hist);
  }

  /** What `coseq_wait_reply` returned to `f` between two states of a run. */
  function Gathered(m: Mod, m': Mod, f: nat): seq<Source> {
    var before, after := ReturnsTo(m.hist.completions, f), ReturnsTo(m'.hist.completions, f);
    if before <= after then after[|before|..] else []
  }

  lemma GatheredIs(cfg: Config, ms: seq<Mod>, ls: seq<Label>, i: nat, j: nat, f: nat)
    requires RunFrom(cfg, ms, ls) && i <= j < |ms| && f in ms[i].fib && f in ms[j].fib
    ensures ms[i].fib[f].collected <= ms[j].fib[f].collected
    ensures SeenAll(Gathered(ms[i], ms[j], f)) == ms[j].fib[f].collected[|ms[i].fib[f].collected|..]
  {
    var cs, cs' := ms[i].hist.completions, ms[j].hist.completions;
    CompletionsGrow(cfg, ms, ls, i, j);
    ReturnsGrow(cs, cs', f);
    CollectedAreReturns(cfg, ms, ls, i, f);
    CollectedAreReturns(cfg, ms, ls, j, f);
    hide IsRun;
    var before, after := ReturnsTo(cs, f), ReturnsTo(cs', f);
    assert SeenAll(after)[..|before|] == SeenAll(before);
  }

  /** The loop of `coseq_gather`, from its first call of `coseq_wait_reply` to the one that has nothing left:
      it counts exactly as many replies as were outstanding when it began, and is handed each outstanding
      id exactly once, with the first reply handled for it, whatever goes on in between. */
  lemma GatherReturns(cfg: Config, ms: seq<Mod>, ls: seq<Label>, i: nat, j: nat, f: nat)
    requires RunFrom(cfg, ms, ls) && i <= j < |ms| && f in ms[i].fib && !ms[i].fib[f].done
    requires forall k :: i <= k < j ==> OnlyGathers(ms[k], ls[k], f)
    requires f in ms[j].fib && NothingLeft(ms[j], f)
    ensures var got := Gathered(ms[i], ms[j], f);
      && ReturnsTo(ms[j].hist.completions, f) == ReturnsTo(ms[i].hist.completions, f) + got
      && |got| == ms[i].fib[f].outstanding && QueuedIds(SeenAll(got)) == Outstanding(ms[i], f)
      && (forall a, b :: 0 <= a < b < |got| ==> got[a].id != got[b].id)
      && (forall k :: 0 <= k < |got| ==> FirstSeen(ms[j].hist, SeenAs(got[k])))
  {
    hide IsRun, RunFrom, OnlyGathers, NothingLeft, Outstanding, FirstSeen, QueuedIds, Gathered, ReturnsTo;
    GatherExact(cfg, ms, ls, i, j, f);
    GatheredIs(cfg, ms, ls, i, j, f);
    CompletionsGrow(cfg, ms, ls, i, j);
    GatheredBehind(ms[i], ms[j], f);
    AsSeen(Gathered(ms[i], ms[j], f), ms[j].hist);
  }

  lemma GatheredBehind(m: Mod, m': Mod, f: nat)
    requires m.hist.completions <= m'.hist.completions
    ensures ReturnsTo(m'.hist.completions, f) == ReturnsTo(m.hist.completions, f) + Gathered(m, m', f)
  {
    hide ReturnsTo;
    ReturnsGrow(m.hist.completions, m'.hist.completions, f);
  }

  /** What holds of replies as they are seen holds of the sources that show them. */
  lemma AsSeen(got: seq<Source>, h: History)
    requires forall a, b :: 0 <= a < b < |SeenAll(got)| ==> SeenAll(got)[a].id != SeenAll(got)[b].id
    requires forall r <- SeenAll(got) :: FirstSeen(h, r)
    ensures forall a, b :: 0 <= a < b < |got| ==> got[a].id != got[b].id
    ensures forall k :: 0 <= k < |got| ==> FirstSeen(h, SeenAs(got[k]))
  {
    hide FirstSeen;
    forall k | 0 <= k < |got| ensures FirstSeen(h, SeenAs(got[k])) {
      assert SeenAll(got)[k] in SeenAll(got);
    }
    forall a, b | 0 <= a < b < |got| ensures got[a].id != got[b].id {
      assert SeenAll(got)[a].id != SeenAll(got)[b].id;
    }
  }

  /** The arrivals are handled replies at increasing places of the handling order. */
  ghost predicate HandledInOrder(got: seq<Arrival>, consumed: seq<Stamped>) {
    exists places: seq<nat> :: HandledAt(got, places, consumed)
  }

  ghost predicate HandledAt(got: seq<Arrival>, places: seq<nat>, consumed: seq<Stamped>) {
    && |places| == |got|
    && (forall k :: 0 <= k < |got| ==>
          places[k] < |consumed| && consumed[places[k]].ev.Reply? && ArrivalOf(consumed[places[k]].ev) == got[k])
    && (forall k, l :: 0 <= k < l < |got| ==> places[k] < places[l])
  }

  lemma SlotsPlace(fb: Fiber, consumed: seq<Stamped>, n: nat)
    requires SlotsOk(fb, consumed) && n <= |fb.collected| && fb.collected <= fb.arrived
    ensures HandledInOrder(fb.collected[n..], consumed)
  {
    var got := fb.collected[n..];
    var places := seq(|got|, k requires 0 <= k < |got| => (fb.slots[n + k] - 1) as nat);
    assert HandledAt(got, places, consumed);
  }

  /** And in order: what a gathering fiber has been given since it began is handled replies at increasing
      places of the scheduler's handling order. */
  lemma GatherInOrder(cfg: Config, ms: seq<Mod>, ls: seq<Label>, i: nat, j: nat, f: nat)
    requires RunFrom(cfg, ms, ls) && i <= j < |ms| && f in ms[i].fib && !ms[i].fib[f].done
    requires forall k :: i <= k < j ==> OnlyGathers(ms[k], ls[k], f)
    ensures f in ms[j].fib && ms[i].fib[f].collected <= ms[j].fib[f].collected
    ensures HandledInOrder(ms[j].fib[f].collected[|ms[i].fib[f].collected|..], ms[j].q.consumed)
  {
    GatherKeepsLedger(cfg, ms, ls, i, j, f);
    RecordInRuns(cfg, ms, ls, j);
    var m := ms[j];
    assert FiberHistory(f, m.fib[f], m.current == Some(f), m.hist);
    hide Inv, HistoryInv, HandledInOrder;
    SlotsPlace(m.fib[f], m.q.consumed, |ms[i].fib[f].collected|);
  }

  /** `m` and `m'` are states of one run, between which `f` gathers until nothing is left. */
  ghost predicate GatherRun(m: Mod, m': Mod, f: nat) {
    exists cfg, ms, ls, i: nat, j: nat :: GatherRunIn(cfg, ms, ls, i, j, m, m', f)
  }

  ghost predicate GatherRunIn(cfg: Config, ms: seq<Mod>, ls: seq<Label>, i: nat, j: nat, m: Mod, m': Mod, f: nat) {
    && RunFrom(cfg, ms, ls) && i <= j < |ms| && ms[i] == m && ms[j] == m'
    && f in m.fib && !m.fib[f].done && f in m'.fib && NothingLeft(m', f)
    && forall k :: i <= k < j ==> OnlyGathers(ms[k], ls[k], f)
  }

  lemma GatherRunReturns(m: Mod, m': Mod, f: nat)
    requires GatherRun(m, m', f) && f in m.fib && f in m'.fib
    ensures var got := Gathered(m, m', f);
      && |got| == m.fib[f].outstanding && QueuedIds(SeenAll(got)) == Outstanding(m, f)
      && (forall a, b :: 0 <= a < b < |got| ==> got[a].id != got[b].id)
      && (forall k :: 0 <= k < |got| ==> FirstSeen(m'.hist, SeenAs(got[k])))
      && HandledInOrder(SeenAll(got), m'.q.consumed)
  {
    hide IsRun, OnlyGathers, NothingLeft, Outstanding, FirstSeen, QueuedIds, Gathered, HandledInOrder;
    var cfg, ms, ls, i: nat, j: nat :| GatherRunIn(cfg, ms, ls, i, j, m, m', f);
    GatherReturns(cfg, ms, ls, i, j, f);
    GatheredIs(cfg, ms, ls, i, j, f);
    GatherInOrder(cfg, ms, ls, i, j, f);
  }
}
