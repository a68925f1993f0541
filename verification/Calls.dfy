/** Calls and their returns over whole runs: which return answers which call. */
module Calls {
  import opened Base
  import opened Time
  import opened Pending
  import opened EventQueues
  import opened Machine
  import opened Frames
  import opened Invariant
  import opened Outcomes
  import opened Runs

  // ---------------------------------------------------------------- a blocking call and its return

  /** `f` is blocked in, or about to come back from, the request that allocated `id`; `plain` if it set no
      time limit. */
  ghost predicate InRequest(m: Mod, f: nat, id: nat, plain: bool) {
    && Safe(m) && f in m.fib && m.fib[f].point == AtRequest && !m.fib[f].done && m.fib[f].waitId == id
    && (plain ==> id !in m.hist.timedOut && !m.fib[f].waitingTimer)
  }

  ghost predicate Rests(m: Mod, l: Label, f: nat) {
    !(l.Act? && m.current == Some(f))
  }

  /** The fiber still stands in the call, and no timer has been set for it. */
  predicate SameCall(a: Fiber, b: Fiber) {
    a.point == b.point && a.done == b.done && a.waitId == b.waitId && (a.waitingTimer ==> b.waitingTimer)
  }

  lemma ReplyInCall(m: Mod, e: Event, f: nat)
    requires e.Reply? && f in m.fib && forall p <- m.pending :: p.fid in m.fib
    ensures f in HandleReply(m, e).fib && SameCall(HandleReply(m, e).fib[f], m.fib[f])
    ensures HandleReply(m, e).hist.timedOut == m.hist.timedOut
  {
    PeekFindsEntry(m.pending, e.id);
  }

  lemma EventInCall(m: Mod, f: nat)
    requires f in m.fib && f != m.hist.nextFid && forall p <- m.pending :: p.fid in m.fib
    ensures f in DoEventTurn(m).fib && SameCall(DoEventTurn(m).fib[f], m.fib[f])
    ensures DoEventTurn(m).hist.timedOut == m.hist.timedOut
  {
    hide HandleReply;
    if m.q.batch != [] && m.q.batch[0].ev.Reply? {
      ReplyInCall(m.(q := Consume(m.q)), m.q.batch[0].ev, f);
    }
  }

  /** No other fiber waits for the id that `f` is blocked on. */
  lemma OwnWait(m: Mod, f: nat, g: nat)
    requires FiberInv(m) && m.current.None? && f in m.fib && g in m.fib && f != g
    requires m.fib[f].point == AtRequest && !m.fib[f].done && m.fib[g].waitingReply
    ensures m.fib[g].waitId != m.fib[f].waitId
  {
    assert FiberOk(f, m.fib[f], false, m.pending) && FiberOk(g, m.fib[g], false, m.pending);
    assert Entry(m.fib[f].waitId, f) in m.pending && Entry(m.fib[g].waitId, g) in m.pending;
  }

  lemma TimerTurnInCalls(m: Mod)
    requires m.pc.Timers? && m.pc.todo != [] && forall f <- m.pc.todo :: f in m.fib
    ensures var r, g := DoTimerTurn(m), m.pc.todo[0];
      && g in r.fib && SameCall(r.fib[g], m.fib[g])
      && (forall f <- m.fib :: f != g ==> f in r.fib && r.fib[f] == m.fib[f])
      && (r.hist.timedOut == m.hist.timedOut
          || (m.fib[g].waitingTimer && m.fib[g].waitingReply && r.hist.timedOut == m.hist.timedOut + {m.fib[g].waitId}))
  {}

  lemma TimerInCall(m: Mod, f: nat, id: nat, plain: bool)
    requires InRequest(m, f, id, plain) && m.pc.Timers? && m.current.None? && forall g <- m.pc.todo :: g in m.fib
    ensures var r := DoTimerTurn(m);
      f in r.fib && SameCall(r.fib[f], m.fib[f]) && (plain ==> id !in r.hist.timedOut)
  {
    if m.pc.todo != [] {
      hide DoTimerTurn, Inv, HistoryInv;
      var g := m.pc.todo[0];
      TimerTurnInCalls(m);
      if g != f && m.fib[g].waitingReply {
        OtherWait(m, f, g);
      }
    }
  }

  lemma OtherWait(m: Mod, f: nat, g: nat)
    requires Safe(m) && m.current.None? && f in m.fib && g in m.fib && f != g
    requires m.fib[f].point == AtRequest && !m.fib[f].done && m.fib[g].waitingReply
    ensures m.fib[g].waitId != m.fib[f].waitId
  {
    OwnWait(m, f, g);
  }

  lemma NotNew(m: Mod, f: nat)
    requires Safe(m) && f in m.fib
    ensures f < m.hist.nextFid
  {}

  lemma InRequestStep(m: Mod, l: Label, m': Mod, f: nat, id: nat, plain: bool)
    requires InRequest(m, f, id, plain) && Rests(m, l, f) && Next(m, l, m')
    ensures InRequest(m', f, id, plain)
  {
    hide Safe, DoTimerTurn, DoEventTurn, DoAct, Nearest, Alive;
    SafeStep(m, l, m');
    NotNew(m, f);
    match l
    case TimerTurn => TimerInCall(m, f, id, plain);
    case EventTurn => EventInCall(m, f);
    case Act(a) => ActFrame(m, a);
    case _ =>
  }

  lemma RequestBegins(m: Mod, a: Action, f: nat)
    requires Safe(m) && m.current == Some(f) && f in m.fib && a.Request? && Next(m, Act(a), DoAct(m, a))
    ensures InRequest(DoAct(m, a), f, m.next, a.timeout.None?)
  {
    SafeStep(m, Act(a), DoAct(m, a));
    assert FiberOk(f, m.fib[f], true, m.pending);
  }

  /** A blocking request and the return that answers it. If `f` makes a request at step `i`, and the next
      thing it does is to come back from a call at step `j`, then that return is under the id which this
      very request allocated, its first and only one, and carries the outcome of that id. A request
      without a time limit never returns a timeout, but the first reply handled for its id. */
  lemma BlockingCall(cfg: Config, ms: seq<Mod>, ls: seq<Label>, i: nat, j: nat, f: nat)
    requires RunFrom(cfg, ms, ls) && i < j < |ls| && ls[i].Act? && ls[i].a.Request? && ms[i].current == Some(f)
    requires forall k :: i < k < j ==> Rests(ms[k], ls[k], f)
    requires ls[j] == Act(Continue) && ms[j].current == Some(f)
    ensures f in ms[j].fib
    ensures var id, src, h := ms[i].next, ms[j].fib[f].src, ms[j].hist;
      && src.id == id && ms[j + 1].hist.completions == h.completions + [Completion(f, Blocking, src)]
      && (forall c <- h.completions :: c.src.id != id) && Outcome(Blocking, src, h)
      && (ls[i].a.timeout.None? ==>
            id !in h.timedOut && id in h.first && h.first[id].Reply? && SeenAs(src) == ArrivalOf(h.first[id]))
  {
    hide Safe, InRequest, Rests, Inv, HistoryInv;
    var id, plain := ms[i].next, ls[i].a.timeout.None?;
    assert Next(ms[i], ls[i], ms[i + 1]);
    RunIsSafe(cfg, ms, ls, i);
    assert f in ms[i].fib;
    RequestBegins(ms[i], ls[i].a, f);
    StillInRequest(ms, ls, i + 1, j, f, id, plain);
    ReturnPoint(ms[j], f, id, plain);
    BlockingReturn(cfg, ms, ls, j);
  }

  lemma RunIsSafe(cfg: Config, ms: seq<Mod>, ls: seq<Label>, i: nat)
    requires RunFrom(cfg, ms, ls) && i < |ms|
    ensures Safe(ms[i])
  {
    RunSafe(cfg, ms, ls, i);
  }

  lemma ReturnPoint(m: Mod, f: nat, id: nat, plain: bool)
    requires InRequest(m, f, id, plain)
    ensures f in m.fib && m.fib[f].point == AtRequest && m.fib[f].waitId == id && (plain ==> id !in m.hist.timedOut)
  {}

  lemma StillInRequest(ms: seq<Mod>, ls: seq<Label>, i: nat, j: nat, f: nat, id: nat, plain: bool)
    requires IsRun(ms, ls) && i <= j < |ms| && InRequest(ms[i], f, id, plain)
    requires forall k :: i <= k < j ==> Rests(ms[k], ls[k], f)
    ensures InRequest(ms[j], f, id, plain)
  {
    hide InRequest, Rests, Next;
    forall m, l, m' | InRequest(m, f, id, plain) && Rests(m, l, f) && Next(m, l, m')
      ensures InRequest(m', f, id, plain)
    {
      InRequestStep(m, l, m', f, id, plain);
    }
    Invariance(ms, ls, m => InRequest(m, f, id, plain), (m, l) => Rests(m, l, f), i, j);
  }
}
