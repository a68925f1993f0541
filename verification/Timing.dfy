/** Timed calls over whole runs: a sequence does not come back from a delay, nor with a timeout, too early. */
module Timing {
  import opened Base
  import opened Time
  import opened Pending
  import opened EventQueues
  import opened Machine
  import opened Frames
  import opened Invariant
  import opened Outcomes
  import opened Runs
  import opened Calls

  /** The scheduler is in a timer pass whose clock has reached `d`. */
  predicate ClockAt(m: Mod, d: int) {
    m.pc.Timers? && Total(m.pc.now) >= d
  }

  /** The fiber is parked with a timer for `d`; if it waits for a reply as well, that has not timed out. */
  predicate Armed(fb: Fiber, d: int, timedOut: set<nat>) {
    && fb.waitingTimer && Total(fb.deadline) == d
    && (fb.point == AtRequest ==> fb.waitId !in timedOut)
  }

  /** `f` stands in a call with time limit `d`: parked, or resumed, and then by its timer only if that was due. */
  ghost predicate InTimedCall(m: Mod, f: nat, p: Point, id: nat, d: int) {
    && Safe(m) && f in m.fib && !m.fib[f].done && m.fib[f].point == p && m.fib[f].waitId == id
    && (p == AtRequest || p == AtSleep)
    && if m.current == Some(f) then p == AtSleep || id in m.hist.timedOut ==> ClockAt(m, d)
       else Armed(m.fib[f], d, m.hist.timedOut)
  }

  lemma TimedFacts(m: Mod, f: nat, p: Point, id: nat, d: int)
    requires InTimedCall(m, f, p, id, d)
    ensures f < m.hist.nextFid && Sound(m)
    ensures m.current.Some? ==> !m.pc.Top? && !m.pc.Sleeping? && !m.pc.Reaping? && !m.pc.Stopped?
    ensures m.current.None? ==> (p == AtSleep ==> !m.fib[f].waitingReply && !m.fib[f].waitingAny)
                                && (p == AtRequest ==> m.fib[f].waitingReply && !m.fib[f].waitingAny)
                                && Normal(m.fib[f].deadline)
    ensures m.pc.Timers? ==> Normal(m.pc.now)
  {
    assert FiberOk(f, m.fib[f], m.current == Some(f), m.pending);
  }

  lemma TimerTurnTimed(m: Mod, f: nat, p: Point, id: nat, d: int)
    requires InTimedCall(m, f, p, id, d) && m.pc.Timers? && m.current.None? && forall g <- m.pc.todo :: g in m.fib
    requires Safe(DoTimerTurn(m))
    ensures InTimedCall(DoTimerTurn(m), f, p, id, d)
  {
    hide Safe, Sound, Take, SetStage, TimeoutSource, Before;
    TimedFacts(m, f, p, id, d);
    if m.pc.todo != [] {
      var g := m.pc.todo[0];
      if g == f {
        BeforeIsTotalOrder(m.pc.now, m.fib[f].deadline);
      } else if m.fib[g].waitingReply && p == AtRequest {
        OtherWait(m, f, g);
      }
    }
  }

  lemma ReplyTimed(m: Mod, e: Event, f: nat)
    requires e.Reply? && f in m.fib && m.current.None? && forall p <- m.pending :: p.fid in m.fib
    requires !m.fib[f].waitingAny && (m.fib[f].point == AtSleep ==> !m.fib[f].waitingReply)
    ensures var r := HandleReply(m, e);
      && f in r.fib && r.fib[f].done == m.fib[f].done && r.fib[f].point == m.fib[f].point
      && r.fib[f].waitId == m.fib[f].waitId && r.hist.timedOut == m.hist.timedOut
      && (r.current == Some(f) ==> m.fib[f].point != AtSleep)
      && (r.current != Some(f) ==>
            r.fib[f].waitingTimer == m.fib[f].waitingTimer && r.fib[f].deadline == m.fib[f].deadline)
  {
    hide Take, SetStage, NoteReply, ReplySource;
    ReplyInCall(m, e, f);
    PeekFindsEntry(m.pending, e.id);
  }

  lemma EventTimed(m: Mod, f: nat, p: Point, id: nat, d: int)
    requires InTimedCall(m, f, p, id, d) && m.pc.Events? && m.current.None? && forall e <- m.pending :: e.fid in m.fib
    requires Safe(DoEventTurn(m))
    ensures InTimedCall(DoEventTurn(m), f, p, id, d)
  {
    hide Safe, Sound, DoEventTurn, HandleReply;
    TimedFacts(m, f, p, id, d);
    EventCases(m);
    if m.q.batch != [] && m.q.batch[0].ev.Reply? {
      ReplyTimed(m.(q := Consume(m.q)), m.q.batch[0].ev, f);
    }
  }

  lemma TimedStep(m: Mod, l: Label, m': Mod, f: nat, p: Point, id: nat, d: int)
    requires InTimedCall(m, f, p, id, d) && Rests(m, l, f) && Next(m, l, m')
    ensures InTimedCall(m', f, p, id, d)
  {
    hide Safe, Sound, DoTimerTurn, DoEventTurn, DoAct, Nearest, Alive;
    SafeStep(m, l, m');
    TimedFacts(m, f, p, id, d);
    match l
    case TimerTurn => TimerTurnTimed(m, f, p, id, d);
    case EventTurn => EventTimed(m, f, p, id, d);
    case Act(a) => ActFrame(m, a);
    case _ =>
  }

  /** The call that sets a timer, with the time it is for. */
  function Limit(a: Action): int
    requires a.Sleep? || (a.Request? && a.timeout.Some?)
  {
    Total(a.now) + (if a.Sleep? then a.ms else a.timeout.value) * 1_000_000
  }

  lemma Running(m: Mod, f: nat)
    requires Safe(m) && m.current == Some(f)
    ensures f in m.fib && !m.fib[f].done && m.next !in m.hist.timedOut
  {
    assert FiberOk(f, m.fib[f], true, m.pending);
  }

  lemma TimedBegins(m: Mod, a: Action, f: nat, m': Mod)
    requires Safe(m) && m.current == Some(f) && (a.Sleep? || (a.Request? && a.timeout.Some?)) && Next(m, Act(a), m')
    ensures f in m.fib
    ensures InTimedCall(m', f, if a.Sleep? then AtSleep else AtRequest,
                        if a.Sleep? then m.fib[f].waitId else m.next, Limit(a))
  {
    hide Safe, AddMs;
    SafeStep(m, Act(a), m');
    Running(m, f);
    AddMsExact(a.now, if a.Sleep? then a.ms else a.timeout.value);
  }

  lemma StillTimed(ms: seq<Mod>, ls: seq<Label>, i: nat, j: nat, f: nat, p: Point, id: nat, d: int)
    requires IsRun(ms, ls) && i <= j < |ms| && InTimedCall(ms[i], f, p, id, d)
    requires forall k :: i <= k < j ==> Rests(ms[k], ls[k], f)
    ensures InTimedCall(ms[j], f, p, id, d)
  {
    hide InTimedCall, Rests, Next;
    forall m, l, m' | InTimedCall(m, f, p, id, d) && Rests(m, l, f) && Next(m, l, m')
      ensures InTimedCall(m', f, p, id, d)
    {
      TimedStep(m, l, m', f, p, id, d);
    }
    Invariance(ms, ls, m => InTimedCall(m, f, p, id, d), (m, l) => Rests(m, l, f), i, j);
  }

  /** No timed call ends early, in any run. If `f` calls `coseq_wait_timeout` or `coseq_request_timeout` at step
      `i` and next comes back at step `j`, then a delay is over only in a timer pass whose clock is at least
      that of the call plus the milliseconds asked for, and so it is if the request has timed out. */
  lemma NeverEarly(cfg: Config, ms: seq<Mod>, ls: seq<Label>, i: nat, j: nat, f: nat)
    requires RunFrom(cfg, ms, ls) && i < j < |ls| && ls[i].Act? && ms[i].current == Some(f)
    requires ls[i].a.Sleep? || (ls[i].a.Request? && ls[i].a.timeout.Some?)
    requires forall k :: i < k < j ==> Rests(ms[k], ls[k], f)
    requires ls[j] == Act(Continue) && ms[j].current == Some(f)
    ensures ls[i].a.Sleep? || ms[i].next in ms[j].hist.timedOut ==> ClockAt(ms[j], Limit(ls[i].a))
  {
    hide Safe, InTimedCall, Rests, IsRun, Next;
    StepAt(ms, ls, i);
    RunIsSafe(cfg, ms, ls, i);
    var a := ls[i].a;
    TimedBegins(ms[i], a, f, ms[i + 1]);
    var p, id := if a.Sleep? then AtSleep else AtRequest, if a.Sleep? then ms[i].fib[f].waitId else ms[i].next;
    StillTimed(ms, ls, i + 1, j, f, p, id, Limit(a));
    TimedOver(ms[j], f, p, id, Limit(a));
  }

  lemma TimedOver(m: Mod, f: nat, p: Point, id: nat, d: int)
    requires InTimedCall(m, f, p, id, d) && m.current == Some(f)
    ensures p == AtSleep || id in m.hist.timedOut ==> ClockAt(m, d)
  {}
}
