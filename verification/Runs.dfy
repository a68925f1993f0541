/** Whole runs of one module, under any programs and any environment, and what holds throughout them. */
module Runs {
  import opened Base
  import opened Time
  import opened Pending
  import opened EventQueues
  import opened Machine
  import opened Invariant
  import opened Outcomes

  /** `ls` leads through the states `ms`. That references are sound where a step is taken is no
      restriction: `RunSafe` proves it of every state reached. */
  ghost predicate IsRun(ms: seq<Mod>, ls: seq<Label>) {
    && |ms| == |ls| + 1
    && forall i {:trigger ls[i]} :: 0 <= i < |ls| ==> Next(ms[i], ls[i], ms[i + 1])
  }

  ghost predicate Next(m: Mod, l: Label, m': Mod) {
    Sound(m) && Enabled(m, l) && m' == Step(m, l)
  }

  lemma StepAt(ms: seq<Mod>, ls: seq<Label>, k: nat)
    requires IsRun(ms, ls) && (k < |ls| || k + 1 < |ms|)
    ensures |ms| == |ls| + 1 && Next(ms[k], ls[k], ms[k + 1])
  {}

  ghost predicate RunFrom(cfg: Config, ms: seq<Mod>, ls: seq<Label>) {
    IsRun(ms, ls) && ms[0] == Initial(cfg)
  }

  /** What every step within a discipline `d` keeps holds throughout a stretch of a run within it. */
  lemma {:induction false} Invariance(ms: seq<Mod>, ls: seq<Label>, j: Mod -> bool, d: (Mod, Label) -> bool,
                                      i: nat, n: nat)
    requires IsRun(ms, ls) && i <= n < |ms| && j(ms[i])
    requires forall k :: i <= k < n ==> d(ms[k], ls[k])
    requires forall m, l, m' :: j(m) && d(m, l) && Next(m, l, m') ==> j(m')
    ensures j(ms[n])
  {
    hide IsRun, Next;
    if i < n {
      StepAt(ms, ls, n - 1);
      Invariance(ms, ls, j, d, i, n - 1);
      assert d(ms[n - 1], ls[n - 1]);
    }
  }

  ghost predicate Safe(m: Mod) {
    Inv(m) && HistoryInv(m)
  }

  lemma InitialSafe(cfg: Config)
    ensures Safe(Initial(cfg))
  {
    hide Inv;
    InitialInv(cfg);
  }

  lemma SafeStep(m: Mod, l: Label, m': Mod)
    requires Safe(m) && Next(m, l, m')
    ensures Safe(m')
  {
    StepInv(m, l);
    StepHistory(m, l);
  }

  lemma SafeInv(m: Mod)
    requires Safe(m)
    ensures Inv(m) && HistoryInv(m)
  {}

  lemma SafeFrom(ms: seq<Mod>, ls: seq<Label>, n: nat)
    requires IsRun(ms, ls) && n < |ms| && Safe(ms[0])
    ensures Safe(ms[n])
  {
    hide Safe, Next;
    forall m, l, m' | Safe(m) && Next(m, l, m') ensures Safe(m') {
      SafeStep(m, l, m');
    }
    Invariance(ms, ls, Safe, (m, l) => true, 0, n);
  }

  /** The invariants hold in every state of every run, and every enabled step is defined there. */
  lemma RunSafe(cfg: Config, ms: seq<Mod>, ls: seq<Label>, i: nat)
    requires RunFrom(cfg, ms, ls) && i < |ms|
    ensures Inv(ms[i]) && HistoryInv(ms[i]) && Sound(ms[i])
  {
    InitialSafe(cfg);
    SafeFrom(ms, ls, i);
    InvSound(ms[i]);
  }

  // ---------------------------------------------------------------- wake sources and references

  function B(b: bool): int {
    if b then 1 else 0
  }

  predicate ReplyWait(fb: Fiber) {
    fb.waitingReply && !fb.waitingTimer && !fb.waitingAny
  }

  predicate TimedReplyWait(fb: Fiber) {
    fb.waitingReply && fb.waitingTimer && !fb.waitingAny
  }

  predicate TimerWait(fb: Fiber) {
    fb.waitingTimer && !fb.waitingReply && !fb.waitingAny
  }

  predicate AnyWait(fb: Fiber) {
    fb.waitingAny && !fb.waitingReply && !fb.waitingTimer
  }

  /** Whenever the scheduler has control, a fiber that is not finished is in exactly one kind of wait,
      and whatever can end that wait exists. */
  lemma WakeSource(cfg: Config, ms: seq<Mod>, ls: seq<Label>, i: nat, f: nat)
    requires RunFrom(cfg, ms, ls) && i < |ms| && ms[i].current.None?
    requires f in ms[i].fib && !ms[i].fib[f].done
    ensures var fb := ms[i].fib[f];
      && B(ReplyWait(fb)) + B(TimedReplyWait(fb)) + B(TimerWait(fb)) + B(AnyWait(fb)) == 1
      && (fb.waitingReply ==> Entry(fb.waitId, f) in ms[i].pending)
      && (AnyWait(fb) ==> fb.rq == [] && exists e <- ms[i].pending :: e.fid == f)
      && (fb.waitingTimer ==> Normal(fb.deadline))
  {
    RunSafe(cfg, ms, ls, i);
    var m := ms[i];
    assert FiberOk(f, m.fib[f], false, m.pending);
    CountZero(m.pending, f);
  }

  /** No reference to a fiber outlives it. From its return to the reaper a finished fiber is resumed by nobody,
      and whatever requests it left are still in the table or answered into its queue; at the top of the
      loop there is no finished fiber. */
  lemma NoDangling(cfg: Config, ms: seq<Mod>, ls: seq<Label>, i: nat)
    requires RunFrom(cfg, ms, ls) && i < |ms|
    ensures var m := ms[i];
      && (forall e <- m.pending :: e.fid in m.fib)
      && (m.locked.Some? ==> m.locked.value in m.fib)
      && (forall f <- m.fib :: m.fib[f].done ==>
            Idle(m.fib[f]) && m.fib[f].outstanding == Count(m.pending, f) + |m.fib[f].rq|)
      && (m.pc.Top? || m.pc.Sleeping? || m.pc.Stopped? ==> forall f <- m.fib :: !m.fib[f].done)
      && (m.current.Some? ==> m.current.value in m.fib && !m.fib[m.current.value].done)
  {
    RunSafe(cfg, ms, ls, i);
    var m := ms[i];
    forall f | f in m.fib && m.fib[f].done
      ensures Idle(m.fib[f]) && m.fib[f].outstanding == Count(m.pending, f) + |m.fib[f].rq|
    {
      assert FiberOk(f, m.fib[f], m.current == Some(f), m.pending);
    }
  }

  // ---------------------------------------------------------------- accounting

  /** The ids of the fiber's entries, without the one it is blocked on. */
  function OpenIds(p: seq<Entry>, f: nat, fb: Fiber): set<nat> {
    set e <- p | e.fid == f && !(fb.waitingReply && e.id == fb.waitId) :: e.id
  }

  function QueuedIds(s: seq<Arrival>): set<nat> {
    set a <- s :: a.id
  }

  function IdsOf(p: seq<Entry>, f: nat): set<nat> {
    set e <- p | e.fid == f :: e.id
  }

  lemma {:induction false} CountIds(p: seq<Entry>, f: nat)
    requires WireDistinct(p)
    ensures |IdsOf(p, f)| == Count(p, f)
  {
    if p == [] {
      assert IdsOf(p, f) == {};
    } else {
      CountIds(p[1..], f);
      HeadId(p, f);
    }
  }

  lemma HeadId(p: seq<Entry>, f: nat)
    requires WireDistinct(p) && p != []
    ensures p[0].id !in IdsOf(p[1..], f)
    ensures IdsOf(p, f) == IdsOf(p[1..], f) + (if p[0].fid == f then {p[0].id} else {})
  {
    assert p == [p[0]] + p[1..];
    forall e | e in p[1..] ensures e.id != p[0].id {
      var k :| 0 <= k < |p[1..]| && p[1..][k] == e;
      assert p[k + 1] == e;
    }
  }

  lemma {:induction false} CountQueued(s: seq<Arrival>)
    requires Distinct(s)
    ensures |QueuedIds(s)| == |s|
  {
    if s == [] {
      assert QueuedIds(s) == {};
    } else {
      CountQueued(s[1..]);
      assert s == [s[0]] + s[1..];
      assert QueuedIds(s) == QueuedIds(s[1..]) + {s[0].id};
      assert s[0].id !in QueuedIds(s[1..]) by {
        forall a | a in s[1..] ensures a.id != s[0].id {
          var k :| 0 <= k < |s[1..]| && s[1..][k] == a;
          assert s[k + 1] == a;
        }
      }
    }
  }

  lemma OpenCount(p: seq<Entry>, f: nat, fb: Fiber)
    requires WireDistinct(p) && (fb.waitingReply ==> Entry(fb.waitId, f) in p)
    ensures |OpenIds(p, f, fb)| == Count(p, f) - (if fb.waitingReply then 1 else 0)
  {
    CountIds(p, f);
    if fb.waitingReply {
      assert Entry(fb.waitId, f).id in IdsOf(p, f);
      assert OpenIds(p, f, fb) == IdsOf(p, f) - {fb.waitId};
    } else {
      assert OpenIds(p, f, fb) == IdsOf(p, f);
    }
  }

  /** The counter of unconsumed asynchronous replies is exactly the number of distinct ids that are
      still in the table, queued, or in the hand of the resumed fiber. */
  lemma Accounting(m: Mod, f: nat)
    requires Inv(m) && HistoryInv(m) && f in m.fib
    ensures var fb := m.fib[f];
      var held := QueuedIds(Held(fb, m.current == Some(f)));
      && OpenIds(m.pending, f, fb) !! QueuedIds(fb.rq) && OpenIds(m.pending, f, fb) !! held && QueuedIds(fb.rq) !! held
      && fb.outstanding == |OpenIds(m.pending, f, fb)| + |QueuedIds(fb.rq)| + |held|
  {
    var fb := m.fib[f];
    var running := m.current == Some(f);
    HeldIds(fb, running);
    assert FiberHistory(f, fb, running, m.hist);
    CountQueued(fb.rq);
    assert FiberOk(f, fb, running, m.pending);
    OpenCount(m.pending, f, fb);
    forall e | e in m.pending ensures e.id in m.hist.issues && m.hist.issues[e.id].stage == Waiting {}
  }

  lemma HeldIds(fb: Fiber, running: bool)
    ensures QueuedIds(Held(fb, running)) == if running && fb.point == AtWait then {fb.src.id} else {}
    ensures |QueuedIds(Held(fb, running))| == if running && fb.point == AtWait then 1 else 0
  {
    assert QueuedIds([]) == {};
    assert QueuedIds([SeenAs(fb.src)]) == {fb.src.id};
    assert |{fb.src.id}| == 1;
  }

  lemma AccountingInRuns(cfg: Config, ms: seq<Mod>, ls: seq<Label>, i: nat, f: nat)
    requires RunFrom(cfg, ms, ls) && i < |ms| && f in ms[i].fib
    ensures var m := ms[i];
      var fb := m.fib[f];
      var held := QueuedIds(Held(fb, m.current == Some(f)));
      && fb.outstanding == |OpenIds(m.pending, f, fb)| + |QueuedIds(fb.rq)| + |held|
      && OpenIds(m.pending, f, fb) !! QueuedIds(fb.rq) && OpenIds(m.pending, f, fb) !! held && QueuedIds(fb.rq) !! held
  {
    RunSafe(cfg, ms, ls, i);
    Accounting(ms[i], f);
  }

  // ---------------------------------------------------------------- exactly-once completion

  /** In every run no id is returned twice, and each return carries the outcome of its own id: the
      first reply the scheduler handled for it, or the timeout of the blocking request it names. */
  lemma ExactlyOnce(cfg: Config, ms: seq<Mod>, ls: seq<Label>, i: nat)
    requires RunFrom(cfg, ms, ls) && i < |ms|
    ensures var h := ms[i].hist;
      && (forall c, d :: 0 <= c < d < |h.completions| ==> h.completions[c].src.id != h.completions[d].src.id)
      && (forall c <- h.completions ::
            && c.src.id in h.issues && h.issues[c.src.id].kind == c.kind != OneWay && h.issues[c.src.id].fid == c.fid
            && if c.src.id in h.timedOut
               then c.kind == Blocking && c.src.result == RequestTimeout && c.src.msg == []
               else c.src.id in h.first && h.first[c.src.id].Reply? && SeenAs(c.src) == ArrivalOf(h.first[c.src.id]))
  {
    RunSafe(cfg, ms, ls, i);
  }

  /** A blocking call returns with the outcome of the very id it allocated, which had no return before. */
  lemma BlockingReturn(cfg: Config, ms: seq<Mod>, ls: seq<Label>, i: nat)
    requires RunFrom(cfg, ms, ls) && i < |ls| && ls[i] == Act(Continue)
    requires ms[i].fib[ms[i].current.value].point == AtRequest
    ensures var m := ms[i];
      var f := m.current.value;
      var fb := m.fib[f];
      && ms[i + 1].hist.completions == m.hist.completions + [Completion(f, Blocking, fb.src)]
      && fb.src.id == fb.waitId && Outcome(Blocking, fb.src, m.hist)
      && forall c <- m.hist.completions :: c.src.id != fb.waitId
  {
    RunSafe(cfg, ms, ls, i);
    var m := ms[i];
    var f := m.current.value;
    assert FiberHistory(f, m.fib[f], true, m.hist);
    OldCompletions(m.hist, m.hist, m.fib[f].waitId);
  }

  /** A late or duplicate reply, one whose id is no longer in the table, is dropped: it completes, wakes
      and queues onto nothing, whatever later ids are open, although only 32 bits are compared. */
  lemma StaleReplyDropped(m: Mod, e: Event)
    requires Inv(m) && m.pc.Events? && m.current.None? && m.q.batch != [] && m.q.batch[0].ev == e && e.Reply?
    requires forall p <- m.pending :: p.id != e.id
    ensures Sound(m)
    ensures DoEventTurn(m) ==
            if m.locked.Some? then m.(q := Defer(m.q))
            else m.(q := Consume(m.q), hist := NoteReply(m.hist, e))
  {
    HeadLeaves(m.q, m.next);
    TakePending(m.pending, m.next, e.id, m.fib);
  }

  /** Outside the window the 32-bit comparison can go wrong, and only then: a stale id is taken for
      another exactly if some open id is a non-zero multiple of the id space away from it. */
  lemma StaleConfusedIff(p: seq<Entry>, stale: nat)
    requires WireDistinct(p) && forall e <- p :: e.id != stale
    ensures Peek(p, stale).Some? <==> exists e <- p :: (e.id - stale) % ID_SPACE == 0
  {
    TakeExact(p, stale);
    forall e | e in p ensures Wire(e.id) == Wire(stale) <==> (e.id - stale) % ID_SPACE == 0 {
      CongruentIff(e.id, stale);
    }
  }

  lemma CongruentIff(a: nat, b: nat)
    ensures Wire(a) == Wire(b) <==> (a - b) % ID_SPACE == 0
  {
    var qa, qb := a / ID_SPACE, b / ID_SPACE;
    assert a == qa * ID_SPACE + Wire(a) && b == qb * ID_SPACE + Wire(b);
    assert a - b == (qa - qb) * ID_SPACE + (Wire(a) - Wire(b));
  }

  /** Returns are never taken back. */
  lemma CompletionsGrow(cfg: Config, ms: seq<Mod>, ls: seq<Label>, i: nat, j: nat)
    requires RunFrom(cfg, ms, ls) && i <= j < |ms|
    ensures ms[i].hist.completions <= ms[j].hist.completions
  {
    hide Next;
    var was := ms[i].hist.completions;
    forall m: Mod, l, m': Mod | was <= m.hist.completions && Next(m, l, m') ensures was <= m'.hist.completions {
      CompletionStep(m, l, m');
    }
    Invariance(ms, ls, (m: Mod) => was <= m.hist.completions, (m, l) => true, i, j);
  }

  lemma ContinueCompletions(m: Mod)
    requires m.current.Some? && m.current.value in m.fib
    ensures m.hist.completions <= DoContinue(m).hist.completions
  {
    hide Complete, WithCollected;
    var f, fb := m.current.value, m.fib[m.current.value];
    CompleteGrows(Put(m, f, fb.(point := AtUser)), Blocking, fb.src);
    CompleteGrows(Put(m, f, WithCollected(fb)), Async, fb.src);
  }

  lemma CompleteGrows(m: Mod, kind: Kind, src: Source)
    requires m.current.Some?
    ensures m.hist.completions <= Complete(m, kind, src).hist.completions
  {}

  lemma WaitReplyCompletions(m: Mod)
    requires m.current.Some? && m.current.value in m.fib
    ensures m.hist.completions <= DoWaitReply(m).hist.completions
  {}

  lemma ActCompletions(m: Mod, a: Action)
    requires m.current.Some? && m.current.value in m.fib
    ensures m.hist.completions <= DoAct(m, a).hist.completions
  {
    hide DoContinue, DoWaitReply;
    if a.Continue? {
      ContinueCompletions(m);
    } else if a.WaitReply? {
      WaitReplyCompletions(m);
    } else {
      assert DoAct(m, a).hist.completions == m.hist.completions;
    }
  }

  lemma TurnCompletions(m: Mod)
    requires m.pc.Timers? && forall f <- m.pc.todo :: f in m.fib
    ensures DoTimerTurn(m).hist.completions == m.hist.completions
  {}

  lemma ReplyCompletions(m: Mod, e: Event)
    requires e.Reply? && forall p <- m.pending :: p.fid in m.fib
    ensures HandleReply(m, e).hist.completions == m.hist.completions
  {}

  lemma EventCompletions(m: Mod)
    requires forall p <- m.pending :: p.fid in m.fib
    ensures DoEventTurn(m).hist.completions == m.hist.completions
  {
    if m.q.batch != [] && m.q.batch[0].ev.Reply? {
      ReplyCompletions(m.(q := Consume(m.q)), m.q.batch[0].ev);
    }
  }

  lemma CompletionStep(m: Mod, l: Label, m': Mod)
    requires Next(m, l, m')
    ensures m.hist.completions <= m'.hist.completions
  {
    match l
    case TimerTurn => TurnCompletions(m);
    case EventTurn => EventCompletions(m);
    case Act(a) => ActCompletions(m, a);
    case _ =>
  }
}
