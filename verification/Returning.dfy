/** What a sequence leaves behind when it returns: when the reaper leaves an entry in the table whose fiber is
    gone, and that it never does if sequences return with nothing open. */
module Returning {
  import opened Base
  import opened Time
  import opened Pending
  import opened EventQueues
  import opened Machine
  import opened Frames
  import opened Invariant
  import opened Outcomes
  import opened Runs
  import opened Steps
  import opened Calls
  import opened Locking

  // ---------------------------------------------------------------- returning with nothing open

  /** A sequence returns with none of its requests in the table. */
  ghost predicate CleanReturn(m: Mod, l: Label) {
    l == Act(Return) ==> NothingOpen(m)
  }

  /** A sequence returns when it has collected every reply it asked for, which it can tell. */
  ghost predicate CollectedReturn(m: Mod, l: Label) {
    l == Act(Return) && m.current.Some? && m.current.value in m.fib ==> m.fib[m.current.value].outstanding == 0
  }

  ghost predicate Tidy(m: Mod) {
    Safe(m) && NoneDangles(m)
  }

  lemma {:induction false} TakeWithin(p: seq<Entry>, id: nat)
    ensures forall e <- Take(p, id) :: e in p
  {
    if p != [] {
      TakeWithin(p[1..], id);
    }
  }

  /** Where entries only go and nobody finishes, none comes to dangle. */
  lemma FewerEntries(m: Mod, m': Mod)
    requires Sound(m) && NoneDangles(m) && forall e <- m'.pending :: e in m.pending
    requires forall f <- m.fib :: f in m'.fib ==> m'.fib[f].done == m.fib[f].done
    ensures NoneDangles(m')
  {}

  lemma TidyEvent(m: Mod)
    requires Sound(m) && NoneDangles(m)
    ensures NoneDangles(DoEventTurn(m))
  {
    hide DoEventTurn, HandleReply, Spawn;
    EventCases(m);
    if m.q.batch != [] {
      var e, used := m.q.batch[0].ev, m.(q := Consume(m.q));
      if e.Reply? {
        TidyReply(used, e);
      } else {
        TidySpawn(used, e);
      }
    }
  }

  lemma TidyReply(m: Mod, e: Event)
    requires e.Reply? && NoneDangles(m) && forall p <- m.pending :: p.fid in m.fib
    ensures NoneDangles(HandleReply(m, e))
  {
    PeekFindsEntry(m.pending, e.id);
    TakeWithin(m.pending, e.id);
  }

  lemma TidySpawn(m: Mod, e: Event)
    requires !e.Reply? && NoneDangles(m)
    ensures NoneDangles(Spawn(m, e))
  {}

  lemma TidyTimer(m: Mod)
    requires Sound(m) && NoneDangles(m) && m.pc.Timers?
    ensures NoneDangles(DoTimerTurn(m))
  {
    hide DoTimerTurn;
    if m.pc.todo == [] {
      TimersOver(m);
    } else {
      TimerFrame(m);
      TakeWithin(m.pending, m.fib[m.pc.todo[0]].waitId);
      FewerEntries(m, DoTimerTurn(m));
    }
  }

  lemma TidyReturn(m: Mod)
    requires Safe(m) && NoneDangles(m) && m.current.Some? && MayAct(m, Return) && NothingOpen(m)
    ensures NoneDangles(DoAct(m, Return))
  {
    OpenEntries(m, m.current.value);
  }

  /** A running fiber that does not return is not finished by what it does. */
  lemma StaysUnfinished(m: Mod, a: Action)
    requires m.current.Some? && m.current.value in m.fib && a != Return
    ensures m.current.value in DoAct(m, a).fib && DoAct(m, a).fib[m.current.value].done == m.fib[m.current.value].done
  {
    hide DoContinue, DoWaitReply, Removed;
    match a
    case Continue => ContinueUnfinished(m);
    case WaitReply => WaitUnfinished(m);
    case _ =>
  }

  lemma ContinueUnfinished(m: Mod)
    requires m.current.Some? && m.current.value in m.fib
    ensures m.current.value in DoContinue(m).fib
    ensures DoContinue(m).fib[m.current.value].done == m.fib[m.current.value].done
  {
    ContinueIs(m);
  }

  lemma WaitUnfinished(m: Mod)
    requires m.current.Some? && m.current.value in m.fib
    ensures m.current.value in DoWaitReply(m).fib
    ensures DoWaitReply(m).fib[m.current.value].done == m.fib[m.current.value].done
  {
    hide Complete, SetStage;
    var fb := m.fib[m.current.value];
    if fb.rq != [] {
      var src := Source(0, fb.seqIdx, fb.rq[0].id, fb.rq[0].result, 0, fb.rq[0].msg);
      assert DoWaitReply(m).fib == m.fib[m.current.value := WithPopped(fb, src)];
    }
  }

  lemma TidyAct(m: Mod, a: Action)
    requires Safe(m) && NoneDangles(m) && m.current.Some? && MayAct(m, a) && a != Return
    ensures NoneDangles(DoAct(m, a))
  {
    hide DoAct, MayAct;
    RunnerUnfinished(m);
    ActFrame(m, a);
    ActPending(m, a);
    StaysUnfinished(m, a);
  }

  lemma RunnerUnfinished(m: Mod)
    requires Safe(m) && m.current.Some?
    ensures m.current.value in m.fib && !m.fib[m.current.value].done && Sound(m)
  {
    assert FiberOk(m.current.value, m.fib[m.current.value], true, m.pending);
  }

  lemma TidyStep(m: Mod, l: Label, m': Mod)
    requires Tidy(m) && CleanReturn(m, l) && Next(m, l, m')
    ensures Tidy(m')
  {
    hide Safe, DoAct, DoEventTurn, DoTimerTurn, NothingOpen, Nearest, Alive;
    SafeStep(m, l, m');
    match l
    case TimerTurn => TidyTimer(m);
    case EventTurn => TidyEvent(m);
    case Act(a) =>
      if a == Return {
        TidyReturn(m);
      } else {
        TidyAct(m, a);
      }
    case _ =>
  }

  lemma ReaperGoesOn(m: Mod)
    requires Tidy(m) && m.pc.Reaping?
    ensures Sound(m) && Enabled(m, Label.Reap) && Safe(DoReap(m))
    ensures forall e <- DoReap(m).pending :: e.fid in DoReap(m).fib
  {
    InvSound(m);
    SafeStep(m, Label.Reap, DoReap(m));
  }

  /** If sequences return only with none of their requests in the table, then in every run every entry of the
      table is that of a fiber that has not finished; the reaper always goes on, keeps the invariants, and
      leaves no entry whose fiber is gone. */
  lemma NothingLeftBehind(cfg: Config, ms: seq<Mod>, ls: seq<Label>, i: nat)
    requires RunFrom(cfg, ms, ls) && i < |ms|
    requires forall k :: 0 <= k < i ==> CleanReturn(ms[k], ls[k])
    ensures Safe(ms[i]) && Sound(ms[i]) && forall e <- ms[i].pending :: e.fid in ms[i].fib && !ms[i].fib[e.fid].done
    ensures ms[i].pc.Reaping? ==>
      && Enabled(ms[i], Label.Reap) && Safe(DoReap(ms[i]))
      && forall e <- DoReap(ms[i]).pending :: e.fid in DoReap(ms[i]).fib
  {
    hide Safe, Next, CleanReturn, NoneDangles;
    forall m, l, m' | Tidy(m) && CleanReturn(m, l) && Next(m, l, m') ensures Tidy(m') {
      TidyStep(m, l, m');
    }
    TidyInitial(cfg);
    Invariance(ms, ls, Tidy, CleanReturn, 0, i);
    TidyIs(ms[i]);
    if ms[i].pc.Reaping? {
      ReaperGoesOn(ms[i]);
    }
  }

  lemma TidyInitial(cfg: Config)
    ensures Tidy(Initial(cfg))
  {
    InitialSafe(cfg);
  }

  lemma TidyIs(m: Mod)
    requires Tidy(m)
    ensures Sound(m) && forall e <- m.pending :: e.fid in m.fib && !m.fib[e.fid].done
  {
    InvSound(m);
  }

  /** The same for sequences that return when they have collected all they asked for. */
  lemma NothingLeftIfCollected(cfg: Config, ms: seq<Mod>, ls: seq<Label>, i: nat)
    requires RunFrom(cfg, ms, ls) && i < |ms|
    requires forall k :: 0 <= k < i ==> CollectedReturn(ms[k], ls[k])
    ensures Tidy(ms[i]) && (ms[i].pc.Reaping? ==> Enabled(ms[i], Label.Reap))
  {
    hide Safe, Next, NothingOpen;
    forall k | 0 <= k < i ensures CleanReturn(ms[k], ls[k]) {
      StepAt(ms, ls, k);
      RunIsSafe(cfg, ms, ls, k);
      CollectedIsClean(ms[k], ls[k]);
    }
    NothingLeftBehind(cfg, ms, ls, i);
  }

  lemma CollectedIsClean(m: Mod, l: Label)
    requires Safe(m) && Enabled(m, l) && CollectedReturn(m, l)
    ensures CleanReturn(m, l)
  {
    if l == Act(Return) {
      assert FiberOk(m.current.value, m.fib[m.current.value], true, m.pending);
    }
  }

  // ---------------------------------------------------------------- returning with requests open

  /** `f` has returned, and its counter still says what it has in the table and in its queue. */
  ghost predicate ReturnedWith(m: Mod, f: nat) {
    f in m.fib && m.fib[f].done && Idle(m.fib[f]) && Accounted(f, m.fib[f], false, m.pending)
  }

  /** A sequence that returns leaves its account as it is. */
  lemma EarlyReturn(m: Mod, f: nat)
    requires Inv(m) && m.current == Some(f) && f in m.fib && m.fib[f].point == AtUser
    ensures var r := DoAct(m, Return);
      ReturnedWith(r, f) && r.fib[f].outstanding == m.fib[f].outstanding && r.fib[f].rq == m.fib[f].rq
    ensures m.fib[f].outstanding == Count(m.pending, f) + |m.fib[f].rq|
  {
    assert FiberOk(f, m.fib[f], true, m.pending);
  }

  /** A reply that comes before it is reaped is queued at the finished fiber, where nobody collects it. */
  lemma ReplyToReturned(m: Mod, e: Event, f: nat)
    requires ReturnedWith(m, f) && e.Reply? && Peek(m.pending, e.id) == Some(f)
    requires forall p <- m.pending :: p.fid in m.fib
    ensures var r := HandleReply(m, e);
      ReturnedWith(r, f) && r.fib[f].rq == m.fib[f].rq + [ArrivalOf(e)] && r.current == m.current
      && r.fib[f].outstanding == m.fib[f].outstanding
  {
    TakeCount(m.pending, e.id, f);
  }

  /** Reaping a finished fiber leaves an entry of it in the table, which then refers to nothing, exactly if a
      request of it is unanswered: if more replies are outstanding than are queued. */
  lemma DanglesIff(m: Mod, f: nat)
    requires ReturnedWith(m, f) && (forall g <- m.order :: g in m.fib) && (m.locked.Some? ==> m.locked.value in m.fib)
    ensures f !in DoReap(m).fib
    ensures (exists e <- DoReap(m).pending :: e.fid == f) <==> m.fib[f].outstanding > |m.fib[f].rq|
  {
    CountZero(m.pending, f);
  }

  /** The step handles a reply to an entry of `f`. */
  ghost predicate Answers(m: Mod, l: Label, f: nat) {
    && l == EventTurn && m.q.batch != [] && m.q.batch[0].ev.Reply?
    && Peek(m.pending, m.q.batch[0].ev.id) == Some(f) && (m.locked.None? || m.locked == Some(f))
  }

  ghost function AnswersAt(m: Mod, l: Label, f: nat): nat {
    if Answers(m, l, f) then 1 else 0
  }

  /** How many replies to `f` are handled from step `a` up to step `b`. */
  ghost function AnswersIn(ms: seq<Mod>, ls: seq<Label>, a: nat, b: nat, f: nat): nat
    requires a <= b <= |ls| < |ms|
    decreases b
  {
    if a == b then 0 else AnswersIn(ms, ls, a, b - 1, f) + AnswersAt(ms[b - 1], ls[b - 1], f)
  }

  /** The fiber has returned with `n` replies outstanding, and `k` are in its queue. */
  ghost predicate Left(m: Mod, f: nat, n: int, k: nat) {
    Safe(m) && f in m.fib && m.fib[f].done && m.fib[f].outstanding == n && |m.fib[f].rq| == k
  }

  lemma LeftIs(m: Mod, f: nat, n: int, k: nat)
    requires Left(m, f, n, k)
    ensures ReturnedWith(m, f) && m.current != Some(f) && f < m.hist.nextFid && Sound(m) && FiberInv(m) && Safe(m)
  {
    assert FiberOk(f, m.fib[f], m.current == Some(f), m.pending);
  }

  lemma LeftEvent(m: Mod, f: nat, n: int, k: nat)
    requires Left(m, f, n, k) && m.pc.Events? && m.current.None? && forall p <- m.pending :: p.fid in m.fib
    ensures var r := DoEventTurn(m);
      && f in r.fib && r.fib[f].done && r.fib[f].outstanding == n
      && |r.fib[f].rq| == if Answers(m, EventTurn, f) then k + 1 else k
  {
    hide DoEventTurn, HandleReply, Safe, FiberInv, Sound;
    LeftIs(m, f, n, k);
    EventCases(m);
    if m.q.batch != [] && m.q.batch[0].ev.Reply? {
      var e, used := m.q.batch[0].ev, m.(q := Consume(m.q));
      ReplyFrame(used, e);
      if Peek(m.pending, e.id) == Some(f) {
        ReplyToReturned(used, e, f);
        StillDone(used, e, f);
      }
    }
  }

  lemma StillDone(m: Mod, e: Event, f: nat)
    requires ReturnedWith(m, f) && e.Reply? && forall p <- m.pending :: p.fid in m.fib
    ensures f in HandleReply(m, e).fib && HandleReply(m, e).fib[f].done
  {
    PeekFindsEntry(m.pending, e.id);
  }

  lemma LeftTimer(m: Mod, f: nat)
    requires ReturnedWith(m, f) && m.pc.Timers? && forall g <- m.pc.todo :: g in m.fib
    ensures f in DoTimerTurn(m).fib && DoTimerTurn(m).fib[f] == m.fib[f]
  {}

  lemma LeftStep(m: Mod, l: Label, m': Mod, f: nat, n: int, k: nat)
    requires Left(m, f, n, k) && l != Label.Reap && Next(m, l, m')
    ensures Left(m', f, n, k + AnswersAt(m, l, f))
  {
    hide Safe, DoTimerTurn, DoEventTurn, FiberInv;
    SafeStep(m, l, m');
    LeftIs(m, f, n, k);
    match l
    case TimerTurn => LeftTimer(m, f);
    case EventTurn => LeftEvent(m, f, n, k);
    case Act(a) => ActFrame(m, a);
    case _ =>
  }

  lemma {:induction false} LeftUntil(ms: seq<Mod>, ls: seq<Label>, a: nat, b: nat, f: nat, n: int, k: nat)
    requires IsRun(ms, ls) && a <= b < |ms| && Left(ms[a], f, n, k)
    requires forall i :: a <= i < b ==> ls[i] != Label.Reap
    ensures Left(ms[b], f, n, k + AnswersIn(ms, ls, a, b, f))
    decreases b
  {
    hide Left, Next, AnswersAt, IsRun;
    if a < b {
      StepAt(ms, ls, b - 1);
      LeftUntil(ms, ls, a, b - 1, f, n, k);
      LeftStep(ms[b - 1], ls[b - 1], ms[b], f, n, k + AnswersIn(ms, ls, a, b - 1, f));
    }
  }

  /** What a sequence leaves behind, from its return at step `i` to the reaper at state `j`: an entry of it
      stays in the table when it is freed exactly if fewer replies to it have been handled in between than
      it had entries when it returned. */
  lemma DanglesFromReturn(cfg: Config, ms: seq<Mod>, ls: seq<Label>, i: nat, j: nat, f: nat)
    requires RunFrom(cfg, ms, ls) && i < j < |ms| && ls[i] == Act(Return) && ms[i].current == Some(f)
    requires ms[j].pc.Reaping? && forall k :: i < k < j ==> ls[k] != Label.Reap
    ensures (forall g <- ms[j].order :: g in ms[j].fib) && (ms[j].locked.Some? ==> ms[j].locked.value in ms[j].fib)
    ensures f !in DoReap(ms[j]).fib
    ensures (exists e <- DoReap(ms[j]).pending :: e.fid == f)
            <==> AnswersIn(ms, ls, i + 1, j, f) < Count(ms[i].pending, f)
  {
    hide Safe, Left, Next, Answers, IsRun;
    StepAt(ms, ls, i);
    RunIsSafe(cfg, ms, ls, i);
    RunIsSafe(cfg, ms, ls, i + 1);
    ReturnLeaves(ms[i], ms[i + 1], f);
    var n, k := ms[i].fib[f].outstanding, |ms[i].fib[f].rq|;
    LeftUntil(ms, ls, i + 1, j, f, n, k);
    AtReaper(ms[j], f, n, k + AnswersIn(ms, ls, i + 1, j, f));
  }

  lemma ReturnLeaves(m: Mod, m': Mod, f: nat)
    requires Safe(m) && Safe(m') && m.current == Some(f) && Next(m, Act(Return), m')
    ensures f in m.fib && m.fib[f].outstanding == Count(m.pending, f) + |m.fib[f].rq|
    ensures Left(m', f, m.fib[f].outstanding, |m.fib[f].rq|)
  {
    EarlyReturn(m, f);
  }

  lemma AtReaper(m: Mod, f: nat, n: int, k: nat)
    requires Left(m, f, n, k) && m.pc.Reaping?
    ensures (forall g <- m.order :: g in m.fib) && (m.locked.Some? ==> m.locked.value in m.fib)
    ensures f !in DoReap(m).fib && ((exists e <- DoReap(m).pending :: e.fid == f) <==> n > k)
  {
    LeftIs(m, f, n, k);
    DanglesIff(m, f);
  }

  /** The reaper can go on without leaving a reference to a freed fiber exactly if no finished fiber has more
      replies outstanding than queued. */
  lemma ReapIff(m: Mod)
    requires Inv(m) && m.pc.Reaping?
    ensures Enabled(m, Label.Reap) <==> forall f <- m.fib :: m.fib[f].done ==> m.fib[f].outstanding <= |m.fib[f].rq|
  {
    forall f | f in m.fib && m.fib[f].done
      ensures m.fib[f].outstanding <= |m.fib[f].rq| <==> forall e <- m.pending :: e.fid != f
    {
      assert FiberOk(f, m.fib[f], false, m.pending);
      CountZero(m.pending, f);
    }
  }

  // ---------------------------------------------------------------- the reaper over whole runs

  /** `f` returns at step `k`, and the state `i` is before the next reaping. */
  ghost predicate ReturnsAt(ms: seq<Mod>, ls: seq<Label>, k: nat, i: nat, f: nat)
    requires k < i <= |ls| < |ms|
  {
    ls[k] == Act(Return) && ms[k].current == Some(f) && forall j :: k < j < i ==> ls[j] != Label.Reap
  }

  /** A step finishes nobody but a sequence that returns, and reaping leaves nobody finished. */
  lemma FinishStep(m: Mod, l: Label, m': Mod, f: nat)
    requires Safe(m) && Next(m, l, m') && f in m'.fib && m'.fib[f].done
    ensures (l == Act(Return) && m.current == Some(f)) || (l != Label.Reap && f in m.fib && m.fib[f].done)
  {
    hide Safe, DoAct, DoEventTurn, DoTimerTurn, Nearest, Alive;
    match l
    case TimerTurn =>
      if m.pc.todo == [] {
        TimersOver(m);
      } else {
        TimerFrame(m);
      }
    case EventTurn => FinishEvent(m, f);
    case Act(a) =>
      ActFrame(m, a);
      if a != Return {
        StaysUnfinished(m, a);
      }
    case _ =>
  }

  lemma FinishEvent(m: Mod, f: nat)
    requires (forall p <- m.pending :: p.fid in m.fib) && f in DoEventTurn(m).fib && DoEventTurn(m).fib[f].done
    ensures f in m.fib && m.fib[f].done
  {
    hide DoEventTurn, HandleReply;
    EventCases(m);
    if m.q.batch != [] && m.q.batch[0].ev.Reply? {
      ReplyDone(m.(q := Consume(m.q)), m.q.batch[0].ev);
    }
  }

  /** Every finished fiber has returned, and not been reaped since. */
  lemma {:induction false} FinishedReturned(cfg: Config, ms: seq<Mod>, ls: seq<Label>, i: nat, f: nat) returns (k: nat)
    requires RunFrom(cfg, ms, ls) && i < |ms| && f in ms[i].fib && ms[i].fib[f].done
    ensures k < i <= |ls| < |ms| && ReturnsAt(ms, ls, k, i, f)
    decreases i
  {
    hide Safe, Next;
    assert i > 0;
    StepAt(ms, ls, i - 1);
    RunIsSafe(cfg, ms, ls, i - 1);
    FinishStep(ms[i - 1], ls[i - 1], ms[i], f);
    if ls[i - 1] == Act(Return) && ms[i - 1].current == Some(f) {
      k := i - 1;
    } else {
      k := FinishedReturned(cfg, ms, ls, i - 1, f);
    }
  }

  /** A return of `f` at step `k` has by state `i` been answered as often as it left entries. */
  ghost predicate AnsweredInTime(ms: seq<Mod>, ls: seq<Label>, k: nat, i: nat, f: nat)
    requires k < i <= |ls| < |ms|
  {
    ReturnsAt(ms, ls, k, i, f) ==> AnswersIn(ms, ls, k + 1, i, f) >= Count(ms[k].pending, f)
  }

  /** Exactly when a run can go past its reaper, whatever sequences return with: if each sequence that returned
      since the last reaping has had as many replies handled since as it left requests in the table. */
  lemma ReaperIff(cfg: Config, ms: seq<Mod>, ls: seq<Label>, i: nat)
    requires RunFrom(cfg, ms, ls) && i < |ms| && ms[i].pc.Reaping?
    ensures i <= |ls| && (Enabled(ms[i], Label.Reap) <==> forall k, f :: 0 <= k < i ==> AnsweredInTime(ms, ls, k, i, f))
  {
    hide Safe, Next, AnswersIn, ReturnsAt;
    RunIsSafe(cfg, ms, ls, i);
    if Enabled(ms[i], Label.Reap) {
      forall k: nat, f | k < i ensures AnsweredInTime(ms, ls, k, i, f) {
        if ReturnsAt(ms, ls, k, i, f) {
          AnsweredIfReaped(cfg, ms, ls, k, i, f);
        }
      }
    } else {
      var e := Dangler(ms[i]);
      var k := FinishedReturned(cfg, ms, ls, i, e.fid);
      UnansweredIfDangling(cfg, ms, ls, k, i, e.fid);
      assert !AnsweredInTime(ms, ls, k, i, e.fid);
    }
  }

  lemma Dangler(m: Mod) returns (e: Entry)
    requires Safe(m) && m.pc.Reaping? && !Enabled(m, Label.Reap)
    ensures e in m.pending && e.fid in m.fib && m.fib[e.fid].done
  {
    e :| e in m.pending && e.fid in m.fib && m.fib[e.fid].done;
  }

  lemma AnsweredIfReaped(cfg: Config, ms: seq<Mod>, ls: seq<Label>, k: nat, i: nat, f: nat)
    requires RunFrom(cfg, ms, ls) && k < i < |ms| && ms[i].pc.Reaping? && Enabled(ms[i], Label.Reap)
    requires ReturnsAt(ms, ls, k, i, f)
    ensures AnswersIn(ms, ls, k + 1, i, f) >= Count(ms[k].pending, f)
  {
    hide Safe, Next, AnswersIn;
    DanglesFromReturn(cfg, ms, ls, k, i, f);
    RunIsSafe(cfg, ms, ls, i);
    SafeSound(ms[i]);
    NoneLeft(ms[i], f);
  }

  lemma SafeSound(m: Mod)
    requires Safe(m)
    ensures Sound(m)
  {
    InvSound(m);
  }

  lemma NoneLeft(m: Mod, f: nat)
    requires Safe(m) && Enabled(m, Label.Reap) && Sound(m) && f !in DoReap(m).fib
    ensures forall e <- DoReap(m).pending :: e.fid != f
  {}

  lemma UnansweredIfDangling(cfg: Config, ms: seq<Mod>, ls: seq<Label>, k: nat, i: nat, f: nat)
    requires RunFrom(cfg, ms, ls) && k < i < |ms| && ms[i].pc.Reaping? && ReturnsAt(ms, ls, k, i, f)
    requires exists e <- ms[i].pending :: e.fid == f
    ensures AnswersIn(ms, ls, k + 1, i, f) < Count(ms[k].pending, f)
  {
    hide Safe, Next, AnswersIn;
    DanglesFromReturn(cfg, ms, ls, k, i, f);
    assert DoReap(ms[i]).pending == ms[i].pending;
  }

  // ---------------------------------------------------------------- what the caller can tell

  /** A run from `n` to the next reaping. */
  ghost predicate ToReaper(n: Mod, ms: seq<Mod>, ls: seq<Label>) {
    IsRun(ms, ls) && ms[0] == n && ms[|ls|].pc.Reaping? && forall k :: 0 <= k < |ls| ==> ls[k] != Label.Reap
  }

  /** The running fiber returns while the queues are `q`, and `ms` goes on from there to the reaper. */
  ghost predicate GoesOn(m: Mod, q: Queues, ms: seq<Mod>, ls: seq<Label>)
    requires m.current.Some? && m.current.value in m.fib
  {
    Inv(m.(q := q)) && ToReaper(DoAct(m.(q := q), Return), ms, ls)
  }

  ghost predicate HasEntry(m: Mod, f: nat) {
    exists e <- m.pending :: e.fid == f
  }

  /** At the end of the run an entry of `f` is in the table. */
  ghost predicate LeavesEntry(ms: seq<Mod>, ls: seq<Label>, f: nat) {
    |ls| < |ms| && HasEntry(ms[|ls|], f)
  }

  lemma RunBefore(n: Mod, l: Label, n': Mod, ms: seq<Mod>, ls: seq<Label>)
    requires Next(n, l, n') && l != Label.Reap && ToReaper(n', ms, ls)
    ensures ToReaper(n, [n] + ms, [l] + ls)
  {
    hide Next;
    var ms', ls' := [n] + ms, [l] + ls;
    forall k {:trigger ls'[k]} | 0 <= k < |ls'| ensures Next(ms'[k], ls'[k], ms'[k + 1]) && ls'[k] != Label.Reap {
      if k > 0 {
        assert ls'[k] == ls[k - 1] && ms'[k] == ms[k - 1] && ms'[k + 1] == ms[k];
      }
    }
  }

  /** `f` has returned with more outstanding than queued, in a pass whose batch is used up. */
  ghost predicate LeftOver(m: Mod, f: nat, n: int, k: nat) {
    Left(m, f, n, k) && m.q.batch == [] && (m.pc.Timers? || m.pc.Events?)
  }

  lemma LeftOn(m: Mod, l: Label, m': Mod, f: nat, n: int, k: nat)
    requires Left(m, f, n, k) && m.q.batch == [] && l != Label.Reap && Next(m, l, m')
    ensures Left(m', f, n, k)
  {
    LeftStep(m, l, m', f, n, k);
  }

  /** A fiber resumed by its timer goes to sleep again. */
  lemma SleepsAgain(m: Mod, g: nat, f: nat, n: int, k: nat) returns (c: Mod, s: Mod)
    requires LeftOver(m, f, n, k) && m.pc.Timers? && m.current == Some(g) && g in m.fib && m.fib[g].point != AtUser
    ensures Next(m, Act(Continue), c) && Next(c, Act(Sleep(0, Timespec(0, 0))), s)
    ensures LeftOver(s, f, n, k) && s.current.None? && s.pc == m.pc
  {
    hide Left, Safe, DoContinue, DoAct, Sound, MayAct;
    LeftIs(m, f, n, k);
    c := DoContinue(m);
    Continues(m, g);
    LeftOn(m, Act(Continue), c, f, n, k);
    LeftIs(c, f, n, k);
    s := Sleeps(c, g);
    LeftOn(c, Act(Sleep(0, Timespec(0, 0))), s, f, n, k);
  }

  lemma Continues(m: Mod, g: nat)
    requires Sound(m) && m.current == Some(g) && g in m.fib && m.fib[g].point != AtUser
    ensures var c := DoContinue(m);
      && Next(m, Act(Continue), c) && c.q == m.q && c.pc == m.pc && c.current == Some(g)
      && g in c.fib && c.fib[g].point == AtUser
  {
    hide DoContinue, Sound;
    ContinueIs(m);
  }

  lemma Sleeps(c: Mod, g: nat) returns (s: Mod)
    requires Sound(c) && c.current == Some(g) && g in c.fib && c.fib[g].point == AtUser
    ensures Next(c, Act(Sleep(0, Timespec(0, 0))), s) && s.q == c.q && s.pc == c.pc && s.current.None?
  {
    hide Sound;
    s := DoAct(c, Sleep(0, Timespec(0, 0)));
  }

  lemma FiredPoint(m: Mod)
    requires Safe(m) && m.pc.Timers? && m.current.None? && m.pc.todo != [] && Sound(m)
    ensures var r := DoTimerTurn(m);
      && r.q == m.q && r.pc == Timers(m.pc.now, m.pc.todo[1..])
      && (r.current.Some? ==> r.current.value in r.fib && r.fib[r.current.value].point != AtUser)
  {
    var g := m.pc.todo[0];
    assert FiberOk(g, m.fib[g], false, m.pending);
    TimerFrame(m);
    TimerPoint(m);
  }

  lemma TimerPoint(m: Mod)
    requires m.pc.Timers? && m.pc.todo != [] && forall f <- m.pc.todo :: f in m.fib
    ensures var r, g := DoTimerTurn(m), m.pc.todo[0];
      g in r.fib && r.fib[g].point == m.fib[g].point && (r.current == m.current || m.fib[g].waitingTimer)
  {
    hide Take, SetStage;
  }

  /** From there the reaper can be reached without another reply to `f`. */
  lemma {:induction false} ReachesReaper(m: Mod, f: nat, n: int, k: nat) returns (ms: seq<Mod>, ls: seq<Label>)
    requires LeftOver(m, f, n, k) && m.current.None?
    ensures ToReaper(m, ms, ls) && |ls| < |ms| && Left(ms[|ls|], f, n, k)
    decreases if m.pc.Timers? then |m.pc.todo| + 1 else 0
  {
    hide Left, Safe, Next, ToReaper, Sound;
    LeftIs(m, f, n, k);
    if m.pc.Events? {
      var r := m.(pc := Reaping);
      EndsBatch(m);
      LeftOn(m, EventTurn, r, f, n, k);
      AtLast(r);
      RunBefore(m, EventTurn, r, [r], []);
      ms, ls := [m] + [r], [EventTurn] + [];
    } else {
      var r := DoTurn(m);
      LeftOn(m, TimerTurn, r, f, n, k);
      var rest, more;
      if r.current.None? {
        rest, more := ReachesReaper(r, f, n, k);
      } else {
        var c, s := SleepsAgain(r, r.current.value, f, n, k);
        rest, more := ReachesReaper(s, f, n, k);
        var l := Act(Sleep(0, Timespec(0, 0)));
        RunBefore(c, l, s, rest, more);
        RunBefore(r, Act(Continue), c, [c] + rest, [l] + more);
        rest, more := [r] + ([c] + rest), [Act(Continue)] + ([l] + more);
      }
      RunBefore(m, TimerTurn, r, rest, more);
      ms, ls := [m] + rest, [TimerTurn] + more;
    }
  }

  lemma EndsBatch(m: Mod)
    requires Sound(m) && m.pc.Events? && m.current.None? && m.q.batch == []
    ensures Next(m, EventTurn, m.(pc := Reaping))
  {}

  lemma AtLast(m: Mod)
    requires m.pc.Reaping?
    ensures ToReaper(m, [m], [])
  {}

  lemma DoTurn(m: Mod) returns (r: Mod)
    requires Safe(m) && Sound(m) && m.pc.Timers? && m.current.None? && m.q.batch == []
    ensures Next(m, TimerTurn, r) && r.q.batch == []
    ensures if m.pc.todo == [] then r.pc.Events? && r.current.None? else r.pc.Timers? && |r.pc.todo| < |m.pc.todo|
    ensures r.current.Some? ==> r.current.value in r.fib && r.fib[r.current.value].point != AtUser
  {
    hide Safe, DoTimerTurn;
    r := DoTimerTurn(m);
    if m.pc.todo == [] {
      TimersOver(m);
    } else {
      FiredPoint(m);
    }
  }

  lemma OtherQueues(m: Mod, q: Queues)
    requires Safe(m) && Inv(m.(q := q))
    ensures Safe(m.(q := q))
  {}

  lemma NoEventsKeep(m: Mod)
    requires Inv(m)
    ensures Inv(m.(q := NO_EVENTS))
  {
    NothingPosted();
  }

  lemma ReturnHere(m: Mod, q: Queues, f: nat)
    requires Safe(m) && m.current == Some(f) && MayAct(m, Return)
    ensures var n := DoAct(m.(q := q), Return);
      n.q == q && n.current.None? && n.pc == m.pc && (m.pc.Timers? || m.pc.Events?) && f in m.fib
  {}

  /** After the return, with the queues `q`: the account that is left. */
  lemma ReturnsWith(m: Mod, q: Queues, f: nat)
    requires Safe(m) && m.current == Some(f) && MayAct(m, Return) && Inv(m.(q := q))
    ensures f in m.fib && Left(DoAct(m.(q := q), Return), f, m.fib[f].outstanding, |m.fib[f].rq|)
    ensures DoAct(m.(q := q), Return).q == q && DoAct(m.(q := q), Return).current.None?
    ensures DoAct(m.(q := q), Return).pc.Timers? || DoAct(m.(q := q), Return).pc.Events?
    ensures m.fib[f].outstanding == Count(m.pending, f) + |m.fib[f].rq|
  {
    hide Safe, Inv, Left, DoAct;
    var n := m.(q := q);
    OtherQueues(m, q);
    SafeSound(n);
    ReturnHere(m, q, f);
    SafeStep(n, Act(Return), DoAct(n, Return));
    ReturnLeaves(n, DoAct(n, Return), f);
  }

  lemma LeftEntries(m: Mod, f: nat, n: int, k: nat)
    requires Left(m, f, n, k)
    ensures n >= k && (HasEntry(m, f) <==> n > k)
  {
    LeftIs(m, f, n, k);
    CountZero(m.pending, f);
  }

  /** When a sequence can return without leaving anything behind, whatever is handled after it: exactly if none
      of its requests is in the table. With one there, a run goes on to a reaper that finds it unanswered;
      without one, none does. What the caller itself can see is that it has collected every reply it asked
      for, and that is enough (`Locking.AllCollected`). */
  lemma ReturnSafeIff(m: Mod, f: nat)
    requires Safe(m) && m.current == Some(f) && f in m.fib && MayAct(m, Return)
    ensures NothingOpen(m) <==> forall q, ms, ls :: GoesOn(m, q, ms, ls) ==> !LeavesEntry(ms, ls, f)
  {
    hide Safe, Inv, Left, ToReaper, LeavesEntry, HasEntry, DoAct, MayAct;
    if NothingOpen(m) {
      forall q, ms, ls | GoesOn(m, q, ms, ls) ensures !LeavesEntry(ms, ls, f) {
        CleanGoesOn(m, q, ms, ls, f);
      }
    } else {
      NoEventsFrom(m);
      OpenCounts(m, f);
      ReturnsWith(m, NO_EVENTS, f);
      var n := DoAct(m.(q := NO_EVENTS), Return);
      var ms, ls := ReachesReaper(n, f, m.fib[f].outstanding, |m.fib[f].rq|);
      LeavesIt(n, ms, ls, f, m.fib[f].outstanding, |m.fib[f].rq|);
      assert GoesOn(m, NO_EVENTS, ms, ls);
    }
  }

  lemma LeavesIt(m: Mod, ms: seq<Mod>, ls: seq<Label>, f: nat, n: int, k: nat)
    requires ToReaper(m, ms, ls) && Left(ms[|ls|], f, n, k) && n > k
    ensures LeavesEntry(ms, ls, f)
  {
    hide Left, HasEntry;
    LeftEntries(ms[|ls|], f, n, k);
  }

  /** That the counter exceeds the queue follows from an entry in the table. */
  lemma OpenCounts(m: Mod, f: nat)
    requires Safe(m) && m.current == Some(f) && f in m.fib && MayAct(m, Return) && !NothingOpen(m)
    ensures m.fib[f].outstanding > |m.fib[f].rq|
  {
    assert FiberOk(f, m.fib[f], true, m.pending);
  }

  lemma NoEventsFrom(m: Mod)
    requires Safe(m)
    ensures Inv(m.(q := NO_EVENTS))
  {
    NoEventsKeep(m);
  }

  lemma CleanGoesOn(m: Mod, q: Queues, ms: seq<Mod>, ls: seq<Label>, f: nat)
    requires Safe(m) && m.current == Some(f) && f in m.fib && MayAct(m, Return) && NothingOpen(m)
    requires GoesOn(m, q, ms, ls)
    ensures !LeavesEntry(ms, ls, f)
  {
    hide Safe, Inv, Left, HasEntry, DoAct, MayAct, Next;
    ReturnsWith(m, q, f);
    LeftUntil(ms, ls, 0, |ls|, f, m.fib[f].outstanding, |m.fib[f].rq|);
    LeftEntries(ms[|ls|], f, m.fib[f].outstanding, |m.fib[f].rq| + AnswersIn(ms, ls, 0, |ls|, f));
  }
}
