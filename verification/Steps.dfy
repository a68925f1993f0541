/** What one step of a module can add to its history, seen from the other modules. */
module Steps {
  import opened Base
  import opened Time
  import opened Pending
  import opened EventQueues
  import opened Machine
  import opened Frames
  import opened Invariant
  import opened Runs

  predicate Allocates(l: Label) {
    l.Act? && (l.a.Request? || l.a.RequestAsync? || l.a.Send?)
  }

  /** The same request: only its stage may differ. */
  predicate SameIssue(a: Issue, b: Issue) {
    a.kind == b.kind && a.fid == b.fid && a.target == b.target && a.seqIdx == b.seqIdx && a.msg == b.msg
  }

  ghost predicate IssuesGrow(m: Mod, l: Label, m': Mod) {
    && m'.next == (if Allocates(l) then m.next + 1 else m.next)
    && (forall id <- m.hist.issues :: id in m'.hist.issues
          && (SameIssue(m'.hist.issues[id], m.hist.issues[id]) || (Allocates(l) && id == m.next)))
    && (forall id <- m'.hist.issues :: id in m.hist.issues || (Allocates(l) && id == m.next))
    && (Allocates(l) ==> m.next in m'.hist.issues && m'.hist.issues[m.next].target == l.a.target
                         && m'.hist.issues[m.next].seqIdx == l.a.seqIdx && m'.hist.issues[m.next].msg == l.a.msg)
  }

  /** Fiber `fb` was started by event `e` and still has the role that gave it. */
  predicate StartedBy(fb: Fiber, e: Event) {
    match e
    case Start(s, id, r, _) => !fb.handler && fb.seqIdx == s && fb.replyTo == r && fb.replyId == id
    case Notify(_, _, _, _) => fb.handler && fb.seqIdx == 0 && fb.replyTo == EXTERNAL && fb.replyId == 0
    case Reply(_, _, _, _, _) => false
  }

  ghost predicate EventIn(e: Event, s: seq<Stamped>) {
    exists i :: 0 <= i < |s| && s[i].ev == e
  }

  ghost predicate BornGrow(m: Mod, m': Mod) {
    && m.hist.nextFid <= m'.hist.nextFid
    && (forall f <- m.hist.born :: f in m'.hist.born
          && (m'.hist.born[f] == m.hist.born[f] || f == m.hist.nextFid))
    && (forall f <- m'.hist.born :: f in m.hist.born
          || (f == m.hist.nextFid < m'.hist.nextFid && !m'.hist.born[f].Reply? && EventIn(m'.hist.born[f], Live(m.q))))
  }

  ghost predicate RolesKept(m: Mod, m': Mod) {
    forall f <- m'.fib ::
      || (f in m.fib && SameRole(m'.fib[f], m.fib[f]) && (m.fib[f].done ==> m'.fib[f].done))
      || (f == m.hist.nextFid && f in m'.hist.born && StartedBy(m'.fib[f], m'.hist.born[f])
          && EventIn(m'.hist.born[f], Live(m.q)))
  }

  ghost predicate SentGrow(m: Mod, l: Label, m': Mod) {
    && m.hist.sent <= m'.hist.sent
    && (forall s <- m'.hist.sent :: s in m.hist.sent
          || (l.Act? && l.a.Answer? && m.current.Some? && m.current.value in m.fib
              && s == Sent(m.current.value, m.fib[m.current.value].replyTo, m.fib[m.current.value].replyId,
                           l.a.result, l.a.msg)))
    && (l.Act? && l.a.Answer? && m.current.Some? && m.current.value in m.fib ==>
          Sent(m.current.value, m.fib[m.current.value].replyTo, m.fib[m.current.value].replyId, l.a.result, l.a.msg)
          in m'.hist.sent)
  }

  ghost predicate FirstGrow(m: Mod, m': Mod) {
    forall id <- m'.hist.first ::
      || (id in m.hist.first && m'.hist.first[id] == m.hist.first[id])
      || (m'.hist.first[id].Reply? && m'.hist.first[id].id == id && EventIn(m'.hist.first[id], Live(m.q)))
  }

  ghost predicate LiveShrinks(m: Mod, m': Mod) {
    forall e :: EventIn(e, Live(m'.q)) ==> EventIn(e, Live(m.q))
  }

  /** The summary of a step that is not an arrival. */
  ghost predicate LocalStep(m: Mod, l: Label, m': Mod) {
    && m'.cfg == m.cfg && LiveShrinks(m, m') && IssuesGrow(m, l, m') && BornGrow(m, m')
    && RolesKept(m, m') && SentGrow(m, l, m') && FirstGrow(m, m')
  }

  lemma LiveStep(q: Queues)
    ensures q.batch == [] ==> Live(Splice(q)) == Live(q) && Live(TakeBatch(q)) == Live(q)
    ensures q.batch != [] ==> Live(Defer(q)) == Live(q)
    ensures q.batch != [] ==> forall e :: EventIn(e, Live(Consume(q))) ==> EventIn(e, Live(q))
    ensures q.batch != [] ==> EventIn(q.batch[0].ev, Live(q))
  {
    if q.batch != [] {
      ConsumeLive(q);
      assert Live(Defer(q)) == Live(q);
      forall e | EventIn(e, Live(Consume(q))) ensures EventIn(e, Live(q)) {
        var i :| 0 <= i < |Live(Consume(q))| && Live(Consume(q))[i].ev == e;
        assert Live(q)[if i < |q.deferred| then i else i + 1].ev == e;
      }
    } else {
      assert Live(Splice(q)) == Live(q) && Live(TakeBatch(q)) == Live(q);
    }
  }

  /** A step of the scheduler that starts no fiber, takes no reply and makes none. */
  lemma Quiet(m: Mod, l: Label, m': Mod)
    requires !l.Act? && m'.cfg == m.cfg && m'.next == m.next && LiveShrinks(m, m')
    requires m'.hist.nextFid == m.hist.nextFid && m'.hist.born == m.hist.born && m'.hist.sent == m.hist.sent
    requires m'.hist.first == m.hist.first && m'.hist.issues.Keys == m.hist.issues.Keys
    requires forall id <- m.hist.issues :: SameIssue(m'.hist.issues[id], m.hist.issues[id])
    requires forall f <- m'.fib :: f in m.fib && SameRole(m'.fib[f], m.fib[f]) && m'.fib[f].done == m.fib[f].done
    ensures LocalStep(m, l, m')
  {}

  lemma LocalEnter(m: Mod, now: Timespec)
    requires m.q.batch == [] && forall f <- m.order :: f in m.fib
    ensures LocalStep(m, Enter(now), DoEnter(m, now))
  {
    hide LocalStep, Nearest, Live;
    LiveStep(m.q);
    LiveStep(Splice(m.q));
    Quiet(m, Enter(now), DoEnter(m, now));
  }

  lemma LocalWake(m: Mod, now: Timespec)
    requires m.q.batch == []
    ensures LocalStep(m, Wake(now), Proceed(m, now))
  {
    hide LocalStep, Live;
    LiveStep(m.q);
    Quiet(m, Wake(now), Proceed(m, now));
  }

  lemma TimerIssues(m: Mod)
    requires m.pc.Timers? && forall f <- m.pc.todo :: f in m.fib
    ensures var r := DoTimerTurn(m);
      && r.hist.issues.Keys == m.hist.issues.Keys
      && forall id <- m.hist.issues :: SameIssue(r.hist.issues[id], m.hist.issues[id])
  {
    hide SetStage, Take, Before;
    if m.pc.todo != [] {
      var id := m.fib[m.pc.todo[0]].waitId;
      StageIssues(m.hist.(timedOut := m.hist.timedOut + {id}), id, InHand);
    }
  }

  lemma StageIssues(h: History, id: nat, stage: Stage)
    ensures forall i <- h.issues :: SameIssue(SetStage(h, id, stage).issues[i], h.issues[i])
  {}

  lemma LocalTimer(m: Mod)
    requires m.pc.Timers? && forall f <- m.pc.todo :: f in m.fib
    requires FiberInv(m) && m.current.None?
    ensures LocalStep(m, TimerTurn, DoTimerTurn(m))
  {
    hide DoTimerTurn, FiberInv, LocalStep;
    TimerIssues(m);
    if m.pc.todo == [] {
      TimersOver(m);
    } else {
      TimerFrame(m);
    }
    Quiet(m, TimerTurn, DoTimerTurn(m));
  }

  /** A handled reply, from a state whose queues are those after the reply was taken off. */
  lemma LocalReply(m: Mod, m0: Mod, e: Event)
    requires e.Reply? && forall p <- m.pending :: p.fid in m.fib
    requires m0 == m.(q := m0.q) && LiveShrinks(m, m0) && EventIn(e, Live(m.q))
    ensures LocalStep(m, EventTurn, HandleReply(m0, e))
  {
    hide HandleReply, Peek, Take, Live;
    ReplyFrame(m0, e);
    ReplyDone(m0, e);
    ReplyIssues(m0, e);
  }

  lemma ReplyDone(m: Mod, e: Event)
    requires e.Reply? && forall p <- m.pending :: p.fid in m.fib
    ensures var r := HandleReply(m, e);
      r.fib.Keys == m.fib.Keys && forall f <- m.fib :: SameRole(r.fib[f], m.fib[f]) && r.fib[f].done == m.fib[f].done
  {
    PeekFindsEntry(m.pending, e.id);
  }

  lemma ReplyIssues(m: Mod, e: Event)
    requires e.Reply? && forall p <- m.pending :: p.fid in m.fib
    ensures var r := HandleReply(m, e);
      && r.hist.issues.Keys == m.hist.issues.Keys
      && forall id <- m.hist.issues :: SameIssue(r.hist.issues[id], m.hist.issues[id])
  {}

  lemma LocalSpawn(m: Mod, m0: Mod, e: Event)
    requires FiberInv(m) && m.current.None? && !e.Reply?
    requires m0 == m.(q := m0.q) && LiveShrinks(m, m0) && EventIn(e, Live(m.q))
    ensures LocalStep(m, EventTurn, Spawn(m0, e))
  {}

  lemma LocalEvent(m: Mod)
    requires FiberInv(m) && m.pc.Events? && m.current.None? && Sound(m)
    ensures LocalStep(m, EventTurn, DoEventTurn(m))
  {
    hide DoEventTurn, Spawn;
    EventCases(m);
    if m.q.batch != [] {
      LiveStep(m.q);
      var e := m.q.batch[0].ev;
      var used := m.(q := Consume(m.q));
      Quiet(m, EventTurn, used);
      Quiet(m, EventTurn, m.(q := Defer(m.q)));
      hide LocalStep, HandleReply, Live;
      if e.Reply? {
        LocalReply(m, used, e);
      } else {
        LocalSpawn(m, used, e);
      }
    }
  }

  lemma LocalReap(m: Mod)
    requires FiberInv(m) && m.pc.Reaping? && Sound(m)
    ensures LocalStep(m, Reap, DoReap(m))
  {}

  lemma LocalAct(m: Mod, a: Action)
    requires FiberInv(m) && m.current.Some? && MayAct(m, a)
    ensures LocalStep(m, Act(a), DoAct(m, a))
  {
    ActFrame(m, a);
    assert FiberOk(m.current.value, m.fib[m.current.value], true, m.pending);
    ActIssues(m, a);
    ActSent(m, a);
  }

  lemma ActSent(m: Mod, a: Action)
    requires m.current.Some? && m.current.value in m.fib
    ensures SentGrow(m, Act(a), DoAct(m, a))
  {
    match a
    case Continue =>
    case WaitReply =>
    case _ =>
  }

  lemma ActIssues(m: Mod, a: Action)
    requires m.current.Some? && m.current.value in m.fib
    ensures IssuesGrow(m, Act(a), DoAct(m, a))
  {
    match a
    case Continue => ContinueIssues(m);
    case WaitReply => WaitReplyIssues(m);
    case _ =>
  }

  /** Returning from a call changes no request. */
  lemma CompleteIssues(m: Mod, n: Mod, kind: Kind, src: Source)
    requires m.current.Some? && n.current == m.current && n.next == m.next && n.hist == m.hist
    ensures IssuesGrow(m, Act(Continue), Complete(n, kind, src))
    ensures IssuesGrow(m, Act(WaitReply), Complete(n, kind, src))
  {}

  lemma ContinueIssues(m: Mod)
    requires m.current.Some? && m.current.value in m.fib
    ensures IssuesGrow(m, Act(Continue), DoContinue(m))
  {
    hide Complete;
    var f, fb := m.current.value, m.fib[m.current.value];
    match fb.point
    case AtRequest => CompleteIssues(m, Put(m, f, fb.(point := AtUser)), Blocking, fb.src);
    case AtWait => CompleteIssues(m, Put(m, f, WithCollected(fb)), Async, fb.src);
    case _ =>
  }

  lemma WaitReplyIssues(m: Mod)
    requires m.current.Some? && m.current.value in m.fib
    ensures IssuesGrow(m, Act(WaitReply), DoWaitReply(m))
  {
    hide Complete;
    var f, fb := m.current.value, m.fib[m.current.value];
    if fb.rq != [] {
      var src := Source(0, fb.seqIdx, fb.rq[0].id, fb.rq[0].result, 0, fb.rq[0].msg);
      CompleteIssues(m, Put(m, f, WithPopped(fb, src)), Async, src);
    }
  }

  lemma LocalStepOf(m: Mod, l: Label, m': Mod)
    requires Inv(m) && Next(m, l, m') && !l.Arrive?
    ensures LocalStep(m, l, m')
  {
    match l
    case Enter(now) => LocalEnter(m, now);
    case Wake(now) => LocalWake(m, now);
    case TimerTurn => LocalTimer(m);
    case EventTurn => LocalEvent(m);
    case Reap => LocalReap(m);
    case Act(a) => LocalAct(m, a);
    case AskStop =>
  }
}
