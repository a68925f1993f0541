/** What `coseq_wait_reply` shows to the sequence that collects: which module a reply came from, and how its
    returns add up. */
module Collecting {
  import opened Base
  import opened Time
  import opened Pending
  import opened EventQueues
  import opened Machine
  import opened Frames
  import opened Invariant
  import opened Outcomes
  import opened Runs

  // ---------------------------------------------------------------- the responder shown

  /** The ids of the replies that lie in fibers' queues. */
  ghost function QueuedNow(m: Mod): set<nat> {
    set f, a | f in m.fib && a in m.fib[f].rq :: a.id
  }

  /** The ids of the replies that lay in a queue in one of the first `k + 1` states. */
  ghost function EverQueued(ms: seq<Mod>, k: nat): set<nat>
    requires k < |ms|
  {
    (if k == 0 then {} else EverQueued(ms, k - 1)) + QueuedNow(ms[k])
  }

  predicate Settled(s: Stage) {
    s == Queued || s == Returned
  }

  /** The source shows nobody's index if the reply was queued, and otherwise that of the module that made
      the first handled reply. */
  predicate ShownFrom(src: Source, q: set<nat>, first: map<nat, Event>) {
    && src.id in first && first[src.id].Reply?
    && src.thread == if src.id in q then 0 else ToU8(first[src.id].from)
  }

  /** The outcome of a blocking request shows the module that made the first handled reply, or nobody's index
      if it is a timeout. */
  predicate AnswerShown(src: Source, h: History) {
    if src.id in h.timedOut then src.thread == 0 else ShownFrom(src, {}, h.first)
  }

  /** What a fiber has been resumed with. */
  ghost predicate HandShown(m: Mod) {
    m.current.Some? && m.current.value in m.fib ==>
      var fb := m.fib[m.current.value];
      && (fb.point == AtWait ==> ShownFrom(fb.src, {}, m.hist.first))
      && (fb.point == AtRequest ==> AnswerShown(fb.src, m.hist))
  }

  ghost predicate ReturnsShown(h: History, q: set<nat>) {
    forall c <- h.completions ::
      && (c.kind == Async ==> ShownFrom(c.src, q, h.first))
      && (c.kind == Blocking ==> AnswerShown(c.src, h))
  }

  ghost predicate OnceQueued(m: Mod, q: set<nat>) {
    QueuedNow(m) <= q && forall id <- q :: id in m.hist.issues && Settled(m.hist.issues[id].stage)
  }

  ghost predicate Shown(m: Mod, q: set<nat>) {
    Safe(m) && OnceQueued(m, q) && ReturnsShown(m.hist, q) && HandShown(m)
  }

  // what a step may do to the histories

  predicate FirstKept(h: History, h': History) {
    forall id <- h.first :: id in h'.first && h'.first[id] == h.first[id]
  }

  predicate StagesSettle(h: History, h': History) {
    forall id <- h.issues :: id in h'.issues && (Settled(h.issues[id].stage) ==> Settled(h'.issues[id].stage))
  }

  /** Only a request that is unanswered times out. */
  predicate TimesOutWaiting(h: History, h': History) {
    forall id <- h'.timedOut :: id in h.timedOut || (id in h.issues && h.issues[id].stage == Waiting)
  }

  predicate TimeoutsKept(h: History, h': History) {
    forall id <- h.timedOut :: id in h'.timedOut
  }

  /** A return that the step added. */
  ghost predicate NewReturnsShown(h: History, h': History, q: set<nat>) {
    forall c <- h'.completions :: c !in h.completions ==>
      && (c.kind == Async ==> ShownFrom(c.src, q, h'.first))
      && (c.kind == Blocking ==> AnswerShown(c.src, h'))
  }

  lemma QueuedAre(m: Mod)
    requires Safe(m)
    ensures forall id <- QueuedNow(m) :: id in m.hist.issues && m.hist.issues[id].stage == Queued
  {
    forall id | id in QueuedNow(m) ensures id in m.hist.issues && m.hist.issues[id].stage == Queued {
      var f, a :| f in m.fib && a in m.fib[f].rq && a.id == id;
      assert FiberHistory(f, m.fib[f], m.current == Some(f), m.hist);
    }
  }

  lemma ReturnedAre(m: Mod)
    requires Safe(m)
    ensures forall c <- m.hist.completions :: c.src.id in m.hist.issues && m.hist.issues[c.src.id].stage == Returned
  {}

  /** Where first replies stay, stages settle and new returns are shown right, all returns stay so: what is
      queued now has not been returned. */
  lemma ShownAfter(m: Mod, m': Mod, q: set<nat>)
    requires Shown(m, q) && Safe(m') && HandShown(m')
    requires FirstKept(m.hist, m'.hist) && StagesSettle(m.hist, m'.hist) && NewReturnsShown(m.hist, m'.hist, q)
    requires TimesOutWaiting(m.hist, m'.hist) && TimeoutsKept(m.hist, m'.hist)
    ensures Shown(m', q + QueuedNow(m'))
  {
    hide Safe, QueuedNow, HandShown;
    QueuedAre(m');
    ReturnedAre(m');
    ReturnedAre(m);
    forall c | c in m'.hist.completions && c.kind == Async
      ensures ShownFrom(c.src, q + QueuedNow(m'), m'.hist.first)
    {
      assert c.src.id !in QueuedNow(m');
    }
  }

  lemma SameShown(m: Mod, m': Mod, q: set<nat>)
    requires Shown(m, q) && Safe(m') && HandShown(m') && FirstKept(m.hist, m'.hist)
    requires m'.hist.issues == m.hist.issues && m'.hist.completions == m.hist.completions
    requires m'.hist.timedOut == m.hist.timedOut
    ensures Shown(m', q + QueuedNow(m'))
  {
    hide Safe, HandShown;
    ShownAfter(m, m', q);
  }

  // ---------------------------------------------------------------- the scheduler's steps

  /** What a step of the scheduler leaves of the histories. */
  ghost predicate Orderly(m: Mod, m': Mod) {
    && HandShown(m') && FirstKept(m.hist, m'.hist) && StagesSettle(m.hist, m'.hist)
    && TimesOutWaiting(m.hist, m'.hist) && TimeoutsKept(m.hist, m'.hist) && m'.hist.completions == m.hist.completions
  }

  lemma ReplyShown(m: Mod, e: Event, f: nat)
    requires FiberInv(m) && m.pc.Events? && m.current.None? && e.Reply?
    requires Entry(e.id, f) in m.pending && Peek(m.pending, e.id) == Some(f)
    requires TableHistory(m.hist, m.pending, m.fib) && Sound(m)
    ensures Orderly(m, HandleReply(m, e))
  {
    ReplyCases(m, e, f);
  }

  lemma SpawnShown(m: Mod, e: Event)
    requires !e.Reply?
    ensures Orderly(m, Spawn(m, e))
  {}

  lemma UnknownShown(m: Mod, e: Event)
    requires e.Reply? && Peek(m.pending, e.id).None? && m.current.None? && forall p <- m.pending :: p.fid in m.fib
    ensures Orderly(m, HandleReply(m, e))
  {}

  lemma Consumed(m: Mod)
    requires Safe(m) && m.pc.Events? && m.current.None? && m.q.batch != [] && m.q.batch[0].ev.Reply?
    ensures var e, used := m.q.batch[0].ev, m.(q := Consume(m.q));
      && FiberInv(used) && Sound(used) && TableHistory(used.hist, used.pending, used.fib)
      && (Peek(m.pending, e.id).Some? ==> Entry(e.id, Peek(m.pending, e.id).value) in m.pending)
  {
    HeadLeaves(m.q, m.next);
    TakePending(m.pending, m.next, m.q.batch[0].ev.id, m.fib);
  }

  lemma EventShown(m: Mod)
    requires Safe(m) && m.pc.Events? && m.current.None? && Sound(m)
    ensures Orderly(m, DoEventTurn(m))
  {
    hide DoEventTurn, HandleReply, Safe, Spawn;
    EventCases(m);
    if m.q.batch != [] {
      var e, used := m.q.batch[0].ev, m.(q := Consume(m.q));
      if !e.Reply? {
        SpawnShown(used, e);
      } else {
        Consumed(m);
        if Peek(m.pending, e.id).Some? {
          ReplyShown(used, e, Peek(m.pending, e.id).value);
        } else {
          UnknownShown(used, e);
        }
      }
    }
  }

  lemma TimerParts(m: Mod)
    requires m.pc.Timers? && m.pc.todo != [] && forall f <- m.pc.todo :: f in m.fib
    ensures var r, g := DoTimerTurn(m), m.pc.todo[0];
      || (r.current == m.current && r.hist == m.hist && r.fib == m.fib)
      || (m.fib[g].waitingTimer && r.current == Some(g) && g in r.fib && r.fib[g].point == m.fib[g].point
          && (m.fib[g].waitingReply ==> r.fib[g].src == TimeoutSource(m.fib[g]))
          && r.hist == if m.fib[g].waitingReply then NoteTimeout(m.hist, m.fib[g].waitId) else m.hist)
  {}

  lemma TimerWaits(m: Mod, f: nat)
    requires Safe(m) && m.current.None? && f in m.fib && m.fib[f].waitingTimer
    ensures m.fib[f].point != AtWait && (m.fib[f].point == AtRequest ==> m.fib[f].waitingReply)
    ensures m.fib[f].waitingReply ==>
      m.fib[f].waitId in m.hist.issues && m.hist.issues[m.fib[f].waitId].stage == Waiting
  {
    assert FiberOk(f, m.fib[f], false, m.pending);
    if m.fib[f].waitingReply {
      StillWaiting(m, Entry(m.fib[f].waitId, f));
    }
  }

  lemma SoundTodo(m: Mod)
    requires Sound(m) && m.pc.Timers?
    ensures forall f <- m.pc.todo :: f in m.fib
  {}

  lemma TimerShown(m: Mod)
    requires Safe(m) && m.pc.Timers? && m.current.None? && Sound(m)
    ensures Orderly(m, DoTimerTurn(m))
  {
    hide Safe, DoTimerTurn, Sound;
    if m.pc.todo == [] {
      TimersOver(m);
    } else {
      SoundTodo(m);
      TimerParts(m);
      if m.fib[m.pc.todo[0]].waitingTimer {
        TimerWaits(m, m.pc.todo[0]);
      }
    }
  }

  lemma StillWaiting(m: Mod, e: Entry)
    requires Safe(m) && e in m.pending
    ensures e.id in m.hist.issues && m.hist.issues[e.id].stage == Waiting
  {}

  // ---------------------------------------------------------------- the fiber's steps

  lemma ContinueHand(m: Mod)
    requires m.current.Some? && m.current.value in m.fib
    ensures HandShown(DoContinue(m)) && StagesSettle(m.hist, DoContinue(m).hist)
    ensures DoContinue(m).hist.first == m.hist.first
  {
    ContinueIs(m);
  }

  lemma WaitReplyHand(m: Mod)
    requires m.current.Some? && m.current.value in m.fib && m.fib[m.current.value].point == AtUser
    ensures HandShown(DoWaitReply(m)) && StagesSettle(m.hist, DoWaitReply(m).hist)
    ensures DoWaitReply(m).hist.first == m.hist.first
  {
    hide ShownFrom, AnswerShown;
  }

  /** Apart from the two calls that return replies. */
  lemma OtherHand(m: Mod, a: Action)
    requires m.current.Some? && m.current.value in m.fib && m.fib[m.current.value].point == AtUser
    requires !a.Continue? && !a.WaitReply? && m.next !in m.hist.issues
    ensures HandShown(DoAct(m, a)) && StagesSettle(m.hist, DoAct(m, a).hist) && DoAct(m, a).hist.first == m.hist.first
  {
    hide DoContinue, DoWaitReply;
  }

  lemma ActHand(m: Mod, a: Action)
    requires m.current.Some? && m.current.value in m.fib && (a.Continue? <==> m.fib[m.current.value].point != AtUser)
    requires m.next !in m.hist.issues
    ensures HandShown(DoAct(m, a)) && StagesSettle(m.hist, DoAct(m, a).hist) && FirstKept(m.hist, DoAct(m, a).hist)
  {
    hide HandShown, StagesSettle, DoContinue, DoWaitReply;
    if a.Continue? {
      ContinueHand(m);
    } else if a.WaitReply? {
      WaitReplyHand(m);
    } else {
      OtherHand(m, a);
    }
  }

  lemma ContinueReturns(m: Mod, q: set<nat>)
    requires Shown(m, q) && m.current.Some? && m.current.value in m.fib
    ensures NewReturnsShown(m.hist, DoContinue(m).hist, q)
  {
    var f := m.current.value;
    assert FiberHistory(f, m.fib[f], true, m.hist);
  }

  lemma WaitReplyReturns(m: Mod, q: set<nat>)
    requires Shown(m, q) && m.current.Some? && m.current.value in m.fib
    ensures NewReturnsShown(m.hist, DoWaitReply(m).hist, q)
  {
    var f := m.current.value;
    var fb := m.fib[f];
    assert FiberHistory(f, fb, true, m.hist);
    if fb.rq != [] {
      assert fb.rq[0] in fb.rq && fb.rq[0].id in QueuedNow(m);
    }
  }

  lemma ActReturns(m: Mod, a: Action, q: set<nat>)
    requires Shown(m, q) && m.current.Some? && m.current.value in m.fib
    ensures NewReturnsShown(m.hist, DoAct(m, a).hist, q)
  {
    hide Shown, DoContinue, DoWaitReply;
    if a.Continue? {
      ContinueReturns(m, q);
    } else if a.WaitReply? {
      WaitReplyReturns(m, q);
    } else {
      assert DoAct(m, a).hist.completions == m.hist.completions;
    }
  }

  lemma NextFree(m: Mod)
    requires Safe(m)
    ensures m.next !in m.hist.issues
  {}

  lemma ShownStep(m: Mod, l: Label, m': Mod, q: set<nat>)
    requires Shown(m, q) && Next(m, l, m')
    ensures Shown(m', q + QueuedNow(m'))
  {
    hide Safe, HandShown, DoAct, DoTimerTurn, DoEventTurn, OnceQueued, ReturnsShown;
    SafeStep(m, l, m');
    match l
    case TimerTurn =>
      TimerShown(m);
      ShownAfter(m, m', q);
    case EventTurn =>
      EventShown(m);
      ShownAfter(m, m', q);
    case Act(a) =>
      NextFree(m);
      ActFrame(m, a);
      ActHand(m, a);
      ActReturns(m, a, q);
      ShownAfter(m, m', q);
    case _ =>
      QuietHand(m, l, m');
      SameShown(m, m', q);
  }

  lemma QuietHand(m: Mod, l: Label, m': Mod)
    requires HandShown(m) && Next(m, l, m') && !l.Act? && !l.TimerTurn? && !l.EventTurn?
    ensures HandShown(m') && m'.hist == m.hist
  {}

  lemma NothingShown(cfg: Config)
    ensures Shown(Initial(cfg), {} + QueuedNow(Initial(cfg)))
  {
    hide Safe;
    InitialSafe(cfg);
  }

  lemma {:induction false} ShownInRuns(cfg: Config, ms: seq<Mod>, ls: seq<Label>, i: nat)
    requires RunFrom(cfg, ms, ls) && i < |ms|
    ensures Shown(ms[i], EverQueued(ms, i))
  {
    hide Shown, Next;
    if i == 0 {
      NothingShown(cfg);
      assert EverQueued(ms, 0) == {} + QueuedNow(ms[0]);
    } else {
      ShownInRuns(cfg, ms, ls, i - 1);
      assert Next(ms[i - 1], ls[i - 1], ms[i]);
      ShownStep(ms[i - 1], ls[i - 1], ms[i], EverQueued(ms, i - 1));
    }
  }

  /** Whether a sequence that collects a reply is shown the module it came from: in every run and for every
      return of `coseq_wait_reply`, exactly if the reply woke the collector instead of lying in its queue,
      or came from the first module. */
  lemma ResponderShown(cfg: Config, ms: seq<Mod>, ls: seq<Label>, i: nat, c: Completion)
    requires RunFrom(cfg, ms, ls) && i < |ms| && c in ms[i].hist.completions && c.kind == Async
    ensures var first := ms[i].hist.first;
      && c.src.id in first && first[c.src.id].Reply? && SeenAs(c.src) == ArrivalOf(first[c.src.id])
      && (c.src.thread == ToU8(first[c.src.id].from)
          <==> c.src.id !in EverQueued(ms, i) || ToU8(first[c.src.id].from) == 0)
  {
    ShownInRuns(cfg, ms, ls, i);
    var q := EverQueued(ms, i);
    assert ShownFrom(c.src, q, ms[i].hist.first);
  }

  /** A blocking request has no such gap: in every run each of its returns shows the module that made the first
      handled reply, unless it timed out, and then the first module's index. */
  lemma AnswererShown(cfg: Config, ms: seq<Mod>, ls: seq<Label>, i: nat, c: Completion)
    requires RunFrom(cfg, ms, ls) && i < |ms| && c in ms[i].hist.completions && c.kind == Blocking
    ensures var h := ms[i].hist;
      if c.src.id in h.timedOut then c.src.thread == 0 && c.src.result == RequestTimeout
      else && c.src.id in h.first && h.first[c.src.id].Reply? && SeenAs(c.src) == ArrivalOf(h.first[c.src.id])
           && c.src.thread == ToU8(h.first[c.src.id].from)
  {
    ShownInRuns(cfg, ms, ls, i);
    assert AnswerShown(c.src, ms[i].hist);
  }

  // ---------------------------------------------------------------- the returns of a fiber

  /** What `coseq_wait_reply` has returned to `f`, in order. */
  function ReturnsTo(cs: seq<Completion>, f: nat): seq<Source> {
    if cs == [] then []
    else
      var c := cs[|cs| - 1];
      ReturnsTo(cs[..|cs| - 1], f) + (if c.fid == f && c.kind == Async then [c.src] else [])
  }

  function SeenAll(s: seq<Source>): (r: seq<Arrival>)
    ensures |r| == |s| && forall i :: 0 <= i < |s| ==> r[i] == SeenAs(s[i])
  {
    seq(|s|, i requires 0 <= i < |s| => SeenAs(s[i]))
  }

  lemma OneMoreReturn(cs: seq<Completion>, c: Completion, f: nat)
    ensures ReturnsTo(cs + [c], f) == ReturnsTo(cs, f) + (if c.fid == f && c.kind == Async then [c.src] else [])
  {
    assert (cs + [c])[..|cs|] == cs;
  }

  lemma {:induction false} ReturnsGrow(cs: seq<Completion>, cs': seq<Completion>, f: nat)
    requires cs <= cs'
    ensures ReturnsTo(cs, f) <= ReturnsTo(cs', f)
    decreases |cs'|
  {
    if cs == cs' {
    } else {
      ReturnsGrow(cs, cs'[..|cs'| - 1], f);
    }
  }

  lemma {:induction false} NoReturns(cs: seq<Completion>, f: nat)
    requires forall c <- cs :: c.fid != f
    ensures ReturnsTo(cs, f) == []
  {
    if cs != [] {
      assert cs[|cs| - 1] in cs;
      NoReturns(cs[..|cs| - 1], f);
    }
  }

  ghost predicate Tallied(m: Mod) {
    && Safe(m) && (forall c <- m.hist.completions :: c.fid < m.hist.nextFid)
    && forall f <- m.fib :: SeenAll(ReturnsTo(m.hist.completions, f)) == m.fib[f].collected
  }

  /** A step that returns no reply to anyone. */
  ghost predicate NoneCollected(m: Mod, m': Mod) {
    && m'.hist.completions == m.hist.completions && m.hist.nextFid <= m'.hist.nextFid
    && forall f <- m'.fib ::
         (f in m.fib && m'.fib[f].collected == m.fib[f].collected)
         || (f == m.hist.nextFid && m'.fib[f].collected == [])
  }

  lemma TallyKept(m: Mod, m': Mod)
    requires Tallied(m) && Safe(m') && NoneCollected(m, m')
    ensures Tallied(m')
  {
    hide Safe;
    NoReturns(m.hist.completions, m.hist.nextFid);
  }

  lemma ReplyCollects(m: Mod, e: Event)
    requires e.Reply? && forall p <- m.pending :: p.fid in m.fib
    ensures NoneCollected(m, HandleReply(m, e))
  {
    PeekFindsEntry(m.pending, e.id);
  }

  lemma SpawnCollects(m: Mod, e: Event)
    requires !e.Reply?
    ensures NoneCollected(m, Spawn(m, e))
  {}

  lemma EventCollects(m: Mod)
    requires forall p <- m.pending :: p.fid in m.fib
    ensures NoneCollected(m, DoEventTurn(m))
  {
    hide DoEventTurn, HandleReply, Spawn;
    EventCases(m);
    if m.q.batch != [] {
      var e, used := m.q.batch[0].ev, m.(q := Consume(m.q));
      if e.Reply? {
        ReplyCollects(used, e);
      } else {
        SpawnCollects(used, e);
      }
    }
  }

  lemma TimerCollects(m: Mod)
    requires m.pc.Timers? && forall f <- m.pc.todo :: f in m.fib
    ensures NoneCollected(m, DoTimerTurn(m))
  {}

  /** One fiber has one more return, or none has. */
  ghost predicate OneCollected(m: Mod, m': Mod) {
    && m.current.Some? && m.current.value in m.fib && m'.fib.Keys == m.fib.Keys && m'.hist.nextFid == m.hist.nextFid
    && (forall f <- m.fib :: f != m.current.value ==> m'.fib[f].collected == m.fib[f].collected)
    && var f := m.current.value;
       || (m'.hist.completions == m.hist.completions && m'.fib[f].collected == m.fib[f].collected)
       || exists c: Completion :: c.fid == f && m'.hist.completions == m.hist.completions + [c]
            && m'.fib[f].collected == m.fib[f].collected + if c.kind == Async then [SeenAs(c.src)] else []
  }

  lemma TallyOneMore(m: Mod, m': Mod)
    requires Tallied(m) && Safe(m') && OneCollected(m, m') && m.current.value < m.hist.nextFid
    ensures Tallied(m')
  {
    hide Safe;
    if m'.hist.completions != m.hist.completions {
      var f := m.current.value;
      var c: Completion :| c.fid == f && m'.hist.completions == m.hist.completions + [c]
        && m'.fib[f].collected == m.fib[f].collected + if c.kind == Async then [SeenAs(c.src)] else [];
      forall g | g in m'.fib ensures SeenAll(ReturnsTo(m'.hist.completions, g)) == m'.fib[g].collected {
        OneMoreReturn(m.hist.completions, c, g);
      }
    }
  }

  lemma ContinueCollects(m: Mod)
    requires m.current.Some? && m.current.value in m.fib
    ensures OneCollected(m, DoContinue(m))
  {
    var f, fb := m.current.value, m.fib[m.current.value];
    var r := DoContinue(m);
    ContinueIs(m);
    if fb.point == AtRequest || fb.point == AtWait {
      var c := Completion(f, if fb.point == AtWait then Async else Blocking, fb.src);
      assert c.fid == f && r.hist.completions == m.hist.completions + [c];
    }
  }

  lemma WaitReplyCollects(m: Mod)
    requires m.current.Some? && m.current.value in m.fib
    ensures OneCollected(m, DoWaitReply(m))
  {
    var f, fb := m.current.value, m.fib[m.current.value];
    if fb.rq != [] {
      var src := Source(0, fb.seqIdx, fb.rq[0].id, fb.rq[0].result, 0, fb.rq[0].msg);
      var c := Completion(f, Async, src);
      assert c.fid == f && DoWaitReply(m).hist.completions == m.hist.completions + [c] && SeenAs(src) == fb.rq[0];
    }
  }

  lemma ActCollects(m: Mod, a: Action)
    requires m.current.Some? && m.current.value in m.fib
    ensures OneCollected(m, DoAct(m, a))
  {
    hide DoContinue, DoWaitReply;
    if a.Continue? {
      ContinueCollects(m);
    } else if a.WaitReply? {
      WaitReplyCollects(m);
    } else {
      assert DoAct(m, a).hist.completions == m.hist.completions;
    }
  }

  lemma CurrentBelow(m: Mod)
    requires Safe(m) && m.current.Some?
    ensures m.current.value in m.fib && m.current.value < m.hist.nextFid
  {}

  lemma TallyStep(m: Mod, l: Label, m': Mod)
    requires Tallied(m) && Next(m, l, m')
    ensures Tallied(m')
  {
    hide Safe, Tallied, DoAct, DoTimerTurn, DoEventTurn, NoneCollected, OneCollected;
    TalliedSafe(m);
    SafeStep(m, l, m');
    match l
    case TimerTurn =>
      TimerCollects(m);
      TallyKept(m, m');
    case EventTurn =>
      EventCollects(m);
      TallyKept(m, m');
    case Act(a) =>
      CurrentBelow(m);
      ActCollects(m, a);
      TallyOneMore(m, m');
    case _ =>
      QuietCollects(m, l, m');
      TallyKept(m, m');
  }

  lemma TalliedSafe(m: Mod)
    requires Tallied(m)
    ensures Safe(m)
  {}

  lemma QuietCollects(m: Mod, l: Label, m': Mod)
    requires Next(m, l, m') && !l.Act? && !l.TimerTurn? && !l.EventTurn?
    ensures NoneCollected(m, m')
  {}

  lemma TallyInitial(cfg: Config)
    ensures Tallied(Initial(cfg))
  {
    hide Safe;
    InitialSafe(cfg);
  }

  /** In every run the replies recorded as collected by a fiber are what `coseq_wait_reply` returned to it,
      each once and in this order. */
  lemma CollectedAreReturns(cfg: Config, ms: seq<Mod>, ls: seq<Label>, i: nat, f: nat)
    requires RunFrom(cfg, ms, ls) && i < |ms| && f in ms[i].fib
    ensures SeenAll(ReturnsTo(ms[i].hist.completions, f)) == ms[i].fib[f].collected
  {
    TallyInRuns(cfg, ms, ls, i);
  }

  lemma TallyInRuns(cfg: Config, ms: seq<Mod>, ls: seq<Label>, i: nat)
    requires RunFrom(cfg, ms, ls) && i < |ms|
    ensures Tallied(ms[i])
  {
    hide Tallied, Next;
    TallyInitial(cfg);
    forall m, l, m' | Tallied(m) && Next(m, l, m') ensures Tallied(m') {
      TallyStep(m, l, m');
    }
    Invariance(ms, ls, Tallied, (m, l) => true, 0, i);
  }
}
