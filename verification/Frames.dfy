/** What the parts of a step leave alone. */
module Frames {
  import opened Base
  import opened Pending
  import opened EventQueues
  import opened Machine

  /** The same sequence, started by the same event. */
  predicate SameRole(a: Fiber, b: Fiber) {
    a.handler == b.handler && a.seqIdx == b.seqIdx && a.replyTo == b.replyTo && a.replyId == b.replyId
  }

  predicate SameRecord(a: Fiber, b: Fiber) {
    a.arrived == b.arrived && a.slots == b.slots
  }

  ghost predicate OnlyFiber(m: Mod, r: Mod, f: nat) {
    && f in m.fib && r.fib.Keys == m.fib.Keys
    && (forall g <- m.fib :: g != f ==> r.fib[g] == m.fib[g])
    && SameRole(r.fib[f], m.fib[f])
  }

  ghost predicate Runner(m: Mod, r: Mod) {
    && m.current.Some? && OnlyFiber(m, r, m.current.value)
    && SameRecord(r.fib[m.current.value], m.fib[m.current.value])
    && (r.current == None || r.current == m.current)
    && (r.current == m.current ==> r.fib[m.current.value].firstRun == m.fib[m.current.value].firstRun)
    && r.cfg == m.cfg && r.q == m.q && r.stop == m.stop && r.order == m.order && r.pc == m.pc
    && r.hist.nextFid == m.hist.nextFid && r.hist.born == m.hist.born && r.hist.first == m.hist.first
    && r.hist.timedOut == m.hist.timedOut
  }

  lemma ContinueIs(m: Mod)
    requires m.current.Some? && m.current.value in m.fib
    ensures var f, r := m.current.value, DoContinue(m);
      && r == m.(fib := r.fib, hist := m.hist.(completions := r.hist.completions, issues := r.hist.issues))
      && r.fib == m.fib[f := if m.fib[f].point == AtWait then WithCollected(m.fib[f]) else m.fib[f].(point := AtUser)]
  {
    hide Complete;
  }

  lemma ContinueFrame(m: Mod)
    requires m.current.Some? && m.current.value in m.fib
    ensures Runner(m, DoContinue(m)) && DoContinue(m).locked == m.locked
  {
    hide DoContinue;
    ContinueIs(m);
  }

  lemma WaitReplyFrame(m: Mod)
    requires m.current.Some? && m.current.value in m.fib
    ensures Runner(m, DoWaitReply(m)) && DoWaitReply(m).locked == m.locked
  {
    hide Complete;
    var f := m.current.value;
    var fb := m.fib[f];
    var r := DoWaitReply(m);
    if fb.rq != [] {
      assert r.fib == m.fib[f := WithPopped(fb, r.fib[f].src)];
      assert r == m.(fib := r.fib, hist := m.hist.(completions := r.hist.completions, issues := r.hist.issues));
    } else if fb.outstanding != 0 {
      assert r == m.(fib := m.fib[f := fb.(waitingAny := true, point := AtWait, firstRun := false)], current := None);
    }
  }

  lemma RequestFrame(m: Mod, a: Action)
    requires m.current.Some? && m.current.value in m.fib && a.Request?
    ensures Runner(m, DoAct(m, a)) && DoAct(m, a).locked == m.locked
  {}

  lemma IssueFrame(m: Mod, a: Action)
    requires m.current.Some? && m.current.value in m.fib && (a.RequestAsync? || a.Send?)
    ensures Runner(m, DoAct(m, a)) && DoAct(m, a).locked == m.locked
  {}

  lemma YieldFrame(m: Mod, a: Action)
    requires m.current.Some? && m.current.value in m.fib && (a.Sleep? || a.Return?)
    ensures Runner(m, DoAct(m, a)) && DoAct(m, a).locked == m.locked
  {}

  lemma SameRunner(m: Mod, r: Mod, locked: Option<nat>, clients: seq<Client>, sent: set<Sent>)
    requires m.current.Some? && m.current.value in m.fib
    requires r == m.(locked := locked, clients := clients, hist := m.hist.(sent := sent))
    ensures Runner(m, r)
  {}

  lemma PlainFrame(m: Mod, a: Action)
    requires m.current.Some? && m.current.value in m.fib
    requires a.Answer? || a.Lock? || a.Unlock? || a.Register? || a.Unregister? || a.Publish?
    ensures Runner(m, DoAct(m, a))
    ensures DoAct(m, a).locked == m.locked || (a.Lock? && DoAct(m, a).locked == m.current)
            || (a.Unlock? && m.locked == m.current && DoAct(m, a).locked == None)
  {
    hide Removed, Runner;
    var r := DoAct(m, a);
    SameRunner(m, r, r.locked, r.clients, r.hist.sent);
  }

  /** An action of the running fiber leaves the scheduler's place, the queues and other fibers alone, and
      touches the lock only to take it or to let it go. */
  lemma ActFrame(m: Mod, a: Action)
    requires m.current.Some? && m.current.value in m.fib
    ensures Runner(m, DoAct(m, a))
    ensures DoAct(m, a).locked == m.locked || (a.Lock? && DoAct(m, a).locked == m.current)
            || (a.Unlock? && m.locked == m.current && DoAct(m, a).locked == None)
  {
    hide Runner;
    match a
    case Continue => ContinueFrame(m);
    case WaitReply => WaitReplyFrame(m);
    case Request(_, _, _, _, _) => RequestFrame(m, a);
    case RequestAsync(_, _, _) => IssueFrame(m, a);
    case Send(_, _, _) => IssueFrame(m, a);
    case Sleep(_, _) => YieldFrame(m, a);
    case Return => YieldFrame(m, a);
    case _ => PlainFrame(m, a);
  }

  lemma ActPending(m: Mod, a: Action)
    requires m.current.Some? && m.current.value in m.fib
    ensures DoAct(m, a).pending == m.pending || DoAct(m, a).pending == [Entry(m.next, m.current.value)] + m.pending
  {
    match a
    case Continue =>
    case WaitReply =>
    case _ =>
  }

  /** A handled reply concerns at most the fiber that owns its id. */
  lemma ReplyFrame(m: Mod, e: Event)
    requires e.Reply? && forall p <- m.pending :: p.fid in m.fib
    ensures var r := HandleReply(m, e);
      && r.cfg == m.cfg && r.q == m.q && r.stop == m.stop && r.order == m.order && r.next == m.next
      && r.locked == m.locked && r.clients == m.clients && r.pc == m.pc
      && (Peek(m.pending, e.id).None? ==> r == m.(hist := NoteReply(m.hist, e)))
      && (Peek(m.pending, e.id).Some? ==>
            && OnlyFiber(m, r, Peek(m.pending, e.id).value) && r.pending == Take(m.pending, e.id)
            && (r.current == m.current || r.current == Peek(m.pending, e.id)))
      && r.hist.nextFid == m.hist.nextFid && r.hist.born == m.hist.born && r.hist.sent == m.hist.sent
      && r.hist.completions == m.hist.completions && r.hist.first == NoteReply(m.hist, e).first
  {
    PeekFindsEntry(m.pending, e.id);
  }

  /** What a turn of the event loop comes to: the end of the batch, or its first event handled or put off. */
  lemma EventCases(m: Mod)
    requires forall p <- m.pending :: p.fid in m.fib
    ensures m.q.batch == [] ==> DoEventTurn(m) == m.(pc := Reaping)
    ensures m.q.batch != [] ==>
      var r, e, used := DoEventTurn(m), m.q.batch[0].ev, m.(q := Consume(m.q));
      || (!e.Reply? && (r == used || r == Spawn(used, e)))
      || (e.Reply? && (m.locked.None? || Peek(m.pending, e.id) == m.locked) && r == HandleReply(used, e))
      || (m.locked.Some? && r == m.(q := Defer(m.q)) && (e.Reply? ==> Peek(m.pending, e.id) != m.locked))
  {
    hide HandleReply, Spawn, Consume, Defer, Peek;
  }

  /** The owner of a handled asynchronous reply has it recorded; any other reply leaves the record alone. */
  lemma ReplyRecord(m: Mod, e: Event, f: nat)
    requires e.Reply? && Peek(m.pending, e.id) == Some(f) && forall p <- m.pending :: p.fid in m.fib
    ensures f in m.fib && f in HandleReply(m, e).fib
    ensures var fb := HandleReply(m, e).fib[f];
      SameRecord(fb, m.fib[f]) || SameRecord(fb, WithArrival(m, m.fib[f], e))
  {
    PeekFindsEntry(m.pending, e.id);
  }

  lemma TimersOver(m: Mod)
    requires m.pc.Timers? && m.pc.todo == []
    ensures DoTimerTurn(m) == m.(pc := Events)
  {}

  /** A timer turn concerns at most the fiber whose turn it is. */
  lemma TimerFrame(m: Mod)
    requires m.pc.Timers? && m.pc.todo != [] && forall f <- m.pc.todo :: f in m.fib
    ensures var r := DoTimerTurn(m);
      && r.cfg == m.cfg && r.q == m.q && r.stop == m.stop && r.order == m.order && r.next == m.next
      && r.locked == m.locked && r.clients == m.clients && r.pc == Timers(m.pc.now, m.pc.todo[1..])
      && OnlyFiber(m, r, m.pc.todo[0]) && SameRecord(r.fib[m.pc.todo[0]], m.fib[m.pc.todo[0]])
      && (r.current == m.current || r.current == Some(m.pc.todo[0]))
      && r.fib[m.pc.todo[0]].done == m.fib[m.pc.todo[0]].done
      && (r.pending == m.pending
          || (m.fib[m.pc.todo[0]].waitingReply && r.pending == Take(m.pending, m.fib[m.pc.todo[0]].waitId)))
      && r.hist.nextFid == m.hist.nextFid && r.hist.born == m.hist.born && r.hist.sent == m.hist.sent
      && r.hist.completions == m.hist.completions && r.hist.first == m.hist.first
  {
    hide Take, SetStage, Eligible;
  }
}
