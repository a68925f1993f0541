/** `coseq_lock` over whole runs: who may run while a fiber holds the lock, and why the holder is not
    starved by its own lock. */
module Locking {
  import opened Base
  import opened Time
  import opened Pending
  import opened EventQueues
  import opened Machine
  import opened Frames
  import opened Invariant
  import opened Outcomes
  import opened Runs

  // ---------------------------------------------------------------- exclusion

  /** Notify handlers do not lock. */
  ghost predicate HandlersDoNotLock(m: Mod, l: Label) {
    l == Act(Lock) && m.current.Some? && m.current.value in m.fib ==> !m.fib[m.current.value].handler
  }

  /** Beside the holder of the lock only a notify handler in its first run can be running. */
  ghost predicate LockInv(m: Mod) {
    m.locked.Some? && m.current.Some? && m.current != m.locked ==>
      m.current.value in m.fib && m.fib[m.current.value].handler && m.fib[m.current.value].firstRun
  }

  /** A fiber is resumed while another holds the lock only to start a notify handler. */
  lemma ResumeUnderLock(m: Mod, l: Label, m': Mod)
    requires Next(m, l, m') && m.current.None? && m'.current.Some? && m.locked.Some?
    ensures m'.locked == m.locked
    ensures m'.current == m.locked
            || (l == EventTurn && m.q.batch != [] && m.q.batch[0].ev.Notify? && m'.current == Some(m.hist.nextFid)
                && m'.fib == m.fib[m.hist.nextFid := Cleared(NewFiber(m.q.batch[0].ev))])
  {
    match l
    case TimerTurn =>
    case EventTurn =>
      if m.q.batch[0].ev.Reply? {
        ReplyFrame(m.(q := Consume(m.q)), m.q.batch[0].ev);
      }
    case _ =>
  }

  /** The lock changes hands only through its holder or the reaping of its finished holder. */
  lemma OwnerStays(m: Mod, l: Label, m': Mod)
    requires Next(m, l, m') && LockInv(m) && HandlersDoNotLock(m, l) && m.locked.Some?
    ensures m'.locked == m.locked
            || (l == Act(Unlock) && m.current == m.locked && m'.locked == None)
            || (l == Reap && m.fib[m.locked.value].done && m'.locked == None)
  {
    match l
    case EventTurn =>
      if m.q.batch != [] && m.q.batch[0].ev.Reply? {
        ReplyFrame(m.(q := Consume(m.q)), m.q.batch[0].ev);
      }
    case Act(a) => ActFrame(m, a);
    case _ =>
  }

  lemma LockStep(m: Mod, l: Label, m': Mod)
    requires Next(m, l, m') && Inv(m) && LockInv(m) && HandlersDoNotLock(m, l)
    ensures LockInv(m')
  {
    if m.current.Some? {
      if l.Act? {
        ActFrame(m, l.a);
      }
    } else if m'.current.Some? && m.locked.Some? {
      ResumeUnderLock(m, l, m');
    } else if m'.current.Some? {
      NoLockFromScheduler(m, l, m');
    }
  }

  lemma NoLockFromScheduler(m: Mod, l: Label, m': Mod)
    requires Next(m, l, m') && m.current.None? && m.locked.None?
    ensures m'.locked.None?
  {
    if l == EventTurn && m.q.batch != [] && m.q.batch[0].ev.Reply? {
      ReplyFrame(m.(q := Consume(m.q)), m.q.batch[0].ev);
    }
  }

  ghost predicate SafeAndExclusive(m: Mod) {
    Safe(m) && LockInv(m)
  }

  lemma LockInvInRuns(cfg: Config, ms: seq<Mod>, ls: seq<Label>, i: nat)
    requires RunFrom(cfg, ms, ls) && i < |ms|
    requires forall k :: 0 <= k < i ==> HandlersDoNotLock(ms[k], ls[k])
    ensures SafeAndExclusive(ms[i])
  {
    hide Safe, Next, HandlersDoNotLock;
    forall m, l, m' | SafeAndExclusive(m) && HandlersDoNotLock(m, l) && Next(m, l, m')
      ensures SafeAndExclusive(m')
    {
      SafeInv(m);
      SafeStep(m, l, m');
      LockStep(m, l, m');
    }
    InitialSafe(cfg);
    Invariance(ms, ls, SafeAndExclusive, HandlersDoNotLock, 0, i);
  }

  /** The step lets go of the lock held by `f`: `f` unlocks it or, finished, is reaped. */
  ghost predicate LetsGo(m: Mod, l: Label, f: nat) {
    (l == Act(Unlock) && m.current == Some(f)) || (l == Reap && f in m.fib && m.fib[f].done)
  }

  /** Exactly what takes the lock from `f`: letting go of it, or another sequence's `coseq_lock`, which
      overwrites the owner without asking. Where handlers do not lock, the second cannot happen, since
      whoever runs beside the owner is a handler. */
  lemma OwnerLosesIff(m: Mod, l: Label, m': Mod, f: nat)
    requires Next(m, l, m') && m.locked == Some(f)
    ensures m'.locked != Some(f) <==> LetsGo(m, l, f) || (l == Act(Lock) && m.current.Some? && m.current != Some(f))
    ensures LockInv(m) && HandlersDoNotLock(m, l) ==> !(l == Act(Lock) && m.current.Some? && m.current != Some(f))
  {
    match l
    case EventTurn =>
      if m.q.batch != [] && m.q.batch[0].ev.Reply? {
        ReplyFrame(m.(q := Consume(m.q)), m.q.batch[0].ev);
      }
    case Act(a) => ActFrame(m, a);
    case _ =>
  }

  ghost predicate HeldBy(m: Mod, f: nat) {
    SafeAndExclusive(m) && m.locked == Some(f)
  }

  ghost predicate Keeps(m: Mod, l: Label, f: nat) {
    HandlersDoNotLock(m, l) && !LetsGo(m, l, f)
  }

  lemma HeldStep(m: Mod, l: Label, m': Mod, f: nat)
    requires HeldBy(m, f) && Keeps(m, l, f) && Next(m, l, m')
    ensures HeldBy(m', f)
  {
    SafeStep(m, l, m');
    LockStep(m, l, m');
    OwnerStays(m, l, m');
  }

  /** From the moment `f` has the lock until it lets go of it, over any number of passes, it keeps the
      lock, and whoever runs is `f` or a notify handler that has not yet yielded for the first time. */
  lemma LockExclusion(cfg: Config, ms: seq<Mod>, ls: seq<Label>, i: nat, j: nat, f: nat)
    requires RunFrom(cfg, ms, ls) && i <= j < |ms| && ms[i].locked == Some(f)
    requires forall k :: 0 <= k < j ==> HandlersDoNotLock(ms[k], ls[k])
    requires forall k :: i <= k < j ==> !LetsGo(ms[k], ls[k], f)
    ensures ms[j].locked == Some(f)
    ensures ms[j].current.Some? && ms[j].current != Some(f) ==>
              var g := ms[j].current.value; g in ms[j].fib && ms[j].fib[g].handler && ms[j].fib[g].firstRun
  {
    hide Safe, Next, HandlersDoNotLock, LetsGo;
    LockInvInRuns(cfg, ms, ls, i);
    forall m, l, m' | HeldBy(m, f) && Keeps(m, l, f) && Next(m, l, m') ensures HeldBy(m', f) {
      HeldStep(m, l, m', f);
    }
    forall k | i <= k < j ensures Keeps(ms[k], ls[k], f) {
      assert HandlersDoNotLock(ms[k], ls[k]) && !LetsGo(ms[k], ls[k], f);
    }
    Invariance(ms, ls, m => HeldBy(m, f), (m, l) => Keeps(m, l, f), i, j);
  }

  // ---------------------------------------------------------------- no self-starvation

  /** The running fiber has no request in the table: every reply it has still to collect is queued already. */
  predicate NothingOpen(m: Mod) {
    m.current.Some? && m.current.value in m.fib ==> m.fib[m.current.value].outstanding == |m.fib[m.current.value].rq|
  }

  /** Nobody locks while a request of its own is unanswered. */
  ghost predicate LocksWithNothingOpen(m: Mod, l: Label) {
    l == Act(Lock) ==> NothingOpen(m)
  }

  /** No reply that the holder of the lock waits for has been put off, but for those of `d`. */
  ghost predicate ServedBut(m: Mod, d: seq<Stamped>) {
    m.locked.Some? ==>
      forall s <- m.q.deferred :: s.ev.Reply? && s !in d ==> Peek(m.pending, s.ev.id) != m.locked
  }

  ghost predicate OwnerServed(m: Mod) {
    ServedBut(m, [])
  }

  lemma OpenEntries(m: Mod, f: nat)
    requires Inv(m) && m.current == Some(f) && f in m.fib && m.fib[f].point == AtUser
    ensures m.fib[f].outstanding == |m.fib[f].rq| <==> forall e <- m.pending :: e.fid != f
  {
    assert FiberOk(f, m.fib[f], true, m.pending);
    CountZero(m.pending, f);
  }

  lemma NothingToStrand(m: Mod, d: seq<Stamped>)
    requires Inv(m) && m.current.Some? && MayAct(m, Lock) && NothingOpen(m)
    ensures ServedBut(DoAct(m, Lock), d)
  {
    OpenEntries(m, m.current.value);
    forall s | s in m.q.deferred && s.ev.Reply? ensures Peek(m.pending, s.ev.id) != m.current {
      PeekFindsEntry(m.pending, s.ev.id);
    }
  }

  /** Queues that hold nothing but one event, put off. */
  function OnlyPutOff(e: Event): Queues {
    Queues([], [], [Stamped(0, e)], 1, [], {0})
  }

  lemma OnlyPutOffOk(m: Mod, e: Event)
    requires Inv(m) && (e.Reply? ==> InWindow(e.id, m.next))
    ensures Inv(m.(q := OnlyPutOff(e)))
  {
    var q := OnlyPutOff(e);
    assert Live(q) == [Stamped(0, e)];
    assert Stamps(Live(q)) == [0] && Stamps(q.consumed) == [] && Iota(1) == [0];
  }

  /** A fiber that has collected every reply it asked for has nothing in the table. */
  lemma AllCollected(m: Mod)
    requires Inv(m) && m.current.Some? && MayAct(m, Lock)
    ensures m.current.value in m.fib && (m.fib[m.current.value].outstanding == 0 ==> NothingOpen(m))
  {
    assert FiberOk(m.current.value, m.fib[m.current.value], true, m.pending);
  }

  /** When a fiber can lock without stranding itself: exactly if no request of its own is in the table. With
      one there, events may have been put off among which is its reply; without one, none can be. What the
      caller itself can see is whether it has collected as many replies as it asked for asynchronously, and
      that is enough (`AllCollected`). */
  lemma LockStrandsIff(m: Mod)
    requires Inv(m) && m.current.Some? && MayAct(m, Lock)
    ensures NothingOpen(m) <==> forall q: Queues :: Inv(m.(q := q)) ==> OwnerServed(DoAct(m.(q := q), Lock))
  {
    if NothingOpen(m) {
      forall q: Queues | Inv(m.(q := q)) ensures OwnerServed(DoAct(m.(q := q), Lock)) {
        NothingToStrand(m.(q := q), []);
      }
    } else {
      var q := StrandingQueue(m);
    }
  }

  lemma StrandingQueue(m: Mod) returns (q: Queues)
    requires Inv(m) && m.current.Some? && MayAct(m, Lock) && !NothingOpen(m)
    ensures Inv(m.(q := q)) && !OwnerServed(DoAct(m.(q := q), Lock))
  {
    hide Inv, ServedBut, Peek;
    OpenCaller(m);
    var e :| e in m.pending && e.fid == m.current.value;
    q := OnlyPutOff(Event.Reply(e.id, 0, Success, [], 0));
    EntryKnown(m, e);
    OnlyPutOffOk(m, q.deferred[0].ev);
    NotServed(DoAct(m.(q := q), Lock), q.deferred[0]);
  }

  lemma OpenCaller(m: Mod)
    requires Inv(m) && m.current.Some? && MayAct(m, Lock) && !NothingOpen(m)
    ensures exists e <- m.pending :: e.fid == m.current.value
  {
    OpenEntries(m, m.current.value);
  }

  lemma EntryKnown(m: Mod, e: Entry)
    requires Inv(m) && e in m.pending
    ensures InWindow(e.id, m.next) && Peek(m.pending, e.id) == Some(e.fid)
  {
    TakePending(m.pending, m.next, e.id, m.fib);
  }

  lemma NotServed(m: Mod, s: Stamped)
    requires m.locked.Some? && s in m.q.deferred && s.ev.Reply? && Peek(m.pending, s.ev.id) == m.locked
    ensures !OwnerServed(m)
  {}

  /** Taking one id out of the table makes no other id found that was not. */
  lemma PeekAfterTake(p: seq<Entry>, id: nat, other: nat)
    requires WireDistinct(p)
    ensures Peek(Take(p, id), other).Some? ==> Peek(Take(p, id), other) == Peek(p, other)
  {
    TakeExact(p, id);
    TakeExact(p, other);
    TakeExact(Take(p, id), other);
    PeekFindsEntry(Take(p, id), other);
  }

  lemma ServedAfterTake(m: Mod, id: nat, m': Mod, d: seq<Stamped>)
    requires Inv(m) && ServedBut(m, d) && m'.locked == m.locked
    requires m'.q.deferred == m.q.deferred && (m'.pending == Take(m.pending, id) || m'.pending == m.pending)
    ensures ServedBut(m', d)
  {
    forall s | s in m.q.deferred && s.ev.Reply? && s !in d && m.locked.Some?
      ensures Peek(m'.pending, s.ev.id) != m.locked
    {
      PeekAfterTake(m.pending, id, s.ev.id);
    }
  }

  lemma ServedAfterIssue(m: Mod, f: nat, m': Mod, d: seq<Stamped>)
    requires Inv(m) && Roomy(m) && ServedBut(m, d) && m'.locked == m.locked && m'.q == m.q
    requires m'.pending == [Entry(m.next, f)] + m.pending
    ensures ServedBut(m', d)
  {
    forall s | s in m.q.deferred && s.ev.Reply? && s !in d && m.locked.Some?
      ensures Peek(m'.pending, s.ev.id) != m.locked
    {
      assert s in Live(m.q);
      if Wire(s.ev.id) == Wire(m.next) {
        WireInjective(s.ev.id, m.next, m.next + 1);
      }
      assert m'.pending[1..] == m.pending;
    }
  }

  /** A lock is taken by its holder again, or with nothing open. */
  ghost predicate LocksSafely(m: Mod, l: Label) {
    l == Act(Lock) ==> m.locked == m.current || NothingOpen(m)
  }

  lemma ServedActStep(m: Mod, a: Action, m': Mod, d: seq<Stamped>)
    requires Inv(m) && ServedBut(m, d) && m.current.Some? && MayAct(m, a) && m' == DoAct(m, a)
    requires LocksSafely(m, Act(a))
    ensures ServedBut(m', d)
  {
    match a
    case Request(_, _, _, _, _) => ServedAfterIssue(m, m.current.value, m', d);
    case RequestAsync(_, _, _) => ServedAfterIssue(m, m.current.value, m', d);
    case Lock =>
      if m.locked != m.current {
        NothingToStrand(m, d);
      }
    case _ =>
  }

  lemma ServedEventStep(m: Mod, d: seq<Stamped>)
    requires Inv(m) && ServedBut(m, d) && m.pc.Events? && m.current.None? && forall p <- m.pending :: p.fid in m.fib
    ensures ServedBut(DoEventTurn(m), d)
  {
    hide DoEventTurn, HandleReply, FiberInv, QueueInv, RepliesOk;
    EventCases(m);
    if m.q.batch != [] && m.q.batch[0].ev.Reply? {
      var e := m.q.batch[0].ev;
      ReplyFrame(m.(q := Consume(m.q)), e);
      if m.locked.None? || Peek(m.pending, e.id) == m.locked {
        ServedAfterTake(m, e.id, DoEventTurn(m), d);
      }
    }
  }

  lemma ServedTimerStep(m: Mod, d: seq<Stamped>)
    requires Inv(m) && ServedBut(m, d) && m.pc.Timers? && forall f <- m.pc.todo :: f in m.fib
    ensures ServedBut(DoTimerTurn(m), d)
  {
    var r := DoTimerTurn(m);
    assert r.q == m.q && r.locked == m.locked;
    if r.pending != m.pending {
      assert r.pending == Take(m.pending, m.fib[m.pc.todo[0]].waitId);
      hide DoTimerTurn;
      ServedAfterTake(m, m.fib[m.pc.todo[0]].waitId, r, d);
    }
  }

  lemma ServedStep(m: Mod, l: Label, m': Mod, d: seq<Stamped>)
    requires Next(m, l, m') && Inv(m) && ServedBut(m, d) && LocksSafely(m, l)
    ensures ServedBut(m', d)
  {
    match l
    case EventTurn => ServedEventStep(m, d);
    case Act(a) => ServedActStep(m, a, m', d);
    case TimerTurn => ServedTimerStep(m, d);
    case _ =>
  }

  lemma NoneServed(cfg: Config)
    ensures OwnerServed(Initial(cfg))
  {}

  ghost predicate SafeAndServed(m: Mod) {
    Safe(m) && OwnerServed(m)
  }

  /** In every run in which locks are taken with nothing open, no reply to the holder of the lock is ever
      among the events put off. */
  lemma OwnerNeverStarved(cfg: Config, ms: seq<Mod>, ls: seq<Label>, i: nat)
    requires RunFrom(cfg, ms, ls) && i < |ms|
    requires forall k :: 0 <= k < i ==> LocksWithNothingOpen(ms[k], ls[k])
    ensures OwnerServed(ms[i])
  {
    hide Safe, Next, ServedBut;
    forall m, l, m' | SafeAndServed(m) && LocksWithNothingOpen(m, l) && Next(m, l, m')
      ensures SafeAndServed(m')
    {
      SafeInv(m);
      SafeStep(m, l, m');
      ServedStep(m, l, m', []);
    }
    InitialSafe(cfg);
    NoneServed(cfg);
    Invariance(ms, ls, SafeAndServed, LocksWithNothingOpen, 0, i);
  }

  // ---------------------------------------------------------------- what was put off when the lock was taken

  /** While `f` has the lock, the events `d` stay put off and no other reply to `f` joins them. */
  ghost predicate Fate(m: Mod, f: nat, d: seq<Stamped>) {
    HeldBy(m, f) && (forall s <- d :: s in m.q.deferred) && ServedBut(m, d)
  }

  /** An event put off stays so as long as nobody frees the lock. */
  lemma DeferredStays(m: Mod, l: Label, m': Mod, s: Stamped)
    requires Next(m, l, m') && m.locked.Some? && m'.locked == m.locked && s in m.q.deferred
    ensures s in m'.q.deferred
  {
    match l
    case EventTurn =>
      if m.q.batch != [] && m.q.batch[0].ev.Reply? {
        ReplyFrame(m.(q := Consume(m.q)), m.q.batch[0].ev);
      }
    case Act(a) => ActFrame(m, a);
    case TimerTurn =>
      if m.pc.todo != [] {
        TimerFrame(m);
      }
    case _ =>
  }

  lemma OnlyOwnerLocks(m: Mod, l: Label)
    requires Sound(m) && Enabled(m, l) && LockInv(m) && HandlersDoNotLock(m, l) && m.locked.Some?
    ensures LocksSafely(m, l)
  {}

  lemma FateStep(m: Mod, l: Label, m': Mod, f: nat, d: seq<Stamped>)
    requires Fate(m, f, d) && Keeps(m, l, f) && Next(m, l, m')
    ensures Fate(m', f, d)
  {
    hide HandlersDoNotLock, LetsGo, Next, LockInv, Safe, ServedBut;
    HeldStep(m, l, m', f);
    forall s | s in d ensures s in m'.q.deferred {
      DeferredStays(m, l, m', s);
    }
    FateServed(m, l, m', f, d);
  }

  lemma FateServed(m: Mod, l: Label, m': Mod, f: nat, d: seq<Stamped>)
    requires HeldBy(m, f) && ServedBut(m, d) && Keeps(m, l, f) && Next(m, l, m')
    ensures ServedBut(m', d)
  {
    hide ServedBut, Inv, HistoryInv;
    OnlyOwnerLocks(m, l);
    ServedStep(m, l, m', d);
  }

  lemma FateBegins(m: Mod, f: nat, m': Mod)
    requires Next(m, Act(Lock), m') && m.current == Some(f) && SafeAndExclusive(m')
    ensures Fate(m', f, m.q.deferred)
  {}

  lemma FateSays(m: Mod, f: nat, d: seq<Stamped>)
    requires Fate(m, f, d)
    ensures forall s <- d :: s in m.q.deferred && s !in m.q.consumed
    ensures forall s <- m.q.deferred :: s.ev.Reply? && Entry(s.ev.id, f) in m.pending ==> s in d
  {
    forall s | s in d ensures s !in m.q.consumed {
      assert s in Live(m.q);
      if s in m.q.consumed {
        ConsumedNotLive(m.q, s);
      }
    }
    forall s | s in m.q.deferred && s.ev.Reply? && Entry(s.ev.id, f) in m.pending ensures s in d {
      assert s in Live(m.q);
      TakePending(m.pending, m.next, s.ev.id, m.fib);
    }
  }

  /** What becomes of replies while `f` holds the lock, from its call at step `i` to any later state before it
      lets go, over any number of passes: the events that were put off when it locked are still put off
      and not handled, so that a reply to `f` among them cannot reach it; and no reply to an open id of `f`
      that came later is ever put off. */
  lemma LockFate(cfg: Config, ms: seq<Mod>, ls: seq<Label>, i: nat, j: nat, f: nat)
    requires RunFrom(cfg, ms, ls) && i < j < |ms| && ls[i] == Act(Lock) && ms[i].current == Some(f)
    requires forall k :: 0 <= k < j ==> HandlersDoNotLock(ms[k], ls[k])
    requires forall k :: i < k < j ==> !LetsGo(ms[k], ls[k], f)
    ensures ms[j].locked == Some(f)
    ensures forall s <- ms[i].q.deferred :: s in ms[j].q.deferred && s !in ms[j].q.consumed
    ensures forall s <- ms[j].q.deferred :: s.ev.Reply? && Entry(s.ev.id, f) in ms[j].pending ==> s in ms[i].q.deferred
  {
    hide Fate, HandlersDoNotLock, LetsGo, SafeAndExclusive, Next;
    var d := ms[i].q.deferred;
    assert Next(ms[i], ls[i], ms[i + 1]);
    LockInvInRuns(cfg, ms, ls, i + 1);
    FateBegins(ms[i], f, ms[i + 1]);
    forall m, l, m' | Fate(m, f, d) && Keeps(m, l, f) && Next(m, l, m') ensures Fate(m', f, d) {
      FateStep(m, l, m', f, d);
    }
    forall k | i + 1 <= k < j ensures Keeps(ms[k], ls[k], f) {
      assert HandlersDoNotLock(ms[k], ls[k]) && !LetsGo(ms[k], ls[k], f);
    }
    Invariance(ms, ls, m => Fate(m, f, d), (m, l) => Keeps(m, l, f), i + 1, j);
    FateHolds(ms[j], f, d);
    FateSays(ms[j], f, d);
  }

  lemma FateHolds(m: Mod, f: nat, d: seq<Stamped>)
    requires Fate(m, f, d)
    ensures m.locked == Some(f)
  {}

  // ---------------------------------------------------------------- replies to the owner

  lemma OwnerTurn(m: Mod)
    requires m.q.batch != [] && m.q.batch[0].ev.Reply? && Peek(m.pending, m.q.batch[0].ev.id) == m.locked
    requires forall p <- m.pending :: p.fid in m.fib
    ensures DoEventTurn(m) == HandleReply(m.(q := Consume(m.q)), m.q.batch[0].ev)
  {}

  /** The reply the holder waits for is handled when its turn in the batch comes, and wakes the holder if
      it is blocked on that id or collecting. */
  lemma OwnerReplyHandled(m: Mod, f: nat)
    requires Inv(m) && m.pc.Events? && m.current.None? && m.locked == Some(f) && m.q.batch != []
    requires m.q.batch[0].ev.Reply? && Entry(m.q.batch[0].ev.id, f) in m.pending
    ensures Sound(m)
    ensures var m' := DoEventTurn(m);
      var e := m.q.batch[0].ev;
      && m'.q == Consume(m.q) && f in m'.fib && Entry(e.id, f) !in m'.pending
      && if (m.fib[f].waitingReply && m.fib[f].waitId == e.id) || m.fib[f].waitingAny
         then m'.current == Some(f) && SeenAs(m'.fib[f].src) == ArrivalOf(e)
         else m'.current == None && m'.fib[f].rq == m.fib[f].rq + [ArrivalOf(e)]
  {
    hide DoEventTurn, HandleReply, QueueInv, RepliesOk, FiberInv, SetStage, NoteReply, Sound;
    var e := m.q.batch[0].ev;
    var used := m.(q := Consume(m.q));
    InvSound(m);
    HeadLeaves(m.q, m.next);
    TakeByInv(m, e.id);
    OpenOwner(m, e.id, f);
    OwnerTurn(m);
    ReplyCases(used, e, f);
    assert HandleReply(used, e).q == used.q by {
      ReplyFrame(used, e);
    }
  }

  lemma OpenOwner(m: Mod, id: nat, f: nat)
    requires FiberInv(m) && m.pc.Events? && m.q.batch != [] && Entry(id, f) in m.pending
    ensures f in m.fib && FiberInv(m.(q := Consume(m.q))) && forall p <- m.pending :: p.fid in m.fib
  {}

  /** `s` is the next reply to its id in the batch, at place `n`. */
  predicate AtPlace(batch: seq<Stamped>, n: nat, s: Stamped) {
    && n < |batch| && batch[n] == s && s.ev.Reply?
    && forall k :: 0 <= k < n ==> !(batch[k].ev.Reply? && batch[k].ev.id == s.ev.id)
  }

  /** `s` has been handled, or is still to come in this batch while `f` waits for it. */
  ghost predicate InTurn(m: Mod, f: nat, s: Stamped) {
    && Safe(m)
    && (s in m.q.consumed
        || (m.pc.Events? && s.ev.Reply? && Entry(s.ev.id, f) in m.pending && exists n: nat :: AtPlace(m.q.batch, n, s)))
  }

  ghost predicate HoldsInBatch(m: Mod, l: Label, f: nat) {
    m.pc.Events? && m.locked == Some(f)
  }

  lemma TurnParts(m: Mod)
    requires m.q.batch != [] && forall p <- m.pending :: p.fid in m.fib
    ensures var r, e := DoEventTurn(m), m.q.batch[0].ev;
      && r.pc == m.pc && r.q.batch == m.q.batch[1..]
      && (r.pending == m.pending || (e.Reply? && r.pending == Take(m.pending, e.id)))
      && (e.Reply? && Peek(m.pending, e.id) == m.locked ==> m.q.batch[0] in r.q.consumed)
  {
    hide DoEventTurn, HandleReply;
    EventCases(m);
    if m.q.batch[0].ev.Reply? {
      ReplyFrame(m.(q := Consume(m.q)), m.q.batch[0].ev);
    }
  }

  lemma TurnComes(m: Mod, f: nat, s: Stamped, n: nat)
    requires Inv(m) && m.pc.Events? && m.current.None? && m.locked == Some(f) && AtPlace(m.q.batch, n, s)
    requires Entry(s.ev.id, f) in m.pending && Sound(m)
    ensures if n == 0 then s in DoEventTurn(m).q.consumed
            else && DoEventTurn(m).pc.Events? && Entry(s.ev.id, f) in DoEventTurn(m).pending
                 && AtPlace(DoEventTurn(m).q.batch, n - 1, s)
  {
    hide DoEventTurn, FiberInv, QueueInv, RepliesOk;
    var e := m.q.batch[0].ev;
    HeadLeaves(m.q, m.next);
    TurnParts(m);
    if e.Reply? {
      TakeByInv(m, e.id);
    }
  }

  lemma TakeByInv(m: Mod, id: nat)
    requires FiberInv(m) && InWindow(id, m.next)
    ensures forall f: nat :: Entry(id, f) in m.pending ==> Peek(m.pending, id) == Some(f)
    ensures forall e :: e in Take(m.pending, id) <==> e in m.pending && e.id != id
  {
    TakePending(m.pending, m.next, id, m.fib);
  }

  lemma InTurnStep(m: Mod, l: Label, m': Mod, f: nat, s: Stamped)
    requires InTurn(m, f, s) && HoldsInBatch(m, l, f) && Next(m, l, m')
    ensures InTurn(m', f, s)
  {
    SafeStep(m, l, m');
    if s in m.q.consumed {
      StaysHandled(m, l, m', s);
    } else {
      var n: nat :| AtPlace(m.q.batch, n, s);
      hide HistoryInv, Inv;
      if l == EventTurn {
        TurnComes(m, f, s, n);
      } else {
        if l.Act? {
          ActFrame(m, l.a);
          ActPending(m, l.a);
        }
        assert AtPlace(m'.q.batch, n, s);
      }
    }
  }

  lemma StaysHandled(m: Mod, l: Label, m': Mod, s: Stamped)
    requires Next(m, l, m') && s in m.q.consumed
    ensures s in m'.q.consumed
  {
    match l
    case EventTurn =>
      if m.q.batch != [] && m.q.batch[0].ev.Reply? {
        ReplyFrame(m.(q := Consume(m.q)), m.q.batch[0].ev);
      }
    case Act(a) => ActFrame(m, a);
    case TimerTurn =>
      if m.pc.todo != [] {
        TimerFrame(m);
      }
    case _ =>
  }

  /** A reply that the holder of the lock waits for is handled in the batch that contains it: if `f` holds the
      lock to the end of the event loop, the first reply to its id in the batch has been handled there,
      and has not been put off. */
  lemma OwnerServedInBatch(cfg: Config, ms: seq<Mod>, ls: seq<Label>, i: nat, j: nat, f: nat, n: nat, s: Stamped)
    requires RunFrom(cfg, ms, ls) && i <= j < |ms| && ms[j].pc.Reaping?
    requires forall k :: i <= k < j ==> HoldsInBatch(ms[k], ls[k], f)
    requires ms[i].pc.Events? && AtPlace(ms[i].q.batch, n, s) && Entry(s.ev.id, f) in ms[i].pending
    ensures s in ms[j].q.consumed && s !in ms[j].q.deferred
  {
    RunSafe(cfg, ms, ls, i);
    assert InTurn(ms[i], f, s);
    TurnsToEnd(ms, ls, i, j, f, s);
    RunSafe(cfg, ms, ls, j);
    ConsumedNotLive(ms[j].q, s);
  }

  lemma TurnsToEnd(ms: seq<Mod>, ls: seq<Label>, i: nat, j: nat, f: nat, s: Stamped)
    requires IsRun(ms, ls) && i <= j < |ms| && ms[j].pc.Reaping? && InTurn(ms[i], f, s)
    requires forall k :: i <= k < j ==> HoldsInBatch(ms[k], ls[k], f)
    ensures s in ms[j].q.consumed
  {
    hide Safe, Next, HoldsInBatch;
    forall m, l, m' | InTurn(m, f, s) && HoldsInBatch(m, l, f) && Next(m, l, m') ensures InTurn(m', f, s) {
      InTurnStep(m, l, m', f, s);
    }
    Invariance(ms, ls, m => InTurn(m, f, s), (m, l) => HoldsInBatch(m, l, f), i, j);
  }
}
