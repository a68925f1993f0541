/** Concrete runs, each of which shows that something is not so: that a lock taken with a request open starves
    its owner, that an unlock in the middle of a batch lets later events pass, that a handler's lock breaks
    exclusion, that a queued reply is shown with the wrong sender, that a return with a request open leaves it
    in the table, that the inbox is bounded. */
module Scenarios {
  import opened Base
  import opened Time
  import opened Pending
  import opened EventQueues
  import opened Machine
  import opened Invariant
  import opened Outcomes
  import opened Runs
  import opened Locking

  const CFG := Config(0, 1, true)
  const NOW := Timespec(0, 0)
  const START_A := Start(0, 1, EXTERNAL, [])
  const START_B := Start(0, 2, EXTERNAL, [])
  const NOTICE := Event.Notify(0, 0, 1, [])

  /** A reply from module 1. */
  function ReplyTo(id: nat): Event {
    Event.Reply(id, 1, Success, [], 0)
  }

  function Ask(): Action {
    Request(1, 0, [], None, NOW)
  }

  function AskLater(): Action {
    RequestAsync(1, 0, [])
  }

  /** What the runs below look at; most of the history is left out. */
  datatype Shot = Shot(
    q: Queues, order: seq<nat>, fib: map<nat, Fiber>, pending: seq<Entry>, next: nat, locked: Option<nat>, pc: Pc,
    current: Option<nat>, first: map<nat, Event>)

  ghost predicate Looks(m: Mod, s: Shot) {
    && m.cfg == CFG && !m.stop && m.q == s.q && m.order == s.order && m.fib == s.fib && m.pending == s.pending
    && m.next == s.next && m.locked == s.locked && m.pc == s.pc && m.current == s.current
    && m.hist.first == s.first && m.hist.nextFid == |s.order|
  }

  /** The run ends in a state that looks like `s`. */
  ghost predicate Reached(ms: seq<Mod>, ls: seq<Label>, s: Shot) {
    RunFrom(CFG, ms, ls) && Safe(ms[|ls|]) && Looks(ms[|ls|], s)
  }

  ghost predicate Extends(ms: seq<Mod>, ls: seq<Label>, l: Label, ms': seq<Mod>, ls': seq<Label>) {
    ls' == ls + [l] && |ms'| == |ms| + 1 && ms <= ms'
  }

  lemma Advance(ms: seq<Mod>, ls: seq<Label>, s: Shot, l: Label, m': Mod, s': Shot)
    returns (ms': seq<Mod>, ls': seq<Label>)
    requires Reached(ms, ls, s) && Next(ms[|ls|], l, m') && Looks(m', s')
    ensures Reached(ms', ls', s') && Extends(ms, ls, l, ms', ls')
  {
    hide Next, Looks, Safe;
    ms', ls' := ms + [m'], ls + [l];
    SafeStep(ms[|ls|], l, m');
    forall k {:trigger ls'[k]} | 0 <= k < |ls'| ensures Next(ms'[k], ls'[k], ms'[k + 1]) {
      if k < |ls| {
        assert ls'[k] == ls[k];
      }
    }
  }

  lemma Here(ms: seq<Mod>, ls: seq<Label>, s: Shot) returns (m: Mod)
    requires Reached(ms, ls, s)
    ensures m == ms[|ls|] && Looks(m, s) && Safe(m) && Sound(m)
  {
    m := ms[|ls|];
    InvSound(m);
  }

  lemma Seen(ms: seq<Mod>, ls: seq<Label>, s: Shot)
    requires Reached(ms, ls, s)
    ensures RunFrom(CFG, ms, ls) && |ms| == |ls| + 1
    ensures ms[|ls|].q == s.q && ms[|ls|].fib == s.fib && ms[|ls|].pending == s.pending
    ensures ms[|ls|].locked == s.locked && ms[|ls|].current == s.current && ms[|ls|].hist.first == s.first
    ensures ms[|ls|].pc == s.pc && ms[|ls|].order == s.order
  {
    hide Safe;
  }

  const NOTHING_YET := Shot(NO_EVENTS, [], map[], [], 1, None, Top, None, map[])

  lemma Beginning() returns (ms: seq<Mod>, ls: seq<Label>)
    ensures Reached(ms, ls, NOTHING_YET)
  {
    hide Safe, Next;
    ms, ls := [Initial(CFG)], [];
    InitialSafe(CFG);
  }

  lemma EventArrives(ms: seq<Mod>, ls: seq<Label>, s: Shot, e: Event, s': Shot) returns (ms': seq<Mod>, ls': seq<Label>)
    requires Reached(ms, ls, s) && (e.Reply? ==> InWindow(e.id, s.next)) && s' == s.(q := Post(s.q, e))
    ensures Reached(ms', ls', s') && Extends(ms, ls, Arrive(e), ms', ls')
  {
    hide Reached, Safe;
    var m := Here(ms, ls, s);
    ms', ls' := Advance(ms, ls, s, Arrive(e), m.(q := Post(m.q, e)), s');
  }

  lemma PassBegins(ms: seq<Mod>, ls: seq<Label>, s: Shot, s': Shot) returns (ms': seq<Mod>, ls': seq<Label>)
    requires Reached(ms, ls, s) && s.pc.Top? && s.q.inbox != [] && (s.q.deferred == [] || s.locked.None?)
    requires s' == s.(q := TakeBatch(if s.q.deferred == [] then s.q else Splice(s.q)), pc := Timers(NOW, s.order))
    ensures Reached(ms', ls', s')
  {
    hide Reached, Safe;
    var m := Here(ms, ls, s);
    ms', ls' := Advance(ms, ls, s, Enter(NOW), Step(m, Enter(NOW)), s');
  }

  /** A turn of the timer loop for a fiber that waits for no timer, or its last. */
  lemma NoTimer(ms: seq<Mod>, ls: seq<Label>, s: Shot, s': Shot) returns (ms': seq<Mod>, ls': seq<Label>)
    requires Reached(ms, ls, s) && s.pc.Timers? && s.current.None?
    requires s.pc.todo != [] ==> s.pc.todo[0] in s.fib && !s.fib[s.pc.todo[0]].waitingTimer
    requires s' == s.(pc := if s.pc.todo == [] then Pc.Events else Timers(s.pc.now, s.pc.todo[1..]))
    ensures Reached(ms', ls', s')
  {
    hide Reached, Safe;
    var m := Here(ms, ls, s);
    ms', ls' := Advance(ms, ls, s, TimerTurn, Step(m, TimerTurn), s');
  }

  /** The scheduler stands at the next event of the batch. */
  predicate AtEvent(s: Shot) {
    s.pc.Events? && s.current.None? && s.q.batch != []
  }

  /** A START with nobody locking, or a notice whoever locks: a new fiber. */
  lemma Begins(ms: seq<Mod>, ls: seq<Label>, s: Shot, f: nat, s': Shot) returns (ms': seq<Mod>, ls': seq<Label>)
    requires Reached(ms, ls, s) && AtEvent(s) && f == |s.order|
    requires s.q.batch[0].ev.Notify? || (s.q.batch[0].ev.Start? && s.q.batch[0].ev.seqIdx == 0 && s.locked.None?)
    requires s' == s.(q := Consume(s.q), order := [f] + s.order, fib := s.fib[f := NewFiber(s.q.batch[0].ev)],
                      current := Some(f))
    ensures Reached(ms', ls', s') && Extends(ms, ls, EventTurn, ms', ls')
  {
    hide Reached, Safe;
    var m := Here(ms, ls, s);
    ms', ls' := Advance(ms, ls, s, EventTurn, Step(m, EventTurn), s');
  }

  lemma PutOff(ms: seq<Mod>, ls: seq<Label>, s: Shot, s': Shot) returns (ms': seq<Mod>, ls': seq<Label>)
    requires Reached(ms, ls, s) && AtEvent(s) && s.locked.Some?
    requires s.q.batch[0].ev.Reply? && Peek(s.pending, s.q.batch[0].ev.id) != s.locked && s' == s.(q := Defer(s.q))
    ensures Reached(ms', ls', s')
  {
    hide Reached, Safe;
    var m := Here(ms, ls, s);
    ms', ls' := Advance(ms, ls, s, EventTurn, Step(m, EventTurn), s');
  }

  /** The scheduler stands at a first reply to fiber `f`, which it may handle. */
  predicate AtReply(s: Shot, f: nat) {
    && AtEvent(s) && s.q.batch[0].ev.Reply? && (s.locked.None? || s.locked == Some(f)) && f in s.fib
    && Peek(s.pending, s.q.batch[0].ev.id) == Some(f) && s.q.batch[0].ev.id !in s.first
  }

  function Answered(fb: Fiber, e: Event): Fiber
    requires e.Reply?
  {
    Cleared(fb.(src := ReplySource(fb, e)))
  }

  function Handled(s: Shot): Shot
    requires AtEvent(s) && s.q.batch[0].ev.Reply?
  {
    var e := s.q.batch[0].ev;
    s.(q := Consume(s.q), pending := Take(s.pending, e.id), first := s.first[e.id := e])
  }

  /** A reply wakes the fiber that is blocked on it. */
  lemma Wakes(ms: seq<Mod>, ls: seq<Label>, s: Shot, f: nat, s': Shot) returns (ms': seq<Mod>, ls': seq<Label>)
    requires Reached(ms, ls, s) && AtReply(s, f) && s.fib[f].waitingReply && s.fib[f].waitId == s.q.batch[0].ev.id
    requires s' == Handled(s).(current := Some(f), fib := s.fib[f := Answered(s.fib[f], s.q.batch[0].ev)])
    ensures Reached(ms', ls', s') && Extends(ms, ls, EventTurn, ms', ls')
  {
    hide Reached, Safe;
    var m := Here(ms, ls, s);
    ms', ls' := Advance(ms, ls, s, EventTurn, Step(m, EventTurn), s');
  }

  /** A reply to a fiber that is blocked on another goes into its queue. */
  lemma QueuesUp(ms: seq<Mod>, ls: seq<Label>, s: Shot, f: nat, fb: Fiber, s': Shot)
    returns (ms': seq<Mod>, ls': seq<Label>)
    requires Reached(ms, ls, s) && AtReply(s, f) && !s.fib[f].waitingAny
    requires s.fib[f].waitingReply && Wire(s.fib[f].waitId) != Wire(s.q.batch[0].ev.id)
    requires var e, was := s.q.batch[0].ev, s.fib[f];
      fb == was.(arrived := was.arrived + [ArrivalOf(e)], slots := was.slots + [|s.q.consumed| + 1],
                 rq := was.rq + [ArrivalOf(e)])
    requires s' == Handled(s).(fib := s.fib[f := fb])
    ensures Reached(ms', ls', s')
  {
    hide Reached, Safe;
    var m := Here(ms, ls, s);
    ms', ls' := Advance(ms, ls, s, EventTurn, Step(m, EventTurn), s');
  }

  lemma BatchEnds(ms: seq<Mod>, ls: seq<Label>, s: Shot) returns (ms': seq<Mod>, ls': seq<Label>)
    requires Reached(ms, ls, s) && s.pc.Events? && s.current.None? && s.q.batch == []
    ensures Reached(ms', ls', s.(pc := Reaping))
  {
    hide Reached, Safe;
    var m := Here(ms, ls, s);
    ms', ls' := Advance(ms, ls, s, EventTurn, m.(pc := Reaping), s.(pc := Reaping));
  }

  lemma PassEnds(ms: seq<Mod>, ls: seq<Label>, s: Shot) returns (ms': seq<Mod>, ls': seq<Label>)
    requires Reached(ms, ls, s) && s.pc.Events? && s.current.None? && s.q.batch == []
    requires forall f <- s.fib :: !s.fib[f].done
    ensures Reached(ms', ls', s.(pc := Top))
  {
    hide Reached, Safe;
    ms', ls' := BatchEnds(ms, ls, s);
    var n := Here(ms', ls', s.(pc := Reaping));
    AllAlive(s.order, s.fib);
    ms', ls' := Advance(ms', ls', s.(pc := Reaping), Reap, Step(n, Reap), s.(pc := Top));
  }

  lemma {:induction false} AllAlive(order: seq<nat>, fib: map<nat, Fiber>)
    requires (forall f <- order :: f in fib) && forall f <- fib :: !fib[f].done
    ensures Alive(order, fib) == order && Survivors(fib) == fib
  {
    if order != [] {
      AllAlive(order[1..], fib);
    }
  }

  /** The actions that the runs need. */
  predicate InScript(s: Shot, a: Action) {
    && s.current.Some? && s.current.value in s.fib
    && var fb := s.fib[s.current.value];
    && (a.Continue? || a == Lock || a == Unlock || a.Return? || a == Ask() || a == AskLater() || a.WaitReply?)
    && (a.Continue? <==> fb.point != AtUser) && (a.Continue? ==> fb.point == AtRequest)
    && s.next < 100 && (forall p <- s.pending :: p.id >= 1) && forall t <- Live(s.q) :: t.ev.Reply? ==> t.ev.id >= 1
  }

  function After(s: Shot, a: Action): Shot
    requires InScript(s, a)
  {
    var f, fb := s.current.value, s.fib[s.current.value];
    if a.Continue? then s.(fib := s.fib[f := fb.(point := AtUser)])
    else if a == Lock then s.(locked := Some(f))
    else if a == Unlock then if s.locked == Some(f) then s.(locked := None) else s
    else if a.Return? then s.(fib := s.fib[f := fb.(done := true, firstRun := false)], current := None)
    else if a.WaitReply? then
      if fb.rq != [] then
        var src := Source(0, fb.seqIdx, fb.rq[0].id, fb.rq[0].result, 0, fb.rq[0].msg);
        s.(fib := s.fib[f := WithPopped(fb, src)])
      else if fb.outstanding == 0 then s
      else s.(fib := s.fib[f := fb.(waitingAny := true, point := AtWait, firstRun := false)], current := None)
    else if a.RequestAsync? then
      s.(fib := s.fib[f := fb.(outstanding := fb.outstanding + 1)], pending := [Entry(s.next, f)] + s.pending,
         next := s.next + 1)
    else
      s.(fib := s.fib[f := fb.(waitingReply := true, waitId := s.next, point := AtRequest, firstRun := false)],
         pending := [Entry(s.next, f)] + s.pending, next := s.next + 1, current := None)
  }

  lemma LooksAfter(m: Mod, s: Shot, a: Action)
    requires Looks(m, s) && InScript(s, a)
    ensures m.current == s.current && m.fib == s.fib && MayAct(m, a) && Looks(DoAct(m, a), After(s, a))
  {
    hide DoContinue, DoWaitReply;
    if a.WaitReply? {
      CollectsAfter(m, s);
    } else if a.Continue? {
      ContinuesAfter(m, s);
    }
  }

  lemma CollectsAfter(m: Mod, s: Shot)
    requires Looks(m, s) && InScript(s, WaitReply)
    ensures Looks(DoWaitReply(m), After(s, WaitReply))
  {}

  lemma ContinuesAfter(m: Mod, s: Shot)
    requires Looks(m, s) && InScript(s, Continue)
    ensures Looks(DoContinue(m), After(s, Continue))
  {}

  /** An action of the running fiber, with its effect on what is looked at. */
  lemma Performs(ms: seq<Mod>, ls: seq<Label>, s: Shot, a: Action, s': Shot) returns (ms': seq<Mod>, ls': seq<Label>)
    requires Reached(ms, ls, s) && InScript(s, a) && s' == After(s, a)
    ensures Reached(ms', ls', s') && Extends(ms, ls, Act(a), ms', ls')
  {
    hide Reached, Safe, DoAct, MayAct, Looks;
    var m := Here(ms, ls, s);
    LooksAfter(m, s, a);
    ms', ls' := Advance(ms, ls, s, Act(a), DoAct(m, a), s');
  }

  function Stamp(es: seq<Event>): seq<Stamped> {
    seq(|es|, i requires 0 <= i < |es| => Stamped(i, es[i]))
  }

  /** The first pass has taken the events `es` and fired no timer. */
  function FirstBatch(es: seq<Event>): Shot {
    NOTHING_YET.(q := Queues([], Stamp(es), [], |es|, [], {}), pc := Pc.Events)
  }

  lemma Opening(es: seq<Event>) returns (ms: seq<Mod>, ls: seq<Label>)
    requires es != [] && forall e <- es :: !e.Reply?
    ensures Reached(ms, ls, FirstBatch(es))
  {
    hide Reached;
    ms, ls := Beginning();
    var s, k := NOTHING_YET, 0;
    while k < |es|
      invariant k <= |es| && Reached(ms, ls, s) && s == NOTHING_YET.(q := Queues(Stamp(es[..k]), [], [], k, [], {}))
    {
      var s' := NOTHING_YET.(q := Queues(Stamp(es[..k + 1]), [], [], k + 1, [], {}));
      assert Stamp(es[..k + 1]) == Stamp(es[..k]) + [Stamped(k, es[k])];
      ms, ls := EventArrives(ms, ls, s, es[k], s');
      s, k := s', k + 1;
    }
    assert es[..k] == es;
    var t := NOTHING_YET.(q := Queues([], Stamp(es), [], |es|, [], {}), pc := Timers(NOW, []));
    ms, ls := PassBegins(ms, ls, s, t);
    ms, ls := NoTimer(ms, ls, t, FirstBatch(es));
  }

  // ---------------------------------------------------------------- a lock with a request open

  /** A asks one thing asynchronously and blocks on another; B takes the lock and blocks in turn. */
  function FiberA(): Fiber {
    NewFiber(START_A).(outstanding := 1, waitingReply := true, waitId := 2, point := AtRequest, firstRun := false)
  }

  function FiberB(): Fiber {
    NewFiber(START_B).(waitingReply := true, waitId := 3, point := AtRequest, firstRun := false)
  }

  const A_BATCH := [Stamped(0, START_A), Stamped(1, START_B)]

  /** A has blocked; `rest` of the batch is left. */
  function ABlocked(all: seq<Stamped>, posted: nat): Shot
    requires all != []
  {
    Shot(Queues([], all[1..], [], posted, [all[0]], {}), [0], map[0 := FiberA()], [Entry(2, 0), Entry(1, 0)], 3, None,
         Pc.Events, None, map[])
  }

  lemma ABlocks(es: seq<Event>) returns (ms: seq<Mod>, ls: seq<Label>)
    requires es != [] && es[0] == START_A && forall e <- es :: !e.Reply?
    ensures Reached(ms, ls, ABlocked(Stamp(es), |es|))
  {
    hide Reached;
    ms, ls := Opening(es);
    var s0, all := FirstBatch(es), Stamp(es);
    var s1 := s0.(q := Consume(s0.q), order := [0], fib := map[0 := NewFiber(START_A)], current := Some(0));
    ms, ls := Begins(ms, ls, s0, 0, s1);
    assert Live(s1.q) == all[1..];
    var s2 := After(s1, AskLater());
    ms, ls := Performs(ms, ls, s1, AskLater(), s2);
    ms, ls := Performs(ms, ls, s2, Ask(), ABlocked(all, |es|));
  }

  function BothBlocked(): Shot {
    Shot(Queues([], [], [], 2, A_BATCH, {}), [1, 0], map[0 := FiberA(), 1 := FiberB()],
         [Entry(3, 1), Entry(2, 0), Entry(1, 0)], 4, Some(1), Top, None, map[])
  }

  lemma BLocks() returns (ms: seq<Mod>, ls: seq<Label>)
    ensures Reached(ms, ls, BothBlocked())
  {
    hide Reached;
    var es := [START_A, START_B];
    ms, ls := ABlocks(es);
    assert Stamp(es) == A_BATCH;
    var s0 := ABlocked(A_BATCH, 2);
    var s1 := s0.(q := Queues([], [], [], 2, A_BATCH, {}), order := [1, 0],
                  fib := map[0 := FiberA(), 1 := NewFiber(START_B)], current := Some(1));
    ms, ls := Begins(ms, ls, s0, 1, s1);
    assert Live(s1.q) == [];
    ms, ls := Performs(ms, ls, s1, Lock, s1.(locked := Some(1)));
    var s2 := BothBlocked().(pc := Pc.Events);
    ms, ls := Performs(ms, ls, s1.(locked := Some(1)), Ask(), s2);
    ms, ls := PassEnds(ms, ls, s2);
  }

  const R1 := Stamped(2, ReplyTo(1))
  const R3 := Stamped(3, ReplyTo(3))
  const R2 := Stamped(4, ReplyTo(2))

  /** The replies have come in the order of A's asynchronous request, B's and A's blocking one. */
  function RepliesTaken(): Shot {
    BothBlocked().(q := Queues([], [R1, R3, R2], [], 5, A_BATCH, {}), pc := Pc.Events)
  }

  lemma RepliesArrive() returns (ms: seq<Mod>, ls: seq<Label>)
    ensures Reached(ms, ls, RepliesTaken())
  {
    hide Reached;
    ms, ls := BLocks();
    var s := BothBlocked();
    var s1 := s.(q := Queues([R1], [], [], 3, A_BATCH, {}));
    var s2 := s.(q := Queues([R1, R3], [], [], 4, A_BATCH, {}));
    var s3 := s.(q := Queues([R1, R3, R2], [], [], 5, A_BATCH, {}));
    ms, ls := EventArrives(ms, ls, s, ReplyTo(1), s1);
    ms, ls := EventArrives(ms, ls, s1, ReplyTo(3), s2);
    ms, ls := EventArrives(ms, ls, s2, ReplyTo(2), s3);
    var t := RepliesTaken();
    var both: seq<nat>, one: seq<nat> := [1, 0], [0];
    assert both[1..] == one && one[1..] == [];
    ms, ls := PassBegins(ms, ls, s3, t.(pc := Timers(NOW, both)));
    ms, ls := NoTimer(ms, ls, t.(pc := Timers(NOW, both)), t.(pc := Timers(NOW, one)));
    ms, ls := NoTimer(ms, ls, t.(pc := Timers(NOW, one)), t.(pc := Timers(NOW, [])));
    ms, ls := NoTimer(ms, ls, t.(pc := Timers(NOW, [])), t);
  }

  /** The first is put off for B's lock; the second lets B go on, which unlocks and returns. */
  function BDone(): Shot {
    var b := Answered(FiberB(), ReplyTo(3)).(point := AtUser, done := true, firstRun := false);
    Shot(Queues([], [R2], [R1], 5, A_BATCH + [R3], {2}), [1, 0], map[0 := FiberA(), 1 := b],
         [Entry(2, 0), Entry(1, 0)], 4, None, Pc.Events, None, map[3 := ReplyTo(3)])
  }

  function BWoken(): Shot {
    RepliesTaken().(q := Queues([], [R2], [R1], 5, A_BATCH + [R3], {2}), pending := [Entry(2, 0), Entry(1, 0)],
                    current := Some(1), fib := map[0 := FiberA(), 1 := Answered(FiberB(), ReplyTo(3))],
                    first := map[3 := ReplyTo(3)])
  }

  lemma BWakes() returns (ms: seq<Mod>, ls: seq<Label>)
    ensures Reached(ms, ls, BWoken())
  {
    hide Reached;
    ms, ls := RepliesArrive();
    var s := RepliesTaken();
    var t := s.(q := Queues([], [R3, R2], [R1], 5, A_BATCH, {2}));
    ms, ls := PutOff(ms, ls, s, t);
    ms, ls := Wakes(ms, ls, t, 1, BWoken());
  }

  lemma BUnlocks() returns (ms: seq<Mod>, ls: seq<Label>)
    ensures Reached(ms, ls, BDone())
  {
    hide Reached, InScript, After;
    ms, ls := BWakes();
    BScript();
    BReturns();
    var u := BWoken();
    var v := BWoken().(fib := map[0 := FiberA(), 1 := BAnswered()]);
    ms, ls := Performs(ms, ls, u, Continue, v);
    ms, ls := Performs(ms, ls, v, Unlock, v.(locked := None));
    ms, ls := Performs(ms, ls, v.(locked := None), Return, BDone());
  }

  function BAnswered(): Fiber {
    Answered(FiberB(), ReplyTo(3)).(point := AtUser)
  }

  lemma BScript()
    ensures var u := BWoken();
      var v := u.(fib := map[0 := FiberA(), 1 := BAnswered()]);
      InScript(u, Continue) && v == After(u, Continue) && InScript(v, Unlock) && v.(locked := None) == After(v, Unlock)
  {
    assert Live(BWoken().q) == [R1, R2];
  }

  lemma BReturns()
    ensures var w := BWoken().(fib := map[0 := FiberA(), 1 := BAnswered()], locked := None);
      InScript(w, Return) && BDone() == After(w, Return)
  {
    assert Live(BWoken().q) == [R1, R2];
  }

  /** The third lets A go on. */
  function AWoken(): Shot {
    BDone().(q := Queues([], [], [R1], 5, A_BATCH + [R3, R2], {2}), pending := [Entry(1, 0)], current := Some(0),
             fib := BDone().fib[0 := Answered(FiberA(), ReplyTo(2))],
             first := map[3 := ReplyTo(3), 2 := ReplyTo(2)])
  }

  lemma AGoesOn(ms: seq<Mod>, ls: seq<Label>) returns (ms': seq<Mod>, ls': seq<Label>)
    requires Reached(ms, ls, BDone())
    ensures Reached(ms', ls', AWoken()) && Extends(ms, ls, EventTurn, ms', ls')
  {
    hide Reached;
    assert A_BATCH + [R3] + [R2] == A_BATCH + [R3, R2];
    ms', ls' := Wakes(ms, ls, BDone(), 0, AWoken());
  }

  /** An unlock in the middle of a batch lets the rest of it pass what was put off: with nobody holding the
      lock, an event is handled while one that arrived before it is still waiting. */
  lemma LaterEventPasses() returns (ms: seq<Mod>, ls: seq<Label>, k: nat, s: Stamped, t: Stamped)
    ensures RunFrom(CFG, ms, ls) && k < |ls| && ls[k] == EventTurn && ms[k].locked.None? && s.at < t.at
    ensures ms[k].q.batch != [] && ms[k].q.batch[0] == t && s in ms[k].q.deferred
    ensures t in ms[k + 1].q.consumed && s in ms[k + 1].q.deferred
  {
    hide Reached, RunFrom;
    var before, to := BUnlocks();
    ms, ls := AGoesOn(before, to);
    k, s, t := |to|, R1, R2;
    Seen(before, to, BDone());
    Seen(ms, ls, AWoken());
    assert ms[k] == before[k] && ls[k] == EventTurn;
    var was, now := BDone().q, AWoken().q;
    assert was.deferred[0] == s && now.deferred[0] == s && now.consumed[3] == t;
  }

  /** A locks and waits for its other reply. */
  function AParked(): Shot {
    var a := Answered(FiberA(), ReplyTo(2)).(point := AtWait, waitingAny := true);
    AWoken().(fib := BDone().fib[0 := a], locked := Some(0), current := None)
  }

  lemma AParks() returns (ms: seq<Mod>, ls: seq<Label>)
    ensures Reached(ms, ls, AParked())
  {
    hide Reached;
    var ms0, ls0 := BUnlocks();
    ms, ls := AGoesOn(ms0, ls0);
    var s := AWoken();
    assert Live(s.q) == [R1];
    ms, ls := Performs(ms, ls, s, Continue, After(s, Continue));
    var t := After(s, Continue);
    ms, ls := Performs(ms, ls, t, Lock, After(t, Lock));
    ms, ls := Performs(ms, ls, After(t, Lock), WaitReply, AParked());
  }

  /** A run in which a fiber starves behind its own lock: it holds the lock and waits for any reply, the only
      reply it can get has arrived, and that reply is put off for the lock. */
  lemma OwnerCanBeStranded() returns (ms: seq<Mod>, ls: seq<Label>, m: Mod)
    ensures RunFrom(CFG, ms, ls) && m == ms[|ls|] && m.locked == Some(0) && m.current == None
    ensures 0 in m.fib && m.fib[0].waitingAny && m.fib[0].outstanding == 1 && m.fib[0].rq == []
    ensures m.pending == [Entry(1, 0)] && m.q.deferred == [R1] && R1.ev.id == 1 && m.q.batch + m.q.inbox == []
    ensures !OwnerServed(m)
  {
    hide Reached, RunFrom;
    ms, ls := AParks();
    Seen(ms, ls, AParked());
    m := ms[|ls|];
    assert R1 in m.q.deferred && Peek(m.pending, 1) == Some(0);
  }

  // ---------------------------------------------------------------- a handler that locks

  /** The locks of A's steps from `i` on are not let go by A. */
  ghost predicate KeptFrom(ms: seq<Mod>, ls: seq<Label>, i: nat) {
    |ls| < |ms| && forall k :: i <= k < |ls| ==> !LetsGo(ms[k], ls[k], 0)
  }

  lemma KeptOn(ms: seq<Mod>, ls: seq<Label>, s: Shot, l: Label, ms': seq<Mod>, ls': seq<Label>, i: nat)
    requires Reached(ms, ls, s) && Extends(ms, ls, l, ms', ls') && KeptFrom(ms, ls, i)
    requires l != Label.Reap && (l == Act(Unlock) ==> s.current != Some(0))
    ensures KeptFrom(ms', ls', i)
  {
    hide Reached, RunFrom;
    Seen(ms, ls, s);
    forall k | i <= k < |ls'| ensures !LetsGo(ms'[k], ls'[k], 0) {
      assert ms'[k] == ms[k];
      if k < |ls| {
        assert ls'[k] == ls[k] && !LetsGo(ms[k], ls[k], 0);
      }
    }
  }

  lemma KeptNow(ms: seq<Mod>, ls: seq<Label>, s: Shot)
    requires Reached(ms, ls, s)
    ensures KeptFrom(ms, ls, |ls|)
  {
    Seen(ms, ls, s);
  }

  const T_BATCH := [Stamped(0, START_A), Stamped(1, NOTICE), Stamped(2, START_B)]

  function HolderA(): Fiber {
    NewFiber(START_A).(waitingReply := true, waitId := 1, point := AtRequest, firstRun := false)
  }

  /** A has locked and blocked; the notice and B are next. */
  function AHolds(): Shot {
    Shot(Queues([], T_BATCH[1..], [], 3, [T_BATCH[0]], {}), [0], map[0 := HolderA()], [Entry(1, 0)], 2, Some(0),
         Pc.Events, None, map[])
  }

  lemma AHoldsLock() returns (ms: seq<Mod>, ls: seq<Label>)
    ensures Reached(ms, ls, AHolds())
  {
    hide Reached;
    var es := [START_A, NOTICE, START_B];
    ms, ls := Opening(es);
    assert Stamp(es) == T_BATCH;
    var s0 := FirstBatch(es);
    var s1 := s0.(q := Consume(s0.q), order := [0], fib := map[0 := NewFiber(START_A)], current := Some(0));
    ms, ls := Begins(ms, ls, s0, 0, s1);
    assert Live(s1.q) == T_BATCH[1..];
    ms, ls := Performs(ms, ls, s1, Lock, After(s1, Lock));
    ms, ls := Performs(ms, ls, After(s1, Lock), Ask(), AHolds());
  }

  /** The handler has locked, unlocked and returned. */
  function HandlerDone(): Shot {
    var h := NewFiber(NOTICE).(done := true, firstRun := false);
    AHolds().(q := Queues([], [T_BATCH[2]], [], 3, T_BATCH[..2], {}), order := [1, 0], locked := None,
              fib := map[0 := HolderA(), 1 := h])
  }

  lemma HandlerLocks(ms: seq<Mod>, ls: seq<Label>) returns (ms': seq<Mod>, ls': seq<Label>)
    requires Reached(ms, ls, AHolds())
    ensures Reached(ms', ls', HandlerDone()) && KeptFrom(ms', ls', |ls|) && ls <= ls' && ms <= ms'
  {
    hide Reached, RunFrom, KeptFrom, InScript, After;
    var a, b := HandlerStarts(ms, ls);
    var s := HandlerRuns();
    HandlerScript();
    var held := s.(locked := Some(1));
    var a2, b2 := ActsBeside(a, b, s, Lock, held, |ls|);
    var free := s.(locked := None);
    var a3, b3 := ActsBeside(a2, b2, held, Unlock, free, |ls|);
    ms', ls' := ActsBeside(a3, b3, free, Return, HandlerDone(), |ls|);
  }

  /** An action of another fiber than A, which leaves A's lock as far as A is concerned. */
  lemma ActsBeside(ms: seq<Mod>, ls: seq<Label>, s: Shot, a: Action, s': Shot, i: nat)
    returns (ms': seq<Mod>, ls': seq<Label>)
    requires Reached(ms, ls, s) && InScript(s, a) && s' == After(s, a) && KeptFrom(ms, ls, i) && s.current != Some(0)
    ensures Reached(ms', ls', s') && KeptFrom(ms', ls', i) && ls <= ls' && ms <= ms'
  {
    hide Reached, KeptFrom, InScript, After;
    ms', ls' := Performs(ms, ls, s, a, s');
    KeptOn(ms, ls, s, Act(a), ms', ls', i);
  }

  lemma HandlerScript()
    ensures var s := HandlerRuns();
      var held, free := s.(locked := Some(1)), s.(locked := None);
      && InScript(s, Lock) && held == After(s, Lock) && InScript(held, Unlock) && free == After(held, Unlock)
      && InScript(free, Return) && HandlerDone() == After(free, Return)
  {
    assert Live(HandlerRuns().q) == [T_BATCH[2]];
  }

  function HandlerRuns(): Shot {
    AHolds().(q := Queues([], [T_BATCH[2]], [], 3, T_BATCH[..2], {}), order := [1, 0], current := Some(1),
              fib := map[0 := HolderA(), 1 := NewFiber(NOTICE)])
  }

  lemma HandlerStarts(ms: seq<Mod>, ls: seq<Label>) returns (ms': seq<Mod>, ls': seq<Label>)
    requires Reached(ms, ls, AHolds())
    ensures Reached(ms', ls', HandlerRuns()) && KeptFrom(ms', ls', |ls|) && ls <= ls' && ms <= ms'
  {
    hide Reached, KeptFrom;
    KeptNow(ms, ls, AHolds());
    ms', ls' := Begins(ms, ls, AHolds(), 1, HandlerRuns());
    KeptOn(ms, ls, AHolds(), EventTurn, ms', ls', |ls|);
  }

  /** A run in which a handler locks while another fiber holds the lock. From step `i` on fiber 0 has the
      lock and never lets go of it, and still at the end another sequence that is no handler is running. */
  lemma HandlerBreaksExclusion() returns (ms: seq<Mod>, ls: seq<Label>, i: nat)
    ensures RunFrom(CFG, ms, ls) && i < |ls| && ms[i].locked == Some(0)
    ensures forall k :: i <= k < |ls| ==> !LetsGo(ms[k], ls[k], 0)
    ensures ms[|ls|].current == Some(2) && 2 in ms[|ls|].fib && !ms[|ls|].fib[2].handler
    ensures 0 in ms[|ls|].fib && !ms[|ls|].fib[0].done
  {
    hide Reached, RunFrom;
    var ms0, ls0 := AHoldsLock();
    i := |ls0|;
    Seen(ms0, ls0, AHolds());
    var ms1, ls1 := HandlerLocks(ms0, ls0);
    var s := HandlerDone();
    var t := s.(q := Queues([], [], [], 3, T_BATCH, {}), order := [2, 1, 0], current := Some(2),
                fib := s.fib[2 := NewFiber(START_B)]);
    ms, ls := Begins(ms1, ls1, s, 2, t);
    KeptOn(ms1, ls1, s, EventTurn, ms, ls, i);
    Seen(ms, ls, t);
    assert ms[i] == ms0[i];
  }

  // ---------------------------------------------------------------- a queued reply shows no sender

  const Q1 := Stamped(1, ReplyTo(1))
  const Q2 := Stamped(2, ReplyTo(2))

  /** A, blocked on its second request, has the reply to its first in its queue. */
  function QueuedAtA(): Fiber {
    FiberA().(arrived := [ArrivalOf(ReplyTo(1))], slots := [2], rq := [ArrivalOf(ReplyTo(1))])
  }

  function ACollects(): Shot {
    Shot(Queues([], [], [], 3, [Stamped(0, START_A), Q1, Q2], {}), [0],
         map[0 := Answered(QueuedAtA(), ReplyTo(2)).(point := AtUser)], [], 3, None, Pc.Events, Some(0),
         map[1 := ReplyTo(1), 2 := ReplyTo(2)])
  }

  function BothArrived(): Shot {
    ABlocked([Stamped(0, START_A)], 1).(q := Queues([], [Q1, Q2], [], 3, [Stamped(0, START_A)], {}))
  }

  lemma BothArrive() returns (ms: seq<Mod>, ls: seq<Label>)
    ensures Reached(ms, ls, BothArrived())
  {
    hide Reached;
    var es := [START_A];
    ms, ls := ABlocks(es);
    assert Stamp(es) == [Stamped(0, START_A)];
    var s0 := ABlocked(Stamp(es), 1);
    ms, ls := PassEnds(ms, ls, s0);
    var was := [Stamped(0, START_A)];
    var top := s0.(pc := Top);
    var s1 := top.(q := Queues([Q1], [], [], 2, was, {}));
    var s2 := top.(q := Queues([Q1, Q2], [], [], 3, was, {}));
    ms, ls := EventArrives(ms, ls, top, ReplyTo(1), s1);
    ms, ls := EventArrives(ms, ls, s1, ReplyTo(2), s2);
    var taken := top.(q := Queues([], [Q1, Q2], [], 3, was, {}), pc := Pc.Events);
    var one: seq<nat> := [0];
    assert one[1..] == [];
    ms, ls := PassBegins(ms, ls, s2, taken.(pc := Timers(NOW, one)));
    ms, ls := NoTimer(ms, ls, taken.(pc := Timers(NOW, one)), taken.(pc := Timers(NOW, [])));
    ms, ls := NoTimer(ms, ls, taken.(pc := Timers(NOW, [])), taken);
  }

  lemma AIsAboutToCollect() returns (ms: seq<Mod>, ls: seq<Label>)
    ensures Reached(ms, ls, ACollects())
  {
    hide Reached;
    ms, ls := BothArrive();
    var taken, was := BothArrived(), [Stamped(0, START_A)];
    var queued := taken.(q := Queues([], [Q2], [], 3, was + [Q1], {}), pending := [Entry(2, 0)],
                         fib := map[0 := QueuedAtA()], first := map[1 := ReplyTo(1)]);
    ms, ls := QueuesUp(ms, ls, taken, 0, QueuedAtA(), queued);
    var woken := ACollects().(fib := map[0 := Answered(QueuedAtA(), ReplyTo(2))]);
    assert was + [Q1] + [Q2] == ACollects().q.consumed;
    ms, ls := Wakes(ms, ls, queued, 0, woken);
    assert Live(woken.q) == [];
    ms, ls := Performs(ms, ls, woken, Continue, ACollects());
  }

  /** A run in which a reply made by module 1 lies in the queue when it is collected, and is shown as coming
      from module 0. */
  lemma QueuedShownAsZero() returns (ms: seq<Mod>, ls: seq<Label>, c: Completion)
    ensures RunFrom(CFG, ms, ls) && c in ms[|ls|].hist.completions && c.kind == Async && c.src.id == 1
    ensures 1 in ms[|ls|].hist.first && ms[|ls|].hist.first[1] == ReplyTo(1) && ReplyTo(1).from == 1
    ensures c.src.thread == 0
  {
    hide Reached, RunFrom, Next, InScript, After, ACollects;
    var ms0, ls0 := AIsAboutToCollect();
    var s := ACollects();
    CollectScript();
    ms, ls := Performs(ms0, ls0, s, WaitReply, After(s, WaitReply));
    var k := |ls0|;
    Seen(ms0, ls0, s);
    Seen(ms, ls, After(s, WaitReply));
    assert ms[k] == ms0[k] && ls[k] == Act(WaitReply);
    StepOf(ms, ls, k);
    c := Collected(ms[k], ms[k + 1]);
  }

  lemma CollectScript()
    ensures var s := ACollects();
      && s.current == Some(0) && 0 in s.fib && s.fib[0].rq != [] && s.fib[0].rq[0].id == 1 && InScript(s, WaitReply)
      && var first := After(s, WaitReply).first;
      1 in first && first[1] == ReplyTo(1)
  {
    assert Live(ACollects().q) == [];
  }

  lemma StepOf(ms: seq<Mod>, ls: seq<Label>, k: nat)
    requires RunFrom(CFG, ms, ls) && k < |ls|
    ensures Next(ms[k], ls[k], ms[k + 1])
  {}

  /** A queued reply is collected by the running fiber 0. */
  lemma Collected(m: Mod, n: Mod) returns (c: Completion)
    requires m.current == Some(0) && 0 in m.fib && m.fib[0].rq != [] && m.fib[0].rq[0].id == 1
    requires Next(m, Act(WaitReply), n)
    ensures c in n.hist.completions && c.kind == Async && c.src.id == 1 && c.src.thread == 0
  {
    assert n == DoWaitReply(m);
    c := n.hist.completions[|m.hist.completions|];
  }

  // ---------------------------------------------------------------- a return with a request open

  /** A has asked for something asynchronously and returned. */
  function LeftOpen(): Shot {
    var a := NewFiber(START_A).(outstanding := 1, done := true, firstRun := false);
    Shot(Queues([], [], [], 1, [Stamped(0, START_A)], {}), [0], map[0 := a], [Entry(1, 0)], 2, None, Pc.Events, None,
         map[])
  }

  lemma ReturnsOpen() returns (ms: seq<Mod>, ls: seq<Label>)
    ensures Reached(ms, ls, LeftOpen())
  {
    hide Reached;
    var es := [START_A];
    ms, ls := Opening(es);
    assert Stamp(es) == [Stamped(0, START_A)];
    var s0 := FirstBatch(es);
    var s1 := s0.(q := Queues([], [], [], 1, [Stamped(0, START_A)], {}), order := [0],
                  fib := map[0 := NewFiber(START_A)], current := Some(0));
    ms, ls := Begins(ms, ls, s0, 0, s1);
    assert Live(s1.q) == [];
    ms, ls := Performs(ms, ls, s1, AskLater(), After(s1, AskLater()));
    ms, ls := Performs(ms, ls, After(s1, AskLater()), Return, LeftOpen());
  }

  /** A run that comes to the reaper with a finished fiber whose request is still in the table: what the reaper
      makes of it has an entry that refers to a fiber which is gone. */
  lemma EntryLeftBehind() returns (ms: seq<Mod>, ls: seq<Label>, m: Mod)
    ensures RunFrom(CFG, ms, ls) && |ms| == |ls| + 1 && m == ms[|ls|] && m.pc.Reaping?
    ensures (forall f <- m.order :: f in m.fib) && m.locked.None?
    ensures Entry(1, 0) in DoReap(m).pending && 0 !in DoReap(m).fib && !Sound(DoReap(m))
  {
    hide Reached, RunFrom;
    ms, ls := ReturnsOpen();
    ms, ls := BatchEnds(ms, ls, LeftOpen());
    Seen(ms, ls, LeftOpen().(pc := Reaping));
    m := ms[|ls|];
    assert m.fib[0].done && m.pending[0] == Entry(1, 0);
  }

  // ---------------------------------------------------------------- a full inbox

  /** No number of waiting events is too many: for every `n` a run has that many in its inbox. */
  lemma InboxUnbounded(n: nat) returns (ms: seq<Mod>, ls: seq<Label>)
    ensures RunFrom(CFG, ms, ls) && |ms| == |ls| + 1 && |ms[|ls|].q.inbox| == n
  {
    hide Reached, RunFrom;
    ms, ls := Beginning();
    var s, k := NOTHING_YET, 0;
    while k < n
      invariant k <= n && Reached(ms, ls, s) && |s.q.inbox| == k
    {
      var s' := s.(q := Post(s.q, START_A));
      ms, ls := EventArrives(ms, ls, s, START_A, s');
      s, k := s', k + 1;
    }
    Seen(ms, ls, s);
  }
}
