/** A run in which a fiber collects its replies in another order than they arrived in, because of a lock that
    another fiber held. */
module OutOfOrder {
  import opened Base
  import opened Pending
  import opened EventQueues
  import opened Machine
  import opened Runs
  import opened Scheduling
  import opened Ordering
  import opened Scenarios

  /** A asks two things asynchronously and blocks on a third; B takes the lock and blocks in turn. */
  function WideA(): Fiber {
    NewFiber(START_A).(outstanding := 2, waitingReply := true, waitId := 3, point := AtRequest, firstRun := false)
  }

  function WideB(): Fiber {
    NewFiber(START_B).(waitingReply := true, waitId := 4, point := AtRequest, firstRun := false)
  }

  /** A has blocked and B is next. */
  function WideABlocked(): Shot {
    Shot(Queues([], [A_BATCH[1]], [], 2, [A_BATCH[0]], {}), [0], map[0 := WideA()],
         [Entry(3, 0), Entry(2, 0), Entry(1, 0)], 4, None, Pc.Events, None, map[])
  }

  lemma WideABlocks() returns (ms: seq<Mod>, ls: seq<Label>)
    ensures Reached(ms, ls, WideABlocked())
  {
    hide Reached;
    var es := [START_A, START_B];
    ms, ls := Opening(es);
    assert Stamp(es) == A_BATCH;
    var s0 := FirstBatch(es);
    var s1 := s0.(q := Consume(s0.q), order := [0], fib := map[0 := NewFiber(START_A)], current := Some(0));
    ms, ls := Begins(ms, ls, s0, 0, s1);
    assert Live(s1.q) == [A_BATCH[1]];
    var s2, s3 := After(s1, AskLater()), After(After(s1, AskLater()), AskLater());
    ms, ls := Performs(ms, ls, s1, AskLater(), s2);
    ms, ls := Performs(ms, ls, s2, AskLater(), s3);
    ms, ls := Performs(ms, ls, s3, Ask(), WideABlocked());
  }

  function WideBlocked(): Shot {
    Shot(Queues([], [], [], 2, A_BATCH, {}), [1, 0], map[0 := WideA(), 1 := WideB()],
         [Entry(4, 1), Entry(3, 0), Entry(2, 0), Entry(1, 0)], 5, Some(1), Top, None, map[])
  }

  lemma WideBLocks() returns (ms: seq<Mod>, ls: seq<Label>)
    ensures Reached(ms, ls, WideBlocked())
  {
    hide Reached, InScript, After;
    ms, ls := WideABlocks();
    ms, ls := Begins(ms, ls, WideABlocked(), 1, WideBRuns());
    LockScript();
    var s := WideBlocked().(pc := Pc.Events);
    ms, ls := Performs(ms, ls, WideBRuns(), Lock, WideBRuns().(locked := Some(1)));
    ms, ls := Performs(ms, ls, WideBRuns().(locked := Some(1)), Ask(), s);
    ms, ls := PassEnds(ms, ls, s);
  }

  function WideBRuns(): Shot {
    WideABlocked().(q := Queues([], [], [], 2, A_BATCH, {}), order := [1, 0],
                    fib := map[0 := WideA(), 1 := NewFiber(START_B)], current := Some(1))
  }

  lemma LockScript()
    ensures InScript(WideBRuns(), Lock) && After(WideBRuns(), Lock) == WideBRuns().(locked := Some(1))
    ensures var s := WideBRuns().(locked := Some(1));
      InScript(s, Ask()) && After(s, Ask()) == WideBlocked().(pc := Pc.Events)
  {
    assert Live(WideBRuns().q) == [];
  }

  const W1 := Stamped(2, ReplyTo(1))
  const W4 := Stamped(3, ReplyTo(4))
  const W2 := Stamped(4, ReplyTo(2))
  const W3 := Stamped(5, ReplyTo(3))

  /** The timer pass goes by. */
  lemma NoTimers(ms: seq<Mod>, ls: seq<Label>, s: Shot) returns (ms': seq<Mod>, ls': seq<Label>)
    requires Reached(ms, ls, s) && s.pc == Timers(NOW, [1, 0]) && s.current.None?
    requires 0 in s.fib && 1 in s.fib && !s.fib[0].waitingTimer && !s.fib[1].waitingTimer
    ensures Reached(ms', ls', s.(pc := Pc.Events))
  {
    hide Reached;
    var both: seq<nat>, one: seq<nat> := [1, 0], [0];
    assert both[1..] == one && one[1..] == [];
    ms', ls' := NoTimer(ms, ls, s, s.(pc := Timers(NOW, one)));
    ms', ls' := NoTimer(ms', ls', s.(pc := Timers(NOW, one)), s.(pc := Timers(NOW, [])));
    ms', ls' := NoTimer(ms', ls', s.(pc := Timers(NOW, [])), s.(pc := Pc.Events));
  }

  function WideTaken(): Shot {
    WideBlocked().(q := Queues([], [W1, W4, W2], [], 5, A_BATCH, {}), pc := Pc.Events)
  }

  lemma WideArrive() returns (ms: seq<Mod>, ls: seq<Label>)
    ensures Reached(ms, ls, WideTaken())
  {
    hide Reached;
    ms, ls := WideBLocks();
    var s := WideBlocked();
    var s1 := s.(q := Queues([W1], [], [], 3, A_BATCH, {}));
    var s2 := s.(q := Queues([W1, W4], [], [], 4, A_BATCH, {}));
    var s3 := s.(q := Queues([W1, W4, W2], [], [], 5, A_BATCH, {}));
    ms, ls := EventArrives(ms, ls, s, ReplyTo(1), s1);
    ms, ls := EventArrives(ms, ls, s1, ReplyTo(4), s2);
    ms, ls := EventArrives(ms, ls, s2, ReplyTo(2), s3);
    var t := WideTaken().(pc := Timers(NOW, [1, 0]));
    ms, ls := PassBegins(ms, ls, s3, t);
    ms, ls := NoTimers(ms, ls, t);
  }

  /** The first is put off for B's lock; the second lets B go on. */
  function WideBWoken(): Shot {
    WideTaken().(q := Queues([], [W2], [W1], 5, A_BATCH + [W4], {2}),
                 pending := [Entry(3, 0), Entry(2, 0), Entry(1, 0)], current := Some(1),
                 fib := map[0 := WideA(), 1 := Answered(WideB(), ReplyTo(4))], first := map[4 := ReplyTo(4)])
  }

  lemma WideBWakes() returns (ms: seq<Mod>, ls: seq<Label>)
    ensures Reached(ms, ls, WideBWoken())
  {
    hide Reached;
    ms, ls := WideArrive();
    var s := WideTaken();
    var t := s.(q := Queues([], [W4, W2], [W1], 5, A_BATCH, {2}));
    ms, ls := PutOff(ms, ls, s, t);
    ms, ls := Wakes(ms, ls, t, 1, WideBWoken());
  }

  /** B has unlocked and blocked on another request. */
  function WideBAgain(): Shot {
    var b := Answered(WideB(), ReplyTo(4)).(waitingReply := true, waitId := 5, point := AtRequest);
    WideBWoken().(fib := map[0 := WideA(), 1 := b], locked := None, current := None, next := 6,
                  pending := [Entry(5, 1), Entry(3, 0), Entry(2, 0), Entry(1, 0)])
  }

  lemma WideBScript()
    ensures var u := WideBWoken();
      var v := u.(fib := map[0 := WideA(), 1 := Answered(WideB(), ReplyTo(4)).(point := AtUser)]);
      InScript(u, Continue) && v == After(u, Continue) && InScript(v, Unlock) && v.(locked := None) == After(v, Unlock)
  {
    assert Live(WideBWoken().q) == [W1, W2];
  }

  lemma WideBAsks()
    ensures var w := WideBWoken().(fib := map[0 := WideA(), 1 := Answered(WideB(), ReplyTo(4)).(point := AtUser)],
                                   locked := None);
      InScript(w, Ask()) && WideBAgain() == After(w, Ask())
  {
    assert Live(WideBWoken().q) == [W1, W2];
  }

  lemma WideBUnlocks() returns (ms: seq<Mod>, ls: seq<Label>)
    ensures Reached(ms, ls, WideBAgain())
  {
    hide Reached, InScript, After;
    ms, ls := WideBWakes();
    WideBScript();
    WideBAsks();
    var u := WideBWoken();
    var v := u.(fib := map[0 := WideA(), 1 := Answered(WideB(), ReplyTo(4)).(point := AtUser)]);
    ms, ls := Performs(ms, ls, u, Continue, v);
    ms, ls := Performs(ms, ls, v, Unlock, v.(locked := None));
    ms, ls := Performs(ms, ls, v.(locked := None), Ask(), WideBAgain());
  }

  /** The third reply has been queued at A, and the first is still put off. */
  function LaterQueued(): Fiber {
    WideA().(arrived := [ArrivalOf(ReplyTo(2))], slots := [4], rq := [ArrivalOf(ReplyTo(2))])
  }

  /** The pass is over, and A's own answer has come. */
  function NextTaken(): Shot {
    WideBAgain().(q := Queues([], [W1, W3], [], 6, A_BATCH + [W4, W2], {2}), pc := Pc.Events,
                  pending := [Entry(5, 1), Entry(3, 0), Entry(1, 0)], fib := WideBAgain().fib[0 := LaterQueued()],
                  first := map[4 := ReplyTo(4), 2 := ReplyTo(2)])
  }

  lemma NextBegins() returns (ms: seq<Mod>, ls: seq<Label>)
    ensures Reached(ms, ls, NextTaken())
  {
    hide Reached;
    ms, ls := WideBUnlocks();
    var t := NextTaken();
    var s := t.(q := Queues([], [], [W1], 5, A_BATCH + [W4, W2], {2}));
    assert A_BATCH + [W4] + [W2] == A_BATCH + [W4, W2];
    ms, ls := QueuesUp(ms, ls, WideBAgain(), 0, LaterQueued(), s);
    ms, ls := PassEnds(ms, ls, s);
    var top := s.(pc := Top, q := Queues([W3], [], [W1], 6, A_BATCH + [W4, W2], {2}));
    ms, ls := EventArrives(ms, ls, s.(pc := Top), ReplyTo(3), top);
    ms, ls := PassBegins(ms, ls, top, t.(pc := Timers(NOW, [1, 0])));
    ms, ls := NoTimers(ms, ls, t.(pc := Timers(NOW, [1, 0])));
  }

  function BothQueued(): Fiber {
    LaterQueued().(arrived := [ArrivalOf(ReplyTo(2)), ArrivalOf(ReplyTo(1))], slots := [4, 5],
                   rq := [ArrivalOf(ReplyTo(2)), ArrivalOf(ReplyTo(1))])
  }

  /** The first reply has been queued behind the third. */
  function EarlierQueued(): Shot {
    NextTaken().(q := Queues([], [W3], [], 6, A_BATCH + [W4, W2, W1], {2}), pending := [Entry(5, 1), Entry(3, 0)],
                 fib := NextTaken().fib[0 := BothQueued()],
                 first := map[4 := ReplyTo(4), 2 := ReplyTo(2), 1 := ReplyTo(1)])
  }

  lemma EarlierQueues() returns (ms: seq<Mod>, ls: seq<Label>)
    ensures Reached(ms, ls, EarlierQueued())
  {
    hide Reached;
    ms, ls := NextBegins();
    assert A_BATCH + [W4, W2] + [W1] == A_BATCH + [W4, W2, W1];
    ms, ls := QueuesUp(ms, ls, NextTaken(), 0, BothQueued(), EarlierQueued());
  }

  /** A has been woken, with the third reply before the first in its queue. */
  function WideAWoken(): Shot {
    NextTaken().(q := Queues([], [], [], 6, A_BATCH + [W4, W2, W1, W3], {2}), pending := [Entry(5, 1)],
                 current := Some(0), fib := NextTaken().fib[0 := Answered(BothQueued(), ReplyTo(3))],
                 first := map[4 := ReplyTo(4), 2 := ReplyTo(2), 1 := ReplyTo(1), 3 := ReplyTo(3)])
  }

  lemma WideAWakes() returns (ms: seq<Mod>, ls: seq<Label>)
    ensures Reached(ms, ls, WideAWoken())
  {
    hide Reached;
    ms, ls := EarlierQueues();
    assert A_BATCH + [W4, W2, W1] + [W3] == A_BATCH + [W4, W2, W1, W3];
    ms, ls := Wakes(ms, ls, EarlierQueued(), 0, WideAWoken());
  }

  function BackA(): Fiber {
    Answered(BothQueued(), ReplyTo(3)).(point := AtUser)
  }

  function ABack(): Shot {
    WideAWoken().(fib := NextTaken().fib[0 := BackA()])
  }

  /** A has collected the first in its queue, and then the other. */
  function LaterCollected(): Shot {
    ABack().(fib := NextTaken().fib[0 := WithPopped(BackA(), Source(0, 0, 2, Success, 0, []))])
  }

  function BothCollected(): Shot {
    var one := WithPopped(BackA(), Source(0, 0, 2, Success, 0, []));
    ABack().(fib := NextTaken().fib[0 := WithPopped(one, Source(0, 0, 1, Success, 0, []))])
  }

  lemma ContinueScript()
    ensures InScript(WideAWoken(), Continue) && ABack() == After(WideAWoken(), Continue)
  {
    assert Live(WideAWoken().q) == [];
  }

  lemma LaterScript()
    ensures InScript(ABack(), WaitReply) && LaterCollected() == After(ABack(), WaitReply)
  {
    assert Live(ABack().q) == [];
  }

  lemma EarlierScript()
    ensures InScript(LaterCollected(), WaitReply) && BothCollected() == After(LaterCollected(), WaitReply)
  {
    assert Live(LaterCollected().q) == [];
  }

  lemma CollectsBoth() returns (ms: seq<Mod>, ls: seq<Label>)
    ensures Reached(ms, ls, BothCollected())
  {
    hide Reached, InScript, After;
    ms, ls := WideAWakes();
    ContinueScript();
    LaterScript();
    EarlierScript();
    ms, ls := Performs(ms, ls, WideAWoken(), Continue, ABack());
    ms, ls := Performs(ms, ls, ABack(), WaitReply, LaterCollected());
    ms, ls := Performs(ms, ls, LaterCollected(), WaitReply, BothCollected());
  }

  /** Fiber 0 is given the reply to its second request and then the one to its first, which had arrived before:
      that one was put off for another fiber's lock, which was let go in the middle of the batch. */
  lemma LaterCollectedFirst() returns (ms: seq<Mod>, ls: seq<Label>, m: Mod)
    ensures RunFrom(CFG, ms, ls) && |ms| == |ls| + 1 && m == ms[|ls|]
    ensures 0 in m.fib && m.fib[0].collected == [ArrivalOf(W2.ev), ArrivalOf(W1.ev)] && m.fib[0].rq == []
    ensures W1 in m.q.consumed && W2 in m.q.consumed && W1.at < W2.at && W1.ev.id == 1 && W2.ev.id == 2
    ensures SlotsOk(m.fib[0], m.q.consumed) && Given(m, 0) == [W2, W1] && !Ascending(Given(m, 0))
  {
    hide Reached, RunFrom, SlotsOk, Ascending, BothCollected;
    ms, ls := CollectsBoth();
    Seen(ms, ls, BothCollected());
    m := ms[|ls|];
    BothCollectedIs();
    GivenGave(CFG, ms, ls, |ls|, 0);
    assert Given(m, 0) == [W2, W1];
    NotAscending(Given(m, 0), 0, 1);
  }

  lemma BothCollectedIs()
    ensures var s := BothCollected();
      && 0 in s.fib && s.fib[0].collected == [ArrivalOf(W2.ev), ArrivalOf(W1.ev)] && s.fib[0].rq == []
      && s.fib[0].slots == [4, 5] && |s.q.consumed| == 6 && s.q.consumed[3] == W2 && s.q.consumed[4] == W1
  {
    assert BothCollected().q.consumed == A_BATCH + [W4, W2, W1, W3];
  }
}
