/** One module as a step machine: its scheduler, its fibers (arbitrary programs over the sequence
    API) and the environment that posts to its inbox. Each step is what the thread does between two
    points at which control or a lock changes hands. */
module Machine {
  import opened Base
  import opened Time
  import opened Pending
  import opened EventQueues

  /** Where a fiber's program stands: in its own code, or inside an API call that yielded. */
  datatype Point = AtUser | AtRequest | AtSleep | AtWait

  /** `point`, `firstRun` (still in its first run), `arrived` (async replies handled for this fiber),
      `slots` (how many events the module had handled with each of them) and `collected` (async replies returned
      to it) are history. */
  datatype Fiber = Fiber(
    handler: bool, seqIdx: nat, replyTo: int, replyId: nat, src: Source,
    waitingReply: bool, waitId: nat, waitingTimer: bool, deadline: Timespec, waitingAny: bool,
    outstanding: int, rq: seq<Arrival>, done: bool,
    point: Point, firstRun: bool, arrived: seq<Arrival>, slots: seq<nat>, collected: seq<Arrival>)

  datatype Pc =
    | Top
    | Sleeping(until: Option<Timespec>)
    | Timers(now: Timespec, todo: seq<nat>)
    | Events
    | Reaping
    | Stopped

  datatype Kind = Blocking | Async | OneWay

  /** The life of an issued id: in the pending table, queued at its fiber, in the hand of a fiber that
      has been resumed but has not yet returned from the call, returned. */
  datatype Stage = Waiting | Queued | InHand | Returned

  datatype Issue = Issue(kind: Kind, fid: nat, target: nat, seqIdx: nat, msg: Bytes, stage: Stage)

  /** One return of `coseq_request`, `coseq_request_timeout` or `coseq_wait_reply` to its caller. */
  datatype Completion = Completion(fid: nat, kind: Kind, src: Source)

  datatype Sent = Sent(fid: nat, dest: int, id: nat, result: ResultCode, msg: Bytes)

  /** History: ids of fibers so far, the event that started each, what was issued, the first handled
      reply to each id, what the waiting calls returned, which ids timed out, replies made here. */
  datatype History = History(
    nextFid: nat, born: map<nat, Event>, issues: map<nat, Issue>, first: map<nat, Event>,
    completions: seq<Completion>, timedOut: set<nat>, sent: set<Sent>)

  datatype Client = Client(category: nat, listener: int, clientId: nat)

  datatype Config = Config(idx: nat, nrSeq: nat, hasNotify: bool)

  /** `order` is the list of live fibers from its head, `fib` what each holds. */
  datatype Mod = Mod(
    cfg: Config, q: Queues, stop: bool,
    order: seq<nat>, fib: map<nat, Fiber>, pending: seq<Entry>, next: nat,
    locked: Option<nat>, clients: seq<Client>, pc: Pc, current: Option<nat>, hist: History)

  function Initial(cfg: Config): Mod {
    Mod(cfg, NO_EVENTS, false, [], map[], [], 1, None, [], Top, None,
        History(0, map[], map[], map[], [], {}, {}))
  }

  /** What a running fiber may do next. `Continue` returns from the API call in which it yielded. */
  datatype Action =
    | Continue
    | Request(target: nat, seqIdx: nat, msg: Bytes, timeout: Option<nat>, now: Timespec)
    | RequestAsync(target: nat, seqIdx: nat, msg: Bytes)
    | Send(target: nat, seqIdx: nat, msg: Bytes)
    | WaitReply
    | Answer(result: ResultCode, msg: Bytes)
    | Sleep(ms: nat, now: Timespec)
    | Lock
    | Unlock
    | Register(category: nat, clientId: nat)
    | Unregister(category: nat, clientId: nat)
    | Publish(category: nat, msg: Bytes)
    | Return

  datatype Label =
    | Arrive(ev: Event)
    | AskStop
    | Enter(now: Timespec)
    | Wake(now: Timespec)
    | TimerTurn
    | EventTurn
    | Reap
    | Act(a: Action)

  datatype Posting = Posting(target: int, ev: Event)

  // ---------------------------------------------------------------- scheduler

  function Put(m: Mod, f: nat, fb: Fiber): Mod {
    m.(fib := m.fib[f := fb])
  }

  function Cleared(fb: Fiber): Fiber {
    fb.(waitingTimer := false, waitingReply := false, waitingAny := false)
  }

  /** `resume` of fiber `f`, which holds `fb`: clear every wait flag and hand control over. */
  function Resume(m: Mod, f: nat, fb: Fiber): Mod {
    m.(fib := m.fib[f := Cleared(fb)], current := Some(f))
  }

  function SetStage(h: History, id: nat, stage: Stage): (r: History)
    ensures r == h.(issues := r.issues) && r.issues.Keys == h.issues.Keys
  {
    if id in h.issues then h.(issues := h.issues[id := h.issues[id].(stage := stage)]) else h
  }

  function NoteReply(h: History, e: Event): History
    requires e.Reply?
  {
    if e.id in h.first then h else h.(first := h.first[e.id := e])
  }

  function NoteTimeout(h: History, id: nat): History {
    SetStage(h.(timedOut := h.timedOut + {id}), id, InHand)
  }

  function ReplySource(fb: Fiber, e: Event): Source
    requires e.Reply?
  {
    Source(ToU8(e.from), fb.seqIdx, e.id, e.result, 0, e.msg)
  }

  /** The fiber's record of its handled async replies, after the one just taken from the batch. */
  function WithArrival(m: Mod, fb: Fiber, e: Event): Fiber
    requires e.Reply?
  {
    fb.(arrived := fb.arrived + [ArrivalOf(e)], slots := fb.slots + [|m.q.consumed|])
  }

  function TimeoutSource(fb: Fiber): Source {
    Source(0, fb.seqIdx, fb.waitId, RequestTimeout, 0, [])
  }

  /** A reply completes a blocked request of its id. */
  predicate Completes(fb: Fiber, e: Event)
    requires e.Reply?
  {
    fb.waitingReply && Wire(fb.waitId) == Wire(e.id)
  }

  /** The fiber with the reply as its source, or else queued. */
  function Handed(m: Mod, fb: Fiber, e: Event): Fiber
    requires e.Reply?
  {
    if Completes(fb, e) then fb.(src := ReplySource(fb, e))
    else if fb.waitingAny then WithArrival(m, fb, e).(src := ReplySource(fb, e))
    else WithArrival(m, fb, e).(rq := fb.rq + [ArrivalOf(e)])
  }

  /** `handle_reply`: complete a blocking request, wake a collector, or queue at the fiber. */
  function HandleReply(m: Mod, e: Event): Mod
    requires e.Reply? && forall p <- m.pending :: p.fid in m.fib
  {
    match Peek(m.pending, e.id)
    case None => m.(hist := NoteReply(m.hist, e))
    case Some(f) =>
      PeekFindsEntry(m.pending, e.id);
      var fb := m.fib[f];
      var wakes := Completes(fb, e) || fb.waitingAny;
      m.(pending := Take(m.pending, e.id),
         fib := m.fib[f := if wakes then Cleared(Handed(m, fb, e)) else Handed(m, fb, e)],
         current := if wakes then Some(f) else m.current,
         hist := SetStage(NoteReply(m.hist, e), e.id, if wakes then InHand else Queued))
  }

  lemma {:induction false} PeekFindsEntry(p: seq<Entry>, id: nat)
    ensures Peek(p, id).Some? ==> exists e <- p :: e.fid == Peek(p, id).value && Wire(e.id) == Wire(id)
  {
    if p != [] {
      if Wire(p[0].id) == Wire(id) {
        assert p[0] in p;
      } else {
        PeekFindsEntry(p[1..], id);
      }
    }
  }

  /** `new_fiber`: the fiber goes to the head of the list. */
  function NewFiber(e: Event): Fiber
    requires !e.Reply?
  {
    var never := Timespec(0, 0);
    match e
    case Start(s, id, r, msg) =>
      Fiber(false, s, r, id, Source(ToU8(r), s, id, Ignore, 0, msg),
            false, 0, false, never, false, 0, [], false, AtUser, true, [], [], [])
    case Notify(_, c, from, msg) =>
      Fiber(true, 0, EXTERNAL, 0, Source(ToU8(from), 0, 0, Success, c, msg),
            false, 0, false, never, false, 0, [], false, AtUser, true, [], [], [])
  }

  function Spawn(m: Mod, e: Event): Mod
    requires !e.Reply?
  {
    var f := m.hist.nextFid;
    Resume(m.(order := [f] + m.order, hist := m.hist.(nextFid := f + 1, born := m.hist.born[f := e])),
           f, NewFiber(e))
  }

  predicate Eligible(m: Mod, f: nat) {
    m.locked.None? || m.locked == Some(f)
  }

  predicate Due(fb: Fiber, now: Timespec) {
    fb.waitingTimer && !Before(now, fb.deadline)
  }

  /** The scan for the nearest deadline among the fibers whose timers may fire. */
  function Nearest(m: Mod, order: seq<nat>, best: Option<Timespec>): Option<Timespec>
    requires forall f <- order :: f in m.fib
  {
    if order == [] then best
    else
      var fb := m.fib[order[0]];
      Nearest(m, order[1..],
              if fb.waitingTimer && Eligible(m, order[0]) && (best.None? || Before(fb.deadline, best.value))
              then Some(fb.deadline) else best)
  }

  /** After any wait: leave if asked to stop, otherwise take the whole inbox and start a pass. */
  function Proceed(m: Mod, now: Timespec): Mod {
    if m.stop then m.(pc := Stopped) else m.(q := TakeBatch(m.q), pc := Timers(now, m.order))
  }

  function DoEnter(m: Mod, now: Timespec): Mod
    requires forall f <- m.order :: f in m.fib
  {
    var m1 := if m.locked.None? && m.q.deferred != [] then m.(q := Splice(m.q)) else m;
    if m1.q.inbox == [] && !m.stop then m1.(pc := Sleeping(Nearest(m, m.order, None))) else Proceed(m1, now)
  }

  function DoTimerTurn(m: Mod): Mod
    requires m.pc.Timers? && forall f <- m.pc.todo :: f in m.fib
  {
    if m.pc.todo == [] then m.(pc := Events)
    else
      var f, fb := m.pc.todo[0], m.fib[m.pc.todo[0]];
      var m1 := m.(pc := m.pc.(todo := m.pc.todo[1..]));
      if Due(fb, m.pc.now) && Eligible(m, f) then
        Resume(m1.(pending := if fb.waitingReply then Take(m.pending, fb.waitId) else m.pending,
                   hist := if fb.waitingReply then NoteTimeout(m.hist, fb.waitId) else m.hist),
               f, if fb.waitingReply then fb.(src := TimeoutSource(fb)) else fb)
      else m1
  }

  function DoEventTurn(m: Mod): Mod
    requires forall p <- m.pending :: p.fid in m.fib
  {
    if m.q.batch == [] then m.(pc := Reaping)
    else
      var e := m.q.batch[0].ev;
      var used := m.(q := Consume(m.q));
      if m.locked.Some? && !e.Notify? then
        if e.Reply? && Peek(m.pending, e.id) == m.locked then HandleReply(used, e)
        else m.(q := Defer(m.q))
      else match e
        case Start(_, _, _, _) => if e.seqIdx >= m.cfg.nrSeq then used else Spawn(used, e)
        case Reply(_, _, _, _, _) => HandleReply(used, e)
        case Notify(_, _, _, _) => if m.cfg.hasNotify then Spawn(used, e) else used
  }

  function Alive(order: seq<nat>, fib: map<nat, Fiber>): seq<nat>
    requires forall f <- order :: f in fib
  {
    if order == [] then []
    else (if fib[order[0]].done then [] else [order[0]]) + Alive(order[1..], fib)
  }

  function Survivors(fib: map<nat, Fiber>): map<nat, Fiber> {
    map f <- fib | !fib[f].done :: fib[f]
  }

  /** `reap_done`: drop the finished fibers and a lock one of them still holds. */
  function DoReap(m: Mod): Mod
    requires forall f <- m.order :: f in m.fib
    requires m.locked.Some? ==> m.locked.value in m.fib
  {
    m.(order := Alive(m.order, m.fib), fib := Survivors(m.fib),
       locked := if m.locked.Some? && m.fib[m.locked.value].done then None else m.locked,
       pc := Top)
  }

  // ---------------------------------------------------------------- sequence API

  function Track(m: Mod, kind: Kind, a: Action): Mod
    requires a.Request? || a.RequestAsync? || a.Send?
    requires m.current.Some?
  {
    m.(next := m.next + 1,
       hist := m.hist.(issues := m.hist.issues[m.next :=
         Issue(kind, m.current.value, a.target, a.seqIdx, a.msg, Waiting)]))
  }

  function Complete(m: Mod, kind: Kind, src: Source): (r: Mod)
    requires m.current.Some?
    ensures r == m.(hist := m.hist.(completions := r.hist.completions, issues := r.hist.issues))
  {
    m.(hist := SetStage(m.hist.(completions := m.hist.completions + [Completion(m.current.value, kind, src)]),
                        src.id, Returned))
  }

  function Removed(clients: seq<Client>, category: nat, clientId: nat): seq<Client> {
    if clients == [] then []
    else if clients[0].category == category && clients[0].clientId == clientId then clients[1..]
    else [clients[0]] + Removed(clients[1..], category, clientId)
  }

  /** Control goes back to the scheduler. */
  function Yield(m: Mod, f: nat, fb: Fiber): Mod {
    Put(m, f, fb.(firstRun := false)).(current := None)
  }

  /** The fiber after it has returned with the reply it was woken with. */
  function WithCollected(fb: Fiber): Fiber {
    fb.(point := AtUser, outstanding := fb.outstanding - 1, collected := fb.collected + [SeenAs(fb.src)])
  }

  /** The fiber after it has returned with its oldest queued reply. */
  function WithPopped(fb: Fiber, src: Source): Fiber
    requires fb.rq != []
  {
    fb.(rq := fb.rq[1..], src := src, outstanding := fb.outstanding - 1, collected := fb.collected + [fb.rq[0]])
  }

  /** `coseq_wait_reply` up to its return or its yield. */
  function DoWaitReply(m: Mod): Mod
    requires m.current.Some? && m.current.value in m.fib
  {
    var f := m.current.value;
    var fb := m.fib[f];
    if fb.outstanding == 0 && fb.rq == [] then m
    else if fb.rq != [] then
      var src := Source(0, fb.seqIdx, fb.rq[0].id, fb.rq[0].result, 0, fb.rq[0].msg);
      Complete(Put(m, f, WithPopped(fb, src)), Async, src)
    else Yield(m, f, fb.(waitingAny := true, point := AtWait))
  }

  function DoContinue(m: Mod): Mod
    requires m.current.Some? && m.current.value in m.fib
  {
    var f := m.current.value;
    var fb := m.fib[f];
    match fb.point
    case AtRequest => Complete(Put(m, f, fb.(point := AtUser)), Blocking, fb.src)
    case AtWait => Complete(Put(m, f, WithCollected(fb)), Async, fb.src)
    case _ => Put(m, f, fb.(point := AtUser))
  }

  function DoAct(m: Mod, a: Action): Mod
    requires m.current.Some? && m.current.value in m.fib
  {
    var f := m.current.value;
    var fb := m.fib[f];
    match a
    case Continue => DoContinue(m)
    case Request(_, _, _, timeout, now) =>
      var parked := fb.(waitingReply := true, waitId := m.next, point := AtRequest);
      var armed := if timeout.Some? then parked.(waitingTimer := true, deadline := AddMs(now, timeout.value))
                   else parked;
      Yield(Track(m, Blocking, a).(pending := [Entry(m.next, f)] + m.pending), f, armed)
    case RequestAsync(_, _, _) =>
      Put(Track(m, Async, a).(pending := [Entry(m.next, f)] + m.pending), f,
          fb.(outstanding := fb.outstanding + 1))
    case Send(_, _, _) => Track(m, OneWay, a)
    case WaitReply => DoWaitReply(m)
    case Answer(result, msg) =>
      m.(hist := m.hist.(sent := m.hist.sent + {Sent(f, fb.replyTo, fb.replyId, result, msg)}))
    case Sleep(ms, now) =>
      Yield(m, f, fb.(waitingTimer := true, deadline := AddMs(now, ms), point := AtSleep))
    case Lock => m.(locked := Some(f))
    case Unlock => if m.locked == Some(f) then m.(locked := None) else m
    case Register(c, id) =>
      if fb.replyTo == EXTERNAL then m else m.(clients := [Client(c, fb.replyTo, id)] + m.clients)
    case Unregister(c, id) => m.(clients := Removed(m.clients, c, id))
    case Publish(_, _) => m
    case Return => Yield(m, f, fb.(done := true))
  }

  // ---------------------------------------------------------------- the machine

  /** References the steps follow are to live fibers. */
  ghost predicate Sound(m: Mod) {
    && (forall f :: f in m.order <==> f in m.fib)
    && (forall p <- m.pending :: p.fid in m.fib)
    && (m.locked.Some? ==> m.locked.value in m.fib)
    && (m.current.Some? ==> m.current.value in m.fib)
    && (m.pc.Timers? ==> forall f <- m.pc.todo :: f in m.fib)
  }

  /** Every id that is still live here was allocated less than one id space ago, with room for one
      more. */
  predicate Roomy(m: Mod) {
    && (forall p <- m.pending :: m.next < p.id + ID_SPACE)
    && (forall s <- Live(m.q) :: s.ev.Reply? ==> m.next < s.ev.id + ID_SPACE)
  }

  /** No finished fiber has a request in the table. */
  predicate NoneDangles(m: Mod) {
    forall p <- m.pending :: p.fid in m.fib ==> !m.fib[p.fid].done
  }

  /** A program may take any action, except that an id must not be allocated while one a whole id space
      older is live. */
  predicate MayAct(m: Mod, a: Action)
    requires m.current.Some? && m.current.value in m.fib
  {
    var fb := m.fib[m.current.value];
    && (a.Continue? <==> fb.point != AtUser)
    && (a.Request? || a.RequestAsync? || a.Send? ==> Roomy(m))
    && (a.Request? || a.Sleep? ==> Normal(a.now))
  }

  ghost predicate Enabled(m: Mod, l: Label) {
    match l
    case Arrive(e) => e.Reply? ==> InWindow(e.id, m.next)
    case AskStop => true
    case Enter(now) => m.pc.Top? && Normal(now)
    case Wake(now) => m.pc.Sleeping? && Normal(now)
    case TimerTurn => m.pc.Timers? && m.current.None?
    case EventTurn => m.pc.Events? && m.current.None?
    case Reap => m.pc.Reaping? && NoneDangles(m)
    case Act(a) => m.current.Some? && m.current.value in m.fib && MayAct(m, a)
  }

  ghost function Step(m: Mod, l: Label): Mod
    requires Sound(m) && Enabled(m, l)
  {
    match l
    case Arrive(e) => m.(q := Post(m.q, e))
    case AskStop => m.(stop := true)
    case Enter(now) => DoEnter(m, now)
    case Wake(now) => Proceed(m, now)
    case TimerTurn => DoTimerTurn(m)
    case EventTurn => DoEventTurn(m)
    case Reap => DoReap(m)
    case Act(a) => DoAct(m, a)
  }

  function Notices(clients: seq<Client>, category: nat, from: int, msg: Bytes): seq<Posting> {
    if clients == [] then []
    else (if clients[0].category == category
          then [Posting(clients[0].listener, Notify(category, clients[0].clientId, from, msg))] else [])
         + Notices(clients[1..], category, from, msg)
  }

  /** What a step posts to inboxes, its own included; a reply for a thread outside has no inbox for its target,
      and goes to the mailbox instead. */
  ghost function Posts(m: Mod, l: Label): seq<Posting>
    requires Enabled(m, l)
  {
    if !l.Act? then []
    else
      var fb := m.fib[m.current.value];
      match l.a
      case Request(t, s, msg, _, _) => [Posting(t, Start(s, m.next, m.cfg.idx, msg))]
      case RequestAsync(t, s, msg) => [Posting(t, Start(s, m.next, m.cfg.idx, msg))]
      case Send(t, s, msg) => [Posting(t, Start(s, m.next, m.cfg.idx, msg))]
      case Answer(r, msg) => [Posting(fb.replyTo, Reply(fb.replyId, m.cfg.idx, r, msg, m.current.value))]
      case Publish(c, msg) => Notices(m.clients, c, m.cfg.idx, msg)
      case _ => []
  }
}
