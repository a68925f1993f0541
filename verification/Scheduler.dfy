/** The scheduler and the sequence API as they are: a module object and fiber objects changed field by
    field. Every method is proved equal to the machine's step on what the objects hold. */
module Scheduler {
  import opened Base
  import opened Time
  import opened Pending
  import opened EventQueues
  import opened Machine
  import opened Registry

  function WithFlags(fb: Fiber, p: Point, reply: Option<nat>, until: Option<Timespec>): Fiber {
    fb.(point := p, firstRun := false, waitingAny := fb.waitingAny || p == AtWait,
        waitingReply := fb.waitingReply || reply.Some?, waitId := reply.GetOr(fb.waitId),
        waitingTimer := fb.waitingTimer || until.Some?, deadline := until.GetOr(fb.deadline))
  }

  /** One more asynchronous reply to come. */
  function OneMore(fb: Fiber): Fiber {
    fb.(outstanding := fb.outstanding + 1)
  }

  /** Its sequence function has returned. */
  function Finished(fb: Fiber): Fiber {
    fb.(done := true, firstRun := false)
  }

  /** A fiber whose timer fires: a timed request gets the timeout as its source. */
  function Timed(fb: Fiber): Fiber {
    if fb.waitingReply then fb.(src := TimeoutSource(fb)) else fb
  }

  class FiberObj {
    const id: nat
    const handler: bool
    const seqIdx: nat
    const replyTo: int
    const replyId: nat
    var src: Source
    var waitingReply: bool
    var waitId: nat
    var waitingTimer: bool
    var deadline: Timespec
    var waitingAny: bool
    var outstanding: int
    var rq: seq<Arrival>
    var done: bool
    var point: Point
    ghost var firstRun: bool
    ghost var arrived: seq<Arrival>
    ghost var slots: seq<nat>
    ghost var collected: seq<Arrival>

    ghost function View(): Fiber
      reads this
    {
      Machine.Fiber(handler, seqIdx, replyTo, replyId, src, waitingReply, waitId, waitingTimer, deadline,
                    waitingAny, outstanding, rq, done, point, firstRun, arrived, slots, collected)
    }

    /** A zeroed fiber with its role and its source set. */
    constructor (id: nat, e: Event)
      requires !e.Reply?
      ensures this.id == id && View() == NewFiber(e) == Cleared(NewFiber(e))
    {
      this.id := id;
      match e {
        case Start(s, rid, r, msg) =>
          handler, seqIdx, replyTo, replyId := false, s, r, rid;
          src := Source(ToU8(r), s, rid, Ignore, 0, msg);
        case Notify(_, c, from, msg) =>
          handler, seqIdx, replyTo, replyId := true, 0, EXTERNAL, 0;
          src := Source(ToU8(from), 0, 0, Success, c, msg);
      }
      waitingReply, waitId, waitingTimer, waitingAny := false, 0, false, false;
      deadline, outstanding, rq, done := Timespec(0, 0), 0, [], false;
      point, firstRun, arrived, slots, collected := AtUser, true, [], [], [];
    }

    /** A request whose timer fires is answered with the timeout. */
    method TimeOut()
      modifies this
      ensures View() == Timed(old(View()))
    {
      if waitingReply {
        src := Source(0, seqIdx, waitId, RequestTimeout, 0, []);
      }
    }

    /** What `handle_reply` does to the fiber the reply belongs to; `wakes` if it is to be resumed. */
    method Accept(e: Event, ghost m: Mod) returns (wakes: bool)
      requires e.Reply?
      modifies this
      ensures View() == Handed(m, old(View()), e)
      ensures wakes == (Completes(old(View()), e) || old(waitingAny))
    {
      if waitingReply && Wire(waitId) == Wire(e.id) {
        src := Source(ToU8(e.from), seqIdx, e.id, e.result, 0, e.msg);
        return true;
      }
      arrived, slots := arrived + [ArrivalOf(e)], slots + [|m.q.consumed|];
      if waitingAny {
        src := Source(ToU8(e.from), seqIdx, e.id, e.result, 0, e.msg);
        return true;
      }
      rq := rq + [ArrivalOf(e)];
      return false;
    }

    /** The flags a call sets before it gives control back. */
    method Park(p: Point, reply: Option<nat>, until: Option<Timespec>)
      modifies this
      ensures View() == WithFlags(old(View()), p, reply, until)
    {
      if reply.Some? {
        waitingReply, waitId := true, reply.value;
      }
      SetDeadline(until);
      if p == AtWait {
        waitingAny := true;
      }
      point, firstRun := p, false;
    }

    method SetDeadline(until: Option<Timespec>)
      modifies this`waitingTimer, this`deadline
      ensures waitingTimer == (old(waitingTimer) || until.Some?) && deadline == until.GetOr(old(deadline))
    {
      if until.Some? {
        waitingTimer, deadline := true, until.value;
      }
    }

    method Finish()
      modifies this
      ensures View() == Finished(old(View()))
    {
      done := true;
      firstRun := false;
    }

    method AddOutstanding()
      modifies this
      ensures View() == OneMore(old(View()))
    {
      outstanding := outstanding + 1;
    }

    /** The oldest queued reply becomes the source. */
    method Pop()
      requires rq != []
      modifies this
      ensures View() == WithPopped(old(View()), Source(0, seqIdx, old(rq)[0].id, old(rq)[0].result, 0, old(rq)[0].msg))
    {
      src := Source(0, seqIdx, rq[0].id, rq[0].result, 0, rq[0].msg);
      collected := collected + [rq[0]];
      rq := rq[1..];
      outstanding := outstanding - 1;
    }

    /** Back from the call in which the fiber yielded. */
    method Back()
      modifies this
      ensures View() == if old(point) == AtWait then WithCollected(old(View())) else old(View()).(point := AtUser)
    {
      if point == AtWait {
        outstanding := outstanding - 1;
        collected := collected + [SeenAs(src)];
      }
      point := AtUser;
    }

    method ClearWaits()
      modifies this
      ensures View() == Cleared(old(View()))
    {
      waitingTimer := false;
      waitingReply := false;
      waitingAny := false;
    }
  }

  lemma SurvivorsAre(fib: map<nat, Fiber>, gone: set<nat>)
    requires forall g :: g in gone <==> g in fib && fib[g].done
    ensures Survivors(fib) == fib - gone
  {}

  lemma HandleReplyIs(m: Mod, e: Event, f: nat)
    requires e.Reply? && Peek(m.pending, e.id) == Some(f) && forall p <- m.pending :: p.fid in m.fib
    ensures f in m.fib
    ensures var wakes := Completes(m.fib[f], e) || m.fib[f].waitingAny;
      var given := Handed(m, m.fib[f], e);
      var r := Machine.HandleReply(m, e);
      && r.pending == Take(m.pending, e.id) && r.fib == m.fib[f := if wakes then Cleared(given) else given]
      && r.current == (if wakes then Some(f) else m.current)
      && r.hist == SetStage(NoteReply(m.hist, e), e.id, if wakes then InHand else Queued)
      && r == m.(pending := r.pending, fib := r.fib, current := r.current, hist := r.hist)
  {
    PeekFindsEntry(m.pending, e.id);
  }

  lemma RequestIs(m: Mod, a: Action)
    requires m.current.Some? && m.current.value in m.fib && a.Request?
    ensures var f := m.current.value;
      var until := if a.timeout.Some? then Some(AddMs(a.now, a.timeout.value)) else None;
      DoAct(m, a) == Put(Track(m, Blocking, a).(pending := [Entry(m.next, f)] + m.pending), f,
                         WithFlags(m.fib[f], AtRequest, Some(m.next), until)).(current := None)
  {}

  lemma RequestAsyncIs(m: Mod, a: Action)
    requires m.current.Some? && m.current.value in m.fib && a.RequestAsync?
    ensures var f := m.current.value;
      DoAct(m, a) == Put(Track(m, Async, a).(pending := [Entry(m.next, f)] + m.pending), f,
                         OneMore(m.fib[f]))
  {}

  lemma NobodysReply(m: Mod, e: Event)
    requires e.Reply? && Peek(m.pending, e.id) == None && forall p <- m.pending :: p.fid in m.fib
    ensures Machine.HandleReply(m, e) == m.(hist := NoteReply(m.hist, e))
  {}

  lemma NoneAlive(fib: map<nat, Fiber>)
    ensures Alive([], fib) == []
  {}

  lemma {:induction false} AliveSnoc(order: seq<nat>, f: nat, fib: map<nat, Fiber>)
    requires (forall g <- order :: g in fib) && f in fib
    ensures Alive(order + [f], fib) == Alive(order, fib) + (if fib[f].done then [] else [f])
  {
    if order == [] {
      assert [] + [f] == [f] && [f][1..] == [];
    } else {
      var rest := order[1..];
      AliveSnoc(rest, f, fib);
      assert (order + [f])[0] == order[0] && (order + [f])[1..] == rest + [f];
      assert forall a: seq<nat>, b: seq<nat>, c: seq<nat> :: (a + b) + c == a + (b + c);
    }
  }

  /** A module; `fibers` lists the live fibers from the head of the list, by the key under which `table`
      holds their objects. `fib` is what those objects hold. */
  class ModuleObj {
    const cfg: Config
    var inbox: seq<Stamped>
    var evs: seq<Stamped>
    var deferred: seq<Stamped>
    var stop: bool
    var fibers: seq<nat>
    var table: map<nat, FiberObj>
    var pending: seq<Entry>
    var next: nat
    var lockedBy: Option<nat>
    var current: Option<nat>
    var clients: seq<Client>
    var posted: nat
    var nextFid: nat
    ghost var consumed: seq<Stamped>
    ghost var held: set<nat>
    ghost var fib: map<nat, Fiber>
    ghost var pc: Pc
    ghost var hist: History

    /** The object of fiber `k`, and what it holds. */
    ghost predicate Linked(k: nat)
      requires k in table
      reads this`table, this`fib, table[k]
    {
      table[k].id == k && k in fib && fib[k] == table[k].View()
    }

    ghost predicate Valid()
      reads this, table.Values
    {
      && nextFid == hist.nextFid && fib.Keys == table.Keys
      && forall k {:trigger Linked(k)} | k in table :: Linked(k)
    }

    lemma ObjectHeld(k: nat)
      requires Valid() && k in table
      ensures k in fib && fib[k] == table[k].View() && fib[k].done == table[k].done
      ensures fib[k].waitingReply == table[k].waitingReply && fib[k].waitId == table[k].waitId
    {
      assert Linked(k);
    }

    ghost predicate Listed(k: nat)
      reads this`fibers
    {
      k in fibers
    }

    /** The list has each live fiber once. */
    ghost predicate ListValid()
      reads this`fibers, this`table
    {
      && (forall k {:trigger Listed(k)} | k in table :: Listed(k))
      && (forall i :: 0 <= i < |fibers| ==> fibers[i] in table)
      && forall i, j :: 0 <= i < j < |fibers| ==> fibers[i] != fibers[j]
    }

    ghost function View(): Mod
      reads this
    {
      Mod(cfg, Queues(inbox, evs, deferred, posted, consumed, held), stop, fibers, fib, pending, next, lockedBy,
          clients, pc, current, hist)
    }

    constructor (cfg: Config)
      ensures Valid() && View() == Initial(cfg) && table == map[]
    {
      this.cfg := cfg;
      inbox, evs, deferred, stop := [], [], [], false;
      fibers, table, pending, next, lockedBy, current, clients := [], map[], [], 1, None, None, [];
      posted, consumed, held, fib, pc, nextFid := 0, [], {}, map[], Top, 0;
      hist := History(0, map[], map[], map[], [], {}, {});
    }

    // -------------------------------------------------------------- event lists

    method Post(e: Event)
      modifies this`inbox, this`posted
      ensures View() == old(View()).(q := EventQueues.Post(old(View()).q, e))
    {
      inbox := inbox + [Stamped(posted, e)];
      posted := posted + 1;
    }

    method DeferEv()
      requires Valid() && evs != []
      modifies this`evs, this`deferred, this`held
      ensures Valid() && View() == old(View()).(q := EventQueues.Defer(old(View()).q))
    {
      deferred := deferred + [evs[0]];
      held := held + {evs[0].at};
      evs := evs[1..];
    }

    method FreeEv()
      requires Valid() && evs != []
      modifies this`evs, this`consumed
      ensures Valid() && View() == old(View()).(q := EventQueues.Consume(old(View()).q))
    {
      consumed := consumed + [evs[0]];
      evs := evs[1..];
    }

    // -------------------------------------------------------------- pending table

    method PendingPeek(id: nat) returns (f: Option<nat>)
      ensures f == Peek(pending, id)
    {
      var k := 0;
      while k < |pending| && Wire(pending[k].id) != Wire(id)
        invariant k <= |pending| && forall i :: 0 <= i < k ==> Wire(pending[i].id) != Wire(id)
      {
        k := k + 1;
      }
      FirstMatch(pending, k, id);
      return if k < |pending| then Some(pending[k].fid) else None;
    }

    method PendingTake(id: nat)
      modifies this`pending
      ensures pending == Take(old(pending), id)
    {
      var k := 0;
      while k < |pending| && Wire(pending[k].id) != Wire(id)
        invariant k <= |pending| && forall i :: 0 <= i < k ==> Wire(pending[i].id) != Wire(id)
      {
        k := k + 1;
      }
      FirstMatch(pending, k, id);
      if k < |pending| {
        pending := pending[..k] + pending[k + 1..];
      }
    }

    // -------------------------------------------------------------- fibers

    /** Up to the switch of context. */
    method Resume(f: nat)
      requires f in table
      modifies this`current, table[f]
      ensures current == Some(f) && table[f].View() == Cleared(old(table[f].View()))
    {
      table[f].ClearWaits();
      current := Some(f);
    }

    /** The reply is given to its fiber, which is resumed if it waited for it. */
    method Hand(f: nat, e: Event) returns (wakes: bool)
      requires Valid() && f in table && e.Reply?
      modifies this`current, this`fib, table[f]
      ensures var m, fb := old(View()), old(fib)[f];
        && wakes == (Completes(fb, e) || fb.waitingAny)
        && current == (if wakes then Some(f) else old(current))
        && fib == old(fib)[f := if wakes then Cleared(Handed(m, fb, e)) else Handed(m, fb, e)]
      ensures Valid()
    {
      assert Linked(f);
      wakes := table[f].Accept(e, View());
      if wakes {
        Resume(f);
      }
      fib := fib[f := table[f].View()];
      forall k | k in table ensures Linked(k) {
        assert old(Linked(k));
      }
    }

    method HandleReply(e: Event)
      requires Valid() && e.Reply? && forall p <- pending :: p.fid in table
      modifies this`pending, this`current, this`hist, this`fib, table.Values
      ensures Valid() && View() == Machine.HandleReply(old(View()), e)
    {
      hide Machine.HandleReply, Handed, Completes, Cleared, Peek, Take, SetStage;
      var f := PendingPeek(e.id);
      if f.Some? {
        ghost var m := View();
        HandleReplyIs(m, e, f.value);
        TakeAndHand(f.value, e);
        assert View() == Machine.HandleReply(m, e);
      } else {
        ghost var m := View();
        NobodysReply(m, e);
        hist := NoteReply(hist, e);
        assert View() == m.(hist := NoteReply(m.hist, e));
      }
    }

    method TakeAndHand(f: nat, e: Event)
      requires Valid() && f in table && e.Reply?
      modifies this`pending, this`current, this`hist, this`fib, table[f]
      ensures Valid()
      ensures var m, fb := old(View()), old(fib)[f];
        var wakes := Completes(fb, e) || fb.waitingAny;
        && pending == Take(m.pending, e.id)
        && fib == m.fib[f := if wakes then Cleared(Handed(m, fb, e)) else Handed(m, fb, e)]
        && current == (if wakes then Some(f) else m.current)
        && hist == SetStage(NoteReply(m.hist, e), e.id, if wakes then InHand else Queued)
    {
      var wakes := Hand(f, e);
      PendingTake(e.id);
      hist := SetStage(NoteReply(hist, e), e.id, if wakes then InHand else Queued);
    }

    /** The new fiber goes to the head of the list and gets control. */
    method LinkFiber(obj: FiberObj, e: Event)
      requires Valid() && obj.id == nextFid && nextFid !in table
      modifies this`fibers, this`table, this`current, this`nextFid, this`fib, this`hist
      ensures Valid() && table == old(table)[old(nextFid) := obj] && fibers == [old(nextFid)] + old(fibers)
      ensures fib == old(fib)[old(nextFid) := obj.View()] && current == Some(old(nextFid))
      ensures hist == old(hist).(nextFid := old(nextFid) + 1, born := old(hist).born[old(nextFid) := e])
    {
      table := table[nextFid := obj];
      fib := fib[nextFid := obj.View()];
      fibers := [nextFid] + fibers;
      current := Some(nextFid);
      hist := hist.(nextFid := nextFid + 1, born := hist.born[nextFid := e]);
      nextFid := nextFid + 1;
      forall k | k in table ensures Linked(k) {
        assert k in old(table) ==> old(Linked(k));
      }
    }

    /** `new_fiber` and the resume that follows it, which finds no flag to clear. */
    method SpawnFiber(e: Event)
      requires Valid() && !e.Reply? && nextFid !in table
      modifies this`fibers, this`table, this`current, this`hist, this`nextFid, this`fib
      ensures Valid() && View() == Spawn(old(View()), e)
      ensures forall k <- old(table) :: k in table && table[k] == old(table)[k]
      ensures forall k <- table :: k in old(table) || fresh(table[k])
    {
      var obj := new FiberObj(nextFid, e);
      LinkFiber(obj, e);
    }

    // -------------------------------------------------------------- the pass

    method NearestDeadline() returns (nearest: Option<Timespec>)
      requires Valid() && forall f <- fibers :: f in table
      ensures nearest == Nearest(View(), fibers, None)
    {
      nearest := None;
      var k := 0;
      while k < |fibers|
        invariant k <= |fibers| && Nearest(View(), fibers, None) == Nearest(View(), fibers[k..], nearest)
      {
        assert fibers[k..][0] == fibers[k] && fibers[k..][1..] == fibers[k + 1..];
        var f := table[fibers[k]];
        assert Linked(fibers[k]);
        if f.waitingTimer && !(lockedBy.Some? && lockedBy != Some(fibers[k]))
           && (nearest.None? || Before(f.deadline, nearest.value)) {
          nearest := Some(f.deadline);
        }
        k := k + 1;
      }
      assert fibers[k..] == [];
    }

    /** The mutex section at the top of the loop, up to the wait if there is one; `go` if it ends with a
        batch taken. */
    method EnterPass(now: Timespec) returns (go: bool)
      requires Valid() && forall f <- fibers :: f in table
      modifies this`inbox, this`deferred, this`evs, this`pc
      ensures Valid() && View() == DoEnter(old(View()), now)
      ensures go == pc.Timers? && (go ==> pc == Timers(now, fibers))
    {
      var nearest := NearestDeadline();
      if lockedBy.None? && deferred != [] {
        inbox := deferred + inbox;
        deferred := [];
      }
      if inbox == [] && !stop {
        pc := Sleeping(nearest);
        go := false;
      } else {
        go := AfterWait(now);
      }
    }

    /** The rest of that section: leave if asked to stop, or take the whole inbox. */
    method AfterWait(now: Timespec) returns (go: bool)
      requires Valid()
      modifies this`inbox, this`evs, this`pc
      ensures Valid() && View() == Proceed(old(View()), now)
      ensures go == pc.Timers? && (go ==> pc == Timers(now, fibers))
    {
      if stop {
        pc := Stopped;
        return false;
      }
      evs := inbox;
      inbox := [];
      pc := Timers(now, fibers);
      return true;
    }

    /** The body of the timer loop for the next fiber. */
    method TimerTurn(f: nat, now: Timespec)
      requires Valid() && f in table && pc.Timers? && pc.todo != [] && pc.todo[0] == f && pc.now == now
      requires forall g <- pc.todo :: g in table
      modifies this`pending, this`current, this`hist, this`pc, this`fib, table[f]
      ensures Valid()
      ensures var r := DoTimerTurn(old(View()));
        pending == r.pending && current == r.current && hist == r.hist && pc == r.pc && fib == r.fib
    {
      assert Linked(f);
      pc := Timers(now, pc.todo[1..]);
      var obj := table[f];
      if obj.waitingTimer && !Before(now, obj.deadline) && (lockedBy.None? || lockedBy == Some(f)) {
        Fire(f);
      }
    }

    method Fire(f: nat)
      requires Valid() && f in table
      modifies this`pending, this`current, this`hist, this`fib, table[f]
      ensures Valid() && current == Some(f)
      ensures var fb := old(fib)[f];
        && fib == old(fib)[f := Cleared(Timed(fb))]
        && pending == (if fb.waitingReply then Take(old(pending), fb.waitId) else old(pending))
        && hist == (if fb.waitingReply then NoteTimeout(old(hist), fb.waitId) else old(hist))
    {
      hide FiberObj.View, Cleared, Timed;
      ObjectHeld(f);
      assert Linked(f);
      var obj := table[f];
      if obj.waitingReply {
        PendingTake(obj.waitId);
        hist := NoteTimeout(hist, obj.waitId);
      }
      obj.TimeOut();
      Resume(f);
      fib := fib[f := obj.View()];
      forall k | k in table ensures Linked(k) {
        assert old(Linked(k));
      }
    }

    /** The body of the event loop for the next event, up to the resume if there is one. */
    method EventTurn()
      requires Valid() && evs != [] && nextFid !in table && forall p <- pending :: p.fid in table
      modifies this, table.Values
      ensures Valid() && View() == DoEventTurn(old(View()))
      ensures forall k <- old(table) :: k in table && table[k] == old(table)[k]
      ensures forall k <- table :: k in old(table) || fresh(table[k])
    {
      hide Machine.HandleReply, Spawn, Peek, EventQueues.Consume, EventQueues.Defer;
      var e := evs[0].ev;
      var owner := None;
      if lockedBy.Some? && !e.Notify? {
        if e.Reply? {
          owner := PendingPeek(e.id);
        }
        if e.Reply? && owner == lockedBy {
          FreeEv();
          HandleReply(e);
        } else {
          DeferEv();
        }
      } else {
        Dispatch(e);
      }
    }

    /** An event that no lock holds up. */
    method Dispatch(e: Event)
      requires Valid() && evs != [] && nextFid !in table && forall p <- pending :: p.fid in table
      requires e == evs[0].ev && (lockedBy.None? || e.Notify?)
      modifies this, table.Values
      ensures Valid() && View() == DoEventTurn(old(View()))
      ensures forall k <- old(table) :: k in table && table[k] == old(table)[k]
      ensures forall k <- table :: k in old(table) || fresh(table[k])
    {
      hide Machine.HandleReply, Spawn, Peek, EventQueues.Consume, EventQueues.Defer;
      FreeEv();
      match e {
        case Start(_, _, _, _) =>
          if e.seqIdx < cfg.nrSeq {
            SpawnFiber(e);
          }
        case Reply(_, _, _, _, _) =>
          HandleReply(e);
        case Notify(_, _, _, _) =>
          if cfg.hasNotify {
            SpawnFiber(e);
          }
      }
    }

    /** The part of `reap_done` that frees one fiber. */
    method FreeFiber(f: nat)
      requires Valid() && f in table
      modifies this`table, this`lockedBy, this`fib
      ensures Valid() && table == old(table) - {f} && fib == old(fib) - {f}
      ensures lockedBy == if old(lockedBy) == Some(f) then None else old(lockedBy)
    {
      if lockedBy == Some(f) {
        lockedBy := None;
      }
      table := table - {f};
      fib := fib - {f};
      forall k | k in table ensures Linked(k) {
        assert old(Linked(k));
      }
    }

    /** `reap_done`. */
    method ReapDone()
      requires Valid() && ListValid() && (lockedBy.Some? ==> lockedBy.value in table)
      modifies this`fibers, this`table, this`lockedBy, this`fib, this`pc
      ensures var r := DoReap(old(View()));
        fibers == r.order && fib == r.fib && lockedBy == r.locked && pc == r.pc
      ensures Valid() && forall k <- table :: k in old(table) && table[k] == old(table)[k]
    {
      fibers := Sweep();
      pc := Top;
    }

    /** Its loop: every finished fiber is freed, the others are kept in their order. */
    method Sweep() returns (kept: seq<nat>)
      requires Valid() && ListValid() && (lockedBy.Some? ==> lockedBy.value in table)
      modifies this`table, this`lockedBy, this`fib
      ensures Valid() && kept == Alive(fibers, old(fib))
      ensures fib == Survivors(old(fib))
      ensures forall k <- table :: k in old(table) && table[k] == old(table)[k]
      ensures lockedBy == if old(lockedBy).Some? && old(fib)[old(lockedBy).value].done then None else old(lockedBy)
    {
      hide FiberObj.View, Linked, Alive, Survivors;
      ghost var gone := {};
      var k := 0;
      kept := [];
      NoneAlive(fib);
      while k < |fibers|
        invariant k <= |fibers| && Valid()
        invariant kept == Alive(fibers[..k], old(fib))
        invariant table == old(table) - gone && fib == old(fib) - gone
        invariant forall g :: g in gone <==> g in old(fib) && old(fib)[g].done && g in fibers[..k]
        invariant lockedBy == if old(lockedBy).Some? && old(lockedBy).value in fibers[..k]
                                 && old(fib)[old(lockedBy).value].done then None else old(lockedBy)
      {
        var f := fibers[k];
        assert fibers[..k + 1] == fibers[..k] + [f];
        AliveSnoc(fibers[..k], f, old(fib));
        ObjectHeld(f);
        if table[f].done {
          FreeFiber(f);
          gone := gone + {f};
        } else {
          kept := kept + [f];
        }
        k := k + 1;
      }
      assert fibers[..k] == fibers;
      forall g | g in old(fib) ensures g in fibers {
        assert Listed(g);
      }
      SurvivorsAre(old(fib), gone);
    }

    // -------------------------------------------------------------- sequence API

    /** `next_req_id++` and the record of what the id is for. */
    method NewId(kind: Kind, a: Action) returns (rid: nat)
      requires Valid() && current.Some? && (a.Request? || a.RequestAsync? || a.Send?)
      modifies this`next, this`hist
      ensures Valid() && rid == old(next) && View() == Track(old(View()), kind, a)
    {
      rid := next;
      next := next + 1;
      hist := hist.(issues := hist.issues[rid := Issue(kind, current.value, a.target, a.seqIdx, a.msg, Waiting)]);
    }

    method PendingAdd(rid: nat, f: nat)
      requires Valid()
      modifies this`pending
      ensures Valid() && View() == old(View()).(pending := [Entry(rid, f)] + old(pending))
    {
      pending := [Entry(rid, f)] + pending;
    }

    /** The running fiber sets its flags and gives control back. */
    method YieldAt(p: Point, reply: Option<nat>, until: Option<Timespec>)
      requires Valid() && current.Some? && current.value in table
      modifies this`current, this`fib, table[current.value]
      ensures Valid() && old(current).value in old(fib)
      ensures var f := old(current).value;
        View() == Put(old(View()), f, WithFlags(old(fib)[f], p, reply, until)).(current := None)
    {
      hide FiberObj.View, WithFlags;
      var f := current.value;
      assert Linked(f);
      table[f].Park(p, reply, until);
      current := None;
      fib := fib[f := table[f].View()];
      forall k | k in table ensures Linked(k) {
        assert old(Linked(k));
      }
    }

    /** `request_common`, up to the switch back to the scheduler, with what it posts. */
    method RequestCommon(a: Action) returns (out: Posting)
      requires Valid() && current.Some? && current.value in table && a.Request?
      modifies this`pending, this`next, this`current, this`fib, this`hist, table[current.value]
      ensures Valid() && out == Posting(a.target, Start(a.seqIdx, old(next), cfg.idx, a.msg))
      ensures View() == DoAct(old(View()), a)
    {
      hide DoAct, WithFlags, AddMs, Valid, Linked;
      ObjectHeld(current.value);
      RequestIs(View(), a);
      var f := current.value;
      var rid := NewId(Blocking, a);
      PendingAdd(rid, f);
      out := Posting(a.target, Start(a.seqIdx, rid, cfg.idx, a.msg));
      YieldAt(AtRequest, Some(rid), if a.timeout.Some? then Some(AddMs(a.now, a.timeout.value)) else None);
    }

    /** `coseq_request` and `coseq_request_timeout`. */
    method Request(a: Action) returns (out: Posting)
      requires Valid() && current.Some? && current.value in table && a.Request?
      modifies this`pending, this`next, this`current, this`fib, this`hist, table[current.value]
      ensures Valid() && View() == DoAct(old(View()), a)
      ensures out == Posting(a.target, Start(a.seqIdx, old(next), cfg.idx, a.msg))
    {
      hide DoAct;
      out := RequestCommon(a);
    }

    /** `coseq_request_async`. */
    method RequestAsync(a: Action) returns (rid: nat, out: Posting)
      requires Valid() && current.Some? && current.value in table && a.RequestAsync?
      modifies this`pending, this`next, this`fib, this`hist, table[current.value]
      ensures Valid() && rid == old(next) && out == Posting(a.target, Start(a.seqIdx, rid, cfg.idx, a.msg))
      ensures View() == DoAct(old(View()), a)
    {
      hide DoAct, Valid, Linked;
      ObjectHeld(current.value);
      RequestAsyncIs(View(), a);
      rid := NewId(Async, a);
      PendingAdd(rid, current.value);
      CountOutstanding();
      out := Posting(a.target, Start(a.seqIdx, rid, cfg.idx, a.msg));
    }

    method CountOutstanding()
      requires Valid() && current.Some? && current.value in table
      modifies this`fib, table[current.value]
      ensures Valid() && current.value in old(fib)
      ensures View() == Put(old(View()), current.value, OneMore(old(fib)[current.value]))
    {
      hide FiberObj.View, OneMore;
      var f := current.value;
      assert Linked(f);
      table[f].AddOutstanding();
      fib := fib[f := table[f].View()];
      forall k | k in table ensures Linked(k) {
        assert old(Linked(k));
      }
    }

    /** `coseq_send`. */
    method Send(a: Action) returns (out: Posting)
      requires Valid() && current.Some? && current.value in fib && a.Send?
      modifies this`next, this`hist
      ensures Valid() && out == Posting(a.target, Start(a.seqIdx, old(next), cfg.idx, a.msg))
      ensures View() == DoAct(old(View()), a)
    {
      var rid := NewId(OneWay, a);
      return Posting(a.target, Start(a.seqIdx, rid, cfg.idx, a.msg));
    }

    /** `coseq_wait_timeout`, up to the switch back to the scheduler. */
    method WaitTimeout(ms: nat, now: Timespec)
      requires Valid() && current.Some? && current.value in table
      modifies this`current, this`fib, table[current.value]
      ensures Valid() && View() == DoAct(old(View()), Sleep(ms, now))
    {
      YieldAt(AtSleep, None, Some(AddMs(now, ms)));
    }

    method LockModule()
      requires current.Some? && current.value in fib
      modifies this`lockedBy
      ensures View() == DoAct(old(View()), Lock)
    {
      lockedBy := current;
    }

    method UnlockModule()
      requires current.Some? && current.value in fib
      modifies this`lockedBy
      ensures View() == DoAct(old(View()), Unlock)
    {
      if lockedBy == current {
        lockedBy := None;
      }
    }

    /** Back from the call in which the running fiber yielded. */
    method BackFromCall()
      requires Valid() && current.Some? && current.value in table && table[current.value].point != AtUser
      modifies this`fib, this`hist, table[current.value]
      ensures Valid() && View() == DoAct(old(View()), Continue)
    {
      var obj := table[current.value];
      assert Linked(current.value);
      if obj.point == AtRequest {
        Completed(Blocking, obj.src);
      } else if obj.point == AtWait {
        Completed(Async, obj.src);
      }
      LeaveCall();
    }

    method LeaveCall()
      requires Valid() && current.Some? && current.value in table
      modifies this`fib, table[current.value]
      ensures Valid()
      ensures var f := current.value;
        var fb := old(fib)[f];
        fib == old(fib)[f := if fb.point == AtWait then WithCollected(fb) else fb.(point := AtUser)]
    {
      var f := current.value;
      hide WithCollected;
      assert Linked(f);
      table[f].Back();
      fib := fib[f := table[f].View()];
      forall k | k in table ensures Linked(k) {
        assert old(Linked(k));
      }
    }

    ghost method Completed(kind: Kind, src: Source)
      requires current.Some?
      modifies this`hist
      ensures hist == Complete(old(View()), kind, src).hist
    {
      hist := SetStage(hist.(completions := hist.completions + [Completion(current.value, kind, src)]),
                       src.id, Returned);
    }

    /** `coseq_wait_reply` up to its return or its yield; `got` if it returns a reply now. */
    method WaitReply() returns (got: bool)
      requires Valid() && current.Some? && current.value in table
      modifies this`current, this`fib, this`hist, table[current.value]
      ensures Valid() && View() == DoAct(old(View()), Machine.WaitReply)
      ensures got == (old(fib)[old(current).value].rq != [])
    {
      var obj := table[current.value];
      assert Linked(current.value);
      if obj.outstanding == 0 && obj.rq == [] {
        return false;
      }
      if obj.rq != [] {
        TakeQueued();
        return true;
      }
      YieldAt(AtWait, None, None);
      return false;
    }

    method TakeQueued()
      requires Valid() && current.Some? && current.value in table && table[current.value].rq != []
      modifies this`fib, this`hist, table[current.value]
      ensures Valid()
      ensures var f := current.value;
        var fb := old(fib)[f];
        && fb.rq != []
        && var src := Source(0, fb.seqIdx, fb.rq[0].id, fb.rq[0].result, 0, fb.rq[0].msg);
        && fib == old(fib)[f := WithPopped(fb, src)]
        && hist == Complete(old(View()), Async, src).hist
    {
      var f := current.value;
      assert Linked(f);
      table[f].Pop();
      Completed(Async, table[f].src);
      fib := fib[f := table[f].View()];
      forall k | k in table ensures Linked(k) {
        assert old(Linked(k));
      }
    }

    /** `coseq_reply`: it goes to the module that asked or, for a thread outside, to the mailbox. */
    method Reply(result: ResultCode, msg: Bytes) returns (out: seq<Posting>, outside: Option<Arrival>)
      requires Valid() && current.Some? && current.value in table
      modifies this`hist
      ensures Valid() && View() == DoAct(old(View()), Answer(result, msg))
      ensures var fb := fib[current.value];
        if fb.replyTo == EXTERNAL then out == [] && outside == Some(Arrival(fb.replyId, result, msg))
        else outside == None
             && out == [Posting(fb.replyTo, Event.Reply(fb.replyId, cfg.idx, result, msg, current.value))]
    {
      var obj := table[current.value];
      assert Linked(current.value);
      hist := hist.(sent := hist.sent + {Sent(current.value, obj.replyTo, obj.replyId, result, msg)});
      if obj.replyTo == EXTERNAL {
        return [], Some(Arrival(obj.replyId, result, msg));
      }
      return [Posting(obj.replyTo, Event.Reply(obj.replyId, cfg.idx, result, msg, current.value))], None;
    }

    /** The sequence function returns. */
    method Return()
      requires Valid() && current.Some? && current.value in table
      modifies this`current, this`fib, table[current.value]
      ensures Valid() && View() == DoAct(old(View()), Action.Return)
    {
      hide FiberObj.View;
      FinishFiber();
    }

    method FinishFiber()
      requires Valid() && current.Some? && current.value in table
      modifies this`current, this`fib, table[current.value]
      ensures Valid() && old(current).value in old(fib)
      ensures var f := old(current).value;
        View() == Put(old(View()), f, Finished(old(fib)[f])).(current := None)
    {
      hide FiberObj.View, Finished;
      var f := current.value;
      assert Linked(f);
      table[f].Finish();
      current := None;
      fib := fib[f := table[f].View()];
      forall k | k in table ensures Linked(k) {
        assert old(Linked(k));
      }
    }

    // -------------------------------------------------------------- notify

    method RegNotify(category: nat, clientId: nat) returns (ok: bool)
      requires Valid() && current.Some? && current.value in table
      modifies this`clients
      ensures View() == DoAct(old(View()), Register(category, clientId))
      ensures ok == (fib[current.value].replyTo != EXTERNAL)
    {
      var obj := table[current.value];
      assert Linked(current.value);
      if obj.replyTo == EXTERNAL {
        return false;
      }
      clients := [Client(category, obj.replyTo, clientId)] + clients;
      return true;
    }

    method UnregNotify(category: nat, clientId: nat) returns (found: bool)
      requires current.Some? && current.value in fib
      modifies this`clients
      ensures View() == DoAct(old(View()), Unregister(category, clientId))
      ensures found == exists c <- old(clients) :: Matches(c, category, clientId)
    {
      var k := 0;
      while k < |clients| && !Matches(clients[k], category, clientId)
        invariant k <= |clients| && forall i :: 0 <= i < k ==> !Matches(clients[i], category, clientId)
      {
        k := k + 1;
      }
      RemovedFirst(clients, k, category, clientId);
      found := k < |clients|;
      if found {
        assert clients[k] in clients;
        clients := clients[..k] + clients[k + 1..];
      }
    }

    method Notify(category: nat, msg: Bytes) returns (any: bool, out: seq<Posting>)
      ensures out == Notices(clients, category, cfg.idx, msg)
      ensures any == (out != [])
    {
      any, out := false, [];
      var k := 0;
      while k < |clients|
        invariant k <= |clients| && any == (out != [])
        invariant Notices(clients, category, cfg.idx, msg) == out + Notices(clients[k..], category, cfg.idx, msg)
      {
        assert clients[k..][0] == clients[k] && clients[k..][1..] == clients[k + 1..];
        if clients[k].category == category {
          out := out + [Posting(clients[k].listener, Event.Notify(category, clients[k].clientId, cfg.idx, msg))];
          any := true;
        }
        k := k + 1;
      }
      assert clients[k..] == [];
    }
  }
}
