/** What becomes of every issued id, and what the waiting calls return. */
module Outcomes {
  import opened Base
  import opened Time
  import opened Pending
  import opened EventQueues
  import opened Machine
  import opened Frames
  import opened Invariant

  /** `src` is the outcome of id `src.id`: the timeout if it timed out, which only a blocking request can,
      and otherwise the first reply to that id that the scheduler handled. */
  predicate Outcome(kind: Kind, src: Source, h: History) {
    if src.id in h.timedOut then kind == Blocking && src.result == RequestTimeout && src.msg == []
    else src.id in h.first && h.first[src.id].Reply? && SeenAs(src) == ArrivalOf(h.first[src.id])
  }

  predicate IssuedAs(h: History, id: nat, f: nat, kind: Kind, stage: Stage) {
    id in h.issues && h.issues[id].fid == f && h.issues[id].kind == kind && h.issues[id].stage == stage
  }

  predicate FirstSeen(h: History, a: Arrival) {
    a.id in h.first && h.first[a.id].Reply? && ArrivalOf(h.first[a.id]) == a && a.id !in h.timedOut
  }

  ghost predicate Distinct(s: seq<Arrival>) {
    forall i, j :: 0 <= i < j < |s| ==> s[i].id != s[j].id
  }

  /** The reply a resumed collector holds but has not returned with. */
  function Held(fb: Fiber, running: bool): seq<Arrival> {
    if running && fb.point == AtWait then [SeenAs(fb.src)] else []
  }

  /** Queued and collected replies are first replies to the fiber's own ids, in the order in which the
      scheduler handled them; a fiber resumed in a call holds the outcome of the id it waited for. */
  ghost predicate FiberHistory(f: nat, fb: Fiber, running: bool, h: History) {
    && Distinct(fb.rq) && (forall a <- fb.rq :: IssuedAs(h, a.id, f, Async, Queued) && FirstSeen(h, a))
    && Distinct(fb.collected)
    && (forall a <- fb.collected :: IssuedAs(h, a.id, f, Async, Returned) && FirstSeen(h, a))
    && fb.arrived == fb.collected + Held(fb, running) + fb.rq
    && (running && fb.point == AtRequest ==>
          fb.src.id == fb.waitId && IssuedAs(h, fb.waitId, f, Blocking, InHand) && Outcome(Blocking, fb.src, h))
    && (running && fb.point == AtWait ==>
          IssuedAs(h, fb.src.id, f, Async, InHand) && FirstSeen(h, SeenAs(fb.src)))
  }

  /** Entries of the table are open, unanswered issues, blocking exactly if their fiber is blocked on them. */
  ghost predicate TableHistory(h: History, pending: seq<Entry>, fib: map<nat, Fiber>) {
    forall e <- pending ::
      && e.fid in fib
      && IssuedAs(h, e.id, e.fid,
                  if fib[e.fid].waitingReply && fib[e.fid].waitId == e.id then Blocking else Async, Waiting)
      && e.id !in h.first && e.id !in h.timedOut
  }

  ghost predicate IdsBelow(h: History, next: nat) {
    && (forall id <- h.issues :: id < next)
    && (forall id <- h.first :: id < next && h.first[id].Reply?)
    && (forall id <- h.timedOut :: id < next)
  }

  ghost predicate CompletionsOk(h: History) {
    && (forall i, j :: 0 <= i < j < |h.completions| ==> h.completions[i].src.id != h.completions[j].src.id)
    && (forall c <- h.completions ::
          c.kind != OneWay && IssuedAs(h, c.src.id, c.fid, c.kind, Returned) && Outcome(c.kind, c.src, h))
  }

  ghost predicate FibersHistory(fib: map<nat, Fiber>, current: Option<nat>, h: History) {
    forall f <- fib :: FiberHistory(f, fib[f], current == Some(f), h)
  }

  ghost predicate HistoryInv(m: Mod) {
    && TableHistory(m.hist, m.pending, m.fib)
    && IdsBelow(m.hist, m.next)
    && CompletionsOk(m.hist)
    && FibersHistory(m.fib, m.current, m.hist)
  }

  // ---------------------------------------------------------------- frames

  /** The histories differ at most in what they say of `id`. */
  ghost predicate AgreeExcept(h: History, h': History, id: nat) {
    && h'.issues.Keys == h.issues.Keys && h'.completions == h.completions
    && (forall k <- h.issues :: k != id ==> h'.issues[k] == h.issues[k])
    && (forall k :: k != id ==> (k in h'.first <==> k in h.first) && (k in h'.timedOut <==> k in h.timedOut))
    && (forall k <- h.first :: k != id ==> h'.first[k] == h.first[k])
  }

  /** What happens to an id of fiber `f` is no part of another fiber's history. */
  lemma OtherFiber(g: nat, fb: Fiber, h: History, h': History, id: nat)
    requires FiberHistory(g, fb, false, h)
    requires AgreeExcept(h, h', id) && id in h.issues && h.issues[id].fid != g
    ensures FiberHistory(g, fb, false, h')
  {}

  lemma OtherFibers(fib: map<nat, Fiber>, current: Option<nat>, h: History,
                    f: nat, fb: Fiber, current': Option<nat>, h': History, id: nat)
    requires FibersHistory(fib, current, h)
    requires current == None || current == Some(f)
    requires current' == None || current' == Some(f)
    requires AgreeExcept(h, h', id) && id in h.issues && h.issues[id].fid == f
    requires FiberHistory(f, fb, current' == Some(f), h')
    ensures FibersHistory(fib[f := fb], current', h')
  {
    forall g | g in fib && g != f ensures FiberHistory(g, fib[g], false, h') {
      assert FiberHistory(g, fib[g], false, h);
      OtherFiber(g, fib[g], h, h', id);
    }
  }

  /** Nor is it part of what was returned before. */
  lemma OldCompletions(h: History, h': History, id: nat)
    requires CompletionsOk(h) && AgreeExcept(h, h', id)
    requires id in h.issues && h.issues[id].stage != Returned
    ensures CompletionsOk(h')
    ensures forall c <- h.completions :: c.src.id != id
  {
    forall c | c in h.completions ensures c.src.id != id {
      assert IssuedAs(h, c.src.id, c.fid, c.kind, Returned);
    }
  }

  /** Nor do the entries of other ids notice. */
  lemma TableFrame(h: History, h': History, p: seq<Entry>, p': seq<Entry>, fib: map<nat, Fiber>,
                   f: nat, fb: Fiber, id: nat)
    requires TableHistory(h, p, fib) && AgreeExcept(h, h', id)
    requires forall e <- p' :: e in p && e.id != id
    requires f in fib && forall e <- p' ::
               e.fid == f ==>
                ((fb.waitingReply && fb.waitId == e.id) <==> (fib[f].waitingReply && fib[f].waitId == e.id))
    ensures TableHistory(h', p', fib[f := fb])
  {
    forall e | e in p'
      ensures e.fid in fib && e.id !in h'.first && e.id !in h'.timedOut
      ensures var g := fib[f := fb][e.fid];
              IssuedAs(h', e.id, e.fid, if g.waitingReply && g.waitId == e.id then Blocking else Async, Waiting)
    {
      assert e in p;
    }
  }

  lemma IdsFrame(h: History, h': History, id: nat, next: nat)
    requires IdsBelow(h, next) && AgreeExcept(h, h', id) && id < next
    requires id in h'.first ==> h'.first[id].Reply?
    ensures IdsBelow(h', next)
  {}

  /** Noting a handled reply changes nothing that was already settled. */
  lemma NoteFibers(h: History, e: Event, fib: map<nat, Fiber>, current: Option<nat>)
    requires e.Reply? && FibersHistory(fib, current, h)
    ensures FibersHistory(fib, current, NoteReply(h, e))
  {
    forall f | f in fib ensures FiberHistory(f, fib[f], current == Some(f), NoteReply(h, e)) {
      assert FiberHistory(f, fib[f], current == Some(f), h);
    }
  }

  lemma NoteCompletions(h: History, e: Event)
    requires e.Reply? && CompletionsOk(h)
    ensures CompletionsOk(NoteReply(h, e))
  {}

  // ---------------------------------------------------------------- what a fiber's history becomes

  /** A blocked fiber is handed the outcome of its request. */
  lemma HandBlocking(f: nat, fb: Fiber, h: History, h': History, src: Source)
    requires FiberHistory(f, fb, false, h) && fb.point == AtRequest && fb.waitId == src.id
    requires AgreeExcept(h, h', src.id) && IssuedAs(h, src.id, f, Blocking, Waiting)
    requires IssuedAs(h', src.id, f, Blocking, InHand) && Outcome(Blocking, src, h')
    ensures FiberHistory(f, Cleared(fb.(src := src)), true, h')
  {}

  /** A collector is woken with a reply. */
  lemma HandAny(f: nat, fb: Fiber, h: History, h': History, src: Source, slots: seq<nat>)
    requires FiberHistory(f, fb, false, h) && fb.point == AtWait && fb.rq == []
    requires AgreeExcept(h, h', src.id) && IssuedAs(h, src.id, f, Async, Waiting)
    requires IssuedAs(h', src.id, f, Async, InHand) && FirstSeen(h', SeenAs(src))
    ensures FiberHistory(f, Cleared(fb.(src := src, arrived := fb.arrived + [SeenAs(src)], slots := slots)), true, h')
  {}

  /** A reply is queued at a fiber that is doing something else. */
  lemma HandQueue(f: nat, fb: Fiber, h: History, h': History, a: Arrival, slots: seq<nat>)
    requires FiberHistory(f, fb, false, h)
    requires AgreeExcept(h, h', a.id) && IssuedAs(h, a.id, f, Async, Waiting)
    requires IssuedAs(h', a.id, f, Async, Queued) && FirstSeen(h', a)
    ensures FiberHistory(f, fb.(rq := fb.rq + [a], arrived := fb.arrived + [a], slots := slots), false, h')
  {}

  // ---------------------------------------------------------------- the scheduler's steps

  /** The three ways in which a reply reaches its fiber. */
  lemma ReplyCases(m: Mod, e: Event, f: nat)
    requires FiberInv(m) && m.pc.Events? && m.current.None? && e.Reply?
    requires Entry(e.id, f) in m.pending && Peek(m.pending, e.id) == Some(f)
    ensures var fb := m.fib[f];
      var note := NoteReply(m.hist, e);
      var r := HandleReply(m, e);
      && r.pending == Take(m.pending, e.id) && r.next == m.next
      && (if fb.waitingReply && fb.waitId == e.id then
            r.fib == m.fib[f := Cleared(fb.(src := ReplySource(fb, e)))] && r.current == Some(f)
            && r.hist == SetStage(note, e.id, InHand) && fb.point == AtRequest
          else if fb.waitingAny then
            r.fib == m.fib[f := Cleared(WithArrival(m, fb, e).(src := ReplySource(fb, e)))]
            && r.current == Some(f) && r.hist == SetStage(note, e.id, InHand) && fb.point == AtWait && fb.rq == []
          else
            r.fib == m.fib[f := WithArrival(m, fb, e).(rq := fb.rq + [ArrivalOf(e)])]
            && r.current == None && r.hist == SetStage(note, e.id, Queued))
  {
    var fb := m.fib[f];
    assert FiberOk(f, fb, false, m.pending);
    if fb.waitingReply && Wire(fb.waitId) == Wire(e.id) {
      WireInjective(fb.waitId, e.id, m.next);
    }
  }

  lemma ReplyAgrees(h: History, e: Event, f: nat, kind: Kind, stage: Stage)
    requires e.Reply? && IssuedAs(h, e.id, f, kind, Waiting) && e.id !in h.first && e.id !in h.timedOut
    ensures var h' := SetStage(NoteReply(h, e), e.id, stage);
      && AgreeExcept(h, h', e.id) && IssuedAs(h', e.id, f, kind, stage) && FirstSeen(h', ArrivalOf(e))
  {}

  /** A handled reply whose id is in the table. */
  lemma ReplyMatched(m: Mod, e: Event, f: nat)
    requires FiberInv(m) && m.pc.Events? && m.current.None? && e.Reply?
    requires Entry(e.id, f) in m.pending && Peek(m.pending, e.id) == Some(f)
    requires TableHistory(m.hist, m.pending, m.fib) && FiberHistory(f, m.fib[f], false, m.hist)
    ensures var r := HandleReply(m, e);
      && AgreeExcept(m.hist, r.hist, e.id) && FiberHistory(f, r.fib[f], r.current == Some(f), r.hist)
      && (e.id in r.hist.first ==> r.hist.first[e.id].Reply?)
  {
    var fb := m.fib[f];
    var r := HandleReply(m, e);
    ReplyCases(m, e, f);
    var kind := if fb.waitingReply && fb.waitId == e.id then Blocking else Async;
    ReplyAgrees(m.hist, e, f, kind, r.hist.issues[e.id].stage);
    if fb.waitingReply && fb.waitId == e.id {
      HandBlocking(f, fb, m.hist, r.hist, ReplySource(fb, e));
    } else if fb.waitingAny {
      HandAny(f, fb, m.hist, r.hist, ReplySource(fb, e), r.fib[f].slots);
    } else {
      HandQueue(f, fb, m.hist, r.hist, ArrivalOf(e), r.fib[f].slots);
    }
  }

  lemma ReplyHistory(m: Mod, e: Event)
    requires FiberInv(m) && HistoryInv(m) && m.pc.Events? && m.current.None? && e.Reply? && InWindow(e.id, m.next)
    ensures HistoryInv(HandleReply(m, e))
  {
    TakePending(m.pending, m.next, e.id, m.fib);
    var r := HandleReply(m, e);
    match Peek(m.pending, e.id)
    case None =>
      NoteFibers(m.hist, e, m.fib, None);
      NoteCompletions(m.hist, e);
      TakeExact(m.pending, e.id);
    case Some(f) =>
      assert FiberHistory(f, m.fib[f], false, m.hist);
      ReplyMatched(m, e, f);
      ReplyCases(m, e, f);
      OtherFibers(m.fib, None, m.hist, f, r.fib[f], r.current, r.hist, e.id);
      OldCompletions(m.hist, r.hist, e.id);
      TableFrame(m.hist, r.hist, m.pending, r.pending, m.fib, f, r.fib[f], e.id);
      IdsFrame(m.hist, r.hist, e.id, m.next);
  }

  lemma TimeoutHistory(m: Mod, r: Mod, f: nat)
    requires FiberInv(m) && HistoryInv(m) && m.current.None? && f in m.fib
    requires m.fib[f].waitingReply && !m.fib[f].done
    requires var fb := m.fib[f];
      && r.fib == m.fib[f := Cleared(fb.(src := TimeoutSource(fb)))] && r.current == Some(f)
      && r.pending == Take(m.pending, fb.waitId) && r.next == m.next
      && r.hist == SetStage(m.hist.(timedOut := m.hist.timedOut + {fb.waitId}), fb.waitId, InHand)
    ensures HistoryInv(r)
  {
    var fb := m.fib[f];
    var id := fb.waitId;
    assert FiberOk(f, fb, false, m.pending) && FiberHistory(f, fb, false, m.hist);
    assert Entry(id, f) in m.pending;
    TakePending(m.pending, m.next, id, m.fib);
    HandBlocking(f, fb, m.hist, r.hist, TimeoutSource(fb));
    OtherFibers(m.fib, None, m.hist, f, r.fib[f], r.current, r.hist, id);
    OldCompletions(m.hist, r.hist, id);
    TableFrame(m.hist, r.hist, m.pending, r.pending, m.fib, f, r.fib[f], id);
    IdsFrame(m.hist, r.hist, id, m.next);
  }

  /** Running or parking a fiber that holds no reply changes no history. */
  lemma SameHistory(m: Mod, r: Mod, f: nat, fb: Fiber)
    requires HistoryInv(m) && r.hist == m.hist && r.pending == m.pending && r.next == m.next
    requires f in m.fib && r.fib == m.fib[f := fb]
    requires m.current == None || m.current == Some(f)
    requires r.current == None || r.current == Some(f)
    requires FiberHistory(f, fb, r.current == Some(f), m.hist)
    requires forall e <- m.pending :: e.fid == f ==>
               ((fb.waitingReply && fb.waitId == e.id) <==> (m.fib[f].waitingReply && m.fib[f].waitId == e.id))
    ensures HistoryInv(r)
  {
    forall g | g in m.fib && g != f ensures FiberHistory(g, m.fib[g], false, m.hist) {
      assert FiberHistory(g, m.fib[g], m.current == Some(g), m.hist);
    }
  }

  lemma TimerHistory(m: Mod)
    requires FiberInv(m) && HistoryInv(m) && m.pc.Timers? && m.current.None?
    requires forall f <- m.pc.todo :: f in m.fib
    ensures HistoryInv(DoTimerTurn(m))
  {
    if m.pc.todo != [] && Due(m.fib[m.pc.todo[0]], m.pc.now) && Eligible(m, m.pc.todo[0]) {
      var f := m.pc.todo[0];
      var fb := m.fib[f];
      assert FiberOk(f, fb, false, m.pending) && FiberHistory(f, fb, false, m.hist);
      if fb.waitingReply {
        TimeoutHistory(m, DoTimerTurn(m), f);
      } else {
        SameHistory(m, DoTimerTurn(m), f, Cleared(fb));
      }
    }
  }

  lemma SpawnHistory(m: Mod, e: Event)
    requires FiberInv(m) && HistoryInv(m) && m.current.None? && !e.Reply?
    ensures HistoryInv(Spawn(m, e))
  {
    var r := Spawn(m, e);
    assert FiberHistory(m.hist.nextFid, NewFiber(e), true, r.hist);
    forall g | g in m.fib ensures FiberHistory(g, m.fib[g], false, r.hist) {
      assert FiberHistory(g, m.fib[g], false, m.hist);
    }
    assert r.fib == m.fib[m.hist.nextFid := Cleared(NewFiber(e))];
    assert TableHistory(r.hist, r.pending, r.fib);
  }

  lemma EventHistory(m: Mod)
    requires FiberInv(m) && HistoryInv(m) && m.pc.Events? && m.current.None? && m.q.batch != []
    requires m.q.batch[0].ev.Reply? ==> InWindow(m.q.batch[0].ev.id, m.next)
    ensures Sound(m) && HistoryInv(DoEventTurn(m))
  {
    hide DoEventTurn, HandleReply, Spawn;
    EventCases(m);
    var e := m.q.batch[0].ev;
    var used := m.(q := Consume(m.q));
    if e.Reply? {
      ReplyHistory(used, e);
    } else {
      SpawnHistory(used, e);
    }
  }

  lemma ReapHistory(m: Mod)
    requires FiberInv(m) && HistoryInv(m) && m.pc.Reaping? && Sound(m) && NoneDangles(m)
    ensures HistoryInv(DoReap(m))
  {
    var r := DoReap(m);
    forall g | g in r.fib ensures FiberHistory(g, r.fib[g], false, r.hist) {
      assert FiberHistory(g, m.fib[g], false, m.hist);
    }
  }

  // ---------------------------------------------------------------- the running fiber's steps

  function WithReturn(h: History, f: nat, kind: Kind, src: Source): History {
    SetStage(h.(completions := h.completions + [Completion(f, kind, src)]), src.id, Returned)
  }

  /** An open id of fiber `f` is returned: it was not returned before, and nothing else changes. */
  lemma CloseCompletions(h: History, f: nat, kind: Kind, src: Source)
    requires CompletionsOk(h) && kind != OneWay && Outcome(kind, src, h)
    requires src.id in h.issues && h.issues[src.id].fid == f && h.issues[src.id].kind == kind
    requires h.issues[src.id].stage != Returned
    ensures CompletionsOk(WithReturn(h, f, kind, src))
  {
    var h1 := SetStage(h, src.id, Returned);
    OldCompletions(h, h1, src.id);
  }

  lemma CloseFibers(m: Mod, kind: Kind, src: Source, fb: Fiber)
    requires FibersHistory(m.fib, m.current, m.hist) && m.current.Some? && m.current.value in m.fib
    requires src.id in m.hist.issues && m.hist.issues[src.id].fid == m.current.value
    requires FiberHistory(m.current.value, fb, true, SetStage(m.hist, src.id, Returned))
    ensures FibersHistory(m.fib[m.current.value := fb], m.current, WithReturn(m.hist, m.current.value, kind, src))
  {
    var f := m.current.value;
    var h1 := SetStage(m.hist, src.id, Returned);
    OtherFibers(m.fib, m.current, m.hist, f, fb, m.current, h1, src.id);
    var fib := m.fib[f := fb];
    forall g | g in fib ensures FiberHistory(g, fib[g], m.current == Some(g), WithReturn(m.hist, f, kind, src)) {
      assert FiberHistory(g, fib[g], m.current == Some(g), h1);
    }
  }

  lemma CloseTable(h: History, p: seq<Entry>, next: nat, fib: map<nat, Fiber>, f: nat, kind: Kind, src: Source,
                   fb: Fiber)
    requires TableHistory(h, p, fib) && IdsBelow(h, next) && f in fib && !fb.waitingReply && !fib[f].waitingReply
    requires src.id in h.issues && h.issues[src.id].stage != Waiting
    ensures TableHistory(WithReturn(h, f, kind, src), p, fib[f := fb]) && IdsBelow(WithReturn(h, f, kind, src), next)
  {
    forall e | e in p ensures e.id != src.id {
      assert e.id in h.issues && h.issues[e.id].stage == Waiting;
    }
  }

  lemma CloseHistory(m: Mod, kind: Kind, src: Source, fb: Fiber)
    requires HistoryInv(m) && m.current.Some? && m.current.value in m.fib
    requires !fb.waitingReply && !m.fib[m.current.value].waitingReply
    requires src.id in m.hist.issues && m.hist.issues[src.id].fid == m.current.value
    requires m.hist.issues[src.id].kind == kind && kind != OneWay && Outcome(kind, src, m.hist)
    requires m.hist.issues[src.id].stage == InHand || m.hist.issues[src.id].stage == Queued
    requires FiberHistory(m.current.value, fb, true, SetStage(m.hist, src.id, Returned))
    ensures HistoryInv(Complete(Put(m, m.current.value, fb), kind, src))
  {
    var f := m.current.value;
    CloseCompletions(m.hist, f, kind, src);
    CloseFibers(m, kind, src, fb);
    CloseTable(m.hist, m.pending, m.next, m.fib, f, kind, src, fb);
  }

  /** The reply in hand is counted as collected when the call returns. */
  lemma CollectHeld(f: nat, fb: Fiber, h: History)
    requires FiberHistory(f, fb, true, h) && fb.point == AtWait
    ensures FiberHistory(f, WithCollected(fb), true, SetStage(h, fb.src.id, Returned))
  {}

  lemma CollectQueued(f: nat, fb: Fiber, h: History, src: Source)
    requires FiberHistory(f, fb, true, h) && fb.point == AtUser && fb.rq != [] && SeenAs(src) == fb.rq[0]
    ensures FiberHistory(f, WithPopped(fb, src), true, SetStage(h, src.id, Returned))
  {
    assert fb.rq == [fb.rq[0]] + fb.rq[1..];
  }

  lemma ContinueRequest(m: Mod, f: nat, fb: Fiber)
    requires HistoryInv(m) && m.current == Some(f) && f in m.fib && fb == m.fib[f] && fb.point == AtRequest
    requires !fb.waitingReply
    ensures HistoryInv(DoContinue(m))
  {
    assert FiberHistory(f, fb, true, m.hist);
    assert DoContinue(m) == Complete(Put(m, f, fb.(point := AtUser)), Blocking, fb.src);
    CloseHistory(m, Blocking, fb.src, fb.(point := AtUser));
  }

  lemma ContinueWait(m: Mod, f: nat, fb: Fiber)
    requires HistoryInv(m) && m.current == Some(f) && f in m.fib && fb == m.fib[f] && fb.point == AtWait
    requires !fb.waitingReply
    ensures HistoryInv(DoContinue(m))
  {
    assert FiberHistory(f, fb, true, m.hist);
    CollectHeld(f, fb, m.hist);
    assert DoContinue(m) == Complete(Put(m, f, WithCollected(fb)), Async, fb.src);
    CloseHistory(m, Async, fb.src, WithCollected(fb));
  }

  lemma ContinueHistory(m: Mod)
    requires FiberInv(m) && HistoryInv(m) && m.current.Some? && MayAct(m, Continue)
    ensures HistoryInv(DoContinue(m))
  {
    var f := m.current.value;
    var fb := m.fib[f];
    assert FiberOk(f, fb, true, m.pending);
    if fb.point == AtRequest {
      ContinueRequest(m, f, fb);
    } else if fb.point == AtWait {
      ContinueWait(m, f, fb);
    } else {
      assert FiberHistory(f, fb, true, m.hist);
      SameHistory(m, DoContinue(m), f, fb.(point := AtUser));
    }
  }

  lemma WaitReplyHistory(m: Mod)
    requires FiberInv(m) && HistoryInv(m) && m.current.Some? && MayAct(m, WaitReply)
    ensures HistoryInv(DoWaitReply(m))
  {
    var f := m.current.value;
    var fb := m.fib[f];
    assert FiberOk(f, fb, true, m.pending) && FiberHistory(f, fb, true, m.hist);
    if fb.rq != [] {
      var src := Source(0, fb.seqIdx, fb.rq[0].id, fb.rq[0].result, 0, fb.rq[0].msg);
      CollectQueued(f, fb, m.hist, src);
      CloseHistory(m, Async, src, WithPopped(fb, src));
    } else if fb.outstanding != 0 {
      SameHistory(m, DoWaitReply(m), f, DoWaitReply(m).fib[f]);
    }
  }

  function Issued(h: History, id: nat, issue: Issue): History {
    h.(issues := h.issues[id := issue])
  }

  /** Issuing adds an id that the history does not know. */
  lemma IssueFibers(fib: map<nat, Fiber>, current: Option<nat>, h: History, next: nat, issue: Issue,
                    f: nat, fb: Fiber, current': Option<nat>)
    requires FibersHistory(fib, current, h) && IdsBelow(h, next) && CompletionsOk(h)
    requires current == Some(f) && (current' == None || current' == Some(f))
    requires FiberHistory(f, fb, current' == Some(f), h)
    ensures FibersHistory(fib[f := fb], current', Issued(h, next, issue))
    ensures IdsBelow(Issued(h, next, issue), next + 1) && CompletionsOk(Issued(h, next, issue))
  {
    var h' := Issued(h, next, issue);
    assert FiberHistory(f, fb, current' == Some(f), h');
    forall g | g in fib && g != f ensures FiberHistory(g, fib[g], false, h') {
      assert FiberHistory(g, fib[g], false, h);
    }
  }

  lemma IssueTable(h: History, p: seq<Entry>, fib: map<nat, Fiber>, next: nat, issue: Issue, f: nat, fb: Fiber)
    requires TableHistory(h, p, fib) && IdsBelow(h, next) && f in fib && !fib[f].waitingReply
    requires fb.waitingReply ==> fb.waitId == next
    ensures TableHistory(Issued(h, next, issue), p, fib[f := fb])
    ensures issue
            == Issue(if fb.waitingReply then Blocking else Async, f, issue.target, issue.seqIdx, issue.msg, Waiting)
      ==> TableHistory(Issued(h, next, issue), [Entry(next, f)] + p, fib[f := fb])
  {
    forall e | e in p ensures e.id < next {
      assert e.id in h.issues;
    }
  }

  lemma IssueHistory(m: Mod, r: Mod, f: nat, fb: Fiber, kind: Kind, a: Action)
    requires FiberInv(m) && HistoryInv(m) && m.current == Some(f)
    requires a.Request? || a.RequestAsync? || a.Send?
    requires r.next == m.next + 1 && r.hist == Track(m, kind, a).hist
    requires r.fib == m.fib[f := fb] && (r.current == None || r.current == Some(f))
    requires FiberHistory(f, fb, r.current == Some(f), m.hist)
    requires r.pending == if kind == OneWay then m.pending else [Entry(m.next, f)] + m.pending
    requires kind == Blocking <==> fb.waitingReply
    requires kind == Blocking ==> fb.waitId == m.next
    ensures HistoryInv(r)
  {
    assert FiberOk(f, m.fib[f], true, m.pending);
    var issue := Issue(kind, f, a.target, a.seqIdx, a.msg, Waiting);
    IssueFibers(m.fib, m.current, m.hist, m.next, issue, f, fb, r.current);
    IssueTable(m.hist, m.pending, m.fib, m.next, issue, f, fb);
  }

  lemma AllocateHistory(m: Mod, a: Action)
    requires FiberInv(m) && HistoryInv(m) && m.current.Some? && MayAct(m, a)
    requires a.RequestAsync? || a.Send?
    ensures HistoryInv(DoAct(m, a))
  {
    var f := m.current.value;
    var r := DoAct(m, a);
    assert FiberOk(f, m.fib[f], true, m.pending) && FiberHistory(f, m.fib[f], true, m.hist);
    if a.Send? {
      assert m.fib == m.fib[f := m.fib[f]];
      IssueHistory(m, r, f, m.fib[f], OneWay, a);
    } else {
      IssueHistory(m, r, f, r.fib[f], Async, a);
    }
  }

  lemma RunnerKnown(m: Mod)
    requires FiberInv(m) && HistoryInv(m) && m.current.Some?
    ensures m.current.value in m.fib
    ensures FiberOk(m.current.value, m.fib[m.current.value], true, m.pending)
    ensures FiberHistory(m.current.value, m.fib[m.current.value], true, m.hist)
  {}

  lemma RequestHistory(m: Mod, a: Action)
    requires FiberInv(m) && HistoryInv(m) && m.current.Some? && MayAct(m, a) && a.Request?
    ensures HistoryInv(DoAct(m, a))
  {
    hide HistoryInv, FiberInv;
    RunnerKnown(m);
    var f := m.current.value;
    var r := DoAct(m, a);
    IssueHistory(m, r, f, r.fib[f], Blocking, a);
  }

  lemma YieldHistory(m: Mod, a: Action)
    requires FiberInv(m) && HistoryInv(m) && m.current.Some? && MayAct(m, a)
    requires a.Sleep? || a.Return?
    ensures HistoryInv(DoAct(m, a))
  {
    var f := m.current.value;
    var r := DoAct(m, a);
    assert FiberOk(f, m.fib[f], true, m.pending) && FiberHistory(f, m.fib[f], true, m.hist);
    SameHistory(m, r, f, r.fib[f]);
  }

  lemma AnswerHistory(m: Mod, a: Action)
    requires HistoryInv(m) && m.current.Some? && m.current.value in m.fib && a.Answer?
    ensures HistoryInv(DoAct(m, a))
  {
    var r := DoAct(m, a);
    forall g | g in r.fib ensures FiberHistory(g, r.fib[g], r.current == Some(g), r.hist) {
      assert FiberHistory(g, m.fib[g], m.current == Some(g), m.hist);
    }
  }

  lemma ActHistory(m: Mod, a: Action)
    requires FiberInv(m) && HistoryInv(m) && m.current.Some? && MayAct(m, a)
    ensures HistoryInv(DoAct(m, a))
  {
    match a
    case Continue => ContinueHistory(m);
    case WaitReply => WaitReplyHistory(m);
    case Request(_, _, _, _, _) => RequestHistory(m, a);
    case RequestAsync(_, _, _) => AllocateHistory(m, a);
    case Send(_, _, _) => AllocateHistory(m, a);
    case Sleep(_, _) => YieldHistory(m, a);
    case Return => YieldHistory(m, a);
    case Answer(_, _) => AnswerHistory(m, a);
    case _ =>
  }

  lemma StepHistory(m: Mod, l: Label)
    requires Inv(m) && HistoryInv(m) && Enabled(m, l)
    ensures Sound(m) && HistoryInv(Step(m, l))
  {
    InvSound(m);
    match l
    case TimerTurn => TimerHistory(m);
    case EventTurn =>
      if m.q.batch != [] {
        HeadLeaves(m.q, m.next);
        EventHistory(m);
      }
    case Reap => ReapHistory(m);
    case Act(a) => ActHistory(m, a);
    case _ =>
  }
}
