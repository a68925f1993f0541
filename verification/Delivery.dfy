/** Posting between the modules of an instance, and to and from the outside: what is posted to a module is at the
    end of its inbox after the step, all of it, once and in the order of posting, and nothing else is; and what
    becomes of a call from outside. */
module Delivery {
  import opened Base
  import opened EventQueues
  import opened Machine
  import opened Registry
  import opened Worlds

  /** What of `ps` is for module `i`, in order. */
  function Addressed(ps: seq<Posting>, i: nat): seq<Event> {
    if ps == [] then []
    else (if ps[0].target == i then [ps[0].ev] else []) + Addressed(ps[1..], i)
  }

  /** Events as they come in one after the other, the first as number `n`. */
  function StampedFrom(es: seq<Event>, n: nat): seq<Stamped> {
    seq(|es|, k requires 0 <= k < |es| => Stamped(n + k, es[k]))
  }

  /** `es` have come into the inbox of the module, and nothing else has happened to it. */
  ghost predicate CameIn(m: Mod, m': Mod, es: seq<Event>) {
    m' == m.(q := m.q.(inbox := m.q.inbox + StampedFrom(es, m.q.posted), posted := m.q.posted + |es|))
  }

  lemma CameInOne(m: Mod, m0: Mod, m': Mod, e: Event, es: seq<Event>)
    requires m0 == m.(q := m.q.(inbox := m.q.inbox + [Stamped(m.q.posted, e)], posted := m.q.posted + 1))
    requires CameIn(m0, m', es)
    ensures CameIn(m, m', [e] + es)
  {
    assert m.q.inbox + StampedFrom([e] + es, m.q.posted) == m0.q.inbox + StampedFrom(es, m0.q.posted);
  }

  lemma PostedOne(mods: seq<Mod>, p: Posting, i: nat)
    requires i < |mods|
    ensures |PostTo(mods, p)| == |mods|
    ensures var m := mods[i];
      PostTo(mods, p)[i]
      == if p.target == i
         then m.(q := m.q.(inbox := m.q.inbox + [Stamped(m.q.posted, p.ev)], posted := m.q.posted + 1)) else m
  {}

  lemma {:induction false} PostedAll(mods: seq<Mod>, ps: seq<Posting>, i: nat)
    requires i < |mods|
    ensures |PostAll(mods, ps)| == |mods| && CameIn(mods[i], PostAll(mods, ps)[i], Addressed(ps, i))
    decreases |ps|
  {
    if ps == [] {
      assert mods[i].q.inbox + StampedFrom([], mods[i].q.posted) == mods[i].q.inbox;
    } else {
      PostedOne(mods, ps[0], i);
      PostedAll(PostTo(mods, ps[0]), ps[1..], i);
      if ps[0].target == i {
        CameInOne(mods[i], PostTo(mods, ps[0])[i], PostAll(mods, ps)[i], ps[0].ev, Addressed(ps[1..], i));
      }
    }
  }

  lemma OneAddressed(p: Posting, i: nat)
    ensures Addressed([p], i) == if p.target == i then [p.ev] else []
  {
    assert [p][1..] == [];
  }

  /** All that a step of the instance posts, a call from outside included. */
  ghost function PostedBy(w: World, l: WorldLabel): seq<Posting>
    requires WorldEnabled(w, l)
  {
    match l
    case Inside(i, ml) => Posts(w.mods[i], ml)
    case CallSync(t, s, msg) => [Posting(t, Start(s, w.box.nextId, EXTERNAL, msg))]
    case CallAsync(t, s, msg) => [Posting(t, Start(s, w.box.nextId, EXTERNAL, msg))]
    case ReturnSync => []
  }

  /** Module `i` after its own part of a step. */
  ghost function OwnPart(w: World, l: WorldLabel, i: nat): Mod
    requires WorldEnabled(w, l) && i < |w.mods|
  {
    if l.Inside? && l.i == i then Step(w.mods[i], l.l) else w.mods[i]
  }

  /** After any step of an instance each module is as after its own part of it, with all that the step posts to
      that module at the end of the inbox, in the order of posting. */
  lemma Delivered(w: World, l: WorldLabel, i: nat)
    requires WorldEnabled(w, l) && i < |w.mods|
    ensures |WorldStep(w, l).mods| == |w.mods|
    ensures CameIn(OwnPart(w, l, i), WorldStep(w, l).mods[i], Addressed(PostedBy(w, l), i))
  {
    match l
    case Inside(j, ml) => PostedAll(w.mods[j := Step(w.mods[j], ml)], Posts(w.mods[j], ml), i);
    case CallSync(t, s, msg) => CallDelivered(w, Posting(t, Start(s, w.box.nextId, EXTERNAL, msg)), i);
    case CallAsync(t, s, msg) => CallDelivered(w, Posting(t, Start(s, w.box.nextId, EXTERNAL, msg)), i);
    case ReturnSync => assert w.mods[i].q.inbox + StampedFrom([], w.mods[i].q.posted) == w.mods[i].q.inbox;
  }

  lemma CallDelivered(w: World, p: Posting, i: nat)
    requires i < |w.mods|
    ensures |PostTo(w.mods, p)| == |w.mods| && CameIn(w.mods[i], PostTo(w.mods, p)[i], Addressed([p], i))
  {
    PostedOne(w.mods, p, i);
    assert [p][1..] == [];
    assert w.mods[i].q.inbox + StampedFrom([], w.mods[i].q.posted) == w.mods[i].q.inbox;
    assert StampedFrom([p.ev], w.mods[i].q.posted) == [Stamped(w.mods[i].q.posted, p.ev)];
  }

  /** The events that have come into the inbox by a step, after the module's own part of it. */
  ghost predicate GetsJust(w: World, l: WorldLabel, i: nat, es: seq<Event>)
    requires WorldEnabled(w, l) && i < |w.mods| && |WorldStep(w, l).mods| == |w.mods|
  {
    CameIn(OwnPart(w, l, i), WorldStep(w, l).mods[i], es)
  }

  /** A request of any kind reaches the module it names, and no other: a START under the id allocated for it,
      from the module of the caller, with the sequence and the message asked for. */
  lemma RequestReaches(w: World, j: nat, a: Action, i: nat)
    requires WorldEnabled(w, Inside(j, Act(a))) && i < |w.mods| && (a.Request? || a.RequestAsync? || a.Send?)
    ensures |WorldStep(w, Inside(j, Act(a))).mods| == |w.mods|
    ensures GetsJust(w, Inside(j, Act(a)), i,
                     if a.target == i then [Start(a.seqIdx, w.mods[j].next, w.mods[j].cfg.idx, a.msg)] else [])
  {
    Delivered(w, Inside(j, Act(a)), i);
    OneAddressed(Posting(a.target, Start(a.seqIdx, w.mods[j].next, w.mods[j].cfg.idx, a.msg)), i);
  }

  /** A reply reaches the module whose request it answers, and no other. */
  lemma ReplyReaches(w: World, j: nat, result: ResultCode, msg: Bytes, i: nat)
    requires WorldEnabled(w, Inside(j, Act(Answer(result, msg)))) && i < |w.mods|
    ensures |WorldStep(w, Inside(j, Act(Answer(result, msg)))).mods| == |w.mods|
    ensures var fb := w.mods[j].fib[w.mods[j].current.value];
      GetsJust(w, Inside(j, Act(Answer(result, msg))), i,
               if fb.replyTo == i
               then [Reply(fb.replyId, w.mods[j].cfg.idx, result, msg, w.mods[j].current.value)] else [])
  {
    var l := Inside(j, Act(Answer(result, msg)));
    Delivered(w, l, i);
    var fb := w.mods[j].fib[w.mods[j].current.value];
    OneAddressed(Posting(fb.replyTo, Reply(fb.replyId, w.mods[j].cfg.idx, result, msg, w.mods[j].current.value)), i);
  }

  /** Whose registrations a published notice is for, in the order of the list. */
  function Listeners(clients: seq<Client>, category: nat, i: nat): seq<nat> {
    if clients == [] then []
    else (if clients[0].category == category && clients[0].listener == i then [clients[0].clientId] else [])
         + Listeners(clients[1..], category, i)
  }

  function NoticesFor(ids: seq<nat>, category: nat, from: int, msg: Bytes): seq<Event> {
    seq(|ids|, k requires 0 <= k < |ids| => Event.Notify(category, ids[k], from, msg))
  }

  lemma {:induction false} NoticesAddressed(clients: seq<Client>, category: nat, from: int, msg: Bytes, i: nat)
    ensures Addressed(Notices(clients, category, from, msg), i)
            == NoticesFor(Listeners(clients, category, i), category, from, msg)
  {
    if clients != [] {
      var rest := clients[1..];
      NoticesAddressed(rest, category, from, msg, i);
      var first := if clients[0].category == category then [NoticeTo(clients[0], from, msg)] else [];
      var more := Notices(rest, category, from, msg);
      assert (first + more)[|first|..] == more;
      if first != [] {
        assert (first + more)[0] == first[0] && (first + more)[1..] == more;
      }
    }
  }

  /** Publishing reaches each module with one notice per registration of it for the category. */
  lemma NoticesReach(w: World, j: nat, category: nat, msg: Bytes, i: nat)
    requires WorldEnabled(w, Inside(j, Act(Publish(category, msg)))) && i < |w.mods|
    ensures |WorldStep(w, Inside(j, Act(Publish(category, msg)))).mods| == |w.mods|
    ensures GetsJust(w, Inside(j, Act(Publish(category, msg))), i,
                     NoticesFor(Listeners(w.mods[j].clients, category, i), category, w.mods[j].cfg.idx, msg))
  {
    Delivered(w, Inside(j, Act(Publish(category, msg))), i);
    NoticesAddressed(w.mods[j].clients, category, w.mods[j].cfg.idx, msg, i);
  }

  /** No other step of a module puts anything into an inbox. */
  lemma NothingElsePosted(w: World, j: nat, l: Label, i: nat)
    requires WorldEnabled(w, Inside(j, l)) && i < |w.mods|
    requires l.Act? ==> !l.a.Request? && !l.a.RequestAsync? && !l.a.Send? && !l.a.Answer? && !l.a.Publish?
    ensures |WorldStep(w, Inside(j, l)).mods| == |w.mods| && GetsJust(w, Inside(j, l), i, [])
  {
    Delivered(w, Inside(j, l), i);
  }

  /** A call from outside reaches the module it names, and no other, under an id of its own. */
  lemma CallReaches(w: World, l: WorldLabel, i: nat)
    requires WorldEnabled(w, l) && (l.CallSync? || l.CallAsync?) && i < |w.mods|
    ensures |WorldStep(w, l).mods| == |w.mods|
    ensures GetsJust(w, l, i, if l.target == i then [Start(l.seqIdx, w.box.nextId, EXTERNAL, l.msg)] else [])
    ensures WorldStep(w, l).box.nextId == w.box.nextId + 1
  {
    Delivered(w, l, i);
    OneAddressed(Posting(l.target, Start(l.seqIdx, w.box.nextId, EXTERNAL, l.msg)), i);
  }

  // ---------------------------------------------------------------- calls from outside and what they return

  /** A fiber that the call from outside under `id` has started answers. */
  ghost predicate AnswersCall(w: World, l: WorldLabel, id: nat) {
    && l.Inside? && l.i < |w.mods| && l.l.Act? && l.l.a.Answer?
    && var m := w.mods[l.i];
    && m.current.Some? && m.current.value in m.fib
    && var fb := m.fib[m.current.value];
    && fb.replyTo == EXTERNAL && !fb.handler && fb.replyId == id
  }

  /** What a step does to the mailbox: a call is issued under the next id and, if it waits, opens the box for that id;
      an answer to the call in progress fills it; the return of that call hands out what is in it, once, and
      closes it; and no other step touches it. */
  lemma BoxStep(w: World, l: WorldLabel)
    requires WorldOk(w) && WorldEnabled(w, l)
    ensures var b, b' := w.box, WorldStep(w, l).box;
      match l
      case CallSync(t, s, msg) =>
        b' == b.(nextId := b.nextId + 1, issues := b.issues[b.nextId := ExtIssue(t, s, msg)],
                 waitRid := b.nextId, ready := false, caller := Some(b.nextId))
      case CallAsync(t, s, msg) =>
        b' == b.(nextId := b.nextId + 1, issues := b.issues[b.nextId := ExtIssue(t, s, msg)])
      case ReturnSync =>
        b' == b.(waitRid := 0xFFFF_FFFF, msg := [], caller := None,
                 returned := b.returned + [ExtReturn(b.caller.value, b.result, b.msg, b.from, b.author)])
      case Inside(i, ml) =>
        if b.caller.Some? && AnswersCall(w, l, b.caller.value)
        then b' == b.(ready := true, result := ml.a.result, msg := ml.a.msg, from := i,
                      author := w.mods[i].current.value)
        else b' == b
  {
    if l.Inside? {
      assert ModuleOk(Views(w.mods), w.box.issues, l.i, w.mods[l.i]);
      BoxFillsIff(Views(w.mods), w.box, l.i, w.mods[l.i], l.l);
    }
  }

  /** The call under `id` is in progress, and the box holds the answer of step `k` or none yet. */
  ghost predicate CallOpen(ws: seq<World>, wls: seq<WorldLabel>, a: nat, j: nat, id: nat, k: Option<nat>)
    requires a < j < |ws| && j <= |wls|
  {
    && ws[j].box.caller == Some(id) && (ws[j].box.ready <==> k.Some?)
    && match k
       case None => forall x :: a < x < j ==> !AnswersCall(ws[x], wls[x], id)
       case Some(n) =>
         && a < n < j && AnswersCall(ws[n], wls[n], id)
         && (forall x :: n < x < j ==> !AnswersCall(ws[x], wls[x], id))
         && ws[j].box.result == wls[n].l.a.result && ws[j].box.msg == wls[n].l.a.msg
         && ws[j].box.from == wls[n].i && ws[n].mods[wls[n].i].current == Some(ws[j].box.author)
  }

  lemma {:induction false} OpenUntil(cfgs: seq<Config>, ws: seq<World>, wls: seq<WorldLabel>, a: nat, j: nat)
    returns (k: Option<nat>)
    requires WorldRun(cfgs, ws, wls) && a < j < |ws| && wls[a].CallSync?
    requires forall x :: a < x < j ==> !wls[x].ReturnSync?
    ensures j <= |wls| && CallOpen(ws, wls, a, j, ws[a].box.nextId, k)
    ensures ws[j].box.returned == ws[a].box.returned
    decreases j
  {
    hide WorldOk, WorldEnabled, WorldStep, AnswersCall;
    assert WorldNext(ws[j - 1], wls[j - 1], ws[j]);
    WorldSafe(cfgs, ws, wls, j - 1);
    BoxStep(ws[j - 1], wls[j - 1]);
    if a + 1 == j {
      k := None;
    } else {
      k := OpenUntil(cfgs, ws, wls, a, j - 1);
      NoSecondCall(ws[j - 1], wls[j - 1]);
      if AnswersCall(ws[j - 1], wls[j - 1], ws[a].box.nextId) {
        AnsweredBy(ws[j - 1], wls[j - 1], ws[a].box.nextId);
        k := Some(j - 1);
      }
    }
  }

  lemma NoSecondCall(w: World, l: WorldLabel)
    requires WorldEnabled(w, l) && w.box.caller.Some?
    ensures !l.CallSync?
  {}

  lemma AnsweredBy(w: World, l: WorldLabel, id: nat)
    requires AnswersCall(w, l, id)
    ensures l.Inside? && l.i < |w.mods| && l.l.Act? && l.l.a.Answer? && w.mods[l.i].current.Some?
  {}

  /** What `request_sync` returns, in every run of an instance: if a call is made at step `a` and the next return is
      at step `b`, then this return is of that very call, under the id it was given, and what it hands out is
      the last answer made to that id in between, of which there is one. */
  lemma SyncReturns(cfgs: seq<Config>, ws: seq<World>, wls: seq<WorldLabel>, a: nat, b: nat) returns (k: nat)
    requires WorldRun(cfgs, ws, wls) && a < b < |wls| && wls[a].CallSync? && wls[b].ReturnSync?
    requires forall x :: a < x < b ==> !wls[x].ReturnSync?
    ensures |ws| == |wls| + 1
    ensures var id := ws[a].box.nextId;
      && a < k < b && AnswersCall(ws[k], wls[k], id) && (forall x :: k < x < b ==> !AnswersCall(ws[x], wls[x], id))
      && ws[k].mods[wls[k].i].current.Some?
      && ws[b + 1].box.returned
         == ws[a].box.returned
            + [ExtReturn(id, wls[k].l.a.result, wls[k].l.a.msg, wls[k].i, ws[k].mods[wls[k].i].current.value)]
  {
    hide WorldOk, WorldEnabled, WorldStep, AnswersCall;
    assert WorldNext(ws[b], wls[b], ws[b + 1]);
    WorldSafe(cfgs, ws, wls, b);
    BoxStep(ws[b], wls[b]);
    var last := OpenUntil(cfgs, ws, wls, a, b);
    ReadyToReturn(ws[b]);
    k := last.value;
    AnsweredBy(ws[k], wls[k], ws[a].box.nextId);
  }

  lemma ReadyToReturn(w: World)
    requires WorldEnabled(w, ReturnSync)
    ensures w.box.caller.Some? && w.box.ready
  {}
}
