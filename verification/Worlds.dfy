/** An instance: several modules stepping in any interleaving, the mailbox of the threads outside, and
    where every delivered reply comes from. */
module Worlds {
  import opened Base
  import opened Time
  import opened Pending
  import opened EventQueues
  import opened Machine
  import opened Frames
  import opened Invariant
  import opened Outcomes
  import opened Runs
  import opened Steps

  /** The value of `ext_wait_rid` while nobody waits. */
  const SENTINEL: nat := 0xFFFF_FFFF

  datatype ExtIssue = ExtIssue(target: nat, seqIdx: nat, msg: Bytes)
  datatype ExtReturn = ExtReturn(id: nat, result: ResultCode, msg: Bytes, from: nat, author: nat)

  /** The mailbox. `caller` is the id of the `request_sync` in progress; `from` and `author` say which fiber
      filled the box; `issues` and `returned` are history. */
  datatype Mailbox = Mailbox(
    ready: bool, waitRid: nat, result: ResultCode, msg: Bytes, nextId: nat,
    caller: Option<nat>, from: nat, author: nat, issues: map<nat, ExtIssue>, returned: seq<ExtReturn>)

  datatype World = World(mods: seq<Mod>, box: Mailbox, nextClient: nat)

  datatype WorldLabel =
    | Inside(i: nat, l: Label)
    | CallSync(target: nat, seqIdx: nat, msg: Bytes)
    | ReturnSync
    | CallAsync(target: nat, seqIdx: nat, msg: Bytes)

  function InitialWorld(cfgs: seq<Config>): World {
    World(seq(|cfgs|, i requires 0 <= i < |cfgs| => Initial(cfgs[i])),
          Mailbox(false, SENTINEL, Ignore, [], 1, None, 0, 0, map[], []), 0)
  }

  /** `post`: an event for an index that is no module is dropped. */
  function PostTo(mods: seq<Mod>, p: Posting): seq<Mod> {
    if 0 <= p.target < |mods| then mods[p.target := mods[p.target].(q := Post(mods[p.target].q, p.ev))] else mods
  }

  function PostAll(mods: seq<Mod>, ps: seq<Posting>): seq<Mod>
    decreases |ps|
  {
    if ps == [] then mods else PostAll(PostTo(mods, ps[0]), ps[1..])
  }

  /** `ext_deliver`: only a reply to the id that is waited for gets into the box. */
  function Deliver(box: Mailbox, id: nat, result: ResultCode, msg: Bytes, from: nat, author: nat): Mailbox {
    if Wire(id) == box.waitRid
    then box.(result := result, msg := msg, ready := true, from := from, author := author)
    else box
  }

  /** The next client id, skipping the value that means unregistered. */
  function ClientId(next: nat): nat {
    if next == 0xff then 0 else next
  }

  /** The effect on the mailbox of a step of module `i`. */
  function BoxAfter(box: Mailbox, i: nat, m: Mod, l: Label): Mailbox {
    if l.Act? && l.a.Answer? && m.current.Some? && m.current.value in m.fib
       && m.fib[m.current.value].replyTo == EXTERNAL
    then Deliver(box, m.fib[m.current.value].replyId, l.a.result, l.a.msg, i, m.current.value)
    else box
  }

  function ClientAfter(next: nat, m: Mod, l: Label): nat {
    if l.Act? && l.a.Register? && m.current.Some? && m.current.value in m.fib
       && m.fib[m.current.value].replyTo != EXTERNAL
    then ClientId(next) + 1
    else next
  }

  /** Requests of module `r` under way: their ids must not be a whole id space old when `r` allocates. */
  ghost predicate NoneStale(w: World, r: nat)
    requires r < |w.mods|
  {
    forall t: nat :: t < |w.mods| ==>
      && (forall s <- Live(w.mods[t].q) :: s.ev.Start? && s.ev.requester == r ==> w.mods[r].next < s.ev.id + ID_SPACE)
      && (forall f <- w.mods[t].fib :: !w.mods[t].fib[f].done && w.mods[t].fib[f].replyTo == r ==>
            w.mods[r].next < w.mods[t].fib[f].replyId + ID_SPACE)
  }

  ghost predicate WorldEnabled(w: World, l: WorldLabel) {
    match l
    case Inside(i, ml) =>
      && i < |w.mods| && Sound(w.mods[i]) && Enabled(w.mods[i], ml) && !ml.Arrive?
      && (Allocates(ml) ==> NoneStale(w, i))
      && (ml.Act? && ml.a.Register? ==> ml.a.clientId == ClientId(w.nextClient))
    case CallSync(_, _, _) => w.box.caller.None? && w.box.nextId < SENTINEL
    case ReturnSync => w.box.caller.Some? && w.box.ready
    case CallAsync(_, _, _) => w.box.nextId < SENTINEL
  }

  function Called(box: Mailbox, target: nat, seqIdx: nat, msg: Bytes): Mailbox {
    box.(nextId := box.nextId + 1, issues := box.issues[box.nextId := ExtIssue(target, seqIdx, msg)])
  }

  /** `request_sync` up to its wait, and from there. */
  function Opened(box: Mailbox, target: nat, seqIdx: nat, msg: Bytes): Mailbox {
    Called(box, target, seqIdx, msg).(waitRid := box.nextId, ready := false, caller := Some(box.nextId))
  }

  function Closed(box: Mailbox): Mailbox
    requires box.caller.Some?
  {
    box.(waitRid := SENTINEL, msg := [], caller := None,
         returned := box.returned + [ExtReturn(box.caller.value, box.result, box.msg, box.from, box.author)])
  }

  ghost function WorldStep(w: World, l: WorldLabel): World
    requires WorldEnabled(w, l)
  {
    match l
    case Inside(i, ml) =>
      World(PostAll(w.mods[i := Step(w.mods[i], ml)], Posts(w.mods[i], ml)),
            BoxAfter(w.box, i, w.mods[i], ml), ClientAfter(w.nextClient, w.mods[i], ml))
    case CallSync(t, s, msg) =>
      w.(mods := PostTo(w.mods, Posting(t, Start(s, w.box.nextId, EXTERNAL, msg))), box := Opened(w.box, t, s, msg))
    case ReturnSync => w.(box := Closed(w.box))
    case CallAsync(t, s, msg) =>
      w.(mods := PostTo(w.mods, Posting(t, Start(s, w.box.nextId, EXTERNAL, msg))), box := Called(w.box, t, s, msg))
  }

  // ---------------------------------------------------------------- where things come from

  /** What the modules have issued, started and answered so far. */
  datatype View = View(next: nat, issues: map<nat, Issue>, born: map<nat, Event>, sent: set<Sent>)

  function ViewOf(m: Mod): View {
    View(m.next, m.hist.issues, m.hist.born, m.hist.sent)
  }

  function Views(mods: seq<Mod>): seq<View> {
    seq(|mods|, i requires 0 <= i < |mods| => ViewOf(mods[i]))
  }

  /** A START event at module `t` is one that its requester issued to `t`. */
  predicate StartOk(vs: seq<View>, ext: map<nat, ExtIssue>, t: nat, e: Event)
    requires e.Start?
  {
    if e.requester == EXTERNAL then e.id in ext && ext[e.id] == ExtIssue(t, e.seqIdx, e.msg)
    else
      && 0 <= e.requester < |vs| && e.id in vs[e.requester].issues
      && vs[e.requester].issues[e.id].target == t
      && vs[e.requester].issues[e.id].seqIdx == e.seqIdx && vs[e.requester].issues[e.id].msg == e.msg
  }

  /** A REPLY event at module `t` was made by `coseq_reply` in the fiber it names. */
  predicate ReplyOk(vs: seq<View>, t: nat, e: Event)
    requires e.Reply?
  {
    0 <= e.from < |vs| && Sent(e.author, t, e.id, e.result, e.msg) in vs[e.from].sent
  }

  predicate InTime(vs: seq<View>, requester: int, id: nat) {
    0 <= requester < |vs| ==> InWindow(id, vs[requester].next)
  }

  predicate EventOk(vs: seq<View>, ext: map<nat, ExtIssue>, t: nat, e: Event) {
    match e
    case Start(_, id, r, _) => StartOk(vs, ext, t, e) && InTime(vs, r, id)
    case Reply(_, _, _, _, _) => ReplyOk(vs, t, e)
    case Notify(_, _, _, _) => true
  }

  ghost predicate QueuesOk(vs: seq<View>, ext: map<nat, ExtIssue>, t: nat, q: Queues) {
    forall e :: EventIn(e, Live(q)) ==> EventOk(vs, ext, t, e)
  }

  /** Each fiber was started by the event recorded for it, and acts in that role. */
  ghost predicate BirthsOk(vs: seq<View>, ext: map<nat, ExtIssue>, t: nat, h: History) {
    forall f <- h.born ::
      && f < h.nextFid && !h.born[f].Reply? && (h.born[f].Start? ==> StartOk(vs, ext, t, h.born[f]))
  }

  ghost predicate RolesOk(vs: seq<View>, born: map<nat, Event>, fib: map<nat, Fiber>) {
    forall f <- fib ::
      && f in born && StartedBy(fib[f], born[f]) && (!fib[f].done ==> InTime(vs, fib[f].replyTo, fib[f].replyId))
  }

  /** Each reply made answers the request that started the fiber that made it. */
  ghost predicate SentOk(h: History) {
    forall s <- h.sent ::
      && s.fid in h.born
      && match h.born[s.fid]
         case Start(_, id, r, _) => s.dest == r && s.id == id
         case Notify(_, _, _, _) => s.dest == EXTERNAL && s.id == 0
         case Reply(_, _, _, _, _) => false
  }

  ghost predicate FirstOk(vs: seq<View>, t: nat, h: History) {
    forall id <- h.first :: h.first[id].Reply? && h.first[id].id == id && ReplyOk(vs, t, h.first[id])
  }

  ghost predicate ModuleOk(vs: seq<View>, ext: map<nat, ExtIssue>, t: nat, m: Mod) {
    && m.cfg.idx == t && QueuesOk(vs, ext, t, m.q) && BirthsOk(vs, ext, t, m.hist)
    && RolesOk(vs, m.hist.born, m.fib) && SentOk(m.hist) && FirstOk(vs, t, m.hist)
  }

  ghost predicate Provenance(vs: seq<View>, mods: seq<Mod>, ext: map<nat, ExtIssue>) {
    && |vs| == |mods|
    && forall t: nat :: t < |mods| ==> vs[t] == ViewOf(mods[t]) && Safe(mods[t]) && ModuleOk(vs, ext, t, mods[t])
  }

  // ---------------------------------------------------------------- posting

  lemma PostLive(q: Queues, e: Event)
    ensures forall x :: EventIn(x, Live(Post(q, e))) ==> x == e || EventIn(x, Live(q))
  {
    assert Live(Post(q, e)) == Live(q) + [Stamped(q.posted, e)];
    forall x | EventIn(x, Live(Post(q, e))) ensures x == e || EventIn(x, Live(q)) {
      var i :| 0 <= i < |Live(Post(q, e))| && Live(Post(q, e))[i].ev == x;
      if i < |Live(q)| {
        assert Live(q)[i].ev == x;
      }
    }
  }

  /** A posting that the provenance statements cover. */
  ghost predicate PostingOk(vs: seq<View>, ext: map<nat, ExtIssue>, p: Posting) {
    0 <= p.target < |vs| ==>
      EventOk(vs, ext, p.target, p.ev) && (p.ev.Reply? ==> InWindow(p.ev.id, vs[p.target].next))
  }

  lemma ModulePost(vs: seq<View>, ext: map<nat, ExtIssue>, t: nat, m: Mod, e: Event)
    requires ModuleOk(vs, ext, t, m) && EventOk(vs, ext, t, e)
    ensures ModuleOk(vs, ext, t, m.(q := Post(m.q, e)))
  {
    PostLive(m.q, e);
  }

  lemma SafePost(m: Mod, e: Event)
    requires Safe(m) && (e.Reply? ==> InWindow(e.id, m.next))
    ensures Safe(m.(q := Post(m.q, e)))
  {
    InvSound(m);
    assert Next(m, Arrive(e), m.(q := Post(m.q, e)));
    SafeStep(m, Arrive(e), m.(q := Post(m.q, e)));
  }

  lemma {:induction false} PostAllKeeps(vs: seq<View>, mods: seq<Mod>, ext: map<nat, ExtIssue>, ps: seq<Posting>)
    requires Provenance(vs, mods, ext) && forall p <- ps :: PostingOk(vs, ext, p)
    ensures Provenance(vs, PostAll(mods, ps), ext)
    decreases |ps|
  {
    if ps != [] {
      var p := ps[0];
      assert p in ps && PostingOk(vs, ext, p);
      if 0 <= p.target < |mods| {
        ModulePost(vs, ext, p.target, mods[p.target], p.ev);
        SafePost(mods[p.target], p.ev);
      }
      PostAllKeeps(vs, PostTo(mods, p), ext, ps[1..]);
    }
  }

  // ---------------------------------------------------------------- one module's step

  /** Histories only grow: what one module knows of another stays true. */
  ghost predicate ViewGrows(a: View, b: View) {
    && a.sent <= b.sent && (forall f <- a.born :: f in b.born && b.born[f] == a.born[f])
    && (forall id <- a.issues :: id in b.issues && SameIssue(b.issues[id], a.issues[id]))
  }

  ghost predicate Grows(vs: seq<View>, vs': seq<View>, ext: map<nat, ExtIssue>, ext': map<nat, ExtIssue>) {
    && |vs'| == |vs| && (forall k :: 0 <= k < |vs| ==> ViewGrows(vs[k], vs'[k]))
    && (forall id <- ext :: id in ext' && ext'[id] == ext[id])
  }

  /** What is under way at a module is still in time for its requesters. */
  ghost predicate StillInTime(vs: seq<View>, m: Mod) {
    && (forall e :: EventIn(e, Live(m.q)) && e.Start? ==> InTime(vs, e.requester, e.id))
    && (forall f <- m.fib :: !m.fib[f].done ==> InTime(vs, m.fib[f].replyTo, m.fib[f].replyId))
  }

  lemma StartGrows(vs: seq<View>, vs': seq<View>, ext: map<nat, ExtIssue>, ext': map<nat, ExtIssue>, t: nat, e: Event)
    requires Grows(vs, vs', ext, ext') && e.Start? && StartOk(vs, ext, t, e)
    ensures StartOk(vs', ext', t, e)
  {
    if e.requester != EXTERNAL {
      assert ViewGrows(vs[e.requester], vs'[e.requester]);
    }
  }

  lemma ReplyGrows(vs: seq<View>, vs': seq<View>, ext: map<nat, ExtIssue>, ext': map<nat, ExtIssue>, t: nat, e: Event)
    requires Grows(vs, vs', ext, ext') && e.Reply? && ReplyOk(vs, t, e)
    ensures ReplyOk(vs', t, e)
  {
    assert ViewGrows(vs[e.from], vs'[e.from]);
  }

  lemma ModuleGrows(vs: seq<View>, vs': seq<View>, ext: map<nat, ExtIssue>, ext': map<nat, ExtIssue>, t: nat, m: Mod)
    requires ModuleOk(vs, ext, t, m) && Grows(vs, vs', ext, ext') && StillInTime(vs', m)
    ensures ModuleOk(vs', ext', t, m)
  {
    forall e | EventIn(e, Live(m.q)) ensures EventOk(vs', ext', t, e) {
      assert EventOk(vs, ext, t, e);
      if e.Start? {
        StartGrows(vs, vs', ext, ext', t, e);
      } else if e.Reply? {
        ReplyGrows(vs, vs', ext, ext', t, e);
      }
    }
    forall f | f in m.hist.born && m.hist.born[f].Start? ensures StartOk(vs', ext', t, m.hist.born[f]) {
      StartGrows(vs, vs', ext, ext', t, m.hist.born[f]);
    }
    forall id | id in m.hist.first ensures ReplyOk(vs', t, m.hist.first[id]) {
      ReplyGrows(vs, vs', ext, ext', t, m.hist.first[id]);
    }
  }

  lemma StepGrows(vs: seq<View>, ext: map<nat, ExtIssue>, i: nat, m: Mod, l: Label, m': Mod)
    requires i < |vs| && vs[i] == ViewOf(m) && LocalStep(m, l, m')
    requires Allocates(l) ==> m.next !in m.hist.issues
    requires forall f <- m.hist.born :: f < m.hist.nextFid
    ensures Grows(vs, vs[i := ViewOf(m')], ext, ext)
  {}

  /** The stepping module itself, against the histories after the step. */
  lemma ModuleSteps(vs: seq<View>, ext: map<nat, ExtIssue>, t: nat, m: Mod, l: Label, m': Mod)
    requires ModuleOk(vs, ext, t, m) && StillInTime(vs, m) && LocalStep(m, l, m')
    ensures m'.cfg.idx == t && QueuesOk(vs, ext, t, m'.q) && BirthsOk(vs, ext, t, m'.hist)
    ensures RolesOk(vs, m'.hist.born, m'.fib) && FirstOk(vs, t, m'.hist)
  {
    forall f | f in m'.hist.born
      ensures f < m'.hist.nextFid && !m'.hist.born[f].Reply?
      ensures m'.hist.born[f].Start? ==> StartOk(vs, ext, t, m'.hist.born[f])
    {
      if f in m.hist.born {
        assert f != m.hist.nextFid;
      } else {
        assert EventOk(vs, ext, t, m'.hist.born[f]);
      }
    }
    forall f | f in m'.fib
      ensures f in m'.hist.born && StartedBy(m'.fib[f], m'.hist.born[f])
      ensures !m'.fib[f].done ==> InTime(vs, m'.fib[f].replyTo, m'.fib[f].replyId)
    {
      if !(f in m.fib && SameRole(m'.fib[f], m.fib[f]) && (m.fib[f].done ==> m'.fib[f].done)) {
        assert EventOk(vs, ext, t, m'.hist.born[f]);
      }
    }
    forall id | id in m'.hist.first ensures ReplyOk(vs, t, m'.hist.first[id]) && m'.hist.first[id].id == id {
      if !(id in m.hist.first && m'.hist.first[id] == m.hist.first[id]) {
        assert EventOk(vs, ext, t, m'.hist.first[id]);
      }
    }
  }

  lemma SentSteps(vs: seq<View>, ext: map<nat, ExtIssue>, t: nat, m: Mod, l: Label, m': Mod)
    requires ModuleOk(vs, ext, t, m) && LocalStep(m, l, m')
    ensures SentOk(m'.hist)
  {
    forall s | s in m'.hist.sent
      ensures s.fid in m'.hist.born && !m'.hist.born[s.fid].Reply?
      ensures m'.hist.born[s.fid].Start? ==>
                s.dest == m'.hist.born[s.fid].requester && s.id == m'.hist.born[s.fid].id
      ensures m'.hist.born[s.fid].Notify? ==> s.dest == EXTERNAL && s.id == 0
    {
      assert s.fid in m.hist.born && s.fid != m.hist.nextFid;
    }
  }

  lemma {:induction false} NoticesOk(vs: seq<View>, ext: map<nat, ExtIssue>, cs: seq<Client>, c: nat, from: int,
                                     msg: Bytes)
    ensures forall p <- Notices(cs, c, from, msg) :: p.ev.Notify? && PostingOk(vs, ext, p)
  {
    if cs != [] {
      NoticesOk(vs, ext, cs[1..], c, from, msg);
    }
  }

  /** What the step posts is covered, against the histories after the step. */
  lemma PostingsOk(vs: seq<View>, ext: map<nat, ExtIssue>, t: nat, m: Mod, l: Label, m': Mod)
    requires t < |vs| && vs[t] == ViewOf(m') && m.cfg.idx == t
    requires Enabled(m, l) && LocalStep(m, l, m') && RolesOk(vs, m'.hist.born, m.fib)
    requires m.current.Some? ==> m.current.value in m.fib && !m.fib[m.current.value].done
    ensures forall p <- Posts(m, l) :: PostingOk(vs, ext, p)
  {
    if l.Act? && l.a.Publish? {
      NoticesOk(vs, ext, m.clients, l.a.category, m.cfg.idx, l.a.msg);
    }
  }

  // ---------------------------------------------------------------- the world's steps

  ghost predicate WorldOk(w: World) {
    Provenance(Views(w.mods), w.mods, w.box.issues) && BoxOk(Views(w.mods), w.box)
  }

  /** The box holds a reply to the call in progress, made by the fiber that call started, and nothing
      when no call is in progress; so does the record of what calls returned. */
  ghost predicate BoxOk(vs: seq<View>, box: Mailbox) {
    && 1 <= box.nextId <= SENTINEL
    && (forall id <- box.issues :: 1 <= id < box.nextId)
    && (box.caller.None? ==> box.waitRid == SENTINEL && box.msg == [])
    && (box.caller.Some? ==>
          && box.waitRid == box.caller.value && box.caller.value in box.issues
          && (box.ready ==>
                MadeFor(vs, box.issues, ExtReturn(box.caller.value, box.result, box.msg, box.from, box.author)))
          && (forall r <- box.returned :: r.id != box.caller.value))
    && (forall r <- box.returned :: r.id in box.issues && MadeFor(vs, box.issues, r))
    && (forall a, b :: 0 <= a < b < |box.returned| ==> box.returned[a].id != box.returned[b].id)
  }

  /** The reply was made, under this id, by a fiber that the external call of this id started. */
  ghost predicate MadeFor(vs: seq<View>, ext: map<nat, ExtIssue>, r: ExtReturn) {
    && r.from < |vs| && Sent(r.author, EXTERNAL, r.id, r.result, r.msg) in vs[r.from].sent
    && r.id in ext && r.author in vs[r.from].born
    && vs[r.from].born[r.author] == Start(ext[r.id].seqIdx, r.id, EXTERNAL, ext[r.id].msg)
    && ext[r.id].target == r.from
  }

  lemma InitialWorldOk(cfgs: seq<Config>)
    requires forall i :: 0 <= i < |cfgs| ==> cfgs[i].idx == i
    ensures WorldOk(InitialWorld(cfgs))
  {
    var w := InitialWorld(cfgs);
    hide Safe, ModuleOk;
    forall t: nat | t < |w.mods| ensures Safe(w.mods[t]) && ModuleOk(Views(w.mods), map[], t, w.mods[t]) {
      InitialSafe(cfgs[t]);
      InitialModuleOk(Views(w.mods), t, cfgs[t]);
    }
  }

  lemma InitialModuleOk(vs: seq<View>, t: nat, cfg: Config)
    requires cfg.idx == t
    ensures ModuleOk(vs, map[], t, Initial(cfg))
  {
    NothingPosted();
    assert Live(Initial(cfg).q) == [];
  }

  lemma PostAllViews(mods: seq<Mod>, ps: seq<Posting>)
    ensures |PostAll(mods, ps)| == |mods| && Views(PostAll(mods, ps)) == Views(mods)
    decreases |ps|
  {
    if ps != [] {
      assert Views(PostTo(mods, ps[0])) == Views(mods);
      PostAllViews(PostTo(mods, ps[0]), ps[1..]);
    }
  }

  /** With no stale request about, everything under way stays in time when a module allocates. */
  lemma KeptInTime(vs: seq<View>, ext: map<nat, ExtIssue>, w: World, i: nat, l: Label, m': Mod, t: nat)
    requires i < |w.mods| == |vs| && t < |w.mods| && vs[i] == ViewOf(w.mods[i]) && ModuleOk(vs, ext, t, w.mods[t])
    requires LocalStep(w.mods[i], l, m') && (Allocates(l) ==> NoneStale(w, i))
    ensures StillInTime(vs[i := ViewOf(m')], w.mods[t])
  {
    var vs' := vs[i := ViewOf(m')];
    var m := w.mods[t];
    forall e | EventIn(e, Live(m.q)) && e.Start? ensures InTime(vs', e.requester, e.id) {
      assert EventOk(vs, ext, t, e);
      var k :| 0 <= k < |Live(m.q)| && Live(m.q)[k].ev == e;
      assert Live(m.q)[k] in Live(m.q);
    }
  }

  /** What a step of a module in a safe state amounts to. */
  lemma StepSummary(m: Mod, l: Label, m': Mod)
    requires Safe(m) && Next(m, l, m') && !l.Arrive?
    ensures Safe(m') && LocalStep(m, l, m') && (Allocates(l) ==> m.next !in m.hist.issues)
  {
    SafeStep(m, l, m');
    LocalStepOf(m, l, m');
  }

  lemma InsideModules(vs: seq<View>, w: World, i: nat, l: Label, m': Mod)
    requires Provenance(vs, w.mods, w.box.issues) && i < |w.mods|
    requires Safe(m') && LocalStep(w.mods[i], l, m') && (Allocates(l) ==> NoneStale(w, i))
    requires Allocates(l) ==> w.mods[i].next !in w.mods[i].hist.issues
    ensures Provenance(vs[i := ViewOf(m')], w.mods[i := m'], w.box.issues)
    ensures Grows(vs, vs[i := ViewOf(m')], w.box.issues, w.box.issues)
  {
    var m := w.mods[i];
    var vs' := vs[i := ViewOf(m')];
    var ext := w.box.issues;
    var mods := w.mods[i := m'];
    assert ModuleOk(vs, ext, i, m);
    StepGrows(vs, ext, i, m, l, m');
    forall t: nat | t < |mods| ensures vs'[t] == ViewOf(mods[t]) && Safe(mods[t]) && ModuleOk(vs', ext, t, mods[t]) {
      assert ModuleOk(vs, ext, t, w.mods[t]) && vs[t] == ViewOf(w.mods[t]);
      KeptInTime(vs, ext, w, i, l, m', t);
      ModuleGrows(vs, vs', ext, ext, t, w.mods[t]);
      if t == i {
        ModuleSteps(vs', ext, i, m, l, m');
        SentSteps(vs', ext, i, m, l, m');
      }
    }
  }

  lemma RunnerLive(m: Mod)
    requires Safe(m)
    ensures m.current.Some? ==> m.current.value in m.fib && !m.fib[m.current.value].done
  {
    if m.current.Some? {
      assert FiberOk(m.current.value, m.fib[m.current.value], true, m.pending);
    }
  }

  lemma RolesAfter(vs: seq<View>, ext: map<nat, ExtIssue>, t: nat, m: Mod, l: Label, m': Mod)
    requires ModuleOk(vs, ext, t, m) && LocalStep(m, l, m')
    ensures RolesOk(vs, m'.hist.born, m.fib)
  {
    forall f | f in m.fib
      ensures f in m'.hist.born && StartedBy(m.fib[f], m'.hist.born[f])
      ensures !m.fib[f].done ==> InTime(vs, m.fib[f].replyTo, m.fib[f].replyId)
    {
      assert f != m.hist.nextFid;
    }
  }

  lemma MadeForGrows(vs: seq<View>, vs': seq<View>, ext: map<nat, ExtIssue>, ext': map<nat, ExtIssue>, r: ExtReturn)
    requires Grows(vs, vs', ext, ext') && MadeFor(vs, ext, r)
    ensures MadeFor(vs', ext', r)
  {
    assert ViewGrows(vs[r.from], vs'[r.from]);
  }

  lemma BoxGrows(vs: seq<View>, vs': seq<View>, box: Mailbox)
    requires Grows(vs, vs', box.issues, box.issues) && BoxOk(vs, box)
    ensures BoxOk(vs', box)
  {
    forall r | MadeFor(vs, box.issues, r) ensures MadeFor(vs', box.issues, r) {
      MadeForGrows(vs, vs', box.issues, box.issues, r);
    }
  }

  /** A reply to the outside gets into the box exactly if it answers the call in progress: replies to
      other calls, to no call any more, and from notify handlers leave it alone. */
  lemma BoxFillsIff(vs: seq<View>, box: Mailbox, i: nat, m: Mod, l: Label)
    requires BoxOk(vs, box) && ModuleOk(vs, box.issues, i, m)
    ensures BoxAfter(box, i, m, l) ==
            if l.Act? && l.a.Answer? && m.current.Some? && m.current.value in m.fib
               && m.fib[m.current.value].replyTo == EXTERNAL && !m.fib[m.current.value].handler
               && box.caller == Some(m.fib[m.current.value].replyId)
            then box.(result := l.a.result, msg := l.a.msg, ready := true, from := i, author := m.current.value)
            else box
  {
    if l.Act? && l.a.Answer? && m.current.Some? && m.current.value in m.fib {
      var fb := m.fib[m.current.value];
      assert StartedBy(fb, m.hist.born[m.current.value]);
      if !fb.handler && fb.replyTo == EXTERNAL {
        assert StartOk(vs, box.issues, i, m.hist.born[m.current.value]);
        assert Wire(fb.replyId) == fb.replyId;
      }
    }
  }

  lemma InsideBox(vs: seq<View>, vs': seq<View>, box: Mailbox, i: nat, m: Mod, l: Label, m': Mod)
    requires BoxOk(vs, box) && ModuleOk(vs, box.issues, i, m) && i < |vs| && LocalStep(m, l, m')
    requires vs' == vs[i := ViewOf(m')] && Grows(vs, vs', box.issues, box.issues) && vs[i] == ViewOf(m)
    ensures BoxOk(vs', BoxAfter(box, i, m, l))
  {
    BoxGrows(vs, vs', box);
    BoxFillsIff(vs, box, i, m, l);
    if BoxAfter(box, i, m, l) != box {
      var f := m.current.value;
      assert StartedBy(m.fib[f], m.hist.born[f]) && StartOk(vs, box.issues, i, m.hist.born[f]);
      assert ViewGrows(vs[i], vs'[i]);
    }
  }

  lemma CallBox(vs: seq<View>, box: Mailbox, t: nat, s: nat, msg: Bytes)
    requires BoxOk(vs, box) && box.nextId < SENTINEL
    ensures BoxOk(vs, Called(box, t, s, msg))
    ensures box.caller.None? ==>
              BoxOk(vs, Called(box, t, s, msg).(waitRid := box.nextId, ready := false, caller := Some(box.nextId)))
  {
    forall r | MadeFor(vs, box.issues, r) ensures MadeFor(vs, Called(box, t, s, msg).issues, r) {
      assert r.id < box.nextId;
    }
  }

  /** Recording a call from outside leaves everything known of the modules true. */
  lemma CallKnown(vs: seq<View>, mods: seq<Mod>, box: Mailbox, t: nat, s: nat, msg: Bytes)
    requires Provenance(vs, mods, box.issues) && BoxOk(vs, box)
    ensures Provenance(vs, mods, Called(box, t, s, msg).issues)
  {
    hide Safe, ModuleOk, ViewOf;
    var ext' := Called(box, t, s, msg).issues;
    assert Grows(vs, vs, box.issues, ext');
    forall k: nat | k < |mods| ensures vs[k] == ViewOf(mods[k]) && Safe(mods[k]) && ModuleOk(vs, ext', k, mods[k]) {
      assert ModuleOk(vs, box.issues, k, mods[k]);
      AlreadyInTime(vs, box.issues, k, mods[k]);
      ModuleGrows(vs, vs, box.issues, ext', k, mods[k]);
    }
  }

  lemma CallPosting(vs: seq<View>, box: Mailbox, t: nat, s: nat, msg: Bytes)
    ensures PostingOk(vs, Called(box, t, s, msg).issues, Posting(t, Start(s, box.nextId, EXTERNAL, msg)))
  {}

  lemma CallModules(vs: seq<View>, mods: seq<Mod>, box: Mailbox, t: nat, s: nat, msg: Bytes)
    requires Provenance(vs, mods, box.issues) && BoxOk(vs, box)
    ensures Provenance(vs, PostTo(mods, Posting(t, Start(s, box.nextId, EXTERNAL, msg))), Called(box, t, s, msg).issues)
  {
    hide Provenance, BoxOk, PostTo, PostingOk;
    var ext' := Called(box, t, s, msg).issues;
    CallKnown(vs, mods, box, t, s, msg);
    CallPosting(vs, box, t, s, msg);
    var p := Posting(t, Start(s, box.nextId, EXTERNAL, msg));
    assert PostAll(PostTo(mods, p), []) == PostTo(mods, p) && [p][1..] == [];
    PostAllKeeps(vs, mods, ext', [p]);
  }

  lemma CallParts(w: World, t: nat, s: nat, msg: Bytes)
    requires WorldOk(w)
    ensures var ext' := Called(w.box, t, s, msg).issues;
      && Provenance(Views(w.mods), w.mods, ext')
      && PostingOk(Views(w.mods), ext', Posting(t, Start(s, w.box.nextId, EXTERNAL, msg)))
  {
    CallKnown(Views(w.mods), w.mods, w.box, t, s, msg);
  }

  lemma AlreadyInTime(vs: seq<View>, ext: map<nat, ExtIssue>, t: nat, m: Mod)
    requires ModuleOk(vs, ext, t, m)
    ensures StillInTime(vs, m)
  {
    forall e | EventIn(e, Live(m.q)) && e.Start? ensures InTime(vs, e.requester, e.id) {
      assert EventOk(vs, ext, t, e);
    }
  }

  /** The modules after a step, before its postings are delivered, and that these may be. */
  lemma InsidePostings(w: World, i: nat, l: Label)
    requires WorldOk(w) && WorldEnabled(w, Inside(i, l))
    ensures var m' := Step(w.mods[i], l);
      var mods := w.mods[i := m'];
      && Views(mods) == Views(w.mods)[i := ViewOf(m')] && Provenance(Views(mods), mods, w.box.issues)
      && Grows(Views(w.mods), Views(mods), w.box.issues, w.box.issues) && LocalStep(w.mods[i], l, m')
      && forall p <- Posts(w.mods[i], l) :: PostingOk(Views(mods), w.box.issues, p)
  {
    var m, m' := w.mods[i], Step(w.mods[i], l);
    var vs := Views(w.mods);
    var vs' := vs[i := ViewOf(m')];
    var ext := w.box.issues;
    assert vs[i] == ViewOf(m) && ModuleOk(vs, ext, i, m) && Safe(m);
    assert Views(w.mods[i := m']) == vs';
    StepSummary(m, l, m');
    InsideModules(vs, w, i, l, m');
    RunnerLive(m);
    assert RolesOk(vs', m'.hist.born, m.fib) by {
      KeptInTime(vs, ext, w, i, l, m', i);
      ModuleGrows(vs, vs', ext, ext, i, m);
      RolesAfter(vs', ext, i, m, l, m');
    }
    PostingsOk(vs', ext, i, m, l, m');
  }

  lemma InsideOk(w: World, i: nat, l: Label)
    requires WorldOk(w) && WorldEnabled(w, Inside(i, l))
    ensures WorldOk(WorldStep(w, Inside(i, l)))
  {
    var m, m' := w.mods[i], Step(w.mods[i], l);
    InsidePostings(w, i, l);
    assert ModuleOk(Views(w.mods), w.box.issues, i, m);
    InsideBox(Views(w.mods), Views(w.mods[i := m']), w.box, i, m, l, m');
    InsidePosts(Views(w.mods[i := m']), w.mods[i := m'], w.box.issues, Posts(m, l));
  }

  lemma InsidePosts(vs: seq<View>, mods: seq<Mod>, ext: map<nat, ExtIssue>, ps: seq<Posting>)
    requires Provenance(vs, mods, ext) && forall p <- ps :: PostingOk(vs, ext, p)
    ensures Provenance(vs, PostAll(mods, ps), ext) && Views(PostAll(mods, ps)) == vs
  {
    PostAllKeeps(vs, mods, ext, ps);
    assert Views(PostAll(mods, ps)) == vs;
  }

  lemma ReturnBox(vs: seq<View>, w: World)
    requires BoxOk(vs, w.box) && WorldEnabled(w, ReturnSync)
    ensures BoxOk(vs, WorldStep(w, ReturnSync).box) && WorldStep(w, ReturnSync).mods == w.mods
    ensures WorldStep(w, ReturnSync).box.issues == w.box.issues
  {}

  lemma WorldStepOk(w: World, l: WorldLabel)
    requires WorldOk(w) && WorldEnabled(w, l)
    ensures WorldOk(WorldStep(w, l))
  {
    hide Provenance, BoxOk;
    var vs := Views(w.mods);
    match l
    case Inside(i, ml) => InsideOk(w, i, ml);
    case CallSync(t, s, msg) =>
      CallBox(vs, w.box, t, s, msg);
      CallModules(vs, w.mods, w.box, t, s, msg);
      assert Views(WorldStep(w, l).mods) == vs;
    case ReturnSync => ReturnBox(vs, w);
    case CallAsync(t, s, msg) =>
      CallBox(vs, w.box, t, s, msg);
      CallModules(vs, w.mods, w.box, t, s, msg);
      assert Views(WorldStep(w, l).mods) == vs;
  }

  // ---------------------------------------------------------------- whole runs of the instance

  ghost predicate WorldNext(w: World, l: WorldLabel, w': World) {
    WorldEnabled(w, l) && w' == WorldStep(w, l)
  }

  ghost predicate WorldRun(cfgs: seq<Config>, ws: seq<World>, ls: seq<WorldLabel>) {
    && |ws| == |ls| + 1 && ws[0] == InitialWorld(cfgs)
    && (forall i :: 0 <= i < |cfgs| ==> cfgs[i].idx == i)
    && forall k {:trigger ls[k]} :: 0 <= k < |ls| ==> WorldNext(ws[k], ls[k], ws[k + 1])
  }

  lemma {:induction false} WorldSafe(cfgs: seq<Config>, ws: seq<World>, ls: seq<WorldLabel>, k: nat)
    requires WorldRun(cfgs, ws, ls) && k < |ws|
    ensures WorldOk(ws[k])
  {
    if k == 0 {
      InitialWorldOk(cfgs);
    } else {
      WorldSafe(cfgs, ws, ls, k - 1);
      assert WorldNext(ws[k - 1], ls[k - 1], ws[k]);
      WorldStepOk(ws[k - 1], ls[k - 1]);
    }
  }

  /** Reply provenance, in every run of an instance. A reply that a waiting call returned in module `i` is
      under an id that `i` issued there; it was made by a fiber of the module the request went to, and the
      event that started that fiber is the START this request posted, with its sequence and payload. */
  lemma ReplyProvenance(cfgs: seq<Config>, ws: seq<World>, ls: seq<WorldLabel>, k: nat, i: nat, c: Completion)
    requires WorldRun(cfgs, ws, ls) && k < |ws| && i < |ws[k].mods|
    requires c in ws[k].mods[i].hist.completions && c.src.id !in ws[k].mods[i].hist.timedOut
    ensures c.src.id in ws[k].mods[i].hist.issues && c.src.id in ws[k].mods[i].hist.first
    ensures var w := ws[k];
      var issue := w.mods[i].hist.issues[c.src.id];
      var e := w.mods[i].hist.first[c.src.id];
      && issue.fid == c.fid && issue.kind == c.kind != OneWay
      && e.Reply? && SeenAs(c.src) == ArrivalOf(e) && e.from == issue.target < |w.mods|
      && Sent(e.author, i, e.id, e.result, e.msg) in w.mods[issue.target].hist.sent
      && e.author in w.mods[issue.target].hist.born
      && w.mods[issue.target].hist.born[e.author] == Start(issue.seqIdx, c.src.id, i, issue.msg)
  {
    WorldSafe(cfgs, ws, ls, k);
    var w := ws[k];
    var vs := Views(w.mods);
    assert Safe(w.mods[i]) && ModuleOk(vs, w.box.issues, i, w.mods[i]) && vs[i] == ViewOf(w.mods[i]);
    var e := w.mods[i].hist.first[c.src.id];
    assert ReplyOk(vs, i, e);
    assert ModuleOk(vs, w.box.issues, e.from, w.mods[e.from]) && vs[e.from] == ViewOf(w.mods[e.from]);
    assert StartOk(vs, w.box.issues, e.from, w.mods[e.from].hist.born[e.author]);
  }

  /** `request_sync` returns only a reply that a fiber started for that very call made under its id; each
      call returns at most once, and between calls the box is empty. */
  lemma SyncProvenance(cfgs: seq<Config>, ws: seq<World>, ls: seq<WorldLabel>, k: nat)
    requires WorldRun(cfgs, ws, ls) && k < |ws|
    ensures var w := ws[k];
      && (forall r <- w.box.returned ::
            && r.from < |w.mods| && Sent(r.author, EXTERNAL, r.id, r.result, r.msg) in w.mods[r.from].hist.sent
            && r.id in w.box.issues && w.box.issues[r.id].target == r.from && r.author in w.mods[r.from].hist.born
            && w.mods[r.from].hist.born[r.author]
               == Start(w.box.issues[r.id].seqIdx, r.id, EXTERNAL, w.box.issues[r.id].msg))
      && (forall a, b :: 0 <= a < b < |w.box.returned| ==> w.box.returned[a].id != w.box.returned[b].id)
      && (w.box.caller.None? ==> w.box.waitRid == SENTINEL && w.box.msg == [])
  {
    WorldSafe(cfgs, ws, ls, k);
    var w := ws[k];
    var vs := Views(w.mods);
    forall r | r in w.box.returned ensures MadeFor(vs, w.box.issues, r) && vs[r.from] == ViewOf(w.mods[r.from]) {}
  }
}
