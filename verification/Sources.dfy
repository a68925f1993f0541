/** What `coseq_source` shows to a sequence at any time: the event that started it, until its first waiting call
    returns, and from then on what the last such call returned. */
module Sources {
  import opened Base
  import opened Time
  import opened Pending
  import opened EventQueues
  import opened Machine
  import opened Frames
  import opened Invariant
  import opened Outcomes
  import opened Runs
  import opened Steps
  import opened Turns
  import opened Worlds
  import opened Projection

  /** What the last waiting call of `f` returned. */
  function LastReturn(cs: seq<Completion>, f: nat): Option<Source> {
    if cs == [] then None
    else if cs[|cs| - 1].fid == f then Some(cs[|cs| - 1].src)
    else LastReturn(cs[..|cs| - 1], f)
  }

  predicate LastShown(h: History, f: nat, src: Source) {
    match LastReturn(h.completions, f)
    case None => f in h.born && Introduces(h.born[f], src)
    case Some(s) => src == s
  }

  /** The fiber has been resumed in a waiting call and has not yet come back from it. */
  predicate ComingBack(m: Mod, f: nat) {
    m.current == Some(f) && f in m.fib && (m.fib[f].point == AtRequest || m.fib[f].point == AtWait)
  }

  /** The index of the sequence that an event starts; the handler of notices counts as the first. */
  function SeqOf(e: Event): nat {
    match e
    case Start(s, _, _, _) => s
    case _ => 0
  }

  /** The source names the fiber's own sequence and no client. */
  predicate OwnFields(src: Source, seqIdx: nat) {
    src.seqIdx == seqIdx && src.client == 0
  }

  ghost predicate FiberSource(m: Mod, f: nat)
    requires f in m.fib
  {
    && f in m.hist.born && f < m.hist.nextFid && StartedBy(m.fib[f], m.hist.born[f])
    && if ComingBack(m, f) then OwnFields(m.fib[f].src, m.fib[f].seqIdx) else LastShown(m.hist, f, m.fib[f].src)
  }

  ghost predicate ReturnFields(h: History) {
    forall c <- h.completions ::
      c.fid in h.born && c.fid < h.nextFid && OwnFields(c.src, SeqOf(h.born[c.fid]))
  }

  ghost predicate SourcesOk(m: Mod) {
    Safe(m) && ReturnFields(m.hist) && forall f <- m.fib :: FiberSource(m, f)
  }

  lemma {:induction false} NotReturned(cs: seq<Completion>, f: nat)
    requires forall c <- cs :: c.fid != f
    ensures LastReturn(cs, f) == None
  {
    if cs != [] {
      NotReturned(cs[..|cs| - 1], f);
    }
  }

  lemma ReturnMore(cs: seq<Completion>, c: Completion, f: nat)
    ensures LastReturn(cs + [c], f) == if c.fid == f then Some(c.src) else LastReturn(cs, f)
  {
    assert (cs + [c])[..|cs|] == cs;
  }

  /** The histories that sources depend on are as before. */
  predicate SameReturns(m: Mod, m': Mod) {
    && m'.hist.completions == m.hist.completions && m'.hist.born == m.hist.born && m'.hist.nextFid == m.hist.nextFid
  }

  /** A fiber keeps its role and its source where nothing is returned and it does not come back from a call. */
  predicate SourceKept(m: Mod, m': Mod, f: nat) {
    && f in m.fib && f in m'.fib && SameRole(m'.fib[f], m.fib[f])
    && (ComingBack(m', f) ==>
          OwnFields(m'.fib[f].src, m.fib[f].seqIdx) || (ComingBack(m, f) && m'.fib[f].src == m.fib[f].src))
    && (!ComingBack(m', f) ==> !ComingBack(m, f) && m'.fib[f].src == m.fib[f].src)
  }

  lemma KeptAll(m: Mod, m': Mod)
    requires SourcesOk(m) && Safe(m') && SameReturns(m, m') && forall f <- m'.fib :: SourceKept(m, m', f)
    ensures SourcesOk(m')
  {
    hide Safe;
    forall f | f in m'.fib ensures FiberSource(m', f) {
      assert SourceKept(m, m', f) && FiberSource(m, f);
    }
  }

  // ---------------------------------------------------------------- the scheduler's steps

  lemma StartSources(m: Mod, m': Mod, e: Event)
    requires SourcesOk(m) && Safe(m') && m.current.None? && Starts(m, m', e)
    ensures SourcesOk(m')
  {
    hide Safe;
    var f := m.hist.nextFid;
    NotReturned(m.hist.completions, f);
    forall g | g in m'.fib ensures FiberSource(m', g) {
      if g != f {
        assert FiberSource(m, g);
      }
    }
  }

  lemma ReplySources(m: Mod, m': Mod, f: nat, e: Event)
    requires SourcesOk(m) && Safe(m') && m.current.None? && e.Reply? && Reaches(m, m', f, e) && SameReturns(m, m')
    requires f in m.fib && (m.fib[f].waitingReply ==> m.fib[f].point == AtRequest)
    requires m.fib[f].waitingAny ==> m.fib[f].point == AtWait
    ensures SourcesOk(m')
  {
    hide Safe;
    KeptAll(m, m');
  }

  lemma WaitPoint(m: Mod, f: nat)
    requires Safe(m) && m.current.None? && f in m.fib
    ensures m.fib[f].waitingReply ==> m.fib[f].point == AtRequest
    ensures m.fib[f].waitingAny ==> m.fib[f].point == AtWait
    ensures m.fib[f].waitingTimer ==>
      (m.fib[f].waitingReply <==> m.fib[f].point == AtRequest) && m.fib[f].point != AtWait
  {
    assert FiberOk(f, m.fib[f], false, m.pending);
  }

  lemma ReplyReturns(m: Mod)
    requires m.q.batch != [] && m.q.batch[0].ev.Reply? && forall p <- m.pending :: p.fid in m.fib
    ensures SameReturns(m, DoEventTurn(m))
  {
    hide DoEventTurn, HandleReply;
    EventCases(m);
    ReplyFrame(m.(q := Consume(m.q)), m.q.batch[0].ev);
  }

  lemma EventSources(m: Mod, m': Mod)
    requires SourcesOk(m) && Safe(m') && Next(m, EventTurn, m')
    ensures SourcesOk(m')
  {
    hide Safe, Starts, Reaches, DoEventTurn, SourcesOk, Inv, HistoryInv;
    SafeOf(m, 0);
    SafeInv(m);
    EventTurnIs(m, m');
    if m.q.batch != [] && m.q.batch[0].ev.Reply? {
      ReplyReturns(m);
      var e := m.q.batch[0].ev;
      if f: nat :| For(m, e, f) && !(m.locked.Some? && !For(m, e, m.locked.value)) {
        assert Reaches(m, m', f, e);
        ForFiber(m, e, f);
        WaitPoint(m, f);
        ReplySources(m, m', f, e);
      } else {
        KeptAll(m, m');
      }
    } else if m.q.batch != [] && m'.hist.nextFid != m.hist.nextFid {
      StartSources(m, m', m.q.batch[0].ev);
    } else {
      NothingStarted(m, m');
      KeptAll(m, m');
    }
  }

  lemma ForFiber(m: Mod, e: Event, f: nat)
    requires Sound(m) && e.Reply? && For(m, e, f)
    ensures f in m.fib
  {}

  lemma NothingStarted(m: Mod, m': Mod)
    requires Safe(m) && Next(m, EventTurn, m') && m'.hist.nextFid == m.hist.nextFid
    requires m.q.batch == [] || !m.q.batch[0].ev.Reply?
    ensures m'.fib == m.fib && m'.hist == m.hist && m'.current == m.current
  {
    EventTurnIs(m, m');
  }

  lemma TimerSources(m: Mod, m': Mod)
    requires SourcesOk(m) && Safe(m') && Next(m, TimerTurn, m')
    ensures SourcesOk(m')
  {
    hide Safe, DoTimerTurn, SourcesOk, Inv, HistoryInv;
    SafeOf(m, 0);
    SafeInv(m);
    TimerTurnIs(m, m');
    if m.pc.todo != [] {
      TimerFrame(m);
      WaitPoint(m, m.pc.todo[0]);
    }
    KeptAll(m, m');
  }

  lemma ReapSources(m: Mod, m': Mod)
    requires SourcesOk(m) && Safe(m') && Next(m, Label.Reap, m')
    ensures SourcesOk(m')
  {
    hide Safe, Precedes;
    SafeInv(m);
    ReapIs(m, m');
    NobodyRuns(m);
    KeptAll(m, m');
  }

  lemma NobodyRuns(m: Mod)
    requires Safe(m) && m.pc.Reaping?
    ensures m.current.None?
  {}

  // ---------------------------------------------------------------- the fiber's steps

  /** The fiber comes back from a waiting call with what it was resumed with, and from a delay with nothing new. */
  lemma ContinueShows(m: Mod)
    requires m.current.Some? && m.current.value in m.fib
    ensures var f, r := m.current.value, DoContinue(m);
      && r.current == m.current && f in r.fib && r.fib[f].src == m.fib[f].src && r.fib[f].point == AtUser
      && r.hist.completions
         == if ComingBack(m, f)
            then m.hist.completions
                 + [Completion(f, if m.fib[f].point == AtRequest then Blocking else Async, m.fib[f].src)]
            else m.hist.completions
  {
    ContinueIs(m);
  }

  /** A queued reply is shown with no module's index, and so returned. */
  lemma WaitShows(m: Mod)
    requires m.current.Some? && m.current.value in m.fib && m.fib[m.current.value].point == AtUser
    ensures var f, r := m.current.value, DoWaitReply(m);
      && f in r.fib && !ComingBack(r, f)
      && if m.fib[f].rq != [] then
           var a := m.fib[f].rq[0];
           && r.fib[f].src == Source(0, m.fib[f].seqIdx, a.id, a.result, 0, a.msg)
           && r.hist.completions == m.hist.completions + [Completion(f, Async, r.fib[f].src)]
         else r.fib[f].src == m.fib[f].src && r.hist.completions == m.hist.completions
  {
    if m.fib[m.current.value].rq != [] {
      PopShows(m);
    }
  }

  lemma PopShows(m: Mod)
    requires m.current.Some? && m.current.value in m.fib && m.fib[m.current.value].rq != []
    ensures var f, r := m.current.value, DoWaitReply(m);
      var a := m.fib[f].rq[0];
      && f in r.fib && r.fib[f].point == m.fib[f].point
      && r.fib[f].src == Source(0, m.fib[f].seqIdx, a.id, a.result, 0, a.msg)
      && r.hist.completions == m.hist.completions + [Completion(f, Async, r.fib[f].src)]
  {
    hide Complete;
    var f, fb := m.current.value, m.fib[m.current.value];
    var src := Source(0, fb.seqIdx, fb.rq[0].id, fb.rq[0].result, 0, fb.rq[0].msg);
    CompleteIs(Put(m, f, WithPopped(fb, src)), Async, src);
  }

  lemma CompleteIs(m: Mod, kind: Kind, src: Source)
    requires m.current.Some?
    ensures var r := Complete(m, kind, src);
      && r == m.(hist := r.hist)
      && r.hist.completions == m.hist.completions + [Completion(m.current.value, kind, src)]
  {
    hide SetStage;
  }

  lemma OtherShows(m: Mod, a: Action)
    requires m.current.Some? && m.current.value in m.fib && m.fib[m.current.value].point == AtUser
    requires !a.Continue? && !a.WaitReply?
    ensures var f, r := m.current.value, DoAct(m, a);
      && f in r.fib && !ComingBack(r, f) && r.fib[f].src == m.fib[f].src && r.hist.completions == m.hist.completions
  {
    hide DoAct;
    if a.Request? || a.RequestAsync? || a.Send? {
      IssueShows(m, a);
    } else {
      PlainShows(m, a);
    }
  }

  lemma IssueShows(m: Mod, a: Action)
    requires m.current.Some? && m.current.value in m.fib && m.fib[m.current.value].point == AtUser
    requires a.Request? || a.RequestAsync? || a.Send?
    ensures var f, r := m.current.value, DoAct(m, a);
      && f in r.fib && !ComingBack(r, f) && r.fib[f].src == m.fib[f].src && r.hist.completions == m.hist.completions
  {
    hide AddMs;
  }

  lemma PlainShows(m: Mod, a: Action)
    requires m.current.Some? && m.current.value in m.fib && m.fib[m.current.value].point == AtUser
    requires !a.Continue? && !a.WaitReply? && !a.Request? && !a.RequestAsync? && !a.Send?
    ensures var f, r := m.current.value, DoAct(m, a);
      && f in r.fib && !ComingBack(r, f) && r.fib[f].src == m.fib[f].src && r.hist.completions == m.hist.completions
  {
    hide Removed, DoContinue, DoWaitReply, AddMs;
  }

  lemma AfterReturn(m: Mod, m': Mod, f: nat, c: Completion)
    requires SourcesOk(m) && Safe(m') && m.current == Some(f) && f in m.fib && Runner(m, m')
    requires m'.hist.completions == m.hist.completions + [c] && c.fid == f && c.src == m'.fib[f].src
    requires !ComingBack(m', f) && OwnFields(c.src, m.fib[f].seqIdx)
    ensures SourcesOk(m')
  {
    hide Safe;
    assert FiberSource(m, f);
    forall g | g in m'.fib ensures FiberSource(m', g) {
      ReturnMore(m.hist.completions, c, g);
      assert FiberSource(m, g);
    }
  }

  lemma RunnerKept(m: Mod, m': Mod, f: nat)
    requires SourcesOk(m) && Safe(m') && m.current == Some(f) && f in m.fib && Runner(m, m')
    requires m'.hist.completions == m.hist.completions && m'.fib[f].src == m.fib[f].src
    requires !ComingBack(m, f) && !ComingBack(m', f)
    ensures SourcesOk(m')
  {
    hide Safe;
    KeptAll(m, m');
  }

  lemma ActSources(m: Mod, a: Action, m': Mod)
    requires SourcesOk(m) && Safe(m') && Next(m, Act(a), m')
    ensures SourcesOk(m')
  {
    hide Safe, DoAct, DoContinue, DoWaitReply, SourcesOk, Runner, OwnFields;
    var f := m.current.value;
    ActFrame(m, a);
    SafeOf(m, f);
    if a.Continue? {
      ActIs(m, a);
      ContinueShows(m);
      if ComingBack(m, f) {
        AfterReturn(m, m', f, m'.hist.completions[|m.hist.completions|]);
      } else {
        RunnerKept(m, m', f);
      }
    } else if a.WaitReply? {
      ActIs(m, a);
      WaitShows(m);
      if m.fib[f].rq != [] {
        QueuedFields(m, f);
        AfterReturn(m, m', f, m'.hist.completions[|m.hist.completions|]);
      } else {
        RunnerKept(m, m', f);
      }
    } else {
      OtherShows(m, a);
      RunnerKept(m, m', f);
    }
  }

  lemma QueuedFields(m: Mod, f: nat)
    requires f in m.fib && m.fib[f].rq != []
    ensures var a := m.fib[f].rq[0];
      OwnFields(Source(0, m.fib[f].seqIdx, a.id, a.result, 0, a.msg), m.fib[f].seqIdx)
  {}

  lemma ActIs(m: Mod, a: Action)
    requires m.current.Some? && m.current.value in m.fib
    ensures a.Continue? ==> DoAct(m, a) == DoContinue(m)
    ensures a.WaitReply? ==> DoAct(m, a) == DoWaitReply(m)
  {}

  lemma SafeOf(m: Mod, f: nat)
    requires SourcesOk(m)
    ensures Safe(m) && (ComingBack(m, f) ==> OwnFields(m.fib[f].src, m.fib[f].seqIdx))
  {
    if ComingBack(m, f) {
      assert FiberSource(m, f);
    }
  }

  // ---------------------------------------------------------------- over whole runs

  lemma SourcesStep(m: Mod, l: Label, m': Mod)
    requires SourcesOk(m) && Next(m, l, m')
    ensures SourcesOk(m')
  {
    hide Safe, DoEventTurn, DoTimerTurn, DoAct, Nearest, Alive, FiberSource, ReturnFields;
    SafeStep(m, l, m');
    match l
    case TimerTurn => TimerSources(m, m');
    case EventTurn => EventSources(m, m');
    case Reap => ReapSources(m, m');
    case Act(a) => ActSources(m, a, m');
    case _ => QuietSources(m, l, m');
  }

  lemma QuietSources(m: Mod, l: Label, m': Mod)
    requires SourcesOk(m) && Safe(m') && Next(m, l, m') && (l.Arrive? || l.AskStop? || l.Enter? || l.Wake?)
    ensures SourcesOk(m')
  {
    hide Safe, Next;
    NobodyTouched(m, l, m');
    KeptAll(m, m');
  }

  lemma NobodyTouched(m: Mod, l: Label, m': Mod)
    requires Next(m, l, m') && (l.Arrive? || l.AskStop? || l.Enter? || l.Wake?)
    ensures m'.fib == m.fib && m'.hist == m.hist && m'.current == m.current
  {
    hide Nearest;
  }

  lemma SourcesInRuns(cfg: Config, ms: seq<Mod>, ls: seq<Label>, i: nat)
    requires RunFrom(cfg, ms, ls) && i < |ms|
    ensures SourcesOk(ms[i])
  {
    hide Safe, Next, FiberSource, ReturnFields;
    forall m, l, m' | SourcesOk(m) && Next(m, l, m') ensures SourcesOk(m') {
      SourcesStep(m, l, m');
    }
    InitialSources(cfg);
    Invariance(ms, ls, SourcesOk, (m, l) => true, 0, i);
  }

  lemma InitialSources(cfg: Config)
    ensures SourcesOk(Initial(cfg))
  {
    hide Safe;
    InitialSafe(cfg);
  }

  /** In every run and for every fiber that is not just coming back from a call: its source is what its last
      waiting call returned and, before the first has returned, the event that started it, in all its fields. */
  lemma SourceShown(cfg: Config, ms: seq<Mod>, ls: seq<Label>, i: nat, f: nat)
    requires RunFrom(cfg, ms, ls) && i < |ms| && f in ms[i].fib && !ComingBack(ms[i], f)
    ensures f in ms[i].hist.born && StartedBy(ms[i].fib[f], ms[i].hist.born[f])
    ensures match LastReturn(ms[i].hist.completions, f)
            case None => Introduces(ms[i].hist.born[f], ms[i].fib[f].src)
            case Some(s) => ms[i].fib[f].src == s
  {
    hide Next;
    SourcesInRuns(cfg, ms, ls, i);
    assert FiberSource(ms[i], f);
  }

  /** In every run each return of a waiting call, however it came about, shows the caller's own sequence and no
      client. */
  lemma ReturnShown(cfg: Config, ms: seq<Mod>, ls: seq<Label>, i: nat, c: Completion)
    requires RunFrom(cfg, ms, ls) && i < |ms| && c in ms[i].hist.completions
    ensures c.fid in ms[i].hist.born && c.src.seqIdx == SeqOf(ms[i].hist.born[c.fid]) && c.src.client == 0
  {
    hide Next;
    SourcesInRuns(cfg, ms, ls, i);
    assert OwnFields(c.src, SeqOf(ms[i].hist.born[c.fid]));
  }

  /** What a sequence reads, in every run of an instance: until its first waiting call returns it is shown the
      request that started it, with the message that its requester issued to this module and sequence
      under that id. */
  lemma RequestRead(cfgs: seq<Config>, ws: seq<World>, wls: seq<WorldLabel>, k: nat, t: nat, f: nat)
    requires WorldRun(cfgs, ws, wls) && k < |ws| && t < |cfgs| && |ws[k].mods| == |cfgs|
    requires f in ws[k].mods[t].fib && !ws[k].mods[t].fib[f].handler && !ComingBack(ws[k].mods[t], f)
    requires LastReturn(ws[k].mods[t].hist.completions, f) == None
    ensures var w, fb := ws[k], ws[k].mods[t].fib[f];
      && fb.src.thread == fb.replyTo % 256 && fb.src.seqIdx == fb.seqIdx && fb.src.id == fb.replyId
      && fb.src.result == Ignore && fb.src.client == 0
      && if fb.replyTo == EXTERNAL then
           fb.replyId in w.box.issues && w.box.issues[fb.replyId] == ExtIssue(t, fb.seqIdx, fb.src.msg)
         else
           && 0 <= fb.replyTo < |w.mods| && fb.replyId in w.mods[fb.replyTo].hist.issues
           && var issue := w.mods[fb.replyTo].hist.issues[fb.replyId];
              issue.target == t && issue.seqIdx == fb.seqIdx && issue.msg == fb.src.msg
  {
    hide Next, WorldRun;
    var ms, ls := ModuleRuns(cfgs, ws, wls, t, k);
    var m := ws[k].mods[t];
    SourceShown(cfgs[t], ms, ls, |ms| - 1, f);
    WorldSafe(cfgs, ws, wls, k);
    BornRightly(ws[k], t, f);
  }

  lemma BornRightly(w: World, t: nat, f: nat)
    requires WorldOk(w) && t < |w.mods| && f in w.mods[t].hist.born && w.mods[t].hist.born[f].Start?
    ensures var Start(s, id, r, msg) := w.mods[t].hist.born[f];
      if r == EXTERNAL then id in w.box.issues && w.box.issues[id] == ExtIssue(t, s, msg)
      else
        && 0 <= r < |w.mods| && id in w.mods[r].hist.issues
        && var issue := w.mods[r].hist.issues[id]; issue.target == t && issue.seqIdx == s && issue.msg == msg
  {
    var vs := Views(w.mods);
    assert ModuleOk(vs, w.box.issues, t, w.mods[t]);
    assert StartOk(vs, w.box.issues, t, w.mods[t].hist.born[f]);
  }
}
