/** One pass of the scheduler loop over a module object, from the taken inbox to the reaped list, under
    any fiber programs: it does what a run of the machine does and posts what that run posts. */
module Pass {
  import opened Base
  import opened Time
  import opened Pending
  import opened EventQueues
  import opened Machine
  import opened Invariant
  import opened Outcomes
  import opened Runs
  import opened Returning
  import opened Scheduler

  // ---------------------------------------------------------------- what a pass should do

  /** `acts` is what a program may do from the moment its fiber has control until it gives it back. */
  ghost predicate SegmentOk(m: Mod, acts: seq<Action>)
    decreases |acts|
  {
    if acts == [] then m.current.None?
    else m.current.Some? && m.current.value in m.fib && MayAct(m, acts[0]) && SegmentOk(DoAct(m, acts[0]), acts[1..])
  }

  ghost function AfterSegment(m: Mod, acts: seq<Action>): Mod
    requires SegmentOk(m, acts)
    decreases |acts|
  {
    if acts == [] then m else AfterSegment(DoAct(m, acts[0]), acts[1..])
  }

  ghost function SegmentPosts(m: Mod, acts: seq<Action>): seq<Posting>
    requires SegmentOk(m, acts)
    decreases |acts|
  {
    if acts == [] then [] else Posts(m, Act(acts[0])) + SegmentPosts(DoAct(m, acts[0]), acts[1..])
  }

  ghost predicate Turning(m: Mod) {
    (m.pc.Timers? || m.pc.Events?) && m.current.None? && Sound(m)
  }

  function TurnLabel(m: Mod): Label {
    if m.pc.Timers? then TimerTurn else EventTurn
  }

  /** The state after the scheduler's own part of a turn. */
  ghost function Turned(m: Mod): Mod
    requires Turning(m)
  {
    if m.pc.Timers? then DoTimerTurn(m) else DoEventTurn(m)
  }

  /** The first `k` turns of a pass from `m` can be taken as `plan` says: one segment for each turn of
      both loops, empty where the turn resumes nobody. */
  ghost predicate TurnsOk(m: Mod, plan: seq<seq<Action>>, k: nat)
    requires k <= |plan|
    decreases k, 0
  {
    k == 0 || (TurnsOk(m, plan, k - 1) && TurnOk(AfterTurns(m, plan, k - 1), plan[k - 1]))
  }

  ghost predicate TurnOk(m: Mod, acts: seq<Action>) {
    Turning(m) && SegmentOk(Turned(m), acts)
  }

  ghost function AfterTurn(m: Mod, acts: seq<Action>): Mod
    requires TurnOk(m, acts)
  {
    AfterSegment(Turned(m), acts)
  }

  ghost function PostsOfTurn(m: Mod, acts: seq<Action>): seq<Posting>
    requires TurnOk(m, acts)
  {
    SegmentPosts(Turned(m), acts)
  }

  ghost function AfterTurns(m: Mod, plan: seq<seq<Action>>, k: nat): Mod
    requires k <= |plan| && TurnsOk(m, plan, k)
    decreases k, 1
  {
    if k == 0 then m else AfterTurn(AfterTurns(m, plan, k - 1), plan[k - 1])
  }

  ghost function TurnPosts(m: Mod, plan: seq<seq<Action>>, k: nat): seq<Posting>
    requires k <= |plan| && TurnsOk(m, plan, k)
  {
    hide TurnOk;
    if k == 0 then []
    else TurnPosts(m, plan, k - 1) + PostsOfTurn(AfterTurns(m, plan, k - 1), plan[k - 1])
  }

  /** `plan` is a plan for both loops, to their end. */
  ghost predicate PassOk(m: Mod, plan: seq<seq<Action>>) {
    TurnsOk(m, plan, |plan|) && AfterTurns(m, plan, |plan|).pc.Reaping?
  }

  lemma {:induction false} TurnAt(m: Mod, plan: seq<seq<Action>>, k: nat)
    requires k <= |plan| && PassOk(m, plan)
    ensures TurnsOk(m, plan, k)
    ensures if k == |plan| then AfterTurns(m, plan, k).pc.Reaping?
            else TurnOk(AfterTurns(m, plan, k), plan[k]) && TurnsOk(m, plan, k + 1)
    decreases |plan| - k
  {
    hide TurnOk, AfterTurn;
    if k < |plan| {
      TurnAt(m, plan, k + 1);
    }
  }

  // ---------------------------------------------------------------- a pass is a run

  /** `ls` leads from `m` to `n`. */
  ghost predicate Leads(m: Mod, ls: seq<Label>, n: Mod)
    decreases |ls|
  {
    if ls == [] then m == n else Sound(m) && Enabled(m, ls[0]) && Leads(Step(m, ls[0]), ls[1..], n)
  }

  lemma {:induction false} LeadsOn(m: Mod, ls: seq<Label>, n: Mod, ls': seq<Label>, n': Mod)
    requires Leads(m, ls, n) && Leads(n, ls', n')
    ensures Leads(m, ls + ls', n')
    decreases |ls|
  {
    hide Step, Sound, Enabled;
    if ls == [] {
      assert ls + ls' == ls';
    } else {
      LeadsOn(Step(m, ls[0]), ls[1..], n, ls', n');
      assert (ls + ls')[1..] == ls[1..] + ls';
    }
  }

  lemma {:induction false} LeadsIsRun(m: Mod, ls: seq<Label>, n: Mod) returns (ms: seq<Mod>)
    requires Leads(m, ls, n)
    ensures IsRun(ms, ls) && ms[0] == m && ms[|ls|] == n
    decreases |ls|
  {
    if ls == [] {
      ms := [m];
    } else {
      var rest := LeadsIsRun(Step(m, ls[0]), ls[1..], n);
      ms := [m] + rest;
      forall i {:trigger ls[i]} | 0 <= i < |ls| ensures Next(ms[i], ls[i], ms[i + 1]) {
        if i > 0 {
          assert ls[1..][i - 1] == ls[i] && ms[i] == rest[i - 1] && ms[i + 1] == rest[i];
        }
      }
    }
  }

  lemma LeadsNowhere(m: Mod)
    ensures Leads(m, [], m)
  {}

  lemma LeadsFrom(m: Mod, l: Label, n: Mod, ls: seq<Label>, n': Mod)
    requires Next(m, l, n) && Leads(n, ls, n')
    ensures Leads(m, [l] + ls, n')
  {
    hide Step, Sound, Enabled;
    assert ([l] + ls)[1..] == ls;
  }

  lemma ActNext(m: Mod, a: Action)
    requires Safe(m) && m.current.Some? && m.current.value in m.fib && MayAct(m, a)
    ensures Next(m, Act(a), DoAct(m, a)) && Safe(DoAct(m, a))
  {
    InvSound(m);
    SafeStep(m, Act(a), DoAct(m, a));
  }

  lemma TurnNext(m: Mod)
    requires Safe(m) && Turning(m)
    ensures Next(m, TurnLabel(m), Turned(m)) && Safe(Turned(m))
  {
    SafeStep(m, TurnLabel(m), Turned(m));
  }

  function Acts(acts: seq<Action>): seq<Label> {
    if acts == [] then [] else [Act(acts[0])] + Acts(acts[1..])
  }

  lemma {:induction false} SegmentLeads(m: Mod, acts: seq<Action>)
    requires Safe(m) && SegmentOk(m, acts)
    ensures Leads(m, Acts(acts), AfterSegment(m, acts)) && Safe(AfterSegment(m, acts))
    ensures AfterSegment(m, acts).current.None?
    decreases |acts|
  {
    if acts != [] {
      var n := DoAct(m, acts[0]);
      ActNext(m, acts[0]);
      SegmentLeads(n, acts[1..]);
      LeadsFrom(m, Act(acts[0]), n, Acts(acts[1..]), AfterSegment(m, acts));
    }
  }

  ghost function TurnLabels(m: Mod, plan: seq<seq<Action>>, k: nat): seq<Label>
    requires k <= |plan| && TurnsOk(m, plan, k)
  {
    if k == 0 then []
    else TurnLabels(m, plan, k - 1) + [TurnLabel(AfterTurns(m, plan, k - 1))] + Acts(plan[k - 1])
  }

  lemma TurnLeads(m: Mod, acts: seq<Action>)
    requires Safe(m) && TurnOk(m, acts)
    ensures Leads(m, [TurnLabel(m)] + Acts(acts), AfterTurn(m, acts)) && Safe(AfterTurn(m, acts))
  {
    TurnNext(m);
    SegmentLeads(Turned(m), acts);
    LeadsFrom(m, TurnLabel(m), Turned(m), Acts(acts), AfterSegment(Turned(m), acts));
  }

  lemma {:induction false} TurnsLead(m: Mod, plan: seq<seq<Action>>, k: nat)
    requires Safe(m) && k <= |plan| && TurnsOk(m, plan, k)
    ensures Leads(m, TurnLabels(m, plan, k), AfterTurns(m, plan, k)) && Safe(AfterTurns(m, plan, k))
  {
    hide Safe, TurnOk, AfterTurn, Leads;
    LeadsNowhere(m);
    if k > 0 {
      var n := AfterTurns(m, plan, k - 1);
      var ls := [TurnLabel(n)] + Acts(plan[k - 1]);
      TurnsLead(m, plan, k - 1);
      TurnLeads(n, plan[k - 1]);
      LeadsOn(m, TurnLabels(m, plan, k - 1), n, ls, AfterTurns(m, plan, k));
      assert TurnLabels(m, plan, k) == TurnLabels(m, plan, k - 1) + ls;
    }
  }

  // ---------------------------------------------------------------- every run of the loops has a plan

  lemma ActNow(m: Mod, ls: seq<Label>, n: Mod)
    requires Leads(m, ls, n) && m.current.Some? && n.current.None? && forall l <- ls :: InLoops(l)
    ensures ls != [] && ls[0].Act? && m.current.value in m.fib && MayAct(m, ls[0].a)
    ensures Leads(DoAct(m, ls[0].a), ls[1..], n)
  {
    assert ls[0] in ls && InLoops(ls[0]);
  }

  lemma NoSegment(m: Mod)
    requires m.current.None?
    ensures SegmentOk(m, []) && AfterSegment(m, []) == m && Acts([]) == []
  {}

  lemma LongerSegment(m: Mod, a: Action, more: seq<Action>)
    requires m.current.Some? && m.current.value in m.fib && MayAct(m, a) && SegmentOk(DoAct(m, a), more)
    ensures SegmentOk(m, [a] + more) && AfterSegment(m, [a] + more) == AfterSegment(DoAct(m, a), more)
    ensures Acts([a] + more) == [Act(a)] + Acts(more)
  {
    hide DoAct, MayAct;
    assert ([a] + more)[1..] == more;
  }

  /** The part of a run in which the running fiber has control. */
  lemma {:induction false} SegmentOf(m: Mod, ls: seq<Label>, n: Mod) returns (acts: seq<Action>, rest: seq<Label>)
    requires Leads(m, ls, n) && n.current.None? && forall l <- ls :: InLoops(l)
    ensures SegmentOk(m, acts) && ls == Acts(acts) + rest && Leads(AfterSegment(m, acts), rest, n)
    ensures AfterSegment(m, acts).current.None?
    decreases |ls|
  {
    hide DoAct, MayAct, Leads, SegmentOk, AfterSegment, Acts;
    if m.current.Some? {
      ActNow(m, ls, n);
      var a := ls[0].a;
      var more;
      more, rest := SegmentOf(DoAct(m, a), ls[1..], n);
      LongerSegment(m, a, more);
      acts := [a] + more;
      assert [Act(a)] + (Acts(more) + rest) == [Act(a)] + Acts(more) + rest;
      assert ls == [ls[0]] + ls[1..];
    } else {
      NoSegment(m);
      acts, rest := [], ls;
    }
  }

  /** What the module's thread does between taking a batch and reaping. */
  predicate InLoops(l: Label) {
    l.TimerTurn? || l.EventTurn? || l.Act?
  }

  lemma {:induction false} LongerPlan(m: Mod, plan: seq<seq<Action>>, acts: seq<Action>, k: nat)
    requires k <= |plan| && TurnsOk(m, plan, k)
    ensures TurnsOk(m, plan + [acts], k) && AfterTurns(m, plan + [acts], k) == AfterTurns(m, plan, k)
    ensures TurnLabels(m, plan + [acts], k) == TurnLabels(m, plan, k)
  {
    if k > 0 {
      LongerPlan(m, plan, acts, k - 1);
    }
  }

  lemma PlanGrows(m: Mod, plan: seq<seq<Action>>, acts: seq<Action>)
    requires TurnsOk(m, plan, |plan|) && TurnOk(AfterTurns(m, plan, |plan|), acts)
    ensures var n := AfterTurns(m, plan, |plan|);
      && TurnsOk(m, plan + [acts], |plan| + 1) && AfterTurns(m, plan + [acts], |plan| + 1) == AfterTurn(n, acts)
      && TurnLabels(m, plan + [acts], |plan| + 1) == TurnLabels(m, plan, |plan|) + [TurnLabel(n)] + Acts(acts)
  {
    hide TurnOk, AfterTurn;
    LongerPlan(m, plan, acts, |plan|);
  }

  lemma TurnOf(m: Mod, ls: seq<Label>, n: Mod) returns (acts: seq<Action>, rest: seq<Label>)
    requires Leads(m, ls, n) && ls != [] && m.current.None? && n.current.None? && forall l <- ls :: InLoops(l)
    ensures TurnOk(m, acts) && ls == [TurnLabel(m)] + Acts(acts) + rest && Leads(AfterTurn(m, acts), rest, n)
    ensures AfterTurn(m, acts).current.None?
  {
    assert ls == [ls[0]] + ls[1..] && InLoops(ls[0]);
    assert Turning(m) && ls[0] == TurnLabel(m) && Step(m, ls[0]) == Turned(m);
    acts, rest := SegmentOf(Turned(m), ls[1..], n);
    assert [TurnLabel(m)] + (Acts(acts) + rest) == [TurnLabel(m)] + Acts(acts) + rest;
  }

  /** `plan` describes the run `ls` from `m` up to the state `at`; `rest` is still to come. */
  ghost predicate Covers(m: Mod, ls: seq<Label>, n: Mod, plan: seq<seq<Action>>, at: Mod, rest: seq<Label>) {
    && TurnsOk(m, plan, |plan|) && at == AfterTurns(m, plan, |plan|) && at.current.None?
    && Leads(at, rest, n) && TurnLabels(m, plan, |plan|) + rest == ls && forall l <- rest :: InLoops(l)
  }

  lemma CoversMore(m: Mod, ls: seq<Label>, n: Mod, plan: seq<seq<Action>>, at: Mod, rest: seq<Label>)
    returns (acts: seq<Action>, more: seq<Label>)
    requires Covers(m, ls, n, plan, at, rest) && rest != [] && n.current.None?
    ensures TurnOk(at, acts) && |more| < |rest| && Covers(m, ls, n, plan + [acts], AfterTurn(at, acts), more)
  {
    hide TurnOk, AfterTurn, Leads;
    acts, more := TurnOf(at, rest, n);
    PlanGrows(m, plan, acts);
    assert TurnLabels(m, plan, |plan|) + ([TurnLabel(at)] + Acts(acts) + more)
        == TurnLabels(m, plan, |plan|) + [TurnLabel(at)] + Acts(acts) + more;
  }

  /** Whatever the fibers do, every run of the machine from a taken batch to the reaper is one that a plan
      describes: the methods below leave out no behaviour of the two loops. */
  lemma RunHasPlan(m: Mod, ls: seq<Label>, n: Mod) returns (plan: seq<seq<Action>>)
    requires Leads(m, ls, n) && m.current.None? && n.current.None? && n.pc.Reaping? && forall l <- ls :: InLoops(l)
    ensures PassOk(m, plan) && AfterTurns(m, plan, |plan|) == n && TurnLabels(m, plan, |plan|) == ls
  {
    plan := [];
    var at, rest := m, ls;
    assert Covers(m, ls, n, plan, at, rest);
    while rest != []
      invariant Covers(m, ls, n, plan, at, rest)
      decreases |rest|
    {
      hide Covers, Leads, TurnOk, AfterTurn;
      var acts, more := CoversMore(m, ls, n, plan, at, rest);
      plan, at, rest := plan + [acts], AfterTurn(at, acts), more;
    }
  }

  lemma {:induction false} SegmentKeeps(m: Mod, acts: seq<Action>)
    requires SegmentOk(m, acts)
    ensures AfterSegment(m, acts).pc == m.pc && AfterSegment(m, acts).q == m.q
    decreases |acts|
  {
    if acts != [] {
      SegmentKeeps(DoAct(m, acts[0]), acts[1..]);
    }
  }

  /** `n` is the state and `out` all that was posted after `k` turns. */
  ghost predicate Midway(m: Mod, plan: seq<seq<Action>>, n: Mod, out: seq<Posting>, k: nat) {
    k <= |plan| && TurnsOk(m, plan, k) && n == AfterTurns(m, plan, k) && out == TurnPosts(m, plan, k)
  }

  lemma OneTurn(m: Mod, plan: seq<seq<Action>>, n: Mod, out: seq<Posting>, k: nat)
    requires PassOk(m, plan) && Midway(m, plan, n, out, k) && !n.pc.Reaping?
    ensures k < |plan| && TurnOk(n, plan[k])
    ensures Midway(m, plan, AfterTurn(n, plan[k]), out + PostsOfTurn(n, plan[k]), k + 1)
  {
    hide TurnOk, AfterTurn, PostsOfTurn;
    TurnAt(m, plan, k);
  }

  /** What the event loop relies on where it starts a fiber, and the reaper where it walks the list. */
  lemma MidwaySafe(m: Mod, plan: seq<seq<Action>>, n: Mod, out: seq<Posting>, k: nat)
    requires Safe(m) && Midway(m, plan, n, out, k)
    ensures n.hist.nextFid !in n.fib && ListOk(n.order, n.fib, n.hist.nextFid)
    ensures n.locked.Some? ==> n.locked.value in n.fib
  {
    TurnsLead(m, plan, k);
    InvSound(n);
  }

  lemma EndPass(m: Mod, plan: seq<seq<Action>>, n: Mod, out: seq<Posting>, k: nat)
    requires PassOk(m, plan) && Midway(m, plan, n, out, k) && n.pc.Reaping?
    ensures n == AfterTurns(m, plan, |plan|) && out == TurnPosts(m, plan, |plan|)
  {
    TurnAt(m, plan, k);
  }

  lemma StartPass(m: Mod, plan: seq<seq<Action>>)
    ensures Midway(m, plan, m, [], 0)
  {}

  /** The turns that end the loops resume nobody. */
  lemma LastTurn(m: Mod, plan: seq<seq<Action>>, n: Mod, out: seq<Posting>, k: nat)
    requires PassOk(m, plan) && Midway(m, plan, n, out, k)
    requires (n.pc.Timers? && n.pc.todo == []) || (n.pc.Events? && n.q.batch == [])
    ensures k < |plan| && Midway(m, plan, n.(pc := if n.pc.Timers? then Events else Reaping), out, k + 1)
  {
    OneTurn(m, plan, n, out, k);
    assert plan[k] == [];
  }

  /** `n` is the state after the pass from `m`, and `out` what it posted. */
  ghost predicate PassDone(m: Mod, plan: seq<seq<Action>>, n: Mod, out: seq<Posting>) {
    && PassOk(m, plan) && var r := AfterTurns(m, plan, |plan|);
    && (forall f <- r.order :: f in r.fib) && (r.locked.Some? ==> r.locked.value in r.fib)
    && n == DoReap(r) && out == TurnPosts(m, plan, |plan|)
  }

  lemma EnterNext(m: Mod, now: Timespec)
    requires Safe(m) && m.pc.Top? && Normal(now)
    ensures (forall f <- m.order :: f in m.fib) && Next(m, Enter(now), DoEnter(m, now)) && Safe(DoEnter(m, now))
  {
    InvSound(m);
    SafeStep(m, Enter(now), DoEnter(m, now));
  }

  lemma WakeNext(m: Mod, now: Timespec)
    requires Safe(m) && m.pc.Sleeping? && Normal(now)
    ensures Next(m, Wake(now), Proceed(m, now)) && Safe(Proceed(m, now))
  {
    InvSound(m);
    SafeStep(m, Wake(now), Proceed(m, now));
  }

  /** A whole round, entered at the top of the loop or after a wait, is up to its reaper a run of the machine:
      the theorems about runs speak of every state in it. It is one to its end if the reaper finds no request
      of a finished fiber in the table; otherwise what follows is not defined. */
  lemma RoundIsRun(m: Mod, l: Label, e: Mod, plan: seq<seq<Action>>, n: Mod, out: seq<Posting>)
    requires Safe(m) && (l.Enter? || l.Wake?) && Next(m, l, e) && PassDone(e, plan, n, out)
    ensures var r := AfterTurns(e, plan, |plan|);
      && Leads(m, [l] + TurnLabels(e, plan, |plan|), r) && Safe(r) && r.pc.Reaping?
      && (NoneDangles(r) ==>
            Leads(m, [l] + TurnLabels(e, plan, |plan|) + [Label.Reap], n) && Safe(n) && n.pc.Top?)
  {
    hide Safe, Next, DoEnter, TurnOk, AfterTurn, TurnPosts, Sound, NoneDangles;
    var r := AfterTurns(e, plan, |plan|);
    var ls := TurnLabels(e, plan, |plan|);
    SafeStep(m, l, e);
    TurnsLead(e, plan, |plan|);
    LeadsFrom(m, l, e, ls, r);
    if NoneDangles(r) {
      ReapNext(r);
      LeadsFrom(r, Label.Reap, n, [], n);
      assert [Label.Reap] + [] == [Label.Reap];
      LeadsOn(m, [l] + ls, r, [Label.Reap], n);
    }
  }

  /** In the run from `m` that `ls` gives sequences return with none of their requests in the table. */
  ghost predicate CleanLeads(m: Mod, ls: seq<Label>)
    decreases |ls|
  {
    ls == [] || (Sound(m) && Enabled(m, ls[0]) && CleanReturn(m, ls[0]) && CleanLeads(Step(m, ls[0]), ls[1..]))
  }

  lemma {:induction false} CleanKeeps(m: Mod, ls: seq<Label>, n: Mod)
    requires Tidy(m) && Leads(m, ls, n) && CleanLeads(m, ls)
    ensures Tidy(n)
    decreases |ls|
  {
    hide Tidy, Step, Sound, Enabled, CleanReturn;
    if ls != [] {
      TidyStep(m, ls[0], Step(m, ls[0]));
      CleanKeeps(Step(m, ls[0]), ls[1..], n);
    }
  }

  lemma EntersTidy(m: Mod, l: Label, e: Mod)
    requires Safe(m) && (l.Enter? || l.Wake?) && Next(m, l, e)
    ensures Tidy(e)
  {
    TidyStep(m, l, e);
  }

  /** So a round in which sequences return with nothing open is a run to its end. */
  lemma CleanRoundIsRun(m: Mod, l: Label, e: Mod, plan: seq<seq<Action>>, n: Mod, out: seq<Posting>)
    requires Safe(m) && (l.Enter? || l.Wake?) && Next(m, l, e) && PassDone(e, plan, n, out)
    requires CleanLeads(e, TurnLabels(e, plan, |plan|))
    ensures Leads(m, [l] + TurnLabels(e, plan, |plan|) + [Label.Reap], n) && Safe(n) && n.pc.Top?
  {
    hide Safe, Next, DoEnter, TurnOk, AfterTurn, TurnPosts, Sound, NoneDangles, Leads, CleanLeads;
    SafeStep(m, l, e);
    EntersTidy(m, l, e);
    TurnsLead(e, plan, |plan|);
    CleanKeeps(e, TurnLabels(e, plan, |plan|), AfterTurns(e, plan, |plan|));
    RoundIsRun(m, l, e, plan, n, out);
  }

  lemma ReapNext(m: Mod)
    requires Safe(m) && m.pc.Reaping? && NoneDangles(m)
    ensures Sound(m) && Next(m, Label.Reap, DoReap(m)) && Safe(DoReap(m))
  {
    InvSound(m);
    SafeStep(m, Label.Reap, DoReap(m));
  }

  // ---------------------------------------------------------------- the pass as it is written

  /** `coseq_reply`, wherever its reply goes. */
  method PostReply(mo: ModuleObj, result: ResultCode, msg: Bytes) returns (out: seq<Posting>)
    requires mo.Valid() && mo.current.Some? && mo.current.value in mo.table
    modifies mo`hist
    ensures mo.Valid() && mo.View() == DoAct(old(mo.View()), Answer(result, msg))
    ensures mo.current.value in mo.fib && var fb := mo.fib[mo.current.value];
      out == [Posting(fb.replyTo, Event.Reply(fb.replyId, mo.cfg.idx, result, msg, mo.current.value))]
  {
    mo.ObjectHeld(mo.current.value);
    var outside;
    out, outside := mo.Reply(result, msg);
    if outside.Some? {
      var a := outside.value;
      out := [Posting(EXTERNAL, Event.Reply(a.id, mo.cfg.idx, a.result, a.msg, mo.current.value))];
    }
  }

  /** The running fiber makes one API call, or comes back from the one in which it yielded. */
  method Perform(mo: ModuleObj, a: Action) returns (out: seq<Posting>)
    requires mo.Valid() && mo.current.Some? && mo.current.value in mo.table && MayAct(mo.View(), a)
    modifies mo`pending, mo`next, mo`current, mo`fib, mo`hist, mo`lockedBy, mo`clients, mo.table[mo.current.value]
    ensures mo.Valid() && mo.View() == DoAct(old(mo.View()), a)
    ensures out == Posts(old(mo.View()), Act(a))
  {
    assert mo.Linked(mo.current.value);
    out := [];
    match a
    case Continue => mo.BackFromCall();
    case Request(_, _, _, _, _) => var p := mo.Request(a); out := [p];
    case RequestAsync(_, _, _) => var _, p := mo.RequestAsync(a); out := [p];
    case Send(_, _, _) => var p := mo.Send(a); out := [p];
    case WaitReply => var _ := mo.WaitReply();
    case Answer(result, msg) => out := PostReply(mo, result, msg);
    case Sleep(ms, now) => mo.WaitTimeout(ms, now);
    case Lock => mo.LockModule();
    case Unlock => mo.UnlockModule();
    case Register(category, id) => var _ := mo.RegNotify(category, id);
    case Unregister(category, id) => var _ := mo.UnregNotify(category, id);
    case Publish(category, msg) => var _, ps := mo.Notify(category, msg); out := ps;
    case Return => mo.Return();
  }

  /** The running fiber's program up to the point where it gives control back. */
  method RunSegment(mo: ModuleObj, acts: seq<Action>) returns (out: seq<Posting>)
    requires mo.Valid() && SegmentOk(mo.View(), acts)
    modifies mo`pending, mo`next, mo`current, mo`fib, mo`hist, mo`lockedBy, mo`clients, mo.table.Values
    ensures mo.Valid() && mo.View() == AfterSegment(old(mo.View()), acts)
    ensures out == SegmentPosts(old(mo.View()), acts)
  {
    out := [];
    if acts != [] {
      out := Perform(mo, acts[0]);
      var rest := RunSegment(mo, acts[1..]);
      out := out + rest;
    }
  }

  /** One turn of the timer loop: the next fiber in the list, resumed if it is due and eligible. */
  method TimerLoopTurn(mo: ModuleObj, f: nat, now: Timespec, acts: seq<Action>) returns (out: seq<Posting>)
    requires mo.Valid() && mo.pc.Timers? && mo.pc.now == now && mo.pc.todo != [] && mo.pc.todo[0] == f
    requires TurnOk(mo.View(), acts)
    modifies mo`pending, mo`next, mo`current, mo`fib, mo`hist, mo`lockedBy, mo`clients, mo`pc, mo.table.Values
    ensures mo.Valid() && mo.View() == AfterTurn(old(mo.View()), acts)
    ensures out == PostsOfTurn(old(mo.View()), acts) && mo.pc == Timers(now, old(mo.pc.todo)[1..])
  {
    SegmentKeeps(Turned(mo.View()), acts);
    TakeTimerTurn(mo, f, now);
    out := RunSegment(mo, acts);
  }

  method TakeTimerTurn(mo: ModuleObj, f: nat, now: Timespec)
    requires mo.Valid() && mo.pc.Timers? && mo.pc.now == now && mo.pc.todo != [] && mo.pc.todo[0] == f
    requires Turning(mo.View())
    modifies mo`pending, mo`current, mo`fib, mo`hist, mo`pc, mo.table.Values
    ensures mo.Valid() && mo.View() == Turned(old(mo.View()))
  {
    mo.TimerTurn(f, now);
  }

  method TakeEventTurn(mo: ModuleObj)
    requires mo.Valid() && mo.pc.Events? && mo.evs != [] && mo.nextFid !in mo.table && Turning(mo.View())
    modifies mo, mo.table.Values
    ensures mo.Valid() && mo.View() == Turned(old(mo.View()))
    ensures mo.pc.Events? && |mo.evs| == |old(mo.evs)| - 1
    ensures forall k <- old(mo.table) :: k in mo.table && mo.table[k] == old(mo.table)[k]
    ensures forall k <- mo.table :: k in old(mo.table) || fresh(mo.table[k])
  {
    TurnShortens(mo.View());
    mo.EventTurn();
  }

  lemma TurnShortens(m: Mod)
    requires Turning(m) && m.pc.Events? && m.q.batch != []
    ensures Turned(m).pc.Events? && Turned(m).q.batch == m.q.batch[1..]
  {}

  /** One turn of the event loop. */
  method EventLoopTurn(mo: ModuleObj, acts: seq<Action>) returns (out: seq<Posting>)
    requires mo.Valid() && mo.pc.Events? && mo.evs != [] && mo.nextFid !in mo.table
    requires TurnOk(mo.View(), acts)
    modifies mo, mo.table.Values
    ensures mo.Valid() && mo.View() == AfterTurn(old(mo.View()), acts)
    ensures out == PostsOfTurn(old(mo.View()), acts)
    ensures mo.pc.Events? && |mo.evs| == |old(mo.evs)| - 1
    ensures forall k <- old(mo.table) :: k in mo.table && mo.table[k] == old(mo.table)[k]
    ensures forall k <- mo.table :: k in old(mo.table) || fresh(mo.table[k])
  {
    SegmentKeeps(Turned(mo.View()), acts);
    TakeEventTurn(mo);
    out := RunSegment(mo, acts);
  }

  ghost method LoopOver(mo: ModuleObj, pc: Pc)
    requires mo.Valid()
    modifies mo`pc
    ensures mo.Valid() && mo.View() == old(mo.View()).(pc := pc)
  {
    mo.pc := pc;
  }

  /** The timer loop: it walks the list as it stands when the loop begins. */
  method TimerLoop(mo: ModuleObj, now: Timespec, plan: seq<seq<Action>>) returns (out: seq<Posting>, k: nat)
    requires mo.Valid() && mo.pc == Timers(now, mo.fibers) && PassOk(mo.View(), plan)
    modifies mo`pending, mo`next, mo`current, mo`fib, mo`hist, mo`lockedBy, mo`clients, mo`pc, mo.table.Values
    ensures mo.Valid() && mo.pc.Events? && Midway(old(mo.View()), plan, mo.View(), out, k)
  {
    hide PassOk, TurnOk, AfterTurn, Midway, Turned, PostsOfTurn, Turning, ModuleObj.Valid;
    ghost var m := mo.View();
    var rest := mo.fibers;
    out, k := [], 0;
    StartPass(m, plan);
    while rest != []
      invariant mo.Valid() && mo.pc == Timers(now, rest) && Midway(m, plan, mo.View(), out, k)
    {
      OneTurn(m, plan, mo.View(), out, k);
      var ps := TimerLoopTurn(mo, rest[0], now, plan[k]);
      out, k, rest := out + ps, k + 1, rest[1..];
    }
    LastTurn(m, plan, mo.View(), out, k);
    LoopOver(mo, Pc.Events);
    k := k + 1;
  }

  /** The event loop, to the end of the batch. */
  method EventLoop(mo: ModuleObj, ghost m: Mod, plan: seq<seq<Action>>, start: nat, sent: seq<Posting>)
    returns (out: seq<Posting>, ghost k: nat)
    requires mo.Valid() && Safe(m) && PassOk(m, plan) && mo.pc.Events? && Midway(m, plan, mo.View(), sent, start)
    modifies mo, mo.table.Values
    ensures mo.Valid() && mo.pc.Reaping? && Midway(m, plan, mo.View(), out, k)
    ensures forall k <- old(mo.table) :: k in mo.table && mo.table[k] == old(mo.table)[k]
    ensures forall k <- mo.table :: k in old(mo.table) || fresh(mo.table[k])
  {
    hide Safe, PassOk, TurnOk, AfterTurn, Midway, Turned, PostsOfTurn;
    out := sent;
    var i: nat := start;
    while mo.evs != []
      invariant mo.Valid() && mo.pc.Events? && Midway(m, plan, mo.View(), out, i)
      invariant forall k <- old(mo.table) :: k in mo.table && mo.table[k] == old(mo.table)[k]
      invariant forall k <- mo.table :: k in old(mo.table) || fresh(mo.table[k])
      decreases |mo.evs|
    {
      OneTurn(m, plan, mo.View(), out, i);
      MidwaySafe(m, plan, mo.View(), out, i);
      var ps := EventLoopTurn(mo, plan[i]);
      out, i := out + ps, i + 1;
    }
    LastTurn(m, plan, mo.View(), out, i);
    LoopOver(mo, Reaping);
    k := i + 1;
  }

  method Reap(mo: ModuleObj)
    requires mo.Valid() && mo.ListValid() && (mo.lockedBy.Some? ==> mo.lockedBy.value in mo.table)
    modifies mo`fibers, mo`table, mo`lockedBy, mo`fib, mo`pc
    ensures mo.Valid() && mo.View() == DoReap(old(mo.View()))
  {
    mo.ReapDone();
  }

  /** The loops and the reaper, after the batch has been taken. */
  method RunPass(mo: ModuleObj, now: Timespec, plan: seq<seq<Action>>) returns (out: seq<Posting>)
    requires mo.Valid() && mo.pc == Timers(now, mo.fibers) && Safe(mo.View()) && PassOk(mo.View(), plan)
    modifies mo, mo.table.Values
    ensures mo.Valid() && PassDone(old(mo.View()), plan, mo.View(), out)
  {
    hide Safe, PassOk, Midway;
    ghost var m := mo.View();
    var sent, start := TimerLoop(mo, now, plan);
    ghost var k;
    out, k := EventLoop(mo, m, plan, start, sent);
    MidwaySafe(m, plan, mo.View(), out, k);
    EndPass(m, plan, mo.View(), out, k);
    assert mo.ListValid() by {
      forall f | f in mo.table ensures mo.Listed(f) {
        assert f in mo.fib;
      }
    }
    Reap(mo);
  }

  /** One round of the scheduler loop, unless it finds nothing to do and waits, or is asked to stop. */
  method SchedLoopBody(mo: ModuleObj, now: Timespec, plan: seq<seq<Action>>) returns (out: seq<Posting>)
    requires mo.Valid() && Safe(mo.View()) && mo.pc.Top? && Normal(now)
    requires (forall f <- mo.fibers :: f in mo.fib)
             && var e := DoEnter(mo.View(), now); e.pc.Timers? ==> PassOk(e, plan)
    modifies mo, mo.table.Values
    ensures mo.Valid()
    ensures forall f <- old(mo.fibers) :: f in old(mo.fib)
    ensures var e := DoEnter(old(mo.View()), now);
      if e.pc.Timers? then PassDone(e, plan, mo.View(), out) else mo.View() == e && out == []
  {
    hide Safe, PassOk, PassDone;
    EnterNext(mo.View(), now);
    var go := mo.EnterPass(now);
    out := [];
    if go {
      out := RunPass(mo, now, plan);
    }
  }

  /** The same, from where the wait ends. */
  method AfterWaitBody(mo: ModuleObj, now: Timespec, plan: seq<seq<Action>>) returns (out: seq<Posting>)
    requires mo.Valid() && Safe(mo.View()) && mo.pc.Sleeping? && Normal(now)
    requires var e := Proceed(mo.View(), now); e.pc.Timers? ==> PassOk(e, plan)
    modifies mo, mo.table.Values
    ensures mo.Valid()
    ensures var e := Proceed(old(mo.View()), now);
      if e.pc.Timers? then PassDone(e, plan, mo.View(), out) else mo.View() == e && out == []
  {
    hide Safe, PassOk, PassDone;
    WakeNext(mo.View(), now);
    var go := mo.AfterWait(now);
    out := [];
    if go {
      out := RunPass(mo, now, plan);
    }
  }
}
