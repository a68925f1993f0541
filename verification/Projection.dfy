/** Every module of an instance runs as the machine whose runs the other theorems speak of: its own steps
    in their order, and between them the arrival of exactly what is posted to it. */
module Projection {
  import opened Base
  import opened EventQueues
  import opened Machine
  import opened Invariant
  import opened Outcomes
  import opened Runs
  import opened Steps
  import opened Worlds
  import opened Delivery

  /** A run without its arrivals. */
  function Own(ls: seq<Label>): seq<Label> {
    if ls == [] then [] else Own(ls[..|ls| - 1]) + (if ls[|ls| - 1].Arrive? then [] else [ls[|ls| - 1]])
  }

  /** The steps that module `i` itself takes in the first `k` steps of the instance. */
  function StepsOf(wls: seq<WorldLabel>, i: nat, k: nat): seq<Label>
    requires k <= |wls|
  {
    if k == 0 then []
    else StepsOf(wls, i, k - 1) + (if wls[k - 1].Inside? && wls[k - 1].i == i then [wls[k - 1].l] else [])
  }

  /** The events that come in during a run. */
  function Arrived(ls: seq<Label>): seq<Event> {
    if ls == [] then []
    else Arrived(ls[..|ls| - 1]) + (if ls[|ls| - 1].Arrive? then [ls[|ls| - 1].ev] else [])
  }

  function Arrivals(es: seq<Event>): seq<Label> {
    seq(|es|, k requires 0 <= k < |es| => Arrive(es[k]))
  }

  /** All that the first `k` steps of the instance post to module `i`, in order. */
  ghost function PostedTo(ws: seq<World>, wls: seq<WorldLabel>, i: nat, k: nat): seq<Event>
    requires k <= |wls| < |ws| && forall x :: 0 <= x < k ==> WorldEnabled(ws[x], wls[x])
  {
    if k == 0 then [] else PostedTo(ws, wls, i, k - 1) + Addressed(PostedBy(ws[k - 1], wls[k - 1]), i)
  }

  function OwnStep(l: WorldLabel, i: nat): seq<Label> {
    if l.Inside? && l.i == i then [l.l] else []
  }

  /** What module `i` lives through in the first `k` steps of the instance: at each of them its own step, if it
      is one of its own, and then the arrival of each event posted to it. */
  ghost function LifeOf(ws: seq<World>, wls: seq<WorldLabel>, i: nat, k: nat): seq<Label>
    requires k <= |wls| < |ws| && forall x :: 0 <= x < k ==> WorldEnabled(ws[x], wls[x])
  {
    if k == 0 then []
    else
      LifeOf(ws, wls, i, k - 1) + OwnStep(wls[k - 1], i) + Arrivals(Addressed(PostedBy(ws[k - 1], wls[k - 1]), i))
  }

  lemma {:induction false} LifeParts(ws: seq<World>, wls: seq<WorldLabel>, i: nat, k: nat)
    requires k <= |wls| < |ws| && forall x :: 0 <= x < k ==> WorldEnabled(ws[x], wls[x])
    requires forall x :: 0 <= x < k && wls[x].Inside? ==> !wls[x].l.Arrive?
    ensures Own(LifeOf(ws, wls, i, k)) == StepsOf(wls, i, k)
    ensures Arrived(LifeOf(ws, wls, i, k)) == PostedTo(ws, wls, i, k)
  {
    hide WorldEnabled, Own, Arrived, PostedBy;
    if k == 0 {
      NothingYet();
    } else {
      LifeParts(ws, wls, i, k - 1);
      OneMoreStep(LifeOf(ws, wls, i, k - 1), OwnStep(wls[k - 1], i), Addressed(PostedBy(ws[k - 1], wls[k - 1]), i));
    }
  }

  lemma NothingYet()
    ensures Own([]) == [] && Arrived([]) == []
  {}

  lemma OneMoreStep(life: seq<Label>, own: seq<Label>, es: seq<Event>)
    requires own == [] || (|own| == 1 && !own[0].Arrive?)
    ensures Own(life + own + Arrivals(es)) == Own(life) + own
    ensures Arrived(life + own + Arrivals(es)) == Arrived(life) + es
  {
    hide Own, Arrived, Arrivals;
    OwnMore(life, own);
    MoreArrivals(life + own, es);
  }

  lemma OwnMore(life: seq<Label>, own: seq<Label>)
    requires own == [] || (|own| == 1 && !own[0].Arrive?)
    ensures Own(life + own) == Own(life) + own && Arrived(life + own) == Arrived(life)
  {
    if own == [] {
      assert life + own == life;
    } else {
      var all := life + own;
      assert all[..|all| - 1] == life && all[|all| - 1] == own[0];
      assert own == [own[0]];
    }
  }

  lemma {:induction false} MoreArrivals(ls: seq<Label>, es: seq<Event>)
    ensures Own(ls + Arrivals(es)) == Own(ls) && Arrived(ls + Arrivals(es)) == Arrived(ls) + es
  {
    if es == [] {
      assert ls + Arrivals(es) == ls;
    } else {
      var front := es[..|es| - 1];
      MoreArrivals(ls, front);
      var all := ls + Arrivals(es);
      assert all[..|all| - 1] == ls + Arrivals(front);
      assert es == front + [es[|es| - 1]];
    }
  }

  /** `ms` and `ls` are a run of the module that ends in `m`. */
  ghost predicate RunTo(cfg: Config, ms: seq<Mod>, ls: seq<Label>, m: Mod) {
    RunFrom(cfg, ms, ls) && ms[|ms| - 1] == m
  }

  lemma Extend(cfg: Config, ms: seq<Mod>, ls: seq<Label>, m: Mod, l: Label, m': Mod) returns (ms': seq<Mod>)
    requires RunTo(cfg, ms, ls, m) && Next(m, l, m')
    ensures RunTo(cfg, ms', ls + [l], m')
  {
    ms' := ms + [m'];
    var ls' := ls + [l];
    forall k {:trigger ls'[k]} | 0 <= k < |ls'| ensures Next(ms'[k], ls'[k], ms'[k + 1]) {
      if k < |ls| {
        assert ls'[k] == ls[k];
      }
    }
  }

  lemma PostOne(cfg: Config, ms: seq<Mod>, ls: seq<Label>, vs: seq<View>, ext: map<nat, ExtIssue>, mods: seq<Mod>,
                i: nat, p: Posting)
    returns (ms': seq<Mod>)
    requires Provenance(vs, mods, ext) && PostingOk(vs, ext, p) && i < |mods|
    requires RunTo(cfg, ms, ls, mods[i])
    ensures RunTo(cfg, ms', ls + Arrivals(if p.target == i then [p.ev] else []), PostTo(mods, p)[i])
  {
    if p.target == i {
      InvSound(mods[i]);
      assert Arrivals([p.ev]) == [Arrive(p.ev)];
      ms' := Extend(cfg, ms, ls, mods[i], Arrive(p.ev), PostTo(mods, p)[i]);
    } else {
      assert ls + Arrivals([]) == ls;
      ms' := ms;
    }
  }

  /** What is posted reaches module `i` as arrivals. */
  lemma PostMany(cfg: Config, ms: seq<Mod>, ls: seq<Label>, vs: seq<View>, ext: map<nat, ExtIssue>, mods: seq<Mod>,
                 i: nat, ps: seq<Posting>)
    returns (ms': seq<Mod>)
    requires Provenance(vs, mods, ext) && (forall p <- ps :: PostingOk(vs, ext, p)) && i < |mods|
    requires RunTo(cfg, ms, ls, mods[i])
    ensures |PostAll(mods, ps)| == |mods|
    ensures RunTo(cfg, ms', ls + Arrivals(Addressed(ps, i)), PostAll(mods, ps)[i])
    decreases |ps|
  {
    hide RunTo, PostingOk, Provenance, PostTo, Arrivals;
    if ps == [] {
      NoArrivals(ls);
      ms' := ms;
    } else {
      assert ps[0] in ps;
      var one := if ps[0].target == i then [ps[0].ev] else [];
      ms' := PostOne(cfg, ms, ls, vs, ext, mods, i, ps[0]);
      OneKeeps(vs, mods, ext, ps[0]);
      ms' := PostMany(cfg, ms', ls + Arrivals(one), vs, ext, PostTo(mods, ps[0]), i, ps[1..]);
      ArrivalsJoin(ls, one, Addressed(ps[1..], i));
    }
  }

  lemma NoArrivals(ls: seq<Label>)
    ensures ls + Arrivals([]) == ls
  {}

  lemma ArrivalsJoin(ls: seq<Label>, a: seq<Event>, b: seq<Event>)
    ensures ls + Arrivals(a) + Arrivals(b) == ls + Arrivals(a + b)
  {}

  lemma OneKeeps(vs: seq<View>, mods: seq<Mod>, ext: map<nat, ExtIssue>, p: Posting)
    requires Provenance(vs, mods, ext) && PostingOk(vs, ext, p)
    ensures Provenance(vs, PostTo(mods, p), ext) && |PostTo(mods, p)| == |mods|
  {
    assert PostAll(PostTo(mods, p), []) == PostTo(mods, p) && [p][1..] == [];
    PostAllKeeps(vs, mods, ext, [p]);
  }

  lemma ProjectInside(cfg: Config, ms: seq<Mod>, ls: seq<Label>, w: World, i: nat, j: nat, l: Label)
    returns (ms': seq<Mod>)
    requires WorldOk(w) && WorldEnabled(w, Inside(j, l)) && i < |w.mods| && RunTo(cfg, ms, ls, w.mods[i])
    ensures |WorldStep(w, Inside(j, l)).mods| == |w.mods|
    ensures RunTo(cfg, ms', ls + OwnStep(Inside(j, l), i) + Arrivals(Addressed(PostedBy(w, Inside(j, l)), i)),
                  WorldStep(w, Inside(j, l)).mods[i])
  {
    hide RunTo, Provenance, PostingOk, Next, PostedBy, WorldOk, PostAll;
    var mods, ps := InsideParts(w, j, l);
    if i == j {
      ms' := Extend(cfg, ms, ls, w.mods[i], l, mods[i]);
      ms' := PostMany(cfg, ms', ls + [l], Views(mods), w.box.issues, mods, i, ps);
    } else {
      assert ls + OwnStep(Inside(j, l), i) == ls;
      ms' := PostMany(cfg, ms, ls, Views(mods), w.box.issues, mods, i, ps);
    }
  }

  lemma InsideParts(w: World, j: nat, l: Label) returns (mods: seq<Mod>, ps: seq<Posting>)
    requires WorldOk(w) && WorldEnabled(w, Inside(j, l))
    ensures |mods| == |w.mods| && mods == w.mods[j := mods[j]] && Next(w.mods[j], l, mods[j])
    ensures WorldStep(w, Inside(j, l)).mods == PostAll(mods, ps) && ps == PostedBy(w, Inside(j, l))
    ensures Provenance(Views(mods), mods, w.box.issues) && forall p <- ps :: PostingOk(Views(mods), w.box.issues, p)
  {
    mods, ps := w.mods[j := Step(w.mods[j], l)], Posts(w.mods[j], l);
    InsidePostings(w, j, l);
  }

  lemma ProjectStep(cfg: Config, ms: seq<Mod>, ls: seq<Label>, w: World, i: nat, l: WorldLabel)
    returns (ms': seq<Mod>)
    requires WorldOk(w) && WorldEnabled(w, l) && i < |w.mods| && RunTo(cfg, ms, ls, w.mods[i])
    ensures |WorldStep(w, l).mods| == |w.mods|
    ensures RunTo(cfg, ms', ls + OwnStep(l, i) + Arrivals(Addressed(PostedBy(w, l), i)), WorldStep(w, l).mods[i])
  {
    hide RunTo, Provenance, PostingOk;
    if l.Inside? {
      ms' := ProjectInside(cfg, ms, ls, w, i, l.i, l.l);
    } else {
      assert ls + OwnStep(l, i) == ls;
      if l.CallSync? || l.CallAsync? {
        var p := Posting(l.target, Start(l.seqIdx, w.box.nextId, EXTERNAL, l.msg));
        CallParts(w, l.target, l.seqIdx, l.msg);
        OneAddressed(p, i);
        ms' := PostOne(cfg, ms, ls, Views(w.mods), Called(w.box, l.target, l.seqIdx, l.msg).issues, w.mods, i, p);
      } else {
        assert ls + Arrivals([]) == ls;
        ms' := ms;
      }
    }
  }

  lemma InitialRun(cfg: Config)
    ensures RunTo(cfg, [Initial(cfg)], [], Initial(cfg))
  {}

  lemma EnabledAt(cfgs: seq<Config>, ws: seq<World>, wls: seq<WorldLabel>, k: nat)
    requires WorldRun(cfgs, ws, wls) && k < |ws|
    ensures k <= |wls| < |ws| && forall x :: 0 <= x < k ==> WorldEnabled(ws[x], wls[x])
    ensures forall x :: 0 <= x < k && wls[x].Inside? ==> !wls[x].l.Arrive?
    ensures forall x :: 0 <= x < k ==> ws[x + 1] == WorldStep(ws[x], wls[x])
  {
    forall x | 0 <= x < k ensures WorldEnabled(ws[x], wls[x]) && ws[x + 1] == WorldStep(ws[x], wls[x]) {
      assert WorldNext(ws[x], wls[x], ws[x + 1]);
    }
  }

  /** Every reachable state of module `i` in an instance is the end of a run of its machine, and the steps of that
      run are exactly these: its own, in the same order, and after each step of the instance the arrival of
      every event that the step posts to it, in the order of posting. */
  lemma {:induction false} ModuleRuns(cfgs: seq<Config>, ws: seq<World>, wls: seq<WorldLabel>, i: nat, k: nat)
    returns (ms: seq<Mod>, ls: seq<Label>)
    requires WorldRun(cfgs, ws, wls) && k < |ws| && i < |cfgs|
    ensures |ws[k].mods| == |cfgs| && RunTo(cfgs[i], ms, ls, ws[k].mods[i])
    ensures k <= |wls| < |ws| && forall x :: 0 <= x < k ==> WorldEnabled(ws[x], wls[x])
    ensures ls == LifeOf(ws, wls, i, k) && Own(ls) == StepsOf(wls, i, k) && Arrived(ls) == PostedTo(ws, wls, i, k)
  {
    hide RunTo, WorldOk, WorldEnabled, WorldStep, WorldRun, Own, Arrived;
    EnabledAt(cfgs, ws, wls, k);
    ms := ModuleStates(cfgs, ws, wls, i, k);
    ls := LifeOf(ws, wls, i, k);
    LifeParts(ws, wls, i, k);
  }

  lemma {:induction false} ModuleStates(cfgs: seq<Config>, ws: seq<World>, wls: seq<WorldLabel>, i: nat, k: nat)
    returns (ms: seq<Mod>)
    requires WorldRun(cfgs, ws, wls) && k < |ws| && i < |cfgs|
    requires k <= |wls| < |ws| && forall x :: 0 <= x < k ==> WorldEnabled(ws[x], wls[x])
    ensures |ws[k].mods| == |cfgs| && RunTo(cfgs[i], ms, LifeOf(ws, wls, i, k), ws[k].mods[i])
  {
    hide RunTo, WorldOk, WorldEnabled, WorldStep;
    if k == 0 {
      ms := [Initial(cfgs[i])];
      InitialRun(cfgs[i]);
    } else {
      ms := ModuleStates(cfgs, ws, wls, i, k - 1);
      EnabledAt(cfgs, ws, wls, k);
      WorldSafe(cfgs, ws, wls, k - 1);
      assert ws[k] == WorldStep(ws[k - 1], wls[k - 1]);
      ms := ProjectStep(cfgs[i], ms, LifeOf(ws, wls, i, k - 1), ws[k - 1], i, wls[k - 1]);
    }
  }
}
