/** The ids that registrations are given, over whole runs of an instance. */
module ClientIds {
  import opened Base
  import opened EventQueues
  import opened Machine
  import opened Frames
  import opened Registry
  import opened Worlds

  predicate Registers(w: World, l: WorldLabel) {
    && l.Inside? && l.i < |w.mods| && l.l.Act? && l.l.a.Register? && w.mods[l.i].current.Some?
    && w.mods[l.i].current.value in w.mods[l.i].fib && w.mods[l.i].fib[w.mods[l.i].current.value].replyTo != EXTERNAL
  }

  /** The ids given in the first `k` steps, in any of the modules. */
  function IdsGiven(ws: seq<World>, ls: seq<WorldLabel>, k: nat): seq<nat>
    requires k <= |ls| < |ws|
  {
    if k == 0 then []
    else IdsGiven(ws, ls, k - 1) + (if Registers(ws[k - 1], ls[k - 1]) then [ls[k - 1].l.a.clientId] else [])
  }

  lemma ClientStep(w: World, l: WorldLabel)
    requires WorldEnabled(w, l)
    ensures WorldStep(w, l).nextClient == if Registers(w, l) then ClientId(w.nextClient) + 1 else w.nextClient
    ensures Registers(w, l) ==> l.l.a.clientId == ClientId(w.nextClient)
  {}

  /** The counter and the ids it has given so far. */
  predicate Residues(next: nat, ids: seq<nat>) {
    next <= 0xff && ClientId(next) == |ids| % 0xff && forall n :: 0 <= n < |ids| ==> ids[n] == n % 0xff
  }

  lemma NextResidue(next: nat, ids: seq<nat>)
    requires Residues(next, ids)
    ensures Residues(ClientId(next) + 1, ids + [ClientId(next)])
  {}

  /** In every run of an instance the n-th registration, in whichever module, gets the id n modulo 255. */
  lemma {:induction false} NthGiven(cfgs: seq<Config>, ws: seq<World>, ls: seq<WorldLabel>, k: nat)
    requires WorldRun(cfgs, ws, ls) && k < |ws|
    ensures Residues(ws[k].nextClient, IdsGiven(ws, ls, k))
  {
    if k > 0 {
      hide WorldEnabled, WorldStep, Registers, Residues, InitialWorld;
      NthGiven(cfgs, ws, ls, k - 1);
      assert WorldNext(ws[k - 1], ls[k - 1], ws[k]);
      ClientStep(ws[k - 1], ls[k - 1]);
      NextResidue(ws[k - 1].nextClient, IdsGiven(ws, ls, k - 1));
    }
  }

  /** So any 255 ids given in a row are distinct, and none is the value that means unregistered; the id
      after them is the first of them again. */
  lemma IdsDistinct(cfgs: seq<Config>, ws: seq<World>, ls: seq<WorldLabel>, k: nat)
    requires WorldRun(cfgs, ws, ls) && k < |ws|
    ensures var ids := IdsGiven(ws, ls, k);
      && (forall i :: 0 <= i < |ids| ==> ids[i] < 0xff)
      && (forall i, j :: 0 <= i < j < |ids| ==> (ids[i] == ids[j] <==> (j - i) % 0xff == 0))
  {
    NthGiven(cfgs, ws, ls, k);
    var ids := IdsGiven(ws, ls, k);
    forall i, j | 0 <= i < j < |ids| ensures ids[i] == ids[j] <==> (j - i) % 0xff == 0 {
      SameResidue(i, j);
    }
  }

  lemma SameResidue(a: nat, b: nat)
    requires a <= b
    ensures a % 0xff == b % 0xff <==> (b - a) % 0xff == 0
  {
    var qa, qb := a / 0xff, b / 0xff;
    assert b - a == 0xff * (qb - qa) + (b % 0xff - a % 0xff);
  }

  // ---------------------------------------------------------------- a client id names its sender

  /** The registrations that stand in all modules have different ids, all below `n`. */
  ghost predicate AllDifferent(mods: seq<Mod>, n: nat) {
    forall i, a :: 0 <= i < |mods| && 0 <= a < |mods[i].clients| ==> Lone(mods, n, i, a)
  }

  ghost predicate Lone(mods: seq<Mod>, n: nat, i: nat, a: nat)
    requires i < |mods| && a < |mods[i].clients|
  {
    && mods[i].clients[a].clientId < n
    && forall j, b :: 0 <= j < |mods| && 0 <= b < |mods[j].clients| && (j != i || b != a) ==>
         mods[j].clients[b].clientId != mods[i].clients[a].clientId
  }

  /** What a step does to the registry of the module that takes it. */
  lemma RegistryStep(m: Mod, l: Label)
    requires Sound(m) && Enabled(m, l)
    ensures var r := Step(m, l);
      if l.Act? && l.a.Register? && m.fib[m.current.value].replyTo != EXTERNAL
      then r.clients == [Client(l.a.category, m.fib[m.current.value].replyTo, l.a.clientId)] + m.clients
      else if l.Act? && l.a.Unregister? then r.clients == Removed(m.clients, l.a.category, l.a.clientId)
      else r.clients == m.clients
  {
    match l
    case TimerTurn =>
      if m.pc.todo != [] {
        TimerFrame(m);
      }
    case EventTurn =>
      if m.q.batch != [] && m.q.batch[0].ev.Reply? {
        ReplyFrame(m.(q := Consume(m.q)), m.q.batch[0].ev);
      }
    case _ =>
  }

  lemma PostAllClients(mods: seq<Mod>, ps: seq<Posting>)
    ensures |PostAll(mods, ps)| == |mods|
    ensures forall i :: 0 <= i < |mods| ==> PostAll(mods, ps)[i].clients == mods[i].clients
    decreases |ps|
  {
    if ps != [] {
      PostAllClients(PostTo(mods, ps[0]), ps[1..]);
    }
  }

  lemma DifferentAfterRemoval(mods: seq<Mod>, i: nat, m: Mod, n: nat, k: nat)
    requires AllDifferent(mods, n) && i < |mods| && k < |mods[i].clients|
    requires m.clients == mods[i].clients[..k] + mods[i].clients[k + 1..]
    ensures AllDifferent(mods[i := m], n)
  {
    var mods' := mods[i := m];
    forall a | 0 <= a < |m.clients| ensures m.clients[a] == mods[i].clients[if a < k then a else a + 1] {}
    forall j, b | 0 <= j < |mods'| && 0 <= b < |mods'[j].clients| ensures Lone(mods', n, j, b) {
      assert Lone(mods, n, j, if j == i && b >= k then b + 1 else b);
    }
  }

  lemma DifferentAfterRegistration(mods: seq<Mod>, i: nat, m: Mod, n: nat, c: Client)
    requires AllDifferent(mods, n) && i < |mods| && c.clientId == n && m.clients == [c] + mods[i].clients
    ensures AllDifferent(mods[i := m], n + 1)
  {
    var mods', n' := mods[i := m], n + 1;
    forall j, b | 0 <= j < |mods| && 0 <= b < |mods[j].clients| ensures mods[j].clients[b].clientId < n {
      assert Lone(mods, n, j, b);
    }
    forall j, b | 0 <= j < |mods'| && 0 <= b < |mods'[j].clients| ensures Lone(mods', n', j, b) {
      if j != i || b != 0 {
        assert Lone(mods, n, j, if j == i then b - 1 else b);
      }
    }
  }

  lemma DifferentSame(mods: seq<Mod>, mods': seq<Mod>, n: nat)
    requires AllDifferent(mods, n) && |mods'| == |mods|
    requires forall i :: 0 <= i < |mods| ==> mods'[i].clients == mods[i].clients
    ensures AllDifferent(mods', n)
  {
    forall j, b | 0 <= j < |mods'| && 0 <= b < |mods'[j].clients| ensures Lone(mods', n, j, b) {
      assert Lone(mods, n, j, b);
    }
  }

  lemma DifferentInside(mods: seq<Mod>, i: nat, l: Label, n: nat)
    requires AllDifferent(mods, n) && i < |mods| && Sound(mods[i]) && Enabled(mods[i], l)
    requires l.Act? && l.a.Register? && mods[i].fib[mods[i].current.value].replyTo != EXTERNAL ==> l.a.clientId == n
    ensures var registers := l.Act? && l.a.Register? && mods[i].fib[mods[i].current.value].replyTo != EXTERNAL;
      AllDifferent(mods[i := Step(mods[i], l)], if registers then n + 1 else n)
  {
    hide Enabled, Step, AllDifferent, Sound;
    var m, r := mods[i], Step(mods[i], l);
    RegistryStep(m, l);
    if r.clients == m.clients {
      DifferentSame(mods, mods[i := r], n);
    } else if l.a.Unregister? {
      var k := 0;
      while k < |m.clients| && !Matches(m.clients[k], l.a.category, l.a.clientId)
        invariant k <= |m.clients| && forall x :: 0 <= x < k ==> !Matches(m.clients[x], l.a.category, l.a.clientId)
      {
        k := k + 1;
      }
      RemovedFirst(m.clients, k, l.a.category, l.a.clientId);
      DifferentAfterRemoval(mods, i, r, n, k);
    } else {
      DifferentAfterRegistration(mods, i, r, n, r.clients[0]);
    }
  }

  lemma NoneYet(cfgs: seq<Config>)
    ensures AllDifferent(InitialWorld(cfgs).mods, 0)
  {}

  lemma LowResidue(next: nat, ids: seq<nat>)
    requires Residues(next, ids) && |ids| < 0xff
    ensures ClientId(next) == |ids|
  {}

  /** In every run in which at most 255 registrations have been made, the registrations that stand, in all
      modules together, have different client ids: a listener can tell by the id which of them a notice is
      for. */
  lemma {:induction false} SenderByClientId(cfgs: seq<Config>, ws: seq<World>, ls: seq<WorldLabel>, k: nat)
    requires WorldRun(cfgs, ws, ls) && k < |ws| && |IdsGiven(ws, ls, k)| <= 0xff
    ensures AllDifferent(ws[k].mods, |IdsGiven(ws, ls, k)|)
  {
    hide WorldEnabled, WorldStep, Registers, AllDifferent, InitialWorld, Residues;
    if k == 0 {
      NoneYet(cfgs);
    } else {
      var w, l, given := ws[k - 1], ls[k - 1], IdsGiven(ws, ls, k - 1);
      SenderByClientId(cfgs, ws, ls, k - 1);
      NthGiven(cfgs, ws, ls, k - 1);
      assert WorldNext(w, l, ws[k]);
      if Registers(w, l) {
        LowResidue(w.nextClient, given);
      }
      DifferentNext(w, l, |given|);
    }
  }

  lemma DifferentNext(w: World, l: WorldLabel, n: nat)
    requires WorldEnabled(w, l) && AllDifferent(w.mods, n) && (Registers(w, l) ==> n == ClientId(w.nextClient))
    ensures AllDifferent(WorldStep(w, l).mods, if Registers(w, l) then n + 1 else n)
  {
    if l.Inside? {
      DifferentInside(w.mods, l.i, l.l, n);
      var mods := w.mods[l.i := Step(w.mods[l.i], l.l)];
      PostAllClients(mods, Posts(w.mods[l.i], l.l));
      DifferentSame(mods, WorldStep(w, l).mods, if Registers(w, l) then n + 1 else n);
    } else {
      DifferentSame(w.mods, WorldStep(w, l).mods, n);
    }
  }
}
