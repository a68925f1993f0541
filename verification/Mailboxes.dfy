/** The mailbox of the threads outside as it is: an object that `request_sync` opens and empties and that
    `coseq_reply` fills. Every method is proved equal to what the step of an instance does to the mailbox. */
module Mailboxes {
  import opened Base
  import opened Machine
  import opened Scheduler
  import opened Worlds
  import opened Pass

  class MailboxObj {
    var ready: bool
    var waitRid: nat
    var result: ResultCode
    var msg: Bytes
    var nextId: nat
    ghost var caller: Option<nat>
    ghost var from: nat
    ghost var author: nat
    ghost var issues: map<nat, ExtIssue>
    ghost var returned: seq<ExtReturn>

    ghost function View(): Mailbox
      reads this
    {
      Mailbox(ready, waitRid, result, msg, nextId, caller, from, author, issues, returned)
    }

    constructor (cfgs: seq<Config>)
      ensures View() == InitialWorld(cfgs).box
    {
      ready, waitRid, result, msg, nextId := false, SENTINEL, Ignore, [], 1;
      caller, from, author, issues, returned := None, 0, 0, map[], [];
    }

    /** The id of a call from outside, with what it posts. */
    method NewCall(target: nat, seqIdx: nat, msg: Bytes) returns (rid: nat, out: Posting)
      modifies this`nextId, this`issues
      ensures View() == Called(old(View()), target, seqIdx, msg)
      ensures rid == old(nextId) && out == Posting(target, Start(seqIdx, rid, EXTERNAL, msg))
    {
      rid := nextId;
      nextId := nextId + 1;
      issues := issues[rid := ExtIssue(target, seqIdx, msg)];
      out := Posting(target, Start(seqIdx, rid, EXTERNAL, msg));
    }

    /** `request_sync` up to its wait. */
    method Open(target: nat, seqIdx: nat, msg: Bytes) returns (rid: nat, out: Posting)
      requires caller.None? && nextId < SENTINEL
      modifies this
      ensures View() == Opened(old(View()), target, seqIdx, msg)
      ensures rid == old(nextId) && out == Posting(target, Start(seqIdx, rid, EXTERNAL, msg))
    {
      rid, out := NewCall(target, seqIdx, msg);
      waitRid, ready := rid, false;
      caller := Some(rid);
    }

    /** `ext_deliver`; fiber `who` of module `i` made the reply. */
    method Deliver(a: Arrival, ghost i: nat, ghost who: nat)
      modifies this
      ensures View() == Worlds.Deliver(old(View()), a.id, a.result, a.msg, i, who)
    {
      if Wire(a.id) == waitRid {
        result, msg, ready := a.result, a.msg, true;
        from, author := i, who;
      }
    }

    /** `request_sync` from where its wait has ended, in the thread that made call `rid` and remembers what it
        asked. */
    method Close(rid: nat, target: nat, seqIdx: nat) returns (src: Source)
      requires ready && caller == Some(rid)
      modifies this
      ensures View() == Closed(old(View()))
      ensures src == Source(ToU8(target), seqIdx, rid, old(result), 0, old(msg))
      ensures SeenAs(src) == Arrival(returned[|old(returned)|].id, returned[|old(returned)|].result,
                                     returned[|old(returned)|].msg)
    {
      waitRid := SENTINEL;
      src := Source(ToU8(target), seqIdx, rid, result, 0, msg);
      returned := returned + [ExtReturn(rid, result, msg, from, author)];
      msg, caller := [], None;
    }
  }

  /** What the replies for threads outside among `ps`, all posted by module `i`, do to the mailbox. */
  function BoxAfterAll(box: Mailbox, i: nat, ps: seq<Posting>): Mailbox {
    if ps == [] then box
    else
      var p := ps[|ps| - 1];
      var so := BoxAfterAll(box, i, ps[..|ps| - 1]);
      if p.target == EXTERNAL && p.ev.Reply?
      then Worlds.Deliver(so, p.ev.id, p.ev.result, p.ev.msg, i, p.ev.author)
      else so
  }

  /** A step of a module does to the mailbox what delivering its postings does. */
  lemma BoxOfPosts(box: Mailbox, m: Mod, l: Label)
    requires Enabled(m, l)
    ensures BoxAfterAll(box, m.cfg.idx, Posts(m, l)) == BoxAfter(box, m.cfg.idx, m, l)
  {
    var ps := Posts(m, l);
    if l.Act? && l.a.Publish? {
      NoticesOutside(box, m, l.a.category, l.a.msg, m.clients);
    } else if ps != [] {
      assert ps[..0] == [];
      assert BoxAfterAll(box, m.cfg.idx, ps[..0]) == box;
    }
  }

  lemma {:induction false} NoticesOutside(box: Mailbox, m: Mod, category: nat, msg: Bytes, clients: seq<Client>)
    ensures BoxAfterAll(box, m.cfg.idx, Notices(clients, category, m.cfg.idx, msg)) == box
  {
    forall p | p in Notices(clients, category, m.cfg.idx, msg) ensures p.ev.Notify? {
      NoticesAre(clients, category, m.cfg.idx, msg, p);
    }
    NoReplies(box, m.cfg.idx, Notices(clients, category, m.cfg.idx, msg));
  }

  lemma {:induction false} NoticesAre(clients: seq<Client>, category: nat, from: int, msg: Bytes, p: Posting)
    requires p in Notices(clients, category, from, msg)
    ensures p.ev.Notify?
  {
    if p in Notices(clients[1..], category, from, msg) {
      NoticesAre(clients[1..], category, from, msg, p);
    }
  }

  lemma {:induction false} NoReplies(box: Mailbox, i: nat, ps: seq<Posting>)
    requires forall p <- ps :: !p.ev.Reply?
    ensures BoxAfterAll(box, i, ps) == box
  {
    if ps != [] {
      NoReplies(box, i, ps[..|ps| - 1]);
    }
  }

  /** What a module has posted is handed to the mailbox as far as it is for threads outside. */
  method DeliverAll(box: MailboxObj, ps: seq<Posting>, ghost i: nat)
    modifies box
    ensures box.View() == BoxAfterAll(old(box.View()), i, ps)
  {
    var k := 0;
    while k < |ps|
      invariant k <= |ps| && box.View() == BoxAfterAll(old(box.View()), i, ps[..k])
    {
      assert ps[..k + 1][..k] == ps[..k];
      var p := ps[k];
      if p.target == EXTERNAL && p.ev.Reply? {
        box.Deliver(ArrivalOf(p.ev), i, p.ev.author);
      }
      k := k + 1;
    }
    assert ps[..k] == ps;
  }

  /** A call of the running fiber with all its effects: the module, what is posted and the mailbox are as after the
      machine's and the instance's step. For `coseq_reply` that is the delivery, for the others it is none. */
  method PerformAll(mo: ModuleObj, box: MailboxObj, a: Action) returns (out: seq<Posting>)
    requires mo.Valid() && mo.current.Some? && mo.current.value in mo.table && mo.current.value in mo.fib
    requires MayAct(mo.View(), a)
    modifies mo`pending, mo`next, mo`current, mo`fib, mo`hist, mo`lockedBy, mo`clients, mo.table[mo.current.value], box
    ensures mo.Valid() && mo.View() == DoAct(old(mo.View()), a)
    ensures out == Posts(old(mo.View()), Act(a))
    ensures box.View() == BoxAfter(old(box.View()), mo.cfg.idx, old(mo.View()), Act(a))
  {
    hide Posts, BoxAfter, BoxAfterAll, DoAct, MayAct;
    BoxOfPosts(box.View(), mo.View(), Act(a));
    out := Perform(mo, a);
    DeliverAll(box, out, mo.cfg.idx);
  }
}
