/** The table of requests that wait for a reply: a list searched from its head by wire id. */
module Pending {
  import opened Base

  datatype Entry = Entry(id: nat, fid: nat)

  function Peek(p: seq<Entry>, id: nat): Option<nat> {
    if p == [] then None
    else if Wire(p[0].id) == Wire(id) then Some(p[0].fid)
    else Peek(p[1..], id)
  }

  function Take(p: seq<Entry>, id: nat): seq<Entry> {
    if p == [] then []
    else if Wire(p[0].id) == Wire(id) then p[1..]
    else [p[0]] + Take(p[1..], id)
  }

  /** How many entries belong to fiber `fid`. */
  function Count(p: seq<Entry>, fid: nat): nat {
    if p == [] then 0 else (if p[0].fid == fid then 1 else 0) + Count(p[1..], fid)
  }

  predicate WireDistinct(p: seq<Entry>) {
    forall i, j :: 0 <= i < j < |p| ==> Wire(p[i].id) != Wire(p[j].id)
  }

  /** Every id lies in the last `ID_SPACE` allocations before `next`. */
  predicate InWindow(id: nat, next: nat) {
    id < next <= id + ID_SPACE
  }

  /** Both stop at the first entry with that wire id. */
  lemma {:induction false} FirstMatch(p: seq<Entry>, k: nat, id: nat)
    requires k <= |p| && forall i :: 0 <= i < k ==> Wire(p[i].id) != Wire(id)
    requires k < |p| ==> Wire(p[k].id) == Wire(id)
    ensures Peek(p, id) == if k < |p| then Some(p[k].fid) else None
    ensures Take(p, id) == if k < |p| then p[..k] + p[k + 1..] else p
  {
    if k > 0 {
      FirstMatch(p[1..], k - 1, id);
      assert p == [p[0]] + p[1..];
    }
  }

  /** Taking removes one entry of the peeked fiber and of nobody else. */
  lemma {:induction false} TakeCount(p: seq<Entry>, id: nat, fid: nat)
    ensures Count(p, fid) == Count(Take(p, id), fid) + (if Peek(p, id) == Some(fid) then 1 else 0)
  {
    if p != [] && Wire(p[0].id) != Wire(id) {
      TakeCount(p[1..], id, fid);
      assert ([p[0]] + Take(p[1..], id))[1..] == Take(p[1..], id);
    }
  }

  /** On a table without wire collisions, peek finds the entry with that wire id and take removes
      exactly it. */
  lemma {:induction false} TakeExact(p: seq<Entry>, id: nat)
    requires WireDistinct(p)
    ensures Peek(p, id).None? <==> forall e <- p :: Wire(e.id) != Wire(id)
    ensures forall e <- p :: Wire(e.id) == Wire(id) ==> Peek(p, id) == Some(e.fid)
    ensures forall e :: e in Take(p, id) <==> e in p && Wire(e.id) != Wire(id)
    ensures WireDistinct(Take(p, id))
    ensures Peek(p, id).None? ==> Take(p, id) == p
  {
    if p != [] {
      var rest := p[1..];
      assert p == [p[0]] + rest;
      if Wire(p[0].id) != Wire(id) {
        TakeExact(rest, id);
        var t := [p[0]] + Take(rest, id);
        forall i, j | 0 <= i < j < |t| ensures Wire(t[i].id) != Wire(t[j].id) {
          assert t[j] in Take(rest, id);
          if i == 0 {
            assert t[j] in rest;
          }
        }
      } else {
        forall e | e in rest ensures Wire(e.id) != Wire(id) {}
      }
    }
  }

  lemma {:induction false} CountZero(p: seq<Entry>, fid: nat)
    ensures Count(p, fid) == 0 <==> forall e <- p :: e.fid != fid
  {
    if p != [] {
      assert p == [p[0]] + p[1..];
      CountZero(p[1..], fid);
    }
  }

  lemma CountPush(e: Entry, p: seq<Entry>, fid: nat)
    ensures Count([e] + p, fid) == Count(p, fid) + (if e.fid == fid then 1 else 0)
  {
    assert ([e] + p)[1..] == p;
  }
}
