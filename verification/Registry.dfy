/** The notify registry: what unregistering and publishing do to, and with, a list of registrations. */
module Registry {
  import opened Base
  import opened Machine

  predicate Matches(c: Client, category: nat, clientId: nat) {
    c.category == category && c.clientId == clientId
  }

  /** Unregistering takes away the first match, which is the latest registration, and nothing else. */
  lemma {:induction false} RemovedFirst(clients: seq<Client>, k: nat, category: nat, clientId: nat)
    requires k <= |clients| && forall i :: 0 <= i < k ==> !Matches(clients[i], category, clientId)
    requires k < |clients| ==> Matches(clients[k], category, clientId)
    ensures Removed(clients, category, clientId) == if k < |clients| then clients[..k] + clients[k + 1..] else clients
  {
    if k > 0 {
      RemovedFirst(clients[1..], k - 1, category, clientId);
      assert clients == [clients[0]] + clients[1..];
    }
  }

  /** It removes exactly one registration if one matches, and none otherwise. */
  lemma {:induction false} RemovesOne(clients: seq<Client>, category: nat, clientId: nat)
    ensures var r := Removed(clients, category, clientId);
      if exists c <- clients :: Matches(c, category, clientId)
      then exists c <- clients :: Matches(c, category, clientId) && multiset(clients) == multiset(r) + multiset{c}
      else r == clients
  {
    if clients != [] {
      var first, rest := clients[0], clients[1..];
      assert clients == [first] + rest;
      assert multiset(clients) == multiset{first} + multiset(rest);
      if !Matches(first, category, clientId) {
        RemovesOne(rest, category, clientId);
        var r := Removed(rest, category, clientId);
        assert multiset([first] + r) == multiset{first} + multiset(r);
      }
    }
  }

  /** The event that a registration earns when its category is published. */
  function NoticeTo(c: Client, from: int, msg: Bytes): Posting {
    Posting(c.listener, Event.Notify(c.category, c.clientId, from, msg))
  }

  predicate Rising(s: seq<nat>) {
    forall k, l :: 0 <= k < l < |s| ==> s[k] < s[l]
  }

  function Up(s: seq<nat>): (r: seq<nat>)
    ensures |r| == |s| && forall k :: 0 <= k < |s| ==> r[k] == s[k] + 1
  {
    seq(|s|, k requires 0 <= k < |s| => s[k] + 1)
  }

  lemma RisingUp(s: seq<nat>, head: seq<nat>)
    requires Rising(s) && (head == [] || head == [0])
    ensures Rising(head + Up(s))
  {
    var at, up := head + Up(s), Up(s);
    forall k, l | 0 <= k < l < |at| ensures at[k] < at[l] {
      assert at[l] == up[l - |head|];
      if k >= |head| {
        assert at[k] == up[k - |head|];
      }
    }
  }

  lemma InUp(s: seq<nat>, i: nat)
    requires i in s
    ensures i + 1 in Up(s)
  {
    var k :| 0 <= k < |s| && s[k] == i;
    assert Up(s)[k] == i + 1;
  }

  /** The posting is the notice that the registration at place `i` earns. */
  predicate NoticeAt(clients: seq<Client>, i: nat, category: nat, from: int, msg: Bytes, p: Posting) {
    i < |clients| && clients[i].category == category && p == NoticeTo(clients[i], from, msg)
  }

  /** Notices are posted in the order of the list of registrations, the latest first. */
  lemma {:induction false} NoticesInOrder(clients: seq<Client>, category: nat, from: int, msg: Bytes)
    returns (at: seq<nat>)
    ensures var out := Notices(clients, category, from, msg);
      && |at| == |out| && Rising(at)
      && (forall k :: 0 <= k < |at| ==> NoticeAt(clients, at[k], category, from, msg, out[k]))
      && (forall i :: 0 <= i < |clients| && clients[i].category == category ==> i in at)
  {
    hide Rising;
    if clients == [] {
      NoneRising();
      at := [];
    } else {
      var rest := clients[1..];
      var later := NoticesInOrder(rest, category, from, msg);
      var head: seq<nat> := if clients[0].category == category then [0] else [];
      RisingUp(later, head);
      at := head + Up(later);
      AllNotices(clients, category, from, msg, later, head);
      forall i | 0 <= i < |clients| && clients[i].category == category ensures i in at {
        if i > 0 {
          assert rest[i - 1] == clients[i];
          InUp(later, i - 1);
        }
      }
    }
  }

  lemma NoneRising()
    ensures Rising([])
  {}

  lemma AllNotices(clients: seq<Client>, category: nat, from: int, msg: Bytes, later: seq<nat>, head: seq<nat>)
    requires clients != [] && head == if clients[0].category == category then [0] else []
    requires var more := Notices(clients[1..], category, from, msg);
      && |later| == |more|
      && forall k :: 0 <= k < |later| ==> NoticeAt(clients[1..], later[k], category, from, msg, more[k])
    ensures var at, out := head + Up(later), Notices(clients, category, from, msg);
      |at| == |out| && forall k :: 0 <= k < |at| ==> NoticeAt(clients, at[k], category, from, msg, out[k])
  {
    var at, out := head + Up(later), Notices(clients, category, from, msg);
    var more := Notices(clients[1..], category, from, msg);
    var first := if clients[0].category == category then [NoticeTo(clients[0], from, msg)] else [];
    assert out == first + more;
    forall k | 0 <= k < |at| ensures NoticeAt(clients, at[k], category, from, msg, out[k]) {
      if k >= |head| {
        var l := k - |head|;
        assert at[k] == Up(later)[l] && out[k] == more[l] && clients[1..][later[l]] == clients[at[k]];
      }
    }
  }

  function OfCategory(clients: seq<Client>, category: nat): nat {
    if clients == [] then 0 else (if clients[0].category == category then 1 else 0) + OfCategory(clients[1..], category)
  }

  /** Publishing posts exactly one event for each registration of the category, to its listener and with its
      client id, and nothing else: as many copies of a notice as there are equal registrations. */
  lemma {:induction false} OneNoticeEach(clients: seq<Client>, category: nat, from: int, msg: Bytes)
    ensures var out := Notices(clients, category, from, msg);
      && |out| == OfCategory(clients, category)
      && (forall c: Client :: c.category == category ==> multiset(out)[NoticeTo(c, from, msg)] == multiset(clients)[c])
      && (forall p <- out :: exists c <- clients :: c.category == category && p == NoticeTo(c, from, msg))
  {
    if clients != [] {
      var rest := clients[1..];
      OneNoticeEach(rest, category, from, msg);
      assert clients == [clients[0]] + rest;
      assert multiset(clients) == multiset{clients[0]} + multiset(rest);
      var head := if clients[0].category == category then [NoticeTo(clients[0], from, msg)] else [];
      var more := Notices(rest, category, from, msg);
      assert Notices(clients, category, from, msg) == head + more;
      assert multiset(head + more) == multiset(head) + multiset(more);
    }
  }
}
