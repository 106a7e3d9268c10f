/**
 The identities a node has in a key's committee, refresh epoch by refresh epoch
 (services/mpc-party/tss_resharing.go, services/mpc-party/tss_party.go).

 A committee is the sequence of its members' tss-lib identities by increasing key; a member's
 index is its position in it.
 */
module Committees {
  import opened Wrappers

  /** A party process, by its party number. */
  datatype Node = Node(number: int)

  /** A tss-lib identity, by its key: the x-coordinate its share is taken at. */
  datatype PartyID = PartyID(key: int)

  /** The party numbers the identity scheme has room for. */
  predicate IsNode(n: Node) {
    1 <= n.number <= 999_999
  }

  ghost predicate AreNodes(ids: set<Node>) {
    forall n | n in ids :: IsNode(n)
  }

  /** Epoch 0 is the key generation, whose keys are the bare party numbers. */
  function CommitteeKey(n: Node, epoch: nat): PartyID {
    PartyID(epoch * 1_000_000 + n.number)
  }

  function NodeOf(p: PartyID): Node {
    if p.key <= 0 then Node(-1) else Node(p.key % 1_000_000)
  }

  function EpochOf(p: PartyID): int {
    if p.key <= 0 then 0 else p.key / 1_000_000
  }

  /** A key names one node in one epoch, and is the bare party number at the first epoch only. */
  lemma KeyNamesNodeAndEpoch(n: Node, epoch: nat)
    requires IsNode(n)
    ensures NodeOf(CommitteeKey(n, epoch)) == n && EpochOf(CommitteeKey(n, epoch)) == epoch
    ensures forall m | IsNode(m) :: CommitteeKey(m, epoch) == PartyID(n.number) <==> epoch == 0 && m == n
  {
  }

  /** The scheme tells a party number from the epoch, at every epoch, if and only if the number is
      in 1..999,999. */
  lemma NumbersToldApartExactly(n: Node)
    ensures (forall epoch: nat :: NodeOf(CommitteeKey(n, epoch)) == n && EpochOf(CommitteeKey(n, epoch)) == epoch)
            <==> 1 <= n.number <= 999_999
  {
    if 1 <= n.number <= 999_999 {
      forall epoch: nat
        ensures NodeOf(CommitteeKey(n, epoch)) == n && EpochOf(CommitteeKey(n, epoch)) == epoch
      {
        KeyNamesNodeAndEpoch(n, epoch);
      }
    } else {
      var epoch := if n.number < 0 then 1 else 0;
      assert !(NodeOf(CommitteeKey(n, epoch)) == n && EpochOf(CommitteeKey(n, epoch)) == epoch);
    }
  }

  // ---- sorting ----

  ghost predicate Increasing(s: seq<PartyID>) {
    forall i, j | 0 <= i < j < |s| :: s[i].key < s[j].key
  }

  /** Puts an identity in its place. */
  function Insert(s: seq<PartyID>, x: PartyID): (r: seq<PartyID>)
    requires Increasing(s) && x !in s
    ensures Increasing(r) && |r| == |s| + 1
    ensures forall y :: y in r <==> y == x || y in s
  {
    if s == [] then [x]
    else
      var front, last := s[..|s| - 1], s[|s| - 1];
      assert s == front + [last];
      if last.key < x.key then s + [x]
      else
        var r := Insert(front, x);
        assert forall i | 0 <= i < |r| :: r[i] in r;
        r + [last]
  }

  lemma WithoutLast(a: seq<PartyID>)
    requires a != [] && Increasing(a)
    ensures Increasing(a[..|a| - 1]) && a[|a| - 1] in a
    ensures forall z | z in a :: z.key <= a[|a| - 1].key
    ensures forall z :: z in a[..|a| - 1] <==> z in a && z != a[|a| - 1]
  {
    assert a == a[..|a| - 1] + [a[|a| - 1]];
  }

  lemma HeadIsIn(s: seq<PartyID>)
    ensures s == [] || s[0] in s
  {
  }

  /** An increasing sequence is determined by its elements. */
  lemma {:induction false} IncreasingUnique(a: seq<PartyID>, b: seq<PartyID>)
    requires Increasing(a) && Increasing(b)
    requires forall x :: x in a <==> x in b
    ensures a == b
  {
    if a != [] {
      WithoutLast(a);
      WithoutLast(b);
      var x, y := a[|a| - 1], b[|b| - 1];
      assert x.key <= y.key && y.key <= x.key && x == y;
      var a', b' := a[..|a| - 1], b[..|b| - 1];
      forall z
        ensures z in a' <==> z in b'
      {
        assert z in a <==> z in b;
      }
      IncreasingUnique(a', b');
      assert a == a' + [x] && b == b' + [y];
    }
    HeadIsIn(b);
  }

  ghost predicate Lists(s: seq<PartyID>, members: set<PartyID>) {
    Increasing(s) && forall x :: x in s <==> x in members
  }

  function KeysOf(ids: set<Node>, epoch: nat): set<PartyID> {
    set n | n in ids :: CommitteeKey(n, epoch)
  }

  /** The committee of a set of parties at an epoch; there is exactly one. */
  ghost function Committee(ids: set<Node>, epoch: nat): (c: seq<PartyID>)
    ensures Lists(c, KeysOf(ids, epoch))
  {
    CommitteeExists(KeysOf(ids, epoch));
    var c :| Lists(c, KeysOf(ids, epoch));
    c
  }

  lemma {:induction false} CommitteeExists(keys: set<PartyID>)
    ensures exists c :: Lists(c, keys)
  {
    if keys == {} {
      assert Lists([], keys);
    } else {
      var k :| k in keys;
      CommitteeExists(keys - {k});
      var c :| Lists(c, keys - {k});
      assert Lists(Insert(c, k), keys);
    }
  }

  /** Builds the committee by running over the peers in whatever order the map yields them. */
  method CommitteePartyIDs(peers: map<Node, string>, epoch: nat) returns (sorted: seq<PartyID>)
    ensures sorted == Committee(peers.Keys, epoch)
  {
    sorted := [];
    var rest := peers.Keys;
    while rest != {}
      invariant rest <= peers.Keys && Lists(sorted, KeysOf(peers.Keys - rest, epoch))
      decreases rest
    {
      var id :| id in rest;
      sorted := Insert(sorted, CommitteeKey(id, epoch));
      rest := rest - {id};
    }
    assert peers.Keys - rest == peers.Keys;
    IncreasingUnique(sorted, Committee(peers.Keys, epoch));
  }

  // ---- look-ups ----

  /** The index of an identity. */
  function FindByKey(committee: seq<PartyID>, p: PartyID): (r: Option<nat>)
    ensures r.Some? ==> r.value < |committee| && committee[r.value] == p
    ensures r.Some? <==> p in committee
  {
    if committee == [] then None
    else
      var front, last := committee[..|committee| - 1], committee[|committee| - 1];
      assert committee == front + [last];
      if last == p then Some(|committee| - 1) else FindByKey(front, p)
  }

  /** The index of the identity a node holds, whatever the committee's epoch. */
  function FindByNode(committee: seq<PartyID>, n: Node): (r: Option<nat>)
    ensures r.Some? ==> r.value < |committee| && NodeOf(committee[r.value]) == n
    ensures r.None? ==> forall p | p in committee :: NodeOf(p) != n
  {
    if committee == [] then None
    else
      var front, last := committee[..|committee| - 1], committee[|committee| - 1];
      assert committee == front + [last];
      if NodeOf(last) == n then Some(|committee| - 1) else FindByNode(front, n)
  }

  /** The look-up by bare party number that findPartyID does. */
  function FindByNumber(committee: seq<PartyID>, n: Node): Option<nat> {
    FindByKey(committee, PartyID(n.number))
  }

  lemma MembersAreKeys(ids: set<Node>, epoch: nat)
    requires AreNodes(ids)
    ensures forall p | p in Committee(ids, epoch) :: NodeOf(p) in ids && EpochOf(p) == epoch && p == CommitteeKey(NodeOf(p), epoch)
    ensures forall n | n in ids :: CommitteeKey(n, epoch) in Committee(ids, epoch)
  {
    forall p | p in Committee(ids, epoch)
      ensures NodeOf(p) in ids && EpochOf(p) == epoch && p == CommitteeKey(NodeOf(p), epoch)
    {
      var n :| n in ids && p == CommitteeKey(n, epoch);
      KeyNamesNodeAndEpoch(n, epoch);
    }
  }

  /** All three look-ups find the identity a member holds, except that the look-up by bare
      number finds it at the first epoch only. */
  lemma LookupsAgree(ids: set<Node>, epoch: nat, n: Node)
    requires AreNodes(ids) && IsNode(n)
    ensures var c := Committee(ids, epoch);
            && (FindByKey(c, CommitteeKey(n, epoch)).Some? <==> n in ids)
            && FindByNode(c, n) == FindByKey(c, CommitteeKey(n, epoch))
            && (FindByNumber(c, n).Some? <==> n in ids && epoch == 0)
  {
    var c := Committee(ids, epoch);
    MembersAreKeys(ids, epoch);
    KeyNamesNodeAndEpoch(n, epoch);
    var i, j := FindByNode(c, n), FindByKey(c, CommitteeKey(n, epoch));
    if i.Some? {
      assert c[i.value] in c;
    }
    if FindByNumber(c, n).Some? {
      assert PartyID(n.number) in c;
      var m :| m in ids && PartyID(n.number) == CommitteeKey(m, epoch);
    }
  }

  /** No identity is shared by the committees of two epochs, whatever their members. */
  lemma EpochsAreDisjoint(ids: set<Node>, epoch: nat, ids': set<Node>, epoch': nat)
    requires AreNodes(ids) && AreNodes(ids') && epoch != epoch'
    ensures forall p | p in Committee(ids, epoch) :: p !in Committee(ids', epoch')
  {
    MembersAreKeys(ids, epoch);
    MembersAreKeys(ids', epoch');
  }

  /** A committee has as many members as parties. */
  lemma {:induction false} CommitteeSize(ids: set<Node>, epoch: nat)
    ensures |Committee(ids, epoch)| == |ids|
  {
    var c := Committee(ids, epoch);
    if ids == {} {
      IncreasingUnique([], c);
    } else {
      var n :| n in ids;
      var rest := Committee(ids - {n}, epoch);
      CommitteeSize(ids - {n}, epoch);
      IncreasingUnique(Insert(rest, CommitteeKey(n, epoch)), c);
    }
  }
}
