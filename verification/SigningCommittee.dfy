/**
 Which committees may sign (services/mpc-party/tss_signing.go): the selection out of a key's
 committee, exactly when it is accepted, and that any two accepted ones overlap.
 */
module SigningCommittees {
  import opened Wrappers
  import opened Committees
  import opened PartyStates

  lemma {:induction false} SelectedElements(full: seq<PartyID>, wanted: set<Node>)
    requires Increasing(full)
    ensures Increasing(Selected(full, wanted))
    ensures forall p :: p in Selected(full, wanted) <==> p in full && NodeOf(p) in wanted
  {
    if full != [] {
      var front, last := full[..|full| - 1], full[|full| - 1];
      WithoutLast(full);
      SelectedElements(front, wanted);
      var r := Selected(front, wanted);
      assert forall i | 0 <= i < |r| :: r[i] in r;
    }
  }

  /** Selecting from a key's committee gives the committee of the parties asked for. */
  lemma SelectedIsCommittee(ids: set<Node>, epoch: nat, wanted: set<Node>)
    requires AreNodes(ids)
    ensures Selected(Committee(ids, epoch), wanted) == Committee(ids * wanted, epoch)
  {
    var r := Selected(Committee(ids, epoch), wanted);
    SelectedElements(Committee(ids, epoch), wanted);
    MembersAreKeys(ids, epoch);
    MembersAreKeys(ids * wanted, epoch);
    IncreasingUnique(r, Committee(ids * wanted, epoch));
  }

  lemma {:induction false} DistinctCount(list: seq<Node>)
    ensures |SetOf(list)| <= |list|
    ensures |SetOf(list)| == |list| <==> Distinct(list)
  {
    if list != [] {
      var front, last := list[..|list| - 1], list[|list| - 1];
      DistinctCount(front);
      assert list == front + [last];
      assert SetOf(list) == SetOf(front) + {last};
      if last in front {
        var i :| 0 <= i < |front| && front[i] == last;
        assert list[i] == list[|list| - 1];
        assert SetOf(list) == SetOf(front);
      } else {
        assert Distinct(list) <==> Distinct(front);
      }
    }
  }

  lemma SubsetOfEqualSize(a: set<Node>, b: set<Node>)
    requires a <= b && |a| == |b|
    ensures a == b
  {
    assert |b - a| == 0;
  }

  /** A list names as many members of `ids` as it has entries just when it names distinct ones. */
  lemma NamesDistinctMembers(ids: set<Node>, list: seq<Node>)
    ensures |ids * SetOf(list)| == |list| <==> Distinct(list) && SetOf(list) <= ids
  {
    var named := SetOf(list);
    DistinctCount(list);
    assert |named| == |ids * named| + |named - ids|;
    if |ids * named| == |list| {
      SubsetOfEqualSize(ids * named, named);
    } else if named <= ids {
      assert ids * named == named;
    }
  }

  /** A ceremony whose identities are its parties' at its epoch. */
  ghost predicate Coherent(c: Keygen) {
    AreNodes(c.peers.Keys) && c.sortedIDs == Committee(c.peers.Keys, c.epoch)
  }

  /** Signing is accepted exactly when the key is completed with its share present, the message
      length suits the curve, and the list is threshold+1 distinct parties of the key, this one
      among them; the committee is then those parties', with indices by position. */
  lemma SigningAcceptedExactly(self: Node, s: State, id: string, length: nat, list: seq<Node>)
    requires id in s.ceremonies ==> Coherent(s.ceremonies[id])
    ensures var session := SigningSession(self, s, id, length, list);
            && (session.Some? <==>
                  && id in s.ceremonies && s.ceremonies[id].status == Completed && s.ceremonies[id].share.Some?
                  && length > 0 && (s.ceremonies[id].share.value.curve.Secp256k1? ==> length == 32)
                  && |list| == s.ceremonies[id].threshold + 1 && Distinct(list)
                  && SetOf(list) <= s.ceremonies[id].peers.Keys && self in list)
            && (session.Some? ==>
                  && session.value.share == s.ceremonies[id].share.value && session.value.epoch == s.ceremonies[id].epoch
                  && session.value.committee == Committee(SetOf(list), session.value.epoch)
                  && session.value.index < |session.value.committee|
                  && session.value.committee[session.value.index] == CommitteeKey(self, session.value.epoch))
  {
    if id in s.ceremonies {
      var c := s.ceremonies[id];
      var ids, wanted := c.peers.Keys, SetOf(list);
      SelectedIsCommittee(ids, c.epoch, wanted);
      CommitteeSize(ids * wanted, c.epoch);
      NamesDistinctMembers(ids, list);
      if self in list && wanted <= ids {
        assert ids * wanted == wanted;
        LookupsAgree(wanted, c.epoch, self);
      }
    }
  }

  /** Whatever order the lists come in, parties given the same members at the same epoch sign
      in the same committee, and each is at the index of its own identity in it. */
  lemma SameCommitteeEverywhere(p: Node, s: State, list: seq<Node>, q: Node, t: State, list': seq<Node>, id: string, length: nat)
    requires id in s.ceremonies && Coherent(s.ceremonies[id]) && id in t.ceremonies && Coherent(t.ceremonies[id])
    requires s.ceremonies[id].epoch == t.ceremonies[id].epoch && SetOf(list) == SetOf(list')
    requires SigningSession(p, s, id, length, list).Some? && SigningSession(q, t, id, length, list').Some?
    ensures var a, b := SigningSession(p, s, id, length, list).value, SigningSession(q, t, id, length, list').value;
            && a.committee == b.committee && (a.index == b.index <==> p == q)
  {
    SigningAcceptedExactly(p, s, id, length, list);
    SigningAcceptedExactly(q, t, id, length, list');
    var a, b := SigningSession(p, s, id, length, list).value, SigningSession(q, t, id, length, list').value;
    if a.index == b.index {
      assert CommitteeKey(p, a.epoch) == CommitteeKey(q, a.epoch);
    }
  }

  lemma {:induction false} SubsetOfSize(ids: set<Node>, k: nat) returns (a: set<Node>)
    requires k <= |ids|
    ensures a <= ids && |a| == k
  {
    if k == 0 {
      a := {};
    } else {
      var n :| n in ids;
      a := SubsetOfSize(ids - {n}, k - 1);
      a := a + {n};
    }
  }

  /** A key is accepted for generation if and only if any two committees that could sign with it
      have a party in common. */
  lemma MajorityRuleExactly(ids: set<Node>, threshold: int)
    requires 0 <= threshold && threshold + 1 <= |ids|
    ensures MajorityRule(|ids|, threshold) <==>
            forall a, b | a <= ids && b <= ids && |a| == |b| == threshold + 1 :: a * b != {}
  {
    if MajorityRule(|ids|, threshold) {
      forall a, b | a <= ids && b <= ids && |a| == |b| == threshold + 1
        ensures a * b != {}
      {
        MajoritiesMeet(ids, threshold, a, b);
      }
    } else {
      var a := SubsetOfSize(ids, threshold + 1);
      assert |ids - a| == |ids| - |a|;
      var b := SubsetOfSize(ids - a, threshold + 1);
      assert a * b == {};
    }
  }

  /** Two committees larger than half of the parties have a party in common. */
  lemma MajoritiesMeet(ids: set<Node>, threshold: int, a: set<Node>, b: set<Node>)
    requires MajorityRule(|ids|, threshold) && a <= ids && b <= ids && a != {} && b != {}
    requires |a| == |b| == threshold + 1
    ensures a * b != {}
  {
    assert |a + b| == |a| + |b| - |a * b|;
    assert |ids| == |a + b| + |ids - (a + b)|;
  }
}
