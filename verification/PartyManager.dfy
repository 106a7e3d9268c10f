/**
 TSSPartyManager (services/mpc-party/tss_party.go, tss_signing.go, tss_resharing.go): the maps a
 party process keeps and the operations that update them, each proved against its step in
 PartyState.dfy.
 */
module PartyManagers {
  import opened Wrappers
  import opened Committees
  import opened PartyStates
  import opened SigningCommittees

  /** A tss-lib PartyID as an object: sorting writes its index in place. */
  class Identity {
    const id: PartyID
    var index: int

    constructor (id: PartyID)
      ensures this.id == id
    {
      this.id, index := id, -1;
    }
  }

  function IDs(s: seq<Identity>): (r: seq<PartyID>)
    ensures |r| == |s| && forall i | 0 <= i < |s| :: r[i] == s[i].id
  {
    seq(|s|, i requires 0 <= i < |s| => s[i].id)
  }

  ghost predicate DistinctIDs(s: seq<Identity>) {
    forall i, j | 0 <= i < j < |s| :: s[i].id != s[j].id
  }

  /** Puts an identity among sorted ones, searching its place from the end. */
  method Place(sorted: seq<Identity>, x: Identity) returns (r: seq<Identity>)
    requires Increasing(IDs(sorted)) && forall i | 0 <= i < |sorted| :: sorted[i].id != x.id
    ensures Increasing(IDs(r)) && multiset(r) == multiset(sorted) + multiset{x}
  {
    var p := |sorted|;
    while p > 0 && sorted[p - 1].id.key > x.id.key
      invariant 0 <= p <= |sorted| && forall i | p <= i < |sorted| :: sorted[i].id.key > x.id.key
    {
      p := p - 1;
    }
    r := sorted[..p] + [x] + sorted[p..];
    InsertBag(sorted, p, x);
    IDsInsert(sorted, p, x);
    if p > 0 {
      assert forall i | 0 <= i < p - 1 :: IDs(sorted)[i].key < IDs(sorted)[p - 1].key;
      assert sorted[p - 1].id.key < x.id.key;
    }
    InsertAt(IDs(sorted), p, x.id);
  }

  lemma InsertBag(s: seq<Identity>, p: nat, x: Identity)
    requires p <= |s|
    ensures multiset(s[..p] + [x] + s[p..]) == multiset(s) + multiset{x}
  {
    assert s == s[..p] + s[p..];
  }

  lemma IDsInsert(s: seq<Identity>, p: nat, x: Identity)
    requires p <= |s|
    ensures IDs(s[..p] + [x] + s[p..]) == IDs(s)[..p] + [x.id] + IDs(s)[p..]
  {
    var r := s[..p] + [x] + s[p..];
    forall i | 0 <= i < |r|
      ensures IDs(r)[i] == (IDs(s)[..p] + [x.id] + IDs(s)[p..])[i]
    {
      assert IDs(r)[i] == r[i].id;
    }
  }

  lemma InsertAt(s: seq<PartyID>, p: nat, x: PartyID)
    requires Increasing(s) && p <= |s|
    requires forall i | 0 <= i < p :: s[i].key < x.key
    requires forall i | p <= i < |s| :: x.key < s[i].key
    ensures Increasing(s[..p] + [x] + s[p..])
  {
  }

  /** Sorts by key, then numbers the sorted objects in place. */
  method SortPartyIDs(unsorted: seq<Identity>) returns (sorted: seq<Identity>)
    requires DistinctIDs(unsorted)
    modifies unsorted
    ensures Increasing(IDs(sorted)) && multiset(sorted) == multiset(unsorted)
    ensures forall i | 0 <= i < |sorted| :: sorted[i].index == i
  {
    sorted := [];
    for k := 0 to |unsorted|
      invariant Increasing(IDs(sorted)) && multiset(sorted) == multiset(unsorted[..k])
      invariant forall i | 0 <= i < |unsorted| :: unsorted[i].index == old(unsorted[i].index)
    {
      assert unsorted[..k + 1] == unsorted[..k] + [unsorted[k]];
      Elements(sorted, unsorted[..k]);
      sorted := Place(sorted, unsorted[k]);
    }
    assert unsorted[..|unsorted|] == unsorted;
    Elements(sorted, unsorted);
    DistinctObjects(sorted);
    for k := 0 to |sorted|
      invariant forall i | 0 <= i < k :: sorted[i].index == i
    {
      sorted[k].index := k;
    }
  }

  lemma Elements(a: seq<Identity>, b: seq<Identity>)
    requires multiset(a) == multiset(b)
    ensures forall i | 0 <= i < |a| :: a[i] in b
    ensures forall x :: x in a <==> x in b
  {
    forall x: Identity
      ensures x in a <==> x in b
    {
      assert x in a <==> x in multiset(a);
      assert x in b <==> x in multiset(b);
    }
  }

  lemma DistinctObjects(s: seq<Identity>)
    requires Increasing(IDs(s))
    ensures forall i, j | 0 <= i < j < |s| :: s[i] != s[j]
  {
    forall i, j | 0 <= i < j < |s|
      ensures s[i] != s[j]
    {
      assert IDs(s)[i].key < IDs(s)[j].key;
    }
  }

  /** Picks the wanted members as new objects and numbers those: with nothing in its frame it
      cannot renumber the identities of the key generation. */
  method SelectCommittee(full: seq<Identity>, wanted: set<Node>) returns (committee: seq<Identity>)
    requires Increasing(IDs(full))
    ensures IDs(committee) == Selected(IDs(full), wanted)
    ensures forall i | 0 <= i < |committee| :: fresh(committee[i]) && committee[i].index == i
  {
    var unsorted: seq<Identity> := [];
    for k := 0 to |full|
      invariant IDs(unsorted) == Selected(IDs(full)[..k], wanted)
      invariant forall i | 0 <= i < |unsorted| :: fresh(unsorted[i])
    {
      assert IDs(full)[..k + 1][..k] == IDs(full)[..k];
      if NodeOf(full[k].id) in wanted {
        var copy := new Identity(full[k].id);
        assert IDs(unsorted + [copy]) == IDs(unsorted) + [full[k].id];
        unsorted := unsorted + [copy];
      }
    }
    assert IDs(full)[..|full|] == IDs(full);
    SelectedElements(IDs(full), wanted);
    IncreasingDistinct(unsorted);
    committee := SortPartyIDs(unsorted);
    Elements(committee, unsorted);
    SameIDs(committee, unsorted);
  }

  lemma IncreasingDistinct(s: seq<Identity>)
    requires Increasing(IDs(s))
    ensures DistinctIDs(s)
  {
    forall i, j | 0 <= i < j < |s|
      ensures s[i].id != s[j].id
    {
      assert IDs(s)[i].key < IDs(s)[j].key;
    }
  }

  lemma SameIDs(a: seq<Identity>, b: seq<Identity>)
    requires Increasing(IDs(a)) && Increasing(IDs(b)) && forall x :: x in a <==> x in b
    ensures IDs(a) == IDs(b)
  {
    forall p
      ensures p in IDs(a) <==> p in IDs(b)
    {
      assert p in IDs(a) <==> exists i | 0 <= i < |a| :: a[i].id == p && a[i] in b;
      assert p in IDs(b) <==> exists i | 0 <= i < |b| :: b[i].id == p && b[i] in a;
    }
    IncreasingUnique(IDs(a), IDs(b));
  }

  class TSSPartyManager {
    const partyID: Node
    var ceremonies: map<string, Keygen>
    var resharings: map<string, Resharing>
    var signings: map<string, Signing>
    var generating: map<string, Keygen>
    var finishing: map<string, Keygen>
    var failing: set<string>
    var checked: map<string, string>
    var loading: map<string, (string, Keygen)>
    var store: map<string, Record>
    ghost var used: set<string>
    ghost var keys: map<string, Made>

    constructor (partyID: Node)
      ensures this.partyID == partyID && Snapshot() == Initial
    {
      this.partyID := partyID;
      ceremonies, resharings, signings, generating, finishing := map[], map[], map[], map[], map[];
      failing, checked, loading, store, used, keys := {}, map[], map[], map[], {}, map[];
    }

    ghost function Snapshot(): State
      reads this
    {
      State(ceremonies, resharings, signings, generating, finishing, failing, checked, loading, store, used, keys)
    }

    method StartKeygen(id: string, threshold: int, peers: map<Node, string>, curve: Curve) returns (ok: bool)
      modifies this
      ensures Snapshot() == OnStartKeygen(partyID, old(Snapshot()), id, threshold, peers, curve)
      ensures ok <==> partyID in peers && (|peers| < 2 || 2 * (threshold + 1) > |peers|)
    {
      if partyID !in peers || (|peers| >= 2 && threshold + 1 < |peers| / 2 + 1) {
        return false;
      }
      var sorted := CommitteePartyIDs(peers, 0);
      var ceremony := Keygen(InProgress, threshold, sorted, peers, curve, 0, None, "", "", false);
      ceremonies, generating, used := ceremonies[id := ceremony], generating[id := ceremony], used + {id};
      return true;
    }

    method FailCeremony(id: string)
      modifies this`ceremonies
      ensures Snapshot() == Fail(old(Snapshot()), id)
    {
      if id in ceremonies {
        ceremonies := ceremonies[id := ceremonies[id].(status := Failed)];
      }
    }

    /** Seals the share before reporting success; a share that cannot be sealed fails the ceremony. */
    method CompleteCeremony(id: string, share: KeyShare, address: Option<string>, outcome: SealOutcome)
      modifies this
      ensures Snapshot() == OnKeygenFails(OnKeygenInstalls(OnKeygenSeals(old(Snapshot()), id, share, address, outcome), id), id)
    {
      SealCeremony(id, share, address, outcome);
      if id in finishing {
        var done := finishing[id];
        finishing := finishing - {id};
        if id in ceremonies && ceremonies[id].status == InProgress {
          ceremonies := ceremonies[id := done];
        }
      }
      if id in failing {
        failing := failing - {id};
        FailCeremony(id);
      }
    }

    method SealCeremony(id: string, share: KeyShare, address: Option<string>, outcome: SealOutcome)
      modifies this
      ensures Snapshot() == OnKeygenSeals(old(Snapshot()), id, share, address, outcome)
    {
      if id in generating {
        if share.publicKey == "" || address.None? || outcome.SealFailed? {
          generating := generating - {id};
          FailCeremony(id);
        } else {
          var done := generating[id].(status := Completed, share := Some(share), publicKey := share.publicKey,
                                      address := address.value, sealed := outcome.Sealed?);
          keys := keys[id := Made(share.publicKey, address.value)];
          if outcome.Written() {
            store := store[id := Record(share, Some(KeygenContext(done)))];
          }
          generating := generating - {id};
          if outcome.SealLost? {
            failing := failing + {id};
          } else {
            finishing := finishing[id := done];
          }
        }
      }
    }

    method StartResharing(rid: string, id: string, peers: map<Node, string>) returns (ok: bool)
      modifies this`resharings
      ensures Snapshot() == OnStartRefresh(partyID, old(Snapshot()), rid, id, peers)
      ensures ok <==> rid !in old(resharings) && rid in resharings
    {
      if rid in resharings || id !in ceremonies {
        return false;
      }
      var c := ceremonies[id];
      if c.status != Completed || c.share.None? || |peers| == 0 {
        return false;
      }
      var oldSorted := CommitteePartyIDs(peers, c.epoch);
      var newSorted := CommitteePartyIDs(peers, c.epoch + 1);
      if FindByKey(oldSorted, CommitteeKey(partyID, c.epoch)).None? {
        return false;
      }
      resharings := resharings[rid := Resharing(InProgress, c.threshold, c.curve, oldSorted, newSorted, c.epoch + 1, id,
                                                c.publicKey, c.address, c.share.value, None, Registered)];
      return true;
    }

    method RunResharing(rid: string)
      requires rid in resharings && resharings[rid].phase == Registered
      modifies this`resharings
      ensures Snapshot() == OnRefreshRuns(partyID, old(Snapshot()), rid)
    {
      var r := resharings[rid];
      var oldSelf := FindByNumber(r.oldSorted, partyID);
      var newSelf := FindByKey(r.newSorted, CommitteeKey(partyID, r.newEpoch));
      if oldSelf.None? || newSelf.None? || r.input.curve != r.curve {
        resharings := resharings[rid := r.(status := Failed, phase := Stopped)];
        return;
      }
      resharings := resharings[rid := r.(phase := Driven)];
    }

    /** Records the new share, having first checked that it is one of the same key. */
    method CompleteResharing(rid: string, share: KeyShare, outcome: SealOutcome)
      requires rid in resharings && resharings[rid].phase == Driven
      modifies this
      ensures Snapshot() == OnRefreshInstalls(OnRefreshSeals(OnRefreshResult(old(Snapshot()), rid, share), rid, outcome), rid)
    {
      var ok := AcceptShare(rid, share);
      if ok {
        SealShare(rid, outcome);
        InstallShare(rid);
      }
    }

    method AcceptShare(rid: string, share: KeyShare) returns (ok: bool)
      requires rid in resharings && resharings[rid].phase == Driven
      modifies this`resharings
      ensures Snapshot() == OnRefreshResult(old(Snapshot()), rid, share)
      ensures rid in resharings && resharings[rid].phase == if ok then Accepted else Stopped
      ensures ok ==> resharings[rid].result == Some(share)
    {
      var r := resharings[rid];
      if share.publicKey == "" || share.publicKey != r.expectedPublicKey {
        resharings := resharings[rid := r.(status := Failed, phase := Stopped)];
        return false;
      }
      resharings := resharings[rid := r.(status := Completed, result := Some(share), phase := Accepted)];
      return true;
    }

    method SealShare(rid: string, outcome: SealOutcome)
      requires rid in resharings && resharings[rid].phase == Accepted && resharings[rid].result.Some?
      modifies this`resharings, this`store
      ensures Snapshot() == OnRefreshSeals(old(Snapshot()), rid, outcome)
      ensures rid in resharings && resharings[rid].phase == SealDone && resharings[rid].result.Some?
    {
      var r := resharings[rid];
      var share := r.result.value;
      var address := if r.expectedAddress != "" then r.expectedAddress else share.defaultAddress;
      if outcome.Written() {
        store := store[r.source := Record(share, Some(Context(r.threshold, |r.newSorted|, r.curve, r.newEpoch,
                                                              share.publicKey, address)))];
      }
      resharings := resharings[rid := r.(phase := SealDone)];
    }

    method InstallShare(rid: string)
      requires rid in resharings && resharings[rid].phase == SealDone && resharings[rid].result.Some?
      modifies this`resharings, this`ceremonies
      ensures Snapshot() == OnRefreshInstalls(old(Snapshot()), rid)
    {
      var r := resharings[rid];
      if r.source in ceremonies {
        ceremonies := ceremonies[r.source := ceremonies[r.source].(share := r.result, sortedIDs := r.newSorted, epoch := r.newEpoch)];
      }
      resharings := resharings[rid := r.(phase := Installed)];
    }

    method RestoreCeremony(id: string, peers: map<Node, string>, ghost token: string) returns (ok: bool)
      requires token !in loading && token !in checked
      modifies this`ceremonies
      ensures Snapshot() == OnRestoreInstalls(OnRestoreLoads(partyID, OnRestoreChecks(old(Snapshot()), token, id), token, id, peers), token)
      ensures ok <==> id !in old(ceremonies) && id in ceremonies
      ensures id in old(ceremonies) ==> ceremonies == old(ceremonies)
    {
      assert checked[token := id] - {token} == checked;
      if id in ceremonies || id !in store {
        return false;
      }
      var restored := Rebuild(store[id], peers);
      if restored.None? {
        return false;
      }
      assert loading[token := (id, restored.value)] - {token} == loading;
      ceremonies := ceremonies[id := restored.value];
      return true;
    }

    /** The ceremony a record holds, or nothing where a check of the code fails. */
    method Rebuild(rec: Record, peers: map<Node, string>) returns (restored: Option<Keygen>)
      ensures restored == Restored(partyID, rec, peers)
    {
      if rec.context.None? {
        return None;
      }
      var share, cc := rec.share, rec.context.value;
      if |peers| != cc.totalParties {
        return None;
      }
      var sorted := CommitteePartyIDs(peers, cc.epoch);
      if FindByNode(sorted, partyID).None? || share.publicKey == "" {
        return None;
      }
      var address := share.defaultAddress;
      if cc.publicKey != "" {
        if !EqualFold(share.publicKey, cc.publicKey) {
          return None;
        }
        if cc.address != "" {
          address := cc.address;
        }
      } else if cc.address != "" && address != cc.address {
        return None;
      }
      return Some(Keygen(Completed, cc.threshold, sorted, peers, cc.curve, cc.epoch, Some(share), share.publicKey, address, true));
    }

    method Forget(id: string) returns (held: bool)
      modifies this`ceremonies
      ensures Snapshot() == Apply(partyID, old(Snapshot()), PartyStates.Forget(id))
      ensures held <==> id in old(ceremonies)
    {
      held := id in ceremonies;
      ceremonies := ceremonies - {id};
    }

    /** Selects the committee out of the key's identity objects, which it leaves as they are, and
        registers the session. */
    method StartSigning(sid: string, id: string, full: seq<Identity>, messageHash: seq<bv8>, committeePartyIDs: seq<Node>) returns (ok: bool)
      requires id in ceremonies ==> IDs(full) == ceremonies[id].sortedIDs && Increasing(ceremonies[id].sortedIDs)
      modifies this`signings
      ensures Snapshot() == OnStartSigning(partyID, old(Snapshot()), sid, id, |messageHash|, committeePartyIDs)
      ensures ok <==> SigningSession(partyID, old(Snapshot()), id, |messageHash|, committeePartyIDs).Some?
      ensures forall i | 0 <= i < |full| :: full[i].index == old(full[i].index)
    {
      if |messageHash| == 0 || id !in ceremonies {
        return false;
      }
      var c := ceremonies[id];
      if c.status != Completed || c.share.None? {
        return false;
      }
      var share := c.share.value;
      if share.curve.Secp256k1? && |messageHash| != 32 {
        return false;
      }
      if |committeePartyIDs| != c.threshold + 1 {
        return false;
      }
      var wanted, selfIncluded := Wanted(partyID, committeePartyIDs);
      if !selfIncluded {
        return false;
      }
      var members := SelectCommittee(full, wanted);
      var committee := IDs(members);
      if |committee| != |committeePartyIDs| {
        return false;
      }
      var me := FindByKey(committee, CommitteeKey(partyID, c.epoch));
      if me.None? {
        return false;
      }
      signings := signings[sid := Signing(id, share, c.epoch, committee, me.value)];
      return true;
    }
  }

  method Wanted(self: Node, list: seq<Node>) returns (wanted: set<Node>, selfIncluded: bool)
    ensures wanted == SetOf(list) && (selfIncluded <==> self in list)
  {
    wanted, selfIncluded := {}, false;
    for i := 0 to |list|
      invariant wanted == SetOf(list[..i]) && (selfIncluded <==> self in list[..i])
    {
      wanted := wanted + {list[i]};
      if list[i] == self {
        selfIncluded := true;
      }
    }
    assert list[..|list|] == list;
  }
}
