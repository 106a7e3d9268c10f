/**
 Exactly when each operation of a party succeeds, and what it then holds, in terms of what it was
 given: the end of a key generation, the steps of a refresh, and a restore.
 */
module PartySteps {
  import opened Wrappers
  import opened Committees
  import opened PartyStates
  import opened PartyInvariants

  // ---- the end of a key generation ----

  /** What a key generation of a running ceremony has to start from. */
  predicate Runs(s: State, id: string) {
    id in s.generating && id in s.ceremonies && s.ceremonies[id].status == InProgress && id !in s.failing && id !in s.finishing
  }

  ghost function Ended(s: State, id: string, share: KeyShare, address: Option<string>, outcome: SealOutcome): State {
    OnKeygenFails(OnKeygenInstalls(OnKeygenSeals(s, id, share, address, outcome), id), id)
  }

  lemma InstallsOne(s: State, id: string, done: Keygen)
    requires id in s.ceremonies && s.ceremonies[id].status == InProgress && id !in s.failing && id in s.finishing && s.finishing[id] == done
    ensures OnKeygenFails(OnKeygenInstalls(s, id), id) == s.(finishing := s.finishing - {id}, ceremonies := s.ceremonies[id := done])
  {
  }

  lemma FailsOne(s: State, id: string)
    requires id in s.ceremonies && id in s.failing && id !in s.finishing
    ensures OnKeygenFails(OnKeygenInstalls(s, id), id)
         == s.(failing := s.failing - {id}, ceremonies := s.ceremonies[id := s.ceremonies[id].(status := Failed)])
  {
  }

  lemma StopsOne(s: State, id: string)
    requires Runs(s, id)
    ensures OnKeygenFails(OnKeygenInstalls(OnKeygenStops(s, id), id), id)
         == s.(generating := s.generating - {id}, ceremonies := s.ceremonies[id := s.ceremonies[id].(status := Failed)])
  {
  }

  /** A running key generation whose public key and address can be derived is completed with them, and
      its flag says whether it has been sealed, if and only if sealing is not reported to have failed. */
  lemma KeygenCompletesExactly(s: State, id: string, share: KeyShare, address: Option<string>, outcome: SealOutcome)
    requires Runs(s, id)
    ensures var s' := Ended(s, id, share, address, outcome);
            && id in s'.ceremonies
            && s'.ceremonies[id] ==
               if share.publicKey != "" && address.Some? && (outcome.Sealed? || outcome.NotConfigured?)
               then s.generating[id].(status := Completed, share := Some(share), publicKey := share.publicKey,
                                      address := address.value, sealed := outcome.Sealed?)
               else s.ceremonies[id].(status := Failed)
  {
    var s1 := OnKeygenSeals(s, id, share, address, outcome);
    if share.publicKey == "" || address.None? || outcome.SealFailed? {
      StopsOne(s, id);
    } else if outcome.SealLost? {
      FailsOne(s1, id);
    } else {
      InstallsOne(s1, id, s1.finishing[id]);
    }
  }

  lemma EndKeepsStore(s: State, id: string)
    ensures OnKeygenFails(OnKeygenInstalls(s, id), id).store == s.store
  {
  }

  /** Its share is in the store afterwards, with all that a restore needs, if and only if a store is
      configured and was written to: so always when the ceremony says that it is sealed. */
  lemma KeygenSealsExactly(s: State, id: string, share: KeyShare, address: Option<string>, outcome: SealOutcome)
    requires Runs(s, id)
    ensures var c := s.generating[id];
            Ended(s, id, share, address, outcome).store ==
            if share.publicKey != "" && address.Some? && (outcome.Sealed? || outcome.SealLost?)
            then s.store[id := Record(share, Some(Context(c.threshold, |c.sortedIDs|, c.curve, c.epoch, share.publicKey, address.value)))]
            else s.store
  {
    EndKeepsStore(OnKeygenSeals(s, id, share, address, outcome), id);
  }

  // ---- a refresh ----

  /** A new refresh is registered if and only if the key is completed with its share and this party is
      among the peers; it is of the two committees of those peers, at the key's epoch and the next. */
  lemma RefreshStartsExactly(self: Node, s: State, rid: string, id: string, peers: map<Node, string>)
    requires rid !in s.resharings && AreNodes(peers.Keys) && IsNode(self)
    ensures var s' := OnStartRefresh(self, s, rid, id, peers);
            && (rid in s'.resharings <==>
                  id in s.ceremonies && s.ceremonies[id].status == Completed && s.ceremonies[id].share.Some? && self in peers)
            && (rid in s'.resharings ==>
                  var c := s.ceremonies[id];
                  s'.resharings[rid] ==
                    Resharing(InProgress, c.threshold, c.curve, Committee(peers.Keys, c.epoch), Committee(peers.Keys, c.epoch + 1),
                              c.epoch + 1, id, c.publicKey, c.address, c.share.value, None, Registered))
  {
    if id in s.ceremonies {
      LookupsAgree(peers.Keys, s.ceremonies[id].epoch, self);
      assert self in peers ==> |peers| != 0;
    }
  }

  /** A registered refresh is driven if and only if this party's bare number is an identity of the old
      committee, its key is one of the new, and the share is of the refresh's curve; otherwise it fails. */
  lemma RefreshDrivenExactly(self: Node, s: State, rid: string)
    requires rid in s.resharings && s.resharings[rid].phase == Registered
    ensures var r, r' := s.resharings[rid], OnRefreshRuns(self, s, rid).resharings[rid];
            r' == if && PartyID(self.number) in r.oldSorted && CommitteeKey(self, r.newEpoch) in r.newSorted
                     && r.input.curve == r.curve
                  then r.(phase := Driven) else r.(status := Failed, phase := Stopped)
  {
  }

  lemma ResultExactly(s: State, rid: string, share: KeyShare)
    requires rid in s.resharings && s.resharings[rid].phase == Driven
    ensures rid in OnRefreshResult(s, rid, share).resharings
    ensures var r := s.resharings[rid];
            OnRefreshResult(s, rid, share).resharings[rid] ==
            if share.publicKey != "" && share.publicKey == r.expectedPublicKey
            then r.(status := Completed, result := Some(share), phase := Accepted) else r.(status := Failed, phase := Stopped)
  {
  }

  /** A share is accepted if and only if it is of the public key that the key generation made, whatever
      its default address; otherwise the refresh fails. */
  lemma RefreshAcceptedExactly(self: Node, plans: Plans, s: State, rid: string, share: KeyShare)
    requires Reachable(self, plans, s) && rid in s.resharings && s.resharings[rid].phase == Driven
    ensures var r, s' := s.resharings[rid], OnRefreshResult(s, rid, share);
            && r.source in s.keys && rid in s'.resharings
            && s'.resharings[rid] ==
               if share.publicKey == s.keys[r.source].publicKey
               then r.(status := Completed, result := Some(share), phase := Accepted)
               else r.(status := Failed, phase := Stopped)
  {
    ReachableInv(self, plans, s);
    assert ResharingOk(self, plans, s.keys, s.resharings[rid]);
    ResultExactly(s, rid, share);
  }

  // ---- a restore ----

  /** Two public keys are taken for the same if and only if they are as long as each other and differ at
      most in whether a letter is a capital. */
  lemma EqualFoldExactly(a: string, b: string)
    ensures EqualFold(a, b) <==>
            |a| == |b| && forall i | 0 <= i < |a| ::
              || a[i] == b[i]
              || ('A' <= a[i] <= 'Z' && b[i] as int == a[i] as int + 32)
              || ('A' <= b[i] <= 'Z' && a[i] as int == b[i] as int + 32)
  {
    if |a| == |b| {
      forall i | 0 <= i < |a|
        ensures Folded(a[i]) == Folded(b[i]) <==>
                || a[i] == b[i]
                || ('A' <= a[i] <= 'Z' && b[i] as int == a[i] as int + 32)
                || ('A' <= b[i] <= 'Z' && a[i] as int == b[i] as int + 32)
      {
        FoldedExactly(a[i], b[i]);
      }
    }
  }

  lemma FoldedExactly(c: char, d: char)
    ensures Folded(c) == Folded(d) <==>
            || c == d || ('A' <= c <= 'Z' && d as int == c as int + 32) || ('A' <= d <= 'Z' && c as int == d as int + 32)
  {
  }

  /** A record is restored if and only if it has a context, the endpoints are as many as its parties and
      this one is among them, and the share is of the public key the context names, or, if it names
      none, has the address it names; the key is then as the context says, at those endpoints. */
  lemma RestoredExactly(self: Node, rec: Record, peers: map<Node, string>)
    requires AreNodes(peers.Keys) && IsNode(self)
    ensures var c := Restored(self, rec, peers);
            && (c.Some? <==>
                  && rec.context.Some? && |peers| == rec.context.value.totalParties && self in peers && rec.share.publicKey != ""
                  && (rec.context.value.publicKey != "" ==> EqualFold(rec.share.publicKey, rec.context.value.publicKey))
                  && (rec.context.value.publicKey == "" && rec.context.value.address != "" ==>
                        rec.share.defaultAddress == rec.context.value.address))
            && (c.Some? ==>
                  var cc := rec.context.value;
                  c.value == Keygen(Completed, cc.threshold, Committee(peers.Keys, cc.epoch), peers, cc.curve, cc.epoch, Some(rec.share),
                                    rec.share.publicKey, if cc.address != "" then cc.address else rec.share.defaultAddress, true))
  {
    if rec.context.Some? {
      LookupsAgree(peers.Keys, rec.context.value.epoch, self);
    }
  }

  /** A restore of a key that is loaded does nothing, from its check on. */
  lemma LoadedIsNotRestored(self: Node, s: State, token: string, id: string, peers: map<Node, string>)
    requires id in s.ceremonies && token !in s.checked && token !in s.loading
    ensures OnRestoreInstalls(OnRestoreLoads(self, OnRestoreChecks(s, token, id), token, id, peers), token) == s
  {
  }
}
