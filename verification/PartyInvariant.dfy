/**
 What every interleaving of a party's ceremonies keeps: a key's loaded share, its committee
 identities and its epoch belong together, and the key never changes.

 `plans` says, for each key, which parties make it, on what curve and with what threshold: the caller starts,
 refreshes and restores a key with the same set of party numbers at every party, and does not
 use a key generation's id twice.
 */
module PartyInvariants {
  import opened Wrappers
  import opened Committees
  import opened PartyStates
  import opened SigningCommittees

  datatype Plan = Plan(ids: set<Node>, threshold: int, curve: Curve)
  type Plans = map<string, Plan>
  type Keys = map<string, Made>

  /** What the callers promise, and what tss-lib does: a share is dealt to the committee its
      local party was constructed with. Its public key may be anything; an address is never "". */
  ghost predicate Allowed(plans: Plans, s: State, e: Event) {
    match e
    case StartKeygen(id, threshold, peers, curve) =>
      && id !in s.used && id in plans && AreNodes(peers.Keys)
      && plans[id] == Plan(peers.Keys, threshold, curve)
    case KeygenSeals(id, share, address, _) =>
      && address != Some("")
      && (id in s.generating ==> share.committee == s.generating[id].sortedIDs && share.curve == s.generating[id].curve)
    case StartRefresh(_, id, peers) => id in plans ==> peers.Keys == plans[id].ids
    case RefreshResult(rid, share) =>
      rid in s.resharings ==>
        share.committee == s.resharings[rid].newSorted && share.curve == s.resharings[rid].curve && share.deal == rid
    case RestoreLoads(_, id, peers) => id in plans ==> peers.Keys == plans[id].ids
    case _ => true
  }

  ghost predicate AllowedRun(plans: Plans, self: Node, s: State, events: seq<Event>)
    decreases events
  {
    events == [] || (Allowed(plans, s, events[0]) && AllowedRun(plans, self, Apply(self, s, events[0]), events[1..]))
  }

  ghost predicate Reachable(self: Node, plans: Plans, s: State) {
    exists events :: AllowedRun(plans, self, Initial, events) && Run(self, Initial, events) == s
  }

  // ---- the invariant, map by map ----

  /** A key this party accepted a part in. */
  ghost predicate Planned(self: Node, plans: Plans, id: string) {
    && id in plans && self in plans[id].ids && AreNodes(plans[id].ids)
    && MajorityRule(|plans[id].ids|, plans[id].threshold)
  }

  /** A share of the key, at the coordinates of one epoch. */
  ghost predicate ShareOf(plans: Plans, keys: Keys, id: string, share: KeyShare, epoch: nat) {
    && id in plans && id in keys && share.publicKey == keys[id].publicKey != "" && keys[id].address != ""
    && share.curve == plans[id].curve
    && share.committee == Committee(plans[id].ids, epoch)
  }

  ghost predicate KeygenOk(self: Node, plans: Plans, keys: Keys, id: string, c: Keygen) {
    && Planned(self, plans, id) && c.peers.Keys == plans[id].ids && c.threshold == plans[id].threshold && c.curve == plans[id].curve
    && c.epoch <= 1 && c.sortedIDs == Committee(plans[id].ids, c.epoch)
    && (c.share.Some? ==> ShareOf(plans, keys, id, c.share.value, c.epoch))
    && (c.status == Completed ==> c.share.Some? && c.publicKey == c.share.value.publicKey && c.address == keys[id].address)
  }

  ghost predicate GeneratingOk(self: Node, plans: Plans, keys: Keys, id: string, c: Keygen) {
    KeygenOk(self, plans, keys, id, c) && c.epoch == 0 && c.share.None? && id !in keys
  }

  ghost predicate RecordOk(self: Node, plans: Plans, keys: Keys, id: string, rec: Record) {
    && Planned(self, plans, id) && rec.context.Some?
    && var cc := rec.context.value;
    && cc.threshold == plans[id].threshold && cc.totalParties == |plans[id].ids| && cc.curve == plans[id].curve
    && cc.epoch <= 1 && ShareOf(plans, keys, id, rec.share, cc.epoch)
    && cc.publicKey == rec.share.publicKey && cc.address == keys[id].address
  }

  ghost predicate ResharingOk(self: Node, plans: Plans, keys: Keys, r: Resharing) {
    && Planned(self, plans, r.source) && r.threshold == plans[r.source].threshold && r.curve == plans[r.source].curve
    && 1 <= r.newEpoch <= 2 && (r.phase.Registered? || r.phase.Stopped? || r.newEpoch == 1)
    && r.oldSorted == Committee(plans[r.source].ids, r.newEpoch - 1)
    && r.newSorted == Committee(plans[r.source].ids, r.newEpoch)
    && ShareOf(plans, keys, r.source, r.input, r.newEpoch - 1)
    && r.expectedPublicKey == keys[r.source].publicKey && r.expectedAddress == keys[r.source].address
    && (r.result.Some? ==> ShareOf(plans, keys, r.source, r.result.value, r.newEpoch))
    && (r.phase.Accepted? || r.phase.SealDone? ==> r.result.Some?)
  }

  ghost function Members(g: Signing): set<Node> {
    set p | p in g.committee :: NodeOf(p)
  }

  /** An accepted session signs with a share and identities of one and the same epoch. */
  ghost predicate SigningOk(self: Node, plans: Plans, keys: Keys, g: Signing) {
    && Planned(self, plans, g.key) && ShareOf(plans, keys, g.key, g.share, g.epoch)
    && Members(g) <= plans[g.key].ids && self in Members(g) && |Members(g)| == plans[g.key].threshold + 1
    && g.committee == Committee(Members(g), g.epoch)
    && (forall p | p in g.committee :: p in g.share.committee)
    && g.index < |g.committee| && g.committee[g.index] == CommitteeKey(self, g.epoch)
  }

  ghost predicate KeygensOk(self: Node, plans: Plans, keys: Keys, m: map<string, Keygen>) {
    forall id {:trigger m[id]} | id in m :: KeygenOk(self, plans, keys, id, m[id])
  }

  ghost predicate GeneratingsOk(self: Node, plans: Plans, keys: Keys, used: set<string>, m: map<string, Keygen>) {
    forall id {:trigger m[id]} | id in m :: GeneratingOk(self, plans, keys, id, m[id]) && id in used
  }

  ghost predicate LoadingsOk(self: Node, plans: Plans, keys: Keys, m: map<string, (string, Keygen)>) {
    forall t {:trigger m[t]} | t in m :: KeygenOk(self, plans, keys, m[t].0, m[t].1) && m[t].1.status == Completed
  }

  ghost predicate RecordsOk(self: Node, plans: Plans, keys: Keys, m: map<string, Record>) {
    forall id {:trigger m[id]} | id in m :: RecordOk(self, plans, keys, id, m[id])
  }

  ghost predicate ResharingsOk(self: Node, plans: Plans, keys: Keys, m: map<string, Resharing>) {
    forall r {:trigger m[r]} | r in m :: ResharingOk(self, plans, keys, m[r])
  }

  ghost predicate SigningsOk(self: Node, plans: Plans, keys: Keys, m: map<string, Signing>) {
    forall g {:trigger m[g]} | g in m :: SigningOk(self, plans, keys, m[g])
  }

  ghost predicate Inv(self: Node, plans: Plans, s: State) {
    && KeygensOk(self, plans, s.keys, s.ceremonies)
    && GeneratingsOk(self, plans, s.keys, s.used, s.generating)
    && KeygensOk(self, plans, s.keys, s.finishing)
    && LoadingsOk(self, plans, s.keys, s.loading)
    && RecordsOk(self, plans, s.keys, s.store)
    && ResharingsOk(self, plans, s.keys, s.resharings)
    && SigningsOk(self, plans, s.keys, s.signings)
    && s.keys.Keys <= s.used
  }

  // ---- each step keeps it ----

  lemma PutCeremony(self: Node, plans: Plans, s: State, id: string, c: Keygen)
    requires Inv(self, plans, s) && KeygenOk(self, plans, s.keys, id, c)
    ensures Inv(self, plans, s.(ceremonies := s.ceremonies[id := c]))
  {
  }

  lemma PutResharing(self: Node, plans: Plans, s: State, rid: string, r: Resharing)
    requires Inv(self, plans, s) && ResharingOk(self, plans, s.keys, r)
    ensures Inv(self, plans, s.(resharings := s.resharings[rid := r]))
  {
  }

  lemma PutRecord(self: Node, plans: Plans, s: State, id: string, rec: Record)
    requires Inv(self, plans, s) && RecordOk(self, plans, s.keys, id, rec)
    ensures Inv(self, plans, s.(store := s.store[id := rec]))
  {
  }

  lemma DropGenerating(self: Node, plans: Plans, s: State, id: string)
    requires Inv(self, plans, s)
    ensures Inv(self, plans, s.(generating := s.generating - {id}))
  {
  }

  lemma StartKeygenKeeps(self: Node, plans: Plans, s: State, id: string, threshold: int, peers: map<Node, string>, curve: Curve)
    requires Inv(self, plans, s) && Allowed(plans, s, StartKeygen(id, threshold, peers, curve))
    ensures Inv(self, plans, OnStartKeygen(self, s, id, threshold, peers, curve))
  {
    assert |peers| == |peers.Keys|;
  }

  lemma KeygenStopsKeeps(self: Node, plans: Plans, s: State, id: string)
    requires Inv(self, plans, s)
    ensures Inv(self, plans, OnKeygenStops(s, id))
  {
    var s1 := s.(generating := s.generating - {id});
    DropGenerating(self, plans, s, id);
    if id in s.ceremonies {
      PutCeremony(self, plans, s1, id, s.ceremonies[id].(status := Failed));
    }
  }

  ghost predicate Grows(keys: Keys, keys': Keys) {
    forall id | id in keys :: id in keys' && keys'[id] == keys[id]
  }

  lemma KeygensKept(self: Node, plans: Plans, keys: Keys, keys': Keys, m: map<string, Keygen>)
    requires Grows(keys, keys') && KeygensOk(self, plans, keys, m)
    ensures KeygensOk(self, plans, keys', m)
  {
  }

  lemma SigningsKept(self: Node, plans: Plans, keys: Keys, keys': Keys, m: map<string, Signing>)
    requires Grows(keys, keys') && SigningsOk(self, plans, keys, m)
    ensures SigningsOk(self, plans, keys', m)
  {
  }

  lemma OthersKept(self: Node, plans: Plans, s: State, keys': Keys)
    requires Grows(s.keys, keys') && Inv(self, plans, s)
    ensures LoadingsOk(self, plans, keys', s.loading) && RecordsOk(self, plans, keys', s.store)
    ensures ResharingsOk(self, plans, keys', s.resharings)
  {
  }

  /** A key generation's result is the first share of its key, so nothing said of keys changes. */
  lemma FirstShare(self: Node, plans: Plans, s: State, id: string, made: Made)
    requires Inv(self, plans, s) && id in s.used && id !in s.keys && id !in s.generating
    ensures Inv(self, plans, s.(keys := s.keys[id := made]))
  {
    var keys' := s.keys[id := made];
    KeygensKept(self, plans, s.keys, keys', s.ceremonies);
    KeygensKept(self, plans, s.keys, keys', s.finishing);
    SigningsKept(self, plans, s.keys, keys', s.signings);
    OthersKept(self, plans, s, keys');
  }

  lemma FailKeeps(self: Node, plans: Plans, s: State, id: string)
    requires Inv(self, plans, s)
    ensures Inv(self, plans, Fail(s, id))
  {
    if id in s.ceremonies {
      PutCeremony(self, plans, s, id, s.ceremonies[id].(status := Failed));
    }
  }

  lemma KeygenSealsKeeps(self: Node, plans: Plans, s: State, id: string, share: KeyShare, address: Option<string>, outcome: SealOutcome)
    requires Inv(self, plans, s) && Allowed(plans, s, KeygenSeals(id, share, address, outcome))
    ensures Inv(self, plans, OnKeygenSeals(s, id, share, address, outcome))
  {
    if id !in s.generating {
    } else if share.publicKey == "" || address.None? || outcome.SealFailed? {
      KeygenStopsKeeps(self, plans, s, id);
    } else {
      assert GeneratingOk(self, plans, s.keys, id, s.generating[id]);
      CommitteeSize(plans[id].ids, 0);
      var c := Finished(s.generating[id], share, address.value, outcome);
      var made := Made(share.publicKey, address.value);
      var s1 := s.(generating := s.generating - {id});
      DropGenerating(self, plans, s, id);
      var s2 := s1.(keys := s1.keys[id := made]);
      FirstShare(self, plans, s1, id, made);
      var s3 := if outcome.Written() then s2.(store := s2.store[id := Record(share, Some(KeygenContext(c)))]) else s2;
      if outcome.Written() {
        PutRecord(self, plans, s2, id, Record(share, Some(KeygenContext(c))));
      }
      PutFinishing(self, plans, s3, id, c);
    }
  }

  lemma PutFinishing(self: Node, plans: Plans, s: State, id: string, c: Keygen)
    requires Inv(self, plans, s) && KeygenOk(self, plans, s.keys, id, c)
    ensures Inv(self, plans, s.(finishing := s.finishing[id := c]))
  {
  }

  lemma KeygenFailsKeeps(self: Node, plans: Plans, s: State, id: string)
    requires Inv(self, plans, s)
    ensures Inv(self, plans, OnKeygenFails(s, id))
  {
    FailKeeps(self, plans, s.(failing := s.failing - {id}), id);
  }

  lemma KeygenInstallsKeeps(self: Node, plans: Plans, s: State, id: string)
    requires Inv(self, plans, s)
    ensures Inv(self, plans, OnKeygenInstalls(s, id))
  {
    if id in s.finishing {
      var s1 := s.(finishing := s.finishing - {id});
      assert Inv(self, plans, s1);
      PutCeremony(self, plans, s1, id, s.finishing[id]);
    }
  }

  lemma StartRefreshKeeps(self: Node, plans: Plans, s: State, rid: string, id: string, peers: map<Node, string>)
    requires Inv(self, plans, s) && Allowed(plans, s, StartRefresh(rid, id, peers))
    ensures Inv(self, plans, OnStartRefresh(self, s, rid, id, peers))
  {
  }

  /** The look-up by bare party number lets a refresh through at the first epoch only. */
  lemma NumberFoundAtFirstEpoch(self: Node, plans: Plans, keys: Keys, r: Resharing)
    requires ResharingOk(self, plans, keys, r)
    ensures FindByNumber(r.oldSorted, self).Some? ==> r.newEpoch == 1
  {
    LookupsAgree(plans[r.source].ids, r.newEpoch - 1, self);
  }

  lemma RefreshRunsKeeps(self: Node, plans: Plans, s: State, rid: string)
    requires Inv(self, plans, s)
    ensures Inv(self, plans, OnRefreshRuns(self, s, rid))
  {
    if rid in s.resharings && s.resharings[rid].phase == Registered {
      var r := s.resharings[rid];
      assert ResharingOk(self, plans, s.keys, r);
      if OnRefreshRuns(self, s, rid) == StopRefresh(s, rid) {
        PutResharing(self, plans, s, rid, r.(status := Failed, phase := Stopped));
      } else {
        NumberFoundAtFirstEpoch(self, plans, s.keys, r);
        PutResharing(self, plans, s, rid, r.(phase := Driven));
      }
    }
  }

  /** What a refresh seals is a record of its key at the epoch it aims at. */
  lemma SealOk(self: Node, plans: Plans, keys: Keys, r: Resharing)
    requires ResharingOk(self, plans, keys, r) && r.result.Some? && r.newEpoch == 1
    ensures RecordOk(self, plans, keys, r.source, Record(r.result.value, Some(RefreshContext(r))))
  {
    CommitteeSize(plans[r.source].ids, r.newEpoch);
  }

  lemma RefreshStopsKeeps(self: Node, plans: Plans, s: State, rid: string)
    requires Inv(self, plans, s)
    ensures Inv(self, plans, OnRefreshStops(s, rid))
  {
    if rid in s.resharings {
      PutResharing(self, plans, s, rid, s.resharings[rid].(status := Failed, phase := Stopped));
    }
  }

  lemma RefreshResultKeeps(self: Node, plans: Plans, s: State, rid: string, share: KeyShare)
    requires Inv(self, plans, s) && Allowed(plans, s, RefreshResult(rid, share))
    ensures Inv(self, plans, OnRefreshResult(s, rid, share))
  {
    if rid in s.resharings && s.resharings[rid].phase == Driven {
      var r := s.resharings[rid];
      PutResharing(self, plans, s, rid, r.(status := Failed, phase := Stopped));
      if share.publicKey != "" && share.publicKey == r.expectedPublicKey {
        PutResharing(self, plans, s, rid, r.(status := Completed, result := Some(share), phase := Accepted));
      }
    }
  }

  lemma RefreshSealsKeeps(self: Node, plans: Plans, s: State, rid: string, outcome: SealOutcome)
    requires Inv(self, plans, s)
    ensures Inv(self, plans, OnRefreshSeals(s, rid, outcome))
  {
    if rid in s.resharings && s.resharings[rid].phase == Accepted && s.resharings[rid].result.Some? {
      var r := s.resharings[rid];
      var s1 := s.(resharings := s.resharings[rid := r.(phase := SealDone)]);
      assert ResharingOk(self, plans, s.keys, r);
      PutResharing(self, plans, s, rid, r.(phase := SealDone));
      if outcome.Written() {
        SealOk(self, plans, s.keys, r);
        PutRecord(self, plans, s1, r.source, Record(r.result.value, Some(RefreshContext(r))));
      }
    }
  }

  lemma RefreshInstallsKeeps(self: Node, plans: Plans, s: State, rid: string)
    requires Inv(self, plans, s)
    ensures Inv(self, plans, OnRefreshInstalls(s, rid))
  {
    if rid in s.resharings && s.resharings[rid].phase == SealDone && s.resharings[rid].result.Some? {
      var r := s.resharings[rid];
      assert ResharingOk(self, plans, s.keys, r);
      PutResharing(self, plans, s, rid, r.(phase := Installed));
      InstalledOk(self, plans, s.(resharings := s.resharings[rid := r.(phase := Installed)]), r);
    }
  }

  lemma InstalledOk(self: Node, plans: Plans, s: State, r: Resharing)
    requires Inv(self, plans, s) && ResharingOk(self, plans, s.keys, r) && r.result.Some? && r.newEpoch == 1
    ensures Inv(self, plans, s.(ceremonies := WithInstalled(s.ceremonies, r)))
  {
    if r.source in s.ceremonies {
      var c := s.ceremonies[r.source].(share := r.result, sortedIDs := r.newSorted, epoch := r.newEpoch);
      assert KeygenOk(self, plans, s.keys, r.source, s.ceremonies[r.source]);
      PutCeremony(self, plans, s, r.source, c);
    }
  }

  lemma RestoreLoadsKeeps(self: Node, plans: Plans, s: State, token: string, id: string, peers: map<Node, string>)
    requires Inv(self, plans, s) && Allowed(plans, s, RestoreLoads(token, id, peers))
    ensures Inv(self, plans, OnRestoreLoads(self, s, token, id, peers))
  {
  }

  lemma RestoreInstallsKeeps(self: Node, plans: Plans, s: State, token: string)
    requires Inv(self, plans, s)
    ensures Inv(self, plans, OnRestoreInstalls(s, token))
  {
    if token in s.loading {
      var s1 := s.(loading := s.loading - {token});
      assert Inv(self, plans, s1);
      PutCeremony(self, plans, s1, s.loading[token].0, s.loading[token].1);
    }
  }

  lemma SimpleStepKeeps(self: Node, plans: Plans, s: State, e: Event)
    requires Inv(self, plans, s) && (e.RestoreChecks? || e.Forget? || e.Retire? || e.Crash?)
    ensures Inv(self, plans, Apply(self, s, e))
  {
  }

  lemma StartSigningKeeps(self: Node, plans: Plans, s: State, sid: string, id: string, length: nat, list: seq<Node>)
    requires Inv(self, plans, s)
    ensures Inv(self, plans, OnStartSigning(self, s, sid, id, length, list))
  {
    if SigningSession(self, s, id, length, list).Some? {
      SessionOk(self, plans, s, id, length, list);
    }
  }

  lemma SessionOk(self: Node, plans: Plans, s: State, id: string, length: nat, list: seq<Node>)
    requires Inv(self, plans, s) && SigningSession(self, s, id, length, list).Some?
    ensures SigningOk(self, plans, s.keys, SigningSession(self, s, id, length, list).value)
  {
    var g := SigningSession(self, s, id, length, list).value;
    assert KeygenOk(self, plans, s.keys, id, s.ceremonies[id]);
    SigningAcceptedExactly(self, s, id, length, list);
    var ids := SetOf(list);
    DistinctCount(list);
    MembersAreKeys(ids, g.epoch);
    MembersAreKeys(plans[id].ids, g.epoch);
    assert Members(g) == ids by {
      forall n | n in ids
        ensures n in Members(g)
      {
        KeyNamesNodeAndEpoch(n, g.epoch);
        assert CommitteeKey(n, g.epoch) in g.committee;
      }
    }
  }

  lemma StepKeeps(self: Node, plans: Plans, s: State, e: Event)
    requires Inv(self, plans, s) && Allowed(plans, s, e)
    ensures Inv(self, plans, Apply(self, s, e))
  {
    match e
    case StartKeygen(id, threshold, peers, curve) => StartKeygenKeeps(self, plans, s, id, threshold, peers, curve);
    case KeygenStops(id) => KeygenStopsKeeps(self, plans, s, id);
    case KeygenSeals(id, share, address, outcome) => KeygenSealsKeeps(self, plans, s, id, share, address, outcome);
    case KeygenInstalls(id) => KeygenInstallsKeeps(self, plans, s, id);
    case KeygenFails(id) => KeygenFailsKeeps(self, plans, s, id);
    case StartRefresh(rid, id, peers) => StartRefreshKeeps(self, plans, s, rid, id, peers);
    case RefreshRuns(rid) => RefreshRunsKeeps(self, plans, s, rid);
    case RefreshSeals(rid, outcome) => RefreshSealsKeeps(self, plans, s, rid, outcome);
    case RestoreLoads(token, id, peers) => RestoreLoadsKeeps(self, plans, s, token, id, peers);
    case StartSigning(sid, id, length, list) => StartSigningKeeps(self, plans, s, sid, id, length, list);
    case RefreshStops(rid) => RefreshStopsKeeps(self, plans, s, rid);
    case RefreshResult(rid, share) => RefreshResultKeeps(self, plans, s, rid, share);
    case RefreshInstalls(rid) => RefreshInstallsKeeps(self, plans, s, rid);
    case RestoreInstalls(token) => RestoreInstallsKeeps(self, plans, s, token);
    case _ => SimpleStepKeeps(self, plans, s, e);
  }

  /** Every interleaving keeps the invariant. */
  lemma {:induction false} RunKeeps(self: Node, plans: Plans, s: State, events: seq<Event>)
    requires Inv(self, plans, s) && AllowedRun(plans, self, s, events)
    ensures Inv(self, plans, Run(self, s, events))
    decreases events
  {
    if events != [] {
      StepKeeps(self, plans, s, events[0]);
      RunKeeps(self, plans, Apply(self, s, events[0]), events[1..]);
    }
  }

  lemma ReachableInv(self: Node, plans: Plans, s: State)
    requires Reachable(self, plans, s)
    ensures Inv(self, plans, s)
  {
    var events :| AllowedRun(plans, self, Initial, events) && Run(self, Initial, events) == s;
    RunKeeps(self, plans, Initial, events);
  }
}
