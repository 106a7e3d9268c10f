/**
 What a key's owner can rely on, in every state that any interleaving of a party's ceremonies
 reaches, and across parties.
 */
module PartyTheorems {
  import opened Wrappers
  import opened Committees
  import opened PartyStates
  import opened SigningCommittees
  import opened PartyInvariants

  /** No session pairs a share of one epoch with identities of another, and none signs for a
      key other than the one its key generation made. */
  lemma SessionsAreCoherent(self: Node, plans: Plans, s: State, sid: string)
    requires Reachable(self, plans, s) && sid in s.signings
    ensures var g := s.signings[sid];
            && g.key in plans && g.key in s.keys && g.share.publicKey == s.keys[g.key].publicKey
            && g.share.committee == Committee(plans[g.key].ids, g.epoch)
            && (forall p | p in g.committee :: p in g.share.committee && EpochOf(p) == g.epoch)
            && g.index < |g.committee| && g.committee[g.index] == CommitteeKey(self, g.epoch)
  {
    ReachableInv(self, plans, s);
    var g := s.signings[sid];
    assert SigningOk(self, plans, s.keys, g);
    MembersAreKeys(plans[g.key].ids, g.epoch);
  }

  /** A loaded key's share, identities and epoch belong together. */
  lemma LoadedKeysAreCoherent(self: Node, plans: Plans, s: State, id: string)
    requires Reachable(self, plans, s) && id in s.ceremonies && s.ceremonies[id].status == Completed
    ensures var c := s.ceremonies[id];
            && id in plans && c.threshold == plans[id].threshold && c.peers.Keys == plans[id].ids
            && c.share.Some? && c.share.value.committee == c.sortedIDs == Committee(plans[id].ids, c.epoch)
            && id in s.keys && c.publicKey == c.share.value.publicKey == s.keys[id].publicKey && c.address == s.keys[id].address
  {
    ReachableInv(self, plans, s);
  }

  // ---- refresh ----

  /** A refresh is driven exactly when the key was at its first epoch: at any later one the
      look-up by bare party number fails it, and nothing but its own status changes. */
  lemma RefreshRunsOnlyOnce(self: Node, plans: Plans, s: State, rid: string)
    requires Reachable(self, plans, s) && rid in s.resharings && s.resharings[rid].phase == Registered
    ensures var r, s' := s.resharings[rid], OnRefreshRuns(self, s, rid);
            s' == s.(resharings := s.resharings[rid :=
                       if r.newEpoch == 1 then r.(phase := Driven) else r.(status := Failed, phase := Stopped)])
  {
    ReachableInv(self, plans, s);
    var r := s.resharings[rid];
    assert ResharingOk(self, plans, s.keys, r);
    LookupsAgree(plans[r.source].ids, r.newEpoch - 1, self);
    LookupsAgree(plans[r.source].ids, r.newEpoch, self);
  }

  /** So no key, loaded or sealed, is ever past the epoch after its key generation. */
  lemma EpochsStayBelowTwo(self: Node, plans: Plans, s: State, id: string)
    requires Reachable(self, plans, s)
    ensures id in s.ceremonies ==> s.ceremonies[id].epoch <= 1
    ensures id in s.store ==> s.store[id].context.Some? && s.store[id].context.value.epoch <= 1
  {
    ReachableInv(self, plans, s);
  }

  /** What of a loaded key no step moves. */
  ghost predicate SameKey(c: Keygen, c': Keygen) {
    && c'.threshold == c.threshold && c'.curve == c.curve
    && c'.publicKey == c.publicKey && c'.address == c.address && c'.peers.Keys == c.peers.Keys
  }

  /** A completed key with the share and the identities of its epoch. */
  ghost predicate AtItsEpoch(plans: Plans, id: string, c: Keygen) {
    && id in plans && c.share.Some? && c.share.value.publicKey == c.publicKey
    && c.sortedIDs == c.share.value.committee == Committee(plans[id].ids, c.epoch)
  }

  /** The last step of a refresh: to the epoch after that of the share it started from. */
  ghost predicate Refreshed(plans: Plans, s: State, e: Event, id: string, c: Keygen, c': Keygen) {
    && e.RefreshInstalls? && e.rid in s.resharings && id in plans
    && var r := s.resharings[e.rid];
    && r.source == id && r.newEpoch >= 1 && c' == c.(share := c'.share, sortedIDs := c'.sortedIDs, epoch := r.newEpoch)
    && r.input.committee == Committee(plans[id].ids, r.newEpoch - 1)
  }

  /** The registering of what a restore had loaded. */
  ghost predicate Reloaded(s: State, e: Event, id: string, c': Keygen) {
    e.RestoreInstalls? && e.token in s.loading && s.loading[e.token] == (id, c')
  }

  /** The failure of a key generation's sealing is about to meet the key, restored meanwhile from
      what was sealed after all. */
  predicate FailureMeets(s: State, e: Event, id: string) {
    e.KeygenFails? && e.id == id && id in s.failing && id in s.ceremonies && s.ceremonies[id].status == Completed
  }

  /** One step leaves a loaded key alone, is the last step of a refresh of it, registers what a
      restore of it had loaded, or is a failure that meets it; in each case it is the same key, with
      the share and the identities of its epoch, and it stays completed but for that failure. */
  lemma KeysMoveOnlyByRefresh(self: Node, plans: Plans, s: State, e: Event, id: string)
    requires Reachable(self, plans, s) && Allowed(plans, s, e)
    requires id in s.ceremonies && s.ceremonies[id].status == Completed && id in Apply(self, s, e).ceremonies
    ensures var c, c' := s.ceremonies[id], Apply(self, s, e).ceremonies[id];
            && SameKey(c, c') && AtItsEpoch(plans, id, c') && (c'.status == Completed <==> !FailureMeets(s, e, id))
            && (c' == c || Refreshed(plans, s, e, id, c, c') || Reloaded(s, e, id, c') || c' == c.(status := Failed))
  {
    ReachableInv(self, plans, s);
    KeysMove(self, plans, s, e, id);
  }

  lemma KeysMove(self: Node, plans: Plans, s: State, e: Event, id: string)
    requires Inv(self, plans, s) && Allowed(plans, s, e)
    requires id in s.ceremonies && s.ceremonies[id].status == Completed && id in Apply(self, s, e).ceremonies
    ensures var c, c' := s.ceremonies[id], Apply(self, s, e).ceremonies[id];
            && SameKey(c, c') && AtItsEpoch(plans, id, c') && (c'.status == Completed <==> !FailureMeets(s, e, id))
            && (c' == c || Refreshed(plans, s, e, id, c, c') || Reloaded(s, e, id, c') || c' == c.(status := Failed))
  {
    var c := s.ceremonies[id];
    assert KeygenOk(self, plans, s.keys, id, c);
    NotGenerating(self, plans, s, id);
    if e.RefreshInstalls? {
      RefreshMoves(self, plans, s, e.rid, id);
    } else if e.RestoreInstalls? {
      RestoreMoves(self, plans, s, e.token, id);
    } else if e.KeygenFails? {
      FailureMarks(s, e.id, id);
    } else {
      OthersLeaveIt(self, plans, s, e, id);
    }
  }

  lemma RestoreMoves(self: Node, plans: Plans, s: State, token: string, id: string)
    requires id in s.ceremonies && KeygenOk(self, plans, s.keys, id, s.ceremonies[id])
    requires s.ceremonies[id].status == Completed && LoadingsOk(self, plans, s.keys, s.loading)
    ensures var c, c' := s.ceremonies[id], OnRestoreInstalls(s, token).ceremonies[id];
            && SameKey(c, c') && AtItsEpoch(plans, id, c') && c'.status == Completed
            && (c' == c || Reloaded(s, RestoreInstalls(token), id, c'))
  {
    if token in s.loading {
      assert KeygenOk(self, plans, s.keys, s.loading[token].0, s.loading[token].1);
    }
  }

  lemma RefreshMoves(self: Node, plans: Plans, s: State, rid: string, id: string)
    requires id in s.ceremonies && KeygenOk(self, plans, s.keys, id, s.ceremonies[id])
    requires s.ceremonies[id].status == Completed
    requires rid in s.resharings ==> ResharingOk(self, plans, s.keys, s.resharings[rid])
    ensures id in OnRefreshInstalls(s, rid).ceremonies
    ensures var c, c' := s.ceremonies[id], OnRefreshInstalls(s, rid).ceremonies[id];
            && SameKey(c, c') && AtItsEpoch(plans, id, c') && c'.status == Completed
            && (c' == c || Refreshed(plans, s, RefreshInstalls(rid), id, c, c'))
  {
    var c, c' := s.ceremonies[id], OnRefreshInstalls(s, rid).ceremonies[id];
    if c' != c {
      assert s.resharings[rid].source == id;
    }
  }

  lemma FailureMarks(s: State, key: string, id: string)
    requires id in s.ceremonies && s.ceremonies[id].status == Completed
    ensures var c, s' := s.ceremonies[id], OnKeygenFails(s, key);
            && id in s'.ceremonies
            && s'.ceremonies[id] == if FailureMeets(s, KeygenFails(key), id) then c.(status := Failed) else c
  {
  }

  lemma SealingLeavesIt(s: State, key: string, share: KeyShare, address: Option<string>, outcome: SealOutcome, id: string)
    requires id in s.ceremonies && id !in s.generating
    ensures var s' := OnKeygenSeals(s, key, share, address, outcome);
            id in s'.ceremonies && s'.ceremonies[id] == s.ceremonies[id]
  {
  }

  lemma StartingLeavesIt(self: Node, s: State, key: string, threshold: int, peers: map<Node, string>, curve: Curve, id: string)
    requires id in s.ceremonies && id in s.used && key !in s.used
    ensures var s' := OnStartKeygen(self, s, key, threshold, peers, curve);
            id in s'.ceremonies && s'.ceremonies[id] == s.ceremonies[id]
  {
  }

  lemma OthersLeaveIt(self: Node, plans: Plans, s: State, e: Event, id: string)
    requires Allowed(plans, s, e) && !e.RestoreInstalls? && !e.RefreshInstalls? && !e.KeygenFails?
    requires id in s.ceremonies && s.ceremonies[id].status == Completed && id !in s.generating && id in s.used
    ensures id in Apply(self, s, e).ceremonies ==> Apply(self, s, e).ceremonies[id] == s.ceremonies[id]
  {
    match e
    case StartKeygen(key, threshold, peers, curve) => StartingLeavesIt(self, s, key, threshold, peers, curve, id);
    case KeygenStops(_) =>
    case KeygenSeals(key, share, address, outcome) => SealingLeavesIt(s, key, share, address, outcome, id);
    case KeygenInstalls(_) =>
    case StartRefresh(_, _, _) =>
    case RefreshRuns(_) =>
    case RefreshStops(_) =>
    case RefreshResult(_, _) =>
    case RefreshSeals(_, _) =>
    case RestoreChecks(_, _) =>
    case RestoreLoads(_, _, _) =>
    case Forget(_) =>
    case Retire(_) =>
    case StartSigning(_, _, _, _) =>
    case Crash =>
  }

  lemma NotGenerating(self: Node, plans: Plans, s: State, id: string)
    requires Inv(self, plans, s) && id in s.keys
    ensures id !in s.generating
  {
  }

  /** The public key and the address a key generation made are the key's for good: nothing later
      changes them. */
  lemma {:induction false} KeysNeverChange(self: Node, plans: Plans, s: State, events: seq<Event>, id: string)
    requires Inv(self, plans, s) && AllowedRun(plans, self, s, events) && id in s.keys
    ensures id in Run(self, s, events).keys && Run(self, s, events).keys[id] == s.keys[id]
    decreases events
  {
    if events != [] {
      var s' := Apply(self, s, events[0]);
      NotGenerating(self, plans, s, id);
      KeyKept(self, s, events[0], id);
      StepKeeps(self, plans, s, events[0]);
      KeysNeverChange(self, plans, s', events[1..], id);
    }
  }

  lemma OthersKeepKeys(self: Node, s: State, e: Event)
    requires !e.KeygenSeals?
    ensures Apply(self, s, e).keys == s.keys
  {
  }

  lemma KeyKept(self: Node, s: State, e: Event, id: string)
    requires id in s.keys && id !in s.generating
    ensures id in Apply(self, s, e).keys && Apply(self, s, e).keys[id] == s.keys[id]
  {
    if !e.KeygenSeals? {
      OthersKeepKeys(self, s, e);
    }
  }

  // ---- sealing and restoring ----

  /** What a key generation seals for the ceremony it has completed. */
  lemma SealedContextRestores(self: Node, plans: Plans, keys: Keys, id: string, c: Keygen, share: KeyShare, done: Keygen, peers: map<Node, string>)
    requires GeneratingOk(self, plans, keys, id, c) && peers.Keys == c.peers.Keys && share.publicKey != "" && done.address != ""
    requires done == c.(status := Completed, share := Some(share), publicKey := share.publicKey, address := done.address, sealed := true)
    ensures Restored(self, Record(share, Some(KeygenContext(done))), peers) == Some(done.(peers := peers))
  {
    CommitteeSize(plans[id].ids, 0);
    LookupsAgree(plans[id].ids, 0, self);
    assert |peers| == |peers.Keys|;
  }

  /** A key generation's seal holds the whole ceremony: restored at any endpoints of the same
      parties it is the ceremony that was completed. */
  lemma KeygenSealRestores(self: Node, plans: Plans, s: State, id: string, share: KeyShare, address: string, peers: map<Node, string>)
    requires Reachable(self, plans, s) && id in s.generating && share.publicKey != "" && address != ""
    requires peers.Keys == s.generating[id].peers.Keys
    ensures var s' := OnKeygenSeals(s, id, share, Some(address), Sealed);
            id in s'.store && Restored(self, s'.store[id], peers) == Some(s'.finishing[id].(peers := peers))
  {
    ReachableInv(self, plans, s);
    var c := s.generating[id];
    var done := c.(status := Completed, share := Some(share), publicKey := share.publicKey, address := address, sealed := true);
    assert GeneratingOk(self, plans, s.keys, id, c);
    SealedContextRestores(self, plans, s.keys, id, c, share, done, peers);
  }

  lemma RefreshContextRestores(self: Node, plans: Plans, keys: Keys, r: Resharing, c: Keygen, peers: map<Node, string>)
    requires ResharingOk(self, plans, keys, r) && r.result.Some? && peers.Keys == plans[r.source].ids
    requires KeygenOk(self, plans, keys, r.source, c) && c.status == Completed
    ensures Restored(self, Record(r.result.value, Some(RefreshContext(r))), peers) ==
            Some(c.(share := r.result, sortedIDs := r.newSorted, epoch := r.newEpoch, peers := peers, sealed := true))
  {
    CommitteeSize(plans[r.source].ids, r.newEpoch);
    LookupsAgree(plans[r.source].ids, r.newEpoch, self);
    assert |peers| == |peers.Keys|;
  }

  /** A refresh's seal does too: restored, it is the key as the refresh leaves it in memory. */
  lemma RefreshSealRestores(self: Node, plans: Plans, s: State, rid: string, peers: map<Node, string>)
    requires Reachable(self, plans, s) && rid in s.resharings
    requires var r := s.resharings[rid];
             && r.phase == Accepted && r.result.Some? && r.source in plans && peers.Keys == plans[r.source].ids
             && r.source in s.ceremonies && s.ceremonies[r.source].status == Completed
    ensures var r := s.resharings[rid];
            var s1 := OnRefreshSeals(s, rid, Sealed);
            var s2 := OnRefreshInstalls(s1, rid);
            && r.source in s1.store && r.source in s2.ceremonies
            && Restored(self, s1.store[r.source], peers) == Some(s2.ceremonies[r.source].(peers := peers, sealed := true))
  {
    ReachableInv(self, plans, s);
    var r := s.resharings[rid];
    assert ResharingOk(self, plans, s.keys, r) && KeygenOk(self, plans, s.keys, r.source, s.ceremonies[r.source]);
    RefreshContextRestores(self, plans, s.keys, r, s.ceremonies[r.source], peers);
  }

  /** The ceremony a sealed record holds, at other endpoints. */
  ghost predicate RebuiltFrom(rec: Record, plan: Plan, made: Made, peers: map<Node, string>, c: Keygen) {
    && rec.context.Some?
    && c.status == Completed && c.share == Some(rec.share) && c.peers == peers && c.epoch == rec.context.value.epoch
    && c.sortedIDs == Committee(plan.ids, c.epoch) == rec.share.committee
    && c.threshold == plan.threshold && c.curve == plan.curve
    && c.publicKey == made.publicKey == rec.share.publicKey && c.address == made.address == rec.context.value.address
  }

  /** Whenever a process is lost, every key it had sealed can be restored: completed, with the
      share, epoch, identities, threshold and curve of the last seal written, and the public key
      and address its key generation made. */
  lemma CrashedKeysAreRestorable(self: Node, plans: Plans, s: State, id: string, token: string, peers: map<Node, string>)
    requires Reachable(self, plans, s) && id in s.store && id in plans && peers.Keys == plans[id].ids
    ensures var lost := Apply(self, s, Crash);
            var s' := OnRestoreInstalls(OnRestoreLoads(self, OnRestoreChecks(lost, token, id), token, id, peers), token);
            id in s.keys && id in s'.ceremonies && RebuiltFrom(s.store[id], plans[id], s.keys[id], peers, s'.ceremonies[id])
  {
    ReachableInv(self, plans, s);
    assert RecordOk(self, plans, s.keys, id, s.store[id]);
    LookupsAgree(plans[id].ids, s.store[id].context.value.epoch, self);
    assert |peers| == |peers.Keys|;
    assert Restored(self, s.store[id], peers).Some?;
  }

  /** The sealed context holds how many parties there were and not which: a restore with as
      many parties, this one among them, always goes through, and the identities it rebuilds
      are the share's exactly when the parties are the key's. */
  lemma RestoreChecksOnlyTheCount(self: Node, plans: Plans, s: State, id: string, peers: map<Node, string>)
    requires Reachable(self, plans, s) && id in s.store && id in plans
    requires AreNodes(peers.Keys) && self in peers && |peers| == |plans[id].ids|
    ensures var c := Restored(self, s.store[id], peers);
            c.Some? && (c.value.sortedIDs == s.store[id].share.committee <==> peers.Keys == plans[id].ids)
  {
    ReachableInv(self, plans, s);
    assert RecordOk(self, plans, s.keys, id, s.store[id]);
    var epoch := s.store[id].context.value.epoch;
    LookupsAgree(peers.Keys, epoch, self);
    if Committee(peers.Keys, epoch) == Committee(plans[id].ids, epoch) {
      SameMembers(peers.Keys, plans[id].ids, epoch);
    }
  }

  lemma SameMembers(a: set<Node>, b: set<Node>, epoch: nat)
    requires AreNodes(a) && AreNodes(b) && Committee(a, epoch) == Committee(b, epoch)
    ensures a == b
  {
    MembersAreKeys(a, epoch);
    MembersAreKeys(b, epoch);
    forall n | IsNode(n)
      ensures n in a <==> n in b
    {
      KeyNamesNodeAndEpoch(n, epoch);
      assert n in a <==> CommitteeKey(n, epoch) in Committee(a, epoch);
      assert n in b <==> CommitteeKey(n, epoch) in Committee(b, epoch);
    }
  }

  // ---- across parties ----

  lemma SessionSize(self: Node, plans: Plans, s: State, sid: string)
    requires Reachable(self, plans, s) && sid in s.signings
    ensures var g := s.signings[sid];
            && g.key in plans && MajorityRule(|plans[g.key].ids|, plans[g.key].threshold)
            && self in Members(g) && Members(g) <= plans[g.key].ids && |Members(g)| == plans[g.key].threshold + 1
  {
    ReachableInv(self, plans, s);
    assert SigningOk(self, plans, s.keys, s.signings[sid]);
  }

  /** Any two committees ever accepted for a key, at any two parties and at any two points of
      their runs, have a party in common. */
  lemma AcceptedCommitteesMeet(plans: Plans, p: Node, s: State, sid: string, q: Node, t: State, tid: string)
    requires Reachable(p, plans, s) && sid in s.signings && Reachable(q, plans, t) && tid in t.signings
    requires s.signings[sid].key == t.signings[tid].key
    ensures Members(s.signings[sid]) * Members(t.signings[tid]) != {}
  {
    SessionSize(p, plans, s, sid);
    SessionSize(q, plans, t, tid);
    var g, g' := s.signings[sid], t.signings[tid];
    MajoritiesMeet(plans[g.key].ids, plans[g.key].threshold, Members(g), Members(g'));
  }
}
