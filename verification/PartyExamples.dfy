/**
 Runs of a party that a reader would not expect: a refreshed key back at its first epoch, a retired
 key sealed or loaded again, a restored key marked failed, and one share loaded while another is
 sealed. Each works for any key, parties, threshold and curve.
 */
module PartyExamples {
  import opened Wrappers
  import opened Committees
  import opened PartyStates
  import opened PartyInvariants
  import opened PartyTheorems
  import opened PartyRuns
  import opened PartyRetirement
  import opened PartyDeals

  /** A key, by whatever its caller and tss-lib choose. */
  datatype Setup = Setup(self: Node, id: string, peers: map<Node, string>, threshold: int, curve: Curve,
                         publicKey: string, address: string) {
    ghost predicate Valid() {
      && self in peers && AreNodes(peers.Keys) && MajorityRule(|peers|, threshold) && publicKey != "" && address != ""
    }
    ghost function Plans(): Plans {
      map[id := Plan(peers.Keys, threshold, curve)]
    }
    ghost function Share(epoch: nat): KeyShare {
      KeyShare(curve, publicKey, "", Committee(peers.Keys, epoch), if epoch == 0 then id else "r")
    }
    ghost function Begun(): Keygen {
      Keygen(InProgress, threshold, Committee(peers.Keys, 0), peers, curve, 0, None, "", "", false)
    }
    /** The key as loaded, and as sealed, at an epoch. */
    ghost function Key(epoch: nat): Keygen {
      Keygen(Completed, threshold, Committee(peers.Keys, epoch), peers, curve, epoch, Some(Share(epoch)), publicKey, address, true)
    }
    ghost function Sealing(epoch: nat): Record {
      Record(Share(epoch), Some(Context(threshold, |Committee(peers.Keys, epoch)|, curve, epoch, publicKey, address)))
    }
    ghost function Refresh(phase: Phase): Resharing {
      var result := if phase.Registered? || phase.Driven? then None else Some(Share(1));
      Resharing(if result.None? then InProgress else Completed, threshold, curve, Committee(peers.Keys, 0), Committee(peers.Keys, 1), 1, id,
                publicKey, address, Share(0), result, phase)
    }
  }

  lemma {:induction false} Extend(self: Node, plans: Plans, s: State, events: seq<Event>, e: Event)
    requires AllowedRun(plans, self, s, events) && Allowed(plans, Run(self, s, events), e)
    ensures AllowedRun(plans, self, s, events + [e]) && Run(self, s, events + [e]) == Apply(self, Run(self, s, events), e)
    decreases events
  {
    if events == [] {
      assert [] + [e] == [e] && [e][1..] == [];
      assert Run(self, s, [e]) == Run(self, Apply(self, s, e), []);
      assert AllowedRun(plans, self, Apply(self, s, e), []);
    } else {
      assert (events + [e])[1..] == events[1..] + [e];
      Extend(self, plans, Apply(self, s, events[0]), events[1..], e);
    }
  }

  /** What matters of a state: the key in memory, the restores waiting, the record and the refresh. */
  ghost predicate Shows(u: Setup, s: State, loaded: Option<Keygen>, waiting: set<string>, sealed: Option<Record>, refresh: Option<Resharing>) {
    && u.id in s.used && u.id !in s.generating && u.id !in s.finishing
    && (if loaded.None? then u.id !in s.ceremonies else u.id in s.ceremonies && s.ceremonies[u.id] == loaded.value)
    && s.loading.Keys == waiting && (forall t | t in waiting :: s.loading[t] == (u.id, u.Key(0)))
    && (if sealed.None? then u.id !in s.store else u.id in s.store && s.store[u.id] == sealed.value)
    && (if refresh.None? then "r" !in s.resharings else "r" in s.resharings && s.resharings["r"] == refresh.value)
  }

  ghost predicate Comes(u: Setup, events: seq<Event>, loaded: Option<Keygen>, waiting: set<string>, sealed: Option<Record>, refresh: Option<Resharing>) {
    AllowedRun(u.Plans(), u.self, Initial, events) && Shows(u, Run(u.self, Initial, events), loaded, waiting, sealed, refresh)
  }

  // ---- one step at a time ----

  lemma Loads(u: Setup, s: State, waiting: set<string>, refresh: Option<Resharing>, token: string)
    requires u.Valid() && Shows(u, s, None, waiting, Some(u.Sealing(0)), refresh) && token in s.checked && s.checked[token] == u.id
    ensures Shows(u, OnRestoreLoads(u.self, s, token, u.id, u.peers), None, waiting + {token}, Some(u.Sealing(0)), refresh)
  {
    CommitteeSize(u.peers.Keys, 0);
    LookupsAgree(u.peers.Keys, 0, u.self);
    assert |u.peers| == |u.peers.Keys|;
    assert Restored(u.self, u.Sealing(0), u.peers) == Some(u.Key(0));
  }

  /** A restore finds the key not loaded and reads its record. */
  ghost function Loading(before: seq<Event>, u: Setup, token: string): seq<Event> {
    before + [RestoreChecks(token, u.id)] + [RestoreLoads(token, u.id, u.peers)]
  }

  lemma LoadingIs(u: Setup, before: seq<Event>, waiting: set<string>, refresh: Option<Resharing>, token: string)
    requires u.Valid() && Comes(u, before, None, waiting, Some(u.Sealing(0)), refresh)
    ensures Comes(u, Loading(before, u, token), None, waiting + {token}, Some(u.Sealing(0)), refresh)
    ensures Run(u.self, Initial, Loading(before, u, token)).failing == Run(u.self, Initial, before).failing
  {
    var s, one := Run(u.self, Initial, before), before + [RestoreChecks(token, u.id)];
    Extend(u.self, u.Plans(), Initial, before, RestoreChecks(token, u.id));
    var s1 := OnRestoreChecks(s, token, u.id);
    assert Shows(u, s1, None, waiting, Some(u.Sealing(0)), refresh);
    Extend(u.self, u.Plans(), Initial, one, RestoreLoads(token, u.id, u.peers));
    Loads(u, s1, waiting, refresh, token);
  }

  lemma Registers(u: Setup, s: State, loaded: Option<Keygen>, waiting: set<string>, sealed: Option<Record>, refresh: Option<Resharing>, token: string)
    requires Shows(u, s, loaded, waiting, sealed, refresh) && token in waiting
    ensures Shows(u, OnRestoreInstalls(s, token), Some(u.Key(0)), waiting - {token}, sealed, refresh)
  {
  }

  lemma Starts(u: Setup, s: State, waiting: set<string>, sealed: Option<Record>)
    requires u.Valid() && Shows(u, s, Some(u.Key(0)), waiting, sealed, None)
    ensures Shows(u, OnStartRefresh(u.self, s, "r", u.id, u.peers), Some(u.Key(0)), waiting, sealed, Some(u.Refresh(Registered)))
  {
    LookupsAgree(u.peers.Keys, 0, u.self);
  }

  lemma Drives(u: Setup, s: State, loaded: Option<Keygen>, waiting: set<string>, sealed: Option<Record>)
    requires u.Valid() && Shows(u, s, loaded, waiting, sealed, Some(u.Refresh(Registered)))
    ensures Shows(u, OnRefreshRuns(u.self, s, "r"), loaded, waiting, sealed, Some(u.Refresh(Driven)))
  {
    LookupsAgree(u.peers.Keys, 0, u.self);
    LookupsAgree(u.peers.Keys, 1, u.self);
  }

  lemma Accepts(u: Setup, s: State, loaded: Option<Keygen>, waiting: set<string>, sealed: Option<Record>)
    requires u.Valid() && Shows(u, s, loaded, waiting, sealed, Some(u.Refresh(Driven)))
    ensures Shows(u, OnRefreshResult(s, "r", u.Share(1)), loaded, waiting, sealed, Some(u.Refresh(Accepted)))
  {
  }

  lemma Seals(u: Setup, s: State, loaded: Option<Keygen>, waiting: set<string>, sealed: Option<Record>)
    requires u.Valid() && Shows(u, s, loaded, waiting, sealed, Some(u.Refresh(Accepted)))
    ensures Shows(u, OnRefreshSeals(s, "r", Sealed), loaded, waiting, Some(u.Sealing(1)), Some(u.Refresh(SealDone)))
  {
  }

  lemma Installs(u: Setup, s: State, waiting: set<string>, sealed: Option<Record>)
    requires u.Valid() && Shows(u, s, Some(u.Key(0)), waiting, sealed, Some(u.Refresh(SealDone)))
    ensures Shows(u, OnRefreshInstalls(s, "r"), Some(u.Key(1)), waiting, sealed, Some(u.Refresh(Installed)))
  {
  }

  // ---- the runs ----

  /** A key is generated and sealed, and the process is lost. */
  ghost function Lost(u: Setup): seq<Event> {
    [StartKeygen(u.id, u.threshold, u.peers, u.curve)] + [KeygenSeals(u.id, u.Share(0), Some(u.address), Sealed)] + [Crash]
  }

  lemma StartedIs(u: Setup)
    requires u.Valid()
    ensures var events := [StartKeygen(u.id, u.threshold, u.peers, u.curve)];
            && AllowedRun(u.Plans(), u.self, Initial, events)
            && Run(u.self, Initial, events) ==
               Initial.(ceremonies := map[u.id := u.Begun()], generating := map[u.id := u.Begun()], used := {u.id})
  {
    var start := StartKeygen(u.id, u.threshold, u.peers, u.curve);
    assert |u.peers| == |u.peers.Keys|;
    assert AllowedRun(u.Plans(), u.self, Initial, []) && Run(u.self, Initial, []) == Initial;
    Extend(u.self, u.Plans(), Initial, [], start);
    assert [] + [start] == [start];
  }

  lemma LostIs(u: Setup)
    requires u.Valid()
    ensures Comes(u, Lost(u), None, {}, Some(u.Sealing(0)), None)
  {
    var start, seal := StartKeygen(u.id, u.threshold, u.peers, u.curve), KeygenSeals(u.id, u.Share(0), Some(u.address), Sealed);
    StartedIs(u);
    Extend(u.self, u.Plans(), Initial, [start], seal);
    Extend(u.self, u.Plans(), Initial, [start] + [seal], Crash);
  }

  /** Two restores of it load, and the second registers. */
  ghost function Restoring(u: Setup): seq<Event> {
    Loading(Loading(Lost(u), u, "a"), u, "b") + [RestoreInstalls("b")]
  }

  lemma RestoringIs(u: Setup)
    requires u.Valid()
    ensures Comes(u, Restoring(u), Some(u.Key(0)), {"a"}, Some(u.Sealing(0)), None)
  {
    var one := Loading(Lost(u), u, "a");
    var two := Loading(one, u, "b");
    LostIs(u);
    LoadingIs(u, Lost(u), {}, None, "a");
    LoadingIs(u, one, {} + {"a"}, None, "b");
    Extend(u.self, u.Plans(), Initial, two, RestoreInstalls("b"));
    Registers(u, Run(u.self, Initial, two), None, {} + {"a"} + {"b"}, Some(u.Sealing(0)), None, "b");
    assert {} + {"a"} + {"b"} - {"b"} == {"a"};
  }

  /** A refresh runs to its end. */
  ghost function Refreshing(before: seq<Event>, u: Setup): seq<Event> {
    before + [RefreshRuns("r")] + [RefreshResult("r", u.Share(1))] + [RefreshSeals("r", Sealed)]
  }

  lemma RefreshingIs(u: Setup, before: seq<Event>, loaded: Option<Keygen>, waiting: set<string>, sealed: Option<Record>)
    requires u.Valid() && Comes(u, before, loaded, waiting, sealed, Some(u.Refresh(Registered)))
    ensures Comes(u, Refreshing(before, u), loaded, waiting, Some(u.Sealing(1)), Some(u.Refresh(SealDone)))
  {
    var one := before + [RefreshRuns("r")];
    var two := one + [RefreshResult("r", u.Share(1))];
    Extend(u.self, u.Plans(), Initial, before, RefreshRuns("r"));
    Drives(u, Run(u.self, Initial, before), loaded, waiting, sealed);
    Extend(u.self, u.Plans(), Initial, one, RefreshResult("r", u.Share(1)));
    Accepts(u, Run(u.self, Initial, one), loaded, waiting, sealed);
    Extend(u.self, u.Plans(), Initial, two, RefreshSeals("r", Sealed));
    Seals(u, Run(u.self, Initial, two), loaded, waiting, sealed);
  }

  lemma StartIs(u: Setup, before: seq<Event>, waiting: set<string>, sealed: Option<Record>)
    requires u.Valid() && Comes(u, before, Some(u.Key(0)), waiting, sealed, None)
    ensures Comes(u, before + [StartRefresh("r", u.id, u.peers)], Some(u.Key(0)), waiting, sealed, Some(u.Refresh(Registered)))
  {
    Extend(u.self, u.Plans(), Initial, before, StartRefresh("r", u.id, u.peers));
    Starts(u, Run(u.self, Initial, before), waiting, sealed);
  }

  /** The key is refreshed, in memory and where it is sealed. Then the first restore registers. */
  ghost function RollingBack(u: Setup): seq<Event> {
    Refreshing(Restoring(u) + [StartRefresh("r", u.id, u.peers)], u) + [RefreshInstalls("r")] + [RestoreInstalls("a")]
  }

  /** For every key there is a run after which it is back at its first epoch in memory, having been
      loaded at the next one a step before, while what is sealed is of the next one. */
  lemma RestoreCanRollBack(u: Setup)
    requires u.Valid()
    ensures var events := RollingBack(u);
            var before, after := Run(u.self, Initial, events[..|events| - 1]), Run(u.self, Initial, events);
            && AllowedRun(u.Plans(), u.self, Initial, events)
            && u.id in before.ceremonies && before.ceremonies[u.id] == u.Key(1)
            && u.id in after.ceremonies && after.ceremonies[u.id] == u.Key(0)
            && u.id in after.store && after.store[u.id] == u.Sealing(1)
  {
    var refreshing := Refreshing(Restoring(u) + [StartRefresh("r", u.id, u.peers)], u);
    var done := refreshing + [RefreshInstalls("r")];
    RestoringIs(u);
    StartIs(u, Restoring(u), {"a"}, Some(u.Sealing(0)));
    RefreshingIs(u, Restoring(u) + [StartRefresh("r", u.id, u.peers)], Some(u.Key(0)), {"a"}, Some(u.Sealing(0)));
    Extend(u.self, u.Plans(), Initial, refreshing, RefreshInstalls("r"));
    Installs(u, Run(u.self, Initial, refreshing), {"a"}, Some(u.Sealing(1)));
    Extend(u.self, u.Plans(), Initial, done, RestoreInstalls("a"));
    Registers(u, Run(u.self, Initial, done), Some(u.Key(1)), {"a"}, Some(u.Sealing(1)), Some(u.Refresh(Installed)), "a");
    assert RollingBack(u)[..|RollingBack(u)| - 1] == done;
  }

  /** A key is restored, a refresh of it starts, and the key is removed from memory and from
      its store. */
  ghost function Retiring(u: Setup): seq<Event> {
    Loading(Lost(u), u, "b") + [RestoreInstalls("b")] + [StartRefresh("r", u.id, u.peers)]
    + [Forget(u.id)] + [Retire(u.id)]
  }

  lemma RetireIs(u: Setup, before: seq<Event>)
    requires u.Valid() && Comes(u, before, Some(u.Key(0)), {}, Some(u.Sealing(0)), Some(u.Refresh(Registered)))
    ensures Comes(u, before + [Forget(u.id)] + [Retire(u.id)], None, {}, None, Some(u.Refresh(Registered)))
  {
    Extend(u.self, u.Plans(), Initial, before, Forget(u.id));
    Extend(u.self, u.Plans(), Initial, before + [Forget(u.id)], Retire(u.id));
  }

  lemma RetiringIs(u: Setup)
    requires u.Valid()
    ensures Comes(u, Retiring(u), None, {}, None, Some(u.Refresh(Registered)))
  {
    var one := Loading(Lost(u), u, "b");
    var two := one + [RestoreInstalls("b")];
    LostIs(u);
    LoadingIs(u, Lost(u), {}, None, "b");
    Extend(u.self, u.Plans(), Initial, one, RestoreInstalls("b"));
    Registers(u, Run(u.self, Initial, one), None, {} + {"b"}, Some(u.Sealing(0)), None, "b");
    assert {} + {"b"} - {"b"} == {};
    StartIs(u, two, {}, Some(u.Sealing(0)));
    RetireIs(u, two + [StartRefresh("r", u.id, u.peers)]);
  }

  /** For every key there is a run in which it is retired and then sealed again, in a record that
      restores it. */
  lemma RetiredKeyCanComeBack(u: Setup)
    requires u.Valid()
    ensures var after := Run(u.self, Initial, Refreshing(Retiring(u), u));
            && AllowedRun(u.Plans(), u.self, Initial, Refreshing(Retiring(u), u))
            && Retired(Run(u.self, Initial, Retiring(u)), u.id)
            && u.id in after.store && Restored(u.self, after.store[u.id], u.peers) == Some(u.Key(1))
  {
    RetiringIs(u);
    RefreshingIs(u, Retiring(u), None, {}, None);
    CommitteeSize(u.peers.Keys, 1);
    LookupsAgree(u.peers.Keys, 1, u.self);
    assert |u.peers| == |u.peers.Keys|;
  }

  /** A key generation starts, and its key is removed from memory and from the store. */
  ghost function Discarding(u: Setup): seq<Event> {
    [StartKeygen(u.id, u.threshold, u.peers, u.curve)] + [Forget(u.id)] + [Retire(u.id)]
  }

  lemma DiscardingIs(u: Setup)
    requires u.Valid()
    ensures AllowedRun(u.Plans(), u.self, Initial, Discarding(u))
    ensures var s := Run(u.self, Initial, Discarding(u));
            && u.id in s.used && s.ceremonies == map[] && s.store == map[] && s.resharings == map[] && s.loading == map[]
            && u.id in s.generating && s.generating[u.id].sortedIDs == u.Share(0).committee && s.generating[u.id].curve == u.curve
  {
    var start := StartKeygen(u.id, u.threshold, u.peers, u.curve);
    StartedIs(u);
    Extend(u.self, u.Plans(), Initial, [start], Forget(u.id));
    assert Run(u.self, Initial, [start] + [Forget(u.id)]).ceremonies == map[];
    Extend(u.self, u.Plans(), Initial, [start] + [Forget(u.id)], Retire(u.id));
  }

  /** For every key: retired while its key generation runs, with nothing else under way, it is
      sealed by that key generation. */
  lemma RunningKeygenOutlivesRetirement(u: Setup)
    requires u.Valid()
    ensures var before := Discarding(u);
            var events := before + [KeygenSeals(u.id, u.Share(0), Some(u.address), Sealed)];
            && AllowedRun(u.Plans(), u.self, Initial, events)
            && Retired(Run(u.self, Initial, before), u.id) && Run(u.self, Initial, before).resharings == map[]
            && u.id in Run(u.self, Initial, events).store
  {
    DiscardingIs(u);
    Extend(u.self, u.Plans(), Initial, Discarding(u), KeygenSeals(u.id, u.Share(0), Some(u.address), Sealed));
  }

  /** A key is restored up to the registering, and is removed from memory and from its store. */
  ghost function Overtaking(u: Setup): seq<Event> {
    Loading(Lost(u), u, "a") + [Forget(u.id)] + [Retire(u.id)]
  }

  lemma OvertakingIs(u: Setup)
    requires u.Valid()
    ensures Comes(u, Overtaking(u), None, {"a"}, None, None)
  {
    var one := Loading(Lost(u), u, "a");
    LostIs(u);
    LoadingIs(u, Lost(u), {}, None, "a");
    assert {} + {"a"} == {"a"};
    Extend(u.self, u.Plans(), Initial, one, Forget(u.id));
    Extend(u.self, u.Plans(), Initial, one + [Forget(u.id)], Retire(u.id));
  }

  /** For every key: retired while a restore of it is under way, it is loaded and completed once the
      restore registers it. */
  lemma RestoreOutlivesRetirement(u: Setup)
    requires u.Valid()
    ensures var before, events := Overtaking(u), Overtaking(u) + [RestoreInstalls("a")];
            && AllowedRun(u.Plans(), u.self, Initial, events) && Retired(Run(u.self, Initial, before), u.id)
            && var s := Run(u.self, Initial, events);
               u.id in s.ceremonies && s.ceremonies[u.id] == u.Key(0) && u.id !in s.store
  {
    OvertakingIs(u);
    Extend(u.self, u.Plans(), Initial, Overtaking(u), RestoreInstalls("a"));
    Registers(u, Run(u.self, Initial, Overtaking(u)), None, {"a"}, None, None, "a");
  }

  /** A key generation's seal is written and reported as failed; before the failure is recorded the
      key is forgotten and restored. */
  ghost function LosingTheSeal(u: Setup): seq<Event> {
    [StartKeygen(u.id, u.threshold, u.peers, u.curve)] + [KeygenSeals(u.id, u.Share(0), Some(u.address), SealLost)] + [Forget(u.id)]
  }

  lemma LosingTheSealIs(u: Setup)
    requires u.Valid()
    ensures Comes(u, LosingTheSeal(u), None, {}, Some(u.Sealing(0)), None) && u.id in Run(u.self, Initial, LosingTheSeal(u)).failing
  {
    var start, seal := StartKeygen(u.id, u.threshold, u.peers, u.curve), KeygenSeals(u.id, u.Share(0), Some(u.address), SealLost);
    StartedIs(u);
    Extend(u.self, u.Plans(), Initial, [start], seal);
    Extend(u.self, u.Plans(), Initial, [start] + [seal], Forget(u.id));
  }

  ghost function FailingLate(u: Setup): seq<Event> {
    Loading(LosingTheSeal(u), u, "a") + [RestoreInstalls("a")]
  }

  /** For every key there is a run in which it is restored and completed, and the late failure of its
      key generation marks it failed. */
  lemma LateFailureMarksARestoredKey(u: Setup)
    requires u.Valid()
    ensures var before, events := FailingLate(u), FailingLate(u) + [KeygenFails(u.id)];
            && AllowedRun(u.Plans(), u.self, Initial, events)
            && var s, s' := Run(u.self, Initial, before), Run(u.self, Initial, events);
               && u.id in s.ceremonies && s.ceremonies[u.id] == u.Key(0)
               && u.id in s'.ceremonies && s'.ceremonies[u.id] == u.Key(0).(status := Failed)
  {
    var one := Loading(LosingTheSeal(u), u, "a");
    LosingTheSealIs(u);
    LoadingIs(u, LosingTheSeal(u), {}, None, "a");
    Extend(u.self, u.Plans(), Initial, one, RestoreInstalls("a"));
    Registers(u, Run(u.self, Initial, one), None, {} + {"a"}, Some(u.Sealing(0)), None, "a");
    Extend(u.self, u.Plans(), Initial, FailingLate(u), KeygenFails(u.id));
  }

  // ---- two refreshes of one key ----

  /** The share a refresh of a key at its first epoch deals. */
  ghost function DealtBy(c: Keygen, rid: string): KeyShare {
    KeyShare(c.curve, c.publicKey, "", Committee(c.peers.Keys, 1), rid)
  }

  /** A refresh of a key at its first epoch whose result has been accepted. */
  ghost function Decided(id: string, c: Keygen, rid: string): Resharing
    requires c.share.Some?
  {
    Resharing(Completed, c.threshold, c.curve, Committee(c.peers.Keys, 0), Committee(c.peers.Keys, 1), 1, id,
              c.publicKey, c.address, c.share.value, Some(DealtBy(c, rid)), Accepted)
  }

  ghost function Deciding(id: string, c: Keygen, rid: string): seq<Event> {
    [StartRefresh(rid, id, c.peers)] + ([RefreshRuns(rid)] + ([RefreshResult(rid, DealtBy(c, rid))] + []))
  }

  /** A refresh of a key before its result, in a phase. */
  ghost function Undecided(id: string, c: Keygen, rid: string, phase: Phase): Resharing
    requires c.share.Some?
  {
    Decided(id, c, rid).(status := InProgress, result := None, phase := phase)
  }

  ghost function With(s: State, rid: string, r: Resharing): State {
    s.(resharings := s.resharings[rid := r])
  }

  /** The key can be refreshed. */
  ghost predicate Fresh(self: Node, plans: Plans, s: State, id: string, rid: string) {
    && Inv(self, plans, s) && Loaded(s, id) && s.ceremonies[id].epoch == 0 && s.ceremonies[id].share.Some? && rid !in s.resharings
  }

  lemma StartIsRegistered(self: Node, plans: Plans, s: State, id: string, rid: string)
    requires Fresh(self, plans, s, id, rid)
    ensures var c := s.ceremonies[id];
            var s1 := With(s, rid, Undecided(id, c, rid, Registered));
            && Allowed(plans, s, StartRefresh(rid, id, c.peers)) && OnStartRefresh(self, s, rid, id, c.peers) == s1
            && Inv(self, plans, s1)
  {
    var c := s.ceremonies[id];
    assert KeygenOk(self, plans, s.keys, id, c);
    LookupsAgree(c.peers.Keys, 0, self);
    assert self in c.peers && |c.peers| != 0;
    StartRefreshKeeps(self, plans, s, rid, id, c.peers);
  }

  lemma OneIsDriven(self: Node, plans: Plans, s: State, rid: string, r: Resharing)
    requires Inv(self, plans, With(s, rid, r)) && r.phase.Registered? && r.newEpoch == 1
    ensures OnRefreshRuns(self, With(s, rid, r), rid) == With(s, rid, r.(phase := Driven))
  {
    FirstRefreshIsDriven(self, plans, With(s, rid, r), rid);
    assert s.resharings[rid := r][rid := r.(phase := Driven)] == s.resharings[rid := r.(phase := Driven)];
  }

  lemma RegisteredIsDriven(self: Node, plans: Plans, s: State, id: string, rid: string)
    requires Fresh(self, plans, s, id, rid)
    ensures var c := s.ceremonies[id];
            OnRefreshRuns(self, With(s, rid, Undecided(id, c, rid, Registered)), rid) == With(s, rid, Undecided(id, c, rid, Driven))
  {
    var c := s.ceremonies[id];
    StartIsRegistered(self, plans, s, id, rid);
    OneIsDriven(self, plans, s, rid, Undecided(id, c, rid, Registered));
  }

  lemma DrivenIsDecided(self: Node, plans: Plans, s: State, id: string, rid: string)
    requires Fresh(self, plans, s, id, rid)
    ensures var c := s.ceremonies[id];
            var s2, e := With(s, rid, Undecided(id, c, rid, Driven)), RefreshResult(rid, DealtBy(c, rid));
            Allowed(plans, s2, e) && Apply(self, s2, e) == With(s, rid, Decided(id, c, rid))
  {
    var c := s.ceremonies[id];
    assert KeygenOk(self, plans, s.keys, id, c);
    assert s.resharings[rid := Undecided(id, c, rid, Driven)][rid := Decided(id, c, rid)] == s.resharings[rid := Decided(id, c, rid)];
  }

  lemma ThreeSteps(self: Node, plans: Plans, s: State, e1: Event, s1: State, e2: Event, s2: State, e3: Event, s3: State)
    requires Allowed(plans, s, e1) && Apply(self, s, e1) == s1 && Allowed(plans, s1, e2) && Apply(self, s1, e2) == s2
    requires Allowed(plans, s2, e3) && Apply(self, s2, e3) == s3
    ensures AllowedRun(plans, self, s, [e1] + ([e2] + ([e3] + []))) && Run(self, s, [e1] + ([e2] + ([e3] + []))) == s3
  {
    assert AllowedRun(plans, self, s3, []) && Run(self, s3, []) == s3;
    AllowedStep(plans, self, s2, e3, []);
    RunStep(self, s2, e3, []);
    AllowedStep(plans, self, s1, e2, [e3] + []);
    RunStep(self, s1, e2, [e3] + []);
    AllowedStep(plans, self, s, e1, [e2] + ([e3] + []));
    RunStep(self, s, e1, [e2] + ([e3] + []));
  }

  lemma DecidingIs(self: Node, plans: Plans, s: State, id: string, rid: string)
    requires Fresh(self, plans, s, id, rid)
    ensures var c := s.ceremonies[id];
            && AllowedRun(plans, self, s, Deciding(id, c, rid))
            && Run(self, s, Deciding(id, c, rid)) == With(s, rid, Decided(id, c, rid))
  {
    var c := s.ceremonies[id];
    StartIsRegistered(self, plans, s, id, rid);
    RegisteredIsDriven(self, plans, s, id, rid);
    DrivenIsDecided(self, plans, s, id, rid);
    ThreeSteps(self, plans, s, StartRefresh(rid, id, c.peers), With(s, rid, Undecided(id, c, rid, Registered)),
               RefreshRuns(rid), With(s, rid, Undecided(id, c, rid, Driven)),
               RefreshResult(rid, DealtBy(c, rid)), With(s, rid, Decided(id, c, rid)));
  }

  /** Two refreshes seal their shares in one order and install them in the other. */
  ghost function Crossing(a: string, b: string): seq<Event> {
    [RefreshSeals(a, Sealed)] + ([RefreshSeals(b, Sealed)] + ([RefreshInstalls(b)] + ([RefreshInstalls(a)] + [])))
  }

  lemma SealsOne(s: State, rid: string, id: string, c: Keygen)
    requires c.share.Some? && rid in s.resharings && s.resharings[rid] == Decided(id, c, rid)
    ensures var s' := OnRefreshSeals(s, rid, Sealed);
            && s'.resharings == s.resharings[rid := Decided(id, c, rid).(phase := SealDone)] && s'.ceremonies == s.ceremonies
            && id in s'.store && s'.store[id].share == DealtBy(c, rid)
  {
  }

  lemma InstallsOne(s: State, rid: string, id: string, c: Keygen)
    requires c.share.Some? && id in s.ceremonies && rid in s.resharings
    requires s.resharings[rid] == Decided(id, c, rid).(phase := SealDone)
    ensures var s' := OnRefreshInstalls(s, rid);
            && s'.resharings == s.resharings[rid := Decided(id, c, rid).(phase := Installed)] && s'.store == s.store
            && id in s'.ceremonies && s'.ceremonies[id].share == Some(DealtBy(c, rid)) && s'.ceremonies[id].epoch == 1
  {
  }

  lemma CrossingIs(self: Node, plans: Plans, s: State, id: string, c: Keygen, a: string, b: string)
    requires a != b && c.share.Some? && id in s.ceremonies
    requires a in s.resharings && s.resharings[a] == Decided(id, c, a) && b in s.resharings && s.resharings[b] == Decided(id, c, b)
    ensures AllowedRun(plans, self, s, Crossing(a, b))
    ensures var s' := Run(self, s, Crossing(a, b));
            && id in s'.ceremonies && s'.ceremonies[id].share == Some(DealtBy(c, a)) && s'.ceremonies[id].epoch == 1
            && id in s'.store && s'.store[id].share == DealtBy(c, b)
  {
    var e1, e2, e3, e4 := RefreshSeals(a, Sealed), RefreshSeals(b, Sealed), RefreshInstalls(b), RefreshInstalls(a);
    var s1 := OnRefreshSeals(s, a, Sealed);
    var s2 := OnRefreshSeals(s1, b, Sealed);
    var s3 := OnRefreshInstalls(s2, b);
    var s4 := OnRefreshInstalls(s3, a);
    SealsOne(s, a, id, c);
    SealsOne(s1, b, id, c);
    InstallsOne(s2, b, id, c);
    InstallsOne(s3, a, id, c);
    assert AllowedRun(plans, self, s4, []) && Run(self, s4, []) == s4;
    AllowedStep(plans, self, s3, e4, []);
    RunStep(self, s3, e4, []);
    AllowedStep(plans, self, s2, e3, [e4] + []);
    RunStep(self, s2, e3, [e4] + []);
    AllowedStep(plans, self, s1, e2, [e3] + ([e4] + []));
    RunStep(self, s1, e2, [e3] + ([e4] + []));
    AllowedStep(plans, self, s, e1, [e2] + ([e3] + ([e4] + [])));
    RunStep(self, s, e1, [e2] + ([e3] + ([e4] + [])));
  }

  /** From every state in which a key is loaded at its first epoch, two refreshes of it can leave the
      share of one loaded and the share of the other sealed. */
  lemma RefreshesCanCross(self: Node, plans: Plans, s: State, id: string, a: string, b: string)
    requires Reachable(self, plans, s) && Loaded(s, id) && s.ceremonies[id].epoch == 0 && s.ceremonies[id].share.Some?
    requires a !in s.resharings && b !in s.resharings && a != b
    ensures var c := s.ceremonies[id];
            var events := Deciding(id, c, a) + Deciding(id, c, b) + Crossing(a, b);
            && AllowedRun(plans, self, s, events)
            && var s' := Run(self, s, events);
               && id in s'.ceremonies && s'.ceremonies[id].share == Some(DealtBy(c, a))
               && id in s'.store && s'.store[id].share == DealtBy(c, b) && DealtBy(c, a) != DealtBy(c, b)
  {
    var c := s.ceremonies[id];
    ReachableInv(self, plans, s);
    DecidingIs(self, plans, s, id, a);
    RunKeeps(self, plans, s, Deciding(id, c, a));
    var s1 := Run(self, s, Deciding(id, c, a));
    DecidingIs(self, plans, s1, id, b);
    var s2 := Run(self, s1, Deciding(id, c, b));
    CrossingIs(self, plans, s2, id, c, a, b);
    RunsJoin(self, plans, s, Deciding(id, c, a), Deciding(id, c, b));
    RunsJoin(self, plans, s, Deciding(id, c, a) + Deciding(id, c, b), Crossing(a, b));
  }

  // ---- a restore among other parties ----

  lemma RestoredAmong(u: Setup, others: map<Node, string>)
    requires u.Valid() && AreNodes(others.Keys) && u.self in others && |others| == |u.peers|
    ensures Restored(u.self, u.Sealing(0), others) == Some(u.Key(0).(sortedIDs := Committee(others.Keys, 0), peers := others))
  {
    CommitteeSize(u.peers.Keys, 0);
    LookupsAgree(others.Keys, 0, u.self);
    assert |u.peers| == |u.peers.Keys|;
  }

  lemma CommitteeIs(a: Node, b: Node)
    requires IsNode(a) && IsNode(b) && a.number < b.number
    ensures Committee({a, b}, 0) == [PartyID(a.number), PartyID(b.number)]
  {
    MembersAreKeys({a, b}, 0);
    IncreasingUnique(Committee({a, b}, 0), [PartyID(a.number), PartyID(b.number)]);
  }

  /** A key of parties 1 and 2 restored among parties 1 and 3: it goes through, and the identities
      are not the ones the share is of. */
  lemma RestoresAmongOthers(u: Setup)
    requires u.self == Node(1) && u.threshold == 1 && u.publicKey != "" && u.address != ""
    requires u.peers == map[Node(1) := "", Node(2) := ""]
    ensures var s := Run(u.self, Initial, Lost(u));
            && AllowedRun(u.Plans(), u.self, Initial, Lost(u)) && u.id in s.store
            && var c := Restored(u.self, s.store[u.id], map[Node(1) := "", Node(3) := ""]);
               c.Some? && c.value.sortedIDs == [PartyID(1), PartyID(3)] && c.value.share.value.committee == [PartyID(1), PartyID(2)]
  {
    var others := map[Node(1) := "", Node(3) := ""];
    assert u.peers.Keys == {Node(1), Node(2)} && others.Keys == {Node(1), Node(3)};
    LostIs(u);
    RestoredAmong(u, others);
    CommitteeIs(Node(1), Node(2));
    CommitteeIs(Node(1), Node(3));
  }
}
