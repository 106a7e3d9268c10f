/**
 Exactly when a retired key comes back: sealed again, or loaded again, by what was under way when
 it was retired.
 */
module PartyRetirement {
  import opened Wrappers
  import opened Committees
  import opened PartyStates
  import opened PartyInvariants
  import opened PartyTheorems
  import opened PartyRuns

  /** What a retirement leaves: the key is neither loaded nor sealed. */
  predicate Retired(s: State, id: string) {
    id in s.used && id !in s.ceremonies && id !in s.store
  }

  /** A refresh that can still seal a share of the key. */
  predicate CanSeal(r: Resharing, id: string) {
    r.source == id && (r.phase.Driven? || r.phase.Accepted? || (r.phase.Registered? && r.newEpoch == 1))
  }

  ghost predicate NoneCanSeal(s: State, id: string) {
    forall rid {:trigger s.resharings[rid]} | rid in s.resharings :: !CanSeal(s.resharings[rid], id)
  }

  /** A restore that has loaded the key and is still to register it. */
  predicate Restores(s: State, token: string, id: string) {
    token in s.loading && s.loading[token].0 == id
  }

  ghost predicate SealedAgain(self: Node, plans: Plans, s: State, id: string) {
    exists events :: AllowedRun(plans, self, s, events) && id in Run(self, s, events).store
  }

  ghost predicate LoadedAgain(self: Node, plans: Plans, s: State, id: string) {
    exists events :: AllowedRun(plans, self, s, events) && Loaded(Run(self, s, events), id)
  }

  // ---- a key that nothing under way can seal ----

  /** The key is not sealed or being generated. If it is `held` it may be loaded, or about to be, but
      past its first epoch; otherwise it is not. */
  ghost predicate Dormant(s: State, id: string, held: bool) {
    && id in s.used && id !in s.generating && id !in s.store
    && (id in s.ceremonies ==> held && s.ceremonies[id].status != InProgress && s.ceremonies[id].epoch != 0)
    && forall t {:trigger s.loading[t]} | t in s.loading && s.loading[t].0 == id :: held && s.loading[t].1.epoch != 0
  }

  /** What of a state a dormant key is about. */
  ghost predicate SameFor(s: State, s': State, id: string) {
    && (id in s.used ==> id in s'.used) && s'.loading == s.loading && (id in s'.store <==> id in s.store)
    && (id in s'.ceremonies <==> id in s.ceremonies) && (id in s.ceremonies ==> s'.ceremonies[id] == s.ceremonies[id])
    && (id in s'.generating <==> id in s.generating)
  }

  lemma SameDormant(s: State, s': State, id: string, held: bool)
    requires Dormant(s, id, held) && SameFor(s, s', id)
    ensures Dormant(s', id, held)
  {
  }

  lemma StartElsewhere(self: Node, s: State, key: string, threshold: int, peers: map<Node, string>, curve: Curve, id: string)
    requires id != key
    ensures SameFor(s, OnStartKeygen(self, s, key, threshold, peers, curve), id)
  {
  }

  lemma FailElsewhere(s: State, key: string, id: string)
    requires id != key
    ensures SameFor(s, Fail(s, key), id)
  {
  }

  lemma StopElsewhere(s: State, key: string, id: string)
    requires id != key
    ensures SameFor(s, OnKeygenStops(s, key), id)
  {
    if key in s.generating {
      var t := s.(generating := s.generating - {key});
      assert SameFor(s, t, id);
      FailElsewhere(t, key, id);
    }
  }

  lemma SealsElsewhere(s: State, key: string, share: KeyShare, address: Option<string>, outcome: SealOutcome, id: string)
    requires id != key
    ensures SameFor(s, OnKeygenSeals(s, key, share, address, outcome), id)
  {
    var s' := OnKeygenSeals(s, key, share, address, outcome);
    if key in s.generating && s' != OnKeygenStops(s, key) {
      assert s' == s.(generating := s.generating - {key}, store := s'.store, keys := s'.keys, finishing := s'.finishing, failing := s'.failing);
    } else {
      StopElsewhere(s, key, id);
    }
  }

  lemma InstallsElsewhere(s: State, key: string, id: string)
    requires id != key || (id in s.ceremonies ==> s.ceremonies[id].status != InProgress)
    ensures SameFor(s, OnKeygenInstalls(s, key), id)
  {
    if key in s.finishing {
      var t := s.(finishing := s.finishing - {key});
      assert SameFor(s, t, id);
      var ceremonies := OnKeygenInstalls(s, key).ceremonies;
      assert OnKeygenInstalls(s, key) == t.(ceremonies := ceremonies);
    }
  }

  lemma KeygenLeavesDormant(self: Node, plans: Plans, s: State, e: Event, id: string, held: bool)
    requires Dormant(s, id, held) && Allowed(plans, s, e)
    requires e.StartKeygen? || e.KeygenStops? || e.KeygenSeals? || e.KeygenInstalls?
    ensures Dormant(Apply(self, s, e), id, held)
  {
    match e
    case StartKeygen(key, threshold, peers, curve) =>
      StartElsewhere(self, s, key, threshold, peers, curve, id);
      SameDormant(s, Apply(self, s, e), id, held);
    case KeygenStops(key) =>
      if key != id {
        StopElsewhere(s, key, id);
        SameDormant(s, Apply(self, s, e), id, held);
      }
    case KeygenSeals(key, share, address, outcome) =>
      if key != id {
        SealsElsewhere(s, key, share, address, outcome, id);
        SameDormant(s, Apply(self, s, e), id, held);
      }
    case KeygenInstalls(key) =>
      InstallsElsewhere(s, key, id);
      SameDormant(s, Apply(self, s, e), id, held);
  }

  lemma FailsLeavesDormant(s: State, key: string, id: string, held: bool)
    requires Dormant(s, id, held)
    ensures Dormant(OnKeygenFails(s, key), id, held)
  {
    if key in s.failing {
      var t := s.(failing := s.failing - {key});
      SameDormant(s, t, id, held);
      if key != id {
        FailElsewhere(t, key, id);
        SameDormant(t, Fail(t, key), id, held);
      }
    }
  }

  lemma RestoreLeavesDormant(self: Node, plans: Plans, s: State, token: string, id: string, held: bool)
    requires Dormant(s, id, held) && LoadingsOk(self, plans, s.keys, s.loading)
    ensures Dormant(OnRestoreInstalls(s, token), id, held)
  {
    if token in s.loading {
      assert s.loading[token].1.status == Completed;
    }
  }

  lemma LoadLeavesDormant(self: Node, s: State, token: string, key: string, peers: map<Node, string>, id: string, held: bool)
    requires Dormant(s, id, held)
    ensures Dormant(OnRestoreLoads(self, s, token, key, peers), id, held)
  {
  }

  lemma SealLeavesDormant(s: State, rid: string, outcome: SealOutcome, id: string, held: bool)
    requires Dormant(s, id, held) && NoneCanSeal(s, id)
    ensures Dormant(OnRefreshSeals(s, rid, outcome), id, held)
  {
    if rid in s.resharings {
      assert !CanSeal(s.resharings[rid], id);
    }
    SameDormant(s, OnRefreshSeals(s, rid, outcome), id, held);
  }

  lemma InstallLeavesDormant(self: Node, plans: Plans, s: State, rid: string, id: string, held: bool)
    requires Dormant(s, id, held) && ResharingsOk(self, plans, s.keys, s.resharings)
    ensures Dormant(OnRefreshInstalls(s, rid), id, held)
  {
    if rid in s.resharings {
      assert ResharingOk(self, plans, s.keys, s.resharings[rid]);
    }
  }

  lemma RemovalLeavesDormant(self: Node, s: State, e: Event, id: string, held: bool)
    requires Dormant(s, id, held) && (e.Forget? || e.Retire? || e.Crash?)
    ensures Dormant(Apply(self, s, e), id, held)
  {
  }

  lemma StaysDormant(self: Node, plans: Plans, s: State, e: Event, id: string, held: bool)
    requires Inv(self, plans, s) && Allowed(plans, s, e) && Dormant(s, id, held) && NoneCanSeal(s, id)
    ensures Dormant(Apply(self, s, e), id, held)
  {
    if e.StartKeygen? || e.KeygenStops? || e.KeygenSeals? || e.KeygenInstalls? {
      KeygenLeavesDormant(self, plans, s, e, id, held);
    } else if e.KeygenFails? {
      FailsLeavesDormant(s, e.id, id, held);
    } else if e.RestoreLoads? {
      LoadLeavesDormant(self, s, e.token, e.id, e.peers, id, held);
    } else if e.RestoreInstalls? {
      RestoreLeavesDormant(self, plans, s, e.token, id, held);
    } else if e.RefreshSeals? {
      SealLeavesDormant(s, e.rid, e.outcome, id, held);
    } else if e.RefreshInstalls? {
      InstallLeavesDormant(self, plans, s, e.rid, id, held);
    } else if e.Forget? || e.Retire? || e.Crash? {
      RemovalLeavesDormant(self, s, e, id, held);
    } else {
      SameDormant(s, Apply(self, s, e), id, held);
    }
  }

  lemma UnfoundStops(self: Node, s: State, rid: string)
    requires rid in s.resharings && s.resharings[rid].phase.Registered? && FindByNumber(s.resharings[rid].oldSorted, self).None?
    ensures OnRefreshRuns(self, s, rid) == StopRefresh(s, rid)
  {
  }

  lemma RunsOnlyRegistered(self: Node, s: State, rid: string)
    requires rid in s.resharings && !s.resharings[rid].phase.Registered?
    ensures OnRefreshRuns(self, s, rid) == s
  {
  }

  /** A refresh past the first epoch is never driven. */
  lemma RunsCannotSeal(self: Node, plans: Plans, s: State, rid: string, id: string)
    requires Inv(self, plans, s) && rid in s.resharings && !CanSeal(s.resharings[rid], id)
    ensures var s' := OnRefreshRuns(self, s, rid); rid in s'.resharings && !CanSeal(s'.resharings[rid], id)
  {
    var r := s.resharings[rid];
    RunsMove(self, s, rid);
    OneMoved(s, OnRefreshRuns(self, s, rid), rid, rid);
    if r.source == id {
      if r.phase.Registered? {
        assert ResharingOk(self, plans, s.keys, r);
        NumberFoundAtFirstEpoch(self, plans, s.keys, r);
        UnfoundStops(self, s, rid);
      } else {
        RunsOnlyRegistered(self, s, rid);
      }
    }
  }

  /** Nor does any other step bring a refresh back to where it can seal. */
  lemma ProgressCannotSeal(r: Resharing, r': Resharing, id: string)
    requires Progress(r, r') && !CanSeal(r, id) && (r.phase.Registered? ==> r' == r || r'.phase.Stopped?)
    ensures !CanSeal(r', id)
  {
  }

  lemma OnlyRunsDrive(self: Node, s: State, e: Event, rid: string)
    requires OfRefresh(e, rid) && !e.RefreshRuns? && rid in s.resharings && s.resharings[rid].phase.Registered?
    ensures Apply(self, s, e) == s
  {
  }

  lemma RefreshCannotSeal(self: Node, plans: Plans, s: State, e: Event, rid: string, id: string)
    requires Inv(self, plans, s) && OfAnyRefresh(e) && rid in s.resharings && !CanSeal(s.resharings[rid], id)
    ensures rid in Apply(self, s, e).resharings && !CanSeal(Apply(self, s, e).resharings[rid], id)
  {
    RefreshMovesOne(self, s, e, e.rid);
    OneMoved(s, Apply(self, s, e), e.rid, rid);
    if e.rid == rid {
      if e.RefreshRuns? {
        RunsCannotSeal(self, plans, s, rid, id);
      } else {
        if s.resharings[rid].phase.Registered? {
          OnlyRunsDrive(self, s, e, rid);
        }
        ProgressCannotSeal(s.resharings[rid], Apply(self, s, e).resharings[rid], id);
      }
    }
  }

  /** A refresh of a key past its first epoch starts out unable to seal. */
  lemma StartCannotSeal(self: Node, s: State, rid: string, key: string, peers: map<Node, string>, id: string, held: bool)
    requires Dormant(s, id, held) && NoneCanSeal(s, id)
    ensures NoneCanSeal(OnStartRefresh(self, s, rid, key, peers), id)
  {
    StartAddsOne(self, s, rid, key, peers);
  }

  lemma StillNoneCanSeal(self: Node, plans: Plans, s: State, e: Event, id: string, held: bool)
    requires Inv(self, plans, s) && Dormant(s, id, held) && NoneCanSeal(s, id)
    ensures NoneCanSeal(Apply(self, s, e), id)
  {
    var s' := Apply(self, s, e);
    if OfAnyRefresh(e) {
      RefreshMovesOne(self, s, e, e.rid);
      OneMoved(s, s', e.rid, e.rid);
      forall rid | rid in s'.resharings
        ensures !CanSeal(s'.resharings[rid], id)
      {
        RefreshCannotSeal(self, plans, s, e, rid, id);
      }
    } else if e.StartRefresh? {
      StartCannotSeal(self, s, e.rid, e.id, e.peers, id, held);
    } else if !e.Crash? {
      OthersLeaveRefreshes(self, s, e);
    }
  }

  lemma {:induction false} DormantForGood(self: Node, plans: Plans, s: State, events: seq<Event>, id: string, held: bool)
    requires Inv(self, plans, s) && AllowedRun(plans, self, s, events) && Dormant(s, id, held) && NoneCanSeal(s, id)
    ensures Dormant(Run(self, s, events), id, held)
    decreases events
  {
    if events != [] {
      StaysDormant(self, plans, s, events[0], id, held);
      StillNoneCanSeal(self, plans, s, events[0], id, held);
      StepKeeps(self, plans, s, events[0]);
      DormantForGood(self, plans, Apply(self, s, events[0]), events[1..], id, held);
    }
  }

  // ---- what can seal it ----

  lemma RunStep(self: Node, s: State, e: Event, rest: seq<Event>)
    ensures Run(self, s, [e] + rest) == Run(self, Apply(self, s, e), rest)
  {
    assert ([e] + rest)[1..] == rest;
  }

  lemma AllowedStep(plans: Plans, self: Node, s: State, e: Event, rest: seq<Event>)
    requires Allowed(plans, s, e) && AllowedRun(plans, self, Apply(self, s, e), rest)
    ensures AllowedRun(plans, self, s, [e] + rest)
  {
    assert ([e] + rest)[1..] == rest;
  }

  lemma BackAfter(self: Node, plans: Plans, s: State, e: Event, id: string)
    requires Allowed(plans, s, e) && SealedAgain(self, plans, Apply(self, s, e), id)
    ensures SealedAgain(self, plans, s, id)
  {
    var rest :| AllowedRun(plans, self, Apply(self, s, e), rest) && id in Run(self, Apply(self, s, e), rest).store;
    AllowedStep(plans, self, s, e, rest);
    RunStep(self, s, e, rest);
  }

  lemma AcceptedComesBack(self: Node, plans: Plans, s: State, rid: string, id: string)
    requires rid in s.resharings && s.resharings[rid].source == id
    requires s.resharings[rid].phase.Accepted? && s.resharings[rid].result.Some?
    ensures SealedAgain(self, plans, s, id)
  {
    var s' := Apply(self, s, RefreshSeals(rid, Sealed));
    assert AllowedRun(plans, self, s', []) && id in Run(self, s', []).store;
    BackAfter(self, plans, s, RefreshSeals(rid, Sealed), id);
  }

  lemma DrivenComesBack(self: Node, plans: Plans, s: State, rid: string, id: string)
    requires Inv(self, plans, s) && rid in s.resharings && s.resharings[rid].source == id && s.resharings[rid].phase.Driven?
    ensures SealedAgain(self, plans, s, id)
  {
    var r := s.resharings[rid];
    assert ResharingOk(self, plans, s.keys, r);
    var share := KeyShare(r.curve, r.expectedPublicKey, "", r.newSorted, rid);
    AcceptedComesBack(self, plans, Apply(self, s, RefreshResult(rid, share)), rid, id);
    BackAfter(self, plans, s, RefreshResult(rid, share), id);
  }

  lemma FirstRefreshIsDriven(self: Node, plans: Plans, s: State, rid: string)
    requires Inv(self, plans, s) && rid in s.resharings
    requires s.resharings[rid].phase.Registered? && s.resharings[rid].newEpoch == 1
    ensures OnRefreshRuns(self, s, rid) == s.(resharings := s.resharings[rid := s.resharings[rid].(phase := Driven)])
  {
    var r := s.resharings[rid];
    assert ResharingOk(self, plans, s.keys, r);
    LookupsAgree(plans[r.source].ids, 0, self);
    LookupsAgree(plans[r.source].ids, 1, self);
  }

  lemma RegisteredComesBack(self: Node, plans: Plans, s: State, rid: string, id: string)
    requires Inv(self, plans, s) && rid in s.resharings && s.resharings[rid].source == id
    requires s.resharings[rid].phase.Registered? && s.resharings[rid].newEpoch == 1
    ensures SealedAgain(self, plans, s, id)
  {
    FirstRefreshIsDriven(self, plans, s, rid);
    RefreshRunsKeeps(self, plans, s, rid);
    DrivenComesBack(self, plans, Apply(self, s, RefreshRuns(rid)), rid, id);
    BackAfter(self, plans, s, RefreshRuns(rid), id);
  }

  lemma GeneratingComesBack(self: Node, plans: Plans, s: State, id: string)
    requires id in s.generating
    ensures SealedAgain(self, plans, s, id)
  {
    var c := s.generating[id];
    var e := KeygenSeals(id, KeyShare(c.curve, "k", "", c.sortedIDs, id), Some("a"), Sealed);
    var s' := Apply(self, s, e);
    assert AllowedRun(plans, self, s', []) && id in Run(self, s', []).store;
    BackAfter(self, plans, s, e, id);
  }

  /** A name longer than all of them is none of them. */
  lemma FreshName(names: set<string>) returns (x: string)
    ensures forall n | n in names :: |n| < |x|
  {
    if names == {} {
      x := "";
    } else {
      var n :| n in names;
      var y := FreshName(names - {n});
      x := y + n + "x";
      forall m | m in names ensures |m| < |x| {
        if m != n {
          assert m in names - {n};
        }
      }
    }
  }

  /** A key loaded at its first epoch can be refreshed, and the refresh seals it. */
  lemma FirstEpochComesBack(self: Node, plans: Plans, s: State, id: string)
    requires Inv(self, plans, s) && Loaded(s, id) && s.ceremonies[id].epoch == 0
    ensures SealedAgain(self, plans, s, id)
  {
    var c := s.ceremonies[id];
    assert KeygenOk(self, plans, s.keys, id, c);
    var rid := FreshName(s.resharings.Keys);
    assert rid !in s.resharings;
    LookupsAgree(plans[id].ids, 0, self);
    assert self in c.peers.Keys;
    assert |c.peers| != 0;
    var e := StartRefresh(rid, id, c.peers);
    StartRefreshKeeps(self, plans, s, rid, id, c.peers);
    RegisteredComesBack(self, plans, Apply(self, s, e), rid, id);
    BackAfter(self, plans, s, e, id);
  }

  lemma RestoreComesBack(self: Node, plans: Plans, s: State, token: string, id: string)
    requires Inv(self, plans, s) && Restores(s, token, id) && s.loading[token].1.epoch == 0
    ensures SealedAgain(self, plans, s, id)
  {
    assert s.loading[token].1.status == Completed;
    RestoreInstallsKeeps(self, plans, s, token);
    FirstEpochComesBack(self, plans, Apply(self, s, RestoreInstalls(token)), id);
    BackAfter(self, plans, s, RestoreInstalls(token), id);
  }

  lemma RefreshComesBack(self: Node, plans: Plans, s: State, rid: string, id: string)
    requires Inv(self, plans, s) && rid in s.resharings && CanSeal(s.resharings[rid], id)
    ensures SealedAgain(self, plans, s, id)
  {
    assert ResharingOk(self, plans, s.keys, s.resharings[rid]);
    match s.resharings[rid].phase {
      case Registered => RegisteredComesBack(self, plans, s, rid, id);
      case Driven => DrivenComesBack(self, plans, s, rid, id);
      case Accepted => AcceptedComesBack(self, plans, s, rid, id);
      case _ =>
    }
  }

  /** A retired key is sealed again by some later run if and only if, when it was retired, its key
      generation was still running, a restore had loaded it at its first epoch, or a refresh of it
      was still to be sealed: registered at the key's first epoch, driven, or accepted. */
  lemma SealedAgainExactly(self: Node, plans: Plans, s: State, id: string)
    requires Reachable(self, plans, s) && Retired(s, id)
    ensures SealedAgain(self, plans, s, id) <==>
            || id in s.generating
            || (exists token :: Restores(s, token, id) && s.loading[token].1.epoch == 0)
            || (exists rid :: rid in s.resharings && CanSeal(s.resharings[rid], id))
  {
    ReachableInv(self, plans, s);
    if id in s.generating {
      GeneratingComesBack(self, plans, s, id);
    } else if token :| Restores(s, token, id) && s.loading[token].1.epoch == 0 {
      RestoreComesBack(self, plans, s, token, id);
    } else if rid :| rid in s.resharings && CanSeal(s.resharings[rid], id) {
      RefreshComesBack(self, plans, s, rid, id);
    } else if SealedAgain(self, plans, s, id) {
      var events :| AllowedRun(plans, self, s, events) && id in Run(self, s, events).store;
      assert forall t | Restores(s, t, id) :: s.loading[t].1.epoch != 0;
      DormantForGood(self, plans, s, events, id, true);
    }
  }

  // ---- what can load it ----

  lemma {:induction false} RunsJoin(self: Node, plans: Plans, s: State, a: seq<Event>, b: seq<Event>)
    requires AllowedRun(plans, self, s, a) && AllowedRun(plans, self, Run(self, s, a), b)
    ensures AllowedRun(plans, self, s, a + b) && Run(self, s, a + b) == Run(self, Run(self, s, a), b)
    decreases a
  {
    if a == [] {
      assert [] + b == b;
    } else {
      assert (a + b)[1..] == a[1..] + b;
      RunsJoin(self, plans, Apply(self, s, a[0]), a[1..], b);
    }
  }

  lemma LoadsAfter(self: Node, plans: Plans, s: State, e: Event, id: string)
    requires Allowed(plans, s, e) && LoadedAgain(self, plans, Apply(self, s, e), id)
    ensures LoadedAgain(self, plans, s, id)
  {
    var rest :| AllowedRun(plans, self, Apply(self, s, e), rest) && Loaded(Run(self, Apply(self, s, e), rest), id);
    AllowedStep(plans, self, s, e, rest);
    RunStep(self, s, e, rest);
  }

  lemma RestoreLoadsIt(self: Node, plans: Plans, s: State, token: string, id: string)
    requires Inv(self, plans, s) && Restores(s, token, id)
    ensures LoadedAgain(self, plans, s, id)
  {
    assert s.loading[token].1.status == Completed;
    var s' := Apply(self, s, RestoreInstalls(token));
    assert AllowedRun(plans, self, s', []) && Loaded(Run(self, s', []), id);
    LoadsAfter(self, plans, s, RestoreInstalls(token), id);
  }

  lemma RecordRestores(self: Node, plans: Plans, keys: Keys, id: string, rec: Record) returns (peers: map<Node, string>)
    requires RecordOk(self, plans, keys, id, rec)
    ensures peers.Keys == plans[id].ids && Restored(self, rec, peers).Some?
  {
    peers := map n | n in plans[id].ids :: "";
    assert peers.Keys == plans[id].ids && |peers| == |peers.Keys|;
    LookupsAgree(plans[id].ids, rec.context.value.epoch, self);
  }

  lemma ForgottenIsLoaded(self: Node, plans: Plans, s: State, id: string)
    requires Inv(self, plans, s) && id in s.store && id !in s.ceremonies
    ensures LoadedAgain(self, plans, s, id)
  {
    assert RecordOk(self, plans, s.keys, id, s.store[id]);
    var peers := RecordRestores(self, plans, s.keys, id, s.store[id]);
    SimpleStepKeeps(self, plans, s, RestoreChecks("t", id));
    CheckedIsLoaded(self, plans, Apply(self, s, RestoreChecks("t", id)), id, peers);
    LoadsAfter(self, plans, s, RestoreChecks("t", id), id);
  }

  lemma CheckedIsLoaded(self: Node, plans: Plans, s: State, id: string, peers: map<Node, string>)
    requires Inv(self, plans, s) && id in s.store && id in plans && peers.Keys == plans[id].ids
    requires Restored(self, s.store[id], peers).Some? && "t" in s.checked && s.checked["t"] == id
    ensures LoadedAgain(self, plans, s, id)
  {
    var e := RestoreLoads("t", id, peers);
    RestoreLoadsKeeps(self, plans, s, "t", id, peers);
    assert Restores(Apply(self, s, e), "t", id);
    RestoreLoadsIt(self, plans, Apply(self, s, e), "t", id);
    LoadsAfter(self, plans, s, e, id);
  }

  /** A sealed key is loaded by forgetting it and restoring it. */
  lemma SealedIsLoaded(self: Node, plans: Plans, s: State, id: string)
    requires Inv(self, plans, s) && id in s.store
    ensures LoadedAgain(self, plans, s, id)
  {
    SimpleStepKeeps(self, plans, s, Forget(id));
    ForgottenIsLoaded(self, plans, Apply(self, s, Forget(id)), id);
    LoadsAfter(self, plans, s, Forget(id), id);
  }

  lemma SealedThenLoaded(self: Node, plans: Plans, s: State, id: string)
    requires Inv(self, plans, s) && SealedAgain(self, plans, s, id)
    ensures LoadedAgain(self, plans, s, id)
  {
    var a :| AllowedRun(plans, self, s, a) && id in Run(self, s, a).store;
    RunKeeps(self, plans, s, a);
    SealedIsLoaded(self, plans, Run(self, s, a), id);
    var b :| AllowedRun(plans, self, Run(self, s, a), b) && Loaded(Run(self, Run(self, s, a), b), id);
    RunsJoin(self, plans, s, a, b);
  }

  /** And it is loaded again by some later run if and only if its key generation was still running,
      a restore had loaded it, at whichever epoch, or a refresh of it was still to be sealed. */
  lemma LoadedAgainExactly(self: Node, plans: Plans, s: State, id: string)
    requires Reachable(self, plans, s) && Retired(s, id)
    ensures LoadedAgain(self, plans, s, id) <==>
            || id in s.generating
            || (exists token :: Restores(s, token, id))
            || (exists rid :: rid in s.resharings && CanSeal(s.resharings[rid], id))
  {
    ReachableInv(self, plans, s);
    if id in s.generating {
      GeneratingComesBack(self, plans, s, id);
      SealedThenLoaded(self, plans, s, id);
    } else if token :| Restores(s, token, id) {
      RestoreLoadsIt(self, plans, s, token, id);
    } else if rid :| rid in s.resharings && CanSeal(s.resharings[rid], id) {
      RefreshComesBack(self, plans, s, rid, id);
      SealedThenLoaded(self, plans, s, id);
    } else if LoadedAgain(self, plans, s, id) {
      var events :| AllowedRun(plans, self, s, events) && Loaded(Run(self, s, events), id);
      assert forall t | t in s.loading :: !Restores(s, t, id);
      DormantForGood(self, plans, s, events, id, false);
    }
  }
}
