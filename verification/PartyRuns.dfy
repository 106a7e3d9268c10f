/**
 What holds of a key over whole runs of a party: what a refresh does from its start to its end,
 exactly when a loaded key can fall back to an earlier epoch, and when it can be marked failed.
 */
module PartyRuns {
  import opened Wrappers
  import opened Committees
  import opened PartyStates
  import opened SigningCommittees
  import opened PartyInvariants
  import opened PartyTheorems

  // ---- a refresh from start to end ----

  /** An event of one refresh. */
  predicate OfRefresh(e: Event, rid: string) {
    (e.RefreshRuns? || e.RefreshStops? || e.RefreshResult? || e.RefreshSeals? || e.RefreshInstalls?) && e.rid == rid
  }

  ghost predicate NoCrash(events: seq<Event>) {
    forall i | 0 <= i < |events| :: !events[i].Crash?
  }

  /** What a refresh is of and aims at, whatever its phase. */
  predicate SameAim(r: Resharing, r': Resharing) {
    r' == r.(status := r'.status, result := r'.result, phase := r'.phase)
  }

  /** Which phases can follow which; a refresh that has stopped or is installed is over. */
  predicate Leads(p: Phase, p': Phase) {
    match p
    case Registered => true
    case Driven => !p'.Registered?
    case Accepted => p'.Accepted? || p'.SealDone? || p'.Installed?
    case SealDone => p'.SealDone? || p'.Installed?
    case Installed => p'.Installed?
    case Stopped => p'.Stopped?
  }

  /** How a record of a refresh may change. */
  predicate Progress(r: Resharing, r': Resharing) {
    SameAim(r, r') && Leads(r.phase, r'.phase) && (r.phase.Stopped? || r.phase.Installed? ==> r' == r)
  }

  /** A step of a refresh moves its own record forward and no other. */
  ghost predicate MovesOne(s: State, s': State, rid: string) {
    if rid in s.resharings then
      exists r' {:trigger Progress(s.resharings[rid], r')} ::
        Progress(s.resharings[rid], r') && s'.resharings == s.resharings[rid := r']
    else s'.resharings == s.resharings
  }

  lemma OneMoved(s: State, s': State, x: string, rid: string)
    requires MovesOne(s, s', x)
    ensures s'.resharings.Keys == s.resharings.Keys
    ensures rid in s.resharings ==> Progress(s.resharings[rid], s'.resharings[rid])
    ensures rid in s.resharings && rid != x ==> s'.resharings[rid] == s.resharings[rid]
  {
  }

  lemma RunsMove(self: Node, s: State, rid: string)
    ensures MovesOne(s, OnRefreshRuns(self, s, rid), rid)
  {
    if rid in s.resharings {
      var r, s' := s.resharings[rid], OnRefreshRuns(self, s, rid);
      if s' == s {
        assert Progress(r, r) && s.resharings == s.resharings[rid := r];
      } else if s' == StopRefresh(s, rid) {
        assert Progress(r, r.(status := Failed, phase := Stopped));
      } else {
        assert Progress(r, r.(phase := Driven));
      }
    }
  }

  lemma StopsMove(s: State, rid: string)
    ensures MovesOne(s, OnRefreshStops(s, rid), rid)
  {
    if rid in s.resharings {
      var r' := OnRefreshStops(s, rid).resharings[rid];
      assert Progress(s.resharings[rid], r');
    }
  }

  lemma ResultMoves(s: State, rid: string, share: KeyShare)
    ensures MovesOne(s, OnRefreshResult(s, rid, share), rid)
  {
    if rid in s.resharings {
      var r, s' := s.resharings[rid], OnRefreshResult(s, rid, share);
      if s' == s {
        assert Progress(r, r) && s.resharings == s.resharings[rid := r];
      } else if s' == StopRefresh(s, rid) {
        assert Progress(r, r.(status := Failed, phase := Stopped));
      } else {
        assert Progress(r, r.(status := Completed, result := Some(share), phase := Accepted));
      }
    }
  }

  lemma SealsMove(s: State, rid: string, outcome: SealOutcome)
    ensures MovesOne(s, OnRefreshSeals(s, rid, outcome), rid)
  {
    if rid in s.resharings {
      var r' := OnRefreshSeals(s, rid, outcome).resharings[rid];
      assert Progress(s.resharings[rid], r');
    }
  }

  lemma InstallsMove(s: State, rid: string)
    ensures MovesOne(s, OnRefreshInstalls(s, rid), rid)
  {
    if rid in s.resharings {
      var r' := OnRefreshInstalls(s, rid).resharings[rid];
      assert Progress(s.resharings[rid], r');
    }
  }

  lemma RefreshMovesOne(self: Node, s: State, e: Event, rid: string)
    requires OfRefresh(e, rid)
    ensures MovesOne(s, Apply(self, s, e), rid)
  {
    if e.RefreshRuns? {
      RunsMove(self, s, rid);
    } else if e.RefreshStops? {
      StopsMove(s, rid);
    } else if e.RefreshResult? {
      ResultMoves(s, rid, e.share);
    } else if e.RefreshSeals? {
      SealsMove(s, rid, e.outcome);
    } else {
      InstallsMove(s, rid);
    }
  }

  predicate OfAnyRefresh(e: Event) {
    e.RefreshRuns? || e.RefreshStops? || e.RefreshResult? || e.RefreshSeals? || e.RefreshInstalls?
  }

  lemma StartAddsOne(self: Node, s: State, rid: string, id: string, peers: map<Node, string>)
    ensures var s' := OnStartRefresh(self, s, rid, id, peers);
            s' == s || (rid !in s.resharings && id in s.ceremonies && rid in s'.resharings && s'.resharings[rid].source == id
                        && s'.resharings == s.resharings[rid := s'.resharings[rid]])
  {
  }

  lemma OthersLeaveRefreshes(self: Node, s: State, e: Event)
    requires !OfAnyRefresh(e) && !e.StartRefresh? && !e.Crash?
    ensures Apply(self, s, e).resharings == s.resharings
  {
  }

  lemma StepProgress(self: Node, s: State, e: Event, rid: string)
    requires rid in s.resharings && !e.Crash?
    ensures rid in Apply(self, s, e).resharings && Progress(s.resharings[rid], Apply(self, s, e).resharings[rid])
  {
    if e.StartRefresh? {
      StartAddsOne(self, s, e.rid, e.id, e.peers);
    } else if OfAnyRefresh(e) {
      RefreshMovesOne(self, s, e, e.rid);
      OneMoved(s, Apply(self, s, e), e.rid, rid);
    } else {
      OthersLeaveRefreshes(self, s, e);
    }
  }

  /** Over any run a refresh keeps what it is of and aims at and only moves forward; one that has
      failed stays failed. */
  lemma {:induction false} RunProgress(self: Node, s: State, events: seq<Event>, rid: string)
    requires rid in s.resharings && NoCrash(events)
    ensures rid in Run(self, s, events).resharings && Progress(s.resharings[rid], Run(self, s, events).resharings[rid])
    decreases events
  {
    if events != [] {
      StepProgress(self, s, events[0], rid);
      RunProgress(self, Apply(self, s, events[0]), events[1..], rid);
    }
  }

  /** The key as a refresh leaves it. */
  ghost function Renewed(c: Keygen, share: KeyShare, ids: set<Node>, epoch: nat): Keygen {
    c.(share := Some(share), sortedIDs := Committee(ids, epoch), epoch := epoch)
  }

  /** The one effect a step of a refresh can have on loaded and sealed keys: it seals a share of
      the same key for the next epoch, or installs it. */
  ghost predicate Effect(plan: Plan, id: string, c0: Keygen, r: Resharing, e: Event, s: State, s': State) {
    && (s'.ceremonies == s.ceremonies
        || (&& e.RefreshInstalls? && r.phase.SealDone? && r.result.Some? && id in s.ceremonies
            && s'.ceremonies == s.ceremonies[id := Renewed(s.ceremonies[id], r.result.value, plan.ids, c0.epoch + 1)]))
    && (s'.store == s.store
        || (&& e.RefreshSeals? && r.phase.Accepted? && r.result.Some?
            && s'.store == s.store[id := Record(r.result.value, Some(Context(plan.threshold, |plan.ids|, plan.curve,
                                                                            c0.epoch + 1, c0.publicKey, c0.address)))]))
  }

  ghost predicate AimsAtNext(plan: Plan, id: string, c0: Keygen, r: Resharing) {
    && r.source == id && r.newEpoch == c0.epoch + 1 && r.expectedPublicKey == c0.publicKey && r.expectedAddress == c0.address
    && c0.share == Some(r.input)
    && (r.result.Some? ==> r.result.value.publicKey == c0.publicKey && r.result.value.committee == Committee(plan.ids, c0.epoch + 1))
  }

  lemma StartAims(self: Node, plans: Plans, s0: State, rid: string, id: string, peers: map<Node, string>)
    requires Inv(self, plans, s0) && rid !in s0.resharings && rid in OnStartRefresh(self, s0, rid, id, peers).resharings
    ensures id in s0.ceremonies && s0.ceremonies[id].status == Completed && id in plans
    ensures AimsAtNext(plans[id], id, s0.ceremonies[id], OnStartRefresh(self, s0, rid, id, peers).resharings[rid])
  {
    assert KeygenOk(self, plans, s0.keys, id, s0.ceremonies[id]);
  }

  lemma SealsEffect(self: Node, plans: Plans, s: State, rid: string, id: string, c0: Keygen, outcome: SealOutcome)
    requires rid in s.resharings && id in plans && AimsAtNext(plans[id], id, c0, s.resharings[rid])
    requires ResharingOk(self, plans, s.keys, s.resharings[rid])
    ensures Effect(plans[id], id, c0, s.resharings[rid], RefreshSeals(rid, outcome), s, OnRefreshSeals(s, rid, outcome))
  {
    CommitteeSize(plans[id].ids, s.resharings[rid].newEpoch);
  }

  lemma InstallsEffect(self: Node, plans: Plans, s: State, rid: string, id: string, c0: Keygen)
    requires rid in s.resharings && id in plans && AimsAtNext(plans[id], id, c0, s.resharings[rid])
    requires ResharingOk(self, plans, s.keys, s.resharings[rid])
    ensures Effect(plans[id], id, c0, s.resharings[rid], RefreshInstalls(rid), s, OnRefreshInstalls(s, rid))
  {
  }

  lemma StepEffect(self: Node, plans: Plans, s: State, rid: string, id: string, c0: Keygen, e: Event)
    requires Inv(self, plans, s) && rid in s.resharings && OfRefresh(e, rid) && id in plans
    requires AimsAtNext(plans[id], id, c0, s.resharings[rid])
    ensures Effect(plans[id], id, c0, s.resharings[rid], e, s, Apply(self, s, e))
    ensures s.resharings[rid].phase.Stopped? || s.resharings[rid].phase.Installed? ==> Apply(self, s, e) == s
  {
    var r := s.resharings[rid];
    assert ResharingOk(self, plans, s.keys, r);
    match e
    case RefreshSeals(_, outcome) => SealsEffect(self, plans, s, rid, id, c0, outcome);
    case RefreshInstalls(_) => InstallsEffect(self, plans, s, rid, id, c0);
    case RefreshRuns(_) =>
    case RefreshStops(_) =>
    case RefreshResult(_, _) =>
  }

  lemma StillAims(self: Node, plans: Plans, keys: Keys, plan: Plan, id: string, c0: Keygen, r: Resharing, r': Resharing)
    requires AimsAtNext(plan, id, c0, r) && SameAim(r, r') && ResharingOk(self, plans, keys, r') && id in plans && plans[id] == plan
    ensures AimsAtNext(plan, id, c0, r')
  {
  }

  /** From its start, through any run until the process is lost, with other refreshes of the same
      key under way or not: a refresh is of the key it was started for and aims at the epoch after
      the one that key was at. Each of its steps leaves all loaded and sealed keys as they are, or
      seals or installs a share of the same public key at that epoch, with the threshold, curve and
      address of the key. Once it has stopped or is installed no step of it does anything. */
  lemma RefreshOverARun(self: Node, plans: Plans, s0: State, rid: string, id: string, peers: map<Node, string>,
                        events: seq<Event>, e: Event)
    requires Reachable(self, plans, s0) && Allowed(plans, s0, StartRefresh(rid, id, peers)) && rid !in s0.resharings
    requires var s1 := Apply(self, s0, StartRefresh(rid, id, peers));
             rid in s1.resharings && AllowedRun(plans, self, s1, events) && NoCrash(events) && OfRefresh(e, rid)
    ensures id in s0.ceremonies && s0.ceremonies[id].status == Completed && id in plans
    ensures var s := Run(self, Apply(self, s0, StartRefresh(rid, id, peers)), events);
            && rid in s.resharings && AimsAtNext(plans[id], id, s0.ceremonies[id], s.resharings[rid])
            && Effect(plans[id], id, s0.ceremonies[id], s.resharings[rid], e, s, Apply(self, s, e))
            && (s.resharings[rid].phase.Stopped? || s.resharings[rid].phase.Installed? ==> Apply(self, s, e) == s)
  {
    ReachableInv(self, plans, s0);
    StartAims(self, plans, s0, rid, id, peers);
    var s1 := Apply(self, s0, StartRefresh(rid, id, peers));
    StepKeeps(self, plans, s0, StartRefresh(rid, id, peers));
    RunKeeps(self, plans, s1, events);
    RunProgress(self, s1, events, rid);
    var s := Run(self, s1, events);
    assert ResharingOk(self, plans, s.keys, s.resharings[rid]);
    StillAims(self, plans, s.keys, plans[id], id, s0.ceremonies[id], s1.resharings[rid], s.resharings[rid]);
    StepEffect(self, plans, s, rid, id, s0.ceremonies[id], e);
  }

  // ---- when a loaded key's epoch falls ----

  predicate Loaded(s: State, id: string) {
    id in s.ceremonies && s.ceremonies[id].status == Completed
  }

  /** A loaded key stays loaded and is at an earlier epoch than before. */
  predicate Falls(s: State, s': State, id: string) {
    Loaded(s, id) && id in s'.ceremonies && s'.ceremonies[id].epoch < s.ceremonies[id].epoch
  }

  /** A restore is about to register a key that is loaded at a later epoch. */
  predicate Overwrites(s: State, e: Event, id: string) {
    && e.RestoreInstalls? && e.token in s.loading && s.loading[e.token].0 == id
    && Loaded(s, id) && s.loading[e.token].1.epoch < s.ceremonies[id].epoch
  }

  lemma ReloadIs(self: Node, s: State, e: Event, id: string)
    requires Overwrites(s, e, id)
    ensures id in Apply(self, s, e).ceremonies && Apply(self, s, e).ceremonies[id] == s.loading[e.token].1
  {
  }

  lemma OnlyReloadsFall(plans: Plans, s: State, e: Event, id: string, c': Keygen)
    requires Loaded(s, id) && s.ceremonies[id].epoch <= 1 && c'.epoch < s.ceremonies[id].epoch
    requires var c := s.ceremonies[id];
             c' == c || Refreshed(plans, s, e, id, c, c') || Reloaded(s, e, id, c') || c' == c.(status := Failed)
    ensures Overwrites(s, e, id)
  {
  }

  lemma FallsExactly(self: Node, plans: Plans, s: State, e: Event, id: string)
    requires Inv(self, plans, s) && Allowed(plans, s, e)
    ensures Falls(s, Apply(self, s, e), id) <==> Overwrites(s, e, id)
  {
    if Overwrites(s, e, id) {
      ReloadIs(self, s, e, id);
    } else if Falls(s, Apply(self, s, e), id) {
      KeysMove(self, plans, s, e, id);
      assert KeygenOk(self, plans, s.keys, id, s.ceremonies[id]);
      OnlyReloadsFall(plans, s, e, id, Apply(self, s, e).ceremonies[id]);
    }
  }

  ghost predicate NeverFalls(self: Node, s: State, events: seq<Event>, id: string)
    decreases events
  {
    events != [] ==> !Falls(s, Apply(self, s, events[0]), id) && NeverFalls(self, Apply(self, s, events[0]), events[1..], id)
  }

  ghost predicate NeverOverwrites(self: Node, s: State, events: seq<Event>, id: string)
    decreases events
  {
    events != [] ==> !Overwrites(s, events[0], id) && NeverOverwrites(self, Apply(self, s, events[0]), events[1..], id)
  }

  lemma {:induction false} EpochNeverFallsExactly(self: Node, plans: Plans, s: State, events: seq<Event>, id: string)
    requires Inv(self, plans, s) && AllowedRun(plans, self, s, events)
    ensures NeverFalls(self, s, events, id) <==> NeverOverwrites(self, s, events, id)
    decreases events
  {
    if events != [] {
      FallsExactly(self, plans, s, events[0], id);
      StepKeeps(self, plans, s, events[0]);
      EpochNeverFallsExactly(self, plans, Apply(self, s, events[0]), events[1..], id);
    }
  }

  /** Over every run a key's epoch never falls while it stays loaded if and only if no restore
      registers it while it is loaded at a later epoch. */
  lemma RollsBackExactly(self: Node, plans: Plans, events: seq<Event>, id: string)
    requires AllowedRun(plans, self, Initial, events)
    ensures NeverFalls(self, Initial, events, id) <==> NeverOverwrites(self, Initial, events, id)
  {
    EpochNeverFallsExactly(self, plans, Initial, events, id);
  }

  // ---- when a completed key is marked failed ----

  /** A completed key stays loaded and is no longer completed. */
  predicate Breaks(s: State, s': State, id: string) {
    Loaded(s, id) && id in s'.ceremonies && s'.ceremonies[id].status != Completed
  }

  ghost predicate NeverBreaks(self: Node, s: State, events: seq<Event>, id: string)
    decreases events
  {
    events != [] ==> !Breaks(s, Apply(self, s, events[0]), id) && NeverBreaks(self, Apply(self, s, events[0]), events[1..], id)
  }

  ghost predicate NoFailureMeets(self: Node, s: State, events: seq<Event>, id: string)
    decreases events
  {
    events != [] ==> !FailureMeets(s, events[0], id) && NoFailureMeets(self, Apply(self, s, events[0]), events[1..], id)
  }

  lemma BreaksExactly(self: Node, plans: Plans, s: State, e: Event, id: string)
    requires Inv(self, plans, s) && Allowed(plans, s, e)
    ensures Breaks(s, Apply(self, s, e), id) <==> FailureMeets(s, e, id)
  {
    if Loaded(s, id) && id in Apply(self, s, e).ceremonies {
      KeysMove(self, plans, s, e, id);
    }
  }

  lemma {:induction false} NeverBreaksExactly(self: Node, plans: Plans, s: State, events: seq<Event>, id: string)
    requires Inv(self, plans, s) && AllowedRun(plans, self, s, events)
    ensures NeverBreaks(self, s, events, id) <==> NoFailureMeets(self, s, events, id)
    decreases events
  {
    if events != [] {
      BreaksExactly(self, plans, s, events[0], id);
      StepKeeps(self, plans, s, events[0]);
      NeverBreaksExactly(self, plans, Apply(self, s, events[0]), events[1..], id);
    }
  }

  /** Over every run a completed key stays completed while it is loaded if and only if no failure
      of its key generation's sealing meets it. */
  lemma StaysCompletedExactly(self: Node, plans: Plans, events: seq<Event>, id: string)
    requires AllowedRun(plans, self, Initial, events)
    ensures NeverBreaks(self, Initial, events, id) <==> NoFailureMeets(self, Initial, events, id)
  {
    NeverBreaksExactly(self, plans, Initial, events, id);
  }
}
