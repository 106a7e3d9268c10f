/**
 Two refreshes of one key deal two different shares of the same epoch. Exactly when the share that
 is loaded is the one that is sealed, over runs with any number of refreshes of a key under way.
 */
module PartyDeals {
  import opened Wrappers
  import opened Committees
  import opened PartyStates
  import opened PartyInvariants
  import opened PartyTheorems
  import opened PartyRuns
  import opened PartyRetirement

  /** A refresh's result is the share it dealt. */
  ghost predicate Dealt(s: State) {
    forall rid {:trigger s.resharings[rid]} | rid in s.resharings && s.resharings[rid].result.Some? ::
      s.resharings[rid].result.value.deal == rid
  }

  predicate HasResult(s: State, rid: string, id: string) {
    && rid in s.resharings && s.resharings[rid].source == id && s.resharings[rid].result.Some?
    && !s.resharings[rid].phase.Registered? && !s.resharings[rid].phase.Driven?
  }

  lemma RunsBringNone(self: Node, s: State, rid: string)
    requires rid in s.resharings
    ensures OnRefreshRuns(self, s, rid).resharings[rid].result == s.resharings[rid].result
  {
  }

  lemma StopsBringNone(s: State, rid: string)
    requires rid in s.resharings
    ensures OnRefreshStops(s, rid).resharings[rid].result == s.resharings[rid].result
  {
  }

  lemma ResultBringsOne(s: State, rid: string, share: KeyShare)
    requires rid in s.resharings
    ensures var r, r' := s.resharings[rid], OnRefreshResult(s, rid, share).resharings[rid];
            r'.result == r.result || (r.phase.Driven? && r'.result == Some(share))
  {
  }

  lemma SealsBringNone(s: State, rid: string, outcome: SealOutcome)
    requires rid in s.resharings
    ensures OnRefreshSeals(s, rid, outcome).resharings[rid].result == s.resharings[rid].result
  {
  }

  lemma InstallsBringNone(s: State, rid: string)
    requires rid in s.resharings
    ensures OnRefreshInstalls(s, rid).resharings[rid].result == s.resharings[rid].result
  {
  }

  /** A step of a refresh leaves its result as it is, or is the one that brings it. */
  lemma RefreshResults(self: Node, s: State, e: Event, rid: string)
    requires OfAnyRefresh(e) && rid in s.resharings
    ensures rid in Apply(self, s, e).resharings
    ensures var r, r' := s.resharings[rid], Apply(self, s, e).resharings[rid];
            r'.result == r.result || (e.RefreshResult? && e.rid == rid && r.phase.Driven? && r'.result == Some(e.share))
  {
    RefreshMovesOne(self, s, e, e.rid);
    OneMoved(s, Apply(self, s, e), e.rid, rid);
    if e.rid == rid {
      match e
      case RefreshRuns(_) => RunsBringNone(self, s, rid);
      case RefreshStops(_) => StopsBringNone(s, rid);
      case RefreshResult(_, share) => ResultBringsOne(s, rid, share);
      case RefreshSeals(_, outcome) => SealsBringNone(s, rid, outcome);
      case RefreshInstalls(_) => InstallsBringNone(s, rid);
    }
  }

  lemma ResultStays(self: Node, s: State, e: Event, rid: string, id: string)
    requires HasResult(s, rid, id) && !e.Crash?
    ensures HasResult(Apply(self, s, e), rid, id) && Apply(self, s, e).resharings[rid].result == s.resharings[rid].result
  {
    if OfAnyRefresh(e) {
      StepProgress(self, s, e, rid);
      RefreshResults(self, s, e, rid);
      SameResult(s.resharings[rid], Apply(self, s, e).resharings[rid]);
    } else if e.StartRefresh? {
      StartAddsOne(self, s, e.rid, e.id, e.peers);
    } else {
      OthersLeaveRefreshes(self, s, e);
    }
  }

  lemma SameResult(r: Resharing, r': Resharing)
    requires Progress(r, r') && !r.phase.Registered? && !r.phase.Driven?
    ensures r'.source == r.source && !r'.phase.Registered? && !r'.phase.Driven?
  {
  }

  lemma StepDealt(self: Node, plans: Plans, s: State, e: Event)
    requires Dealt(s) && Allowed(plans, s, e)
    ensures Dealt(Apply(self, s, e))
  {
    if OfAnyRefresh(e) {
      RefreshMovesOne(self, s, e, e.rid);
      OneMoved(s, Apply(self, s, e), e.rid, e.rid);
      forall rid | rid in Apply(self, s, e).resharings
        ensures Apply(self, s, e).resharings[rid].result.Some? ==> Apply(self, s, e).resharings[rid].result.value.deal == rid
      {
        RefreshResults(self, s, e, rid);
      }
    } else if e.StartRefresh? {
      StartHasNoResult(self, s, e.rid, e.id, e.peers);
    } else if !e.Crash? {
      OthersLeaveRefreshes(self, s, e);
    }
  }

  lemma StartHasNoResult(self: Node, s: State, rid: string, id: string, peers: map<Node, string>)
    requires Dealt(s)
    ensures Dealt(OnStartRefresh(self, s, rid, id, peers))
  {
  }

  lemma {:induction false} RunDealt(self: Node, plans: Plans, s: State, events: seq<Event>)
    requires Dealt(s) && AllowedRun(plans, self, s, events)
    ensures Dealt(Run(self, s, events))
    decreases events
  {
    if events != [] {
      StepDealt(self, plans, s, events[0]);
      RunDealt(self, plans, Apply(self, s, events[0]), events[1..]);
    }
  }

  // ---- who sealed and who installed last ----

  predicate Seals(s: State, e: Event, id: string) {
    && e.RefreshSeals? && e.outcome.Written() && e.rid in s.resharings
    && s.resharings[e.rid].phase == Accepted && s.resharings[e.rid].result.Some? && s.resharings[e.rid].source == id
  }

  predicate Installs(s: State, e: Event, id: string) {
    && e.RefreshInstalls? && e.rid in s.resharings
    && s.resharings[e.rid].phase == SealDone && s.resharings[e.rid].result.Some? && s.resharings[e.rid].source == id
  }

  /** The refreshes of a key that last sealed, and last installed, their share; None for neither. */
  datatype Last = Last(sealed: Option<string>, installed: Option<string>)

  function Next(last: Last, s: State, e: Event, id: string): Last {
    if Seals(s, e, id) then last.(sealed := Some(e.rid))
    else if Installs(s, e, id) then last.(installed := Some(e.rid))
    else last
  }

  ghost function LastOver(self: Node, last: Last, s: State, events: seq<Event>, id: string): Last
    decreases events
  {
    if events == [] then last else LastOver(self, Next(last, s, events[0], id), Apply(self, s, events[0]), events[1..], id)
  }

  /** The key is unloaded, removed, registered anew or marked failed. */
  predicate Disturbs(s: State, e: Event, id: string) {
    || e.Crash? || ((e.Forget? || e.Retire?) && e.id == id) || FailureMeets(s, e, id)
    || (e.RestoreInstalls? && Restores(s, e.token, id))
  }

  ghost predicate Undisturbed(self: Node, s: State, events: seq<Event>, id: string)
    decreases events
  {
    events != [] ==> !Disturbs(s, events[0], id) && Undisturbed(self, Apply(self, s, events[0]), events[1..], id)
  }

  /** A share is the first one, or the one a refresh dealt. */
  ghost predicate Is(s: State, share: KeyShare, first: KeyShare, dealer: Option<string>, id: string) {
    if dealer.None? then share == first else HasResult(s, dealer.value, id) && s.resharings[dealer.value].result == Some(share)
  }

  ghost predicate Tracks(s: State, id: string, first: KeyShare, last: Last) {
    && Loaded(s, id) && s.ceremonies[id].share.Some? && id in s.store
    && Is(s, s.store[id].share, first, last.sealed, id)
    && Is(s, s.ceremonies[id].share.value, first, last.installed, id)
  }

  lemma IsStill(self: Node, s: State, e: Event, share: KeyShare, first: KeyShare, dealer: Option<string>, id: string)
    requires Is(s, share, first, dealer, id) && !e.Crash?
    ensures Is(Apply(self, s, e), share, first, dealer, id)
  {
    if dealer.Some? {
      ResultStays(self, s, e, dealer.value, id);
    }
  }

  lemma StoreKept(self: Node, plans: Plans, s: State, e: Event, id: string)
    requires Inv(self, plans, s) && id in s.store && !Disturbs(s, e, id) && !Seals(s, e, id)
    ensures id in Apply(self, s, e).store && Apply(self, s, e).store[id] == s.store[id]
  {
    assert RecordOk(self, plans, s.keys, id, s.store[id]);
    NotGenerating(self, plans, s, id);
    if e.KeygenSeals? {
      SealingKeepsRecord(s, e.id, e.share, e.address, e.outcome, id);
    } else if e.RefreshSeals? {
      RefreshKeepsRecord(s, e.rid, e.outcome, id);
    } else if !e.Retire? {
      OthersKeepStore(self, s, e);
    }
  }

  lemma OthersKeepStore(self: Node, s: State, e: Event)
    requires !e.KeygenSeals? && !e.RefreshSeals? && !e.Retire?
    ensures Apply(self, s, e).store == s.store
  {
  }

  lemma RefreshKeepsRecord(s: State, rid: string, outcome: SealOutcome, id: string)
    requires id in s.store && !Seals(s, RefreshSeals(rid, outcome), id)
    ensures var s' := OnRefreshSeals(s, rid, outcome); id in s'.store && s'.store[id] == s.store[id]
  {
  }

  lemma SealingKeepsRecord(s: State, key: string, share: KeyShare, address: Option<string>, outcome: SealOutcome, id: string)
    requires id in s.store && id !in s.generating
    ensures var s' := OnKeygenSeals(s, key, share, address, outcome); id in s'.store && s'.store[id] == s.store[id]
  {
  }

  lemma StaysLoaded(self: Node, s: State, e: Event, id: string)
    requires id in s.ceremonies && !Disturbs(s, e, id)
    ensures id in Apply(self, s, e).ceremonies
  {
  }

  lemma CeremonyKept(self: Node, plans: Plans, s: State, e: Event, id: string)
    requires Inv(self, plans, s) && Allowed(plans, s, e) && Loaded(s, id) && !Disturbs(s, e, id)
    ensures Loaded(Apply(self, s, e), id)
    ensures !Installs(s, e, id) ==> Apply(self, s, e).ceremonies[id] == s.ceremonies[id]
  {
    StaysLoaded(self, s, e, id);
    KeysMove(self, plans, s, e, id);
    if e.RefreshInstalls? && !Installs(s, e, id) {
      InstallElsewhere(s, e.rid, id);
    }
  }

  lemma InstallElsewhere(s: State, rid: string, id: string)
    requires id in s.ceremonies && !Installs(s, RefreshInstalls(rid), id)
    ensures OnRefreshInstalls(s, rid).ceremonies[id] == s.ceremonies[id]
  {
  }

  lemma SealTracks(s: State, rid: string, outcome: SealOutcome, id: string)
    requires Seals(s, RefreshSeals(rid, outcome), id)
    ensures var s' := OnRefreshSeals(s, rid, outcome);
            s'.ceremonies == s.ceremonies && id in s'.store && HasResult(s', rid, id) && s'.resharings[rid].result == Some(s'.store[id].share)
  {
  }

  lemma InstallTracks(s: State, rid: string, id: string)
    requires Installs(s, RefreshInstalls(rid), id) && id in s.ceremonies
    ensures var s' := OnRefreshInstalls(s, rid);
            s'.store == s.store && id in s'.ceremonies && HasResult(s', rid, id) && s'.resharings[rid].result == s'.ceremonies[id].share
  {
  }

  lemma StoreTracks(self: Node, plans: Plans, s: State, e: Event, id: string, first: KeyShare, last: Last)
    requires Inv(self, plans, s) && Tracks(s, id, first, last) && !Disturbs(s, e, id)
    ensures var s' := Apply(self, s, e);
            id in s'.store && Is(s', s'.store[id].share, first, Next(last, s, e, id).sealed, id)
  {
    if Seals(s, e, id) {
      SealTracks(s, e.rid, e.outcome, id);
    } else {
      StoreKept(self, plans, s, e, id);
      IsStill(self, s, e, s.store[id].share, first, last.sealed, id);
    }
  }

  lemma InstalledTracks(self: Node, s: State, rid: string, id: string)
    requires Installs(s, RefreshInstalls(rid), id) && Loaded(s, id)
    ensures var s' := Apply(self, s, RefreshInstalls(rid));
            && Loaded(s', id) && s'.ceremonies[id].share.Some?
            && HasResult(s', rid, id) && s'.resharings[rid].result == s'.ceremonies[id].share
  {
    InstallTracks(s, rid, id);
  }

  lemma CeremonyTracks(self: Node, plans: Plans, s: State, e: Event, id: string, first: KeyShare, last: Last)
    requires Inv(self, plans, s) && Allowed(plans, s, e) && Tracks(s, id, first, last) && !Disturbs(s, e, id)
    ensures var s' := Apply(self, s, e);
            && Loaded(s', id) && s'.ceremonies[id].share.Some?
            && Is(s', s'.ceremonies[id].share.value, first, Next(last, s, e, id).installed, id)
  {
    if Installs(s, e, id) {
      InstalledTracks(self, s, e.rid, id);
    } else {
      CeremonyKept(self, plans, s, e, id);
      IsStill(self, s, e, s.ceremonies[id].share.value, first, last.installed, id);
    }
  }

  lemma StepTracks(self: Node, plans: Plans, s: State, e: Event, id: string, first: KeyShare, last: Last)
    requires Inv(self, plans, s) && Allowed(plans, s, e) && Tracks(s, id, first, last) && !Disturbs(s, e, id)
    ensures Tracks(Apply(self, s, e), id, first, Next(last, s, e, id))
  {
    StoreTracks(self, plans, s, e, id, first, last);
    CeremonyTracks(self, plans, s, e, id, first, last);
  }

  lemma {:induction false} RunTracks(self: Node, plans: Plans, s: State, events: seq<Event>, id: string, first: KeyShare, last: Last)
    requires Inv(self, plans, s) && AllowedRun(plans, self, s, events) && Tracks(s, id, first, last) && Undisturbed(self, s, events, id)
    ensures Inv(self, plans, Run(self, s, events)) && Tracks(Run(self, s, events), id, first, LastOver(self, last, s, events, id))
    decreases events
  {
    if events != [] {
      StepTracks(self, plans, s, events[0], id, first, last);
      StepKeeps(self, plans, s, events[0]);
      RunTracks(self, plans, Apply(self, s, events[0]), events[1..], id, first, Next(last, s, events[0], id));
    }
  }

  /** Shares of two epochs differ. */
  lemma EpochsDiffer(self: Node, plans: Plans, s: State, id: string, rid: string, first: KeyShare)
    requires Inv(self, plans, s) && HasResult(s, rid, id) && id in plans && first.committee == Committee(plans[id].ids, 0)
    ensures s.resharings[rid].result != Some(first)
  {
    var r := s.resharings[rid];
    assert ResharingOk(self, plans, s.keys, r);
    LookupsAgree(plans[id].ids, 0, self);
    EpochsAreDisjoint(plans[id].ids, 0, plans[id].ids, r.newEpoch);
  }

  lemma AgreeExactly(self: Node, plans: Plans, s: State, id: string, first: KeyShare, last: Last)
    requires Inv(self, plans, s) && Dealt(s) && Tracks(s, id, first, last)
    requires id in plans && first.committee == Committee(plans[id].ids, 0)
    ensures s.ceremonies[id].share == Some(s.store[id].share) <==> last.sealed == last.installed
  {
    if last.sealed.Some? {
      EpochsDiffer(self, plans, s, id, last.sealed.value, first);
    }
    if last.installed.Some? {
      EpochsDiffer(self, plans, s, id, last.installed.value, first);
    }
  }

  /** From a key loaded and sealed with its first share, over any run that does not unload, remove,
      re-register or fail it, with any number of refreshes of it: the loaded share is the sealed one
      if and only if the refresh that last sealed its share is the one that last installed it. */
  lemma LoadedIsSealedExactly(self: Node, plans: Plans, s: State, events: seq<Event>, id: string)
    requires Reachable(self, plans, s) && AllowedRun(plans, self, s, events) && Undisturbed(self, s, events, id)
    requires Loaded(s, id) && s.ceremonies[id].epoch == 0 && id in s.store && s.ceremonies[id].share == Some(s.store[id].share)
    ensures var s', last := Run(self, s, events), LastOver(self, Last(None, None), s, events, id);
            && Loaded(s', id) && id in s'.store
            && (s'.ceremonies[id].share == Some(s'.store[id].share) <==> last.sealed == last.installed)
  {
    ReachableInv(self, plans, s);
    var before :| AllowedRun(plans, self, Initial, before) && Run(self, Initial, before) == s;
    RunDealt(self, plans, Initial, before);
    RunDealt(self, plans, s, events);
    var first := s.store[id].share;
    assert KeygenOk(self, plans, s.keys, id, s.ceremonies[id]);
    RunTracks(self, plans, s, events, id, first, Last(None, None));
    AgreeExactly(self, plans, Run(self, s, events), id, first, LastOver(self, Last(None, None), s, events, id));
  }
}
