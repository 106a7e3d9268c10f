/**
 One party process and what it has sealed, as a state machine (services/mpc-party/tss_party.go,
 tss_signing.go, tss_resharing.go, vault_seal.go).

 Each event is one lock-protected step of the code, or one step of a goroutine between two of
 them, so a sequence of events is one interleaving of every ceremony the process runs. What
 tss-lib, the seal store and the callers decide is in the event. An event whose guard fails
 stands for the error the code returns: it changes nothing.
 */
module PartyStates {
  import opened Wrappers
  import opened Committees

  datatype Curve = Secp256k1 | Ed25519
  datatype Status = InProgress | Completed | Failed

  /** A key share. `committee` is the identities it was dealt to and `deal` the ceremony that dealt
      it: no step below reads them. A public key of "" stands for a share whose public key cannot
      be derived. */
  datatype KeyShare = KeyShare(curve: Curve, publicKey: string, defaultAddress: string, committee: seq<PartyID>, deal: string)

  datatype Keygen = Keygen(status: Status, threshold: int, sortedIDs: seq<PartyID>, peers: map<Node, string>,
                           curve: Curve, epoch: nat, share: Option<KeyShare>, publicKey: string, address: string, sealed: bool)

  /** How far a refresh has got: registered, driven, its result accepted, sealed, installed. */
  datatype Phase = Registered | Driven | Accepted | SealDone | Installed | Stopped

  datatype Resharing = Resharing(status: Status, threshold: int, curve: Curve, oldSorted: seq<PartyID>, newSorted: seq<PartyID>,
                                 newEpoch: nat, source: string, expectedPublicKey: string, expectedAddress: string,
                                 input: KeyShare, result: Option<KeyShare>, phase: Phase)

  datatype Signing = Signing(key: string, share: KeyShare, epoch: nat, committee: seq<PartyID>, index: nat)

  /** What is sealed with a share, and the sealed record; old records have no context. */
  datatype Context = Context(threshold: int, totalParties: nat, curve: Curve, epoch: nat, publicKey: string, address: string)
  datatype Record = Record(share: KeyShare, context: Option<Context>)

  /** How sealing goes; a write may be reported as failed and have been made. */
  datatype SealOutcome = Sealed | NotConfigured | SealFailed | SealLost {
    predicate Written() {
      Sealed? || SealLost?
    }
  }

  /** What a key generation produced. */
  datatype Made = Made(publicKey: string, address: string)

  datatype State = State(
    ceremonies: map<string, Keygen>,
    resharings: map<string, Resharing>,
    signings: map<string, Signing>,
    generating: map<string, Keygen>,  // key generations running, with the object each writes to
    finishing: map<string, Keygen>,   // sealed, not yet written back to that object
    failing: set<string>,             // sealing reported as failed, not yet written to the map's object
    checked: map<string, string>,     // restores that found their key not loaded and have not yet read its record
    loading: map<string, (string, Keygen)>,  // restores that have loaded and not yet registered
    store: map<string, Record>,       // what this party has sealed: survives a crash
    used: set<string>,                // history: the ids of key generations started
    keys: map<string, Made>)          // history: the public key and address each key generation produced

  datatype Event =
    | StartKeygen(id: string, threshold: int, peers: map<Node, string>, curve: Curve)
    | KeygenStops(id: string)
    | KeygenSeals(id: string, share: KeyShare, address: Option<string>, outcome: SealOutcome)
    | KeygenInstalls(id: string)
    | KeygenFails(id: string)
    | StartRefresh(rid: string, id: string, peers: map<Node, string>)
    | RefreshRuns(rid: string)
    | RefreshStops(rid: string)
    | RefreshResult(rid: string, share: KeyShare)
    | RefreshSeals(rid: string, outcome: SealOutcome)
    | RefreshInstalls(rid: string)
    | RestoreChecks(token: string, id: string)
    | RestoreLoads(token: string, id: string, peers: map<Node, string>)
    | RestoreInstalls(token: string)
    | Forget(id: string)
    | Retire(id: string)
    | StartSigning(sid: string, id: string, length: nat, list: seq<Node>)
    | Crash

  const Initial := State(map[], map[], map[], map[], map[], {}, map[], map[], map[], {}, map[])

  // ---- key generation ----

  predicate MajorityRule(parties: nat, threshold: int) {
    parties >= 2 ==> threshold + 1 >= parties / 2 + 1
  }

  ghost function OnStartKeygen(self: Node, s: State, id: string, threshold: int, peers: map<Node, string>, curve: Curve): (s': State)
    ensures s'.keys == s.keys && s'.store == s.store && s'.resharings == s.resharings && s'.signings == s.signings
  {
    if self !in peers || !MajorityRule(|peers|, threshold) then s else
    var c := Keygen(InProgress, threshold, Committee(peers.Keys, 0), peers, curve, 0, None, "", "", false);
    s.(ceremonies := s.ceremonies[id := c], generating := s.generating[id := c], used := s.used + {id})
  }

  function Fail(s: State, id: string): State {
    if id in s.ceremonies then s.(ceremonies := s.ceremonies[id := s.ceremonies[id].(status := Failed)]) else s
  }

  function OnKeygenStops(s: State, id: string): (s': State)
    ensures s'.keys == s.keys && s'.store == s.store && s'.resharings == s.resharings && s'.signings == s.signings
  {
    if id !in s.generating then s else Fail(s.(generating := s.generating - {id}), id)
  }

  function KeygenContext(c: Keygen): Context {
    Context(c.threshold, |c.sortedIDs|, c.curve, c.epoch, c.publicKey, c.address)
  }

  /** The ceremony a key generation completes, and what it seals of it. */
  function Finished(c: Keygen, share: KeyShare, address: string, outcome: SealOutcome): Keygen {
    c.(status := Completed, share := Some(share), publicKey := share.publicKey, address := address, sealed := outcome.Sealed?)
  }

  function WithSeal(store: map<string, Record>, id: string, share: KeyShare, done: Keygen, outcome: SealOutcome): map<string, Record> {
    if outcome.Written() then store[id := Record(share, Some(KeygenContext(done)))] else store
  }

  function OnKeygenSeals(s: State, id: string, share: KeyShare, address: Option<string>, outcome: SealOutcome): (s': State)
    ensures s'.resharings == s.resharings && s'.signings == s.signings
    ensures forall k | k in s.keys && k != id :: k in s'.keys && s'.keys[k] == s.keys[k]
    ensures id !in s.generating ==> s' == s
  {
    if id !in s.generating then s else
    if share.publicKey == "" || address.None? || outcome.SealFailed? then OnKeygenStops(s, id) else
    var c := Finished(s.generating[id], share, address.value, outcome);
    s.(generating := s.generating - {id}, keys := s.keys[id := Made(share.publicKey, address.value)],
       store := WithSeal(s.store, id, share, c, outcome),
       failing := if outcome.SealLost? then s.failing + {id} else s.failing,
       finishing := if outcome.SealLost? then s.finishing else s.finishing[id := c])
  }

  /** Whatever ceremony is in the map by now is marked failed. */
  function OnKeygenFails(s: State, id: string): (s': State)
    ensures s' == s.(failing := s'.failing, ceremonies := s'.ceremonies)
  {
    if id !in s.failing then s else Fail(s.(failing := s.failing - {id}), id)
  }

  /** Written to the object the key generation registered: one forgotten meanwhile is not in the map. */
  function OnKeygenInstalls(s: State, id: string): (s': State)
    ensures s'.keys == s.keys && s'.store == s.store && s'.resharings == s.resharings && s'.signings == s.signings
  {
    if id !in s.finishing then s else
    var t := s.(finishing := s.finishing - {id});
    if id in s.ceremonies && s.ceremonies[id].status == InProgress
    then t.(ceremonies := s.ceremonies[id := s.finishing[id]]) else t
  }

  // ---- refresh ----

  ghost function OnStartRefresh(self: Node, s: State, rid: string, id: string, peers: map<Node, string>): (s': State)
    ensures s' == s.(resharings := s'.resharings)
  {
    if rid in s.resharings || id !in s.ceremonies then s else
    var c := s.ceremonies[id];
    if c.status != Completed || c.share.None? || |peers| == 0 then s else
    var oldSorted, newSorted := Committee(peers.Keys, c.epoch), Committee(peers.Keys, c.epoch + 1);
    if FindByKey(oldSorted, CommitteeKey(self, c.epoch)).None? then s else
    s.(resharings := s.resharings[rid := Resharing(InProgress, c.threshold, c.curve, oldSorted, newSorted, c.epoch + 1, id,
                                                   c.publicKey, c.address, c.share.value, None, Registered)])
  }

  function StopRefresh(s: State, rid: string): State
    requires rid in s.resharings
  {
    s.(resharings := s.resharings[rid := s.resharings[rid].(status := Failed, phase := Stopped)])
  }

  /** The old identity is looked up by bare party number, the new one by key and epoch. */
  function OnRefreshRuns(self: Node, s: State, rid: string): (s': State)
    ensures s' == s.(resharings := s'.resharings)
  {
    if rid !in s.resharings || s.resharings[rid].phase != Registered then s else
    var r := s.resharings[rid];
    if || FindByNumber(r.oldSorted, self).None?
       || FindByKey(r.newSorted, CommitteeKey(self, r.newEpoch)).None?
       || r.input.curve != r.curve
    then StopRefresh(s, rid)
    else s.(resharings := s.resharings[rid := r.(phase := Driven)])
  }

  function OnRefreshStops(s: State, rid: string): (s': State)
    ensures s' == s.(resharings := s'.resharings)
  {
    if rid !in s.resharings || s.resharings[rid].phase != Driven then s else StopRefresh(s, rid)
  }

  function OnRefreshResult(s: State, rid: string, share: KeyShare): (s': State)
    ensures s' == s.(resharings := s'.resharings)
  {
    if rid !in s.resharings || s.resharings[rid].phase != Driven then s else
    var r := s.resharings[rid];
    if share.publicKey == "" || share.publicKey != r.expectedPublicKey then StopRefresh(s, rid)
    else s.(resharings := s.resharings[rid := r.(status := Completed, result := Some(share), phase := Accepted)])
  }

  function RefreshContext(r: Resharing): Context
    requires r.result.Some?
  {
    var share := r.result.value;
    Context(r.threshold, |r.newSorted|, r.curve, r.newEpoch, share.publicKey,
            if r.expectedAddress != "" then r.expectedAddress else share.defaultAddress)
  }

  /** A refresh that cannot be sealed goes on: the failure is logged. */
  function OnRefreshSeals(s: State, rid: string, outcome: SealOutcome): (s': State)
    ensures s' == s.(resharings := s'.resharings, store := s'.store)
  {
    if rid !in s.resharings || s.resharings[rid].phase != Accepted || s.resharings[rid].result.None? then s else
    var r := s.resharings[rid];
    s.(resharings := s.resharings[rid := r.(phase := SealDone)],
       store := if outcome.Written() then s.store[r.source := Record(r.result.value, Some(RefreshContext(r)))] else s.store)
  }

  function WithInstalled(ceremonies: map<string, Keygen>, r: Resharing): map<string, Keygen> {
    if r.source !in ceremonies then ceremonies
    else ceremonies[r.source := ceremonies[r.source].(share := r.result, sortedIDs := r.newSorted, epoch := r.newEpoch)]
  }

  function OnRefreshInstalls(s: State, rid: string): (s': State)
    ensures s' == s.(resharings := s'.resharings, ceremonies := s'.ceremonies)
  {
    if rid !in s.resharings || s.resharings[rid].phase != SealDone || s.resharings[rid].result.None? then s else
    var r := s.resharings[rid];
    s.(resharings := s.resharings[rid := r.(phase := Installed)], ceremonies := WithInstalled(s.ceremonies, r))
  }

  // ---- restore and retirement ----

  /** Equal but for the case of letters: public keys are written in hexadecimal. */
  predicate EqualFold(a: string, b: string) {
    |a| == |b| && forall i | 0 <= i < |a| :: Folded(a[i]) == Folded(b[i])
  }

  function Folded(c: char): char {
    if 'A' <= c <= 'Z' then c - 'A' + 'a' else c
  }

  /** The ceremony a sealed record is rebuilt into, at the endpoints the caller supplies. */
  ghost function Restored(self: Node, rec: Record, peers: map<Node, string>): Option<Keygen> {
    if rec.context.None? then None else
    var cc, share := rec.context.value, rec.share;
    var sorted := Committee(peers.Keys, cc.epoch);
    if |peers| != cc.totalParties || FindByNode(sorted, self).None? || share.publicKey == "" then None else
    if cc.publicKey != "" && !EqualFold(share.publicKey, cc.publicKey) then None else
    if cc.publicKey == "" && cc.address != "" && share.defaultAddress != cc.address then None else
    var address := if cc.publicKey != "" && cc.address != "" then cc.address else share.defaultAddress;
    Some(Keygen(Completed, cc.threshold, sorted, peers, cc.curve, cc.epoch, Some(share), share.publicKey, address, true))
  }

  function OnRestoreChecks(s: State, token: string, id: string): (s': State)
    ensures s' == s.(checked := s'.checked)
  {
    if id in s.ceremonies then s else s.(checked := s.checked[token := id])
  }

  /** By now the key may be loaded again. */
  ghost function OnRestoreLoads(self: Node, s: State, token: string, id: string, peers: map<Node, string>): (s': State)
    ensures s' == s.(loading := s'.loading, checked := s'.checked)
  {
    if token !in s.checked || s.checked[token] != id then s else
    var t := s.(checked := s.checked - {token});
    if id !in s.store then t else
    var c := Restored(self, s.store[id], peers);
    if c.None? then t else t.(loading := s.loading[token := (id, c.value)])
  }

  function OnRestoreInstalls(s: State, token: string): (s': State)
    ensures s' == s.(loading := s'.loading, ceremonies := s'.ceremonies)
  {
    if token !in s.loading then s else
    var (id, c) := s.loading[token];
    s.(loading := s.loading - {token}, ceremonies := s.ceremonies[id := c])
  }

  // ---- signing ----

  /** The members of a committee whose nodes were asked for, in the committee's order. */
  function Selected(full: seq<PartyID>, wanted: set<Node>): seq<PartyID> {
    if full == [] then []
    else
      var front, last := full[..|full| - 1], full[|full| - 1];
      Selected(front, wanted) + if NodeOf(last) in wanted then [last] else []
  }

  function SetOf(list: seq<Node>): set<Node> {
    set n | n in list
  }

  function SigningSession(self: Node, s: State, id: string, length: nat, list: seq<Node>): Option<Signing> {
    if length == 0 || id !in s.ceremonies then None else
    var c := s.ceremonies[id];
    if c.status != Completed || c.share.None? then None else
    if c.share.value.curve.Secp256k1? && length != 32 then None else
    if |list| != c.threshold + 1 || self !in list then None else
    var committee := Selected(c.sortedIDs, SetOf(list));
    var me := FindByKey(committee, CommitteeKey(self, c.epoch));
    if |committee| != |list| || me.None? then None
    else Some(Signing(id, c.share.value, c.epoch, committee, me.value))
  }

  function OnStartSigning(self: Node, s: State, sid: string, id: string, length: nat, list: seq<Node>): (s': State)
    ensures s' == s.(signings := s'.signings)
  {
    var session := SigningSession(self, s, id, length, list);
    if session.None? then s else s.(signings := s.signings[sid := session.value])
  }

  // ---- one step, and a run ----

  ghost function Apply(self: Node, s: State, e: Event): State {
    match e
    case StartKeygen(id, threshold, peers, curve) => OnStartKeygen(self, s, id, threshold, peers, curve)
    case KeygenStops(id) => OnKeygenStops(s, id)
    case KeygenSeals(id, share, address, outcome) => OnKeygenSeals(s, id, share, address, outcome)
    case KeygenInstalls(id) => OnKeygenInstalls(s, id)
    case KeygenFails(id) => OnKeygenFails(s, id)
    case StartRefresh(rid, id, peers) => OnStartRefresh(self, s, rid, id, peers)
    case RefreshRuns(rid) => OnRefreshRuns(self, s, rid)
    case RefreshStops(rid) => OnRefreshStops(s, rid)
    case RefreshResult(rid, share) => OnRefreshResult(s, rid, share)
    case RefreshSeals(rid, outcome) => OnRefreshSeals(s, rid, outcome)
    case RefreshInstalls(rid) => OnRefreshInstalls(s, rid)
    case RestoreChecks(token, id) => OnRestoreChecks(s, token, id)
    case RestoreLoads(token, id, peers) => OnRestoreLoads(self, s, token, id, peers)
    case RestoreInstalls(token) => OnRestoreInstalls(s, token)
    case Forget(id) => s.(ceremonies := s.ceremonies - {id})
    case Retire(id) => s.(store := s.store - {id})
    case StartSigning(sid, id, length, list) => OnStartSigning(self, s, sid, id, length, list)
    case Crash => Initial.(store := s.store, used := s.used, keys := s.keys)
  }

  ghost function Run(self: Node, s: State, events: seq<Event>): State
    decreases events
  {
    if events == [] then s else Run(self, Apply(self, s, events[0]), events[1..])
  }
}
