/**
 Where a refresh message goes (services/mpc-party/tss_resharing.go). Each node runs two local
 parties at once, one in the old committee and one in the new; a message must reach the one
 that holds the identity it is addressed to, and be taken as coming from the identity that
 sent it.
 */
module ReshareRouting {
  import opened Wrappers
  import opened Committees

  /** A tss-lib message: who it is from, who it is to, and which committees it is flagged for. */
  datatype Message = Message(from: PartyID, to: seq<PartyID>, isToOldCommittee: bool, isToOldAndNew: bool, wire: string)

  datatype Envelope = Envelope(fromParty: Node, toOldCommittee: bool, fromOldCommittee: bool, wire: string)
  datatype Delivery = Delivery(node: Node, envelope: Envelope)
  datatype Error = NoDestination | Unrecognised | NoEndpoint | PostFailed

  /** A refresh as one node holds it: the parties are published once both have been started. */
  datatype Refresh = Refresh(self: Node, peers: map<Node, string>, newEpoch: nat, published: bool) {
    ghost predicate Valid() {
      newEpoch >= 1 && self in peers && AreNodes(peers.Keys)
    }
    ghost function OldSorted(): seq<PartyID>
      requires newEpoch >= 1
    {
      Committee(peers.Keys, newEpoch - 1)
    }
    ghost function NewSorted(): seq<PartyID> {
      Committee(peers.Keys, newEpoch)
    }
    predicate IsNew(p: PartyID) {
      EpochOf(p) == newEpoch
    }
    /** The identity one of a node's two local parties holds. */
    function Holds(node: Node, toOld: bool): PartyID
      requires newEpoch >= 1
    {
      CommitteeKey(node, if toOld then newEpoch - 1 else newEpoch)
    }
  }

  /** Whether the flags let a message through to a destination of one committee. */
  predicate Agrees(r: Refresh, msg: Message, p: PartyID) {
    if r.IsNew(p) then !msg.isToOldCommittee || msg.isToOldAndNew
    else msg.isToOldCommittee || msg.isToOldAndNew
  }

  function DeliveryTo(r: Refresh, msg: Message, p: PartyID): Delivery {
    Delivery(NodeOf(p), Envelope(r.self, !r.IsNew(p), !r.IsNew(msg.from), msg.wire))
  }

  function Routed(r: Refresh, msg: Message, to: seq<PartyID>): seq<Delivery> {
    if to == [] then []
    else
      var front, last := to[..|to| - 1], to[|to| - 1];
      Routed(r, msg, front) + if Agrees(r, msg, last) then [DeliveryTo(r, msg, last)] else []
  }

  /** What goes wrong with one destination, if anything. */
  function ErrorOf(r: Refresh, msg: Message, p: PartyID, unreachable: set<Node>): Option<Error> {
    if NodeOf(p).number < 0 then Some(Unrecognised)
    else if !Agrees(r, msg, p) || NodeOf(p) == r.self then None
    else if NodeOf(p) !in r.peers then Some(NoEndpoint)
    else if NodeOf(p) in unreachable then Some(PostFailed)
    else None
  }

  /** Sends a message to each of its destinations until one cannot be sent to; posting to an
      unreachable node fails. */
  method RelayReshareMessage(r: Refresh, msg: Message, unreachable: set<Node>)
    returns (sent: seq<Delivery>, error: Option<Error>)
    ensures error.None? <==> msg.to != [] && forall i | 0 <= i < |msg.to| :: ErrorOf(r, msg, msg.to[i], unreachable).None?
    ensures error.None? ==> sent == Routed(r, msg, msg.to)
    ensures msg.to == [] ==> sent == [] && error == Some(NoDestination)
    ensures error.Some? && msg.to != [] ==> exists n | 0 <= n < |msg.to| ::
      && sent == Routed(r, msg, msg.to[..n]) && error == ErrorOf(r, msg, msg.to[n], unreachable)
      && forall i | 0 <= i < n :: ErrorOf(r, msg, msg.to[i], unreachable).None?
  {
    sent, error := [], None;
    if msg.to == [] {
      return sent, Some(NoDestination);
    }
    var toOld := msg.isToOldCommittee || msg.isToOldAndNew;
    var toNew := !msg.isToOldCommittee || msg.isToOldAndNew;
    for i := 0 to |msg.to|
      invariant sent == Routed(r, msg, msg.to[..i])
      invariant forall k | 0 <= k < i :: ErrorOf(r, msg, msg.to[k], unreachable).None?
    {
      var to := msg.to[i];
      assert msg.to[..i + 1][..i] == msg.to[..i];
      var node, isNew := NodeOf(to), r.IsNew(to);
      if node.number < 0 {
        return sent, Some(Unrecognised);
      }
      if (isNew && toNew) || (!isNew && toOld) {
        if node != r.self {
          if node !in r.peers {
            return sent, Some(NoEndpoint);
          }
          if node in unreachable {
            return sent, Some(PostFailed);
          }
        }
        sent := sent + [DeliveryTo(r, msg, to)];
      }
    }
    assert msg.to[..|msg.to|] == msg.to;
  }

  // ---- the receiver ----

  /** What the receiver does with an envelope: `None` stands for a refresh it has not heard of. */
  datatype Answer = NotReady | UnknownSender | Fed(party: PartyID, from: PartyID, wire: string)

  ghost function Handle(here: Option<Refresh>, env: Envelope): Answer
    requires here.Some? ==> here.value.newEpoch >= 1
  {
    if here.None? || !here.value.published then NotReady else
    var r := here.value;
    var committee := if env.fromOldCommittee then r.OldSorted() else r.NewSorted();
    var from := FindByKey(committee, r.Holds(env.fromParty, env.fromOldCommittee));
    if from.None? then UnknownSender else Fed(r.Holds(r.self, env.toOldCommittee), committee[from.value], env.wire)
  }

  /** The identities a list of deliveries reaches. */
  ghost function Reached(r: Refresh, sent: seq<Delivery>): seq<PartyID>
    requires r.newEpoch >= 1
  {
    seq(|sent|, i requires 0 <= i < |sent| => r.Holds(sent[i].node, sent[i].envelope.toOldCommittee))
  }

  /** An identity of one of the two committees. */
  ghost predicate Member(r: Refresh, p: PartyID)
    requires r.newEpoch >= 1
  {
    p in r.OldSorted() || p in r.NewSorted()
  }

  /** What the flags say: a message is for both committees, or for the old one or the new one. */
  ghost predicate IsMeantFor(r: Refresh, msg: Message, p: PartyID)
    requires r.newEpoch >= 1
  {
    msg.isToOldAndNew || (if msg.isToOldCommittee then p in r.OldSorted() else p in r.NewSorted())
  }

  ghost function Filtered(r: Refresh, msg: Message, to: seq<PartyID>): seq<PartyID>
    requires r.newEpoch >= 1
  {
    if to == [] then []
    else
      var front, last := to[..|to| - 1], to[|to| - 1];
      Filtered(r, msg, front) + if IsMeantFor(r, msg, last) then [last] else []
  }

  lemma MemberOfCommittee(ids: set<Node>, epoch: nat, p: PartyID)
    requires AreNodes(ids) && p in Committee(ids, epoch)
    ensures NodeOf(p) in ids && EpochOf(p) == epoch && p == CommitteeKey(NodeOf(p), epoch)
  {
    MembersAreKeys(ids, epoch);
  }

  lemma MemberHolds(r: Refresh, p: PartyID)
    requires r.Valid() && Member(r, p)
    ensures NodeOf(p) in r.peers && p == r.Holds(NodeOf(p), !r.IsNew(p))
    ensures p in (if r.IsNew(p) then r.NewSorted() else r.OldSorted())
  {
    if p in r.OldSorted() {
      MemberOfCommittee(r.peers.Keys, r.newEpoch - 1, p);
    } else {
      MemberOfCommittee(r.peers.Keys, r.newEpoch, p);
    }
  }

  /** A message is sent to a member if it is flagged for both committees or for the member's own. */
  lemma AgreesExactly(r: Refresh, msg: Message, p: PartyID)
    requires r.Valid() && Member(r, p)
    ensures Agrees(r, msg, p) <==>
            msg.isToOldAndNew || (if msg.isToOldCommittee then p in r.OldSorted() else p in r.NewSorted())
  {
    MemberHolds(r, p);
    EpochsAreDisjoint(r.peers.Keys, r.newEpoch - 1, r.peers.Keys, r.newEpoch);
  }

  /** So one that is to a single member reaches it, in the role that holds the identity, or nobody. */
  lemma ReachesOneExactly(r: Refresh, msg: Message, p: PartyID)
    requires r.Valid() && Member(r, p)
    ensures Reached(r, Routed(r, msg, [p])) ==
            if msg.isToOldAndNew || (if msg.isToOldCommittee then p in r.OldSorted() else p in r.NewSorted()) then [p] else []
  {
    assert Routed(r, msg, [p][..0]) == [];
    AgreesExactly(r, msg, p);
    MemberHolds(r, p);
  }

  /** A member is in the way of a message only if the message is for it, it is on another node, and
      that node cannot be reached. */
  lemma MemberErrorExactly(r: Refresh, msg: Message, p: PartyID, unreachable: set<Node>)
    requires r.Valid() && Member(r, p)
    ensures var meant := msg.isToOldAndNew || (if msg.isToOldCommittee then p in r.OldSorted() else p in r.NewSorted());
            ErrorOf(r, msg, p, unreachable) ==
            if meant && NodeOf(p) != r.self && NodeOf(p) in unreachable then Some(PostFailed) else None
  {
    AgreesExactly(r, msg, p);
    MemberHolds(r, p);
  }

  /** An identity that names no party is an error whatever the flags say, and nothing else is that error. */
  lemma UnrecognisedExactly(r: Refresh, msg: Message, p: PartyID, unreachable: set<Node>)
    ensures ErrorOf(r, msg, p, unreachable) == Some(Unrecognised) <==> p.key <= 0
    ensures ErrorOf(r, msg, p, unreachable) == Some(NoEndpoint) ==> NodeOf(p) != r.self && NodeOf(p) !in r.peers
  {
  }

  /** Each delivery reaches the identity it was addressed to; the destinations that miss out
      are exactly those the flags exclude. */
  lemma {:induction false} ReachesTheAddressees(r: Refresh, msg: Message, to: seq<PartyID>)
    requires r.Valid() && forall i | 0 <= i < |to| :: Member(r, to[i])
    ensures Reached(r, Routed(r, msg, to)) == Filtered(r, msg, to)
  {
    if to != [] {
      var front, last := to[..|to| - 1], to[|to| - 1];
      ReachesTheAddressees(r, msg, front);
      MemberHolds(r, last);
      AgreesExactly(r, msg, last);
    }
  }

  lemma {:induction false} FilteredLength(r: Refresh, msg: Message, to: seq<PartyID>)
    requires r.newEpoch >= 1
    ensures |Filtered(r, msg, to)| <= |to|
    ensures Filtered(r, msg, to) == to <==> forall i | 0 <= i < |to| :: IsMeantFor(r, msg, to[i])
  {
    if to != [] {
      var front, last := to[..|to| - 1], to[|to| - 1];
      FilteredLength(r, msg, front);
      assert to == front + [last];
      if !IsMeantFor(r, msg, last) {
        assert |Filtered(r, msg, to)| < |to|;
      }
    }
  }

  /** Every destination gets the message once, in the role that holds it and in order, exactly
      when the message is flagged for both committees or for the one all its destinations are of. */
  lemma AllReachedExactly(r: Refresh, msg: Message)
    requires r.Valid() && forall i | 0 <= i < |msg.to| :: Member(r, msg.to[i])
    ensures Reached(r, Routed(r, msg, msg.to)) == msg.to <==>
            || msg.isToOldAndNew
            || (msg.isToOldCommittee && forall i | 0 <= i < |msg.to| :: msg.to[i] in r.OldSorted())
            || (!msg.isToOldCommittee && forall i | 0 <= i < |msg.to| :: msg.to[i] in r.NewSorted())
  {
    ReachesTheAddressees(r, msg, msg.to);
    FilteredLength(r, msg, msg.to);
  }

  /** A delivery, at the node it names: its bytes are fed to the identity addressed, as from the
      identity that sent them, unless the node has not published its parties. */
  lemma HandledAsAddressed(r: Refresh, there: Refresh, msg: Message, p: PartyID)
    requires r.Valid() && there.Valid() && there.peers.Keys == r.peers.Keys && there.newEpoch == r.newEpoch
    requires Member(r, p) && there.self == NodeOf(p) && Member(r, msg.from) && NodeOf(msg.from) == r.self
    ensures var d := DeliveryTo(r, msg, p);
            d.node == there.self && Handle(Some(there), d.envelope) == if there.published then Fed(p, msg.from, msg.wire) else NotReady
  {
    MemberHolds(r, p);
    MemberHolds(r, msg.from);
  }

  /** An envelope is answered not ready if and only if the node has not published its parties, and is
      refused if and only if they are published and its sender is none of the key's; otherwise it is
      fed, to the party of the role it names and as from the sender's identity in the role it names. */
  lemma HandledExactly(here: Option<Refresh>, env: Envelope)
    requires here.Some? ==> here.value.Valid()
    requires IsNode(env.fromParty)
    ensures Handle(here, env).NotReady? <==> here.None? || !here.value.published
    ensures Handle(here, env).UnknownSender? <==> here.Some? && here.value.published && env.fromParty !in here.value.peers
    ensures Handle(here, env).Fed? ==>
            var r := here.value;
            Handle(here, env) == Fed(CommitteeKey(r.self, if env.toOldCommittee then r.newEpoch - 1 else r.newEpoch),
                                     CommitteeKey(env.fromParty, if env.fromOldCommittee then r.newEpoch - 1 else r.newEpoch), env.wire)
  {
    if here.Some? {
      LookupsAgree(here.value.peers.Keys, here.value.newEpoch - 1, env.fromParty);
      LookupsAgree(here.value.peers.Keys, here.value.newEpoch, env.fromParty);
    }
  }

  // ---- start-up at one node ----

  /** What a refresh goes through at one node before its driver relays anything. */
  datatype StartUp = StartUp(registered: bool, newStarted: bool, oldStarted: bool, published: bool, driving: bool, failed: bool)

  datatype Step = Register | StartNew | StartOld | StartFails | Publish | Drive | DriveFails

  const Unknown := StartUp(false, false, false, false, false, false)

  /** The two parties are started in either order; a step the code has not got to changes nothing. */
  function Next(s: StartUp, step: Step): StartUp {
    if s.failed then s else
    match step
    case Register => s.(registered := true)
    case StartNew => if s.registered then s.(newStarted := true) else s
    case StartOld => if s.registered then s.(oldStarted := true) else s
    case StartFails => if s.registered && !s.published then s.(failed := true) else s
    case Publish => if s.newStarted && s.oldStarted then s.(published := true) else s
    case Drive => if s.published then s.(driving := true) else s
    case DriveFails => if s.driving then s.(failed := true) else s
  }

  function After(s: StartUp, steps: seq<Step>): StartUp
    decreases steps
  {
    if steps == [] then s else After(Next(s, steps[0]), steps[1..])
  }

  ghost predicate InOrder(s: StartUp) {
    && (s.published ==> s.newStarted && s.oldStarted)
    && (s.driving ==> s.published)
  }

  lemma {:induction false} StaysInOrder(s: StartUp, steps: seq<Step>)
    requires InOrder(s)
    ensures InOrder(After(s, steps))
    ensures s.driving ==> After(s, steps).driving
    decreases steps
  {
    if steps != [] {
      StaysInOrder(Next(s, steps[0]), steps[1..]);
    }
  }

  /** A refresh feeds a message to its parties only once both have been started. */
  lemma FedOnlyOnceStarted(steps: seq<Step>, r: Refresh, env: Envelope)
    requires r.newEpoch >= 1 && r.published == After(Unknown, steps).published
    ensures Handle(Some(r), env).Fed? ==> After(Unknown, steps).newStarted && After(Unknown, steps).oldStarted
  {
    StaysInOrder(Unknown, steps);
  }

  /** Only the driver relays. A message to the node itself is handed over in a goroutine of its
      own, so however much happens before that goroutine runs, it finds the parties published. */
  lemma SelfDeliveryIsNeverNotReady(before: seq<Step>, later: seq<Step>, r: Refresh, msg: Message, p: PartyID)
    requires After(Unknown, before).driving
    requires r.Valid() && r.published == After(After(Unknown, before), later).published
    requires Member(r, p) && NodeOf(p) == r.self && Member(r, msg.from) && NodeOf(msg.from) == r.self
    ensures Handle(Some(r), DeliveryTo(r, msg, p).envelope) == Fed(p, msg.from, msg.wire)
  {
    StaysInOrder(Unknown, before);
    StaysInOrder(After(Unknown, before), later);
    HandledAsAddressed(r, r, msg, p);
  }
}
