/**
 The relay of protocol messages between the parties of a key generation or a signing session
 (services/mpc-party/tss_party.go, tss_signing.go, tss_flush.go, tss_handlers.go), as a state
 machine over all parties. A tss-lib party is anything that puts messages on its out channel
 and at some point a result on its end channel.
 */
module Relays {
  import opened Wrappers
  import opened Committees

  datatype Message = Message(isBroadcast: bool, to: seq<PartyID>)

  /** The parties of one ceremony, and the refresh epoch their identities are of. */
  datatype Group = Group(ids: set<Node>, epoch: nat) {
    ghost predicate Valid() {
      AreNodes(ids)
    }
    ghost function Identities(): seq<PartyID> {
      Committee(ids, epoch)
    }
  }

  // ---- where a message goes ----

  /** The parties named by a list of identities; an identity of no member names nobody. */
  function Resolved(committee: seq<PartyID>, to: seq<PartyID>): seq<Node> {
    if to == [] then []
    else
      var front, last := to[..|to| - 1], to[|to| - 1];
      Resolved(committee, front) + if last in committee then [NodeOf(last)] else []
  }

  /** The target lists a message may be sent to: a broadcast goes round the peers in any order. */
  ghost predicate Routes(g: Group, self: Node, msg: Message, targets: seq<Node>) {
    if msg.isBroadcast then Distinct(targets) && forall n :: n in targets <==> n in g.ids && n != self
    else targets == Resolved(g.Identities(), msg.to)
  }

  /** Who should get a message. */
  ghost predicate IsFor(g: Group, self: Node, msg: Message, n: Node) {
    n in g.ids && if msg.isBroadcast then n != self else CommitteeKey(n, g.epoch) in msg.to
  }

  lemma {:induction false} ResolvedNames(g: Group, to: seq<PartyID>)
    requires g.Valid()
    ensures var r := Resolved(g.Identities(), to);
            && (forall n :: n in r <==> n in g.ids && CommitteeKey(n, g.epoch) in to)
            && (Distinct(to) ==> Distinct(r))
  {
    if to != [] {
      var front, last := to[..|to| - 1], to[|to| - 1];
      ResolvedNames(g, front);
      assert to == front + [last];
      if last in g.Identities() {
        MemberIs(g, last);
      } else if exists n :: n in g.ids && CommitteeKey(n, g.epoch) == last {
        MembersAreKeys(g.ids, g.epoch);
      }
    }
  }

  lemma MemberIs(g: Group, p: PartyID)
    requires g.Valid() && p in g.Identities()
    ensures NodeOf(p) in g.ids && p == CommitteeKey(NodeOf(p), g.epoch)
    ensures forall n | n in g.ids :: CommitteeKey(n, g.epoch) == p <==> n == NodeOf(p)
  {
    MembersAreKeys(g.ids, g.epoch);
  }

  /** A destination that is no member is skipped without an error, so the list is as long as
      the message's own exactly when every destination is a member. */
  lemma {:induction false} NothingSkippedExactly(committee: seq<PartyID>, to: seq<PartyID>)
    ensures |Resolved(committee, to)| <= |to|
    ensures |Resolved(committee, to)| == |to| <==> forall i | 0 <= i < |to| :: to[i] in committee
  {
    if to != [] {
      NothingSkippedExactly(committee, to[..|to| - 1]);
    }
  }

  /** And the parties come in the order the message names them. */
  lemma {:induction false} ResolvedInOrder(committee: seq<PartyID>, to: seq<PartyID>)
    requires forall i | 0 <= i < |to| :: to[i] in committee
    ensures |Resolved(committee, to)| == |to| && forall i | 0 <= i < |to| :: Resolved(committee, to)[i] == NodeOf(to[i])
  {
    if to != [] {
      ResolvedInOrder(committee, to[..|to| - 1]);
    }
  }

  /** Whatever the order, a target list names exactly those the message is for; and each of
      them once, unless a destination is named twice. */
  lemma RoutesReachExactly(g: Group, self: Node, msg: Message, targets: seq<Node>)
    requires g.Valid() && Routes(g, self, msg, targets)
    ensures forall n :: n in targets <==> IsFor(g, self, msg, n)
    ensures msg.isBroadcast || Distinct(msg.to) ==> Distinct(targets)
  {
    if !msg.isBroadcast {
      ResolvedNames(g, msg.to);
    }
  }

  // ---- the loops ----

  /** Each member identity by the party it is of. */
  method PeerIndexByKey(sorted: seq<PartyID>, ghost g: Group) returns (index: map<Node, PartyID>)
    requires g.Valid() && sorted == g.Identities()
    ensures index.Keys == g.ids && forall n | n in index :: index[n] == CommitteeKey(n, g.epoch)
  {
    index := map[];
    MembersAreKeys(g.ids, g.epoch);
    for i := 0 to |sorted|
      invariant forall n | n in index :: n in g.ids && index[n] == CommitteeKey(n, g.epoch)
      invariant forall k | 0 <= k < i :: NodeOf(sorted[k]) in index
    {
      assert sorted[i] in sorted;
      index := index[NodeOf(sorted[i]) := sorted[i]];
    }
    forall n | n in g.ids ensures n in index {
      KeyNamesNodeAndEpoch(n, g.epoch);
      assert CommitteeKey(n, g.epoch) in sorted;
    }
    assert index.Keys == g.ids;
  }

  /** The parties whose identity is `to`: at most one, found by going round all of them. */
  method Match(index: map<Node, PartyID>, to: PartyID, ghost g: Group) returns (found: seq<Node>)
    requires g.Valid() && index.Keys == g.ids && forall n | n in index :: index[n] == CommitteeKey(n, g.epoch)
    ensures found == if to in g.Identities() then [NodeOf(to)] else []
  {
    MembersAreKeys(g.ids, g.epoch);
    found := [];
    var rest := index.Keys;
    while rest != {}
      invariant rest <= index.Keys
      invariant found == if to in g.Identities() && NodeOf(to) !in rest then [NodeOf(to)] else []
      decreases |rest|
    {
      var id :| id in rest;
      rest := rest - {id};
      MatchStep(g, id, to);
      if index[id] == to {
        found := found + [id];
      }
    }
  }

  lemma MatchStep(g: Group, id: Node, to: PartyID)
    requires g.Valid() && id in g.ids
    ensures CommitteeKey(id, g.epoch) == to <==> to in g.Identities() && NodeOf(to) == id
  {
    MembersAreKeys(g.ids, g.epoch);
    KeyNamesNodeAndEpoch(id, g.epoch);
  }

  /** All peers but this one, in whatever order the map gives them. */
  method Everyone(self: Node, peers: map<Node, string>) returns (targets: seq<Node>)
    ensures Distinct(targets) && forall n :: n in targets <==> n in peers && n != self
  {
    targets := [];
    var rest := peers.Keys;
    while rest != {}
      invariant rest <= peers.Keys
      invariant Distinct(targets) && forall n :: n in targets <==> n in peers && n !in rest && n != self
      decreases |rest|
    {
      var id :| id in rest;
      rest := rest - {id};
      if id != self {
        targets := targets + [id];
      }
    }
  }

  /** Sends a message to each of its targets in turn, giving up at the first that cannot be
      delivered to. */
  method RelayTSSMessage(self: Node, peers: map<Node, string>, sorted: seq<PartyID>, msg: Message,
                         unreachable: set<Node>, ghost g: Group)
    returns (posted: seq<Node>, ok: bool, ghost targets: seq<Node>)
    requires g.Valid() && peers.Keys == g.ids && sorted == g.Identities()
    ensures Routes(g, self, msg, targets)
    ensures ok ==> posted == targets
    ensures !ok ==> |posted| < |targets| && posted == targets[..|posted|] && targets[|posted|] in unreachable
    ensures ok <==> forall n | IsFor(g, self, msg, n) :: n !in unreachable
    ensures ok && msg.isBroadcast ==> forall n :: n in posted <==> n in peers && n != self
    ensures ok && !msg.isBroadcast ==> forall n :: n in posted <==> n in peers && CommitteeKey(n, g.epoch) in msg.to
  {
    var list: seq<Node> := [];
    if msg.isBroadcast {
      list := Everyone(self, peers);
    } else {
      var index := PeerIndexByKey(sorted, g);
      for i := 0 to |msg.to|
        invariant list == Resolved(sorted, msg.to[..i])
      {
        var found := Match(index, msg.to[i], g);
        assert msg.to[..i + 1][..i] == msg.to[..i];
        list := list + found;
      }
      assert msg.to[..|msg.to|] == msg.to;
    }
    targets := list;
    RoutesReachExactly(g, self, msg, targets);
    posted, ok := [], true;
    for i := 0 to |list|
      invariant posted == list[..i]
      invariant forall k | 0 <= k < i :: list[k] !in unreachable
    {
      assert list[i] in list;
      if list[i] !in peers {
        assert false;
      } else if list[i] in unreachable {
        return posted, false, targets;
      }
      posted := posted + [list[i]];
    }
  }

  /** A peer's answer to one attempt. */
  datatype Answer = NetworkError | Answered(status: nat)

  /** Offers a message until the peer takes it, for as long as the peer answers that it is not
      ready and six minutes have not passed. `clock` is the time, in milliseconds, just after
      each answer. */
  method PostTSSEnvelope(answers: nat -> Answer, start: nat, clock: nat -> nat) returns (ok: bool, attempts: nat)
    requires start <= clock(0) && forall i: nat :: clock(i) + 250 <= clock(i + 1)
    ensures 1 <= attempts <= 1441
    ensures forall i | 0 <= i < attempts - 1 :: answers(i) == Answered(503)
    ensures ok <==> answers(attempts - 1) == Answered(200)
    ensures answers(attempts - 1) == Answered(503) ==> clock(attempts - 1) >= start + 360_000
  {
    var deadline := start + 360_000;
    attempts := 0;
    while true
      invariant forall i | 0 <= i < attempts :: answers(i) == Answered(503)
      invariant attempts <= 1440
      invariant start + 250 * attempts <= clock(attempts)
      decreases deadline - clock(attempts)
    {
      assert clock(attempts) + 250 <= clock(attempts + 1);
      var answer := answers(attempts);
      var now := clock(attempts);
      attempts := attempts + 1;
      match answer
      case NetworkError => return false, attempts;
      case Answered(status) =>
        if status == 200 {
          return true, attempts;
        }
        if status != 503 || now >= deadline {
          return false, attempts;
        }
    }
  }

  /** Relays what is queued until the queue is empty or a message cannot be relayed. */
  method RelayPending(queue: seq<Message>, relays: Message -> bool) returns (relayed: seq<Message>, ok: bool)
    ensures relayed <= queue
    ensures ok <==> relayed == queue && forall i | 0 <= i < |queue| :: relays(queue[i])
    ensures !ok ==> exists i | 0 <= i < |queue| :: !relays(queue[i]) && relayed == queue[..i + 1]
  {
    relayed := [];
    var pending := queue;
    while pending != []
      invariant relayed + pending == queue
      invariant forall i | 0 <= i < |relayed| :: relays(relayed[i])
      decreases |pending|
    {
      var msg := pending[0];
      pending := pending[1..];
      relayed := relayed + [msg];
      if !relays(msg) {
        assert queue[|relayed| - 1] == msg;
        return relayed, false;
      }
    }
    assert relayed == queue;
    ok := true;
  }
}
