/**
 Every run of a key generation or signing session: parties are registered, started and
 published in any order, tss-lib emits messages and results when it likes, each party's driver
 selects between them and posts each message to its targets one after another, and a peer may
 be not ready, refuse, or drop the connection before or after taking a message.
 */
module RelayProtocol {
  import opened Wrappers
  import opened Committees
  import opened Relays

  /** Where a party's driver is; `Relaying` is at a position in the targets of the last message taken. */
  datatype Driver = Idle | Selecting | Relaying(pos: nat, flushing: bool) | Flushing | Completed | Failed

  /** One party. `emitted` is everything its tss-lib party has put on the out channel, and
      `targets` the list each message taken off it goes to; `result` is how many had been
      emitted when the result was put on the end channel. */
  datatype Party = Party(registered: bool, started: bool, published: bool, driver: Driver,
                         emitted: seq<Message>, targets: seq<seq<Node>>, result: Option<nat>)

  /** Message number `index` of one party, taken in by another. */
  datatype Delivery = Delivery(from: Node, index: nat, to: Node)

  datatype State = State(parties: map<Node, Party>, accepted: multiset<Delivery>)

  datatype Outcome = Accepts | Refuses | RequestLost | AnswerLost | GivesUp

  datatype Event =
    | Register(p: Node)
    | Start(p: Node)
    | StartFails(p: Node)
    | Publish(p: Node)
    | Emit(p: Node, msg: Message)
    | Finish(p: Node)
    | ProtocolError(p: Node)
    | Take(p: Node, list: seq<Node>)
    | Post(p: Node, outcome: Outcome)
    | RelayEnds(p: Node)
    | TakeResult(p: Node)
    | FlushEnds(p: Node)

  const Unknown := Party(false, false, false, Idle, [], [], None)

  ghost function Initial(g: Group): State {
    State(map p | p in g.ids :: Unknown, multiset{})
  }

  /** What an event does to the party it is of, other than posting; a step the code has not got to does nothing. */
  ghost function Step(g: Group, l: Party, e: Event): Party {
    match e
    case Register(p) => l.(registered := true)
    case Start(p) => if l.registered && l.driver.Idle? then l.(started := true) else l
    case StartFails(p) => if l.registered && !l.published then l.(driver := Failed) else l
    case Publish(p) => if l.started && l.driver.Idle? then l.(published := true, driver := Selecting) else l
    case Emit(p, msg) => if l.started then l.(emitted := l.emitted + [msg]) else l
    case Finish(p) => if l.started && l.result.None? then l.(result := Some(|l.emitted|)) else l
    case ProtocolError(p) => if l.driver.Selecting? then l.(driver := Failed) else l
    case Take(p, list) =>
      if (l.driver.Selecting? || l.driver.Flushing?) && |l.targets| < |l.emitted| && Routes(g, p, l.emitted[|l.targets|], list)
      then l.(targets := l.targets + [list], driver := Relaying(0, l.driver.Flushing?))
      else l
    case Post(p, outcome) => l
    case RelayEnds(p) =>
      if l.driver.Relaying? && l.targets != [] && l.driver.pos == |l.targets[|l.targets| - 1]|
      then l.(driver := if l.driver.flushing then Flushing else Selecting)
      else l
    case TakeResult(p) => if l.driver.Selecting? && l.result.Some? then l.(driver := Flushing) else l
    case FlushEnds(p) => if l.driver.Flushing? && |l.targets| == |l.emitted| then l.(driver := Completed) else l
  }

  predicate Posting(l: Party) {
    l.driver.Relaying? && l.targets != [] && l.driver.pos < |l.targets[|l.targets| - 1]|
  }

  /** The delivery a party's driver is attempting. */
  function Attempted(p: Node, l: Party): Delivery
    requires Posting(l)
  {
    Delivery(p, |l.targets| - 1, l.targets[|l.targets| - 1][l.driver.pos])
  }

  function Advanced(l: Party): Party
    requires Posting(l)
  {
    l.(driver := Relaying(l.driver.pos + 1, l.driver.flushing))
  }

  function Stopped(l: Party): Party {
    l.(driver := Failed)
  }

  /** One attempt at the next target. A receiver that has not published its party answers that
      it is not ready, and the sender tries again until it gives up. */
  ghost function OnPost(s: State, p: Node, outcome: Outcome): State
    requires p in s.parties && Posting(s.parties[p])
  {
    var l := s.parties[p];
    var d := Attempted(p, l);
    if d.to !in s.parties || !s.parties[d.to].published then
      (if outcome.RequestLost? || outcome.GivesUp? then s.(parties := s.parties[p := Stopped(l)]) else s)
    else
      match outcome
      case Accepts => State(s.parties[p := Advanced(l)], s.accepted + multiset{d})
      case Refuses => s.(parties := s.parties[p := Stopped(l)])
      case RequestLost => s.(parties := s.parties[p := Stopped(l)])
      case AnswerLost => State(s.parties[p := Stopped(l)], s.accepted + multiset{d})
      case GivesUp => s
  }

  ghost function Apply(g: Group, s: State, e: Event): State {
    if e.p !in s.parties then s
    else if e.Post? then (if Posting(s.parties[e.p]) then OnPost(s, e.p, e.outcome) else s)
    else s.(parties := s.parties[e.p := Step(g, s.parties[e.p], e)])
  }

  ghost function Run(g: Group, s: State, events: seq<Event>): State
    decreases events
  {
    if events == [] then s else Run(g, Apply(g, s, events[0]), events[1..])
  }

  ghost predicate Reachable(g: Group, s: State) {
    exists events :: s == Run(g, Initial(g), events)
  }

  // ---- the invariant ----

  /** How often a message has been taken in by one party, as far as the driver knows. */
  ghost function Known(l: Party, i: nat, to: Node): nat {
    if i >= |l.targets| then 0
    else if l.driver.Relaying? && i == |l.targets| - 1 && l.driver.pos <= |l.targets[i]| then multiset(l.targets[i][..l.driver.pos])[to]
    else multiset(l.targets[i])[to]
  }

  ghost predicate Counts(p: Node, l: Party, accepted: multiset<Delivery>) {
    forall i: nat, to: Node {:trigger Delivery(p, i, to)} ::
      if l.driver.Failed? then accepted[Delivery(p, i, to)] <= Known(l, i, to)
      else accepted[Delivery(p, i, to)] == Known(l, i, to)
  }

  ghost predicate Routed(g: Group, p: Node, l: Party) {
    |l.targets| <= |l.emitted| && forall i | 0 <= i < |l.targets| :: Routes(g, p, l.emitted[i], l.targets[i])
  }

  ghost predicate Ordered(l: Party) {
    && (l.started ==> l.registered)
    && (l.published ==> l.started)
    && (l.driver.Relaying? ==> l.targets != [] && l.driver.pos <= |l.targets[|l.targets| - 1]|)
    && (l.driver.Flushing? || l.driver.Completed? || (l.driver.Relaying? && l.driver.flushing) ==> l.result.Some?)
    && (l.result.Some? ==> l.result.value <= |l.emitted|)
    && (l.driver.Completed? ==> l.result.value <= |l.targets|)
    && (l.driver.Failed? || (l.published <==> !l.driver.Idle?))
  }

  ghost predicate PartyOk(g: Group, p: Node, l: Party, accepted: multiset<Delivery>) {
    Ordered(l) && Routed(g, p, l) && Counts(p, l, accepted)
  }

  ghost predicate Arrived(s: State) {
    forall d | d in s.accepted :: d.from in s.parties && d.to in s.parties && s.parties[d.to].published
  }

  ghost predicate Inv(g: Group, s: State) {
    && s.parties.Keys == g.ids
    && Arrived(s)
    && forall p {:trigger s.parties[p]} | p in s.parties :: PartyOk(g, p, s.parties[p], s.accepted)
  }

  /** No step but a post changes what the driver knows. */
  lemma KnownKept(g: Group, l: Party, e: Event, i: nat, to: Node)
    requires Ordered(l)
    ensures Known(Step(g, l, e), i, to) == Known(l, i, to)
  {
    if l.driver.Relaying? {
      var last := l.targets[|l.targets| - 1];
      assert last[..|last|] == last;
    }
  }

  lemma StepKeeps(g: Group, l: Party, accepted: multiset<Delivery>, e: Event)
    requires PartyOk(g, e.p, l, accepted)
    ensures PartyOk(g, e.p, Step(g, l, e), accepted) && (l.published ==> Step(g, l, e).published)
  {
    forall i: nat, to: Node ensures Known(Step(g, l, e), i, to) == Known(l, i, to) {
      KnownKept(g, l, e, i, to);
    }
  }

  /** One more target taken in: the last message's count of it goes up by one. */
  lemma KnownPosted(p: Node, l: Party, i: nat, to: Node)
    requires Ordered(l) && Posting(l)
    ensures var next := Known(l, i, to) + if Delivery(p, i, to) == Attempted(p, l) then 1 else 0;
            Known(Advanced(l), i, to) == next <= Known(Stopped(l), i, to)
  {
    var last := l.targets[|l.targets| - 1];
    var pos := l.driver.pos;
    assert last[..pos + 1] == last[..pos] + [last[pos]];
    assert last == last[..pos + 1] + last[pos + 1..];
  }

  lemma CountsPosted(p: Node, l: Party, accepted: multiset<Delivery>)
    requires Ordered(l) && Posting(l) && Counts(p, l, accepted)
    ensures Counts(p, Advanced(l), accepted + multiset{Attempted(p, l)})
    ensures Counts(p, Stopped(l), accepted) && Counts(p, Stopped(l), accepted + multiset{Attempted(p, l)})
  {
    forall i: nat, to: Node
      ensures var next := Known(l, i, to) + if Delivery(p, i, to) == Attempted(p, l) then 1 else 0;
              Known(Advanced(l), i, to) == next <= Known(Stopped(l), i, to)
    {
      KnownPosted(p, l, i, to);
    }
  }

  lemma PartyPosted(g: Group, p: Node, l: Party, accepted: multiset<Delivery>)
    requires PartyOk(g, p, l, accepted) && Posting(l)
    ensures var accepted' := accepted + multiset{Attempted(p, l)};
            PartyOk(g, p, Advanced(l), accepted') && PartyOk(g, p, Stopped(l), accepted') && PartyOk(g, p, Stopped(l), accepted)
  {
    CountsPosted(p, l, accepted);
  }

  /** A change to one party leaves the others. */
  lemma UpdateKeeps(g: Group, s: State, p: Node, l: Party)
    requires Inv(g, s) && p in s.parties && PartyOk(g, p, l, s.accepted) && (s.parties[p].published ==> l.published)
    ensures Inv(g, State(s.parties[p := l], s.accepted))
  {
  }

  /** So does a delivery of a message of that party. */
  lemma DeliveryKeeps(g: Group, s: State, p: Node, l: Party, d: Delivery)
    requires Inv(g, s) && p in s.parties && PartyOk(g, p, l, s.accepted + multiset{d}) && (s.parties[p].published ==> l.published)
    requires d.from == p && d.to in s.parties && s.parties[d.to].published
    ensures Inv(g, State(s.parties[p := l], s.accepted + multiset{d}))
  {
    var s' := State(s.parties[p := l], s.accepted + multiset{d});
    forall q | q in s'.parties ensures PartyOk(g, q, s'.parties[q], s'.accepted) {
      if q != p {
        assert PartyOk(g, q, s.parties[q], s.accepted);
        CountsOfOthers(q, s.parties[q], s.accepted, d);
      }
    }
  }

  lemma CountsOfOthers(q: Node, l: Party, accepted: multiset<Delivery>, d: Delivery)
    requires Counts(q, l, accepted) && d.from != q
    ensures Counts(q, l, accepted + multiset{d})
  {
    forall i: nat, to: Node ensures (accepted + multiset{d})[Delivery(q, i, to)] == accepted[Delivery(q, i, to)] {
    }
  }

  lemma AcceptKeeps(g: Group, s: State, p: Node)
    requires Inv(g, s) && p in s.parties && Posting(s.parties[p])
    requires var d := Attempted(p, s.parties[p]); d.to in s.parties && s.parties[d.to].published
    ensures var l, accepted := s.parties[p], s.accepted + multiset{Attempted(p, s.parties[p])};
            && Inv(g, State(s.parties[p := Advanced(l)], accepted))
            && Inv(g, State(s.parties[p := Stopped(l)], accepted))
  {
    var l := s.parties[p];
    PartyPosted(g, p, l, s.accepted);
    DeliveryKeeps(g, s, p, Advanced(l), Attempted(p, l));
    DeliveryKeeps(g, s, p, Stopped(l), Attempted(p, l));
  }

  lemma StopKeeps(g: Group, s: State, p: Node)
    requires Inv(g, s) && p in s.parties && Posting(s.parties[p])
    ensures Inv(g, State(s.parties[p := Stopped(s.parties[p])], s.accepted))
  {
    PartyPosted(g, p, s.parties[p], s.accepted);
    UpdateKeeps(g, s, p, Stopped(s.parties[p]));
  }

  lemma PostKeeps(g: Group, s: State, p: Node, outcome: Outcome)
    requires Inv(g, s) && p in s.parties && Posting(s.parties[p])
    ensures Inv(g, OnPost(s, p, outcome))
  {
    var d := Attempted(p, s.parties[p]);
    if d.to in s.parties && s.parties[d.to].published {
      AcceptKeeps(g, s, p);
    }
    StopKeeps(g, s, p);
  }

  lemma ApplyKeeps(g: Group, s: State, e: Event)
    requires Inv(g, s)
    ensures Inv(g, Apply(g, s, e))
  {
    if e.p in s.parties {
      if e.Post? {
        if Posting(s.parties[e.p]) {
          PostKeeps(g, s, e.p, e.outcome);
        }
      } else {
        StepKeeps(g, s.parties[e.p], s.accepted, e);
        UpdateKeeps(g, s, e.p, Step(g, s.parties[e.p], e));
      }
    }
  }

  lemma {:induction false} RunKeeps(g: Group, s: State, events: seq<Event>)
    requires Inv(g, s)
    ensures Inv(g, Run(g, s, events))
    decreases events
  {
    if events != [] {
      ApplyKeeps(g, s, events[0]);
      RunKeeps(g, Apply(g, s, events[0]), events[1..]);
    }
  }

  lemma ReachableInv(g: Group, s: State)
    requires Reachable(g, s)
    ensures Inv(g, s)
  {
    var events :| s == Run(g, Initial(g), events);
    RunKeeps(g, Initial(g), events);
  }

  // ---- one attempt ----

  /** A target that has not published its party takes nothing in, and the message is offered again until
      the connection is lost or the sender gives up. */
  lemma NotReadyIsRetried(g: Group, s: State, p: Node, outcome: Outcome)
    requires p in s.parties && Posting(s.parties[p])
    requires var to := s.parties[p].targets[|s.parties[p].targets| - 1][s.parties[p].driver.pos];
             to in s.parties && !s.parties[to].published
    ensures var s' := Apply(g, s, Post(p, outcome));
            && s'.accepted == s.accepted
            && (if outcome.RequestLost? || outcome.GivesUp? then s'.parties[p].driver.Failed? else s' == s)
  {
  }

  /** One that has takes the message in, once, if the request arrives and is not refused; the sender
      goes on to the next target if it is told so, and otherwise fails. */
  lemma PostedExactly(g: Group, s: State, p: Node, outcome: Outcome)
    requires p in s.parties && Posting(s.parties[p]) && !outcome.GivesUp?
    requires var to := s.parties[p].targets[|s.parties[p].targets| - 1][s.parties[p].driver.pos];
             to in s.parties && s.parties[to].published
    ensures var l, s' := s.parties[p], Apply(g, s, Post(p, outcome));
            var d := Delivery(p, |l.targets| - 1, l.targets[|l.targets| - 1][l.driver.pos]);
            && p in s'.parties
            && s'.accepted == s.accepted + (if outcome.Accepts? || outcome.AnswerLost? then multiset{d} else multiset{})
            && s'.parties[p].driver == if outcome.Accepts? then Relaying(l.driver.pos + 1, l.driver.flushing) else Failed
  {
  }

  // ---- what every run promises ----

  ghost predicate Once(msg: Message) {
    msg.isBroadcast || Distinct(msg.to)
  }

  lemma {:induction false} DistinctCounts(s: seq<Node>, n: Node)
    requires Distinct(s)
    ensures multiset(s)[n] == if n in s then 1 else 0
  {
    if s != [] {
      var front, last := s[..|s| - 1], s[|s| - 1];
      DistinctCounts(front, n);
      assert s == front + [last];
    }
  }

  /** A driver that reports completion has had every message emitted before the result taken in
      exactly once by each party it was for, and by nobody else. */
  lemma CompletedMeansDelivered(g: Group, s: State, p: Node, i: nat, to: Node)
    requires g.Valid() && Reachable(g, s) && p in s.parties && s.parties[p].driver.Completed?
    requires s.parties[p].result.Some? ==> i < s.parties[p].result.value
    ensures s.parties[p].result.Some? && i < |s.parties[p].emitted|
    ensures Once(s.parties[p].emitted[i]) ==>
      s.accepted[Delivery(p, i, to)] == if IsFor(g, p, s.parties[p].emitted[i], to) then 1 else 0
  {
    ReachableInv(g, s);
    var l := s.parties[p];
    assert PartyOk(g, p, l, s.accepted);
    assert Routes(g, p, l.emitted[i], l.targets[i]);
    RoutesReachExactly(g, p, l.emitted[i], l.targets[i]);
    assert s.accepted[Delivery(p, i, to)] == Known(l, i, to);
    if Once(l.emitted[i]) {
      DistinctCounts(l.targets[i], to);
    }
  }

  lemma KnownAtMost(l: Party, i: nat, to: Node)
    requires i < |l.targets|
    ensures Known(l, i, to) <= multiset(l.targets[i])[to]
  {
    var t := l.targets[i];
    if l.driver.Relaying? && l.driver.pos <= |t| {
      assert t == t[..l.driver.pos] + t[l.driver.pos..];
    }
  }

  /** Completed or not, nobody takes a message in twice, or one that is not for them. */
  lemma NeverTwice(g: Group, s: State, p: Node, i: nat, to: Node)
    requires g.Valid() && Reachable(g, s) && p in s.parties && i < |s.parties[p].emitted| && Once(s.parties[p].emitted[i])
    ensures s.accepted[Delivery(p, i, to)] <= if IsFor(g, p, s.parties[p].emitted[i], to) then 1 else 0
  {
    ReachableInv(g, s);
    var l := s.parties[p];
    assert s.accepted[Delivery(p, i, to)] <= Known(l, i, to);
    if i < |l.targets| {
      assert Routes(g, p, l.emitted[i], l.targets[i]);
      RoutesReachExactly(g, p, l.emitted[i], l.targets[i]);
      DistinctCounts(l.targets[i], to);
      KnownAtMost(l, i, to);
    }
  }

  /** Nothing reaches a party that has not been started: when a message is taken in, the
      receiver had been started and published before. */
  lemma NothingBeforeStart(g: Group, s: State, e: Event, d: Delivery)
    requires Reachable(g, s) && Apply(g, s, e).accepted[d] > s.accepted[d]
    ensures d.to in s.parties && s.parties[d.to].started && s.parties[d.to].published
    ensures d.from == e.p && d.from in s.parties && s.parties[d.from].driver.Relaying?
  {
    ReachableInv(g, s);
    assert PartyOk(g, d.to, s.parties[d.to], s.accepted);
  }

  // ---- the driver always gets there ----

  /** The driver of one party can reach completion by steps of its own. */
  ghost predicate CanComplete(g: Group, s: State, p: Node) {
    exists events :: p in Run(g, s, events).parties && Run(g, s, events).parties[p].driver.Completed? && Own(events, p)
  }

  ghost predicate Own(events: seq<Event>, p: Node) {
    forall i | 0 <= i < |events| :: events[i].p == p && !events[i].Emit? && !events[i].Finish?
  }

  /** What the driver does next when nothing goes wrong; `list` is where the next message goes. */
  function NextEvent(p: Node, l: Party, list: seq<Node>): Event {
    if l.driver.Selecting? then TakeResult(p)
    else if Posting(l) then Post(p, Accepts)
    else if l.driver.Relaying? then RelayEnds(p)
    else if |l.targets| == |l.emitted| then FlushEnds(p)
    else Take(p, list)
  }

  lemma RouteExists(g: Group, p: Node, msg: Message)
    ensures exists list :: Routes(g, p, msg, list)
  {
    if msg.isBroadcast {
      var list := ListOf(g.ids - {p});
      assert Routes(g, p, msg, list);
    } else {
      assert Routes(g, p, msg, Resolved(g.Identities(), msg.to));
    }
  }

  lemma ListOf(nodes: set<Node>) returns (list: seq<Node>)
    ensures Distinct(list) && forall n :: n in list <==> n in nodes
  {
    if nodes == {} {
      list := [];
    } else {
      var n :| n in nodes;
      var rest := ListOf(nodes - {n});
      list := rest + [n];
    }
  }

  ghost predicate Running(l: Party) {
    l.result.Some? && (l.driver.Selecting? || l.driver.Relaying? || l.driver.Flushing?)
  }

  /** Messages not taken, then stages left of the one at hand, then targets left of it. */
  ghost function Work(l: Party): (nat, nat, nat)
    requires Ordered(l) && |l.targets| <= |l.emitted|
  {
    (|l.emitted| - |l.targets|,
     if l.driver.Relaying? then 2 else if l.driver.Selecting? then 1 else 0,
     if l.driver.Relaying? then |l.targets[|l.targets| - 1]| - l.driver.pos else 0)
  }

  ghost predicate Less(a: (nat, nat, nat), b: (nat, nat, nat)) {
    a.0 < b.0 || (a.0 == b.0 && (a.1 < b.1 || (a.1 == b.1 && a.2 < b.2)))
  }

  /** A party with its result, at work among published parties. */
  ghost predicate AtWork(g: Group, s: State, p: Node) {
    && s.parties.Keys == g.ids && p in s.parties && Running(s.parties[p])
    && Ordered(s.parties[p]) && Routed(g, p, s.parties[p])
    && forall q {:trigger s.parties[q]} | q in s.parties :: s.parties[q].published
  }

  lemma TargetsAreMembers(g: Group, p: Node, l: Party)
    requires g.Valid() && Ordered(l) && Routed(g, p, l) && Posting(l)
    ensures Attempted(p, l).to in g.ids
  {
    var i := |l.targets| - 1;
    assert Routes(g, p, l.emitted[i], l.targets[i]);
    RoutesReachExactly(g, p, l.emitted[i], l.targets[i]);
    assert l.targets[i][l.driver.pos] in l.targets[i];
  }

  /** The party after its driver's next step. */
  ghost function NextParty(g: Group, p: Node, l: Party, list: seq<Node>): Party {
    if Posting(l) then Advanced(l) else Step(g, l, NextEvent(p, l, list))
  }

  lemma StepAdvances(g: Group, p: Node, l: Party, list: seq<Node>)
    requires Running(l) && Ordered(l) && Routed(g, p, l) && l.published
    requires |l.targets| < |l.emitted| ==> Routes(g, p, l.emitted[|l.targets|], list)
    ensures var l' := NextParty(g, p, l, list);
            l'.driver.Completed? || (Running(l') && Ordered(l') && Routed(g, p, l') && l'.published && Less(Work(l'), Work(l)))
  {
  }

  lemma NextAdvances(g: Group, s: State, p: Node, list: seq<Node>)
    requires g.Valid() && AtWork(g, s, p)
    requires var l := s.parties[p]; |l.targets| < |l.emitted| ==> Routes(g, p, l.emitted[|l.targets|], list)
    ensures var s' := Apply(g, s, NextEvent(p, s.parties[p], list));
            && p in s'.parties
            && (s'.parties[p].driver.Completed? || (AtWork(g, s', p) && Less(Work(s'.parties[p]), Work(s.parties[p]))))
  {
    var l := s.parties[p];
    StepAdvances(g, p, l, list);
    if Posting(l) {
      TargetsAreMembers(g, p, l);
    }
    assert Apply(g, s, NextEvent(p, l, list)).parties == s.parties[p := NextParty(g, p, l, list)];
  }

  lemma CompletesAfter(g: Group, s: State, p: Node, e: Event)
    requires e.p == p && !e.Emit? && !e.Finish? && CanComplete(g, Apply(g, s, e), p)
    ensures CanComplete(g, s, p)
  {
    var s' := Apply(g, s, e);
    var events :| p in Run(g, s', events).parties && Run(g, s', events).parties[p].driver.Completed? && Own(events, p);
    assert ([e] + events)[1..] == events;
    assert Run(g, s, [e] + events) == Run(g, s', events);
  }

  /** From any state with every party published, a party that has its result can flush what is
      queued, however much that is, and complete. */
  lemma {:induction false} WorkEnds(g: Group, s: State, p: Node)
    requires g.Valid() && AtWork(g, s, p)
    ensures CanComplete(g, s, p)
    decreases Work(s.parties[p]).0, Work(s.parties[p]).1, Work(s.parties[p]).2
  {
    var l := s.parties[p];
    var list := [];
    if |l.targets| < |l.emitted| {
      RouteExists(g, p, l.emitted[|l.targets|]);
      list :| Routes(g, p, l.emitted[|l.targets|], list);
    }
    var e := NextEvent(p, l, list);
    var s' := Apply(g, s, e);
    NextAdvances(g, s, p, list);
    if s'.parties[p].driver.Completed? {
      assert Run(g, s', []) == s' && Own([], p);
    } else {
      WorkEnds(g, s', p);
    }
    CompletesAfter(g, s, p, e);
  }

  lemma ResultLeadsToCompletion(g: Group, s: State, p: Node)
    requires g.Valid() && Reachable(g, s) && p in s.parties && Running(s.parties[p])
    requires forall q | q in s.parties :: s.parties[q].published
    ensures CanComplete(g, s, p)
  {
    ReachableInv(g, s);
    assert PartyOk(g, p, s.parties[p], s.accepted);
    WorkEnds(g, s, p);
  }

  /** Why the flush is there: the driver can have the result in hand while a message emitted
      before it is still queued, and its select is free to take the result. */
  lemma ResultCanOvertakeAMessage(g: Group, p: Node, msg: Message)
    requires p in g.ids
    ensures exists s :: Reachable(g, s) && p in s.parties && Overtakes(s.parties[p])
  {
    var s := Initial(g);
    var s1 := Apply(g, s, Register(p));
    var s2 := Apply(g, s1, Start(p));
    var s3 := Apply(g, s2, Emit(p, msg));
    var s4 := Apply(g, s3, Publish(p));
    var s5 := Apply(g, s4, Finish(p));
    assert Run(g, s5, []) == s5;
    RunStep(g, s4, Finish(p), []);
    RunStep(g, s3, Publish(p), [Finish(p)]);
    RunStep(g, s2, Emit(p, msg), [Publish(p)] + [Finish(p)]);
    RunStep(g, s1, Start(p), [Emit(p, msg)] + ([Publish(p)] + [Finish(p)]));
    RunStep(g, s, Register(p), [Start(p)] + ([Emit(p, msg)] + ([Publish(p)] + [Finish(p)])));
    assert Reachable(g, s5);
  }

  lemma RunStep(g: Group, s: State, e: Event, events: seq<Event>)
    ensures Run(g, s, [e] + events) == Run(g, Apply(g, s, e), events)
  {
    assert ([e] + events)[1..] == events;
  }

  ghost predicate Overtakes(l: Party) {
    l.driver.Selecting? && l.result.Some? && |l.targets| < l.result.value
  }
}
