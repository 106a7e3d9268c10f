/**
 Collecting payment for invoices (services/billing/stripe.go, collect.go, usage.go), against a
 payment processor with a search that may lag and idempotency keys that live for a while.
 */
module Collections {
  import opened Wrappers

  /** A payment the processor has taken on; `succeeded` once the money has moved. */
  datatype Intent = Intent(invoice: string, card: string, amount: int, succeeded: bool)

  /** What an idempotency key is made of, and what the processor answered the first time. */
  datatype Key = Key(invoice: string, card: string)
  datatype Reply = IntentReply(index: nat, succeeded: bool) | DeclineReply

  datatype Invoice = Invoice(amount: int, paid: bool)

  datatype State = State(invoices: map<string, Invoice>, intents: seq<Intent>, keys: map<Key, Reply>)

  /** What becomes of a request the processor has not seen before. */
  datatype Outcome = Succeeds | StaysOpen | Declines | AnswerLost(succeeded: bool) | RequestLost

  /** What an attempt gives back: a payment and its status, or why there is none. */
  datatype Answer = Charged(index: nat, succeeded: bool) | NoPaymentMethod | Refused

  /** One attempt: what the search finds, which card the customer has, how the request goes and
      whether the invoice can then be marked paid. */
  datatype Attempt = Attempt(invoice: string, found: Option<nat>, card: string, outcome: Outcome, marks: bool)

  datatype Event =
    | Collect(attempt: Attempt)
    | Settle(index: nat)
    | Expire(key: Key)

  predicate IsSuccess(s: State, i: nat, invoice: string) {
    i < |s.intents| && s.intents[i].succeeded && s.intents[i].invoice == invoice
  }

  /** What a search can say: a success of that invoice, or nothing. */
  predicate MayFind(s: State, a: Attempt) {
    a.found.Some? ==> IsSuccess(s, a.found.value, a.invoice)
  }

  function WithIntent(s: State, invoice: string, card: string, succeeded: bool): State
    requires invoice in s.invoices
  {
    State(s.invoices,
          s.intents + [Intent(invoice, card, s.invoices[invoice].amount, succeeded)],
          s.keys[Key(invoice, card) := IntentReply(|s.intents|, succeeded)])
  }

  /** The processor's part: a key it knows gets the answer it got before, and nothing is done. */
  function CreatePaymentIntent(s: State, invoice: string, card: string, outcome: Outcome): (State, Answer)
    requires invoice in s.invoices
  {
    var key := Key(invoice, card);
    if s.invoices[invoice].amount <= 0 || card == "" || outcome.RequestLost? then (s, Refused)
    else if key in s.keys then
      (s, match s.keys[key]
          case IntentReply(index, succeeded) => if outcome.AnswerLost? then Refused else Charged(index, succeeded)
          case DeclineReply => Refused)
    else
      match outcome
      case Succeeds => (WithIntent(s, invoice, card, true), Charged(|s.intents|, true))
      case StaysOpen => (WithIntent(s, invoice, card, false), Charged(|s.intents|, false))
      case Declines => (s.(keys := s.keys[key := DeclineReply]), Refused)
      case AnswerLost(succeeded) => (WithIntent(s, invoice, card, succeeded), Refused)
      case RequestLost => (s, Refused)
  }

  function ChargeInvoice(s: State, a: Attempt): (State, Answer)
    requires a.invoice in s.invoices
  {
    if s.invoices[a.invoice].paid then (s, Refused)
    else if a.found.Some? then (s, Charged(a.found.value, true))
    else if a.card == "" then (s, NoPaymentMethod)
    else CreatePaymentIntent(s, a.invoice, a.card, a.outcome)
  }

  function MarkedPaid(s: State, invoice: string): State
    requires invoice in s.invoices
  {
    s.(invoices := s.invoices[invoice := s.invoices[invoice].(paid := true)])
  }

  /** Marked paid only on an answer that says the money has moved. */
  function Attempted(s: State, a: Attempt): State {
    if a.invoice !in s.invoices || !MayFind(s, a) then s else
    var (s', answer) := ChargeInvoice(s, a);
    if answer.Charged? && answer.succeeded && a.marks && a.invoice in s'.invoices then MarkedPaid(s', a.invoice) else s'
  }

  function Apply(s: State, e: Event): State {
    match e
    case Collect(a) => Attempted(s, a)
    case Settle(i) => if i < |s.intents| then s.(intents := s.intents[i := s.intents[i].(succeeded := true)]) else s
    case Expire(key) => s.(keys := s.keys - {key})
  }

  function After(s: State, events: seq<Event>): State
    decreases events
  {
    if events == [] then s else After(Apply(s, events[0]), events[1..])
  }

  ghost predicate Fresh(s: State) {
    s.intents == [] && s.keys == map[] && forall i | i in s.invoices :: !s.invoices[i].paid
  }

  // ---- paid means paid ----

  ghost predicate HasSuccess(s: State, invoice: string) {
    exists i: nat :: IsSuccess(s, i, invoice)
  }

  /** A reply that says so is of a payment that has succeeded. */
  ghost predicate ReplyOk(s: State, key: Key, reply: Reply) {
    reply.IntentReply? && reply.succeeded ==> IsSuccess(s, reply.index, key.invoice)
  }

  ghost predicate PaidMeansPaid(s: State) {
    && (forall id {:trigger s.invoices[id]} | id in s.invoices && s.invoices[id].paid :: HasSuccess(s, id))
    && (forall key {:trigger s.keys[key]} | key in s.keys :: ReplyOk(s, key, s.keys[key]))
  }

  lemma SuccessStays(s: State, s': State, invoice: string)
    requires HasSuccess(s, invoice) && |s.intents| <= |s'.intents|
    requires forall i | 0 <= i < |s.intents| && s.intents[i].succeeded :: s'.intents[i] == s.intents[i]
    ensures HasSuccess(s', invoice)
  {
    var i: nat :| IsSuccess(s, i, invoice);
    assert IsSuccess(s', i, invoice);
  }

  lemma ChargeKeeps(s: State, a: Attempt)
    requires PaidMeansPaid(s) && a.invoice in s.invoices && MayFind(s, a)
    ensures var (s', answer) := ChargeInvoice(s, a);
            && PaidMeansPaid(s') && s'.invoices == s.invoices
            && (answer.Charged? && answer.succeeded ==> IsSuccess(s', answer.index, a.invoice))
  {
    var (s', answer) := ChargeInvoice(s, a);
    forall id | id in s'.invoices && s'.invoices[id].paid ensures HasSuccess(s', id) {
      SuccessStays(s, s', id);
    }
  }

  lemma ApplyKeepsPaid(s: State, e: Event)
    requires PaidMeansPaid(s)
    ensures PaidMeansPaid(Apply(s, e))
  {
    var s' := Apply(s, e);
    match e
    case Collect(a) =>
      if a.invoice in s.invoices && MayFind(s, a) {
        ChargeKeeps(s, a);
        var (s1, answer) := ChargeInvoice(s, a);
        forall id | id in s'.invoices && s'.invoices[id].paid ensures HasSuccess(s', id) {
          if id == a.invoice && answer.Charged? && answer.succeeded {
            assert IsSuccess(s', answer.index, id);
          } else {
            SuccessStays(s1, s', id);
          }
        }
      }
    case Settle(i) =>
      forall id | id in s'.invoices && s'.invoices[id].paid ensures HasSuccess(s', id) {
        SuccessStays(s, s', id);
      }
    case Expire(key) =>
      forall id | id in s'.invoices && s'.invoices[id].paid ensures HasSuccess(s', id) {
        SuccessStays(s, s', id);
      }
  }

  lemma {:induction false} AfterKeepsPaid(s: State, events: seq<Event>)
    requires PaidMeansPaid(s)
    ensures PaidMeansPaid(After(s, events))
    decreases events
  {
    if events != [] {
      ApplyKeepsPaid(s, events[0]);
      AfterKeepsPaid(Apply(s, events[0]), events[1..]);
    }
  }

  /** Over any attempts, with any search, any expiry and any late settlement, an invoice is
      marked paid only if a succeeded payment for it exists. */
  lemma PaidOnlyIfCollected(s: State, events: seq<Event>, invoice: string)
    requires Fresh(s)
    ensures var s' := After(s, events);
            invoice in s'.invoices && s'.invoices[invoice].paid ==> HasSuccess(s', invoice)
  {
    AfterKeepsPaid(s, events);
  }

  /** And whenever marking works it is marked: an unpaid invoice is paid after an attempt if and only
      if the search found its payment, or the request is answered with one that has succeeded, now
      or the first time that key was used. */
  lemma MarkedExactly(s: State, a: Attempt)
    requires a.invoice in s.invoices && !s.invoices[a.invoice].paid
    ensures a.invoice in Attempted(s, a).invoices
    ensures Attempted(s, a).invoices[a.invoice].paid <==>
            && a.marks
            && (if a.found.Some? then IsSuccess(s, a.found.value, a.invoice)
                else && a.card != "" && s.invoices[a.invoice].amount > 0 && !a.outcome.RequestLost? && !a.outcome.AnswerLost?
                     && (if Key(a.invoice, a.card) in s.keys
                         then s.keys[Key(a.invoice, a.card)].IntentReply? && s.keys[Key(a.invoice, a.card)].succeeded
                         else a.outcome.Succeeds?))
    ensures forall id | id in s.invoices && id != a.invoice :: id in Attempted(s, a).invoices && Attempted(s, a).invoices[id] == s.invoices[id]
  {
  }

  /** A key is answered the first time by what becomes of the request, and from then on by that. */
  lemma KeysRemember(s: State, a: Attempt, later: Outcome)
    requires !MakesNothing(s, a) && !a.outcome.RequestLost? && !later.RequestLost? && !later.AnswerLost?
    ensures var key, s' := Key(a.invoice, a.card), Attempted(s, a);
            && key in s'.keys
            && s'.keys[key] == (if a.outcome.Declines? then DeclineReply
                                else IntentReply(|s.intents|, a.outcome.Succeeds? || a.outcome == AnswerLost(true)))
            && a.invoice in s'.invoices
            && CreatePaymentIntent(s', a.invoice, a.card, later) ==
               (s', if a.outcome.Declines? then Refused else Charged(|s.intents|, a.outcome.Succeeds? || a.outcome == AnswerLost(true)))
  {
  }

  // ---- at most one payment ----

  ghost predicate AtMostOne(s: State) {
    forall i: nat, j: nat, invoice | IsSuccess(s, i, invoice) && IsSuccess(s, j, invoice) :: i == j
  }

  /** An attempt that cannot make a new payment, whatever the processor would do: the invoice is
      paid or for nothing, the search found a payment, there is no card, or the key is live. */
  predicate MakesNothing(s: State, a: Attempt) {
    || a.invoice !in s.invoices || s.invoices[a.invoice].paid || s.invoices[a.invoice].amount <= 0
    || a.found.Some? || a.card == "" || Key(a.invoice, a.card) in s.keys
  }

  function NewIntent(s: State, a: Attempt, succeeded: bool): Intent
    requires a.invoice in s.invoices
  {
    Intent(a.invoice, a.card, s.invoices[a.invoice].amount, succeeded)
  }

  /** The payments there are after an attempt. */
  lemma AttemptIs(s: State, a: Attempt)
    ensures MakesNothing(s, a) || a.outcome.Declines? || a.outcome.RequestLost? ==> Attempted(s, a).intents == s.intents
    ensures !MakesNothing(s, a) && (a.outcome.Succeeds? || a.outcome == AnswerLost(true)) ==>
      Attempted(s, a).intents == s.intents + [NewIntent(s, a, true)]
    ensures !MakesNothing(s, a) && (a.outcome.StaysOpen? || a.outcome == AnswerLost(false)) ==>
      Attempted(s, a).intents == s.intents + [NewIntent(s, a, false)]
  {
  }

  lemma SamePayments(s: State, s': State)
    requires AtMostOne(s) && |s'.intents| >= |s.intents|
    requires forall i, invoice | IsSuccess(s', i, invoice) :: IsSuccess(s, i, invoice)
    ensures AtMostOne(s')
  {
  }

  lemma OneMorePayment(s: State, s': State, made: Intent)
    requires AtMostOne(s) && s'.intents == s.intents + [made] && made.succeeded
    ensures AtMostOne(s') <==> !HasSuccess(s, made.invoice)
  {
    var n := |s.intents|;
    assert IsSuccess(s', n, made.invoice);
    if HasSuccess(s, made.invoice) {
      var i: nat :| IsSuccess(s, i, made.invoice);
      assert IsSuccess(s', i, made.invoice);
    } else {
      forall i: nat, j: nat, invoice | IsSuccess(s', i, invoice) && IsSuccess(s', j, invoice) ensures i == j {
        assert i < n ==> IsSuccess(s, i, invoice);
        assert j < n ==> IsSuccess(s, j, invoice);
      }
    }
  }

  lemma OneMoreOpen(s: State, s': State, made: Intent)
    requires AtMostOne(s) && s'.intents == s.intents + [made] && !made.succeeded
    ensures AtMostOne(s')
  {
    forall i, invoice | IsSuccess(s', i, invoice) ensures IsSuccess(s, i, invoice) {
    }
    SamePayments(s, s');
  }

  /** What an attempt may meet: nothing new can be made, or nothing has been paid yet. */
  ghost predicate Spares(s: State, a: Attempt) {
    MakesNothing(s, a) || !HasSuccess(s, a.invoice)
  }

  lemma SparingKeepsOne(s: State, a: Attempt)
    requires AtMostOne(s) && Spares(s, a)
    ensures AtMostOne(Attempted(s, a))
  {
    var s' := Attempted(s, a);
    AttemptIs(s, a);
    if s'.intents == s.intents {
      forall i, invoice | IsSuccess(s', i, invoice) ensures IsSuccess(s, i, invoice) {
      }
      SamePayments(s, s');
    } else if s'.intents == s.intents + [NewIntent(s, a, true)] {
      OneMorePayment(s, s', NewIntent(s, a, true));
    } else {
      OneMoreOpen(s, s', NewIntent(s, a, false));
    }
  }

  /** Whatever becomes of the request, an attempt leaves at most one payment per invoice if and
      only if it cannot make a new one or there is none yet. */
  lemma SecondPaymentExactly(s: State, a: Attempt)
    requires AtMostOne(s)
    ensures (forall o: Outcome :: AtMostOne(Attempted(s, a.(outcome := o)))) <==> Spares(s, a)
  {
    if Spares(s, a) {
      forall o: Outcome ensures AtMostOne(Attempted(s, a.(outcome := o))) {
        SparingKeepsOne(s, a.(outcome := o));
      }
    } else {
      var again := a.(outcome := Succeeds);
      AttemptIs(s, again);
      OneMorePayment(s, Attempted(s, again), NewIntent(s, again, true));
    }
  }

  /** A settlement that another payment of the same invoice has not come before. */
  ghost predicate Unrivalled(s: State, i: nat) {
    i < |s.intents| && !s.intents[i].succeeded ==> !HasSuccess(s, s.intents[i].invoice)
  }

  /** A settlement leaves at most one payment per invoice if and only if none came before it. */
  lemma SettlementExactly(s: State, i: nat)
    requires AtMostOne(s)
    ensures AtMostOne(Apply(s, Settle(i))) <==> Unrivalled(s, i)
  {
    var s' := Apply(s, Settle(i));
    if i < |s.intents| && !s.intents[i].succeeded {
      var paid := s.intents[i].invoice;
      assert IsSuccess(s', i, paid);
      if HasSuccess(s, paid) {
        var j: nat :| IsSuccess(s, j, paid);
        assert IsSuccess(s', j, paid);
      } else {
        forall j: nat, k: nat, invoice | IsSuccess(s', j, invoice) && IsSuccess(s', k, invoice) ensures j == k {
          assert j != i ==> IsSuccess(s, j, invoice);
          assert k != i ==> IsSuccess(s, k, invoice);
        }
      }
    } else {
      assert s'.intents == s.intents;
      SameIntents(s, s');
    }
  }

  lemma SameIntents(s: State, s': State)
    requires AtMostOne(s) && s'.intents == s.intents
    ensures AtMostOne(s')
  {
    forall i, invoice | IsSuccess(s', i, invoice) ensures IsSuccess(s, i, invoice) {
    }
    SamePayments(s, s');
  }

  // ---- over runs ----

  /** An event, with another outcome if it is an attempt. */
  function WithOutcome(e: Event, o: Outcome): Event {
    if e.Collect? then Collect(e.attempt.(outcome := o)) else e
  }

  /** What attempts and settlements have to meet. */
  ghost predicate Guard(s: State, e: Event) {
    match e
    case Collect(a) => Spares(s, a)
    case Settle(i) => Unrivalled(s, i)
    case Expire(key) => true
  }

  /** At most one payment per invoice at every point, whatever becomes of each request. */
  ghost predicate OnceWhatever(s: State, events: seq<Event>)
    decreases events
  {
    AtMostOne(s) && (events != [] ==> forall o: Outcome :: OnceWhatever(Apply(s, WithOutcome(events[0], o)), events[1..]))
  }

  ghost predicate GuardedWhatever(s: State, events: seq<Event>)
    decreases events
  {
    events != [] ==> Guard(s, events[0]) && forall o: Outcome :: GuardedWhatever(Apply(s, WithOutcome(events[0], o)), events[1..])
  }

  lemma StepOnceExactly(s: State, e: Event)
    requires AtMostOne(s)
    ensures (forall o: Outcome :: AtMostOne(Apply(s, WithOutcome(e, o)))) <==> Guard(s, e)
  {
    match e
    case Collect(a) =>
      SecondPaymentExactly(s, a);
      assert forall o: Outcome :: Apply(s, WithOutcome(e, o)) == Attempted(s, a.(outcome := o));
    case Settle(i) =>
      SettlementExactly(s, i);
      assert forall o: Outcome :: WithOutcome(e, o) == e;
      assert WithOutcome(e, Succeeds) == e;
    case Expire(key) =>
      SameIntents(s, Apply(s, e));
      assert forall o: Outcome :: WithOutcome(e, o) == e;
  }

  /** Over any sequence of attempts, settlements and expiries there is at most one payment per
      invoice at every point, whatever becomes of each request, if and only if every attempt and
      every settlement meets its guard. */
  lemma {:induction false} NeverPaidTwiceExactly(s: State, events: seq<Event>)
    requires AtMostOne(s)
    ensures OnceWhatever(s, events) <==> GuardedWhatever(s, events)
    decreases events
  {
    if events != [] {
      var e, rest := events[0], events[1..];
      StepOnceExactly(s, e);
      if Guard(s, e) {
        forall o: Outcome
          ensures OnceWhatever(Apply(s, WithOutcome(e, o)), rest) <==> GuardedWhatever(Apply(s, WithOutcome(e, o)), rest)
        {
          NeverPaidTwiceExactly(Apply(s, WithOutcome(e, o)), rest);
        }
      } else {
        var o: Outcome :| !AtMostOne(Apply(s, WithOutcome(e, o)));
        assert !OnceWhatever(Apply(s, WithOutcome(e, o)), rest);
      }
    }
  }

  /** The search shows every success there is, and no payment settles after another of its invoice. */
  ghost predicate SearchIsFull(s: State, events: seq<Event>)
    decreases events
  {
    events != [] ==>
      && (events[0].Collect? ==> events[0].attempt.found.Some? || !HasSuccess(s, events[0].attempt.invoice))
      && (events[0].Settle? ==> Unrivalled(s, events[0].index))
      && SearchIsFull(Apply(s, events[0]), events[1..])
  }

  /** Then there is never more than one succeeded payment for an invoice, whatever cards are
      used, whatever keys expire and wherever an attempt is cut short. */
  lemma {:induction false} FullSearchNeverPaysTwice(s: State, events: seq<Event>)
    requires AtMostOne(s) && SearchIsFull(s, events)
    ensures AtMostOne(After(s, events))
    decreases events
  {
    if events != [] {
      match events[0] {
        case Collect(a) => SparingKeepsOne(s, a);
        case Settle(i) => SettlementExactly(s, i);
        case Expire(key) => SameIntents(s, Apply(s, Expire(key)));
      }
      FullSearchNeverPaysTwice(Apply(s, events[0]), events[1..]);
    }
  }

  // ---- whatever settles, and whenever ----

  predicate IsIntent(s: State, i: nat, invoice: string) {
    i < |s.intents| && s.intents[i].invoice == invoice
  }

  ghost predicate HasIntent(s: State, invoice: string) {
    exists i: nat :: IsIntent(s, i, invoice)
  }

  /** At most one payment per invoice, succeeded or still open. */
  ghost predicate NoRivals(s: State) {
    forall i: nat, j: nat, invoice | IsIntent(s, i, invoice) && IsIntent(s, j, invoice) :: i == j
  }

  ghost predicate AllSettle(events: seq<Event>) {
    forall i | 0 <= i < |events| :: events[i].Settle?
  }

  ghost predicate OnceWhateverSettles(s: State) {
    forall settled: seq<Event> {:trigger After(s, settled)} | AllSettle(settled) :: AtMostOne(After(s, settled))
  }

  lemma NoRivalsOnce(s: State)
    requires NoRivals(s)
    ensures AtMostOne(s)
  {
    forall i: nat, j: nat, invoice | IsSuccess(s, i, invoice) && IsSuccess(s, j, invoice) ensures i == j {
      assert IsIntent(s, i, invoice) && IsIntent(s, j, invoice);
    }
  }

  lemma {:induction false} SettlingNoRivals(s: State, settled: seq<Event>)
    requires NoRivals(s) && AllSettle(settled)
    ensures NoRivals(After(s, settled))
    decreases settled
  {
    if settled != [] {
      OtherStepNoRivals(s, settled[0]);
      SettlingNoRivals(Apply(s, settled[0]), settled[1..]);
    }
  }

  lemma OtherStepNoRivals(s: State, e: Event)
    requires NoRivals(s) && !e.Collect?
    ensures NoRivals(Apply(s, e))
  {
    var s' := Apply(s, e);
    forall i: nat, j: nat, invoice | IsIntent(s', i, invoice) && IsIntent(s', j, invoice) ensures i == j {
      assert IsIntent(s, i, invoice) && IsIntent(s, j, invoice);
    }
  }

  /** However payments settle there is at most one success per invoice if and only if there is at
      most one payment per invoice, open ones included. */
  lemma SettlingExactly(s: State)
    ensures OnceWhateverSettles(s) <==> NoRivals(s)
  {
    if NoRivals(s) {
      forall settled: seq<Event> | AllSettle(settled) ensures AtMostOne(After(s, settled)) {
        SettlingNoRivals(s, settled);
        NoRivalsOnce(After(s, settled));
      }
    } else {
      var i: nat, j: nat, invoice :| IsIntent(s, i, invoice) && IsIntent(s, j, invoice) && i != j;
      var both := [Settle(i), Settle(j)];
      AfterTwo(s, Settle(i), Settle(j));
      assert AllSettle(both);
      assert IsSuccess(After(s, both), i, invoice) && IsSuccess(After(s, both), j, invoice);
    }
  }

  /** What an attempt may meet if payments can settle late: nothing new can be made, or there is
      no payment of the invoice at all. */
  ghost predicate SparesOpen(s: State, a: Attempt) {
    MakesNothing(s, a) || !HasIntent(s, a.invoice)
  }

  lemma NewRivalExactly(s: State, s': State, made: Intent)
    requires NoRivals(s) && s'.intents == s.intents + [made]
    ensures NoRivals(s') <==> !HasIntent(s, made.invoice)
  {
    var n := |s.intents|;
    assert IsIntent(s', n, made.invoice);
    if HasIntent(s, made.invoice) {
      var i: nat :| IsIntent(s, i, made.invoice);
      assert IsIntent(s', i, made.invoice);
    } else {
      forall i: nat, j: nat, invoice | IsIntent(s', i, invoice) && IsIntent(s', j, invoice) ensures i == j {
        assert i < n ==> IsIntent(s, i, invoice);
        assert j < n ==> IsIntent(s, j, invoice);
      }
    }
  }

  lemma SparingOpenKeeps(s: State, a: Attempt)
    requires NoRivals(s) && SparesOpen(s, a)
    ensures NoRivals(Attempted(s, a))
  {
    var s' := Attempted(s, a);
    AttemptIs(s, a);
    if s'.intents == s.intents {
      forall i: nat, j: nat, invoice | IsIntent(s', i, invoice) && IsIntent(s', j, invoice) ensures i == j {
        assert IsIntent(s, i, invoice) && IsIntent(s, j, invoice);
      }
    } else {
      NewRivalExactly(s, s', s'.intents[|s.intents|]);
    }
  }

  /** Whatever becomes of the request and whatever settles later, an attempt leaves at most one
      payment per invoice if and only if it cannot make a new one or there is none, open or not. */
  lemma LateSettlementExactly(s: State, a: Attempt)
    requires NoRivals(s)
    ensures (forall o: Outcome :: OnceWhateverSettles(Attempted(s, a.(outcome := o)))) <==> SparesOpen(s, a)
  {
    if SparesOpen(s, a) {
      forall o: Outcome ensures OnceWhateverSettles(Attempted(s, a.(outcome := o))) {
        SparingOpenKeeps(s, a.(outcome := o));
        SettlingExactly(Attempted(s, a.(outcome := o)));
      }
    } else {
      var again := a.(outcome := StaysOpen);
      AttemptIs(s, again);
      NewRivalExactly(s, Attempted(s, again), NewIntent(s, again, false));
      SettlingExactly(Attempted(s, again));
    }
  }

  ghost predicate OnceForGood(s: State, events: seq<Event>)
    decreases events
  {
    OnceWhateverSettles(s) && (events != [] ==> forall o: Outcome :: OnceForGood(Apply(s, WithOutcome(events[0], o)), events[1..]))
  }

  ghost predicate GuardedForGood(s: State, events: seq<Event>)
    decreases events
  {
    events != [] ==>
      && (events[0].Collect? ==> SparesOpen(s, events[0].attempt))
      && forall o: Outcome :: GuardedForGood(Apply(s, WithOutcome(events[0], o)), events[1..])
  }

  lemma StepForGood(s: State, e: Event)
    requires NoRivals(s)
    ensures (forall o: Outcome :: NoRivals(Apply(s, WithOutcome(e, o)))) <==> (e.Collect? ==> SparesOpen(s, e.attempt))
  {
    if e.Collect? {
      LateSettlementExactly(s, e.attempt);
      forall o: Outcome ensures NoRivals(Apply(s, WithOutcome(e, o))) <==> OnceWhateverSettles(Attempted(s, e.attempt.(outcome := o))) {
        SettlingExactly(Attempted(s, e.attempt.(outcome := o)));
      }
    } else {
      OtherStepNoRivals(s, e);
      assert forall o: Outcome :: WithOutcome(e, o) == e;
    }
  }

  /** Over any sequence of attempts and expiries, with payments settling at any time, there is at
      most one payment per invoice at every point and for good if and only if no attempt can make
      a new payment of an invoice that has one, open or succeeded. */
  lemma {:induction false} OnceForGoodExactly(s: State, events: seq<Event>)
    requires NoRivals(s)
    ensures OnceForGood(s, events) <==> GuardedForGood(s, events)
    decreases events
  {
    SettlingExactly(s);
    if events != [] {
      var e, rest := events[0], events[1..];
      StepForGood(s, e);
      if e.Collect? ==> SparesOpen(s, e.attempt) {
        forall o: Outcome
          ensures OnceForGood(Apply(s, WithOutcome(e, o)), rest) <==> GuardedForGood(Apply(s, WithOutcome(e, o)), rest)
        {
          OnceForGoodExactly(Apply(s, WithOutcome(e, o)), rest);
        }
      } else {
        var o: Outcome :| !NoRivals(Apply(s, WithOutcome(e, o)));
        SettlingExactly(Apply(s, WithOutcome(e, o)));
        assert !OnceForGood(Apply(s, WithOutcome(e, o)), rest);
      }
    }
  }

  // ---- at most one payment per card ----

  function KeyOf(intent: Intent): Key {
    Key(intent.invoice, intent.card)
  }

  /** Every payment is under its key, so no two share an invoice and a card. */
  ghost predicate Keyed(s: State) {
    forall i: nat {:trigger s.intents[i]} | i < |s.intents| ::
      KeyOf(s.intents[i]) in s.keys && s.keys[KeyOf(s.intents[i])].IntentReply? && s.keys[KeyOf(s.intents[i])].index == i
  }

  lemma ApplyKeepsKeyed(s: State, e: Event)
    requires Keyed(s) && !e.Expire?
    ensures Keyed(Apply(s, e))
  {
    var s' := Apply(s, e);
    if e.Collect? {
      AttemptIs(s, e.attempt);
    }
    forall i: nat | i < |s'.intents|
      ensures KeyOf(s'.intents[i]) in s'.keys && s'.keys[KeyOf(s'.intents[i])].IntentReply? && s'.keys[KeyOf(s'.intents[i])].index == i
    {
      if i < |s.intents| {
        assert KeyOf(s.intents[i]) in s.keys && s.keys[KeyOf(s.intents[i])].IntentReply? && s.keys[KeyOf(s.intents[i])].index == i;
        assert KeyOf(s'.intents[i]) == KeyOf(s.intents[i]);
      }
    }
  }

  lemma {:induction false} LiveKeysKeep(s: State, events: seq<Event>)
    requires Keyed(s) && forall k | 0 <= k < |events| :: !events[k].Expire?
    ensures Keyed(After(s, events))
    decreases events
  {
    if events != [] {
      ApplyKeepsKeyed(s, events[0]);
      LiveKeysKeep(Apply(s, events[0]), events[1..]);
    }
  }

  /** While idempotency keys live, however far the search lags and whenever payments settle,
      there is at most one payment, succeeded or not, per invoice and card. */
  lemma OnePaymentPerCard(s: State, events: seq<Event>, i: nat, j: nat)
    requires Fresh(s) && forall k | 0 <= k < |events| :: !events[k].Expire?
    requires var s' := After(s, events); i < |s'.intents| && j < |s'.intents| && KeyOf(s'.intents[i]) == KeyOf(s'.intents[j])
    ensures i == j
  {
    LiveKeysKeep(s, events);
    var s' := After(s, events);
    assert s'.keys[KeyOf(s'.intents[i])].index == i;
    assert s'.keys[KeyOf(s'.intents[j])].index == j;
  }

  // ---- and what it takes to pay twice ----

  lemma AfterTwo(s: State, a: Event, b: Event)
    ensures After(s, [a, b]) == Apply(Apply(s, a), b)
  {
    assert [a, b][1..] == [b] && [b][1..] == [];
    assert After(Apply(s, a), [b]) == After(Apply(Apply(s, a), b), []);
  }

  lemma AfterThree(s: State, a: Event, b: Event, c: Event)
    ensures After(s, [a, b, c]) == Apply(Apply(Apply(s, a), b), c)
  {
    assert [a, b, c][1..] == [b, c];
    AfterTwo(Apply(s, a), b, c);
  }

  ghost predicate PaidTwice(s: State, invoice: string) {
    IsSuccess(s, 0, invoice) && IsSuccess(s, 1, invoice)
  }

  /** A search that lags, and a card changed in between. */
  lemma ChangedCardCanPayTwice(s: State, invoice: string, card: string, other: string)
    requires Fresh(s) && invoice in s.invoices && s.invoices[invoice].amount > 0 && card != "" && other != "" && card != other
    ensures PaidTwice(After(s, [Collect(Attempt(invoice, None, card, Succeeds, false)), Collect(Attempt(invoice, None, other, Succeeds, false))]), invoice)
  {
    AfterTwo(s, Collect(Attempt(invoice, None, card, Succeeds, false)), Collect(Attempt(invoice, None, other, Succeeds, false)));
  }

  /** A search that lags, and a key that has expired. */
  lemma ExpiredKeyCanPayTwice(s: State, invoice: string, card: string)
    requires Fresh(s) && invoice in s.invoices && s.invoices[invoice].amount > 0 && card != ""
    ensures var a := Collect(Attempt(invoice, None, card, Succeeds, false));
            PaidTwice(After(s, [a, Expire(Key(invoice, card)), a]), invoice)
  {
    var a := Collect(Attempt(invoice, None, card, Succeeds, false));
    AfterThree(s, a, Expire(Key(invoice, card)), a);
  }

  /** A payment left open that settles after the next attempt has used another card: here the
      search shows every success and every key is live. */
  lemma LateSettlementCanPayTwice(s: State, invoice: string, card: string, other: string)
    requires Fresh(s) && invoice in s.invoices && s.invoices[invoice].amount > 0 && card != "" && other != "" && card != other
    ensures var a, b := Collect(Attempt(invoice, None, card, StaysOpen, true)), Collect(Attempt(invoice, None, other, Succeeds, true));
            && !HasSuccess(s, invoice) && !HasSuccess(Apply(s, a), invoice)
            && PaidTwice(After(s, [a, b, Settle(0)]), invoice)
  {
    var a, b := Collect(Attempt(invoice, None, card, StaysOpen, true)), Collect(Attempt(invoice, None, other, Succeeds, true));
    AfterThree(s, a, b, Settle(0));
  }

  // ---- the collection pass ----

  /** Every stored answer with a payment is of a payment of its key's invoice. */
  ghost predicate RepliesOk(s: State) {
    forall key {:trigger s.keys[key]} | key in s.keys && s.keys[key].IntentReply? :: IsIntent(s, s.keys[key].index, key.invoice)
  }

  /** An attempt gets a payment for an answer. */
  predicate Answered(s: State, a: Attempt, amount: int) {
    if a.found.Some? then IsSuccess(s, a.found.value, a.invoice)
    else
      && a.card != "" && amount > 0 && !a.outcome.RequestLost? && !a.outcome.AnswerLost?
      && (if Key(a.invoice, a.card) in s.keys then s.keys[Key(a.invoice, a.card)].IntentReply?
          else a.outcome.Succeeds? || a.outcome.StaysOpen?)
  }

  /** Attempts keep that, take no payment away, and an answer with a payment is of the invoice's own. */
  lemma AttemptKeepsReplies(s: State, a: Attempt)
    requires RepliesOk(s)
    ensures RepliesOk(Attempted(s, a)) && s.intents <= Attempted(s, a).intents
    ensures a.invoice in s.invoices && !s.invoices[a.invoice].paid && Answered(s, a, s.invoices[a.invoice].amount) ==>
            HasIntent(Attempted(s, a), a.invoice)
  {
    var s' := Attempted(s, a);
    if a.invoice in s.invoices && !s.invoices[a.invoice].paid && Answered(s, a, s.invoices[a.invoice].amount) {
      var (_, answer) := ChargeInvoice(s, a);
      assert answer.Charged?;
      if Key(a.invoice, a.card) in s.keys && a.found.None? {
        assert IsIntent(s, answer.index, a.invoice);
      }
      assert IsIntent(s', answer.index, a.invoice);
    }
  }

  /** From a fresh processor on, every stored answer is of a payment of its own invoice. */
  lemma {:induction false} RepliesStayOk(s: State, events: seq<Event>)
    requires RepliesOk(s)
    ensures RepliesOk(After(s, events))
    decreases events
  {
    if events != [] {
      if events[0].Collect? {
        AttemptKeepsReplies(s, events[0].attempt);
      }
      RepliesStayOk(Apply(s, events[0]), events[1..]);
    }
  }

  /** The state a pass finds at one of its items. */
  ghost function StateBefore(s: State, listed: seq<Unpaid>, attempts: seq<Attempt>, configured: bool, k: nat): State
    requires k <= |listed| == |attempts|
  {
    After(s, Events(listed[..k], attempts[..k], configured))
  }

  /** An unpaid invoice and whom to charge; no customer means it is paid by transfer. */
  datatype Unpaid = Unpaid(invoice: string, customer: string)

  /** A line of a pass's report. */
  datatype Line = Collected(invoice: string) | Skipped(invoice: string) | Failed(invoice: string)

  /** The attempts a pass makes, in order. */
  function Events(listed: seq<Unpaid>, attempts: seq<Attempt>, configured: bool): seq<Event>
    requires |listed| == |attempts|
  {
    if listed == [] then []
    else
      var n := |listed| - 1;
      Events(listed[..n], attempts[..n], configured) +
        if configured && listed[n].customer != "" then [Collect(attempts[n])] else []
  }

  lemma {:induction false} AfterAppend(s: State, events: seq<Event>, e: Event)
    ensures After(s, events + [e]) == Apply(After(s, events), e)
    decreases events
  {
    if events == [] {
      assert [] + [e] == [e] && [e][1..] == [];
      assert After(s, [e]) == After(Apply(s, e), []);
    } else {
      assert (events + [e])[1..] == events[1..] + [e];
      AfterAppend(Apply(s, events[0]), events[1..], e);
    }
  }

  lemma EventsStep(s: State, listed: seq<Unpaid>, attempts: seq<Attempt>, configured: bool, i: nat)
    requires |listed| == |attempts| && i < |listed|
    ensures var before := After(s, Events(listed[..i], attempts[..i], configured));
            After(s, Events(listed[..i + 1], attempts[..i + 1], configured)) ==
            if configured && listed[i].customer != "" then Attempted(before, attempts[i]) else before
  {
    assert listed[..i + 1][..i] == listed[..i] && attempts[..i + 1][..i] == attempts[..i];
    var events := Events(listed[..i], attempts[..i], configured);
    assert events + [] == events;
    AfterAppend(s, events, Collect(attempts[i]));
  }

  class PaymentCollector {
    var invoices: map<string, Invoice>
    var intents: seq<Intent>
    var keys: map<Key, Reply>

    function View(): State
      reads this
    {
      State(invoices, intents, keys)
    }

    /** The processor's side of a request under a key. */
    method Request(key: Key, amount: int, outcome: Outcome) returns (answer: Answer)
      requires key.invoice in invoices && invoices[key.invoice].amount == amount > 0 && key.card != ""
      modifies this`intents, this`keys
      ensures (View(), answer) == CreatePaymentIntent(old(View()), key.invoice, key.card, outcome)
    {
      if outcome.RequestLost? {
        return Refused;
      }
      if key in keys {
        if keys[key].IntentReply? && !outcome.AnswerLost? {
          return Charged(keys[key].index, keys[key].succeeded);
        }
        return Refused;
      }
      if outcome.Declines? {
        keys := keys[key := DeclineReply];
        return Refused;
      }
      var succeeded := outcome.Succeeds? || (outcome.AnswerLost? && outcome.succeeded);
      var index := |intents|;
      intents := intents + [Intent(key.invoice, key.card, amount, succeeded)];
      keys := keys[key := IntentReply(index, succeeded)];
      answer := if outcome.AnswerLost? then Refused else Charged(index, succeeded);
    }

    /** One attempt. A search that errs reports no payment and no absence of one either, and then
        nothing is charged. */
    method Charge(a: Attempt) returns (answer: Answer)
      requires a.invoice in invoices && !invoices[a.invoice].paid
      modifies this
      ensures invoices == old(invoices)
      ensures MayFind(old(View()), a) ==> (View(), answer) == ChargeInvoice(old(View()), a)
      ensures !MayFind(old(View()), a) ==> View() == old(View()) && answer == Refused
    {
      if a.found.Some? {
        if IsSuccess(View(), a.found.value, a.invoice) {
          return Charged(a.found.value, true);
        }
        return Refused;
      }
      if a.card == "" {
        return NoPaymentMethod;
      }
      var amount := invoices[a.invoice].amount;
      if amount <= 0 {
        return Refused;
      }
      answer := Request(Key(a.invoice, a.card), amount, a.outcome);
    }

    /** One attempt, and marking the invoice paid if it has a succeeded payment. */
    method CollectOne(a: Attempt) returns (answer: Answer, unmarked: bool)
      requires a.invoice in invoices && !invoices[a.invoice].paid
      modifies this
      ensures View() == Attempted(old(View()), a)
      ensures answer == if MayFind(old(View()), a) then ChargeInvoice(old(View()), a).1 else Refused
      ensures invoices.Keys == old(invoices).Keys
      ensures forall id | id in invoices && invoices[id] != old(invoices)[id] :: id == a.invoice && answer.Charged?
      ensures unmarked <==> answer.Charged? && answer.succeeded && !a.marks
      ensures unmarked ==> invoices == old(invoices)
    {
      unmarked := false;
      answer := Charge(a);
      if answer.Charged? && answer.succeeded {
        if a.marks {
          invoices := invoices[a.invoice := invoices[a.invoice].(paid := true)];
        } else {
          unmarked := true;
        }
      }
    }

    /** One listed invoice. */
    method CollectItem(item: Unpaid, a: Attempt, configured: bool) returns (line: Line, unmarked: bool)
      requires a.invoice == item.invoice && item.invoice in invoices && !invoices[item.invoice].paid
      modifies this
      ensures View() == if configured && item.customer != "" then Attempted(old(View()), a) else old(View())
      ensures invoices.Keys == old(invoices).Keys
      ensures forall id | id in invoices && invoices[id] != old(invoices)[id] :: id == item.invoice && line == Collected(id)
      ensures line.invoice == item.invoice && (unmarked ==> line.Collected? && !a.marks && !invoices[item.invoice].paid)
      ensures line.Skipped? <==> item.customer == "" || !configured || (a.found.None? && a.card == "")
      ensures line.Collected? <==>
              && item.customer != "" && configured
              && (if a.found.Some? then IsSuccess(old(View()), a.found.value, a.invoice)
                  else && a.card != "" && old(invoices)[a.invoice].amount > 0 && !a.outcome.RequestLost? && !a.outcome.AnswerLost?
                       && (if Key(a.invoice, a.card) in old(keys) then old(keys)[Key(a.invoice, a.card)].IntentReply?
                           else a.outcome.Succeeds? || a.outcome.StaysOpen?))
      ensures unmarked <==>
              && line.Collected? && !a.marks
              && (a.found.Some? || (if Key(a.invoice, a.card) in old(keys)
                                    then old(keys)[Key(a.invoice, a.card)].IntentReply? && old(keys)[Key(a.invoice, a.card)].succeeded
                                    else a.outcome.Succeeds?))
      ensures old(RepliesOk(View())) ==> RepliesOk(View()) && old(intents) <= intents && (line.Collected? ==> HasIntent(View(), item.invoice))
    {
      if RepliesOk(View()) {
        AttemptKeepsReplies(View(), a);
      }
      if item.customer == "" || !configured {
        return Skipped(item.invoice), false;
      }
      var answer;
      answer, unmarked := CollectOne(a);
      line := match answer
        case NoPaymentMethod => Skipped(item.invoice)
        case Refused => Line.Failed(item.invoice)
        case Charged(_, _) => Line.Collected(item.invoice);
    }

    /** Charges every listed invoice it can; one that fails does not stop the others. Returns the
        invoices with a payment, those passed over, those whose charge failed, and those paid for
        that could not be marked paid. */
    method CollectPayments(listed: seq<Unpaid>, attempts: seq<Attempt>, configured: bool)
      returns (collected: seq<string>, skipped: seq<string>, failed: seq<string>, unmarked: seq<string>)
      requires |listed| == |attempts| && forall i | 0 <= i < |listed| ::
        attempts[i].invoice == listed[i].invoice && listed[i].invoice in invoices && !invoices[listed[i].invoice].paid
      requires forall i, j | 0 <= i < j < |listed| :: listed[i].invoice != listed[j].invoice
      modifies this
      ensures View() == After(old(View()), Events(listed, attempts, configured))
      ensures |collected| + |skipped| + |failed| == |listed|
      ensures forall k | 0 <= k < |listed| ::
        listed[k].invoice in skipped <==> listed[k].customer == "" || !configured || (attempts[k].found.None? && attempts[k].card == "")
      ensures forall k | 0 <= k < |listed| ::
        listed[k].invoice in collected <==>
          && listed[k].customer != "" && configured
          && Answered(StateBefore(old(View()), listed, attempts, configured, k), attempts[k], old(invoices)[listed[k].invoice].amount)
      ensures forall k | 0 <= k < |listed| ::
        listed[k].invoice in failed <==> listed[k].invoice !in collected && listed[k].invoice !in skipped
      ensures old(RepliesOk(View())) ==> RepliesOk(View()) && forall id | id in collected :: HasIntent(View(), id)
      ensures forall k | 0 <= k < |listed| ::
        listed[k].invoice in unmarked <==>
          listed[k].invoice in collected && Unmarks(StateBefore(old(View()), listed, attempts, configured, k), attempts[k])
      ensures forall id | id in unmarked :: id in collected
      ensures invoices.Keys == old(invoices).Keys
      ensures forall id | id in invoices && invoices[id] != old(invoices)[id] :: id in collected
    {
      ghost var lines;
      collected, skipped, failed, unmarked, lines := CollectEach(listed, attempts, configured);
      assert listed[..|listed|] == listed && attempts[..|attempts|] == attempts;
      SortedOut(lines, listed, collected, skipped, failed);
    }

    method CollectEach(listed: seq<Unpaid>, attempts: seq<Attempt>, configured: bool)
      returns (collected: seq<string>, skipped: seq<string>, failed: seq<string>, unmarked: seq<string>, ghost lines: seq<Line>)
      requires |listed| == |attempts| && forall i | 0 <= i < |listed| ::
        attempts[i].invoice == listed[i].invoice && listed[i].invoice in invoices && !invoices[listed[i].invoice].paid
      requires forall i, j | 0 <= i < j < |listed| :: listed[i].invoice != listed[j].invoice
      modifies this
      ensures View() == StateBefore(old(View()), listed, attempts, configured, |listed|)
      ensures |lines| == |listed| && Sorts(lines, collected, skipped, failed) && AllReported(lines, old(View()), listed, attempts, configured)
      ensures UnmarkedAre(unmarked, lines, old(View()), listed, attempts, configured)
      ensures forall id | id in unmarked :: id in collected
      ensures invoices.Keys == old(invoices).Keys
      ensures forall id | id in invoices && invoices[id] != old(invoices)[id] :: id in collected
      ensures old(RepliesOk(View())) ==> RepliesOk(View()) && AllHave(View(), collected)
    {
      collected, skipped, failed, unmarked, lines := [], [], [], [], [];
      for i := 0 to |listed|
        invariant |lines| == i && Progress(old(View()), View(), listed, attempts, configured, lines, collected, skipped, failed, unmarked)
      {
        collected, skipped, failed, unmarked, lines :=
          CollectAt(listed, attempts, configured, i, collected, skipped, failed, unmarked, lines, old(View()));
      }
    }

    method CollectAt(listed: seq<Unpaid>, attempts: seq<Attempt>, configured: bool, i: nat, collected: seq<string>, skipped: seq<string>,
                     failed: seq<string>, unmarked: seq<string>, ghost lines: seq<Line>, ghost s0: State)
      returns (collected': seq<string>, skipped': seq<string>, failed': seq<string>, unmarked': seq<string>, ghost lines': seq<Line>)
      requires i < |listed| == |attempts| && forall i | 0 <= i < |listed| ::
        attempts[i].invoice == listed[i].invoice && listed[i].invoice in s0.invoices && !s0.invoices[listed[i].invoice].paid
      requires forall i, j | 0 <= i < j < |listed| :: listed[i].invoice != listed[j].invoice
      requires |lines| == i && Progress(s0, View(), listed, attempts, configured, lines, collected, skipped, failed, unmarked)
      modifies this
      ensures |lines'| == i + 1
      ensures Progress(s0, View(), listed, attempts, configured, lines', collected', skipped', failed', unmarked')
    {
      ghost var before := View();
      EventsStep(s0, listed, attempts, configured, i);
      ghost var line;
      collected', skipped', failed', unmarked', line := CollectInto(listed[i], attempts[i], configured, collected, skipped, failed, unmarked, lines);
      OneMoreUnmarked(unmarked, unmarked', lines, line, s0, listed, attempts, configured, before);
      OneMoreReported(lines, line, s0, listed, attempts, configured, before);
      lines' := lines + [line];
    }

    /** One listed invoice, put in its list. */
    method CollectInto(item: Unpaid, a: Attempt, configured: bool, collected: seq<string>, skipped: seq<string>, failed: seq<string>,
                       unmarked: seq<string>, ghost lines: seq<Line>)
      returns (collected': seq<string>, skipped': seq<string>, failed': seq<string>, unmarked': seq<string>, ghost line: Line)
      requires a.invoice == item.invoice && item.invoice in invoices && !invoices[item.invoice].paid
      requires Sorts(lines, collected, skipped, failed) && forall id | id in unmarked :: id in collected
      modifies this
      ensures View() == if configured && item.customer != "" then Attempted(old(View()), a) else old(View())
      ensures invoices.Keys == old(invoices).Keys && forall id | id in collected :: id in collected'
      ensures forall id | id in invoices && invoices[id] != old(invoices)[id] :: id == item.invoice && id in collected'
      ensures ReportedAs(line, old(View()), item, a, configured, old(invoices)[item.invoice].amount)
      ensures Sorts(lines + [line], collected', skipped', failed') && forall id | id in unmarked' :: id in collected'
      ensures unmarked' == (if line.Collected? && Unmarks(old(View()), a) then unmarked + [item.invoice] else unmarked)
      ensures old(RepliesOk(View())) && old(AllHave(View(), collected)) ==> RepliesOk(View()) && AllHave(View(), collected')
    {
      ghost var before := View();
      var reported, left := CollectItem(item, a, configured);
      line := reported;
      assert left <==> line.Collected? && Unmarks(before, a);
      if RepliesOk(before) && AllHave(before, collected) {
        IntentsStay(before, View(), collected);
      }
      SortsOne(lines, collected, skipped, failed, line);
      collected', skipped', failed', unmarked' := collected, skipped, failed, unmarked;
      match reported {
        case Collected(id) => collected' := collected + [id];
        case Skipped(id) => skipped' := skipped + [id];
        case Failed(id) => failed' := failed + [id];
      }
      if left {
        unmarked' := unmarked + [item.invoice];
      }
    }
  }

  // ---- which list an invoice is in ----

  /** What a line says of its item. */
  ghost predicate ReportedAs(line: Line, s: State, item: Unpaid, a: Attempt, configured: bool, amount: int) {
    && line.invoice == item.invoice
    && (line.Skipped? <==> item.customer == "" || !configured || (a.found.None? && a.card == ""))
    && (line.Collected? <==> item.customer != "" && configured && Answered(s, a, amount))
  }

  /** Each line so far, of the state its item was met in. */
  ghost predicate AllReported(lines: seq<Line>, s: State, listed: seq<Unpaid>, attempts: seq<Attempt>, configured: bool)
    requires |lines| <= |listed| == |attempts|
  {
    forall k | 0 <= k < |lines| :: listed[k].invoice in s.invoices &&
      ReportedAs(lines[k], StateBefore(s, listed, attempts, configured, k), listed[k], attempts[k], configured, s.invoices[listed[k].invoice].amount)
  }

  lemma OneMoreReported(lines: seq<Line>, line: Line, s: State, listed: seq<Unpaid>, attempts: seq<Attempt>, configured: bool, before: State)
    requires |lines| < |listed| == |attempts| && AllReported(lines, s, listed, attempts, configured)
    requires var k := |lines|;
             && before == StateBefore(s, listed, attempts, configured, k) && listed[k].invoice in s.invoices
             && ReportedAs(line, before, listed[k], attempts[k], configured, s.invoices[listed[k].invoice].amount)
    ensures AllReported(lines + [line], s, listed, attempts, configured)
  {
  }

  /** An answer with a succeeded payment, and marking that fails. */
  predicate Unmarks(s: State, a: Attempt) {
    && !a.marks
    && (a.found.Some? || (if Key(a.invoice, a.card) in s.keys
                          then s.keys[Key(a.invoice, a.card)].IntentReply? && s.keys[Key(a.invoice, a.card)].succeeded
                          else a.outcome.Succeeds?))
  }

  ghost predicate UnmarkedAre(unmarked: seq<string>, lines: seq<Line>, s: State, listed: seq<Unpaid>, attempts: seq<Attempt>, configured: bool)
    requires |lines| <= |listed| == |attempts|
  {
    && (forall id | id in unmarked :: exists k :: 0 <= k < |lines| && listed[k].invoice == id)
    && (forall k | 0 <= k < |lines| ::
          listed[k].invoice in unmarked <==> lines[k].Collected? && Unmarks(StateBefore(s, listed, attempts, configured, k), attempts[k]))
  }

  lemma OneMoreUnmarked(unmarked: seq<string>, unmarked': seq<string>, lines: seq<Line>, line: Line, s: State,
                        listed: seq<Unpaid>, attempts: seq<Attempt>, configured: bool, before: State)
    requires |lines| < |listed| == |attempts| && UnmarkedAre(unmarked, lines, s, listed, attempts, configured)
    requires forall i, j | 0 <= i < j < |listed| :: listed[i].invoice != listed[j].invoice
    requires before == StateBefore(s, listed, attempts, configured, |lines|)
    requires unmarked' == if line.Collected? && Unmarks(before, attempts[|lines|]) then unmarked + [listed[|lines|].invoice] else unmarked
    ensures UnmarkedAre(unmarked', lines + [line], s, listed, attempts, configured)
  {
    var n := |lines|;
    forall k | 0 <= k < n
      ensures listed[k].invoice in unmarked' <==> listed[k].invoice in unmarked
    {
    }
    assert listed[n].invoice !in unmarked;
  }

  /** What a pass has done and reported so far. */
  ghost predicate Progress(s0: State, s: State, listed: seq<Unpaid>, attempts: seq<Attempt>, configured: bool, lines: seq<Line>,
                           collected: seq<string>, skipped: seq<string>, failed: seq<string>, unmarked: seq<string>)
    requires |lines| <= |listed| == |attempts|
  {
    && s == StateBefore(s0, listed, attempts, configured, |lines|)
    && Sorts(lines, collected, skipped, failed) && AllReported(lines, s0, listed, attempts, configured)
    && UnmarkedAre(unmarked, lines, s0, listed, attempts, configured) && (forall id | id in unmarked :: id in collected)
    && s.invoices.Keys == s0.invoices.Keys
    && (forall k | |lines| <= k < |listed| && listed[k].invoice in s.invoices :: s.invoices[listed[k].invoice] == s0.invoices[listed[k].invoice])
    && (forall id | id in s.invoices && s.invoices[id] != s0.invoices[id] :: id in collected)
    && (RepliesOk(s0) ==> RepliesOk(s) && AllHave(s, collected))
  }

  ghost predicate AllHave(s: State, ids: seq<string>) {
    forall id | id in ids :: HasIntent(s, id)
  }

  /** The lines, each in the list of its kind. */
  ghost predicate Sorts(lines: seq<Line>, collected: seq<string>, skipped: seq<string>, failed: seq<string>) {
    && |collected| + |skipped| + |failed| == |lines|
    && (forall id :: id in collected <==> exists k :: 0 <= k < |lines| && lines[k] == Line.Collected(id))
    && (forall id :: id in skipped <==> exists k :: 0 <= k < |lines| && lines[k] == Line.Skipped(id))
    && (forall id :: id in failed <==> exists k :: 0 <= k < |lines| && lines[k] == Line.Failed(id))
  }

  lemma OneMoreOf(lines: seq<Line>, line: Line, x: Line)
    ensures (exists k :: 0 <= k < |lines + [line]| && (lines + [line])[k] == x) <==> x == line || exists k :: 0 <= k < |lines| && lines[k] == x
  {
    if x == line {
      assert (lines + [line])[|lines|] == x;
    } else if k :| 0 <= k < |lines| && lines[k] == x {
      assert (lines + [line])[k] == x;
    }
  }

  lemma SortsOne(lines: seq<Line>, collected: seq<string>, skipped: seq<string>, failed: seq<string>, line: Line)
    requires Sorts(lines, collected, skipped, failed)
    ensures Sorts(lines + [line],
                  if line.Collected? then collected + [line.invoice] else collected,
                  if line.Skipped? then skipped + [line.invoice] else skipped,
                  if line.Failed? then failed + [line.invoice] else failed)
  {
    forall id
      ensures (exists k :: 0 <= k < |lines + [line]| && (lines + [line])[k] == Line.Collected(id))
              <==> Line.Collected(id) == line || exists k :: 0 <= k < |lines| && lines[k] == Line.Collected(id)
      ensures (exists k :: 0 <= k < |lines + [line]| && (lines + [line])[k] == Line.Skipped(id))
              <==> Line.Skipped(id) == line || exists k :: 0 <= k < |lines| && lines[k] == Line.Skipped(id)
      ensures (exists k :: 0 <= k < |lines + [line]| && (lines + [line])[k] == Line.Failed(id))
              <==> Line.Failed(id) == line || exists k :: 0 <= k < |lines| && lines[k] == Line.Failed(id)
    {
      OneMoreOf(lines, line, Line.Collected(id));
      OneMoreOf(lines, line, Line.Skipped(id));
      OneMoreOf(lines, line, Line.Failed(id));
    }
  }

  /** With every invoice listed once, the list it is in says what its line is. */
  lemma SortedOut(lines: seq<Line>, listed: seq<Unpaid>, collected: seq<string>, skipped: seq<string>, failed: seq<string>)
    requires Sorts(lines, collected, skipped, failed) && |lines| == |listed|
    requires forall k | 0 <= k < |lines| :: lines[k].invoice == listed[k].invoice
    requires forall i, j | 0 <= i < j < |listed| :: listed[i].invoice != listed[j].invoice
    ensures forall k | 0 <= k < |listed| :: listed[k].invoice in collected <==> lines[k].Collected?
    ensures forall k | 0 <= k < |listed| :: listed[k].invoice in skipped <==> lines[k].Skipped?
    ensures forall k | 0 <= k < |listed| :: listed[k].invoice in failed <==> lines[k].Failed?
  {
    assert forall k, j | 0 <= k < |listed| && 0 <= j < |listed| && lines[j].invoice == listed[k].invoice :: j == k;
    forall k | 0 <= k < |listed|
      ensures listed[k].invoice in collected <==> lines[k].Collected?
      ensures listed[k].invoice in skipped <==> lines[k].Skipped?
      ensures listed[k].invoice in failed <==> lines[k].Failed?
    {
      var id := listed[k].invoice;
      assert lines[k] == Line.Collected(id) || lines[k] == Line.Skipped(id) || lines[k] == Line.Failed(id);
    }
  }

  lemma IntentsStay(s: State, s': State, ids: seq<string>)
    requires s.intents <= s'.intents && AllHave(s, ids)
    ensures AllHave(s', ids)
  {
    forall id | id in ids
      ensures HasIntent(s', id)
    {
      var i: nat :| IsIntent(s, i, id);
      assert IsIntent(s', i, id);
    }
  }
}
