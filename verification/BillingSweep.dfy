/**
 The invoicing of one subscription (services/billing/schedule.go, usage.go): billing runs read
 the subscription, raise the invoice of the period they find stored, and move the stored period
 on from the one they read. A run can die between any two of these; runs can overlap.
 */
module BillingSweep {
  import opened BillingCalendar

  datatype Plan = Plan(name: string, cycle: Cycle, price: int, signingLimit: int, keyLimit: int,
                       overageSigningCents: int, overageKeyCents: int)

  /** A signing request or a key, and whether it counts: completed, or not failed. */
  datatype Work = Signature(created: Instant, counts: bool) | NewKey(created: Instant, counts: bool)

  datatype Usage = Usage(signings: nat, keys: nat)

  datatype LineItem = LineItem(description: string, quantity: int, unitPrice: int, amount: int)

  /** A billing period: from `start` up to but not including `end`. */
  datatype Period = Period(start: Instant, end: Instant) {
    predicate Contains(t: Instant) {
      !t.Before(start) && t.Before(end)
    }
  }

  /** An invoice; `created` is when it was worked out. */
  datatype Invoice = Invoice(period: Period, usage: Usage, amount: int, created: Instant) {
    /** Whether its period was over by then. */
    predicate InArrears() {
      !created.Before(period.end)
    }
  }

  // ---- usage and price ----

  predicate IsCounted(w: Work, p: Period) {
    w.counts && p.Contains(w.created)
  }

  /** Counts the work created in a period. */
  function CountUsage(work: seq<Work>, p: Period): Usage {
    if work == [] then Usage(0, 0)
    else
      var front, last := CountUsage(work[..|work| - 1], p), work[|work| - 1];
      if !IsCounted(last, p) then front
      else if last.Signature? then front.(signings := front.signings + 1)
      else front.(keys := front.keys + 1)
  }

  /** A place in the record of work. */
  datatype Place = Place(index: int)

  /** Where the record has work of one kind that counts and was created from the start of a period
      up to but not including its end. */
  ghost function Counted(work: seq<Work>, start: Instant, end: Instant, signatures: bool): set<Place> {
    set i | 0 <= i < |work| && work[i].Signature? == signatures && work[i].counts
            && !work[i].created.Before(start) && work[i].created.Before(end) :: Place(i)
  }

  predicate IsAmong(w: Work, start: Instant, end: Instant, signatures: bool) {
    w.Signature? == signatures && w.counts && !w.created.Before(start) && w.created.Before(end)
  }

  lemma CountedLast(work: seq<Work>, start: Instant, end: Instant, signatures: bool)
    requires work != []
    ensures var n := |work| - 1;
            |Counted(work, start, end, signatures)| ==
            |Counted(work[..n], start, end, signatures)| + if IsAmong(work[n], start, end, signatures) then 1 else 0
  {
    var n := |work| - 1;
    var front, all := Counted(work[..n], start, end, signatures), Counted(work, start, end, signatures);
    forall x
      ensures x in all <==> x in front || (x == Place(n) && IsAmong(work[n], start, end, signatures))
    {
      if 0 <= x.index < n {
        assert work[..n][x.index] == work[x.index];
      }
    }
    assert Place(n) !in front;
    assert all == if IsAmong(work[n], start, end, signatures) then front + {Place(n)} else front;
  }

  /** The usage of a period is how many such signatures and keys there are. */
  lemma {:induction false} CountUsageIs(work: seq<Work>, p: Period)
    ensures CountUsage(work, p) == Usage(|Counted(work, p.start, p.end, true)|, |Counted(work, p.start, p.end, false)|)
  {
    if work != [] {
      CountUsageIs(work[..|work| - 1], p);
      CountedLast(work, p.start, p.end, true);
      CountedLast(work, p.start, p.end, false);
    }
  }

  method CountWork(work: seq<Work>, p: Period) returns (u: Usage)
    ensures u == CountUsage(work, p)
    ensures u == Usage(|Counted(work, p.start, p.end, true)|, |Counted(work, p.start, p.end, false)|)
  {
    CountUsageIs(work, p);
    u := Usage(0, 0);
    for i := 0 to |work|
      invariant u == CountUsage(work[..i], p)
    {
      assert work[..i + 1][..i] == work[..i];
      if IsCounted(work[i], p) {
        match work[i]
        case Signature(_, _) => u := u.(signings := u.signings + 1);
        case NewKey(_, _) => u := u.(keys := u.keys + 1);
      }
    }
    assert work[..|work|] == work;
  }

  /** What usage beyond an allowance costs; no rate, no charge. */
  function Overage(used: int, limit: int, rate: int): int {
    if used > limit && rate > 0 then (used - limit) * rate else 0
  }

  /** Nothing is charged within the allowance or without a rate, and beyond the allowance each unit
      costs the rate. */
  lemma OverageIs(used: int, limit: int, rate: int)
    ensures used <= limit || rate <= 0 ==> Overage(used, limit, rate) == 0
    ensures used >= limit && rate > 0 ==> Overage(used + 1, limit, rate) == Overage(used, limit, rate) + rate
  {
    if used >= limit && rate > 0 {
      assert (used + 1 - limit) * rate == (used - limit) * rate + rate;
    }
  }

  /** An invoice is the price, and so many units beyond each allowance at its own rate. */
  lemma {:induction false} ChargeIs(plan: Plan, signings: nat, keys: nat, u: Usage)
    requires u.signings == signings && u.keys == keys
    ensures var overSignings := if plan.overageSigningCents > 0 && signings > plan.signingLimit then signings - plan.signingLimit else 0;
            var overKeys := if plan.overageKeyCents > 0 && keys > plan.keyLimit then keys - plan.keyLimit else 0;
            Charge(plan, u) == plan.price + overSignings * plan.overageSigningCents + overKeys * plan.overageKeyCents
  {
  }

  function Charge(plan: Plan, u: Usage): int {
    plan.price + Overage(u.signings, plan.signingLimit, plan.overageSigningCents) + Overage(u.keys, plan.keyLimit, plan.overageKeyCents)
  }

  function Sum(items: seq<LineItem>): int {
    if items == [] then 0 else Sum(items[..|items| - 1]) + items[|items| - 1].amount
  }

  lemma SumAppend(items: seq<LineItem>, item: LineItem)
    ensures Sum(items + [item]) == Sum(items) + item.amount
  {
    assert (items + [item])[..|items|] == items;
  }

  /** The lines of an invoice: the base price, and a line for each kind of overage there is. */
  method InvoiceLineItems(plan: Plan, u: Usage) returns (items: seq<LineItem>)
    ensures Sum(items) == Charge(plan, u)
    ensures 1 <= |items| && items[0] == LineItem(plan.name, 1, plan.price, plan.price)
    ensures var signings := u.signings > plan.signingLimit && plan.overageSigningCents > 0;
            var keys := u.keys > plan.keyLimit && plan.overageKeyCents > 0;
            && |items| == 1 + (if signings then 1 else 0) + (if keys then 1 else 0)
            && (signings ==> items[1].quantity == u.signings - plan.signingLimit && items[1].unitPrice == plan.overageSigningCents)
            && (keys ==> items[|items| - 1].quantity == u.keys - plan.keyLimit && items[|items| - 1].unitPrice == plan.overageKeyCents)
    ensures |items| == 1 + (if Overage(u.signings, plan.signingLimit, plan.overageSigningCents) > 0 then 1 else 0)
                         + (if Overage(u.keys, plan.keyLimit, plan.overageKeyCents) > 0 then 1 else 0)
    ensures forall i | 0 <= i < |items| :: items[i].amount == items[i].quantity * items[i].unitPrice
    ensures forall i | 0 < i < |items| :: items[i].quantity > 0 && items[i].unitPrice > 0
  {
    items := [LineItem(plan.name, 1, plan.price, plan.price)];
    assert Sum(items) == plan.price by { SumAppend([], items[0]); assert [] + [items[0]] == items; }
    var over := u.signings - plan.signingLimit;
    if over > 0 && plan.overageSigningCents > 0 {
      var item := LineItem("Signatures beyond those included", over, plan.overageSigningCents, over * plan.overageSigningCents);
      SumAppend(items, item);
      Positive(over, plan.overageSigningCents);
      items := items + [item];
    }
    over := u.keys - plan.keyLimit;
    if over > 0 && plan.overageKeyCents > 0 {
      var item := LineItem("Keys beyond those included", over, plan.overageKeyCents, over * plan.overageKeyCents);
      SumAppend(items, item);
      Positive(over, plan.overageKeyCents);
      items := items + [item];
    }
  }

  lemma Positive(a: int, b: int)
    requires a > 0 && b > 0
    ensures a * b > 0
  {
  }

  method TotalOf(items: seq<LineItem>) returns (total: int)
    ensures total == Sum(items)
  {
    total := 0;
    for i := 0 to |items|
      invariant total == Sum(items[..i])
    {
      assert items[..i + 1][..i] == items[..i];
      total := total + items[i].amount;
    }
    assert items[..|items|] == items;
  }

  // ---- the subscription and its runs ----

  /** What the boundaries between a subscription's periods follow from: when it began, the end
      of a first period, and the end of a later one. */
  datatype Terms = Terms(first: Instant, month: Instant -> Instant, next: Instant -> Instant)

  ghost predicate Advancing(t: Terms) {
    (forall i: Instant :: i.Before(t.month(i))) && (forall i: Instant :: i.Before(t.next(i)))
  }

  /** The first period is a month, whatever the plan's cycle. */
  ghost function TermsFor(cycle: Cycle, first: Instant): Terms {
    Terms(first, t => NextPeriodEnd(t, Monthly), t => NextPeriodEnd(t, cycle))
  }

  lemma TermsAdvance(cycle: Cycle, first: Instant)
    ensures Advancing(TermsFor(cycle, first))
  {
    forall i: Instant ensures i.Before(NextPeriodEnd(i, Monthly)) && i.Before(NextPeriodEnd(i, cycle)) {
      PeriodsAdvance(i, Monthly);
      PeriodsAdvance(i, cycle);
    }
  }

  /** How far a run has got: it has read the subscription, worked out an invoice it has yet to
      insert, or seen to the invoice. */
  datatype Stage = Read | Measured(invoice: Invoice) | Invoiced

  /** A billing run at work on the subscription: the period it read, and how far it has got. */
  datatype Run = Run(read: Period, stage: Stage)

  /** A subscription. `invoices` is keyed as the unique index is, by the start of the period. */
  datatype Subscription = Subscription(terms: Terms, plan: Plan, active: bool, period: Period,
                                       invoices: map<Instant, Invoice>, work: seq<Work>, now: Instant, runs: map<string, Run>)

  datatype Event =
    | Tick(now: Instant)
    | Record(w: Work)
    | Begin(run: string)
    | Measure(run: string)
    | Insert(run: string)
    | Advance(run: string)
    | Die(run: string)

  ghost function Subscribed(plan: Plan, now: Instant): Subscription {
    var t := TermsFor(plan.cycle, now);
    Subscription(t, plan, true, Period(now, t.month(now)), map[], [], now, map[])
  }

  ghost function InvoiceFor(s: Subscription): Invoice {
    var u := CountUsage(s.work, s.period);
    Invoice(s.period, u, Charge(s.plan, u), s.now)
  }

  /** Reads the stored period again and works out its invoice, unless there is one for that start. */
  ghost function AfterMeasure(s: Subscription): Stage {
    if s.period.start in s.invoices then Invoiced else Measured(InvoiceFor(s))
  }

  /** Inserts an invoice; the index refuses a second one for the start of a period. */
  ghost function Inserted(s: Subscription, inv: Invoice): Subscription {
    if inv.period.start in s.invoices then s else s.(invoices := s.invoices[inv.period.start := inv])
  }

  /** Moves the stored period on from the one the run read. */
  ghost function Advanced(s: Subscription, read: Period): Subscription {
    s.(period := Period(read.end, s.terms.next(read.end)))
  }

  predicate IsDue(s: Subscription) {
    s.active && !s.now.Before(s.period.end)
  }

  /** Whether an invoice had been worked out over work of that age. */
  predicate Settles(inv: Invoice, w: Work) {
    inv.period.Contains(w.created) && w.created.Before(inv.created)
  }

  /** Statuses of work are final when an invoice is worked out over it. Work created later is
      always recorded, whatever has been invoiced by then. */
  predicate MayRecord(s: Subscription, w: Work) {
    && (forall t | t in s.invoices :: !Settles(s.invoices[t], w))
    && (forall run | run in s.runs && s.runs[run].stage.Measured? :: !Settles(s.runs[run].stage.invoice, w))
  }

  ghost function Apply(s: Subscription, e: Event): Subscription {
    match e
    case Tick(now) => if s.now.Before(now) then s.(now := now) else s
    case Record(w) => if MayRecord(s, w) then s.(work := s.work + [w]) else s
    case Begin(run) => if run !in s.runs && IsDue(s) then s.(runs := s.runs[run := Run(s.period, Read)]) else s
    case Measure(run) =>
      if run in s.runs && s.runs[run].stage.Read?
      then s.(runs := s.runs[run := s.runs[run].(stage := AfterMeasure(s))])
      else s
    case Insert(run) =>
      if run in s.runs && s.runs[run].stage.Measured?
      then Inserted(s, s.runs[run].stage.invoice).(runs := s.runs[run := s.runs[run].(stage := Invoiced)])
      else s
    case Advance(run) =>
      if run in s.runs && s.runs[run].stage.Invoiced?
      then Advanced(s, s.runs[run].read).(runs := s.runs - {run})
      else s
    case Die(run) => s.(runs := s.runs - {run})
  }

  ghost function After(s: Subscription, events: seq<Event>): Subscription
    decreases events
  {
    if events == [] then s else After(Apply(s, events[0]), events[1..])
  }

  // ---- the chain of periods ----

  /** A subscription's first period is a month; each later one follows at once and is one cycle long. */
  lemma PeriodsFollowTheCycle(cycle: Cycle, first: Instant, k: nat)
    ensures PeriodAt(TermsFor(cycle, first), 0) == Period(first, NextPeriodEnd(first, Monthly))
    ensures var p, next := PeriodAt(TermsFor(cycle, first), k), PeriodAt(TermsFor(cycle, first), k + 1);
            next == Period(p.end, NextPeriodEnd(p.end, cycle))
  {
  }

  ghost function Boundary(t: Terms, k: nat): Instant {
    if k == 0 then t.first
    else if k == 1 then t.month(t.first)
    else t.next(Boundary(t, k - 1))
  }

  ghost function PeriodAt(t: Terms, k: nat): Period {
    Period(Boundary(t, k), Boundary(t, k + 1))
  }

  lemma {:induction false} BoundariesIncrease(t: Terms, j: nat, k: nat)
    requires Advancing(t) && j < k
    ensures Boundary(t, j).Before(Boundary(t, k))
  {
    assert Boundary(t, k - 1).Before(Boundary(t, k));
    if j < k - 1 {
      BoundariesIncrease(t, j, k - 1);
    }
  }

  lemma BoundariesDistinct(t: Terms, j: nat, k: nat)
    requires Advancing(t) && Boundary(t, j) == Boundary(t, k)
    ensures j == k
  {
    if j < k {
      BoundariesIncrease(t, j, k);
    } else if k < j {
      BoundariesIncrease(t, k, j);
    }
  }

  lemma BoundariesOrdered(t: Terms, j: nat, k: nat)
    requires Advancing(t) && j <= k
    ensures !Boundary(t, k).Before(Boundary(t, j))
  {
    if j < k {
      BoundariesIncrease(t, j, k);
    }
  }

  /** No two periods of the chain share an instant. */
  lemma PeriodsDisjoint(t: Terms, j: nat, k: nat, at: Instant)
    requires Advancing(t) && PeriodAt(t, j).Contains(at) && PeriodAt(t, k).Contains(at)
    ensures j == k
  {
    if j < k {
      BoundariesOrdered(t, j + 1, k);
    } else if k < j {
      BoundariesOrdered(t, k + 1, j);
    }
  }
}
