/**
 The billing run itself (services/billing/schedule.go, usage.go), over the stored subscriptions
 of all customers, and that what it does to each is one of the event sequences of `BillingSweep`.
 */
module BillingServices {
  import opened Wrappers
  import opened BillingCalendar
  import opened BillingSweep
  import opened BillingTheorems

  /** A stored subscription, with its invoices and its customer's work. */
  datatype Row = Row(plan: Plan, active: bool, period: Period, invoices: map<Instant, Invoice>, work: seq<Work>)

  /** What goes wrong with one subscription in a run. */
  datatype Fault = NoFault | PlanMissing | InvoiceFails | AdvanceFails

  datatype BilledLine = BilledLine(subscription: string, amount: int, period: Period)

  predicate RowDue(row: Row, now: Instant) {
    row.active && !now.Before(row.period.end)
  }

  ghost function WithInvoice(row: Row, now: Instant): Row {
    if row.period.start in row.invoices then row
    else
      var u := CountUsage(row.work, row.period);
      row.(invoices := row.invoices[row.period.start := Invoice(row.period, u, Charge(row.plan, u), now)])
  }

  ghost function MovedOn(row: Row): Row {
    row.(period := Period(row.period.end, NextPeriodEnd(row.period.end, row.plan.cycle)))
  }

  /** A due subscription after its turn in a run. */
  ghost function RowAfter(row: Row, fault: Fault, now: Instant): Row {
    match fault
    case PlanMissing => row
    case InvoiceFails => row
    case AdvanceFails => WithInvoice(row, now)
    case NoFault => MovedOn(WithInvoice(row, now))
  }

  /** A turn raises the invoice of the stored period if the period has none, for the work of that
      period, and moves on to the next period only after that; invoices there were stay. */
  lemma TurnIs(row: Row, fault: Fault, now: Instant)
    ensures var r, start := RowAfter(row, fault, now), row.period.start;
            && r.plan == row.plan && r.active == row.active && r.work == row.work
            && r.period == (if fault.NoFault? then Period(row.period.end, NextPeriodEnd(row.period.end, row.plan.cycle)) else row.period)
            && r.invoices.Keys == row.invoices.Keys + (if fault.NoFault? || fault.AdvanceFails? then {start} else {})
            && (forall t | t in row.invoices :: r.invoices[t] == row.invoices[t])
            && (start in r.invoices && start !in row.invoices ==>
                  && r.invoices[start].period == row.period && r.invoices[start].created == now
                  && r.invoices[start].usage == Usage(|Counted(row.work, start, row.period.end, true)|, |Counted(row.work, start, row.period.end, false)|)
                  && r.invoices[start].amount == Charge(row.plan, r.invoices[start].usage))
  {
    CountUsageIs(row.work, row.period);
  }

  function FaultOf(faults: map<string, Fault>, id: string): Fault {
    if id in faults then faults[id] else NoFault
  }

  /** The lines of the run's report, and the subscriptions it lists as failed. */
  ghost function Lines(rows: map<string, Row>, done: seq<string>, faults: map<string, Fault>, now: Instant): seq<BilledLine>
    requires forall i | 0 <= i < |done| :: done[i] in rows
  {
    if done == [] then []
    else
      var front, id := done[..|done| - 1], done[|done| - 1];
      Lines(rows, front, faults, now) + if FaultOf(faults, id).NoFault?
        then [BilledLine(id, WithInvoice(rows[id], now).invoices[rows[id].period.start].amount, rows[id].period)] else []
  }

  function Failures(done: seq<string>, faults: map<string, Fault>): seq<string> {
    if done == [] then []
    else
      var front, id := done[..|done| - 1], done[|done| - 1];
      Failures(front, faults) + if FaultOf(faults, id).NoFault? then [] else [id]
  }

  /** Stored subscriptions, by when their period ends. */
  ghost predicate InOrder(rows: map<string, Row>, ids: seq<string>) {
    && (forall i | 0 <= i < |ids| :: ids[i] in rows)
    && (forall i, j | 0 <= i < j < |ids| :: !rows[ids[j]].period.end.Before(rows[ids[i]].period.end))
  }

  /** The subscriptions after a run has had its turn with each of `done`. */
  ghost function AfterAll(rows: map<string, Row>, done: seq<string>, faults: map<string, Fault>, now: Instant): (r: map<string, Row>)
    requires forall i | 0 <= i < |done| :: done[i] in rows
    ensures r.Keys == rows.Keys
  {
    if done == [] then rows
    else
      var front, id := AfterAll(rows, done[..|done| - 1], faults, now), done[|done| - 1];
      front[id := RowAfter(front[id], FaultOf(faults, id), now)]
  }

  /** Each of them has had one turn, and the others none. */
  lemma {:induction false} AfterAllIs(rows: map<string, Row>, done: seq<string>, faults: map<string, Fault>, now: Instant, id: string)
    requires (forall i | 0 <= i < |done| :: done[i] in rows) && Distinct(done) && id in rows
    ensures AfterAll(rows, done, faults, now)[id] == if id in done then RowAfter(rows[id], FaultOf(faults, id), now) else rows[id]
  {
    if done != [] {
      var front, last := done[..|done| - 1], done[|done| - 1];
      AfterAllIs(rows, front, faults, now, id);
      assert done == front + [last];
    }
  }

  ghost predicate AllIn(ids: seq<string>, rows: map<string, Row>) {
    forall i | 0 <= i < |ids| :: ids[i] in rows
  }

  /** What one more turn adds. */
  lemma OneMore(rows: map<string, Row>, done: seq<string>, id: string, faults: map<string, Fault>, now: Instant)
    requires AllIn(done + [id], rows) && Distinct(done + [id])
    ensures AllIn(done, rows) && id in rows
    ensures var before := AfterAll(rows, done, faults, now);
            before[id] == rows[id] && AfterAll(rows, done + [id], faults, now) == before[id := RowAfter(rows[id], FaultOf(faults, id), now)]
    ensures Lines(rows, done + [id], faults, now) == Lines(rows, done, faults, now) + if FaultOf(faults, id).NoFault?
        then [BilledLine(id, WithInvoice(rows[id], now).invoices[rows[id].period.start].amount, rows[id].period)] else []
    ensures Failures(done + [id], faults) == Failures(done, faults) + if FaultOf(faults, id).NoFault? then [] else [id]
  {
    var all := done + [id];
    assert all[..|all| - 1] == done && all[|done|] == id;
    forall i | 0 <= i < |done| ensures done[i] in rows && done[i] != id {
      assert all[i] == done[i];
    }
    AfterAllIs(rows, done, faults, now, id);
  }

  lemma NextDue(rows: map<string, Row>, due: seq<string>, k: nat)
    requires k < |due| && Distinct(due) && InOrder(rows, due)
    ensures due[..k + 1] == due[..k] + [due[k]]
    ensures AllIn(due[..k] + [due[k]], rows) && Distinct(due[..k] + [due[k]])
  {
    var s := due[..k] + [due[k]];
    assert s == due[..k + 1];
    forall i | 0 <= i < |s| ensures s[i] == due[i] {
    }
  }

  function WithInserted(ids: seq<string>, k: nat, id: string): seq<string>
    requires k <= |ids|
  {
    ids[..k] + [id] + ids[k..]
  }

  lemma InsertedMembers(ids: seq<string>, k: nat, id: string)
    requires k <= |ids| && id !in ids && Distinct(ids)
    ensures var r := WithInserted(ids, k, id); Distinct(r) && forall x :: x in r <==> x == id || x in ids
  {
    var r := WithInserted(ids, k, id);
    forall i | 0 <= i < |r| ensures r[i] == if i < k then ids[i] else if i == k then id else ids[i - 1] {
    }
    forall x ensures x in r <==> x == id || x in ids {
      assert ids == ids[..k] + ids[k..];
    }
  }

  lemma InsertedOrder(rows: map<string, Row>, ids: seq<string>, k: nat, id: string)
    requires k <= |ids| && id in rows && InOrder(rows, ids)
    requires forall i | 0 <= i < k :: !rows[id].period.end.Before(rows[ids[i]].period.end)
    requires forall i | k <= i < |ids| :: !rows[ids[i]].period.end.Before(rows[id].period.end)
    ensures InOrder(rows, WithInserted(ids, k, id))
  {
    var r := WithInserted(ids, k, id);
    forall i | 0 <= i < |r| ensures r[i] == if i < k then ids[i] else if i == k then id else ids[i - 1] {
    }
  }

  class BillingService {
    var rows: map<string, Row>

    constructor (stored: map<string, Row>)
      ensures rows == stored
    {
      rows := stored;
    }

    /** The subscriptions whose period has ended, the longest ended first. */
    method SubscriptionsDueForBilling(now: Instant) returns (due: seq<string>)
      ensures forall id :: id in due <==> id in rows && rows[id].active && !now.Before(rows[id].period.end)
      ensures Distinct(due) && InOrder(rows, due)
    {
      due := [];
      var rest := rows.Keys;
      while rest != {}
        invariant rest <= rows.Keys
        invariant forall id :: id in due <==> id in rows && id !in rest && RowDue(rows[id], now)
        invariant Distinct(due) && InOrder(rows, due)
        decreases |rest|
      {
        var id :| id in rest;
        rest := rest - {id};
        if RowDue(rows[id], now) {
          due := InsertDue(due, id);
        }
      }
    }

    method InsertDue(ids: seq<string>, id: string) returns (r: seq<string>)
      requires id in rows && id !in ids && Distinct(ids) && InOrder(rows, ids)
      ensures (forall x :: x in r <==> x == id || x in ids) && Distinct(r) && InOrder(rows, r)
    {
      var k := |ids|;
      while k > 0 && rows[id].period.end.Before(rows[ids[k - 1]].period.end)
        invariant 0 <= k <= |ids|
        invariant forall i | k <= i < |ids| :: !rows[ids[i]].period.end.Before(rows[id].period.end)
      {
        k := k - 1;
      }
      InsertedMembers(ids, k, id);
      InsertedOrder(rows, ids, k, id);
      r := WithInserted(ids, k, id);
    }

    method GenerateInvoice(id: string, now: Instant) returns (invoice: Invoice)
      requires id in rows
      modifies this
      ensures rows == old(rows)[id := WithInvoice(old(rows)[id], now)]
      ensures rows[id].period == old(rows)[id].period && rows[id].plan == old(rows)[id].plan
      ensures rows[id].period.start in rows[id].invoices && invoice == rows[id].invoices[rows[id].period.start]
    {
      var row := rows[id];
      if row.period.start in row.invoices {
        invoice := row.invoices[row.period.start];
        assert rows == rows[id := row];
        return;
      }
      var usage := CountWork(row.work, row.period);
      var items := InvoiceLineItems(row.plan, usage);
      var total := TotalOf(items);
      invoice := Invoice(row.period, usage, total, now);
      rows := rows[id := row.(invoices := row.invoices[row.period.start := invoice])];
    }

    /** One subscription's turn. */
    method BillOne(id: string, fault: Fault, now: Instant) returns (line: seq<BilledLine>)
      requires id in rows
      modifies this
      ensures rows == old(rows)[id := RowAfter(old(rows)[id], fault, now)]
      ensures line == if fault.NoFault?
        then [BilledLine(id, WithInvoice(old(rows)[id], now).invoices[old(rows)[id].period.start].amount, old(rows)[id].period)] else []
    {
      var subscription := rows[id];
      line := [];
      if fault.PlanMissing? || fault.InvoiceFails? {
        assert rows == rows[id := subscription];
        return;
      }
      var invoice := GenerateInvoice(id, now);
      if fault.AdvanceFails? {
        return;
      }
      var nextStart := subscription.period.end;
      var nextEnd := PeriodEnd(nextStart, subscription.plan.cycle);
      rows := rows[id := rows[id].(period := Period(nextStart, nextEnd))];
      line := [BilledLine(id, invoice.amount, subscription.period)];
    }

    /** A billing run, cut short after `limit` subscriptions; one that fails does not stop the
        others. A run that dies between an invoice and moving the period on leaves what
        `AdvanceFails` leaves. */
    method RunBilling(now: Instant, faults: map<string, Fault>, limit: nat)
      returns (due: seq<string>, done: nat, invoiced: seq<BilledLine>, failed: seq<string>)
      modifies this
      ensures forall id :: id in due <==> id in old(rows) && RowDue(old(rows)[id], now)
      ensures Distinct(due) && InOrder(old(rows), due) && done == if limit < |due| then limit else |due|
      ensures rows == AfterAll(old(rows), due[..done], faults, now)
      ensures invoiced == Lines(old(rows), due[..done], faults, now) && failed == Failures(due[..done], faults)
    {
      due := SubscriptionsDueForBilling(now);
      done, invoiced, failed := 0, [], [];
      while done < |due| && done < limit
        invariant 0 <= done <= |due| && done <= limit
        invariant rows == AfterAll(old(rows), due[..done], faults, now)
        invariant invoiced == Lines(old(rows), due[..done], faults, now) && failed == Failures(due[..done], faults)
      {
        var id := due[done];
        NextDue(old(rows), due, done);
        OneMore(old(rows), due[..done], id, faults, now);
        var line := BillOne(id, FaultOf(faults, id), now);
        invoiced := invoiced + line;
        if line == [] {
          failed := failed + [id];
        }
        done := done + 1;
      }
    }
  }

  /** Every subscription a run has had its turn with is in its report once: billed or failed. */
  lemma {:induction false} ReportsEach(rows: map<string, Row>, done: seq<string>, faults: map<string, Fault>, now: Instant)
    requires forall i | 0 <= i < |done| :: done[i] in rows
    ensures |Lines(rows, done, faults, now)| + |Failures(done, faults)| == |done|
    ensures forall id :: id in Failures(done, faults) <==> id in done && id in faults && !faults[id].NoFault?
    ensures forall line | line in Lines(rows, done, faults, now) ::
      var id := line.subscription;
      && id in done && (id !in faults || faults[id].NoFault?) && line.period == rows[id].period
      && rows[id].period.start in RowAfter(rows[id], NoFault, now).invoices
      && line.amount == RowAfter(rows[id], NoFault, now).invoices[rows[id].period.start].amount
    ensures forall id | id in done && (id !in faults || faults[id].NoFault?) ::
      exists line :: line in Lines(rows, done, faults, now) && line.subscription == id
  {
    if done != [] {
      var n := |done| - 1;
      ReportsEach(rows, done[..n], faults, now);
      assert done == done[..n] + [done[n]];
      LineKept(rows, done, faults, now);
    }
  }

  lemma LineKept(rows: map<string, Row>, done: seq<string>, faults: map<string, Fault>, now: Instant)
    requires done != [] && forall i | 0 <= i < |done| :: done[i] in rows
    ensures forall line | line in Lines(rows, done[..|done| - 1], faults, now) :: line in Lines(rows, done, faults, now)
    ensures FaultOf(faults, done[|done| - 1]).NoFault? ==>
      exists line :: line in Lines(rows, done, faults, now) && line.subscription == done[|done| - 1]
  {
    var lines := Lines(rows, done, faults, now);
    if FaultOf(faults, done[|done| - 1]).NoFault? {
      assert lines[|lines| - 1] in lines && lines[|lines| - 1].subscription == done[|done| - 1];
    }
  }

  /** The report is in the order of the turns: what comes first in the run comes first in it. */
  lemma {:induction false} FailuresInOrder(a: seq<string>, b: seq<string>, faults: map<string, Fault>)
    ensures Failures(a + b, faults) == Failures(a, faults) + Failures(b, faults)
  {
    if b == [] {
      assert a + b == a;
    } else {
      var n := |b| - 1;
      assert (a + b)[..|a + b| - 1] == a + b[..n];
      FailuresInOrder(a, b[..n], faults);
    }
  }

  lemma {:induction false} LinesInOrder(rows: map<string, Row>, a: seq<string>, b: seq<string>, faults: map<string, Fault>, now: Instant)
    requires AllIn(a, rows) && AllIn(b, rows)
    ensures AllIn(a + b, rows) && Lines(rows, a + b, faults, now) == Lines(rows, a, faults, now) + Lines(rows, b, faults, now)
  {
    if b == [] {
      assert a + b == a;
    } else {
      var n := |b| - 1;
      assert (a + b)[..|a + b| - 1] == a + b[..n];
      LinesInOrder(rows, a, b[..n], faults, now);
    }
  }

  // ---- what a run is, in terms of events ----

  /** A stored subscription is a state of its history with no run at work. */
  ghost predicate Stores(row: Row, s: Subscription) {
    && row.plan == s.plan && row.active == s.active && row.period == s.period && row.invoices == s.invoices && row.work == s.work
    && s.terms == TermsFor(s.plan.cycle, s.terms.first) && s.runs == map[]
  }

  /** The events of one subscription's turn. */
  function Turn(fault: Fault): seq<Event> {
    match fault
    case PlanMissing => [Begin("")] + ([Die("")] + [])
    case InvoiceFails => [Begin("")] + ([Measure("")] + ([Die("")] + []))
    case AdvanceFails => [Begin("")] + ([Measure("")] + ([Insert("")] + ([Die("")] + [])))
    case NoFault => [Begin("")] + ([Measure("")] + ([Insert("")] + ([Advance("")] + [])))
  }

  lemma TwoEvents(s: Subscription, a: Event, b: Event)
    requires s.runs == map[] && !b.Begin?
    ensures Serial(s, [a] + ([b] + [])) && After(s, [a] + ([b] + [])) == Apply(Apply(s, a), b)
  {
    SerialStep(Apply(s, a), b, []);
    SerialStep(s, a, [b] + []);
  }

  lemma ThreeEvents(s: Subscription, a: Event, b: Event, c: Event)
    requires s.runs == map[] && !b.Begin? && !c.Begin?
    ensures Serial(s, [a] + ([b] + ([c] + []))) && After(s, [a] + ([b] + ([c] + []))) == Apply(Apply(Apply(s, a), b), c)
  {
    SerialStep(Apply(Apply(s, a), b), c, []);
    SerialStep(Apply(s, a), b, [c] + []);
    SerialStep(s, a, [b] + ([c] + []));
  }

  lemma FourEvents(s: Subscription, a: Event, b: Event, c: Event, d: Event)
    requires s.runs == map[] && !b.Begin? && !c.Begin? && !d.Begin?
    ensures var events := [a] + ([b] + ([c] + ([d] + [])));
            Serial(s, events) && After(s, events) == Apply(Apply(Apply(Apply(s, a), b), c), d)
  {
    var s1 := Apply(s, a);
    var s2 := Apply(s1, b);
    SerialStep(Apply(s2, c), d, []);
    SerialStep(s2, c, [d] + []);
    SerialStep(s1, b, [c] + ([d] + []));
    SerialStep(s, a, [b] + ([c] + ([d] + [])));
  }

  /** The subscription with just this run at work, at some stage. */
  ghost function Running(s: Subscription, stage: Stage): Subscription {
    s.(runs := map["" := Run(s.period, stage)])
  }

  lemma Reading(row: Row, s: Subscription)
    requires Stores(row, s) && RowDue(row, s.now)
    ensures Apply(s, Begin("")) == Running(s, Read)
    ensures Apply(Running(s, Read), Measure("")) == Running(s, AfterMeasure(s))
    ensures forall stage :: Stores(row, Apply(Running(s, stage), Die("")))
  {
    assert (map["" := Run(s.period, Read)])["" := Run(s.period, AfterMeasure(s))] == map["" := Run(s.period, AfterMeasure(s))];
    forall stage ensures Stores(row, Apply(Running(s, stage), Die(""))) {
      assert Running(s, stage).runs - {""} == map[];
    }
  }

  lemma Inserting(row: Row, s: Subscription) returns (s': Subscription)
    requires Stores(row, s)
    ensures Stores(WithInvoice(row, s.now), s') && s'.period == s.period
    ensures Apply(Running(s, AfterMeasure(s)), Insert("")) == Running(s', Invoiced)
  {
    s' := if s.period.start in s.invoices then s else Inserted(s, InvoiceFor(s));
    assert (map["" := Run(s.period, AfterMeasure(s))])["" := Run(s.period, Invoiced)] == map["" := Run(s.period, Invoiced)];
  }

  lemma Moving(row: Row, s: Subscription)
    requires Stores(row, s)
    ensures Stores(MovedOn(row), Apply(Running(s, Invoiced), Advance(""))) && Stores(row, Apply(Running(s, Invoiced), Die("")))
  {
    assert Running(s, Invoiced).runs - {""} == map[];
  }

  /** A subscription's turn in a run, complete or cut short anywhere, is a non-overlapping
      sequence of the events the theorems on billing speak of. */
  lemma TurnIsSerial(row: Row, s: Subscription, fault: Fault)
    requires Stores(row, s) && RowDue(row, s.now)
    ensures Serial(s, Turn(fault)) && Stores(RowAfter(row, fault, s.now), After(s, Turn(fault)))
  {
    Reading(row, s);
    match fault
    case PlanMissing => TwoEvents(s, Begin(""), Die(""));
    case InvoiceFails => ThreeEvents(s, Begin(""), Measure(""), Die(""));
    case AdvanceFails =>
      var s' := Inserting(row, s);
      Moving(WithInvoice(row, s.now), s');
      FourEvents(s, Begin(""), Measure(""), Insert(""), Die(""));
    case NoFault =>
      var s' := Inserting(row, s);
      Moving(WithInvoice(row, s.now), s');
      FourEvents(s, Begin(""), Measure(""), Insert(""), Advance(""));
  }
}
