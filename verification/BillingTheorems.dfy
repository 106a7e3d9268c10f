/** What the invoicing of a subscription keeps, over every run of it. */
module BillingTheorems {
  import opened BillingCalendar
  import opened BillingSweep

  // ---- whatever overlaps ----

  ghost predicate OnChain(t: Terms, p: Period) {
    exists k: nat :: p == PeriodAt(t, k)
  }

  predicate AtMost(a: Usage, b: Usage) {
    a.signings <= b.signings && a.keys <= b.keys
  }

  /** An invoice charges for its own period, nothing that was not done, and all that was if the
      period was over when it was worked out. */
  ghost predicate InvoiceOk(s: Subscription, start: Instant, inv: Invoice) {
    && inv.period.start == start && OnChain(s.terms, inv.period) && !s.now.Before(inv.created)
    && inv.amount == Charge(s.plan, inv.usage) && AtMost(inv.usage, CountUsage(s.work, inv.period))
    && (inv.InArrears() ==> inv.usage == CountUsage(s.work, inv.period))
  }

  ghost predicate RunReadOk(s: Subscription, r: Run) {
    OnChain(s.terms, r.read) && (r.stage.Measured? ==> InvoiceOk(s, r.stage.invoice.period.start, r.stage.invoice))
  }

  ghost predicate Inv(s: Subscription) {
    && Advancing(s.terms)
    && OnChain(s.terms, s.period)
    && (forall run {:trigger s.runs[run]} | run in s.runs :: RunReadOk(s, s.runs[run]))
    && (forall start {:trigger s.invoices[start]} | start in s.invoices :: InvoiceOk(s, start, s.invoices[start]))
  }

  lemma NextOnChain(t: Terms, p: Period)
    requires OnChain(t, p)
    ensures OnChain(t, Period(p.end, t.next(p.end)))
  {
    var k: nat :| p == PeriodAt(t, k);
    assert Period(p.end, t.next(p.end)) == PeriodAt(t, k + 1);
  }

  lemma UncountedOutside(work: seq<Work>, w: Work, p: Period)
    requires !p.Contains(w.created)
    ensures CountUsage(work + [w], p) == CountUsage(work, p)
  {
    assert (work + [w])[..|work|] == work;
  }

  lemma CountGrows(work: seq<Work>, w: Work, p: Period)
    ensures AtMost(CountUsage(work, p), CountUsage(work + [w], p))
  {
    assert (work + [w])[..|work|] == work;
  }

  lemma RecordLeaves(s: Subscription, w: Work, inv: Invoice)
    requires InvoiceOk(s, inv.period.start, inv) && !Settles(inv, w)
    ensures InvoiceOk(s.(work := s.work + [w]), inv.period.start, inv)
  {
    CountGrows(s.work, w, inv.period);
    if inv.InArrears() {
      UncountedOutside(s.work, w, inv.period);
    }
  }

  lemma RecordKeeps(s: Subscription, w: Work)
    requires Inv(s) && MayRecord(s, w)
    ensures Inv(s.(work := s.work + [w]))
  {
    var s' := s.(work := s.work + [w]);
    forall start | start in s.invoices ensures InvoiceOk(s', start, s.invoices[start]) {
      assert InvoiceOk(s, start, s.invoices[start]);
      RecordLeaves(s, w, s.invoices[start]);
    }
    forall run | run in s.runs ensures RunReadOk(s', s.runs[run]) {
      assert RunReadOk(s, s.runs[run]);
      if s.runs[run].stage.Measured? {
        RecordLeaves(s, w, s.runs[run].stage.invoice);
      }
    }
  }

  /** What is known of invoices and runs depends on the terms, the plan, the work and the time alone. */
  lemma RunStillOk(s: Subscription, s': Subscription, r: Run)
    requires RunReadOk(s, r) && s'.terms == s.terms && s'.plan == s.plan && s'.work == s.work && !s'.now.Before(s.now)
    ensures RunReadOk(s', r)
  {
  }

  lemma RunsKeep(s: Subscription, runs: map<string, Run>)
    requires Inv(s) && forall run {:trigger runs[run]} | run in runs :: RunReadOk(s, runs[run])
    ensures Inv(s.(runs := runs))
  {
    var s' := s.(runs := runs);
    forall run | run in runs ensures RunReadOk(s', runs[run]) {
      RunStillOk(s, s', runs[run]);
    }
    forall start | start in s'.invoices ensures InvoiceOk(s', start, s'.invoices[start]) {
      assert InvoiceOk(s, start, s.invoices[start]);
    }
  }

  lemma InsertKeeps(s: Subscription, inv: Invoice)
    requires Inv(s) && InvoiceOk(s, inv.period.start, inv)
    ensures Inv(Inserted(s, inv))
  {
    var s' := Inserted(s, inv);
    forall run | run in s.runs ensures RunReadOk(s', s.runs[run]) {
      RunStillOk(s, s', s.runs[run]);
    }
    forall start | start in s'.invoices ensures InvoiceOk(s', start, s'.invoices[start]) {
      assert start in s.invoices ==> InvoiceOk(s, start, s.invoices[start]);
    }
  }

  lemma AdvanceKeeps(s: Subscription, read: Period)
    requires Inv(s) && OnChain(s.terms, read)
    ensures Inv(Advanced(s, read))
  {
    var s' := Advanced(s, read);
    NextOnChain(s.terms, read);
    forall run | run in s.runs ensures RunReadOk(s', s.runs[run]) {
      RunStillOk(s, s', s.runs[run]);
    }
    forall start | start in s'.invoices ensures InvoiceOk(s', start, s'.invoices[start]) {
      assert InvoiceOk(s, start, s.invoices[start]);
    }
  }

  lemma TickKeeps(s: Subscription, now: Instant)
    requires Inv(s) && s.now.Before(now)
    ensures Inv(s.(now := now))
  {
    var s' := s.(now := now);
    forall run | run in s.runs ensures RunReadOk(s', s.runs[run]) {
      RunStillOk(s, s', s.runs[run]);
    }
    forall start | start in s'.invoices ensures InvoiceOk(s', start, s'.invoices[start]) {
      assert InvoiceOk(s, start, s.invoices[start]);
    }
  }

  lemma MeasureKeeps(s: Subscription, run: string)
    requires Inv(s) && run in s.runs
    ensures Inv(s.(runs := s.runs[run := s.runs[run].(stage := AfterMeasure(s))]))
  {
    assert RunReadOk(s, s.runs[run]);
    RunsKeep(s, s.runs[run := s.runs[run].(stage := AfterMeasure(s))]);
  }

  lemma RunInserts(s: Subscription, run: string)
    requires Inv(s) && run in s.runs && s.runs[run].stage.Measured?
    ensures Inv(Apply(s, Insert(run)))
  {
    assert RunReadOk(s, s.runs[run]);
    var s' := Inserted(s, s.runs[run].stage.invoice);
    InsertKeeps(s, s.runs[run].stage.invoice);
    assert RunReadOk(s', s'.runs[run]);
    RunsKeep(s', s'.runs[run := s'.runs[run].(stage := Invoiced)]);
  }

  lemma RunAdvanceKeeps(s: Subscription, run: string)
    requires Inv(s) && run in s.runs && s.runs[run].stage.Invoiced?
    ensures Inv(Apply(s, Advance(run)))
  {
    assert RunReadOk(s, s.runs[run]);
    var s' := Advanced(s, s.runs[run].read);
    AdvanceKeeps(s, s.runs[run].read);
    RunsKeep(s', s'.runs - {run});
  }

  lemma ApplyKeeps(s: Subscription, e: Event)
    requires Inv(s)
    ensures Inv(Apply(s, e)) && Apply(s, e).terms == s.terms && Apply(s, e).plan == s.plan
  {
    match e
    case Tick(now) =>
      if s.now.Before(now) {
        TickKeeps(s, now);
      }
    case Record(w) =>
      if MayRecord(s, w) {
        RecordKeeps(s, w);
      }
    case Begin(run) =>
      RunsKeep(s, s.runs[run := Run(s.period, Read)]);
    case Measure(run) =>
      if run in s.runs {
        MeasureKeeps(s, run);
      }
    case Insert(run) =>
      if run in s.runs && s.runs[run].stage.Measured? {
        RunInserts(s, run);
      }
    case Advance(run) =>
      if run in s.runs && s.runs[run].stage.Invoiced? {
        RunAdvanceKeeps(s, run);
      }
    case Die(run) =>
      RunsKeep(s, s.runs - {run});
  }

  lemma {:induction false} AfterKeeps(s: Subscription, events: seq<Event>)
    requires Inv(s)
    ensures Inv(After(s, events)) && After(s, events).terms == s.terms && After(s, events).plan == s.plan
    decreases events
  {
    if events != [] {
      ApplyKeeps(s, events[0]);
      AfterKeeps(Apply(s, events[0]), events[1..]);
    }
  }

  lemma SubscribedInv(plan: Plan, now: Instant)
    ensures Inv(Subscribed(plan, now))
  {
    var s := Subscribed(plan, now);
    TermsAdvance(plan.cycle, now);
    assert s.period == PeriodAt(s.terms, 0);
  }

  /** However billing runs overlap and die, no instant is covered by two invoices, and none
      charges for work that was not done. One worked out after its period charges for all of it. */
  lemma NeverBilledTwice(plan: Plan, now: Instant, events: seq<Event>, a: Instant, b: Instant, at: Instant)
    requires var s := After(Subscribed(plan, now), events);
             && a in s.invoices && b in s.invoices
             && s.invoices[a].period.Contains(at) && s.invoices[b].period.Contains(at)
    ensures a == b
    ensures var s := After(Subscribed(plan, now), events);
            var inv := s.invoices[a];
            && inv.amount == Charge(plan, inv.usage) && AtMost(inv.usage, CountUsage(s.work, inv.period))
            && (inv.InArrears() ==> inv.usage == CountUsage(s.work, inv.period))
  {
    var s := After(Subscribed(plan, now), events);
    SubscribedInv(plan, now);
    AfterKeeps(Subscribed(plan, now), events);
    assert InvoiceOk(s, a, s.invoices[a]) && InvoiceOk(s, b, s.invoices[b]);
    var j: nat :| s.invoices[a].period == PeriodAt(s.terms, j);
    var k: nat :| s.invoices[b].period == PeriodAt(s.terms, k);
    PeriodsDisjoint(s.terms, j, k, at);
  }

  // ---- as long as no run finds the period moved ----

  /** Every run that works out an invoice finds the period it read. */
  ghost predicate Steady(s: Subscription, events: seq<Event>)
    decreases events
  {
    events != [] ==>
      && (events[0].Measure? && events[0].run in s.runs && s.runs[events[0].run].stage.Read? ==> s.runs[events[0].run].read == s.period)
      && Steady(Apply(s, events[0]), events[1..])
  }

  /** The first k periods are invoiced. */
  ghost predicate Covered(s: Subscription, k: nat) {
    forall j: nat {:trigger Boundary(s.terms, j)} | j < k :: Boundary(s.terms, j) in s.invoices
  }

  ghost predicate CoveredTo(s: Subscription, p: Period) {
    forall k: nat {:trigger PeriodAt(s.terms, k)} | p == PeriodAt(s.terms, k) :: Covered(s, k)
  }

  ghost predicate Past(s: Subscription, p: Period) {
    !s.now.Before(p.end)
  }

  ghost predicate RunOk(s: Subscription, r: Run) {
    && CoveredTo(s, r.read) && Past(s, r.read)
    && (r.stage.Measured? ==> r.stage.invoice.period == r.read && r.stage.invoice.InArrears())
    && (r.stage.Invoiced? ==> r.read.start in s.invoices)
  }

  ghost predicate Gapless(s: Subscription) {
    && Inv(s)
    && CoveredTo(s, s.period)
    && (forall run {:trigger s.runs[run]} | run in s.runs :: RunOk(s, s.runs[run]))
    && (forall start {:trigger s.invoices[start]} | start in s.invoices :: s.invoices[start].InArrears())
  }

  lemma CoveredAt(s: Subscription, k: nat)
    requires Advancing(s.terms) && Covered(s, k)
    ensures CoveredTo(s, PeriodAt(s.terms, k))
  {
    forall j: nat | PeriodAt(s.terms, j) == PeriodAt(s.terms, k) ensures Covered(s, j) {
      BoundariesDistinct(s.terms, j, k);
    }
  }

  lemma NextCovered(s: Subscription, k: nat)
    requires Advancing(s.terms) && Covered(s, k) && PeriodAt(s.terms, k).start in s.invoices
    ensures CoveredTo(s, PeriodAt(s.terms, k + 1))
  {
    CoveredAt(s, k + 1);
  }

  /** More invoices and a later time leave what is covered covered. */
  lemma MoreCovered(s: Subscription, s': Subscription, p: Period)
    requires CoveredTo(s, p) && s'.terms == s.terms && s.invoices.Keys <= s'.invoices.Keys
    ensures CoveredTo(s', p)
  {
    forall k: nat | p == PeriodAt(s'.terms, k) ensures Covered(s', k) {
      assert Covered(s, k);
    }
  }

  lemma MoreOk(s: Subscription, s': Subscription, r: Run)
    requires RunOk(s, r) && s'.terms == s.terms && s.invoices.Keys <= s'.invoices.Keys && !s'.now.Before(s.now)
    ensures RunOk(s', r)
  {
    MoreCovered(s, s', r.read);
  }

  /** What a step that only adds invoices, work and time has to see to. */
  lemma StillGapless(s: Subscription, s': Subscription)
    requires Gapless(s) && Inv(s') && s'.terms == s.terms && s'.period == s.period && s'.runs == s.runs
    requires s.invoices.Keys <= s'.invoices.Keys && !s'.now.Before(s.now)
    requires forall start {:trigger s'.invoices[start]} | start in s'.invoices :: s'.invoices[start].InArrears()
    ensures Gapless(s')
  {
    MoreCovered(s, s', s.period);
    forall run | run in s'.runs ensures RunOk(s', s'.runs[run]) {
      assert RunOk(s, s.runs[run]);
      MoreOk(s, s', s.runs[run]);
    }
  }

  lemma RunsGapless(s: Subscription, runs: map<string, Run>)
    requires Gapless(s)
    requires forall run {:trigger runs[run]} | run in runs :: RunReadOk(s, runs[run]) && RunOk(s, runs[run])
    ensures Gapless(s.(runs := runs))
  {
    var s' := s.(runs := runs);
    RunsKeep(s, runs);
    MoreCovered(s, s', s.period);
    forall run | run in runs ensures RunOk(s', runs[run]) {
      MoreOk(s, s', runs[run]);
    }
  }

  lemma OneRunGapless(s: Subscription, run: string, r: Run)
    requires Gapless(s) && RunReadOk(s, r) && RunOk(s, r)
    ensures Gapless(s.(runs := s.runs[run := r]))
  {
    var runs := s.runs[run := r];
    forall other | other in runs ensures RunReadOk(s, runs[other]) && RunOk(s, runs[other]) {
      if other != run {
        assert RunReadOk(s, s.runs[other]) && RunOk(s, s.runs[other]);
      }
    }
    RunsGapless(s, runs);
  }

  lemma FewerRuns(s: Subscription, run: string)
    requires Gapless(s)
    ensures Gapless(s.(runs := s.runs - {run}))
  {
    var runs := s.runs - {run};
    forall other | other in runs ensures RunReadOk(s, runs[other]) && RunOk(s, runs[other]) {
      assert RunReadOk(s, s.runs[other]) && RunOk(s, s.runs[other]);
    }
    RunsGapless(s, runs);
  }

  lemma TickGapless(s: Subscription, now: Instant)
    requires Gapless(s) && s.now.Before(now)
    ensures Gapless(s.(now := now))
  {
    TickKeeps(s, now);
    StillGapless(s, s.(now := now));
  }

  lemma RecordGapless(s: Subscription, w: Work)
    requires Gapless(s) && MayRecord(s, w)
    ensures Gapless(s.(work := s.work + [w]))
  {
    RecordKeeps(s, w);
    StillGapless(s, s.(work := s.work + [w]));
  }

  lemma BeginGapless(s: Subscription, run: string)
    requires Gapless(s) && IsDue(s)
    ensures Gapless(s.(runs := s.runs[run := Run(s.period, Read)]))
  {
    OneRunGapless(s, run, Run(s.period, Read));
  }

  lemma MeasureGapless(s: Subscription, run: string)
    requires Gapless(s) && run in s.runs && s.runs[run].read == s.period
    ensures Gapless(s.(runs := s.runs[run := s.runs[run].(stage := AfterMeasure(s))]))
  {
    assert RunReadOk(s, s.runs[run]) && RunOk(s, s.runs[run]);
    OneRunGapless(s, run, s.runs[run].(stage := AfterMeasure(s)));
  }

  lemma InsertedGapless(s: Subscription, inv: Invoice)
    requires Gapless(s) && InvoiceOk(s, inv.period.start, inv) && inv.InArrears()
    ensures Gapless(Inserted(s, inv)) && inv.period.start in Inserted(s, inv).invoices
  {
    InsertKeeps(s, inv);
    StillGapless(s, Inserted(s, inv));
  }

  lemma InsertGapless(s: Subscription, run: string)
    requires Gapless(s) && run in s.runs && s.runs[run].stage.Measured?
    ensures Gapless(Apply(s, Insert(run)))
  {
    var r := s.runs[run];
    var s' := Inserted(s, r.stage.invoice);
    assert RunReadOk(s, r) && RunOk(s, r);
    InsertedGapless(s, r.stage.invoice);
    assert RunReadOk(s', s'.runs[run]) && RunOk(s', s'.runs[run]);
    OneRunGapless(s', run, r.(stage := Invoiced));
  }

  lemma AdvancedGapless(s: Subscription, read: Period)
    requires Gapless(s) && OnChain(s.terms, read) && CoveredTo(s, read) && read.start in s.invoices
    ensures Gapless(Advanced(s, read))
  {
    var s' := Advanced(s, read);
    AdvanceKeeps(s, read);
    var k: nat :| read == PeriodAt(s.terms, k);
    assert Covered(s, k);
    NextCovered(s, k);
    assert s'.period == PeriodAt(s.terms, k + 1);
    MoreCovered(s, s', s'.period);
    forall run | run in s.runs ensures RunOk(s', s.runs[run]) {
      assert RunOk(s, s.runs[run]);
      MoreOk(s, s', s.runs[run]);
    }
  }

  lemma AdvanceIs(s: Subscription, run: string)
    requires run in s.runs && s.runs[run].stage.Invoiced?
    ensures var moved := Advanced(s, s.runs[run].read); Apply(s, Advance(run)) == moved.(runs := moved.runs - {run})
  {
  }

  lemma AdvanceGapless(s: Subscription, run: string)
    requires Gapless(s) && run in s.runs && s.runs[run].stage.Invoiced?
    ensures Gapless(Apply(s, Advance(run)))
  {
    var read := s.runs[run].read;
    assert RunReadOk(s, s.runs[run]) && RunOk(s, s.runs[run]);
    AdvancedGapless(s, read);
    FewerRuns(Advanced(s, read), run);
    AdvanceIs(s, run);
  }

  lemma ApplyGapless(s: Subscription, e: Event)
    requires Gapless(s) && Steady(s, [e])
    ensures Gapless(Apply(s, e))
  {
    match e
    case Tick(now) =>
      if s.now.Before(now) {
        TickGapless(s, now);
      }
    case Record(w) =>
      if MayRecord(s, w) {
        RecordGapless(s, w);
      }
    case Begin(run) =>
      if IsDue(s) {
        BeginGapless(s, run);
      }
    case Measure(run) =>
      if run in s.runs && s.runs[run].stage.Read? {
        MeasureGapless(s, run);
      }
    case Insert(run) =>
      if run in s.runs && s.runs[run].stage.Measured? {
        InsertGapless(s, run);
      }
    case Advance(run) =>
      if run in s.runs && s.runs[run].stage.Invoiced? {
        AdvanceGapless(s, run);
      }
    case Die(run) =>
      FewerRuns(s, run);
  }

  lemma {:induction false} SteadyGapless(s: Subscription, events: seq<Event>)
    requires Gapless(s) && Steady(s, events)
    ensures Gapless(After(s, events)) && After(s, events).terms == s.terms
    decreases events
  {
    if events != [] {
      assert Steady(s, [events[0]]);
      ApplyKeeps(s, events[0]);
      ApplyGapless(s, events[0]);
      SteadyGapless(Apply(s, events[0]), events[1..]);
    }
  }

  lemma SubscribedGapless(plan: Plan, now: Instant)
    ensures Gapless(Subscribed(plan, now))
  {
    var s := Subscribed(plan, now);
    SubscribedInv(plan, now);
    assert s.period == PeriodAt(s.terms, 0);
    CoveredAt(s, 0);
  }

  /** Billing runs may overlap and die anywhere: as long as each finds the period it read when
      it works out its invoice, every period the subscription has moved past is invoiced, and only
      periods that are over are. */
  lemma SteadyRunsSkipNothing(plan: Plan, now: Instant, events: seq<Event>) returns (k: nat)
    requires Steady(Subscribed(plan, now), events)
    ensures var s := After(Subscribed(plan, now), events);
            && s.period == PeriodAt(TermsFor(plan.cycle, now), k)
            && (forall j: nat | j < k :: Boundary(TermsFor(plan.cycle, now), j) in s.invoices)
            && (forall start | start in s.invoices :: s.invoices[start].InArrears())
  {
    var s := After(Subscribed(plan, now), events);
    SubscribedGapless(plan, now);
    SteadyGapless(Subscribed(plan, now), events);
    k :| s.period == PeriodAt(s.terms, k);
    assert Covered(s, k);
  }

  // ---- usage ----

  function Plus(a: Usage, b: Usage): Usage {
    Usage(a.signings + b.signings, a.keys + b.keys)
  }

  /** Counting over two periods that meet is counting over both together. */
  lemma {:induction false} UsageAdds(work: seq<Work>, a: Instant, b: Instant, c: Instant)
    requires !b.Before(a) && !c.Before(b)
    ensures Plus(CountUsage(work, Period(a, b)), CountUsage(work, Period(b, c))) == CountUsage(work, Period(a, c))
  {
    if work != [] {
      UsageAdds(work[..|work| - 1], a, b, c);
    }
  }

  lemma {:induction false} NoUsageInNoTime(work: seq<Work>, a: Instant)
    ensures CountUsage(work, Period(a, a)) == Usage(0, 0)
  {
    if work != [] {
      NoUsageInNoTime(work[..|work| - 1], a);
    }
  }

  function UsageOn(s: Subscription, start: Instant): Usage {
    if start in s.invoices then s.invoices[start].usage else Usage(0, 0)
  }

  /** The usage on the invoices of the first k periods, added up. */
  ghost function Billed(s: Subscription, k: nat): Usage
    decreases k
  {
    if k == 0 then Usage(0, 0) else Plus(Billed(s, k - 1), UsageOn(s, Boundary(s.terms, k - 1)))
  }

  lemma InvoiceAt(s: Subscription, j: nat)
    requires Inv(s) && Boundary(s.terms, j) in s.invoices
    ensures s.invoices[Boundary(s.terms, j)].period == PeriodAt(s.terms, j)
  {
    var inv := s.invoices[Boundary(s.terms, j)];
    assert InvoiceOk(s, Boundary(s.terms, j), inv);
    PeriodAtStart(s.terms, inv.period, j);
  }

  lemma PeriodAtStart(t: Terms, p: Period, j: nat)
    requires Advancing(t) && OnChain(t, p) && p.start == Boundary(t, j)
    ensures p == PeriodAt(t, j)
  {
    var k: nat :| p == PeriodAt(t, k);
    BoundariesDistinct(t, j, k);
  }

  /** Every invoice has the usage of its own period. */
  ghost predicate Measures(s: Subscription) {
    forall j: nat {:trigger PeriodAt(s.terms, j)} | Boundary(s.terms, j) in s.invoices ::
      s.invoices[Boundary(s.terms, j)].usage == CountUsage(s.work, PeriodAt(s.terms, j))
  }

  lemma GaplessMeasures(s: Subscription)
    requires Gapless(s)
    ensures Measures(s)
  {
    forall j: nat | Boundary(s.terms, j) in s.invoices
      ensures s.invoices[Boundary(s.terms, j)].usage == CountUsage(s.work, PeriodAt(s.terms, j))
    {
      assert InvoiceOk(s, Boundary(s.terms, j), s.invoices[Boundary(s.terms, j)]);
      InvoiceAt(s, j);
    }
  }

  lemma BilledStep(s: Subscription, k: nat)
    requires Measures(s) && Covered(s, k + 1)
    ensures Covered(s, k)
    ensures Billed(s, k + 1) == Plus(Billed(s, k), CountUsage(s.work, PeriodAt(s.terms, k)))
  {
    assert Boundary(s.terms, k) in s.invoices;
  }

  lemma UsageUpTo(work: seq<Work>, t: Terms, k: nat)
    requires Advancing(t)
    ensures Plus(CountUsage(work, Period(t.first, Boundary(t, k))), CountUsage(work, PeriodAt(t, k)))
         == CountUsage(work, Period(t.first, Boundary(t, k + 1)))
  {
    BoundariesOrdered(t, 0, k);
    BoundariesOrdered(t, k, k + 1);
    UsageAdds(work, t.first, Boundary(t, k), Boundary(t, k + 1));
  }

  ghost predicate BilledUpTo(s: Subscription, k: nat) {
    Covered(s, k) && Billed(s, k) == CountUsage(s.work, Period(s.terms.first, Boundary(s.terms, k)))
  }

  lemma BilledAtFirst(s: Subscription)
    ensures BilledUpTo(s, 0)
  {
    assert Boundary(s.terms, 0) == s.terms.first;
    NoUsageInNoTime(s.work, s.terms.first);
  }

  lemma BilledNext(s: Subscription, k: nat)
    requires Advancing(s.terms) && Measures(s) && Covered(s, k + 1) && BilledUpTo(s, k)
    ensures BilledUpTo(s, k + 1)
  {
    BilledStep(s, k);
    UsageUpTo(s.work, s.terms, k);
  }

  lemma CoveredBefore(s: Subscription, j: nat, k: nat)
    requires j <= k && Covered(s, k)
    ensures Covered(s, j)
  {
  }

  lemma BilledIs(s: Subscription, k: nat)
    requires Advancing(s.terms) && Measures(s) && Covered(s, k)
    ensures BilledUpTo(s, k)
  {
    BilledAtFirst(s);
    for j := 0 to k
      invariant BilledUpTo(s, j)
    {
      CoveredBefore(s, j + 1, k);
      BilledNext(s, j);
    }
  }

  /** The invoices of the periods moved past add up to all the work between the first period's
      start and the current one's. */
  lemma EverythingIsBilled(plan: Plan, now: Instant, events: seq<Event>) returns (k: nat)
    requires Steady(Subscribed(plan, now), events)
    ensures var s := After(Subscribed(plan, now), events);
            && s.period == PeriodAt(s.terms, k) && Covered(s, k)
            && Billed(s, k) == CountUsage(s.work, Period(now, s.period.start))
  {
    var s := After(Subscribed(plan, now), events);
    SubscribedGapless(plan, now);
    SteadyGapless(Subscribed(plan, now), events);
    k :| s.period == PeriodAt(s.terms, k);
    assert Covered(s, k);
    GaplessMeasures(s);
    BilledIs(s, k);
  }

  lemma {:induction false} PeriodOf(t: Terms, k: nat, at: Instant) returns (j: nat)
    requires Period(t.first, Boundary(t, k)).Contains(at)
    ensures j < k && PeriodAt(t, j).Contains(at)
  {
    j := k - 1;
    if at.Before(Boundary(t, k - 1)) {
      j := PeriodOf(t, k - 1, at);
    }
  }

  /** And each piece of work in that span is in the period of exactly one invoice. */
  lemma BilledExactlyOnce(plan: Plan, now: Instant, events: seq<Event>, at: Instant) returns (start: Instant)
    requires Steady(Subscribed(plan, now), events)
    requires Period(now, After(Subscribed(plan, now), events).period.start).Contains(at)
    ensures var s := After(Subscribed(plan, now), events);
            && start in s.invoices && s.invoices[start].period.Contains(at)
            && forall other | other in s.invoices && s.invoices[other].period.Contains(at) :: other == start
  {
    var s := After(Subscribed(plan, now), events);
    SubscribedGapless(plan, now);
    SteadyGapless(Subscribed(plan, now), events);
    var k: nat :| s.period == PeriodAt(s.terms, k);
    assert Covered(s, k);
    var j := PeriodOf(s.terms, k, at);
    start := Boundary(s.terms, j);
    InvoiceAt(s, j);
    forall other | other in s.invoices && s.invoices[other].period.Contains(at) ensures other == start {
      NeverBilledTwice(plan, now, events, other, start, at);
    }
  }

  // ---- runs that do not overlap ----

  /** A run begins only when the one before has finished or died. */
  ghost predicate Serial(s: Subscription, events: seq<Event>)
    decreases events
  {
    events != [] ==> (events[0].Begin? ==> s.runs == map[]) && Serial(Apply(s, events[0]), events[1..])
  }

  /** The starts of the first n periods. */
  ghost function Starts(t: Terms, n: nat): set<Instant> {
    if n == 0 then {} else Starts(t, n - 1) + {Boundary(t, n - 1)}
  }

  lemma {:induction false} StartsHave(t: Terms, n: nat, k: nat)
    requires Advancing(t)
    ensures Boundary(t, k) in Starts(t, n) <==> k < n
  {
    if n > 0 {
      StartsHave(t, n - 1, k);
      if Boundary(t, k) == Boundary(t, n - 1) {
        BoundariesDistinct(t, k, n - 1);
      }
    }
  }

  /** Exactly one invoice for each of the first k periods, and one for the next if `raised`. */
  ghost predicate Canonical(s: Subscription, k: nat, raised: bool) {
    s.period == PeriodAt(s.terms, k) && s.invoices.Keys == Starts(s.terms, if raised then k + 1 else k)
  }

  ghost predicate InStep(s: Subscription, raised: bool, r: Run) {
    r.read == s.period && (r.stage.Measured? ==> r.stage.invoice.period == s.period) && (r.stage.Invoiced? ==> raised)
  }

  ghost predicate OneRun(s: Subscription, raised: bool) {
    && (forall a, b | a in s.runs && b in s.runs :: a == b)
    && (forall run {:trigger s.runs[run]} | run in s.runs :: InStep(s, raised, s.runs[run]))
  }

  lemma InsertCanonical(s: Subscription, k: nat, raised: bool, inv: Invoice)
    requires Canonical(s, k, raised) && inv.period == s.period
    ensures Canonical(Inserted(s, inv), k, true)
  {
    assert Starts(s.terms, k + 1) == Starts(s.terms, k) + {Boundary(s.terms, k)};
  }

  lemma InvoicedIsRaised(s: Subscription, k: nat, raised: bool)
    requires Advancing(s.terms) && Canonical(s, k, raised)
    ensures s.period.start in s.invoices <==> raised
  {
    StartsHave(s.terms, if raised then k + 1 else k, k);
  }

  lemma AdvanceCanonical(s: Subscription, k: nat)
    requires Canonical(s, k, true)
    ensures Canonical(Advanced(s, s.period), k + 1, false)
  {
  }

  lemma SerialSteady(s: Subscription, raised: bool, e: Event)
    requires OneRun(s, raised)
    ensures Steady(s, [e])
  {
    if e.Measure? && e.run in s.runs {
      assert InStep(s, raised, s.runs[e.run]);
    }
  }

  lemma MeasureOneRun(s: Subscription, raised: bool, run: string)
    requires OneRun(s, raised) && run in s.runs && (s.period.start in s.invoices <==> raised)
    ensures OneRun(s.(runs := s.runs[run := s.runs[run].(stage := AfterMeasure(s))]), raised)
  {
    assert InStep(s, raised, s.runs[run]);
  }

  lemma InsertOneRun(s: Subscription, raised: bool, run: string)
    requires OneRun(s, raised) && run in s.runs && s.runs[run].stage.Measured?
    ensures OneRun(Apply(s, Insert(run)), true)
  {
    assert InStep(s, raised, s.runs[run]);
  }

  lemma EndsOneRun(s: Subscription, raised: bool, run: string)
    requires OneRun(s, raised) && run in s.runs
    ensures s.runs - {run} == map[]
  {
  }

  /** The shape the invoices are in after an event. */
  ghost function NextShape(s: Subscription, k: nat, raised: bool, e: Event): (nat, bool) {
    match e
    case Tick(now) => (k, raised)
    case Record(w) => (k, raised)
    case Begin(run) => (k, raised)
    case Measure(run) => (k, raised)
    case Insert(run) => if run in s.runs && s.runs[run].stage.Measured? then (k, true) else (k, raised)
    case Advance(run) => if run in s.runs && s.runs[run].stage.Invoiced? then (k + 1, false) else (k, raised)
    case Die(run) => (k, raised)
  }

  lemma ApplyCanonical(s: Subscription, k: nat, raised: bool, e: Event)
    requires Canonical(s, k, raised) && OneRun(s, raised)
    ensures var shape := NextShape(s, k, raised, e); Canonical(Apply(s, e), shape.0, shape.1)
  {
    match e
    case Tick(now) =>
    case Record(w) =>
    case Begin(run) =>
    case Measure(run) =>
    case Insert(run) =>
      if run in s.runs && s.runs[run].stage.Measured? {
        assert InStep(s, raised, s.runs[run]);
        InsertCanonical(s, k, raised, s.runs[run].stage.invoice);
      }
    case Advance(run) =>
      if run in s.runs && s.runs[run].stage.Invoiced? {
        assert InStep(s, raised, s.runs[run]);
        AdvanceCanonical(s, k);
      }
    case Die(run) =>
  }

  lemma ApplyOneRun(s: Subscription, k: nat, raised: bool, e: Event)
    requires Advancing(s.terms) && Canonical(s, k, raised) && OneRun(s, raised) && (e.Begin? ==> s.runs == map[])
    ensures OneRun(Apply(s, e), NextShape(s, k, raised, e).1)
  {
    match e
    case Tick(now) =>
    case Record(w) =>
    case Begin(run) =>
    case Measure(run) =>
      if run in s.runs {
        InvoicedIsRaised(s, k, raised);
        MeasureOneRun(s, raised, run);
      }
    case Insert(run) =>
      if run in s.runs && s.runs[run].stage.Measured? {
        InsertOneRun(s, raised, run);
      }
    case Advance(run) =>
      if run in s.runs {
        EndsOneRun(s, raised, run);
      }
    case Die(run) =>
  }

  lemma {:induction false} SerialCanonical(s: Subscription, k: nat, raised: bool, events: seq<Event>) returns (k': nat, raised': bool)
    requires Advancing(s.terms) && Canonical(s, k, raised) && OneRun(s, raised) && Serial(s, events)
    ensures Canonical(After(s, events), k', raised') && Steady(s, events)
    decreases events
  {
    k', raised' := k, raised;
    if events != [] {
      var e := events[0];
      var shape := NextShape(s, k, raised, e);
      SerialSteady(s, raised, e);
      ApplyCanonical(s, k, raised, e);
      ApplyOneRun(s, k, raised, e);
      k', raised' := SerialCanonical(Apply(s, e), shape.0, shape.1, events[1..]);
    }
  }

  /** Runs that do not overlap, each cut short anywhere, leave one invoice for each period moved
      past and at most one more, for the current period; they never find the period moved. */
  lemma SerialRunsAreCanonical(plan: Plan, now: Instant, events: seq<Event>) returns (k: nat, raised: bool)
    requires Serial(Subscribed(plan, now), events)
    ensures Canonical(After(Subscribed(plan, now), events), k, raised)
    ensures Steady(Subscribed(plan, now), events)
  {
    TermsAdvance(plan.cycle, now);
    k, raised := SerialCanonical(Subscribed(plan, now), 0, false, events);
  }

  // ---- and every such state is reached ----

  lemma SerialThen(s: Subscription, first: seq<Event>, second: seq<Event>)
    requires Serial(s, first) && Serial(After(s, first), second)
    ensures Serial(s, first + second) && After(s, first + second) == After(After(s, first), second)
    decreases first
  {
    if first == [] {
      assert first + second == second;
    } else {
      assert (first + second)[1..] == first[1..] + second;
      SerialThen(Apply(s, first[0]), first[1..], second);
    }
  }

  lemma SerialStep(s: Subscription, e: Event, rest: seq<Event>)
    requires (e.Begin? ==> s.runs == map[]) && Serial(Apply(s, e), rest)
    ensures Serial(s, [e] + rest) && After(s, [e] + rest) == After(Apply(s, e), rest)
  {
    assert ([e] + rest)[1..] == rest;
  }

  /** The stored period is number k, the first n are invoiced, and these runs are at work. */
  ghost predicate At(s: Subscription, t: Terms, now: Instant, k: nat, n: nat, runs: map<string, Run>) {
    && s.terms == t && Advancing(t) && s.active && s.now == now
    && s.period == PeriodAt(t, k) && s.invoices.Keys == Starts(t, n) && s.runs == runs
  }

  function Later(now: Instant, to: Instant): Instant {
    if now.Before(to) then to else now
  }

  lemma TickAt(s: Subscription, t: Terms, now: Instant, k: nat, n: nat, runs: map<string, Run>, to: Instant)
    requires At(s, t, now, k, n, runs)
    ensures At(Apply(s, Tick(to)), t, Later(now, to), k, n, runs)
  {
  }

  lemma BeginAt(s: Subscription, t: Terms, now: Instant, k: nat, n: nat, runs: map<string, Run>, run: string)
    requires At(s, t, now, k, n, runs) && run !in runs && !now.Before(Boundary(t, k + 1))
    ensures At(Apply(s, Begin(run)), t, now, k, n, runs[run := Run(PeriodAt(t, k), Read)])
  {
  }

  lemma MeasureAt(s: Subscription, t: Terms, now: Instant, k: nat, n: nat, runs: map<string, Run>, run: string)
    requires At(s, t, now, k, n, runs) && run in runs && runs[run].stage.Read?
    ensures At(Apply(s, Measure(run)), t, now, k, n, runs[run := runs[run].(stage := if k < n then Invoiced else Measured(InvoiceFor(s)))])
  {
    StartsHave(t, n, k);
  }

  lemma InsertAt(s: Subscription, t: Terms, now: Instant, k: nat, runs: map<string, Run>, run: string)
    requires At(s, t, now, k, k, runs) && run in runs && runs[run].stage.Measured? && runs[run].stage.invoice.period == PeriodAt(t, k)
    ensures At(Apply(s, Insert(run)), t, now, k, k + 1, runs[run := runs[run].(stage := Invoiced)])
  {
    StartsHave(t, k, k);
    assert Starts(t, k + 1) == Starts(t, k) + {Boundary(t, k)};
  }

  /** A run sees to the invoice of the stored period, of which the first n have theirs. */
  ghost function Raised(s: Subscription, run: string): Subscription {
    Apply(Apply(s, Measure(run)), Insert(run))
  }

  lemma RaiseAt(s: Subscription, t: Terms, now: Instant, k: nat, n: nat, runs: map<string, Run>, run: string)
    requires At(s, t, now, k, n, runs) && run in runs && runs[run].stage.Read? && k <= n
    ensures At(Raised(s, run), t, now, k, if k == n then n + 1 else n, runs[run := runs[run].(stage := Invoiced)])
  {
    MeasureAt(s, t, now, k, n, runs, run);
    if k == n {
      var measured := runs[run := runs[run].(stage := Measured(InvoiceFor(s)))];
      InsertAt(Apply(s, Measure(run)), t, now, k, measured, run);
      assert measured[run := runs[run].(stage := Invoiced)] == runs[run := runs[run].(stage := Invoiced)];
    }
  }

  lemma AdvanceAt(s: Subscription, t: Terms, now: Instant, k: nat, n: nat, runs: map<string, Run>, run: string, j: nat)
    requires At(s, t, now, k, n, runs) && run in runs && runs[run] == Run(PeriodAt(t, j), Invoiced)
    ensures At(Apply(s, Advance(run)), t, now, j + 1, n, runs - {run})
  {
  }

  lemma DieAt(s: Subscription, t: Terms, now: Instant, k: nat, n: nat, runs: map<string, Run>, run: string)
    requires At(s, t, now, k, n, runs)
    ensures At(Apply(s, Die(run)), t, now, k, n, runs - {run})
  {
  }

  lemma ReadAndInvoiced(s: Subscription, t: Terms, now: Instant, k: nat)
    requires At(s, t, now, k, k, map[]) && !now.Before(Boundary(t, k + 1))
    ensures At(Raised(Apply(s, Begin("")), ""), t, now, k, k + 1, map["" := Run(PeriodAt(t, k), Invoiced)])
  {
    var reading := map["" := Run(PeriodAt(t, k), Read)];
    BeginAt(s, t, now, k, k, map[], "");
    assert (map[])["" := Run(PeriodAt(t, k), Read)] == reading;
    RaiseAt(Apply(s, Begin("")), t, now, k, k, reading, "");
    assert reading["" := Run(PeriodAt(t, k), Invoiced)] == map["" := Run(PeriodAt(t, k), Invoiced)];
  }

  lemma RunEnds(s: Subscription, t: Terms, now: Instant, k: nat, raised: bool)
    requires At(s, t, now, k, k + 1, map["" := Run(PeriodAt(t, k), Invoiced)])
    ensures At(Apply(s, if raised then Die("") else Advance("")), t, now, if raised then k else k + 1, k + 1, map[])
  {
    var invoiced := map["" := Run(PeriodAt(t, k), Invoiced)];
    assert invoiced - {""} == map[];
    DieAt(s, t, now, k, k + 1, invoiced, "");
    AdvanceAt(s, t, now, k, k + 1, invoiced, "", k);
  }

  /** One sweep: the period becomes due, and a run reads and invoices it, and then dies or moves it on. */
  lemma Sweep(s: Subscription, t: Terms, now: Instant, k: nat, raised: bool) returns (events: seq<Event>)
    requires At(s, t, now, k, k, map[])
    ensures Serial(s, events)
    ensures At(After(s, events), t, Later(now, Boundary(t, k + 1)), if raised then k else k + 1, k + 1, map[])
  {
    var due := Boundary(t, k + 1);
    TickAt(s, t, now, k, k, map[], due);
    var s1 := Apply(s, Tick(due));
    ReadAndInvoiced(s1, t, Later(now, due), k);
    RunEnds(Raised(Apply(s1, Begin("")), ""), t, Later(now, due), k, raised);
    events := SerialFive(s, Tick(due), Begin(""), Measure(""), Insert(""), if raised then Die("") else Advance(""));
  }

  lemma SerialFive(s: Subscription, a: Event, b: Event, c: Event, d: Event, e: Event) returns (events: seq<Event>)
    requires !a.Begin? && (b.Begin? ==> Apply(s, a).runs == map[]) && !c.Begin? && !d.Begin? && !e.Begin?
    ensures Serial(s, events) && After(s, events) == Apply(Apply(Apply(Apply(Apply(s, a), b), c), d), e)
  {
    var s1 := Apply(s, a);
    var s2 := Apply(s1, b);
    var s3 := Apply(s2, c);
    var s4 := Apply(s3, d);
    SerialStep(s4, e, []);
    SerialStep(s3, d, [e] + []);
    SerialStep(s2, c, [d] + ([e] + []));
    SerialStep(s1, b, [c] + ([d] + ([e] + [])));
    SerialStep(s, a, [b] + ([c] + ([d] + ([e] + []))));
    events := [a] + ([b] + ([c] + ([d] + ([e] + []))));
  }

  lemma {:induction false} ReachesPeriod(s: Subscription, t: Terms, now: Instant, k: nat) returns (events: seq<Event>, now': Instant)
    requires At(s, t, now, 0, 0, map[])
    ensures Serial(s, events) && At(After(s, events), t, now', k, k, map[])
  {
    if k == 0 {
      events, now' := [], now;
    } else {
      events, now' := ReachesPeriod(s, t, now, k - 1);
      var more := Sweep(After(s, events), t, now', k - 1, false);
      SerialThen(s, events, more);
      events, now' := events + more, Later(now', Boundary(t, k));
    }
  }

  lemma NewAt(plan: Plan, now: Instant)
    ensures At(Subscribed(plan, now), TermsFor(plan.cycle, now), now, 0, 0, map[])
  {
    TermsAdvance(plan.cycle, now);
  }

  /** Conversely every such shape comes about: some non-overlapping runs, the last of them cut
      short if the current period is invoiced already, lead to it. */
  lemma EveryShapeIsReached(plan: Plan, now: Instant, k: nat, raised: bool) returns (events: seq<Event>)
    ensures Serial(Subscribed(plan, now), events) && Canonical(After(Subscribed(plan, now), events), k, raised)
  {
    var s, t := Subscribed(plan, now), TermsFor(plan.cycle, now);
    NewAt(plan, now);
    var now';
    events, now' := ReachesPeriod(s, t, now, k);
    if raised {
      var more := Sweep(After(s, events), t, now', k, true);
      SerialThen(s, events, more);
      events := events + more;
    }
  }
}
