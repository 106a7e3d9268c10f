/**
 What overlapping billing runs do to a subscription, and exactly when: they can move past a
 period without invoicing it, and invoice one that has only begun.
 */
module BillingOverlap {
  import opened BillingCalendar
  import opened BillingSweep
  import opened BillingTheorems

  // ---- moving past a period ----

  /** A run that is about to move the period on. */
  predicate Moves(s: Subscription, e: Event) {
    e.Advance? && e.run in s.runs && s.runs[e.run].stage.Invoiced?
  }

  /** It finds an invoice for the period it read. */
  predicate Guard(s: Subscription, e: Event) {
    Moves(s, e) ==> s.runs[e.run].read.start in s.invoices
  }

  ghost predicate Guarded(s: Subscription, events: seq<Event>)
    decreases events
  {
    events != [] ==> Guard(s, events[0]) && Guarded(Apply(s, events[0]), events[1..])
  }

  /** At every point every period moved past is invoiced. */
  ghost predicate SkipsNothing(s: Subscription, events: seq<Event>)
    decreases events
  {
    CoveredTo(s, s.period) && (events != [] ==> SkipsNothing(Apply(s, events[0]), events[1..]))
  }

  ghost predicate CaughtUp(s: Subscription) {
    && Inv(s) && CoveredTo(s, s.period)
    && forall run {:trigger s.runs[run]} | run in s.runs :: CoveredTo(s, s.runs[run].read)
  }

  /** A step that moves the period on, if at all, from one it has covered. */
  lemma StillCaughtUp(s: Subscription, s': Subscription)
    requires CaughtUp(s) && Inv(s') && s'.terms == s.terms && s.invoices.Keys <= s'.invoices.Keys
    requires CoveredTo(s', s'.period)
    requires forall run {:trigger s'.runs[run]} | run in s'.runs ::
      (run in s.runs && s'.runs[run].read == s.runs[run].read) || s'.runs[run].read == s.period
    ensures CaughtUp(s')
  {
    forall run | run in s'.runs ensures CoveredTo(s', s'.runs[run].read) {
      if run in s.runs && s'.runs[run].read == s.runs[run].read {
        MoreCovered(s, s', s.runs[run].read);
      } else {
        MoreCovered(s, s', s.period);
      }
    }
  }

  lemma CoveredHas(s: Subscription, k: nat)
    requires CoveredTo(s, PeriodAt(s.terms, k + 1))
    ensures Boundary(s.terms, k) in s.invoices
  {
    assert Covered(s, k + 1);
  }

  /** The period after one read is covered exactly if the one read is invoiced. */
  lemma NextCoveredExactly(s: Subscription, read: Period)
    requires Advancing(s.terms) && OnChain(s.terms, read) && CoveredTo(s, read)
    ensures CoveredTo(s, Advanced(s, read).period) <==> read.start in s.invoices
  {
    var k: nat :| read == PeriodAt(s.terms, k);
    assert Advanced(s, read).period == PeriodAt(s.terms, k + 1);
    assert Covered(s, k);
    if read.start in s.invoices {
      NextCovered(s, k);
    } else if CoveredTo(s, PeriodAt(s.terms, k + 1)) {
      CoveredHas(s, k);
    }
  }

  lemma SameCovered(s: Subscription, s': Subscription, p: Period)
    requires s'.terms == s.terms && s'.invoices == s.invoices
    ensures CoveredTo(s', p) <==> CoveredTo(s, p)
  {
    if CoveredTo(s, p) {
      MoreCovered(s, s', p);
    }
    if CoveredTo(s', p) {
      MoreCovered(s', s, p);
    }
  }

  lemma AdvanceCoveredExactly(s: Subscription, e: Event)
    requires CaughtUp(s) && Moves(s, e)
    ensures CoveredTo(Apply(s, e), Apply(s, e).period) <==> Guard(s, e)
  {
    var read := s.runs[e.run].read;
    assert RunReadOk(s, s.runs[e.run]);
    NextCoveredExactly(s, read);
    SameCovered(s, Apply(s, e), Advanced(s, read).period);
  }

  /** What any step leaves of the period, the invoices and what runs have read. */
  lemma StepFrame(s: Subscription, e: Event)
    ensures var s' := Apply(s, e);
            && s'.terms == s.terms && s.invoices.Keys <= s'.invoices.Keys && (Moves(s, e) || s'.period == s.period)
            && forall run | run in s'.runs ::
                 (run in s.runs && s'.runs[run].read == s.runs[run].read) || s'.runs[run].read == s.period
  {
  }

  lemma StepCaughtUp(s: Subscription, e: Event)
    requires CaughtUp(s) && Guard(s, e)
    ensures CaughtUp(Apply(s, e))
  {
    var s' := Apply(s, e);
    ApplyKeeps(s, e);
    StepFrame(s, e);
    if Moves(s, e) {
      AdvanceCoveredExactly(s, e);
    } else {
      MoreCovered(s, s', s.period);
    }
    StillCaughtUp(s, s');
  }

  lemma {:induction false} GuardedExactly(s: Subscription, events: seq<Event>)
    requires CaughtUp(s)
    ensures SkipsNothing(s, events) <==> Guarded(s, events)
    decreases events
  {
    if events != [] {
      var e := events[0];
      if Guard(s, e) {
        StepCaughtUp(s, e);
        GuardedExactly(Apply(s, e), events[1..]);
      } else {
        AdvanceCoveredExactly(s, e);
      }
    }
  }

  /** However runs overlap and die, no period is ever moved past without an invoice if and only
      if each run, before it moves the period on, finds an invoice for the period it read. */
  lemma NothingSkippedExactly(plan: Plan, now: Instant, events: seq<Event>)
    ensures SkipsNothing(Subscribed(plan, now), events) <==> Guarded(Subscribed(plan, now), events)
  {
    var s := Subscribed(plan, now);
    SubscribedGapless(plan, now);
    GuardedExactly(s, events);
  }

  /** Runs that find the period they read when they work out their invoice meet that guard. */
  lemma {:induction false} SteadyIsGuarded(s: Subscription, events: seq<Event>)
    requires Gapless(s) && Steady(s, events)
    ensures Guarded(s, events)
    decreases events
  {
    if events != [] {
      var e := events[0];
      if Moves(s, e) {
        assert RunOk(s, s.runs[e.run]);
      }
      assert Steady(s, [e]);
      ApplyGapless(s, e);
      SteadyIsGuarded(Apply(s, e), events[1..]);
    }
  }

  // ---- invoicing a period that has only begun ----

  /** An invoice, wherever it is stored, goes on charging for all the work of its period. */
  ghost predicate StaysExact(s: Subscription, inv: Invoice) {
    forall events {:trigger After(s, events)} ::
      var s' := After(s, events);
      inv.period.start in s'.invoices && s'.invoices[inv.period.start] == inv ==> inv.usage == CountUsage(s'.work, inv.period)
  }

  lemma ArrearsStayExact(s: Subscription, inv: Invoice)
    requires Inv(s) && inv.InArrears()
    ensures StaysExact(s, inv)
  {
    forall events
      ensures var s' := After(s, events);
              inv.period.start in s'.invoices && s'.invoices[inv.period.start] == inv ==> inv.usage == CountUsage(s'.work, inv.period)
    {
      AfterKeeps(s, events);
      var s' := After(s, events);
      assert inv.period.start in s'.invoices ==> InvoiceOk(s', inv.period.start, s'.invoices[inv.period.start]);
    }
  }

  lemma ChainedPeriodLasts(t: Terms, p: Period)
    requires Advancing(t) && OnChain(t, p)
    ensures p.start.Before(p.end)
  {
    var k: nat :| p == PeriodAt(t, k);
    BoundariesIncrease(t, k, k + 1);
  }

  /** Work created now or later can always be recorded. */
  lemma NewWorkIsRecorded(s: Subscription, w: Work)
    requires Inv(s) && !w.created.Before(s.now)
    ensures MayRecord(s, w)
  {
    forall t | t in s.invoices ensures !Settles(s.invoices[t], w) {
      assert InvoiceOk(s, t, s.invoices[t]);
    }
    forall run | run in s.runs && s.runs[run].stage.Measured? ensures !Settles(s.runs[run].stage.invoice, w) {
      assert RunReadOk(s, s.runs[run]);
    }
  }

  lemma CountsOneMore(work: seq<Work>, at: Instant, p: Period)
    requires p.Contains(at)
    ensures CountUsage(work + [Signature(at, true)], p).signings == CountUsage(work, p).signings + 1
  {
    assert (work + [Signature(at, true)])[..|work|] == work;
  }

  lemma AfterTwo(s: Subscription, a: Event, b: Event)
    ensures After(s, [a] + ([b] + [])) == Apply(Apply(s, a), b)
  {
    AfterStep(s, a, [b] + []);
    AfterStep(Apply(s, a), b, []);
  }

  /** The invoice is stored, and then work of its period is recorded. */
  lemma InsertThenRecord(s: Subscription, run: string, w: Work)
    requires Inv(s) && run in s.runs && s.runs[run].stage.Read? && s.period.start !in s.invoices && !w.created.Before(s.now)
    ensures var s' := Apply(Apply(Apply(s, Measure(run)), Insert(run)), Record(w));
            && s.period.start in s'.invoices && s'.invoices[s.period.start] == InvoiceFor(s) && s'.work == s.work + [w]
  {
    var s1 := Apply(s, Measure(run));
    ApplyKeeps(s, Measure(run));
    ApplyKeeps(s1, Insert(run));
    NewWorkIsRecorded(Apply(s1, Insert(run)), w);
  }

  /** An invoice worked out too soon misses the work that follows. */
  lemma EarlyGoesWrong(s: Subscription, run: string)
    requires Inv(s) && run in s.runs && s.runs[run].stage.Read? && s.period.start !in s.invoices && s.now.Before(s.period.end)
    ensures !StaysExact(Apply(s, Measure(run)), InvoiceFor(s))
  {
    var at := Later(s.period.start, s.now);
    var w := Signature(at, true);
    ChainedPeriodLasts(s.terms, s.period);
    InsertThenRecord(s, run, w);
    CountsOneMore(s.work, at, s.period);
    AfterTwo(Apply(s, Measure(run)), Insert(run), Record(w));
  }

  /** An invoice charges for all the work of its period, over every continuation, if and only if
      the period had ended when the run worked it out. */
  lemma ExactForGoodExactly(plan: Plan, now: Instant, events: seq<Event>, run: string)
    requires var s := After(Subscribed(plan, now), events);
             run in s.runs && s.runs[run].stage.Read? && s.period.start !in s.invoices
    ensures var s := After(Subscribed(plan, now), events);
            StaysExact(Apply(s, Measure(run)), InvoiceFor(s)) <==> !s.now.Before(s.period.end)
  {
    var s := After(Subscribed(plan, now), events);
    SubscribedInv(plan, now);
    AfterKeeps(Subscribed(plan, now), events);
    if s.now.Before(s.period.end) {
      EarlyGoesWrong(s, run);
    } else {
      ApplyKeeps(s, Measure(run));
      ArrearsStayExact(Apply(s, Measure(run)), InvoiceFor(s));
    }
  }

  /** An invoice, once stored, is the one for its period for good. */
  lemma {:induction false} InvoicesStay(s: Subscription, events: seq<Event>, start: Instant)
    requires start in s.invoices
    ensures start in After(s, events).invoices && After(s, events).invoices[start] == s.invoices[start]
    decreases events
  {
    if events != [] {
      InvoicesStay(Apply(s, events[0]), events[1..], start);
    }
  }

  // ---- runs that do overlap can skip a period ----

  lemma AfterStep(s: Subscription, e: Event, rest: seq<Event>)
    ensures After(s, [e] + rest) == After(Apply(s, e), rest)
  {
    assert ([e] + rest)[1..] == rest;
  }

  /** A run reads the subscription and sees to its invoice. */
  function Raising(run: string, rest: seq<Event>): seq<Event> {
    [Begin(run)] + ([Measure(run)] + ([Insert(run)] + rest))
  }

  lemma RaisingIs(s: Subscription, run: string, rest: seq<Event>)
    ensures After(s, Raising(run, rest)) == After(Raised(Apply(s, Begin(run)), run), rest)
  {
    var s1 := Apply(s, Begin(run));
    AfterStep(s, Begin(run), [Measure(run)] + ([Insert(run)] + rest));
    AfterStep(s1, Measure(run), [Insert(run)] + rest);
    AfterStep(Apply(s1, Measure(run)), Insert(run), rest);
  }

  lemma RaisingAt(s: Subscription, t: Terms, now: Instant, k: nat, n: nat, runs: map<string, Run>, run: string)
    requires At(s, t, now, k, n, runs) && run !in runs && k <= n && !now.Before(Boundary(t, k + 1))
    ensures At(Raised(Apply(s, Begin(run)), run), t, now, k, if k == n then n + 1 else n, runs[run := Run(PeriodAt(t, k), Invoiced)])
  {
    var reading := runs[run := Run(PeriodAt(t, k), Read)];
    BeginAt(s, t, now, k, n, runs, run);
    RaiseAt(Apply(s, Begin(run)), t, now, k, n, reading, run);
    assert reading[run := Run(PeriodAt(t, k), Invoiced)] == runs[run := Run(PeriodAt(t, k), Invoiced)];
  }

  /** A run that finishes undisturbed. */
  lemma WholeRun(s: Subscription, t: Terms, now: Instant, k: nat, n: nat, runs: map<string, Run>, run: string, rest: seq<Event>) returns (s': Subscription)
    requires At(s, t, now, k, n, runs) && run !in runs && k <= n && !now.Before(Boundary(t, k + 1))
    ensures At(s', t, now, k + 1, if k == n then n + 1 else n, runs)
    ensures After(s, Raising(run, [Advance(run)] + rest)) == After(s', rest)
  {
    var invoiced := runs[run := Run(PeriodAt(t, k), Invoiced)];
    var s1 := Raised(Apply(s, Begin(run)), run);
    RaisingAt(s, t, now, k, n, runs, run);
    RaisingIs(s, run, [Advance(run)] + rest);
    AdvanceAt(s1, t, now, k, if k == n then n + 1 else n, invoiced, run, k);
    s' := Apply(s1, Advance(run));
    assert invoiced - {run} == runs;
    AfterStep(s1, Advance(run), rest);
  }

  /** The first run stalls with its invoice raised. The next two move the subscription on by two
      periods, and a fourth reads it. Then the first moves it back to the second period, which
      the fourth finds invoiced, and the fourth moves on from the third. */
  function Overlapping(later: Instant): seq<Event> {
    [Tick(later)] + Raising("a", Raising("b", [Advance("b")] + Raising("c", [Advance("c")] + Ending())))
  }

  function Ending(): seq<Event> {
    [Begin("d")] + ([Advance("a")] + ([Measure("d")] + ([Insert("d")] + ([Advance("d")] + []))))
  }

  ghost function Stall(t: Terms): map<string, Run> {
    map["a" := Run(PeriodAt(t, 0), Invoiced)]
  }

  lemma Stalled(s: Subscription, t: Terms, now: Instant, later: Instant, tail: seq<Event>) returns (s': Subscription)
    requires At(s, t, now, 0, 0, map[]) && now.Before(later)
    requires !later.Before(Boundary(t, 1)) && !later.Before(Boundary(t, 2))
    ensures At(s', t, later, 2, 2, Stall(t))
    ensures After(s, [Tick(later)] + Raising("a", Raising("b", [Advance("b")] + Raising("c", [Advance("c")] + tail)))) == After(s', tail)
  {
    var last := Raising("c", [Advance("c")] + tail);
    var middle := Raising("b", [Advance("b")] + last);
    TickAt(s, t, now, 0, 0, map[], later);
    AfterStep(s, Tick(later), Raising("a", middle));
    var s1 := Apply(s, Tick(later));
    RaisingAt(s1, t, later, 0, 0, map[], "a");
    RaisingIs(s1, "a", middle);
    assert (map[])["a" := Run(PeriodAt(t, 0), Invoiced)] == Stall(t);
    var s2 := WholeRun(Raised(Apply(s1, Begin("a")), "a"), t, later, 0, 1, Stall(t), "b", last);
    s' := WholeRun(s2, t, later, 1, 1, Stall(t), "c", tail);
  }

  lemma Resumed(s: Subscription, t: Terms, later: Instant)
    requires At(s, t, later, 2, 2, Stall(t)) && !later.Before(Boundary(t, 3))
    ensures At(After(s, Ending()), t, later, 3, 2, map[])
  {
    var read := Run(PeriodAt(t, 2), Read);
    BeginAt(s, t, later, 2, 2, Stall(t), "d");
    var both := Stall(t)["d" := read];
    var s1 := Apply(s, Begin("d"));
    AdvanceAt(s1, t, later, 2, 2, both, "a", 0);
    assert both - {"a"} == map["d" := read];
    var s2 := Apply(s1, Advance("a"));
    RaiseAt(s2, t, later, 1, 2, map["d" := read], "d");
    assert (map["d" := read])["d" := Run(PeriodAt(t, 2), Invoiced)] == map["d" := Run(PeriodAt(t, 2), Invoiced)];
    var s3 := Raised(s2, "d");
    AdvanceAt(s3, t, later, 1, 2, map["d" := Run(PeriodAt(t, 2), Invoiced)], "d", 2);
    assert map["d" := Run(PeriodAt(t, 2), Invoiced)] - {"d"} == map[];
    EndingIs(s);
  }

  lemma EndingIs(s: Subscription)
    ensures After(s, Ending()) == Apply(Raised(Apply(Apply(s, Begin("d")), Advance("a")), "d"), Advance("d"))
  {
    var s1 := Apply(s, Begin("d"));
    var s2 := Apply(s1, Advance("a"));
    var s3 := Apply(s2, Measure("d"));
    AfterStep(s, Begin("d"), [Advance("a")] + ([Measure("d")] + ([Insert("d")] + ([Advance("d")] + []))));
    AfterStep(s1, Advance("a"), [Measure("d")] + ([Insert("d")] + ([Advance("d")] + [])));
    AfterStep(s2, Measure("d"), [Insert("d")] + ([Advance("d")] + []));
    AfterStep(s3, Insert("d"), [Advance("d")] + []);
    AfterStep(Apply(s3, Insert("d")), Advance("d"), []);
  }

  lemma OverlapSkips(s: Subscription, t: Terms, now: Instant)
    requires At(s, t, now, 0, 0, map[]) && now == t.first
    ensures At(After(s, Overlapping(Boundary(t, 4))), t, Boundary(t, 4), 3, 2, map[])
  {
    var later := Boundary(t, 4);
    BoundariesIncrease(t, 0, 4);
    BoundariesOrdered(t, 1, 4);
    BoundariesOrdered(t, 2, 4);
    BoundariesOrdered(t, 3, 4);
    var s' := Stalled(s, t, now, later, Ending());
    Resumed(s', t, later);
  }

  /** From every new subscription there are overlapping runs after which a period has been moved
      past and has no invoice. */
  lemma OverlappingRunsCanSkip(plan: Plan, now: Instant)
    ensures var t := TermsFor(plan.cycle, now);
            var s := After(Subscribed(plan, now), Overlapping(Boundary(t, 4)));
            s.period == PeriodAt(t, 3) && Boundary(t, 2) !in s.invoices
  {
    var t := TermsFor(plan.cycle, now);
    NewAt(plan, now);
    OverlapSkips(Subscribed(plan, now), t, now);
    StartsHave(t, 2, 2);
  }

  // ---- runs that do overlap can invoice a period as it begins ----

  lemma {:induction false} AfterThen(s: Subscription, first: seq<Event>, second: seq<Event>)
    ensures After(s, first + second) == After(After(s, first), second)
    decreases first
  {
    if first == [] {
      assert first + second == second;
    } else {
      assert (first + second)[1..] == first[1..] + second;
      AfterThen(Apply(s, first[0]), first[1..], second);
    }
  }

  lemma {:induction false} WorkStays(s: Subscription, events: seq<Event>)
    requires forall i | 0 <= i < |events| :: !events[i].Record?
    ensures After(s, events).work == s.work
    decreases events
  {
    if events != [] {
      WorkStays(Apply(s, events[0]), events[1..]);
    }
  }

  /** Two runs read the first period as it ends, and the second of them finishes. */
  function Racing(end: Instant): seq<Event> {
    [Tick(end)] + ([Begin("a")] + Raising("b", [Advance("b")] + []))
  }

  /** Then the first works out the invoice of the period it finds, and a signature is made in it. */
  function Early(end: Instant): seq<Event> {
    Racing(end) + ([Measure("a")] + ([Insert("a")] + ([Record(Signature(end, true))] + [])))
  }

  lemma RacingIs(s: Subscription, t: Terms, now: Instant)
    requires At(s, t, now, 0, 0, map[]) && now == t.first
    ensures At(After(s, Racing(Boundary(t, 1))), t, Boundary(t, 1), 1, 1, map["a" := Run(PeriodAt(t, 0), Read)])
  {
    var end := Boundary(t, 1);
    var reading := map["a" := Run(PeriodAt(t, 0), Read)];
    BoundariesIncrease(t, 0, 1);
    TickAt(s, t, now, 0, 0, map[], end);
    var s1 := Apply(s, Tick(end));
    BeginAt(s1, t, end, 0, 0, map[], "a");
    assert (map[])["a" := Run(PeriodAt(t, 0), Read)] == reading;
    var s' := WholeRun(Apply(s1, Begin("a")), t, end, 0, 0, reading, "b", []);
    AfterStep(s, Tick(end), [Begin("a")] + Raising("b", [Advance("b")] + []));
    AfterStep(s1, Begin("a"), Raising("b", [Advance("b")] + []));
  }

  lemma ThreeMore(s: Subscription, a: Event, b: Event, c: Event)
    ensures After(s, [a] + ([b] + ([c] + []))) == Apply(Apply(Apply(s, a), b), c)
  {
    AfterStep(s, a, [b] + ([c] + []));
    AfterTwo(Apply(s, a), b, c);
  }

  lemma EarlyIs(s0: Subscription, t: Terms, now: Instant)
    requires At(s0, t, now, 0, 0, map[]) && now == t.first && Inv(s0) && s0.work == []
    ensures var s := After(s0, Early(Boundary(t, 1)));
            && s.work == [Signature(Boundary(t, 1), true)]
            && Boundary(t, 1) in s.invoices && s.invoices[Boundary(t, 1)].usage == Usage(0, 0)
  {
    var end := Boundary(t, 1);
    var w := Signature(end, true);
    RacingIs(s0, t, now);
    AfterKeeps(s0, Racing(end));
    WorkStays(s0, Racing(end));
    var s1 := After(s0, Racing(end));
    StartsHave(t, 1, 1);
    InsertThenRecord(s1, "a", w);
    ThreeMore(s1, Measure("a"), Insert("a"), Record(w));
    AfterThen(s0, Racing(end), [Measure("a")] + ([Insert("a")] + ([Record(w)] + [])));
  }

  /** From every new subscription two overlapping runs lead to an invoice of the second period
      for no work at all, worked out at its first instant. A signature made in that period is
      then on record and is not charged for, whatever happens later. */
  lemma OverlappingRunsCanInvoiceEarly(plan: Plan, now: Instant)
    ensures var t := TermsFor(plan.cycle, now);
            var s := After(Subscribed(plan, now), Early(Boundary(t, 1)));
            && CountUsage(s.work, PeriodAt(t, 1)) == Usage(1, 0)
            && forall more {:trigger After(s, more)} ::
                 Boundary(t, 1) in After(s, more).invoices && After(s, more).invoices[Boundary(t, 1)].usage == Usage(0, 0)
  {
    var t := TermsFor(plan.cycle, now);
    var end := Boundary(t, 1);
    NewAt(plan, now);
    SubscribedInv(plan, now);
    EarlyIs(Subscribed(plan, now), t, now);
    var s := After(Subscribed(plan, now), Early(end));
    BoundariesIncrease(t, 1, 2);
    OneSignature(end, PeriodAt(t, 1));
    forall more ensures end in After(s, more).invoices && After(s, more).invoices[end].usage == Usage(0, 0) {
      InvoicesStay(s, more, end);
    }
  }

  lemma OneSignature(at: Instant, p: Period)
    requires p.Contains(at)
    ensures CountUsage([Signature(at, true)], p) == Usage(1, 0)
  {
    assert [Signature(at, true)][..0] == [];
  }
}
