/**
 What a resync mends and what it leaves, in every run: the five queries of a load are
 separate steps, and writes, publishes and ticks come between any two of them.
 */
module Resync {
  import opened Calendar
  import opened ReadModel
  import opened UsageReport
  import opened Wrappers

  // ---------------------------------------------------------------- the difference a load leaves

  /** Counted by a load's query and again by a credit: stamped before the load, and with
      its credit on its way when the load began, or written while it ran. */
  function CountedAgain(log: seq<Event>, key: nat, at: int, before: seq<Credit>, seen: nat): nat -> bool {
    (i: nat) => i < |log| && i < seen && log[i].key == key && log[i].at < at && (i < |before| ==> !Settled(before[i]))
  }

  /** Stamped at the very instant of a load, with its credit already settled. */
  function SettledTie(log: seq<Event>, key: nat, at: int, before: seq<Credit>): nat -> bool {
    (i: nat) => i < |log| && i < |before| && log[i].key == key && log[i].at == at && Settled(before[i])
  }

  /** The credits that were on their way when the load began have been applied, and so
      have those of all later events, which are stamped inside the bucket. */
  ghost predicate CaughtUp(key: nat, a: Actor, before: seq<Credit>, bucket: Range) {
    forall i: nat | i < |a.log| && i < |a.credits| && a.log[i].key == key ::
      if i < |before| then Settled(before[i]) || a.credits[i].Applied?
      else a.credits[i].Applied? && Within(bucket, a.log[i].at)
  }

  /** The first `n` events of the key are stamped before an instant. */
  ghost predicate FirstStampedBefore(key: nat, log: seq<Event>, n: nat, instant: int) {
    forall i: nat | i < n && i < |log| && log[i].key == key :: log[i].at < instant
  }

  lemma LoadedEventsBalance(key: nat, a: Actor, now: Moment, k: nat, i: nat)
    requires Inv(key, a) && a.last.Some? && k < 3 && SameBucket(a.last.value.at, now, k) && i < |a.log|
    requires CaughtUp(key, a, a.last.value.before, Window(ReportWindows(now), k))
    requires a.last.value.at.at < now.at || FirstStampedBefore(key, a.log, |a.last.value.before|, a.last.value.at.at)
    ensures var l := a.last.value;
            Bit(SeenByLoad(a, key, l, k)(i)) + Bit(AppliedAt(a.credits, a.loads)(i))
            + Bit(SettledTie(a.log, key, l.at.at, l.before)(i))
            == Bit(InBucket(a, key, now, k)(i)) + Bit(CountedAgain(a.log, key, l.at.at, l.before, l.seen[k])(i)) + Bit(Never()(i))
  {
    hide ReportWindows, FiguresAccounted, SumTokens;
    OpenWindowEndsNow(now, k);
    OpenWindowEndsNow(a.last.value.at, k);
  }

  /** Once all those credits have been applied, an open figure is the store's total, plus
      the events counted again, less the settled ties. */
  lemma DifferenceAfterLoad(key: nat, a: Actor, now: Moment, k: nat)
    requires Inv(key, a) && a.last.Some? && k < 3 && SameBucket(a.last.value.at, now, k)
    requires CaughtUp(key, a, a.last.value.before, Window(ReportWindows(now), k))
    requires a.last.value.at.at < now.at || FirstStampedBefore(key, a.log, |a.last.value.before|, a.last.value.at.at)
    ensures var l := a.last.value;
            k < |l.seen|
            && Figure(a.report, k)
               == SumTokens(a.log, key, Window(ReportWindows(now), k))
                  + Total(a.log, CountedAgain(a.log, key, l.at.at, l.before, l.seen[k]))
                  - Total(a.log, SettledTie(a.log, key, l.at.at, l.before))
  {
    hide ReportWindows, SumTokens, Total;
    var l := a.last.value;
    var seen, applied, tied := SeenByLoad(a, key, l, k), AppliedAt(a.credits, a.loads), SettledTie(a.log, key, l.at.at, l.before);
    var inBucket, again := InBucket(a, key, now, k), CountedAgain(a.log, key, l.at.at, l.before, l.seen[k]);
    assert FigureAccounted(key, a, k);
    QueryIsTotal(a.log, key, Window(ReportWindows(l.at), k), l.seen[k]);
    QueryIsTotal(a.log, key, Window(ReportWindows(now), k), |a.log|);
    assert a.log[..|a.log|] == a.log;
    forall i: nat | i < |a.log|
      ensures Bit(seen(i)) + Bit(applied(i)) + Bit(tied(i)) == Bit(inBucket(i)) + Bit(again(i)) + Bit(Never()(i))
    {
      LoadedEventsBalance(key, a, now, k, i);
    }
    TotalsBalance(a.log, seen, applied, tied, inBucket, again, Never());
    TotalNone(a.log, Never());
  }

  // ---------------------------------------------------------------- runs of one resync

  /** A run that begins with a load and begins no other. */
  ghost predicate OneResync(run: seq<Step>) {
    run != [] && run[0] == BeginLoad && forall j | 0 < j < |run| :: !run[j].BeginLoad?
  }

  /** Through such a run the load remembers the state it began in. */
  lemma {:induction false} LoadOfRun(key: nat, a: Actor, run: seq<Step>)
    requires Inv(key, a) && a.phase.Idle? && Legal(key, a, run) && OneResync(run)
    ensures var t := After(key, a, run);
            && Inv(key, t) && a.log <= t.log
            && (t.phase.Loading? ==> t.phase.load.at == a.now && t.phase.load.before == a.credits && t.loads == a.loads)
            && (t.phase.Idle? && t.loads != a.loads ==>
                  t.loads == a.loads + 1 && t.last.Some? && t.last.value.at == a.now && t.last.value.before == a.credits)
    decreases |run|
  {
    hide Inv, ReportWindows, SumTokens;
    var front, s := run[..|run| - 1], run[|run| - 1];
    if front == [] {
      StepKeepsInv(key, a, s);
    } else {
      LoadOfRun(key, a, front);
      StepKeepsInv(key, After(key, a, front), s);
    }
  }

  /** A run of one resync from `a` whose load succeeded, seen at `now` with no bucket
      rolled over and every later credit applied. */
  ghost predicate Resynced(key: nat, a: Actor, run: seq<Step>, now: Moment, k: nat) {
    && Inv(key, a) && a.phase.Idle? && Legal(key, a, run) && OneResync(run)
    && After(key, a, run).phase.Idle? && After(key, a, run).loads != a.loads
    && k < 3 && SameBucket(a.now, now, k) && (a.now.at < now.at || StampedBefore(key, a, a.now.at))
    && CaughtUp(key, After(key, a, run), a.credits, Window(ReportWindows(now), k))
  }

  /** The difference left by a load whose queries may have had anything between them. */
  lemma ResyncDifference(key: nat, a: Actor, run: seq<Step>, now: Moment, k: nat)
    requires Resynced(key, a, run, now, k)
    ensures var t := After(key, a, run);
            && t.last.Some? && k < |t.last.value.seen|
            && Figure(t.report, k)
               == SumTokens(t.log, key, Window(ReportWindows(now), k))
                  + Total(t.log, CountedAgain(t.log, key, a.now.at, a.credits, t.last.value.seen[k]))
                  - Total(t.log, SettledTie(t.log, key, a.now.at, a.credits))
  {
    hide ReportWindows, SumTokens, Total, CountedAgain, SettledTie, After, Legal, CaughtUp, FiguresAccounted;
    LoadOfRun(key, a, run);
    DifferenceAfterLoad(key, After(key, a, run), now, k);
  }

  lemma {:induction false} TotalOfPrefix(log: seq<Event>, n: nat, p: nat -> bool, q: nat -> bool)
    requires n <= |log| && forall i: nat | i < |log| :: q(i) == (i < n && p(i))
    ensures Total(log, q) == Total(log[..n], p)
  {
    if n < |log| {
      var front := log[..|log| - 1];
      assert !q(|log| - 1);
      assert front[..n] == log[..n];
      TotalOfPrefix(front, n, p, q);
    } else {
      assert log[..n] == log;
      TotalSame(log, p, q);
    }
  }

  /** No event written since the load began is stamped before its clock reading. */
  ghost predicate LaterStampsFollow(key: nat, a: Actor, t: Actor) {
    forall i: nat | |a.log| <= i < |t.log| && t.log[i].key == key :: a.now.at <= t.log[i].at
  }

  /** The events whose credits were on their way when a load of `a` begins, ties apart. */
  function OnTheWay(key: nat, a: Actor): nat -> bool {
    CountedAgain(a.log, key, a.now.at, a.credits, |a.log|)
  }

  /** Then the difference is settled before the load begins: the tokens whose credits are
      on their way, less those of settled ties. */
  lemma DifferenceKnownBeforehand(key: nat, a: Actor, run: seq<Step>, now: Moment, k: nat)
    requires Resynced(key, a, run, now, k) && LaterStampsFollow(key, a, After(key, a, run))
    ensures var t := After(key, a, run);
            Figure(t.report, k)
            == SumTokens(t.log, key, Window(ReportWindows(now), k))
               + Total(a.log, OnTheWay(key, a)) - Total(a.log, SettledTie(a.log, key, a.now.at, a.credits))
  {
    hide ReportWindows, SumTokens, Total, CaughtUp, FiguresAccounted;
    LoadOfRun(key, a, run);
    ResyncDifference(key, a, run, now, k);
    var t := After(key, a, run);
    hide After, Legal;
    assert t.log[..|a.log|] == a.log;
    forall i: nat | i < |t.log|
      ensures CountedAgain(t.log, key, a.now.at, a.credits, t.last.value.seen[k])(i) == (i < |a.log| && OnTheWay(key, a)(i))
    {
      assert i < |a.log| ==> t.log[i] == a.log[i];
    }
    forall i: nat | i < |t.log|
      ensures SettledTie(t.log, key, a.now.at, a.credits)(i) == (i < |a.log| && SettledTie(a.log, key, a.now.at, a.credits)(i))
    {
      assert i < |a.log| ==> t.log[i] == a.log[i];
    }
    TotalOfPrefix(t.log, |a.log|, OnTheWay(key, a), CountedAgain(t.log, key, a.now.at, a.credits, t.last.value.seen[k]));
    TotalOfPrefix(t.log, |a.log|, SettledTie(a.log, key, a.now.at, a.credits), SettledTie(t.log, key, a.now.at, a.credits));
  }

  lemma TotalZeroExactly(log: seq<Event>, p: nat -> bool)
    ensures Total(log, p) == 0 <==> forall i: nat | i < |log| && p(i) :: log[i].tokens == 0
  {
    if i: nat :| i < |log| && p(i) && log[i].tokens > 0 {
      TotalSome(log, p, i);
    } else {
      TotalNone(log, p);
    }
  }

  /** With every event stamped before the load, an open figure exceeds the store's total
      by exactly the tokens whose credits were on their way when the load began; so they
      are equal if and only if none of those events has any. */
  lemma EqualAfterResyncExactly(key: nat, a: Actor, run: seq<Step>, now: Moment, k: nat)
    requires Resynced(key, a, run, now, k) && LaterStampsFollow(key, a, After(key, a, run)) && StampedBefore(key, a, a.now.at)
    ensures var t := After(key, a, run);
            var total := SumTokens(t.log, key, Window(ReportWindows(now), k));
            && Figure(t.report, k) == total + Total(a.log, OnTheWay(key, a))
            && (Figure(t.report, k) == total <==>
                  forall i: nat | i < |a.log| && i < |a.credits| && a.log[i].key == key && (a.credits[i].InFlight? || a.credits[i].Buffered?) ::
                    a.log[i].tokens == 0)
  {
    hide ReportWindows, SumTokens, Total, CaughtUp, FiguresAccounted, After, Legal;
    DifferenceKnownBeforehand(key, a, run, now, k);
    TotalNone(a.log, SettledTie(a.log, key, a.now.at, a.credits));
    TotalZeroExactly(a.log, OnTheWay(key, a));
    assert forall i: nat | i < |a.log| && i < |a.credits| :: OnTheWay(key, a)(i) <==> a.log[i].key == key && !Settled(a.credits[i]);
  }

  /** With no credit on its way, an open figure falls short of the store's total by exactly
      the tokens stamped at the instant of the load; so they are equal if and only if no
      event with tokens is. */
  lemma ShortByTiesExactly(key: nat, a: Actor, run: seq<Step>, now: Moment, k: nat)
    requires Resynced(key, a, run, now, k) && LaterStampsFollow(key, a, After(key, a, run)) && Quiet(a)
    ensures var t := After(key, a, run);
            var total := SumTokens(t.log, key, Window(ReportWindows(now), k));
            && Figure(t.report, k) == total - Total(a.log, SettledTie(a.log, key, a.now.at, a.credits))
            && (Figure(t.report, k) == total <==>
                  forall i: nat | i < |a.log| && a.log[i].key == key && a.log[i].at == a.now.at :: a.log[i].tokens == 0)
  {
    hide ReportWindows, SumTokens, Total, CaughtUp, FiguresAccounted, After, Legal;
    DifferenceKnownBeforehand(key, a, run, now, k);
    TotalNone(a.log, OnTheWay(key, a));
    TotalZeroExactly(a.log, SettledTie(a.log, key, a.now.at, a.credits));
  }

  /** A resync under live traffic restores equality: if no credit was on its way when its
      load began and every event was stamped before it, then in every run in which later
      events are stamped after it and inside the bucket, whenever all their credits have
      been applied the open figures equal the store's totals. */
  lemma ResyncRestoresEquality(key: nat, a: Actor, run: seq<Step>, now: Moment, k: nat)
    requires Resynced(key, a, run, now, k) && LaterStampsFollow(key, a, After(key, a, run))
    requires Quiet(a) && StampedBefore(key, a, a.now.at)
    ensures var t := After(key, a, run); Figure(t.report, k) == SumTokens(t.log, key, Window(ReportWindows(now), k))
  {
    hide ReportWindows, SumTokens, After, Legal, CaughtUp, FiguresAccounted, Total;
    EqualAfterResyncExactly(key, a, run, now, k);
  }

  /** An event stamped at the very instant of a load, with its credit already settled, is
      missing from the open figures in every state of every run until the next load. */
  lemma TieIsMissedUntilTheNextLoad(key: nat, a: Actor, run: seq<Step>, now: Moment, k: nat, i: nat)
    requires Inv(key, a) && a.phase.Idle? && Legal(key, a, run) && OneResync(run)
    requires After(key, a, run).phase.Idle? && After(key, a, run).loads != a.loads
    requires k < 3 && SameBucket(a.now, now, k) && a.now.at < now.at
    requires i < |a.log| && i < |a.credits| && a.log[i].key == key && a.log[i].at == a.now.at && Settled(a.credits[i])
    ensures var t := After(key, a, run);
            && t.last.Some? && k < |t.last.value.seen|
            && Missing(InBucket(t, key, now, k), SeenByLoad(t, key, t.last.value, k), AppliedAt(t.credits, t.loads))(i)
  {
    hide ReportWindows, SumTokens, FiguresAccounted, CreditsSound;
    LoadOfRun(key, a, run);
    hide After, Legal;
    OpenWindowEndsNow(now, k);
    OpenWindowEndsNow(a.now, k);
  }

  /** The first load of an actor fails, and an event is written at once. */
  function FirstWrite(e: Event): seq<Step> {
    [QueryFails, Write(e)]
  }

  lemma FirstWriteRuns(key: nat, start: Actor, e: Event)
    requires Fresh(key, start) && e.key == key && e.at <= start.now.at
    ensures Legal(key, start, FirstWrite(e))
    ensures After(key, start, FirstWrite(e))
            == start.(phase := Idle, log := start.log + [e], credits := start.credits + [InFlight])
  {
    OneMoreStep(key, start, [], QueryFails);
    OneMoreStep(key, start, [] + [QueryFails], Write(e));
    hide Legal, After;
    assert FirstWrite(e) == [] + [QueryFails] + [Write(e)];
  }

  /** Its credit is published and applied, the clock still at the instant of the write. */
  function TieRun(e: Event, n: nat): seq<Step> {
    FirstWrite(e) + [Publish(n)] + [ApplyCredit]
  }

  lemma TieRuns(key: nat, start: Actor, e: Event)
    requires Fresh(key, start) && start.buffer == [] && e.key == key && e.at == start.now.at
    ensures var n := |start.log|;
            Legal(key, start, TieRun(e, n))
            && var a := After(key, start, TieRun(e, n));
               && a.phase.Idle? && a.now == start.now
               && a.log == start.log + [e] && |a.credits| == n + 1 && Settled(a.credits[n])
  {
    hide LoadsSound, FiguresAccounted, CreditsSound, FirstWrite;
    var n := |start.log|;
    LogsGoWithCredits(key, start);
    FirstWriteRuns(key, start, e);
    OneMoreStep(key, start, FirstWrite(e), Publish(n));
    OneMoreStep(key, start, FirstWrite(e) + [Publish(n)], ApplyCredit);
    hide Legal, After;
  }

  lemma LogsGoWithCredits(key: nat, a: Actor)
    requires Fresh(key, a)
    ensures |a.credits| == |a.log|
  {
  }

  /** A settled tie can come about: from any fresh actor with room in its buffer a run leads
      to one, and a load can follow it. */
  lemma TieCanHappen(key: nat, start: Actor, tokens: nat)
    requires Fresh(key, start) && start.buffer == []
    ensures var n := |start.log|;
            var run := TieRun(Event(key, tokens, start.now.at), n);
            Legal(key, start, run)
            && var a := After(key, start, run);
               && Inv(key, a) && a.phase.Idle? && a.now == start.now
               && a.log == start.log + [Event(key, tokens, a.now.at)] && |a.credits| == n + 1 && Settled(a.credits[n])
               && Legal(key, a, LoadRun(5)) && OneResync(LoadRun(5))
               && After(key, a, LoadRun(5)).phase.Idle? && After(key, a, LoadRun(5)).loads != a.loads
  {
    hide Inv, ReportWindows, SumTokens, BuildReport, Queries, TieRun, Legal, After, Settled;
    var e, n := Event(key, tokens, start.now.at), |start.log|;
    FreshIsSound(key, start);
    TieRuns(key, start, e);
    hide Fresh;
    RunKeepsInv(key, start, TieRun(e, n));
    var a := After(key, start, TieRun(e, n));
    LoadSoFar(key, a, 5);
    LoadRunBeginsOnce(5);
    FullLoadShowsTheStore(key, a);
  }

  // ---------------------------------------------------------------- a load that nothing interrupts

  /** The first `n` queries of a load, with nothing in between. */
  function Queries(key: nat, a: Actor, n: nat): Actor {
    if n == 0 then a else
      var b := Queries(key, a, n - 1);
      if b.phase.Loading? then Queried(key, b) else b
  }

  /** A load that nothing interrupts. */
  function FullLoad(key: nat, a: Actor): Actor
    requires a.phase.Idle?
  {
    Queries(key, Apply(key, a, BeginLoad), 5)
  }

  function Answer(key: nat, a: Actor, k: nat): int {
    SumTokens(a.log, key, Window(ReportWindows(a.now), k))
  }

  function Answers(key: nat, a: Actor, n: nat): (r: seq<int>)
    ensures |r| == n
  {
    if n == 0 then [] else Answers(key, a, n - 1) + [Answer(key, a, n - 1)]
  }

  function Copies(m: nat, n: nat): seq<nat> {
    if n == 0 then [] else Copies(m, n - 1) + [m]
  }

  lemma {:induction false} LoadInProgress(key: nat, a: Actor, n: nat)
    requires a.phase.Idle? && n <= 4
    ensures Queries(key, Apply(key, a, BeginLoad), n)
            == a.(phase := Loading(Load(a.now, a.credits, Copies(|a.log|, n)), Answers(key, a, n)))
  {
    hide ReportWindows, SumTokens;
    if n > 0 {
      LoadInProgress(key, a, n - 1);
    }
  }

  function StoreReport(key: nat, a: Actor): Report {
    Report(Answer(key, a, 0), Answer(key, a, 1), Answer(key, a, 2), Answer(key, a, 3), Answer(key, a, 4))
  }

  lemma LastQueryOfFullLoad(key: nat, a: Actor)
    requires a.phase.Idle?
    requires Queries(key, Apply(key, a, BeginLoad), 4).phase.Loading?
    ensures FullLoad(key, a) == Queried(key, Queries(key, Apply(key, a, BeginLoad), 4))
  {
    hide Queried;
  }

  lemma FullLoadState(key: nat, a: Actor)
    requires a.phase.Idle?
    ensures var t, n, r := FullLoad(key, a), |a.log|, StoreReport(key, a);
            t == a.(report := r, latest := r, last := Some(Load(a.now, a.credits, [n, n, n, n, n])), loads := a.loads + 1)
  {
    hide ReportWindows, SumTokens;
    var n := |a.log|;
    LoadInProgress(key, a, 4);
    LastQueryOfFullLoad(key, a);
    hide FullLoad, Queries;
    assert Copies(n, 1) == [n];
    assert Copies(n, 3) == [n, n, n];
    assert Answers(key, a, 1) == [Answer(key, a, 0)];
    assert Answers(key, a, 3) == [Answer(key, a, 0), Answer(key, a, 1), Answer(key, a, 2)];
    assert Copies(n, 4) + [n] == [n, n, n, n, n];
  }

  /** Such a load replaces the figures by the report built from the store. */
  lemma FullLoadShowsTheStore(key: nat, a: Actor)
    requires a.phase.Idle?
    ensures var t, n := FullLoad(key, a), |a.log|;
            && Ok(t.report) == BuildReport(ReportWindows(a.now), StoreSum(a.log, key))
            && t == a.(report := t.report, latest := t.report, last := Some(Load(a.now, a.credits, [n, n, n, n, n])), loads := a.loads + 1)
            && forall k: nat | k < 5 :: Figure(t.report, k) == Answer(key, a, k)
  {
    hide ReportWindows, SumTokens, FullLoad;
    FullLoadState(key, a);
  }

  lemma {:induction false} QueriesKeepInv(key: nat, a: Actor, n: nat)
    requires Inv(key, a)
    ensures Inv(key, Queries(key, a, n))
  {
    hide Inv, Queried;
    if n > 0 {
      QueriesKeepInv(key, a, n - 1);
      var b := Queries(key, a, n - 1);
      if b.phase.Loading? {
        StepKeepsInv(key, b, Query);
      }
    }
  }

  lemma FullLoadKeepsInv(key: nat, a: Actor)
    requires Inv(key, a) && a.phase.Idle?
    ensures Inv(key, FullLoad(key, a))
  {
    hide Inv, Queries;
    StepKeepsInv(key, a, BeginLoad);
    QueriesKeepInv(key, Apply(key, a, BeginLoad), 5);
  }

  /** No credit is on its way. */
  ghost predicate Quiet(a: Actor) {
    forall i: nat | i < |a.credits| :: a.credits[i].Gone? || a.credits[i].Applied?
  }

  ghost predicate NoLoadIn(run: seq<Step>) {
    forall s | s in run :: !s.BeginLoad?
  }

  /** Credits settled before a point stay settled as long as no load begins. */
  lemma {:induction false} SettledCreditsStay(key: nat, a: Actor, run: seq<Step>)
    requires Inv(key, a) && a.phase.Idle? && Quiet(a) && Legal(key, a, run) && NoLoadIn(run)
    ensures var t := After(key, a, run);
            && Inv(key, t) && t.phase.Idle? && t.last == a.last && t.loads == a.loads
            && a.log <= t.log && a.credits <= t.credits
    decreases |run|
  {
    hide Inv, Queried;
    if run != [] {
      var front, s := run[..|run| - 1], run[|run| - 1];
      SettledCreditsStay(key, a, front);
      var t := After(key, a, front);
      StepKeepsInv(key, t, s);
      assert s in run;
      if s.ApplyCredit? {
        BufferedHead(key, t);
      }
    }
  }

  lemma BufferedHead(key: nat, a: Actor)
    requires Inv(key, a) && a.buffer != []
    ensures a.buffer[0] < |a.credits| && a.credits[a.buffer[0]].Buffered?
  {
  }

  /** Every event after the first `n` was credited, and stamped inside the bucket. */
  ghost predicate AllCredited(key: nat, a: Actor, n: nat, r: Range)
    requires |a.credits| == |a.log|
  {
    forall i: nat | n <= i < |a.log| && a.log[i].key == key :: a.credits[i].Applied? && Within(r, a.log[i].at)
  }

  ghost predicate StampedBefore(key: nat, a: Actor, instant: int) {
    forall i: nat | i < |a.log| && a.log[i].key == key :: a.log[i].at < instant
  }

  // ---------------------------------------------------------------- the same, for a load that nothing interrupts

  /** The uninterrupted load as a run, up to its first `n` queries. */
  function LoadRun(n: nat): seq<Step> {
    if n == 0 then [BeginLoad] else LoadRun(n - 1) + [Query]
  }

  lemma {:induction false} LoadRunBeginsOnce(n: nat)
    ensures |LoadRun(n)| == n + 1 && OneResync(LoadRun(n))
  {
    if n > 0 {
      LoadRunBeginsOnce(n - 1);
    }
  }

  lemma OneMoreStep(key: nat, a: Actor, run: seq<Step>, s: Step)
    requires Legal(key, a, run) && Enabled(After(key, a, run), s)
    ensures Legal(key, a, run + [s]) && After(key, a, run + [s]) == Apply(key, After(key, a, run), s)
  {
    assert (run + [s])[..|run|] == run;
  }

  lemma {:induction false} LoadSoFar(key: nat, a: Actor, n: nat)
    requires a.phase.Idle? && n <= 5
    ensures Legal(key, a, LoadRun(n))
    ensures After(key, a, LoadRun(n)) == Queries(key, Apply(key, a, BeginLoad), n)
  {
    hide ReportWindows, SumTokens, Queried;
    if n == 0 {
      OneMoreStep(key, a, [], BeginLoad);
      assert LoadRun(0) == [] + [BeginLoad];
    } else {
      LoadSoFar(key, a, n - 1);
      LoadInProgress(key, a, n - 1);
      OneMoreStep(key, a, LoadRun(n - 1), Query);
    }
  }

  /** Runs compose. */
  lemma {:induction false} ThenRun(key: nat, a: Actor, first: seq<Step>, next: seq<Step>)
    requires Legal(key, a, first) && Legal(key, After(key, a, first), next)
    ensures Legal(key, a, first + next)
    ensures After(key, a, first + next) == After(key, After(key, a, first), next)
    decreases |next|
  {
    hide Apply, Enabled;
    if next == [] {
      assert first + next == first;
    } else {
      var front, s := next[..|next| - 1], next[|next| - 1];
      ThenRun(key, a, first, front);
      OneMoreStep(key, a, first + front, s);
      assert first + front + [s] == first + next;
    }
  }

  /** From any quiet state a clean resync can happen: one whose queries nothing interrupts. */
  lemma CleanResyncCanHappen(key: nat, a: Actor, k: nat)
    requires Inv(key, a) && a.phase.Idle? && Quiet(a) && StampedBefore(key, a, a.now.at) && k < 3
    ensures Resynced(key, a, LoadRun(5), a.now, k) && LaterStampsFollow(key, a, After(key, a, LoadRun(5)))
  {
    hide ReportWindows, SumTokens, BuildReport, Apply, Enabled, FiguresAccounted, LoadsSound, Queries;
    LoadSoFar(key, a, 5);
    LoadRunBeginsOnce(5);
    FullLoadShowsTheStore(key, a);
    hide After, Legal, LoadRun;
  }

  /** A clean resync restores equality and credits keep it: if no credit was on its way
      when the load began and every event was stamped before it, then as long as no
      bucket rolls over, whenever all later credits have been applied the open figures
      equal the store's totals again. */
  lemma CleanResyncRestoresEquality(key: nat, a: Actor, run: seq<Step>, now: Moment, k: nat)
    requires Inv(key, a) && a.phase.Idle? && Quiet(a) && StampedBefore(key, a, a.now.at)
    requires Legal(key, FullLoad(key, a), run) && NoLoadIn(run)
    requires k < 3 && SameBucket(a.now, now, k)
    requires var t := After(key, FullLoad(key, a), run);
             |t.credits| == |t.log| && AllCredited(key, t, |a.log|, Window(ReportWindows(now), k))
    ensures var t := After(key, FullLoad(key, a), run);
            Figure(t.report, k) == SumTokens(t.log, key, Window(ReportWindows(now), k))
  {
    hide ReportWindows, SumTokens, BuildReport, Apply, Enabled, FiguresAccounted, LoadsSound, Queries, Total;
    LoadSoFar(key, a, 5);
    LoadRunBeginsOnce(5);
    ThenRun(key, a, LoadRun(5), run);
    FullLoadShowsTheStore(key, a);
    FullLoadKeepsInv(key, a);
    SettledCreditsStay(key, FullLoad(key, a), run);
    hide After, Legal, FullLoad, LoadRun;
    var all := LoadRun(5) + run;
    assert OneResync(all) by {
      hide LoadRun;
      assert forall j | 6 <= j < |all| :: all[j] in run;
    }
    var t := After(key, a, all);
    ResyncDifference(key, a, all, now, k);
    TotalNone(t.log, CountedAgain(t.log, key, a.now.at, a.credits, t.last.value.seen[k]));
    TotalNone(t.log, SettledTie(t.log, key, a.now.at, a.credits));
  }

  /** A longer half-open range holds the events of a shorter one and those in between. */
  lemma SumsOverLongerRange(log: seq<Event>, key: nat, from: int, mid: int, to: int)
    requires from <= mid <= to
    ensures SumTokens(log, key, Range(from, to))
            == SumTokens(log, key, Range(from, mid)) + Total(log, Counted(log, key, Range(mid, to), |log|))
  {
    var n := |log|;
    assert log[..n] == log;
    QueryIsTotal(log, key, Range(from, mid), n);
    QueryIsTotal(log, key, Range(from, to), n);
    hide SumTokens, Total;
    TotalsBalance(log, Counted(log, key, Range(from, mid), n), Counted(log, key, Range(mid, to), n), Never(),
                  Counted(log, key, Range(from, to), n), Never(), Never());
    TotalNone(log, Never());
  }

  lemma DriftAfterCleanLoad(key: nat, a: Actor, now: Moment, k: nat)
    requires a.phase.Idle? && k < 3 && SameBucket(a.now, now, k)
    ensures Figure(FullLoad(key, a).report, k) ==
            SumTokens(a.log, key, Window(ReportWindows(now), k)) - Total(a.log, Counted(a.log, key, Range(a.now.at, now.at), |a.log|))
  {
    FullLoadShowsTheStore(key, a);
    OpenWindowEndsNow(now, k);
    OpenWindowEndsNow(a.now, k);
    hide ReportWindows, FullLoad, SumTokens, Total;
    SumsOverLongerRange(a.log, key, Window(ReportWindows(now), k).from, a.now.at, now.at);
  }

  /** The condition on stamps is needed.  Queries are half open, so an event stamped at
      the very instant of the load is in no figure, its credit spent, until the next
      load: after a clean resync a figure is the store's total at a later instant exactly
      if no event of the bucket with any tokens is stamped in between. */
  lemma CleanResyncEqualExactly(key: nat, a: Actor, now: Moment, k: nat)
    requires a.phase.Idle? && k < 3 && SameBucket(a.now, now, k)
    ensures Figure(FullLoad(key, a).report, k) == SumTokens(a.log, key, Window(ReportWindows(now), k))
            <==> forall i: nat | i < |a.log| && a.log[i].key == key && a.now.at <= a.log[i].at < now.at :: a.log[i].tokens == 0
  {
    DriftAfterCleanLoad(key, a, now, k);
    hide ReportWindows, SumTokens, Total, FullLoad;
    var gap := Counted(a.log, key, Range(a.now.at, now.at), |a.log|);
    if i: nat :| i < |a.log| && gap(i) && a.log[i].tokens > 0 {
      TotalSome(a.log, gap, i);
    } else {
      TotalNone(a.log, gap);
    }
  }

  lemma SumOfOne(key: nat, tokens: nat, at: int, r: Range)
    ensures SumTokens([Event(key, tokens, at)], key, r) == if Within(r, at) then tokens else 0
  {
    assert [Event(key, tokens, at)][..0] == [];
  }

  /** A load between an event's write and its publish sees the event, and the credit that
      follows counts it again, until the next load. */
  lemma LoadBetweenWriteAndPublishCountsTwice(key: nat, a: Actor, tokens: nat, at: int, k: nat)
    requires a.phase.Idle? && a.log == [Event(key, tokens, at)] && a.credits == [InFlight] && a.buffer == []
    requires k < 3 && Within(Window(ReportWindows(a.now), k), at)
    ensures var b := FullLoad(key, a);
            && Enabled(b, Publish(0)) && Enabled(Apply(key, b, Publish(0)), ApplyCredit)
            && Figure(Apply(key, Apply(key, b, Publish(0)), ApplyCredit).report, k) == 2 * tokens
            && SumTokens(a.log, key, Window(ReportWindows(a.now), k)) == tokens
  {
    hide ReportWindows, FullLoad, Queried, BuildReport;
    FullLoadShowsTheStore(key, a);
    var b := FullLoad(key, a);
    SumOfOne(key, tokens, at, Window(ReportWindows(a.now), k));
    assert Figure(b.report, k) == tokens;
  }

  /** That state is reached: a fresh actor of an empty store, whose first load fails, and
      one event written but not yet published. */
  lemma LoadBetweenWriteAndPublishCanHappen(key: nat, start: Actor, tokens: nat, at: int)
    requires Fresh(key, start) && start.log == [] && at <= start.now.at
    ensures var run := FirstWrite(Event(key, tokens, at));
            Legal(key, start, run)
            && var a := After(key, start, run);
               a.phase.Idle? && a.log == [Event(key, tokens, at)] && a.credits == [InFlight] && a.buffer == [] && a.now == start.now
  {
    FirstWriteRuns(key, start, Event(key, tokens, at));
  }
}
