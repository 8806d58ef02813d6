/**
 The read model one actor keeps of its key's report, next to the store it approximates.

 Requests write an event to the store and afterwards publish its tokens as a credit;
 credits wait in a buffer of 64 and are lost when it is full.  The actor applies them
 one at a time, and every so often reloads: it reads the clock and runs the five bucket
 queries.  Writes and publishes run between any two of its steps, queries included.
 */
module ReadModel {
  import opened Calendar
  import opened UsageReport
  import opened Wrappers

  const BUFFER_CAP := 64

  /** What became of the credit of an event. */
  datatype Credit =
    | InFlight             // written, not yet published
    | Buffered
    | Gone                 // dropped, or published before this actor, or another key's
    | Applied(load: nat)   // added to the figures when this many loads had succeeded

  /** A load: when it read the clock, how every credit stood then, and how many events
      the store held at each of its queries. */
  datatype Load = Load(at: Moment, before: seq<Credit>, seen: seq<nat>)

  datatype Phase =
    | Idle
    | Loading(load: Load, sums: seq<int>)

  datatype Actor = Actor(
    log: seq<Event>,
    credits: seq<Credit>,
    buffer: seq<nat>,
    report: Report,
    latest: Report,        // what was published last
    phase: Phase,
    last: Option<Load>,
    loads: nat,
    now: Moment)

  const ZERO := Report(0, 0, 0, 0, 0)

  /** A fresh actor begins with a load.  The store may hold any events, some of them with
      their publish still to come and some with their credits already in the buffer, which
      fills from the moment the actor is registered. */
  ghost predicate Fresh(key: nat, a: Actor) {
    && CreditsSound(key, a) && (forall i: nat | i < |a.credits| :: !a.credits[i].Applied?)
    && (forall i: nat | i < |a.log| :: a.log[i].at <= a.now.at)
    && a.report == a.latest == ZERO && a.last.None? && a.loads == 0
    && a.phase == Loading(Load(a.now, a.credits, []), [])
  }

  // ---------------------------------------------------------------- the five buckets by number

  function Window(w: Windows, k: nat): Range {
    if k == 0 then w.today else if k == 1 then w.thisWeek else if k == 2 then w.thisMonth
    else if k == 3 then w.pastMonth else w.before
  }

  function Figure(r: Report, k: nat): int {
    if k == 0 then r.today else if k == 1 then r.thisWeek else if k == 2 then r.thisMonth
    else if k == 3 then r.pastMonth else r.before
  }

  function Credited(r: Report, tokens: nat): Report {
    r.(today := r.today + tokens, thisWeek := r.thisWeek + tokens, thisMonth := r.thisMonth + tokens)
  }

  // ---------------------------------------------------------------- steps

  datatype Step =
    | Tick(to: Moment)
    | Write(e: Event)
    | Publish(i: nat)
    | ApplyCredit
    | BeginLoad
    | Query
    | QueryFails

  predicate Enabled(a: Actor, s: Step) {
    match s
    case Tick(m) => a.now.at <= m.at
    case Write(e) => e.at <= a.now.at
    case Publish(i) => i < |a.credits| && a.credits[i].InFlight?
    case ApplyCredit =>
      a.phase.Idle? && a.buffer != [] && a.buffer[0] < |a.credits| && a.buffer[0] < |a.log|
    case BeginLoad => a.phase.Idle?
    case Query => a.phase.Loading?
    case QueryFails => a.phase.Loading?
  }

  /** The next bucket query; the fifth completes the report. */
  function Queried(key: nat, a: Actor): Actor
    requires a.phase.Loading?
  {
    var l := a.phase.load;
    var sums := a.phase.sums + [SumTokens(a.log, key, Window(ReportWindows(l.at), |a.phase.sums|))];
    var load := l.(seen := l.seen + [|a.log|]);
    if |sums| < 5 then a.(phase := Loading(load, sums)) else
      var report := Report(sums[0], sums[1], sums[2], sums[3], sums[4]);
      a.(report := report, latest := report, phase := Idle, last := Some(load), loads := a.loads + 1)
  }

  function Apply(key: nat, a: Actor, s: Step): Actor
    requires Enabled(a, s)
  {
    match s
    case Tick(m) => a.(now := m)
    case Write(e) => a.(log := a.log + [e], credits := a.credits + [if e.key == key then InFlight else Gone])
    case Publish(i) =>
      if |a.buffer| < BUFFER_CAP then a.(buffer := a.buffer + [i], credits := a.credits[i := Buffered])
      else a.(credits := a.credits[i := Gone])
    case ApplyCredit =>
      var i := a.buffer[0];
      var report := Credited(a.report, a.log[i].tokens);
      a.(buffer := a.buffer[1..], credits := a.credits[i := Applied(a.loads)], report := report, latest := report)
    case BeginLoad => a.(phase := Loading(Load(a.now, a.credits, []), []))
    case Query => Queried(key, a)
    case QueryFails => a.(phase := Idle, report := a.latest)
  }

  ghost predicate Legal(key: nat, a: Actor, run: seq<Step>)
    decreases |run|, 0
  {
    run == [] || (Legal(key, a, run[..|run| - 1]) && Enabled(After(key, a, run[..|run| - 1]), run[|run| - 1]))
  }

  ghost function After(key: nat, a: Actor, run: seq<Step>): Actor
    requires Legal(key, a, run)
    decreases |run|, 1
  {
    if run == [] then a else Apply(key, After(key, a, run[..|run| - 1]), run[|run| - 1])
  }

  // ---------------------------------------------------------------- sums over chosen events

  /** The tokens of the events whose numbers `keep` accepts. */
  function Total(log: seq<Event>, keep: nat -> bool): nat {
    if log == [] then 0 else
      var n := |log| - 1;
      Total(log[..n], keep) + (if keep(n) then log[n].tokens else 0)
  }

  lemma {:induction false} TotalSame(log: seq<Event>, p: nat -> bool, q: nat -> bool)
    requires forall i: nat | i < |log| :: p(i) == q(i)
    ensures Total(log, p) == Total(log, q)
  {
    if log != [] {
      TotalSame(log[..|log| - 1], p, q);
    }
  }

  lemma {:induction false} TotalOneMore(log: seq<Event>, p: nat -> bool, q: nat -> bool, j: nat)
    requires j < |log| && !p(j) && q(j)
    requires forall i: nat | i < |log| && i != j :: p(i) == q(i)
    ensures Total(log, q) == Total(log, p) + log[j].tokens
  {
    var n := |log| - 1;
    if j == n {
      TotalSame(log[..n], p, q);
    } else {
      TotalOneMore(log[..n], p, q, j);
    }
  }

  lemma {:induction false} TotalNone(log: seq<Event>, p: nat -> bool)
    requires forall i: nat | i < |log| :: p(i) ==> log[i].tokens == 0
    ensures Total(log, p) == 0
  {
    if log != [] {
      TotalNone(log[..|log| - 1], p);
    }
  }

  lemma {:induction false} TotalSome(log: seq<Event>, p: nat -> bool, j: nat)
    requires j < |log| && p(j)
    ensures Total(log, p) >= log[j].tokens
  {
    if j < |log| - 1 {
      TotalSome(log[..|log| - 1], p, j);
    }
  }

  /** If every event is chosen as often on the left as on the right, the sums agree. */
  lemma {:induction false} TotalsBalance(log: seq<Event>, a: nat -> bool, b: nat -> bool, c: nat -> bool,
                                         d: nat -> bool, e: nat -> bool, f: nat -> bool)
    requires forall i: nat | i < |log| :: Bit(a(i)) + Bit(b(i)) + Bit(c(i)) == Bit(d(i)) + Bit(e(i)) + Bit(f(i))
    ensures Total(log, a) + Total(log, b) + Total(log, c) == Total(log, d) + Total(log, e) + Total(log, f)
  {
    if log != [] {
      var n := |log| - 1;
      TotalsBalance(log[..n], a, b, c, d, e, f);
      assert Bit(a(n)) + Bit(b(n)) + Bit(c(n)) == Bit(d(n)) + Bit(e(n)) + Bit(f(n));
    }
  }

  /** The events of `key` within a range, among the first `seen`. */
  function Counted(log: seq<Event>, key: nat, r: Range, seen: nat): nat -> bool {
    (i: nat) => i < |log| && i < seen && log[i].key == key && Within(r, log[i].at)
  }

  /** The events whose credits were applied after `loads` loads. */
  function AppliedAt(credits: seq<Credit>, loads: nat): nat -> bool {
    (i: nat) => i < |credits| && credits[i] == Applied(loads)
  }

  lemma {:induction false} QueryIsTotal(log: seq<Event>, key: nat, r: Range, seen: nat)
    requires seen <= |log|
    ensures SumTokens(log[..seen], key, r) == Total(log, Counted(log, key, r, seen))
  {
    if |log| > seen {
      var front := log[..|log| - 1];
      QueryIsTotal(front, key, r, seen);
      assert front[..seen] == log[..seen];
      TotalSame(front, Counted(front, key, r, seen), Counted(log, key, r, seen));
    } else if log != [] {
      var front := log[..|log| - 1];
      assert log[..seen] == log && front[..seen - 1] == front;
      QueryIsTotal(front, key, r, seen - 1);
      TotalSame(front, Counted(front, key, r, seen - 1), Counted(log, key, r, seen));
    }
  }

  // ---------------------------------------------------------------- the books

  /** What the queries of a load found, of which `sums` are in. */
  ghost predicate SumsAreQueries(key: nat, a: Actor, l: Load, sums: seq<int>) {
    && |l.seen| == |sums|
    && forall k: nat | k < |sums| ::
         l.seen[k] <= |a.log| && sums[k] == SumTokens(a.log[..l.seen[k]], key, Window(ReportWindows(l.at), k))
  }

  predicate Settled(c: Credit) {
    c.Gone? || c.Applied?
  }

  /** What a load's record of the credits still says, `loads` being its own number: the
      events it began with are stamped no later than its clock reading and were found by
      each of its queries, the settled credits among them stand as they stood, and exactly
      those applied by then were applied before it. */
  ghost predicate Remembers(a: Actor, l: Load, loads: nat) {
    && |l.before| <= |a.credits| == |a.log|
    && (forall k: nat | k < |l.seen| :: |l.before| <= l.seen[k] <= |a.log|)
    && (forall i: nat | i < |l.before| :: a.log[i].at <= l.at.at)
    && (forall i: nat | i < |l.before| && Settled(l.before[i]) :: a.credits[i] == l.before[i])
    && (forall i: nat | i < |l.before| && l.before[i].Applied? :: l.before[i].load < loads)
    && (forall i: nat | i < |a.credits| && a.credits[i].Applied? && a.credits[i].load < loads ::
          i < |l.before| && l.before[i] == a.credits[i])
  }

  /** What the queries of the last load found for a bucket. */
  ghost function Found(key: nat, log: seq<Event>, last: Option<Load>, k: nat): int {
    match last
    case None => 0
    case Some(l) =>
      if k < |l.seen| && l.seen[k] <= |log| then SumTokens(log[..l.seen[k]], key, Window(ReportWindows(l.at), k)) else 0
  }

  ghost function AppliedSince(a: Actor): nat {
    Total(a.log, AppliedAt(a.credits, a.loads))
  }

  /** A figure is what the last load found, plus, for the three open buckets, the
      credits applied since. */
  ghost predicate FigureAccounted(key: nat, a: Actor, k: nat) {
    Figure(a.report, k) == Found(key, a.log, a.last, k) + (if k < 3 then AppliedSince(a) else 0)
  }

  ghost predicate FiguresAccounted(key: nat, a: Actor) {
    forall k: nat | k < 5 :: FigureAccounted(key, a, k)
  }

  ghost predicate CreditsSound(key: nat, a: Actor) {
    && |a.credits| == |a.log| && |a.buffer| <= BUFFER_CAP
    && (forall i: nat | i < |a.credits| && a.log[i].key != key :: a.credits[i].Gone?)
    && (forall i: nat | i < |a.credits| && a.credits[i].Applied? :: a.credits[i].load <= a.loads)
    && (forall j: nat | j < |a.buffer| :: a.buffer[j] < |a.credits| && a.credits[a.buffer[j]].Buffered?)
    && (forall j: nat, m: nat | j < m < |a.buffer| :: a.buffer[j] != a.buffer[m])
    && (forall i: nat | i < |a.credits| && a.credits[i].Buffered? :: i in a.buffer)
  }

  ghost predicate LoadsSound(key: nat, a: Actor) {
    && (forall i: nat | i < |a.log| :: a.log[i].at <= a.now.at)
    && (a.last.Some? ==>
          && |a.last.value.seen| == 5 && a.last.value.at.at <= a.now.at
          && Remembers(a, a.last.value, a.loads))
    && (a.phase.Loading? ==>
          && a.phase.load.at.at <= a.now.at && |a.phase.sums| < 5
          && SumsAreQueries(key, a, a.phase.load, a.phase.sums)
          && Remembers(a, a.phase.load, a.loads + 1))
  }

  ghost predicate Inv(key: nat, a: Actor) {
    CreditsSound(key, a) && LoadsSound(key, a) && FiguresAccounted(key, a) && a.latest == a.report
  }

  lemma FreshIsSound(key: nat, a: Actor)
    requires Fresh(key, a)
    ensures Inv(key, a)
  {
    TotalNone(a.log, AppliedAt(a.credits, 0));
  }

  lemma WriteCreditsNobody(key: nat, a: Actor, e: Event)
    requires CreditsSound(key, a) && Enabled(a, Write(e))
    ensures AppliedSince(Apply(key, a, Write(e))) == AppliedSince(a)
  {
    var t := Apply(key, a, Write(e));
    assert t.log[..|a.log|] == a.log;
    TotalSame(a.log, AppliedAt(a.credits, a.loads), AppliedAt(t.credits, t.loads));
  }

  lemma WriteKeepsFigures(key: nat, a: Actor, e: Event)
    requires Inv(key, a) && Enabled(a, Write(e))
    ensures FiguresAccounted(key, Apply(key, a, Write(e)))
  {
    hide ReportWindows, SumTokens, AppliedSince, CreditsSound;
    var t := Apply(key, a, Write(e));
    WriteCreditsNobody(key, a, e);
    forall k: nat | k < 5 ensures FigureAccounted(key, t, k) {
      assert FigureAccounted(key, a, k);
      if a.last.Some? {
        assert t.log[..a.last.value.seen[k]] == a.log[..a.last.value.seen[k]];
      }
    }
  }

  lemma WriteKeepsLoads(key: nat, a: Actor, e: Event)
    requires Inv(key, a) && Enabled(a, Write(e))
    ensures LoadsSound(key, Apply(key, a, Write(e)))
  {
    hide ReportWindows, SumTokens, FiguresAccounted;
    var t := Apply(key, a, Write(e));
    if a.phase.Loading? {
      forall k: nat | k < |a.phase.sums| ensures t.log[..a.phase.load.seen[k]] == a.log[..a.phase.load.seen[k]] {
      }
    }
  }

  lemma PublishKeepsFigures(key: nat, a: Actor, i: nat)
    requires Inv(key, a) && Enabled(a, Publish(i))
    ensures FiguresAccounted(key, Apply(key, a, Publish(i)))
  {
    var t := Apply(key, a, Publish(i));
    TotalSame(a.log, AppliedAt(a.credits, a.loads), AppliedAt(t.credits, t.loads));
    hide ReportWindows, SumTokens, Total;
    forall k: nat | k < 5 ensures FigureAccounted(key, t, k) {
      assert FigureAccounted(key, a, k);
    }
  }

  lemma PublishKeepsLoads(key: nat, a: Actor, i: nat)
    requires LoadsSound(key, a) && Enabled(a, Publish(i))
    ensures LoadsSound(key, Apply(key, a, Publish(i)))
  {
    hide ReportWindows, SumTokens;
  }

  lemma PublishKeepsCredits(key: nat, a: Actor, i: nat)
    requires CreditsSound(key, a) && Enabled(a, Publish(i))
    ensures CreditsSound(key, Apply(key, a, Publish(i)))
  {
    var t := Apply(key, a, Publish(i));
    if |a.buffer| < BUFFER_CAP {
      assert t.buffer[|a.buffer|] == i;
    }
  }

  lemma ApplyCreditKeepsFigures(key: nat, a: Actor)
    requires Inv(key, a) && Enabled(a, ApplyCredit)
    ensures FiguresAccounted(key, Apply(key, a, ApplyCredit))
  {
    var t := Apply(key, a, ApplyCredit);
    TotalOneMore(a.log, AppliedAt(a.credits, a.loads), AppliedAt(t.credits, t.loads), a.buffer[0]);
    hide ReportWindows, SumTokens, Total;
    forall k: nat | k < 5 ensures FigureAccounted(key, t, k) {
      assert FigureAccounted(key, a, k);
    }
  }

  lemma ApplyCreditKeepsLoads(key: nat, a: Actor)
    requires CreditsSound(key, a) && LoadsSound(key, a) && Enabled(a, ApplyCredit)
    ensures LoadsSound(key, Apply(key, a, ApplyCredit))
  {
    hide ReportWindows, SumTokens;
  }

  lemma ApplyCreditKeepsCredits(key: nat, a: Actor)
    requires CreditsSound(key, a) && Enabled(a, ApplyCredit)
    ensures CreditsSound(key, Apply(key, a, ApplyCredit))
  {
    var t := Apply(key, a, ApplyCredit);
    forall m: nat | m < |t.credits| && t.credits[m].Buffered? ensures m in t.buffer {
      assert m in a.buffer;
      var j :| 0 <= j < |a.buffer| && a.buffer[j] == m;
      assert t.buffer[j - 1] == m;
    }
  }

  lemma QueryKeepsLoads(key: nat, a: Actor)
    requires CreditsSound(key, a) && LoadsSound(key, a) && Enabled(a, Query)
    ensures LoadsSound(key, Apply(key, a, Query))
  {
    hide ReportWindows, SumTokens;
    assert a.log[..|a.log|] == a.log;
  }

  lemma QueryKeepsCredits(key: nat, a: Actor)
    requires CreditsSound(key, a) && Enabled(a, Query)
    ensures CreditsSound(key, Apply(key, a, Query))
  {
    hide ReportWindows, SumTokens;
  }

  /** The queries of a finished load, the last one included, are what its figures show. */
  lemma LastQuerySettles(key: nat, a: Actor, k: nat)
    requires LoadsSound(key, a) && a.phase.Loading? && |a.phase.sums| == 4 && k < 5
    ensures var t := Queried(key, a); Figure(t.report, k) == Found(key, t.log, t.last, k)
  {
    hide ReportWindows, SumTokens, Remembers;
    assert a.log[..|a.log|] == a.log;
    if k < 4 {
      assert k < |a.phase.sums|;
    }
  }

  lemma QueryKeepsFigures(key: nat, a: Actor)
    requires Inv(key, a) && Enabled(a, Query)
    ensures FiguresAccounted(key, Apply(key, a, Query))
  {
    var t := Apply(key, a, Query);
    if |a.phase.sums| == 4 {
      TotalNone(t.log, AppliedAt(t.credits, t.loads));
      assert AppliedSince(t) == 0;
      hide AppliedSince, Queried, Found, Figure, CreditsSound, LoadsSound;
      forall k: nat | k < 5 ensures FigureAccounted(key, t, k) {
        LastQuerySettles(key, a, k);
      }
    } else {
      hide ReportWindows, SumTokens, Total;
      forall k: nat | k < 5 ensures FigureAccounted(key, t, k) {
        assert FigureAccounted(key, a, k);
      }
    }
  }

  lemma WriteKeepsInv(key: nat, a: Actor, e: Event)
    requires Inv(key, a) && Enabled(a, Write(e))
    ensures Inv(key, Apply(key, a, Write(e)))
  {
    WriteKeepsFigures(key, a, e);
    WriteKeepsLoads(key, a, e);
    hide LoadsSound, FiguresAccounted;
  }

  /** Ticks, and the beginning and failing of a load, touch no figure and no credit. */
  lemma IdleStepKeepsInv(key: nat, a: Actor, s: Step)
    requires Inv(key, a) && Enabled(a, s) && (s.Tick? || s.BeginLoad? || s.QueryFails?)
    ensures Inv(key, Apply(key, a, s))
  {
    IdleStepKeepsLoads(key, a, s);
    hide ReportWindows, SumTokens, Total, LoadsSound;
    forall k: nat | k < 5 ensures FigureAccounted(key, Apply(key, a, s), k) {
      assert FigureAccounted(key, a, k);
    }
  }

  lemma IdleStepKeepsLoads(key: nat, a: Actor, s: Step)
    requires CreditsSound(key, a) && LoadsSound(key, a) && Enabled(a, s) && (s.Tick? || s.BeginLoad? || s.QueryFails?)
    ensures LoadsSound(key, Apply(key, a, s))
  {
    hide ReportWindows, SumTokens;
  }

  lemma StepKeepsInv(key: nat, a: Actor, s: Step)
    requires Inv(key, a) && Enabled(a, s)
    ensures Inv(key, Apply(key, a, s))
  {
    hide CreditsSound, LoadsSound, FiguresAccounted;
    match s
    case Write(e) => WriteKeepsInv(key, a, e);
    case Publish(i) =>
      PublishKeepsFigures(key, a, i);
      PublishKeepsCredits(key, a, i);
      PublishKeepsLoads(key, a, i);
    case ApplyCredit =>
      ApplyCreditKeepsFigures(key, a);
      ApplyCreditKeepsCredits(key, a);
      ApplyCreditKeepsLoads(key, a);
    case Query =>
      QueryKeepsFigures(key, a);
      QueryKeepsCredits(key, a);
      QueryKeepsLoads(key, a);
    case _ => IdleStepKeepsInv(key, a, s);
  }

  lemma {:induction false} RunKeepsInv(key: nat, a: Actor, run: seq<Step>)
    requires Inv(key, a) && Legal(key, a, run)
    ensures Inv(key, After(key, a, run))
    decreases |run|
  {
    hide Inv, Apply, Enabled;
    if run != [] {
      RunKeepsInv(key, a, run[..|run| - 1]);
      StepKeepsInv(key, After(key, a, run[..|run| - 1]), run[|run| - 1]);
    }
  }

  // ---------------------------------------------------------------- drift, exactly

  /** Seen by the bucket's query in the last load. */
  function SeenByLoad(a: Actor, key: nat, l: Load, k: nat): nat -> bool
    requires k < |l.seen|
  {
    Counted(a.log, key, Window(ReportWindows(l.at), k), l.seen[k])
  }

  /** In the bucket at instant `now`. */
  function InBucket(a: Actor, key: nat, now: Moment, k: nat): nat -> bool {
    Counted(a.log, key, Window(ReportWindows(now), k), |a.log|)
  }

  /** In the bucket, but neither seen by the load nor credited since. */
  function Missing(inBucket: nat -> bool, seen: nat -> bool, applied: nat -> bool): nat -> bool {
    (i: nat) => inBucket(i) && !seen(i) && !applied(i)
  }

  /** Seen by the load and credited again since. */
  function Doubled(seen: nat -> bool, applied: nat -> bool): nat -> bool {
    (i: nat) => seen(i) && applied(i)
  }

  /** Credited since, though not in the bucket. */
  function Stray(inBucket: nat -> bool, applied: nat -> bool): nat -> bool {
    (i: nat) => applied(i) && !inBucket(i)
  }

  /** An open bucket has not rolled over between a load at `at` and `now`. */
  predicate SameBucket(at: Moment, now: Moment, k: nat) {
    at.at <= now.at && Window(ReportWindows(now), k).from == Window(ReportWindows(at), k).from
  }

  lemma OpenWindowEndsNow(now: Moment, k: nat)
    requires k < 3
    ensures Window(ReportWindows(now), k).from <= now.at == Window(ReportWindows(now), k).to
  {
    WeekContainsTodayWithinTwoMonths(now);
    WindowsTile(now);
  }

  function Never(): nat -> bool { (i: nat) => false }

  lemma DriftInState(key: nat, a: Actor, now: Moment, k: nat)
    requires Inv(key, a) && a.last.Some? && k < 3 && SameBucket(a.last.value.at, now, k)
    ensures var seen, applied, inBucket := SeenByLoad(a, key, a.last.value, k), AppliedAt(a.credits, a.loads), InBucket(a, key, now, k);
            Figure(a.report, k) ==
            SumTokens(a.log, key, Window(ReportWindows(now), k))
            - Total(a.log, Missing(inBucket, seen, applied))
            + Total(a.log, Doubled(seen, applied))
            + Total(a.log, Stray(inBucket, applied))
  {
    var l := a.last.value;
    var seen, applied, inBucket := SeenByLoad(a, key, l, k), AppliedAt(a.credits, a.loads), InBucket(a, key, now, k);
    OpenWindowEndsNow(now, k);
    OpenWindowEndsNow(l.at, k);
    hide ReportWindows;
    assert FigureAccounted(key, a, k);
    QueryIsTotal(a.log, key, Window(ReportWindows(l.at), k), l.seen[k]);
    QueryIsTotal(a.log, key, Window(ReportWindows(now), k), |a.log|);
    assert a.log[..|a.log|] == a.log;
    hide SumTokens, Total;
    TotalsBalance(a.log, seen, applied, Missing(inBucket, seen, applied), inBucket, Doubled(seen, applied), Stray(inBucket, applied));
  }

  /** The drift of an open bucket is exactly accounted for: its figure is the store's
      total, less the events in the bucket that the last successful load did not see and
      whose credits have not been applied since, plus those it saw whose credits were
      applied after it, plus those credited though stamped outside the bucket. */
  lemma DriftIsExactlyAccounted(key: nat, start: Actor, run: seq<Step>, now: Moment, k: nat)
    requires Fresh(key, start) && Legal(key, start, run)
    requires After(key, start, run).last.Some? && k < 3 && SameBucket(After(key, start, run).last.value.at, now, k)
    ensures var a := After(key, start, run);
            k < |a.last.value.seen|
            && var seen, applied, inBucket := SeenByLoad(a, key, a.last.value, k), AppliedAt(a.credits, a.loads), InBucket(a, key, now, k);
               Figure(a.report, k) ==
               SumTokens(a.log, key, Window(ReportWindows(now), k))
               - Total(a.log, Missing(inBucket, seen, applied))
               + Total(a.log, Doubled(seen, applied))
               + Total(a.log, Stray(inBucket, applied))
  {
    FreshIsSound(key, start);
    RunKeepsInv(key, start, run);
    DriftInState(key, After(key, start, run), now, k);
  }

  /** Missing events.  The credit of one is pending or was dropped, unless the event is
      stamped at the very instant of the load; and one stamped before that instant was
      written after the load's query. */
  lemma MissingEventsExplained(key: nat, start: Actor, run: seq<Step>, now: Moment, k: nat, i: nat)
    requires Fresh(key, start) && Legal(key, start, run)
    requires After(key, start, run).last.Some? && k < 3 && SameBucket(After(key, start, run).last.value.at, now, k)
    requires var a := After(key, start, run);
             k < |a.last.value.seen|
             && Missing(InBucket(a, key, now, k), SeenByLoad(a, key, a.last.value, k), AppliedAt(a.credits, a.loads))(i)
    ensures var a := After(key, start, run);
            && i < |a.log| && i < |a.credits|
            && (a.credits[i].Applied? ==> a.log[i].at == a.last.value.at.at)
            && (a.log[i].at < a.last.value.at.at ==> a.last.value.seen[k] <= i)
  {
    hide ReportWindows, SumTokens, FiguresAccounted;
    FreshIsSound(key, start);
    RunKeepsInv(key, start, run);
    var a := After(key, start, run);
    hide After, Legal;
    OpenWindowEndsNow(now, k);
    OpenWindowEndsNow(a.last.value.at, k);
  }

  /** Doubled events.  One is stamped before the load, and its credit was on its way when
      the load began, or it was written while the load ran, before the bucket's query. */
  lemma DoubledEventsExplained(key: nat, start: Actor, run: seq<Step>, k: nat, i: nat)
    requires Fresh(key, start) && Legal(key, start, run) && After(key, start, run).last.Some? && k < 3
    requires var a := After(key, start, run);
             k < |a.last.value.seen| && Doubled(SeenByLoad(a, key, a.last.value, k), AppliedAt(a.credits, a.loads))(i)
    ensures var a, l := After(key, start, run), After(key, start, run).last.value;
            && i < |a.log| && a.log[i].at < l.at.at
            && (if i < |l.before| then l.before[i].InFlight? || l.before[i].Buffered? else i < l.seen[k])
  {
    hide ReportWindows, SumTokens, FiguresAccounted;
    FreshIsSound(key, start);
    RunKeepsInv(key, start, run);
    var a := After(key, start, run);
    hide After, Legal;
    OpenWindowEndsNow(a.last.value.at, k);
  }

  /** Stray events.  One is stamped before the bucket began, or at `now` or later. */
  lemma StrayEventsExplained(key: nat, start: Actor, run: seq<Step>, now: Moment, k: nat, i: nat)
    requires Fresh(key, start) && Legal(key, start, run) && k < 3
    requires var a := After(key, start, run); Stray(InBucket(a, key, now, k), AppliedAt(a.credits, a.loads))(i)
    ensures var a := After(key, start, run);
            && i < |a.log| && a.log[i].key == key
            && (a.log[i].at < Window(ReportWindows(now), k).from || now.at <= a.log[i].at)
  {
    hide ReportWindows, SumTokens, FiguresAccounted;
    FreshIsSound(key, start);
    RunKeepsInv(key, start, run);
    hide After, Legal;
    OpenWindowEndsNow(now, k);
  }

  /** The two closed buckets never move on a credit: at any time they show what the last
      successful load found. */
  lemma ClosedBucketsMoveOnlyOnLoads(key: nat, start: Actor, run: seq<Step>, k: nat)
    requires Fresh(key, start) && Legal(key, start, run) && 3 <= k < 5
    ensures var a := After(key, start, run);
            && (a.last.None? ==> Figure(a.report, k) == 0)
            && (a.last.Some? ==>
                  && k < |a.last.value.seen| && a.last.value.seen[k] <= |a.log|
                  && Figure(a.report, k)
                     == SumTokens(a.log[..a.last.value.seen[k]], key, Window(ReportWindows(a.last.value.at), k)))
  {
    FreshIsSound(key, start);
    RunKeepsInv(key, start, run);
    hide After, Legal, ReportWindows, SumTokens;
    assert FigureAccounted(key, After(key, start, run), k);
  }

  /** A load that fails, at whichever query, leaves the figures as they were. */
  lemma FailedLoadKeepsFigures(key: nat, start: Actor, run: seq<Step>)
    requires Fresh(key, start) && Legal(key, start, run) && Enabled(After(key, start, run), QueryFails)
    ensures Apply(key, After(key, start, run), QueryFails).report == After(key, start, run).report
  {
    FreshIsSound(key, start);
    RunKeepsInv(key, start, run);
  }

  // ---------------------------------------------------------------- credits in the buffer

  /** A credit is lost exactly if 64 are waiting when it is published. */
  lemma LostExactlyWhenFull(key: nat, a: Actor, i: nat)
    requires Inv(key, a) && Enabled(a, Publish(i))
    ensures var t := Apply(key, a, Publish(i));
            && (t.credits[i].Gone? <==> |a.buffer| >= 64)
            && (|a.buffer| < 64 ==> t.credits[i].Buffered? && i in t.buffer)
            && forall j: nat | j < |a.credits| && j != i :: t.credits[j] == a.credits[j]
  {
    if |a.buffer| < 64 {
      assert Apply(key, a, Publish(i)).buffer[|a.buffer|] == i;
    }
  }

  function Drain(n: nat): seq<Step> {
    if n == 0 then [] else Drain(n - 1) + [ApplyCredit]
  }

  lemma DrainOne(key: nat, a: Actor)
    requires Inv(key, a) && a.phase.Idle? && a.buffer != []
    ensures Enabled(a, ApplyCredit)
    ensures var t := Apply(key, a, ApplyCredit);
            && t.phase.Idle? && t.loads == a.loads && t.log == a.log && t.buffer == a.buffer[1..] && |t.credits| == |a.credits|
            && a.buffer[0] < |t.credits| && t.credits[a.buffer[0]] == Applied(a.loads)
            && forall j: nat | j < |a.credits| && a.credits[j].Applied? :: t.credits[j] == a.credits[j]
  {
    hide ReportWindows, SumTokens, FiguresAccounted, LoadsSound;
  }

  /** The first `n` credits that waited in `a` have been applied in `t`. */
  predicate AppliedFirst(a: Actor, t: Actor, n: nat)
    requires n <= |a.buffer|
  {
    forall j: nat | j < n :: a.buffer[j] < |t.credits| && t.credits[a.buffer[j]] == Applied(a.loads)
  }

  lemma OneMoreApplied(a: Actor, mid: Actor, t: Actor, n: nat)
    requires n < |a.buffer| && AppliedFirst(a, mid, n) && |t.credits| == |mid.credits|
    requires forall j: nat | j < |mid.credits| && mid.credits[j].Applied? :: t.credits[j] == mid.credits[j]
    requires a.buffer[n] < |t.credits| && t.credits[a.buffer[n]] == Applied(a.loads)
    ensures AppliedFirst(a, t, n + 1)
  {
  }

  /** Waiting credits are applied one by one in the order they were published. */
  lemma {:induction false} DrainsInOrder(key: nat, a: Actor, n: nat)
    requires Inv(key, a) && a.phase.Idle? && n <= |a.buffer|
    ensures Legal(key, a, Drain(n))
    ensures var t := After(key, a, Drain(n));
            Inv(key, t) && t.phase.Idle? && t.loads == a.loads && t.log == a.log && t.buffer == a.buffer[n..] && AppliedFirst(a, t, n)
  {
    hide Inv, Apply, Enabled;
    if n > 0 {
      hide AppliedFirst;
      DrainsInOrder(key, a, n - 1);
      var run, mid := Drain(n - 1), After(key, a, Drain(n - 1));
      DrainOne(key, mid);
      StepKeepsInv(key, mid, ApplyCredit);
      assert (run + [ApplyCredit])[..|run|] == run;
      assert a.buffer[n - 1..][1..] == a.buffer[n..];
      OneMoreApplied(a, mid, Apply(key, mid, ApplyCredit), n - 1);
    }
  }

  /** A credit published with fewer than 64 waiting is applied after exactly those: it is
      the only one left when they are done, and then its turn comes. */
  lemma PublishedCreditsAreApplied(key: nat, a: Actor, i: nat)
    requires Inv(key, a) && a.phase.Idle? && Enabled(a, Publish(i)) && |a.buffer| < 64
    ensures var b, n := Apply(key, a, Publish(i)), |a.buffer|;
            && Legal(key, b, Drain(n)) && Legal(key, b, Drain(n + 1))
            && After(key, b, Drain(n)).buffer == [i] && AppliedFirst(a, After(key, b, Drain(n)), n)
            && After(key, b, Drain(n + 1)).buffer == []
            && i < |After(key, b, Drain(n + 1)).credits| && After(key, b, Drain(n + 1)).credits[i] == Applied(a.loads)
  {
    hide Inv, Apply, Enabled, After, Legal, Drain, AppliedFirst;
    var b, n := Apply(key, a, Publish(i)), |a.buffer|;
    StepKeepsInv(key, a, Publish(i));
    RoomInTheBuffer(key, a, i);
    DrainsInOrder(key, b, n);
    DrainsInOrder(key, b, n + 1);
    assert b.buffer[n] == i && b.buffer[n..] == [i] && b.buffer[n + 1..] == [];
    LastApplied(b, After(key, b, Drain(n + 1)), n);
    SameFirst(a, b, After(key, b, Drain(n)));
  }

  lemma RoomInTheBuffer(key: nat, a: Actor, i: nat)
    requires Enabled(a, Publish(i)) && |a.buffer| < 64
    ensures var b := Apply(key, a, Publish(i)); b.buffer == a.buffer + [i] && b.phase == a.phase && b.loads == a.loads
  {
  }

  lemma LastApplied(a: Actor, t: Actor, n: nat)
    requires n < |a.buffer| && AppliedFirst(a, t, n + 1)
    ensures a.buffer[n] < |t.credits| && t.credits[a.buffer[n]] == Applied(a.loads)
  {
  }

  lemma SameFirst(a: Actor, b: Actor, t: Actor)
    requires a.buffer <= b.buffer && b.loads == a.loads && AppliedFirst(b, t, |a.buffer|)
    ensures AppliedFirst(a, t, |a.buffer|)
  {
  }

  /** Nothing the program can do next is ruled out: the clock moves on, an event stamped by
      now is written, a credit on its way is published, an idle actor takes any waiting
      credit or begins a load, and each query of a load answers or fails. */
  lemma NothingIsRuledOut(key: nat, a: Actor)
    requires Inv(key, a)
    ensures forall m: Moment | a.now.at <= m.at :: Enabled(a, Tick(m))
    ensures forall e: Event | e.at <= a.now.at :: Enabled(a, Write(e))
    ensures forall i: nat | i < |a.log| && a.credits[i].InFlight? :: Enabled(a, Publish(i))
    ensures if a.phase.Loading? then Enabled(a, Query) && Enabled(a, QueryFails)
            else Enabled(a, BeginLoad) && (a.buffer != [] ==> Enabled(a, ApplyCredit))
  {
    hide LoadsSound, FiguresAccounted;
  }
}
