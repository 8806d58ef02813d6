/**
 How far concurrent requests can take a prepaid key past its budget.

 Each request runs the steps of the embeddings handler: read the clock and query the
 store (the check), wait for a slot, forward, give the slot back, stamp an event and
 record it.  Requests interleave freely.
 */
module BudgetOvershoot {
  import opened Calendar
  import opened UsageReport
  import opened Budget
  import opened Wrappers

  datatype Stage =
    | Checking(readAt: Moment)                         // clock read, sum not yet back
    | Passed(readAt: Moment)                           // waiting for a slot
    | Forwarding(readAt: Moment)                       // holding a slot
    | Returned(readAt: Moment)                         // slot given back, response in hand
    | Stamped(readAt: Moment, tokens: nat, at: int)    // event built, not yet written
    | Recorded
    | Ended                                            // rejected, abandoned, failed or lost

  /** One event written by a request of this key, and what it counts for in the period:
      an event stamped before the period counts for nothing. */
  datatype Entry = Entry(request: nat, tokens: nat, checkedAt: int)

  /** The write that took the total to the budget: when it happened, how many entries
      preceded it, and which requests were then under way. */
  datatype Crossing = Crossing(instant: int, count: nat, underWay: set<nat>)

  datatype Traffic = Traffic(
    log: seq<Event>,
    requests: map<nat, Stage>,
    now: Moment,
    entries: seq<Entry>,
    crossing: Option<Crossing>)

  datatype Step =
    | Tick(to: Moment)
    | ReadClock(r: nat)
    | Query(r: nat)
    | QueryFails(r: nat)
    | Acquire(r: nat)
    | Abandon(r: nat)
    | Return(r: nat)
    | UpstreamFails(r: nat)
    | Stamp(r: nat, tokens: nat)
    | NotOk(r: nat)
    | Record(r: nat)
    | RecordFails(r: nat)
    | OtherKey(e: Event)

  /** The tokens `key` has recorded since `from`. */
  function SumSince(log: seq<Event>, key: nat, from: int): nat {
    if log == [] then 0 else
      var e := log[|log| - 1];
      SumSince(log[..|log| - 1], key, from) + (if e.key == key && from <= e.at then e.tokens else 0)
  }

  function SumEntries(entries: seq<Entry>): nat {
    if entries == [] then 0 else SumEntries(entries[..|entries| - 1]) + entries[|entries| - 1].tokens
  }

  /** `from` is the start of the budget period the whole run stays in. */
  predicate Enabled(k: ApiKey, from: int, t: Traffic, s: Step) {
    match s
    case Tick(m) => t.now.at <= m.at && PeriodStart(k, m) == from
    case ReadClock(r) => r !in t.requests
    case Query(r) => r in t.requests && t.requests[r].Checking?
    case QueryFails(r) => r in t.requests && t.requests[r].Checking?
    case Acquire(r) => r in t.requests && t.requests[r].Passed?
    case Abandon(r) => r in t.requests && t.requests[r].Passed?
    case Return(r) => r in t.requests && t.requests[r].Forwarding?
    case UpstreamFails(r) => r in t.requests && t.requests[r].Forwarding?
    case Stamp(r, _) => r in t.requests && t.requests[r].Returned?
    case NotOk(r) => r in t.requests && t.requests[r].Returned?
    case Record(r) => r in t.requests && t.requests[r].Stamped?
    case RecordFails(r) => r in t.requests && t.requests[r].Stamped?
    case OtherKey(e) => e.key != k.id
  }

  /** What the handler's check says, from the clock reading taken earlier and the store
      as it is when the query runs. */
  predicate PassesCheck(k: ApiKey, readAt: Moment, log: seq<Event>) {
    !CheckBudget(k, readAt, StoreSum(log, k.id)).value.exhausted
  }

  function Go(t: Traffic, r: nat, s: Stage): Traffic {
    t.(requests := t.requests[r := s])
  }

  predicate UnderWay(s: Stage) {
    !s.Recorded? && !s.Ended?
  }

  function EntryOf(r: nat, s: Stage, from: int): Entry
    requires s.Stamped?
  {
    Entry(r, if from <= s.at then s.tokens else 0, s.readAt.at)
  }

  function Write(k: ApiKey, from: int, t: Traffic, r: nat): Traffic
    requires r in t.requests && t.requests[r].Stamped?
  {
    var s := t.requests[r];
    var log := t.log + [Event(k.id, s.tokens, s.at)];
    var crosses := t.crossing.None? && SumSince(log, k.id, from) >= k.limits.tokenBudget;
    t.(log := log,
       requests := t.requests[r := Recorded],
       entries := t.entries + [EntryOf(r, s, from)],
       crossing := if crosses
                   then Some(Crossing(t.now.at, |t.entries|, set q | q in t.requests && UnderWay(t.requests[q])))
                   else t.crossing)
  }

  function Apply(k: ApiKey, from: int, t: Traffic, s: Step): Traffic
    requires Enabled(k, from, t, s)
  {
    match s
    case Tick(m) => t.(now := m)
    case ReadClock(r) => Go(t, r, Checking(t.now))
    case Query(r) =>
      var readAt := t.requests[r].readAt;
      Go(t, r, if PassesCheck(k, readAt, t.log) then Passed(readAt) else Ended)
    case QueryFails(r) => Go(t, r, Ended)
    case Acquire(r) => Go(t, r, Forwarding(t.requests[r].readAt))
    case Abandon(r) => Go(t, r, Ended)
    case Return(r) => Go(t, r, Returned(t.requests[r].readAt))
    case UpstreamFails(r) => Go(t, r, Ended)
    case Stamp(r, tokens) => Go(t, r, Stamped(t.requests[r].readAt, tokens, t.now.at))
    case NotOk(r) => Go(t, r, Ended)
    case Record(r) => Write(k, from, t, r)
    case RecordFails(r) => Go(t, r, Ended)
    case OtherKey(e) => t.(log := t.log + [e])
  }

  ghost predicate Legal(k: ApiKey, from: int, t: Traffic, run: seq<Step>)
    decreases |run|, 0
  {
    run == [] || (Legal(k, from, t, run[..|run| - 1])
                  && Enabled(k, from, After(k, from, t, run[..|run| - 1]), run[|run| - 1]))
  }

  ghost function After(k: ApiKey, from: int, t: Traffic, run: seq<Step>): Traffic
    requires Legal(k, from, t, run)
    decreases |run|, 1
  {
    if run == [] then t else Apply(k, from, After(k, from, t, run[..|run| - 1]), run[|run| - 1])
  }

  /** A clock reading taken in the period, or before it began. */
  predicate ReadBy(k: ApiKey, from: int, now: Moment, readAt: Moment) {
    readAt.at <= now.at && (PeriodStart(k, readAt) == from || readAt.at < from)
  }

  /** A limited key at some instant of a period, its budget not yet used up, with
      whatever it has recorded so far stamped no later than now.  Any requests may be
      under way, those checked in an earlier period among them. */
  predicate Start(k: ApiKey, from: int, t: Traffic) {
    && !IsUnlimited(k) && PeriodStart(k, t.now) == from <= t.now.at
    && (forall e | e in t.log && e.key == k.id :: e.at <= t.now.at)
    && SumSince(t.log, k.id, from) < k.limits.tokenBudget
    && (forall r | r in t.requests && UnderWay(t.requests[r]) :: ReadBy(k, from, t.now, t.requests[r].readAt))
    && (forall r | r in t.requests && t.requests[r].Stamped? :: t.requests[r].at <= t.now.at)
    && t.entries == [] && t.crossing == None
  }

  // ---------------------------------------------------------------- sums over the log

  lemma SumsOfLongerLog(log: seq<Event>, e: Event, key: nat, from: int, to: int)
    ensures SumSince(log + [e], key, from) == SumSince(log, key, from) + (if e.key == key && from <= e.at then e.tokens else 0)
    ensures SumTokens(log + [e], key, Range(from, to)) >= SumTokens(log, key, Range(from, to))
  {
    assert (log + [e])[..|log|] == log;
  }

  /** Asked with an end after every stamp, the half-open query sees everything. */
  lemma {:induction false} LateQuerySeesAll(log: seq<Event>, key: nat, from: int, to: int)
    requires forall e | e in log && e.key == key :: e.at < to
    ensures SumTokens(log, key, Range(from, to)) == SumSince(log, key, from)
  {
    if log != [] {
      LateQuerySeesAll(log[..|log| - 1], key, from, to);
      assert log[|log| - 1] in log;
    }
  }

  lemma {:induction false} LaterQuerySeesMore(log: seq<Event>, key: nat, from: int, to: int, later: int)
    requires to <= later
    ensures SumTokens(log, key, Range(from, to)) <= SumTokens(log, key, Range(from, later))
  {
    if log != [] {
      LaterQuerySeesMore(log[..|log| - 1], key, from, to, later);
    }
  }

  lemma OneMoreEntry(entries: seq<Entry>, e: Entry)
    ensures SumEntries(entries + [e]) == SumEntries(entries) + e.tokens
  {
    assert (entries + [e])[..|entries|] == entries;
  }

  lemma {:induction false} EntriesSplit(entries: seq<Entry>, n: nat)
    requires n <= |entries|
    ensures SumEntries(entries) == SumEntries(entries[..n]) + SumEntries(entries[n..])
  {
    if n == |entries| {
      assert entries[..n] == entries;
    } else {
      var front := entries[..|entries| - 1];
      EntriesSplit(front, n);
      assert front[..n] == entries[..n];
      assert entries[n..][..|entries| - n - 1] == front[n..];
    }
  }

  // ---------------------------------------------------------------- invariants

  predicate PastCheck(s: Stage) {
    s.Passed? || s.Forwarding? || s.Returned? || s.Stamped?
  }

  /** The total is what the key started with plus its entries, each from its own request. */
  ghost predicate Ledger(k: ApiKey, from: int, base: nat, t: Traffic) {
    && PeriodStart(k, t.now) == from <= t.now.at
    && (forall e | e in t.log && e.key == k.id :: e.at <= t.now.at)
    && (forall r | r in t.requests && UnderWay(t.requests[r]) :: ReadBy(k, from, t.now, t.requests[r].readAt))
    && (forall r | r in t.requests && t.requests[r].Stamped? :: t.requests[r].at <= t.now.at)
    && SumSince(t.log, k.id, from) == base + SumEntries(t.entries)
    && (forall i | 0 <= i < |t.entries| :: t.entries[i].request in t.requests && t.requests[t.entries[i].request].Recorded?)
    && (forall i, j | 0 <= i < j < |t.entries| :: t.entries[i].request != t.entries[j].request)
  }

  /** What holds once the budget has been reached at `c`. */
  ghost predicate AfterCrossing(k: ApiKey, from: int, base: nat, t: Traffic, c: Crossing) {
    && c.count < |t.entries| && from <= c.instant <= t.now.at
    && base + SumEntries(t.entries[..c.count]) < k.limits.tokenBudget
    // every query ending after the crossing instant sees the budget used up
    && SumTokens(t.log, k.id, Range(from, c.instant + 1)) >= k.limits.tokenBudget
    // whoever is past the check, or has recorded since, had read the clock by then
    && (forall r | r in t.requests && PastCheck(t.requests[r]) :: t.requests[r].readAt.at <= c.instant)
    && (forall r | r in t.requests && UnderWay(t.requests[r]) ::
          r in c.underWay || t.requests[r].readAt.at >= c.instant)
    && (forall i | c.count <= i < |t.entries| :: t.entries[i].checkedAt <= c.instant
                                                 && (t.entries[i].request in c.underWay || t.entries[i].checkedAt == c.instant))
  }

  ghost predicate OvershootInv(k: ApiKey, from: int, base: nat, t: Traffic) {
    match t.crossing
    case None => SumSince(t.log, k.id, from) < k.limits.tokenBudget
    case Some(c) => AfterCrossing(k, from, base, t, c)
  }

  ghost predicate Inv(k: ApiKey, from: int, base: nat, t: Traffic) {
    Ledger(k, from, base, t) && OvershootInv(k, from, base, t)
  }

  // ---------------------------------------------------------------- one step

  /** A request moving on without touching the log: it keeps the clock reading of its
      check, and gets past the check only if the check passed. */
  lemma GoKeepsInv(k: ApiKey, from: int, base: nat, t: Traffic, r: nat, s: Stage)
    requires Inv(k, from, base, t) && !IsUnlimited(k) && !s.Recorded?
    requires if r in t.requests then UnderWay(t.requests[r]) else s == Checking(t.now)
    requires r in t.requests && UnderWay(s) ==> s.readAt == t.requests[r].readAt
    requires s.Stamped? ==> s.at == t.now.at
    requires PastCheck(s) ==> r in t.requests && (PastCheck(t.requests[r]) || PassesCheck(k, s.readAt, t.log))
    ensures Inv(k, from, base, Go(t, r, s))
  {
    hide PassesCheck, SumSince, SumTokens, SumEntries, PeriodStart;
    if t.crossing.Some? && PastCheck(s) && !PastCheck(t.requests[r]) && s.readAt.at >= from {
      LaterChecksFail(k, from, base, t, s.readAt);
    }
  }

  /** After the crossing no check whose clock reading is later than its instant passes. */
  lemma LaterChecksFail(k: ApiKey, from: int, base: nat, t: Traffic, readAt: Moment)
    requires !IsUnlimited(k) && t.crossing.Some? && AfterCrossing(k, from, base, t, t.crossing.value)
    requires PeriodStart(k, readAt) == from
    ensures readAt.at > t.crossing.value.instant ==> !PassesCheck(k, readAt, t.log)
  {
    hide SumSince, SumTokens, SumEntries, PeriodStart;
    CheckPassesExactly(k, readAt, t.log);
    if readAt.at > t.crossing.value.instant {
      LaterQuerySeesMore(t.log, k.id, from, t.crossing.value.instant + 1, readAt.at);
    }
  }

  lemma TickKeepsInv(k: ApiKey, from: int, base: nat, t: Traffic, m: Moment)
    requires Inv(k, from, base, t) && Enabled(k, from, t, Tick(m))
    ensures Inv(k, from, base, t.(now := m))
  {
    hide SumSince, SumTokens, SumEntries, PeriodStart;
  }

  lemma OtherKeyKeepsInv(k: ApiKey, from: int, base: nat, t: Traffic, e: Event)
    requires Inv(k, from, base, t) && e.key != k.id
    ensures Inv(k, from, base, t.(log := t.log + [e]))
  {
    hide SumSince, SumTokens, SumEntries, PeriodStart;
    SumsOfLongerLog(t.log, e, k.id, from, if t.crossing.Some? then t.crossing.value.instant + 1 else 0);
  }

  lemma WriteKeepsLedger(k: ApiKey, from: int, base: nat, t: Traffic, r: nat)
    requires Ledger(k, from, base, t) && r in t.requests && t.requests[r].Stamped?
    ensures Ledger(k, from, base, Write(k, from, t, r))
  {
    hide SumSince, SumTokens, SumEntries, PeriodStart;
    var s := t.requests[r];
    SumsOfLongerLog(t.log, Event(k.id, s.tokens, s.at), k.id, from, 0);
    OneMoreEntry(t.entries, EntryOf(r, s, from));
  }

  /** The crossing write: every event is stamped by now, so any later query sees them all. */
  lemma CrossingWrite(k: ApiKey, from: int, base: nat, t: Traffic, r: nat)
    requires Inv(k, from, base, t) && r in t.requests && t.requests[r].Stamped? && t.crossing.None?
    ensures OvershootInv(k, from, base, Write(k, from, t, r))
  {
    hide SumSince, SumTokens, PeriodStart;
    var t' := Write(k, from, t, r);
    WriteKeepsLedger(k, from, base, t, r);
    if t'.crossing.Some? {
      LateQuerySeesAll(t'.log, k.id, from, t.now.at + 1);
      assert t'.entries[..|t.entries|] == t.entries;
    }
  }

  lemma LaterWrite(k: ApiKey, from: int, base: nat, t: Traffic, r: nat)
    requires Inv(k, from, base, t) && r in t.requests && t.requests[r].Stamped? && t.crossing.Some?
    ensures OvershootInv(k, from, base, Write(k, from, t, r))
  {
    hide SumSince, SumTokens, PeriodStart, SumEntries;
    var c, s := t.crossing.value, t.requests[r];
    SumsOfLongerLog(t.log, Event(k.id, s.tokens, s.at), k.id, from, c.instant + 1);
    assert (t.entries + [EntryOf(r, s, from)])[..c.count] == t.entries[..c.count];
  }

  lemma StepKeepsInv(k: ApiKey, from: int, base: nat, t: Traffic, s: Step)
    requires !IsUnlimited(k) && Inv(k, from, base, t) && Enabled(k, from, t, s)
    ensures Inv(k, from, base, Apply(k, from, t, s))
  {
    hide Inv, Ledger, OvershootInv, PassesCheck, Write;
    match s
    case Tick(m) => TickKeepsInv(k, from, base, t, m);
    case OtherKey(e) => OtherKeyKeepsInv(k, from, base, t, e);
    case Record(r) => RecordKeepsInv(k, from, base, t, r);
    case ReadClock(r) => GoKeepsInv(k, from, base, t, r, Checking(t.now));
    case Query(r) => GoKeepsInv(k, from, base, t, r, Apply(k, from, t, s).requests[r]);
    case QueryFails(r) => GoKeepsInv(k, from, base, t, r, Ended);
    case Acquire(r) => GoKeepsInv(k, from, base, t, r, Apply(k, from, t, s).requests[r]);
    case Abandon(r) => GoKeepsInv(k, from, base, t, r, Ended);
    case Return(r) => GoKeepsInv(k, from, base, t, r, Apply(k, from, t, s).requests[r]);
    case UpstreamFails(r) => GoKeepsInv(k, from, base, t, r, Ended);
    case Stamp(r, _) => GoKeepsInv(k, from, base, t, r, Apply(k, from, t, s).requests[r]);
    case NotOk(r) => GoKeepsInv(k, from, base, t, r, Ended);
    case RecordFails(r) => GoKeepsInv(k, from, base, t, r, Ended);
  }

  lemma RecordKeepsInv(k: ApiKey, from: int, base: nat, t: Traffic, r: nat)
    requires Inv(k, from, base, t) && r in t.requests && t.requests[r].Stamped?
    ensures Inv(k, from, base, Write(k, from, t, r))
  {
    WriteKeepsLedger(k, from, base, t, r);
    if t.crossing.None? {
      CrossingWrite(k, from, base, t, r);
    } else {
      LaterWrite(k, from, base, t, r);
    }
  }

  // ---------------------------------------------------------------- whole runs

  lemma StartIsSound(k: ApiKey, from: int, t: Traffic)
    requires Start(k, from, t)
    ensures Inv(k, from, SumSince(t.log, k.id, from), t)
  {
    hide ReportWindows, PeriodStart;
  }

  lemma {:induction false} RunKeepsInv(k: ApiKey, from: int, t: Traffic, run: seq<Step>)
    requires Start(k, from, t) && Legal(k, from, t, run)
    ensures Inv(k, from, SumSince(t.log, k.id, from), After(k, from, t, run))
    decreases |run|
  {
    hide Inv, Apply, Enabled;
    if run == [] {
      StartIsSound(k, from, t);
    } else {
      RunKeepsInv(k, from, t, run[..|run| - 1]);
      StepKeepsInv(k, from, SumSince(t.log, k.id, from), After(k, from, t, run[..|run| - 1]), run[|run| - 1]);
    }
  }

  /** The overshoot is bounded by the requests in flight.  In any concurrent run within one
      budget period, whatever was under way when it began, either the total stays below the
      budget, or it is what had been recorded before the crossing write, less than the
      budget, plus the entries written since; each of those comes from its own request,
      which was under way when the total reached the budget or read the clock at that very
      instant. */
  lemma OvershootIsBounded(k: ApiKey, from: int, t: Traffic, run: seq<Step>)
    requires Start(k, from, t) && Legal(k, from, t, run)
    ensures var end := After(k, from, t, run);
            var total := SumSince(end.log, k.id, from);
            match end.crossing
            case None => total < k.limits.tokenBudget
            case Some(c) =>
              && c.count < |end.entries|
              && total <= k.limits.tokenBudget - 1 + SumEntries(end.entries[c.count..])
              && (forall i | c.count <= i < |end.entries| ::
                    end.entries[i].request in c.underWay || end.entries[i].checkedAt == c.instant)
              && (forall i, j | 0 <= i < j < |end.entries| :: end.entries[i].request != end.entries[j].request)
  {
    hide PeriodStart, SumTokens, SumSince, SumEntries, Legal, After;
    RunKeepsInv(k, from, t, run);
    var end := After(k, from, t, run);
    if end.crossing.Some? {
      EntriesSplit(end.entries, end.crossing.value.count);
    }
  }

  /** Once the budget has been reached, a check that reads the clock later than that
      instant never passes: whoever is past the check had read it by then. */
  lemma NoLaterCheckPasses(k: ApiKey, from: int, t: Traffic, run: seq<Step>, r: nat)
    requires Start(k, from, t) && Legal(k, from, t, run)
    requires var end := After(k, from, t, run);
             end.crossing.Some? && r in end.requests && PastCheck(end.requests[r])
    ensures var end := After(k, from, t, run); end.requests[r].readAt.at <= end.crossing.value.instant
  {
    RunKeepsInv(k, from, t, run);
  }

  // ---------------------------------------------------------------- from one period to the next

  /** Two instants of one zone: if their periods differ, the later one's began between. */
  lemma PeriodsInOrder(k: ApiKey, a: Moment, b: Moment)
    requires a.at <= b.at && a.offset == b.offset && PeriodStart(k, a) != PeriodStart(k, b)
    ensures PeriodStart(k, a) <= a.at < PeriodStart(k, b) <= b.at
  {
    hide ReportWindows, Midnight, LocalDay, MonthStart, MonthNumber;
    WindowsByNumber(a);
    WindowsByNumber(b);
    WindowsTile(a);
    WindowsTile(b);
    MonthsStartAtLatestFirsts(a, MonthNumber(LocalDay(b)));
    MonthsStartAtLatestFirsts(b, MonthNumber(LocalDay(a)));
  }

  /** The turn of a period: what a run of one period ends with, under full traffic, is a
      start of the next one.  So the bound holds in every period of a key's life. */
  lemma NextPeriodStarts(k: ApiKey, from: int, t: Traffic, run: seq<Step>, m: Moment)
    requires Start(k, from, t) && Legal(k, from, t, run) && k.limits.tokenBudget > 0
    requires var end := After(k, from, t, run);
             end.now.at <= m.at && end.now.offset == m.offset && PeriodStart(k, m) != from
    ensures Start(k, PeriodStart(k, m), After(k, from, t, run).(now := m, entries := [], crossing := None))
  {
    hide PeriodStart, SumTokens, After, Legal, OvershootInv;
    RunKeepsInv(k, from, t, run);
    var end := After(k, from, t, run);
    PeriodsInOrder(k, end.now, m);
    NothingSinceLater(end.log, k.id, PeriodStart(k, m));
  }

  lemma {:induction false} NothingSinceLater(log: seq<Event>, key: nat, from: int)
    requires forall e | e in log && e.key == key :: e.at < from
    ensures SumSince(log, key, from) == 0
  {
    if log != [] {
      NothingSinceLater(log[..|log| - 1], key, from);
      assert log[|log| - 1] in log;
    }
  }
}
