/** The queue's snapshot: what its rows mean in terms of every waiter. */
module AdmissionStats {
  import opened AdmissionCore
  import opened AdmissionProtocol

  /** One priority class's share of the queue. */
  datatype ClassStat = ClassStat(priority: int, waiting: nat, oldestWait: int)

  datatype Stats = Stats(
    capacity: int,
    inFlight: int,
    waiting: int,
    promoteAfter: int,
    classes: seq<ClassStat>,
    oldestWait: int,
    admitted: nat,
    promoted: nat,
    cancelled: nat)

  /** `wait` is the longest wait in `ts`. */
  ghost predicate LongestWait(ts: set<Ticket>, now: int, wait: int) {
    (exists t :: t in ts && now - t.since == wait) && forall t | t in ts :: now - t.since <= wait
  }

  /** The waiters of one class. */
  ghost function InClass(cs: Classes, p: int): set<Ticket> {
    set t | t in Waiters(cs) && t.priority == p
  }

  ghost predicate RowIsRight(cs: Classes, now: int, r: ClassStat) {
    r.priority in cs && r.waiting == |cs[r.priority]| && LongestWait(InClass(cs, r.priority), now, r.oldestWait)
  }

  function SumWaiting(rows: seq<ClassStat>): nat {
    if rows == [] then 0 else SumWaiting(Front(rows)) + Last(rows).waiting
  }

  function Front(rows: seq<ClassStat>): seq<ClassStat>
    requires rows != []
  {
    rows[..|rows| - 1]
  }

  function Last(rows: seq<ClassStat>): ClassStat
    requires rows != []
  {
    rows[|rows| - 1]
  }

  /** The classes that have a row. */
  function Listed(rows: seq<ClassStat>): set<int> {
    if rows == [] then {} else Listed(Front(rows)) + {Last(rows).priority}
  }

  ghost predicate Descending(rows: seq<ClassStat>) {
    forall i | 0 < i < |rows| :: rows[i - 1].priority > rows[i].priority
  }

  /** The snapshot agrees with a look at every waiter: one row per class, highest
      priority first, each with its depth and its longest wait; the depths add up to
      the number of waiters, and the overall figure is the longest wait of all. */
  ghost predicate ReportsQueue(cs: Classes, now: int, s: Stats) {
    && Descending(s.classes)
    && Listed(s.classes) == cs.Keys
    && (forall i | 0 <= i < |s.classes| :: RowIsRight(cs, now, s.classes[i]))
    && SumWaiting(s.classes) == Depth(cs)
    && (if cs == map[] then s.oldestWait == 0 else LongestWait(Waiters(cs), now, s.oldestWait))
  }

  // ---------------------------------------------------------------- sorting the rows

  function InsertRow(rows: seq<ClassStat>, r: ClassStat): seq<ClassStat> {
    if rows == [] || Last(rows).priority > r.priority then rows + [r]
    else InsertRow(Front(rows), r) + [Last(rows)]
  }

  /** Highest priority first. */
  function SortRows(rows: seq<ClassStat>): seq<ClassStat> {
    if rows == [] then [] else InsertRow(SortRows(Front(rows)), Last(rows))
  }

  /** Every row is right, and no class has two. */
  ghost predicate RowsAreRight(cs: Classes, now: int, rows: seq<ClassStat>) {
    rows != [] ==> RowsAreRight(cs, now, Front(rows)) && RowIsRight(cs, now, Last(rows))
                   && Last(rows).priority !in Listed(Front(rows))
  }

  lemma AppendedRow(rows: seq<ClassStat>, r: ClassStat)
    ensures Front(rows + [r]) == rows && Last(rows + [r]) == r
  {
  }

  lemma {:induction false} InsertingKeepsOrder(rows: seq<ClassStat>, r: ClassStat)
    requires r.priority !in Listed(rows) && Descending(rows)
    ensures var more := InsertRow(rows, r);
            && Descending(more) && more != [] && (Last(more) == r || (rows != [] && Last(more) == Last(rows)))
  {
    if rows != [] && Last(rows).priority <= r.priority {
      var front := Front(rows);
      InsertingKeepsOrder(front, r);
      assert front != [] ==> Last(front).priority > Last(rows).priority;
    }
  }

  lemma {:induction false} InsertingKeepsRows(cs: Classes, now: int, rows: seq<ClassStat>, r: ClassStat)
    requires RowsAreRight(cs, now, rows) && RowIsRight(cs, now, r) && r.priority !in Listed(rows)
    ensures var more := InsertRow(rows, r);
            && RowsAreRight(cs, now, more)
            && Listed(more) == Listed(rows) + {r.priority}
            && SumWaiting(more) == SumWaiting(rows) + r.waiting
  {
    hide RowIsRight;
    if rows == [] || Last(rows).priority > r.priority {
      AppendedRow(rows, r);
    } else {
      InsertingKeepsRows(cs, now, Front(rows), r);
      AppendedRow(InsertRow(Front(rows), r), Last(rows));
    }
  }

  /** Sorting puts the rows in strictly descending order and keeps them all. */
  lemma {:induction false} SortingKeepsRows(cs: Classes, now: int, rows: seq<ClassStat>)
    requires RowsAreRight(cs, now, rows)
    ensures var sorted := SortRows(rows);
            && RowsAreRight(cs, now, sorted) && Descending(sorted)
            && Listed(sorted) == Listed(rows) && SumWaiting(sorted) == SumWaiting(rows)
  {
    hide RowIsRight;
    if rows != [] {
      SortingKeepsRows(cs, now, Front(rows));
      InsertingKeepsOrder(SortRows(Front(rows)), Last(rows));
      InsertingKeepsRows(cs, now, SortRows(Front(rows)), Last(rows));
    }
  }

  lemma {:induction false} EachRowIsRight(cs: Classes, now: int, rows: seq<ClassStat>, i: nat)
    requires RowsAreRight(cs, now, rows) && i < |rows|
    ensures RowIsRight(cs, now, rows[i])
  {
    if i < |rows| - 1 {
      EachRowIsRight(cs, now, Front(rows), i);
    }
  }

  // ---------------------------------------------------------------- collecting the rows

  /** The part of the lists whose classes have been visited. */
  ghost function Visited(cs: Classes, done: set<int>): Classes {
    map p | p in cs && p in done :: cs[p]
  }

  ghost predicate RowsFor(cs: Classes, now: int, rows: seq<ClassStat>, done: set<int>) {
    && RowsAreRight(cs, now, rows)
    && Listed(rows) == done
    && SumWaiting(rows) == Depth(Visited(cs, done))
  }

  ghost predicate WaitSoFar(cs: Classes, now: int, wait: int, done: set<int>) {
    && (forall t | t in Waiters(cs) && t.priority in done :: now - t.since <= wait)
    && (done == {} ==> wait == 0)
    && (done != {} ==> exists t :: t in Waiters(cs) && t.priority in done && now - t.since == wait)
  }

  ghost predicate NoneFromTheFuture(cs: Classes, now: int) {
    forall t | t in Waiters(cs) :: t.since <= now
  }

  lemma NoWaiterIsFromTheFuture(s: Sys, now: int)
    requires ListsMatchCalls(s) && s.now <= now
    ensures NoneFromTheFuture(s.classes, now)
  {
  }

  lemma StartRows(cs: Classes, now: int)
    ensures RowsFor(cs, now, [], {}) && WaitSoFar(cs, now, 0, {})
  {
    assert Visited(cs, {}) == map[];
  }

  /** The head of a class has waited longest in it. */
  lemma HeadWaitsLongest(cs: Classes, now: int, p: int)
    requires WellFormed(cs) && p in cs
    ensures cs[p] != [] && cs[p][0] in Waiters(cs) && cs[p][0].priority == p
    ensures LongestWait(InClass(cs, p), now, now - cs[p][0].since)
  {
    assert cs[p][0] in Waiters(cs);
    assert cs[p][0] in InClass(cs, p);
    forall t | t in InClass(cs, p) ensures cs[p][0].since <= t.since {
      var h := HeadComesFirst(cs, t);
    }
  }

  lemma AddRow(cs: Classes, now: int, rows: seq<ClassStat>, done: set<int>, p: int)
    requires WellFormed(cs) && p in cs && p !in done && RowsFor(cs, now, rows, done)
    ensures cs[p] != [] && RowsFor(cs, now, rows + [ClassStat(p, |cs[p]|, now - cs[p][0].since)], done + {p})
  {
    hide LongestWait, InClass, Waiters;
    HeadWaitsLongest(cs, now, p);
    AppendedRow(rows, ClassStat(p, |cs[p]|, now - cs[p][0].since));
    DepthSplits(Visited(cs, done + {p}), p);
    assert Visited(cs, done + {p}) - {p} == Visited(cs, done);
  }

  lemma AddWait(cs: Classes, now: int, oldest: int, done: set<int>, p: int)
    requires WellFormed(cs) && p in cs && p !in done && NoneFromTheFuture(cs, now) && WaitSoFar(cs, now, oldest, done)
    ensures cs[p] != []
    ensures var wait := now - cs[p][0].since; WaitSoFar(cs, now, if oldest >= wait then oldest else wait, done + {p})
  {
    hide Waiters, WellFormed;
    HeadWaitsLongest(cs, now, p);
    var wait := now - cs[p][0].since;
    forall t | t in Waiters(cs) && t.priority == p ensures now - t.since <= wait {
      assert t in InClass(cs, p);
    }
  }

  lemma RowsAreAReport(cs: Classes, now: int, rows: seq<ClassStat>, s: Stats)
    requires WellFormed(cs) && RowsFor(cs, now, rows, cs.Keys) && WaitSoFar(cs, now, s.oldestWait, cs.Keys)
    requires s.classes == SortRows(rows)
    ensures ReportsQueue(cs, now, s)
  {
    SortingKeepsRows(cs, now, rows);
    forall i | 0 <= i < |s.classes| ensures RowIsRight(cs, now, s.classes[i]) {
      EachRowIsRight(cs, now, s.classes, i);
    }
    assert Visited(cs, cs.Keys) == cs;
    forall t | t in Waiters(cs) ensures t.priority in cs.Keys {
      var h := HeadComesFirst(cs, t);
    }
  }

  // ---------------------------------------------------------------- depths and parked calls

  /** A class is listed exactly if some row is its. */
  lemma {:induction false} ListedHasRow(rows: seq<ClassStat>, p: int)
    ensures p in Listed(rows) <==> exists i :: 0 <= i < |rows| && rows[i].priority == p
  {
    if rows != [] {
      ListedHasRow(Front(rows), p);
      if i :| 0 <= i < |rows| && rows[i].priority == p {
        assert i < |rows| - 1 ==> Front(rows)[i] == rows[i];
      }
      if p in Listed(Front(rows)) {
        var i :| 0 <= i < |Front(rows)| && Front(rows)[i].priority == p;
        assert rows[i].priority == p;
      }
    }
  }

  /** The calls parked in a class. */
  ghost function ParkedIn(clients: map<nat, Phase>, p: int): set<nat> {
    set c | c in clients && clients[c].Parked? && clients[c].ticket.priority == p
  }

  ghost function Ids(l: seq<Ticket>): set<nat> {
    set i | 0 <= i < |l| :: l[i].id
  }

  lemma {:induction false} AsManyIdsAsTickets(l: seq<Ticket>)
    requires Ordered(l)
    ensures |Ids(l)| == |l|
  {
    if l != [] {
      var front, last := l[..|l| - 1], l[|l| - 1];
      AsManyIdsAsTickets(front);
      assert Ids(l) == Ids(front) + {last.id};
      assert last.id !in Ids(front);
    }
  }

  lemma IdsAreParkedCalls(s: Sys, p: int)
    requires ListsMatchCalls(s)
    ensures Ids(ClassOf(s.classes, p)) == ParkedIn(s.clients, p)
  {
    var l := ClassOf(s.classes, p);
    forall i | 0 <= i < |l| ensures l[i].id in ParkedIn(s.clients, p) {
      assert l[i] in Waiters(s.classes);
    }
    forall c | c in ParkedIn(s.clients, p) ensures c in Ids(l) {
      WaitersAreQueued(s.classes, s.clients[c].ticket);
      var i :| 0 <= i < |s.classes[p]| && s.classes[p][i] == s.clients[c].ticket;
      assert l[i].id == c;
    }
  }

  /** The length of a class is the number of calls parked in it. */
  lemma DepthIsParkedCalls(s: Sys, p: int)
    requires ListsMatchCalls(s)
    ensures |ClassOf(s.classes, p)| == |ParkedIn(s.clients, p)|
    ensures p in s.classes <==> ParkedIn(s.clients, p) != {}
  {
    IdsAreParkedCalls(s, p);
    AsManyIdsAsTickets(ClassOf(s.classes, p));
    hide Ids, ParkedIn;
    assert p in s.classes ==> |ClassOf(s.classes, p)| > 0;
    assert ParkedIn(s.clients, p) == {} <==> |ParkedIn(s.clients, p)| == 0;
  }
}
