/**
 The waiting lists of the admission queue: one FIFO list per priority class, and
 the rule that chooses which waiter the next released slot goes to.

 The program looks at the head of every class only.  `HeadPick` is that rule;
 `ScanPick` is the reference rule, which looks at every waiter.  `HeadsSuffice`
 shows they allow exactly the same outcomes on well-formed lists.
 */
module AdmissionCore {

  /** A parked request.  `id` numbers requests in the order they reached the queue;
      `since` is the clock reading taken when it was parked. */
  datatype Ticket = Ticket(id: nat, priority: int, since: int)

  /** A slot handed to a waiter, and whether it won by age rather than by rank. */
  datatype Grant = Grant(ticket: Ticket, promoted: bool)

  type Classes = map<int, seq<Ticket>>

  ghost predicate Queued(cs: Classes, t: Ticket) {
    t.priority in cs && t in cs[t.priority]
  }

  ghost function Waiters(cs: Classes): set<Ticket> {
    set p, i | p in cs && 0 <= i < |cs[p]| :: cs[p][i]
  }

  /** The waiting list of one class; an absent class has nobody in it. */
  function ClassOf(cs: Classes, p: int): seq<Ticket> {
    if p in cs then cs[p] else []
  }

  ghost predicate Ordered(s: seq<Ticket>) {
    forall i, j | 0 <= i < j < |s| :: s[i].id < s[j].id && s[i].since <= s[j].since
  }

  /** What every operation of the queue keeps: no class is empty, each ticket sits in
      the class of its own priority, and each class is in arrival order, which is
      also the order of `since`. */
  ghost predicate WellFormed(cs: Classes) {
    && (forall p | p in cs :: cs[p] != [])
    && (forall p, i | p in cs && 0 <= i < |cs[p]| :: cs[p][i].priority == p)
    && (forall p | p in cs :: Ordered(cs[p]))
  }

  // ---------------------------------------------------------------- push, remove

  function Push(cs: Classes, t: Ticket): Classes {
    cs[t.priority := ClassOf(cs, t.priority) + [t]]
  }

  /** `s` without the ticket numbered `id`. */
  function Drop(s: seq<Ticket>, id: nat): seq<Ticket> {
    if s == [] then []
    else if s[0].id == id then Drop(s[1..], id)
    else [s[0]] + Drop(s[1..], id)
  }

  function Remove(cs: Classes, t: Ticket): Classes {
    var rest := Drop(ClassOf(cs, t.priority), t.id);
    if rest == [] then cs - {t.priority} else cs[t.priority := rest]
  }

  lemma {:induction false} DropSplits(a: seq<Ticket>, b: seq<Ticket>, id: nat)
    ensures Drop(a + b, id) == Drop(a, id) + Drop(b, id)
  {
    if a == [] {
      assert a + b == b;
    } else {
      assert (a + b)[1..] == a[1..] + b;
      DropSplits(a[1..], b, id);
    }
  }

  lemma {:induction false} DropAbsent(s: seq<Ticket>, id: nat)
    requires forall t | t in s :: t.id != id
    ensures Drop(s, id) == s
  {
    if s != [] {
      DropAbsent(s[1..], id);
    }
  }

  lemma OthersHaveOtherIds(s: seq<Ticket>, k: nat)
    requires Ordered(s) && k < |s|
    ensures forall t | t in s[..k] :: t.id != s[k].id
    ensures forall t | t in s[k + 1..] :: t.id != s[k].id
  {
  }

  lemma DropBetween(a: seq<Ticket>, t: Ticket, b: seq<Ticket>)
    requires forall u | u in a :: u.id != t.id
    requires forall u | u in b :: u.id != t.id
    ensures Drop(a + ([t] + b), t.id) == a + b
  {
    DropSplits(a, [t] + b, t.id);
    DropAbsent(a, t.id);
    DropAbsent(b, t.id);
    assert ([t] + b)[1..] == b;
  }

  /** In an ordered list, dropping a ticket takes out exactly its position. */
  lemma DropAt(s: seq<Ticket>, k: nat)
    requires Ordered(s) && k < |s|
    ensures Drop(s, s[k].id) == s[..k] + s[k + 1..]
  {
    hide Drop;
    OthersHaveOtherIds(s, k);
    hide Ordered;
    DropBetween(s[..k], s[k], s[k + 1..]);
    AroundPosition(s, k);
  }

  lemma AroundPosition(s: seq<Ticket>, k: nat)
    requires k < |s|
    ensures s == s[..k] + ([s[k]] + s[k + 1..])
  {
  }

  lemma QueuedAt(cs: Classes, t: Ticket) returns (k: nat)
    requires WellFormed(cs) && Queued(cs, t)
    ensures k < |cs[t.priority]| && cs[t.priority][k] == t
    ensures Drop(cs[t.priority], t.id) == cs[t.priority][..k] + cs[t.priority][k + 1..]
  {
    k :| 0 <= k < |cs[t.priority]| && cs[t.priority][k] == t;
    DropAt(cs[t.priority], k);
  }

  lemma WaitersAreQueued(cs: Classes, t: Ticket)
    requires WellFormed(cs)
    ensures t in Waiters(cs) <==> Queued(cs, t)
  {
    if Queued(cs, t) {
      var k :| 0 <= k < |cs[t.priority]| && cs[t.priority][k] == t;
    }
  }

  /** Parking a request keeps the lists well formed and adds exactly that request,
      provided its number and its clock reading are no earlier than those queued. */
  lemma PushKeeps(cs: Classes, t: Ticket)
    requires WellFormed(cs)
    requires forall u | u in Waiters(cs) :: u.id < t.id && u.since <= t.since
    ensures WellFormed(Push(cs, t))
    ensures Waiters(Push(cs, t)) == Waiters(cs) + {t}
  {
    var after, l := Push(cs, t), ClassOf(cs, t.priority);
    forall i | 0 <= i < |l| ensures l[i].id < t.id && l[i].since <= t.since {
      assert l[i] in Waiters(cs);
    }
    assert after[t.priority][|l|] == t;
    forall u | u in Waiters(cs) ensures u in Waiters(after) {
      var p, i :| p in cs && 0 <= i < |cs[p]| && cs[p][i] == u;
      assert after[p][i] == u;
    }
  }

  lemma RemoveKeepsOrder(cs: Classes, t: Ticket)
    requires WellFormed(cs) && Queued(cs, t)
    ensures WellFormed(Remove(cs, t))
    ensures |ClassOf(Remove(cs, t), t.priority)| == |cs[t.priority]| - 1
  {
    var k := QueuedAt(cs, t);
    var l := cs[t.priority];
    var rest := l[..k] + l[k + 1..];
    assert Ordered(rest) by {
      forall i | 0 <= i < |rest| ensures rest[i] == l[if i < k then i else i + 1] {}
    }
  }

  /** In an ordered list, the tickets left after one is taken out are the others. */
  lemma WithoutOne(l: seq<Ticket>, k: nat, u: Ticket)
    requires Ordered(l) && k < |l|
    ensures u in l[..k] + l[k + 1..] <==> u in l && u != l[k]
  {
    OthersHaveOtherIds(l, k);
    hide Ordered;
    AroundPosition(l, k);
    assert u in l <==> u in l[..k] || u == l[k] || u in l[k + 1..];
  }

  lemma RemoveTakesOne(cs: Classes, t: Ticket, u: Ticket)
    requires WellFormed(cs) && Queued(cs, t)
    ensures Queued(Remove(cs, t), u) <==> Queued(cs, u) && u != t
  {
    hide Drop, Ordered;
    var k := QueuedAt(cs, t);
    if u.priority == t.priority {
      WithoutOne(cs[t.priority], k, u);
    }
  }

  /** Removing a queued request keeps the lists well formed and takes out exactly it. */
  lemma RemoveKeeps(cs: Classes, t: Ticket)
    requires WellFormed(cs) && Queued(cs, t)
    ensures WellFormed(Remove(cs, t))
    ensures Waiters(Remove(cs, t)) == Waiters(cs) - {t}
  {
    RemoveKeepsOrder(cs, t);
    forall u ensures u in Waiters(Remove(cs, t)) <==> u in Waiters(cs) && u != t {
      WaitersAreQueued(cs, u);
      WaitersAreQueued(Remove(cs, t), u);
      RemoveTakesOne(cs, t, u);
    }
  }

  // ---------------------------------------------------------------- the number of waiters

  lemma Inhabited(priorities: set<int>)
    ensures priorities == {} || exists p :: p in priorities
  {
    if forall p :: p !in priorities {
      assert priorities == {};
    }
  }

  ghost function AnyOf(priorities: set<int>): (p: int)
    requires priorities != {}
    ensures p in priorities
  {
    Inhabited(priorities);
    var p :| p in priorities; p
  }

  /** The sum of the lengths of all classes. */
  ghost function Depth(cs: Classes): nat
    decreases cs.Keys
  {
    if cs.Keys == {} then 0 else var p := AnyOf(cs.Keys); |cs[p]| + Depth(cs - {p})
  }

  lemma {:induction false} DepthSplits(cs: Classes, p: int)
    requires p in cs
    ensures Depth(cs) == |cs[p]| + Depth(cs - {p})
    decreases cs.Keys
  {
    var q := AnyOf(cs.Keys);
    if q != p {
      DepthSplits(cs - {q}, p);
      DepthSplits(cs - {p}, q);
      assert cs - {q} - {p} == cs - {p} - {q};
    }
  }

  /** Changing one class changes the total by the change of its length. */
  lemma DepthOfUpdate(cs: Classes, p: int, s: seq<Ticket>)
    ensures Depth(cs[p := s]) == Depth(cs) - |ClassOf(cs, p)| + |s|
    ensures Depth(cs - {p}) == Depth(cs) - |ClassOf(cs, p)|
  {
    DepthSplits(cs[p := s], p);
    assert cs[p := s] - {p} == cs - {p};
    if p in cs {
      DepthSplits(cs, p);
    } else {
      assert cs - {p} == cs;
    }
  }

  // ---------------------------------------------------------------- choosing the next waiter

  ghost predicate IsHead(cs: Classes, t: Ticket) {
    exists p :: p in cs && cs[p] != [] && cs[p][0] == t
  }

  ghost predicate TopHead(cs: Classes, t: Ticket) {
    IsHead(cs, t) && forall p | p in cs && cs[p] != [] :: cs[p][0].priority <= t.priority
  }

  ghost predicate OldestHead(cs: Classes, t: Ticket) {
    IsHead(cs, t) && forall p | p in cs && cs[p] != [] :: t.since <= cs[p][0].since
  }

  /** The choice between the two candidates: age beats rank, but never twice running. */
  predicate Chosen(top: Ticket, oldest: Ticket, justPromoted: bool, now: int, promoteAfter: int, g: Grant) {
    if !justPromoted && oldest != top && now - oldest.since >= promoteAfter
    then g == Grant(oldest, true)
    else g == Grant(top, false)
  }

  /** The program's rule: candidates are class heads only.  Any head with the least
      `since` may serve as the oldest, because classes are visited in no fixed order. */
  ghost predicate HeadPick(cs: Classes, justPromoted: bool, now: int, promoteAfter: int, g: Grant) {
    exists top, oldest :: TopHead(cs, top) && OldestHead(cs, oldest)
                          && Chosen(top, oldest, justPromoted, now, promoteAfter, g)
  }

  /** The earliest arrival of the highest class in play, over every waiter. */
  ghost predicate FirstByRank(cs: Classes, t: Ticket) {
    t in Waiters(cs) &&
    forall u | u in Waiters(cs) :: u.priority < t.priority || (u.priority == t.priority && t.id <= u.id)
  }

  /** A waiter nobody has waited longer than, and nobody of its own class preceded. */
  ghost predicate FirstByAge(cs: Classes, t: Ticket) {
    t in Waiters(cs) &&
    forall u | u in Waiters(cs) :: t.since <= u.since && (u.priority == t.priority ==> t.id <= u.id)
  }

  /** The reference rule: candidates are found by looking at every waiter. */
  ghost predicate ScanPick(cs: Classes, justPromoted: bool, now: int, promoteAfter: int, g: Grant) {
    exists top, oldest :: FirstByRank(cs, top) && FirstByAge(cs, oldest)
                          && Chosen(top, oldest, justPromoted, now, promoteAfter, g)
  }

  lemma HeadAtOwnClass(cs: Classes, t: Ticket)
    requires WellFormed(cs)
    ensures IsHead(cs, t) <==> t.priority in cs && cs[t.priority][0] == t
  {
  }

  /** A waiter is no older, and no earlier in its class, than the head of its class. */
  lemma HeadComesFirst(cs: Classes, u: Ticket) returns (h: Ticket)
    requires WellFormed(cs) && u in Waiters(cs)
    ensures u.priority in cs && h == cs[u.priority][0] && h in Waiters(cs)
    ensures h.priority == u.priority && h.id <= u.id && h.since <= u.since
  {
    var p, i :| p in cs && 0 <= i < |cs[p]| && cs[p][i] == u;
    h := cs[p][0];
    assert Ordered(cs[p]);
  }

  lemma SameClassSameId(cs: Classes, t: Ticket, u: Ticket)
    requires WellFormed(cs) && t in Waiters(cs) && u in Waiters(cs)
    requires t.priority == u.priority && t.id == u.id
    ensures t == u
  {
    var p, i :| p in cs && 0 <= i < |cs[p]| && cs[p][i] == t;
    var q, j :| q in cs && 0 <= j < |cs[q]| && cs[q][j] == u;
    assert Ordered(cs[p]);
  }

  lemma TopHeadIsFirstByRank(cs: Classes, t: Ticket)
    requires WellFormed(cs)
    ensures TopHead(cs, t) <==> FirstByRank(cs, t)
  {
    HeadAtOwnClass(cs, t);
    if TopHead(cs, t) {
      assert cs[t.priority][0] == t;
      forall u | u in Waiters(cs)
        ensures u.priority < t.priority || (u.priority == t.priority && t.id <= u.id)
      {
        var h := HeadComesFirst(cs, u);
      }
    }
    if FirstByRank(cs, t) {
      var h := HeadComesFirst(cs, t);
      SameClassSameId(cs, t, h);
      forall p | p in cs ensures cs[p][0].priority <= t.priority {
        assert cs[p][0] in Waiters(cs);
      }
    }
  }

  lemma OldestHeadIsFirstByAge(cs: Classes, t: Ticket)
    requires WellFormed(cs)
    ensures OldestHead(cs, t) <==> FirstByAge(cs, t)
  {
    HeadAtOwnClass(cs, t);
    if OldestHead(cs, t) {
      assert cs[t.priority][0] == t;
      forall u | u in Waiters(cs)
        ensures t.since <= u.since && (u.priority == t.priority ==> t.id <= u.id)
      {
        var h := HeadComesFirst(cs, u);
      }
    }
    if FirstByAge(cs, t) {
      var h := HeadComesFirst(cs, t);
      SameClassSameId(cs, t, h);
      forall p | p in cs ensures t.since <= cs[p][0].since {
        assert cs[p][0] in Waiters(cs);
      }
    }
  }

  /** Looking at class heads allows exactly the grants a scan of every waiter allows. */
  lemma HeadsSuffice(cs: Classes, justPromoted: bool, now: int, promoteAfter: int, g: Grant)
    requires WellFormed(cs)
    ensures HeadPick(cs, justPromoted, now, promoteAfter, g) <==> ScanPick(cs, justPromoted, now, promoteAfter, g)
  {
    forall t ensures TopHead(cs, t) <==> FirstByRank(cs, t) {
      TopHeadIsFirstByRank(cs, t);
    }
    forall t ensures OldestHead(cs, t) <==> FirstByAge(cs, t) {
      OldestHeadIsFirstByAge(cs, t);
    }
  }

  /** The largest of some priorities. */
  lemma {:induction false} Highest(priorities: set<int>) returns (p: int)
    requires priorities != {}
    ensures p in priorities && forall q | q in priorities :: q <= p
  {
    Inhabited(priorities);
    p :| p in priorities;
    var rest := priorities - {p};
    assert forall r | r in priorities :: r == p || r in rest;
    if rest != {} {
      var q := Highest(rest);
      p := if q > p then q else p;
    }
  }

  lemma SomebodyIsFirstByRank(cs: Classes) returns (t: Ticket)
    requires WellFormed(cs) && cs != map[]
    ensures FirstByRank(cs, t)
  {
    assert cs.Keys != {};
    var p := Highest(cs.Keys);
    t := cs[p][0];
    assert IsHead(cs, t);
    TopHeadIsFirstByRank(cs, t);
  }

  /** Of some classes, one whose head arrived first. */
  lemma {:induction false} EarliestHead(cs: Classes, priorities: set<int>) returns (p: int)
    requires WellFormed(cs) && priorities != {} && priorities <= cs.Keys
    ensures p in priorities && forall q | q in priorities :: cs[p][0].since <= cs[q][0].since
    decreases priorities
  {
    Inhabited(priorities);
    p :| p in priorities;
    var rest := priorities - {p};
    assert forall r | r in priorities :: r == p || r in rest;
    if rest != {} {
      var q := EarliestHead(cs, rest);
      p := if cs[q][0].since < cs[p][0].since then q else p;
    }
  }

  lemma SomebodyIsFirstByAge(cs: Classes) returns (t: Ticket)
    requires WellFormed(cs) && cs != map[]
    ensures FirstByAge(cs, t)
  {
    assert cs.Keys != {};
    var p := EarliestHead(cs, cs.Keys);
    t := cs[p][0];
    assert IsHead(cs, t);
    OldestHeadIsFirstByAge(cs, t);
  }

  /** While somebody waits, the rule always has a grant to make. */
  lemma SomeGrantIsAllowed(cs: Classes, justPromoted: bool, now: int, promoteAfter: int) returns (g: Grant)
    requires WellFormed(cs) && cs != map[]
    ensures HeadPick(cs, justPromoted, now, promoteAfter, g)
  {
    hide FirstByAge, FirstByRank, HeadPick;
    var top := SomebodyIsFirstByRank(cs);
    var oldest := SomebodyIsFirstByAge(cs);
    g := if !justPromoted && oldest != top && now - oldest.since >= promoteAfter then Grant(oldest, true) else Grant(top, false);
    assert Chosen(top, oldest, justPromoted, now, promoteAfter, g);
    assert ScanPick(cs, justPromoted, now, promoteAfter, g);
    HeadsSuffice(cs, justPromoted, now, promoteAfter, g);
  }

  lemma OnlyOneIsFirstByRank(cs: Classes, t: Ticket, u: Ticket)
    requires WellFormed(cs) && FirstByRank(cs, t) && FirstByRank(cs, u)
    ensures t == u
  {
    SameClassSameId(cs, t, u);
  }

  lemma ScannedPromotion(cs: Classes, justPromoted: bool, now: int, promoteAfter: int, t: Ticket)
    requires WellFormed(cs)
    ensures ScanPick(cs, justPromoted, now, promoteAfter, Grant(t, true)) <==>
              FirstByAge(cs, t) && !FirstByRank(cs, t) && !justPromoted && now - t.since >= promoteAfter
  {
    if ScanPick(cs, justPromoted, now, promoteAfter, Grant(t, true)) {
      var top, oldest :| FirstByRank(cs, top) && FirstByAge(cs, oldest)
                         && Chosen(top, oldest, justPromoted, now, promoteAfter, Grant(t, true));
      if FirstByRank(cs, t) {
        OnlyOneIsFirstByRank(cs, top, t);
      }
    }
    if FirstByAge(cs, t) && !FirstByRank(cs, t) && !justPromoted && now - t.since >= promoteAfter {
      assert cs != map[];
      var top := SomebodyIsFirstByRank(cs);
      assert Chosen(top, t, justPromoted, now, promoteAfter, Grant(t, true));
    }
  }

  lemma ScannedStrictGrant(cs: Classes, justPromoted: bool, now: int, promoteAfter: int, t: Ticket)
    ensures ScanPick(cs, justPromoted, now, promoteAfter, Grant(t, false)) <==>
              FirstByRank(cs, t)
              && exists o :: FirstByAge(cs, o) && (justPromoted || o == t || now - o.since < promoteAfter)
  {
    hide FirstByRank, FirstByAge;
    if o :| FirstByRank(cs, t) && FirstByAge(cs, o) && (justPromoted || o == t || now - o.since < promoteAfter) {
      assert Chosen(t, o, justPromoted, now, promoteAfter, Grant(t, false));
    }
  }

  /** When a grant is a promotion, and who gets it, in terms of every waiter.  A promoted
      waiter is a longest-waiting one, not the first by rank, and has waited out the
      window, and the grant before was not a promotion; any other grant goes to the first
      by rank, and only if the grant before was a promotion, or a longest-waiting waiter
      is that first one or has not waited out the window. */
  lemma PromotionsAreEarned(cs: Classes, justPromoted: bool, now: int, promoteAfter: int, g: Grant)
    requires WellFormed(cs)
    ensures HeadPick(cs, justPromoted, now, promoteAfter, g) <==>
              if g.promoted then
                && FirstByAge(cs, g.ticket) && !FirstByRank(cs, g.ticket)
                && !justPromoted && now - g.ticket.since >= promoteAfter
              else
                && FirstByRank(cs, g.ticket)
                && exists o :: FirstByAge(cs, o) && (justPromoted || o == g.ticket || now - o.since < promoteAfter)
  {
    hide HeadPick, ScanPick, FirstByRank, FirstByAge;
    HeadsSuffice(cs, justPromoted, now, promoteAfter, g);
    if g.promoted {
      ScannedPromotion(cs, justPromoted, now, promoteAfter, g.ticket);
    } else {
      ScannedStrictGrant(cs, justPromoted, now, promoteAfter, g.ticket);
    }
  }

  /** Whoever is granted a slot is the head of its own class, and only that class moves. */
  lemma PickIsHead(cs: Classes, justPromoted: bool, now: int, promoteAfter: int, g: Grant)
    requires WellFormed(cs) && HeadPick(cs, justPromoted, now, promoteAfter, g)
    ensures Queued(cs, g.ticket) && cs[g.ticket.priority][0] == g.ticket
    ensures ClassOf(cs, g.ticket.priority) == [g.ticket] + ClassOf(Remove(cs, g.ticket), g.ticket.priority)
    ensures forall p | p != g.ticket.priority :: ClassOf(Remove(cs, g.ticket), p) == ClassOf(cs, p)
  {
    PickHeadsItsClass(cs, justPromoted, now, promoteAfter, g);
    hide HeadPick, WellFormed, Ordered;
    DropHead(cs[g.ticket.priority]);
    RemoveAndRest(cs, g.ticket);
  }

  lemma DropHead(l: seq<Ticket>)
    requires l != [] && Ordered(l)
    ensures Drop(l, l[0].id) == l[1..] && l == [l[0]] + l[1..]
  {
    DropAt(l, 0);
    hide Drop, Ordered;
    assert l[..0] + l[1..] == l[1..];
  }

  lemma RemoveAndRest(cs: Classes, t: Ticket)
    ensures ClassOf(Remove(cs, t), t.priority) == Drop(ClassOf(cs, t.priority), t.id)
    ensures forall p | p != t.priority :: ClassOf(Remove(cs, t), p) == ClassOf(cs, p)
  {
    hide Drop;
  }

  lemma PickHeadsItsClass(cs: Classes, justPromoted: bool, now: int, promoteAfter: int, g: Grant)
    requires WellFormed(cs) && HeadPick(cs, justPromoted, now, promoteAfter, g)
    ensures Queued(cs, g.ticket) && cs[g.ticket.priority][0] == g.ticket && Ordered(cs[g.ticket.priority])
  {
    HeadAtOwnClass(cs, g.ticket);
  }
}
