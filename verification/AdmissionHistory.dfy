/**
 Whole-run properties of the admission queue: first come, first served within a
 class, alternation of promotions, and the lifetime counters.
 */
module AdmissionHistory {
  import opened AdmissionCore
  import opened AdmissionProtocol
  import opened Wrappers

  // ---------------------------------------------------------------- reading the logs

  /** The arrivals of class `p`, without the requests that gave up while parked. */
  ghost function Kept(arrivals: seq<Ticket>, p: int, gone: set<nat>): seq<Ticket> {
    if arrivals == [] then [] else
      var t := arrivals[|arrivals| - 1];
      Kept(arrivals[..|arrivals| - 1], p, gone) + (if t.priority == p && t.id !in gone then [t] else [])
  }

  /** The grants made to class `p`, in the order they were made. */
  ghost function GrantsOf(grants: seq<Grant>, p: int): seq<Ticket> {
    if grants == [] then [] else
      var g := grants[|grants| - 1];
      GrantsOf(grants[..|grants| - 1], p) + (if g.ticket.priority == p then [g.ticket] else [])
  }

  ghost function PromotedIn(grants: seq<Grant>): nat {
    if grants == [] then 0 else
      PromotedIn(grants[..|grants| - 1]) + (if grants[|grants| - 1].promoted then 1 else 0)
  }

  ghost function GaveUpIds(s: Sys): set<nat> {
    CallsIn(s.clients, IsGaveUp)
  }

  lemma {:induction false} GrantsOfAreGrants(grants: seq<Grant>, p: int, t: Ticket)
    requires t in GrantsOf(grants, p)
    ensures exists g :: g in grants && g.ticket == t
  {
    var last := grants[|grants| - 1];
    if t == last.ticket {
      assert last in grants;
    } else {
      GrantsOfAreGrants(grants[..|grants| - 1], p, t);
    }
  }

  /** A request giving up disappears from its class's arrivals and nothing else does. */
  lemma {:induction false} KeptWithoutOne(arrivals: seq<Ticket>, p: int, gone: set<nat>, id: nat)
    ensures Kept(arrivals, p, gone + {id}) == Drop(Kept(arrivals, p, gone), id)
  {
    if arrivals != [] {
      var t := arrivals[|arrivals| - 1];
      var front := Kept(arrivals[..|arrivals| - 1], p, gone);
      KeptWithoutOne(arrivals[..|arrivals| - 1], p, gone, id);
      DropSplits(front, if t.priority == p && t.id !in gone then [t] else [], id);
    }
  }

  // ---------------------------------------------------------------- first come, first served

  /** The arrivals of class `p` that did not give up are the grants made to it so far,
      followed by its waiting list. */
  ghost predicate ClassFifo(arrivals: seq<Ticket>, gone: set<nat>, grants: seq<Grant>, cs: Classes, p: int) {
    Kept(arrivals, p, gone) == GrantsOf(grants, p) + ClassOf(cs, p)
  }

  ghost predicate FifoLogs(s: Sys) {
    && Ordered(s.arrivals)
    && (forall t | t in s.arrivals :: t.id < s.next && t.since <= s.now)
    && (forall g | g in s.grants :: g.ticket.id in s.clients && !s.clients[g.ticket.id].Parked?
                                    && !s.clients[g.ticket.id].GaveUp?)
    && (forall p :: ClassFifo(s.arrivals, GaveUpIds(s), s.grants, s.classes, p))
  }

  lemma ParkKeepsClassFifo(arrivals: seq<Ticket>, gone: set<nat>, grants: seq<Grant>, cs: Classes, p: int, t: Ticket)
    requires ClassFifo(arrivals, gone, grants, cs, p) && t.id !in gone
    ensures ClassFifo(arrivals + [t], gone, grants, Push(cs, t), p)
  {
    assert (arrivals + [t])[..|arrivals|] == arrivals;
  }

  lemma GrantKeepsClassFifo(arrivals: seq<Ticket>, gone: set<nat>, grants: seq<Grant>, cs: Classes, cs': Classes,
                            p: int, g: Grant)
    requires ClassFifo(arrivals, gone, grants, cs, p)
    requires ClassOf(cs, p) == (if p == g.ticket.priority then [g.ticket] else []) + ClassOf(cs', p)
    ensures ClassFifo(arrivals, gone, grants + [g], cs', p)
  {
    assert (grants + [g])[..|grants|] == grants;
  }

  lemma CancelKeepsClassFifo(arrivals: seq<Ticket>, gone: set<nat>, grants: seq<Grant>, cs: Classes, p: int, t: Ticket)
    requires ClassFifo(arrivals, gone, grants, cs, p)
    requires forall u | u in GrantsOf(grants, p) :: u.id != t.id
    requires p != t.priority ==> forall u | u in ClassOf(cs, p) :: u.id != t.id
    ensures ClassFifo(arrivals, gone + {t.id}, grants, Remove(cs, t), p)
  {
    KeptWithoutOne(arrivals, p, gone, t.id);
    DropSplits(GrantsOf(grants, p), ClassOf(cs, p), t.id);
    DropAbsent(GrantsOf(grants, p), t.id);
    if p != t.priority {
      DropAbsent(ClassOf(cs, p), t.id);
    }
  }

  lemma ParkKeepsFifo(cfg: Config, s: Sys, p: int)
    requires Inv(cfg, s) && FifoLogs(s) && Enabled(cfg, s, Park(p))
    ensures FifoLogs(Apply(cfg, s, Park(p)))
  {
    hide ClassFifo, SlotsConserved, WellFormed, Push;
    var s' := Apply(cfg, s, Park(p));
    assert GaveUpIds(s') == GaveUpIds(s);
    forall q ensures ClassFifo(s'.arrivals, GaveUpIds(s'), s'.grants, s'.classes, q) {
      ParkKeepsClassFifo(s.arrivals, GaveUpIds(s), s.grants, s.classes, q, Ticket(s.next, p, s.now));
    }
  }

  /** The number of a parked call occurs in no grant and in no other class's list. */
  lemma ParkedNumberIsElsewhereUnused(s: Sys, c: nat, q: int)
    requires ListsMatchCalls(s) && FifoLogs(s) && c in s.clients && s.clients[c].Parked?
    ensures forall u | u in GrantsOf(s.grants, q) :: u.id != c
    ensures q != s.clients[c].ticket.priority ==> forall u | u in ClassOf(s.classes, q) :: u.id != c
  {
    forall u | u in GrantsOf(s.grants, q) ensures u.id != c {
      GrantsOfAreGrants(s.grants, q, u);
    }
    forall u | u in ClassOf(s.classes, q) && u.id == c ensures q == s.clients[c].ticket.priority {
      var i :| 0 <= i < |s.classes[q]| && s.classes[q][i] == u;
      assert u in Waiters(s.classes);
    }
  }

  lemma CancelKeepsFifo(cfg: Config, s: Sys, c: nat)
    requires Inv(cfg, s) && FifoLogs(s) && Enabled(cfg, s, CancelParked(c))
    ensures FifoLogs(Apply(cfg, s, CancelParked(c)))
  {
    hide ClassFifo, SlotsConserved, WellFormed, Remove;
    var s' := Apply(cfg, s, CancelParked(c));
    assert GaveUpIds(s') == GaveUpIds(s) + {c};
    forall q ensures ClassFifo(s'.arrivals, GaveUpIds(s'), s'.grants, s'.classes, q) {
      ParkedNumberIsElsewhereUnused(s, c, q);
      CancelKeepsClassFifo(s.arrivals, GaveUpIds(s), s.grants, s.classes, q, s.clients[c].ticket);
    }
  }

  /** A call moving between phases without joining or leaving a list. */
  lemma PhaseChangeKeepsFifo(s: Sys, s': Sys, c: nat, p: Phase)
    requires FifoLogs(s) && ListsMatchCalls(s)
    requires c in s.clients ==> TakesSlot(s.clients[c])
    requires !p.Parked? && !p.GaveUp?
    requires s'.clients == s.clients[c := p] && s'.classes == s.classes && s'.arrivals == s.arrivals
    requires s'.grants == s.grants && s'.now == s.now && s.next <= s'.next
    ensures FifoLogs(s')
  {
    assert GaveUpIds(s') == GaveUpIds(s);
  }

  lemma GrantKeepsGaveUp(s: Sys, g: Grant)
    requires g.ticket.id in s.clients && s.clients[g.ticket.id].Parked?
    ensures GaveUpIds(Handoff(s, Some(g))) == GaveUpIds(s)
  {
    hide Remove;
  }

  lemma GrantKeepsFifo(cfg: Config, s: Sys, s': Sys, g: Grant)
    requires ListsMatchCalls(s) && FifoLogs(s) && HandoffAllowed(cfg, s, Some(g)) && s' == Handoff(s, Some(g))
    ensures forall q :: ClassFifo(s'.arrivals, GaveUpIds(s'), s'.grants, s'.classes, q)
  {
    hide ClassFifo, WellFormed, Waiters, Remove, HeadPick, Ordered, GaveUpIds, ClassOf, Queued;
    PickIsParked(cfg, s, g);
    PickIsHead(s.classes, s.justPromoted, s.now, cfg.promoteAfter, g);
    GrantKeepsGaveUp(s, g);
    hide ListsMatchCalls, HandoffAllowed;
    forall q ensures ClassFifo(s'.arrivals, GaveUpIds(s'), s'.grants, s'.classes, q) {
      GrantKeepsClassFifo(s.arrivals, GaveUpIds(s), s.grants, s.classes, s'.classes, q, g);
    }
  }

  lemma HandoffKeepsFifo(cfg: Config, s: Sys, pick: Option<Grant>)
    requires ListsMatchCalls(s) && FifoLogs(s) && HandoffAllowed(cfg, s, pick)
    ensures FifoLogs(Handoff(s, pick))
  {
    var s' := Handoff(s, pick);
    match pick
    case None => assert GaveUpIds(s') == GaveUpIds(s);
    case Some(g) =>
      PickIsParked(cfg, s, g);
      GrantKeepsFifo(cfg, s, s', g);
  }

  lemma GivingUpASlotKeepsFifo(cfg: Config, s: Sys, mid: Sys, c: nat, p: Phase, pick: Option<Grant>)
    requires Inv(cfg, s) && FifoLogs(s) && c in s.clients && TakesSlot(s.clients[c]) && (p.Served? || p.Raced?)
    requires mid == s.(clients := s.clients[c := p], cancelled := mid.cancelled)
    requires HandoffAllowed(cfg, mid, pick)
    ensures FifoLogs(Handoff(mid, pick))
  {
    ChangingPhaseKeepsMatch(s, mid, c, p);
    PhaseChangeKeepsFifo(s, mid, c, p);
    HandoffKeepsFifo(cfg, mid, pick);
  }

  lemma QuietStepKeepsFifo(cfg: Config, s: Sys, e: Event)
    requires Inv(cfg, s) && FifoLogs(s) && Enabled(cfg, s, e) && (e.FastAdmit? || e.Wake?)
    ensures FifoLogs(Apply(cfg, s, e))
  {
    var s' := Apply(cfg, s, e);
    var c := if e.Wake? then e.client else s.next;
    PhaseChangeKeepsFifo(s, s', c, s'.clients[c]);
  }

  lemma TickKeepsFifo(cfg: Config, s: Sys, e: Event)
    requires FifoLogs(s) && Enabled(cfg, s, e) && e.Tick?
    ensures FifoLogs(Apply(cfg, s, e))
  {
    assert GaveUpIds(Apply(cfg, s, e)) == GaveUpIds(s);
  }

  lemma StepKeepsFifo(cfg: Config, s: Sys, e: Event)
    requires Inv(cfg, s) && FifoLogs(s) && Enabled(cfg, s, e)
    ensures FifoLogs(Apply(cfg, s, e))
  {
    match e
    case Tick(_) => TickKeepsFifo(cfg, s, e);
    case FastAdmit(_) => QuietStepKeepsFifo(cfg, s, e);
    case Park(p) => ParkKeepsFifo(cfg, s, p);
    case Wake(_) => QuietStepKeepsFifo(cfg, s, e);
    case CancelParked(c) => CancelKeepsFifo(cfg, s, c);
    case CancelGranted(c, pick) =>
      var p := Raced(s.clients[c].ticket, s.clients[c].promoted);
      GivingUpASlotKeepsFifo(cfg, s, s.(clients := s.clients[c := p], cancelled := s.cancelled + 1), c, p, pick);
    case Release(c, pick) =>
      var p := Served(s.clients[c].promoted);
      GivingUpASlotKeepsFifo(cfg, s, s.(clients := s.clients[c := p]), c, p, pick);
    case ReleaseAgain(_) =>
  }

  // ---------------------------------------------------------------- alternation and counters

  /** No two consecutive grants are both promotions. */
  ghost predicate Alternates(grants: seq<Grant>) {
    forall i | 0 < i < |grants| :: !(grants[i - 1].promoted && grants[i].promoted)
  }

  predicate IsAdmitted(p: Phase) { p.Holding? || p.Served? }
  predicate IsCancelled(p: Phase) { p.GaveUp? || p.Raced? }
  predicate IsUncountedPromotion(p: Phase) { (p.Granted? || p.Raced?) && p.promoted }

  /** `justPromoted` is what the last grant was, whatever happened to its call. */
  ghost predicate GrantLog(s: Sys) {
    && Alternates(s.grants)
    && s.justPromoted == (s.grants != [] && s.grants[|s.grants| - 1].promoted)
  }

  lemma StepKeepsGrantLog(cfg: Config, s: Sys, e: Event)
    requires GrantLog(s) && Enabled(cfg, s, e)
    ensures GrantLog(Apply(cfg, s, e))
  {
  }

  /** The program's counters, accounted for call by call.  A promoted grant is counted
      when its call wakes, so grants still unread or lost to a race are not. */
  ghost predicate CountersMatch(s: Sys) {
    && s.promoted + Count(s.clients, IsUncountedPromotion) == PromotedIn(s.grants)
    && s.admitted == Count(s.clients, IsAdmitted)
    && s.cancelled == Count(s.clients, IsCancelled)
    && s.admitted + s.cancelled + s.waiting + Count(s.clients, IsGranted) == s.next
  }

  /** Settling one call: if each counter moves by what the call's change of phase is
      worth, the counters still match. */
  lemma SettlingKeepsCounters(s: Sys, s': Sys, c: nat, was: Phase, p: Phase)
    requires CountersMatch(s)
    requires if c in s.clients then was == s.clients[c] else was.Parked?
    requires s'.clients == s.clients[c := p]
    requires s'.promoted - s.promoted + Bit(IsUncountedPromotion(p)) - Bit(IsUncountedPromotion(was))
             == PromotedIn(s'.grants) - PromotedIn(s.grants)
    requires s'.admitted - s.admitted == Bit(IsAdmitted(p)) - Bit(IsAdmitted(was))
    requires s'.cancelled - s.cancelled == Bit(IsCancelled(p)) - Bit(IsCancelled(was))
    requires s'.admitted - s.admitted + s'.cancelled - s.cancelled + s'.waiting - s.waiting
             + Bit(IsGranted(p)) - Bit(IsGranted(was)) == s'.next - s.next
    ensures CountersMatch(s')
  {
    CountOfUpdate(s.clients, c, p, IsGranted);
    CountOfUpdate(s.clients, c, p, IsUncountedPromotion);
    CountOfUpdate(s.clients, c, p, IsAdmitted);
    CountOfUpdate(s.clients, c, p, IsCancelled);
  }

  lemma HandoffKeepsCounters(cfg: Config, s: Sys, pick: Option<Grant>)
    requires ListsMatchCalls(s) && CountersMatch(s) && HandoffAllowed(cfg, s, pick)
    ensures CountersMatch(Handoff(s, pick))
  {
    match pick
    case None =>
    case Some(g) =>
      PickIsParked(cfg, s, g);
      assert (s.grants + [g])[..|s.grants|] == s.grants;
      SettlingKeepsCounters(s, Handoff(s, pick), g.ticket.id, s.clients[g.ticket.id], Granted(g.ticket, g.promoted));
  }

  lemma GivingUpASlotKeepsCounters(cfg: Config, s: Sys, mid: Sys, c: nat, p: Phase, pick: Option<Grant>)
    requires Inv(cfg, s) && CountersMatch(s) && c in s.clients
    requires (s.clients[c].Holding? && p == Served(s.clients[c].promoted))
             || (s.clients[c].Granted? && p == Raced(s.clients[c].ticket, s.clients[c].promoted))
    requires mid == s.(clients := s.clients[c := p], cancelled := s.cancelled + (if p.Raced? then 1 else 0))
    requires HandoffAllowed(cfg, mid, pick)
    ensures CountersMatch(Handoff(mid, pick))
  {
    ChangingPhaseKeepsMatch(s, mid, c, p);
    SettlingKeepsCounters(s, mid, c, s.clients[c], p);
    HandoffKeepsCounters(cfg, mid, pick);
  }

  lemma ArrivalKeepsCounters(cfg: Config, s: Sys, e: Event)
    requires Inv(cfg, s) && CountersMatch(s) && Enabled(cfg, s, e) && (e.FastAdmit? || e.Park?)
    ensures CountersMatch(Apply(cfg, s, e))
  {
    var s' := Apply(cfg, s, e);
    SettlingKeepsCounters(s, s', s.next, Parked(Ticket(0, 0, 0)), s'.clients[s.next]);
  }

  lemma ReturnKeepsCounters(cfg: Config, s: Sys, e: Event)
    requires Inv(cfg, s) && CountersMatch(s) && Enabled(cfg, s, e) && (e.Wake? || e.CancelParked?)
    ensures CountersMatch(Apply(cfg, s, e))
  {
    var s' := Apply(cfg, s, e);
    SettlingKeepsCounters(s, s', e.client, s.clients[e.client], s'.clients[e.client]);
  }

  lemma StepKeepsCounters(cfg: Config, s: Sys, e: Event)
    requires Inv(cfg, s) && CountersMatch(s) && Enabled(cfg, s, e)
    ensures CountersMatch(Apply(cfg, s, e))
  {
    match e
    case Tick(_) =>
    case FastAdmit(_) => ArrivalKeepsCounters(cfg, s, e);
    case Park(_) => ArrivalKeepsCounters(cfg, s, e);
    case Wake(_) => ReturnKeepsCounters(cfg, s, e);
    case CancelParked(_) => ReturnKeepsCounters(cfg, s, e);
    case CancelGranted(c, pick) =>
      var p := Raced(s.clients[c].ticket, s.clients[c].promoted);
      GivingUpASlotKeepsCounters(cfg, s, s.(clients := s.clients[c := p], cancelled := s.cancelled + 1), c, p, pick);
    case Release(c, pick) =>
      var p := Served(s.clients[c].promoted);
      GivingUpASlotKeepsCounters(cfg, s, s.(clients := s.clients[c := p]), c, p, pick);
    case ReleaseAgain(_) =>
  }

  // ---------------------------------------------------------------- whole runs

  lemma {:induction false} ReachableHistories(cfg: Config, start: int, run: seq<Event>)
    requires ValidConfig(cfg) && Legal(cfg, Init(cfg, start), run)
    ensures var s := After(cfg, Init(cfg, start), run); Inv(cfg, s) && FifoLogs(s) && GrantLog(s) && CountersMatch(s)
    decreases |run|
  {
    ReachableStatesAreSound(cfg, start, run);
    if run != [] {
      var prefix := run[..|run| - 1];
      ReachableHistories(cfg, start, prefix);
      ReachableStatesAreSound(cfg, start, prefix);
      var s := After(cfg, Init(cfg, start), prefix);
      StepKeepsFifo(cfg, s, run[|run| - 1]);
      StepKeepsGrantLog(cfg, s, run[|run| - 1]);
      StepKeepsCounters(cfg, s, run[|run| - 1]);
    }
  }

  /** First come, first served: in every run and for every class, the grants are the
      arrivals of that class in arrival order with the requests that gave up taken
      out, and whoever is left over is the waiting list in that same order. */
  lemma GrantsFollowArrivals(cfg: Config, start: int, run: seq<Event>, p: int)
    requires ValidConfig(cfg) && Legal(cfg, Init(cfg, start), run)
    ensures var s := After(cfg, Init(cfg, start), run);
            && Kept(s.arrivals, p, GaveUpIds(s)) == GrantsOf(s.grants, p) + ClassOf(s.classes, p)
            && Ordered(s.arrivals)
  {
    ReachableHistories(cfg, start, run);
    var s := After(cfg, Init(cfg, start), run);
    assert ClassFifo(s.arrivals, GaveUpIds(s), s.grants, s.classes, p);
  }

  lemma {:induction false} AlternationBoundsPromotions(grants: seq<Grant>)
    requires Alternates(grants)
    ensures 2 * PromotedIn(grants) <= |grants| + (if grants != [] && grants[|grants| - 1].promoted then 1 else 0)
  {
    if grants != [] {
      AlternationBoundsPromotions(grants[..|grants| - 1]);
    }
  }

  /** In every prefix of the grants of every run, promotions exceed strict grants by at
      most one; and the `promoted` counter never exceeds the promotions granted. */
  lemma PromotionsAlternate(cfg: Config, start: int, run: seq<Event>, k: nat)
    requires ValidConfig(cfg) && Legal(cfg, Init(cfg, start), run)
    requires k <= |After(cfg, Init(cfg, start), run).grants|
    ensures var s := After(cfg, Init(cfg, start), run);
            && Alternates(s.grants)
            && PromotedIn(s.grants[..k]) <= (k - PromotedIn(s.grants[..k])) + 1
            && s.promoted <= PromotedIn(s.grants)
  {
    ReachableHistories(cfg, start, run);
    AlternationBoundsPromotions(After(cfg, Init(cfg, start), run).grants[..k]);
  }

  /** Every call ever made is counted exactly once: admitted, cancelled, waiting, or
      granted a slot it has not picked up yet. */
  lemma EveryCallIsCountedOnce(cfg: Config, start: int, run: seq<Event>)
    requires ValidConfig(cfg) && Legal(cfg, Init(cfg, start), run)
    ensures var s := After(cfg, Init(cfg, start), run);
            s.admitted + s.cancelled + s.waiting + Count(s.clients, IsGranted) == s.next
  {
    ReachableHistories(cfg, start, run);
  }
}
