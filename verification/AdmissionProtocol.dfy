/**
 The admission queue as a state machine.  Every critical section of the program is
 one event; the requests waiting, woken, holding and finished interleave freely.

 `Enabled` says when an event can happen and `Apply` what it does.  The state also
 carries two logs the program does not keep, of arrivals and of grants, so that
 whole-run properties can be stated.
 */
module AdmissionProtocol {
  import opened AdmissionCore
  import opened Wrappers

  datatype Config = Config(capacity: int, promoteAfter: int)

  predicate ValidConfig(cfg: Config) {
    cfg.capacity >= 1 && cfg.promoteAfter > 0
  }

  /** Where one call of Acquire stands. */
  datatype Phase =
    | Parked(ticket: Ticket)                     // in a waiting list
    | Granted(ticket: Ticket, promoted: bool)    // handed a slot, not yet woken
    | Holding(promoted: bool)                    // Acquire returned, slot in use
    | Served(promoted: bool)                     // slot given back
    | GaveUp(ticket: Ticket)                     // cancelled while parked
    | Raced(ticket: Ticket, promoted: bool)      // cancelled after the grant

  datatype Sys = Sys(
    free: nat,
    waiting: int,
    justPromoted: bool,
    classes: Classes,
    admitted: nat,
    promoted: nat,
    cancelled: nat,
    clients: map<nat, Phase>,
    next: nat,
    now: int,
    arrivals: seq<Ticket>,
    grants: seq<Grant>)

  function Init(cfg: Config, now: int): Sys
    requires ValidConfig(cfg)
  {
    Sys(cfg.capacity, 0, false, map[], 0, 0, 0, map[], 0, now, [], [])
  }

  datatype Event =
    | Tick(time: int)                            // the clock moves
    | FastAdmit(priority: int)                   // a call finds a free slot and nobody queued
    | Park(priority: int)                        // a call joins its class
    | Wake(client: nat)                          // a granted call returns
    | CancelParked(client: nat)                  // a parked call gives up
    | CancelGranted(client: nat, pick: Option<Grant>)  // a granted call gives up and passes its slot on
    | Release(client: nat, pick: Option<Grant>)  // the first release of a held slot
    | ReleaseAgain(client: nat)                  // any later release of the same slot

  /** A released slot goes to a waiter the selection rule allows, if there is one. */
  ghost predicate HandoffAllowed(cfg: Config, s: Sys, pick: Option<Grant>) {
    match pick
    case None => s.classes == map[]
    case Some(g) => HeadPick(s.classes, s.justPromoted, s.now, cfg.promoteAfter, g)
  }

  function Handoff(s: Sys, pick: Option<Grant>): Sys {
    match pick
    case None => s.(free := s.free + 1)
    case Some(g) =>
      s.(classes := Remove(s.classes, g.ticket),
         waiting := s.waiting - 1,
         justPromoted := g.promoted,
         clients := s.clients[g.ticket.id := Granted(g.ticket, g.promoted)],
         grants := s.grants + [g])
  }

  ghost predicate Enabled(cfg: Config, s: Sys, e: Event) {
    match e
    case Tick(t) => s.now <= t
    case FastAdmit(_) => s.free > 0 && s.waiting == 0
    case Park(_) => !(s.free > 0 && s.waiting == 0)
    case Wake(c) => c in s.clients && s.clients[c].Granted?
    case CancelParked(c) => c in s.clients && s.clients[c].Parked?
    case CancelGranted(c, pick) => c in s.clients && s.clients[c].Granted? && HandoffAllowed(cfg, s, pick)
    case Release(c, pick) => c in s.clients && s.clients[c].Holding? && HandoffAllowed(cfg, s, pick)
    case ReleaseAgain(c) => c in s.clients && s.clients[c].Served?
  }

  ghost function Apply(cfg: Config, s: Sys, e: Event): Sys
    requires Enabled(cfg, s, e)
  {
    match e
    case Tick(t) => s.(now := t)
    case FastAdmit(_) =>
      s.(free := s.free - 1, admitted := s.admitted + 1,
         clients := s.clients[s.next := Holding(false)], next := s.next + 1)
    case Park(p) =>
      var t := Ticket(s.next, p, s.now);
      s.(classes := Push(s.classes, t), waiting := s.waiting + 1,
         clients := s.clients[s.next := Parked(t)], next := s.next + 1, arrivals := s.arrivals + [t])
    case Wake(c) =>
      var won := s.clients[c].promoted;
      s.(admitted := s.admitted + 1, promoted := s.promoted + (if won then 1 else 0),
         clients := s.clients[c := Holding(won)])
    case CancelParked(c) =>
      var t := s.clients[c].ticket;
      s.(classes := Remove(s.classes, t), waiting := s.waiting - 1, cancelled := s.cancelled + 1,
         clients := s.clients[c := GaveUp(t)])
    case CancelGranted(c, pick) =>
      var w := s.clients[c];
      Handoff(s.(clients := s.clients[c := Raced(w.ticket, w.promoted)], cancelled := s.cancelled + 1), pick)
    case Release(c, pick) =>
      Handoff(s.(clients := s.clients[c := Served(s.clients[c].promoted)]), pick)
    case ReleaseAgain(_) => s
  }

  // ---------------------------------------------------------------- runs

  ghost predicate Legal(cfg: Config, s: Sys, run: seq<Event>)
    decreases |run|, 0
  {
    run == [] || (Legal(cfg, s, run[..|run| - 1])
                  && Enabled(cfg, After(cfg, s, run[..|run| - 1]), run[|run| - 1]))
  }

  ghost function After(cfg: Config, s: Sys, run: seq<Event>): Sys
    requires Legal(cfg, s, run)
    decreases |run|, 1
  {
    if run == [] then s else Apply(cfg, After(cfg, s, run[..|run| - 1]), run[|run| - 1])
  }

  // ---------------------------------------------------------------- counting calls by phase

  ghost function CallsIn(clients: map<nat, Phase>, kind: Phase -> bool): set<nat> {
    set c | c in clients && kind(clients[c])
  }

  ghost function Count(clients: map<nat, Phase>, kind: Phase -> bool): nat {
    |CallsIn(clients, kind)|
  }

  predicate IsHolding(p: Phase) { p.Holding? }
  predicate IsGranted(p: Phase) { p.Granted? }
  predicate IsGaveUp(p: Phase) { p.GaveUp? }

  lemma CountOfUpdate(clients: map<nat, Phase>, c: nat, p: Phase, kind: Phase -> bool)
    ensures Count(clients[c := p], kind)
            == Count(clients, kind)
               - (if c in clients && kind(clients[c]) then 1 else 0)
               + (if kind(p) then 1 else 0)
  {
    var before, after := CallsIn(clients, kind), CallsIn(clients[c := p], kind);
    assert after - {c} == before - {c};
    assert |before| == |before - {c}| + (if c in before then 1 else 0);
    assert |after| == |after - {c}| + (if c in after then 1 else 0);
  }

  // ---------------------------------------------------------------- invariants

  /** Lists and calls agree: a call is in a waiting list, once, exactly while it is
      parked; `waiting` is the sum of the class lengths. */
  ghost predicate ListsMatchCalls(s: Sys) {
    && WellFormed(s.classes)
    && (forall t | t in Waiters(s.classes) :: t.id in s.clients && s.clients[t.id] == Parked(t) && t.since <= s.now)
    && (forall c | c in s.clients && s.clients[c].Parked? ::
          s.clients[c].ticket.id == c && s.clients[c].ticket in Waiters(s.classes))
    && (forall c | c in s.clients :: c < s.next)
    && s.waiting == Depth(s.classes)
  }

  /** No slot is lost or invented, and none stays free while somebody is queued. */
  ghost predicate SlotsConserved(cfg: Config, s: Sys) {
    && s.free + Count(s.clients, IsHolding) + Count(s.clients, IsGranted) == cfg.capacity
    && (s.free > 0 ==> s.classes == map[])
  }

  lemma PickIsParked(cfg: Config, s: Sys, g: Grant)
    requires ListsMatchCalls(s) && HandoffAllowed(cfg, s, Some(g))
    ensures g.ticket in Waiters(s.classes) && Queued(s.classes, g.ticket)
    ensures g.ticket.id in s.clients && s.clients[g.ticket.id] == Parked(g.ticket)
  {
    PickIsHead(s.classes, s.justPromoted, s.now, cfg.promoteAfter, g);
    WaitersAreQueued(s.classes, g.ticket);
  }

  lemma RemoveShortens(cs: Classes, t: Ticket)
    requires WellFormed(cs) && Queued(cs, t)
    ensures Depth(Remove(cs, t)) == Depth(cs) - 1
  {
    RemoveKeepsOrder(cs, t);
    DepthOfUpdate(cs, t.priority, Drop(cs[t.priority], t.id));
  }

  /** Taking one parked call out of its list and into another phase keeps lists and
      calls in agreement. */
  lemma LeavingListKeepsMatch(s: Sys, s': Sys, t: Ticket, p: Phase)
    requires ListsMatchCalls(s) && t in Waiters(s.classes) && !p.Parked?
    requires s'.classes == Remove(s.classes, t) && s'.waiting == s.waiting - 1
    requires s'.clients == s.clients[t.id := p] && s'.next == s.next && s'.now == s.now
    ensures ListsMatchCalls(s')
  {
    WaitersAreQueued(s.classes, t);
    RemoveKeeps(s.classes, t);
    RemoveShortens(s.classes, t);
  }

  lemma ChangingPhaseKeepsMatch(s: Sys, s': Sys, c: nat, p: Phase)
    requires ListsMatchCalls(s) && c in s.clients && !s.clients[c].Parked? && !p.Parked?
    requires s'.classes == s.classes && s'.waiting == s.waiting
    requires s'.clients == s.clients[c := p] && s'.next == s.next && s'.now == s.now
    ensures ListsMatchCalls(s')
  {
  }

  lemma HandoffKeepsMatch(cfg: Config, s: Sys, pick: Option<Grant>)
    requires ListsMatchCalls(s) && HandoffAllowed(cfg, s, pick)
    ensures ListsMatchCalls(Handoff(s, pick))
  {
    match pick
    case None =>
    case Some(g) =>
      PickIsParked(cfg, s, g);
      LeavingListKeepsMatch(s, Handoff(s, pick), g.ticket, Granted(g.ticket, g.promoted));
  }

  lemma PushLengthens(cs: Classes, t: Ticket)
    ensures Depth(Push(cs, t)) == Depth(cs) + 1
  {
    DepthOfUpdate(cs, t.priority, ClassOf(cs, t.priority) + [t]);
  }

  lemma JoiningListKeepsMatch(s: Sys, s': Sys, t: Ticket)
    requires ListsMatchCalls(s) && t.id == s.next && t.since == s.now
    requires s'.classes == Push(s.classes, t) && s'.waiting == s.waiting + 1
    requires s'.clients == s.clients[t.id := Parked(t)] && s'.next == s.next + 1 && s'.now == s.now
    ensures ListsMatchCalls(s')
  {
    hide WellFormed, Waiters, Push, Depth;
    PushKeeps(s.classes, t);
    PushLengthens(s.classes, t);
  }

  /** Every event keeps lists and calls in agreement. */
  lemma StepKeepsMatch(cfg: Config, s: Sys, e: Event)
    requires ListsMatchCalls(s) && Enabled(cfg, s, e)
    ensures ListsMatchCalls(Apply(cfg, s, e))
  {
    var s' := Apply(cfg, s, e);
    match e
    case Tick(_) =>
    case FastAdmit(_) =>
    case Park(p) => JoiningListKeepsMatch(s, s', Ticket(s.next, p, s.now));
    case Wake(c) => ChangingPhaseKeepsMatch(s, s', c, s'.clients[c]);
    case CancelParked(c) => LeavingListKeepsMatch(s, s', s.clients[c].ticket, GaveUp(s.clients[c].ticket));
    case CancelGranted(c, pick) =>
      var w := s.clients[c];
      var mid := s.(clients := s.clients[c := Raced(w.ticket, w.promoted)], cancelled := s.cancelled + 1);
      ChangingPhaseKeepsMatch(s, mid, c, mid.clients[c]);
      HandoffKeepsMatch(cfg, mid, pick);
    case Release(c, pick) =>
      var mid := s.(clients := s.clients[c := Served(s.clients[c].promoted)]);
      ChangingPhaseKeepsMatch(s, mid, c, mid.clients[c]);
      HandoffKeepsMatch(cfg, mid, pick);
    case ReleaseAgain(_) =>
  }

  lemma EmptyIffNobodyWaits(cs: Classes)
    requires WellFormed(cs)
    ensures Depth(cs) == 0 <==> cs == map[]
  {
    if cs != map[] {
      assert cs.Keys != {};
      Inhabited(cs.Keys);
      var p :| p in cs.Keys;
      DepthSplits(cs, p);
    }
  }

  /** The slots calls account for: those in use and those handed over but not picked up. */
  ghost function SlotsTaken(clients: map<nat, Phase>): nat {
    Count(clients, IsHolding) + Count(clients, IsGranted)
  }

  predicate TakesSlot(p: Phase) { p.Holding? || p.Granted? }

  lemma SlotsTakenAfter(clients: map<nat, Phase>, c: nat, p: Phase)
    ensures SlotsTaken(clients[c := p])
            == SlotsTaken(clients)
               - (if c in clients && TakesSlot(clients[c]) then 1 else 0)
               + (if TakesSlot(p) then 1 else 0)
  {
    CountOfUpdate(clients, c, p, IsHolding);
    CountOfUpdate(clients, c, p, IsGranted);
  }

  /** Handing a slot on, or back, leaves one slot fewer to account for. */
  lemma HandoffPlacesOneSlot(cfg: Config, s: Sys, pick: Option<Grant>)
    requires ListsMatchCalls(s) && HandoffAllowed(cfg, s, pick)
    requires s.free + SlotsTaken(s.clients) == cfg.capacity - 1
    requires s.free > 0 ==> s.classes == map[]
    ensures SlotsConserved(cfg, Handoff(s, pick))
  {
    match pick
    case None =>
    case Some(g) =>
      PickIsParked(cfg, s, g);
      SlotsTakenAfter(s.clients, g.ticket.id, Granted(g.ticket, g.promoted));
  }

  /** A call that gives its slot up: the slot is handed on or becomes free. */
  lemma GivingUpASlotConserves(cfg: Config, s: Sys, mid: Sys, c: nat, p: Phase, pick: Option<Grant>)
    requires Inv(cfg, s) && c in s.clients && TakesSlot(s.clients[c]) && (p.Served? || p.Raced?)
    requires mid == s.(clients := s.clients[c := p], cancelled := mid.cancelled)
    requires HandoffAllowed(cfg, mid, pick)
    ensures SlotsConserved(cfg, Handoff(mid, pick))
  {
    ChangingPhaseKeepsMatch(s, mid, c, p);
    SlotsTakenAfter(s.clients, c, p);
    HandoffPlacesOneSlot(cfg, mid, pick);
  }

  /** Every event conserves slots, the cancellation that races a grant and repeated
      releases included. */
  lemma StepConservesSlots(cfg: Config, s: Sys, e: Event)
    requires Inv(cfg, s) && Enabled(cfg, s, e)
    ensures SlotsConserved(cfg, Apply(cfg, s, e))
  {
    EmptyIffNobodyWaits(s.classes);
    match e
    case Tick(_) =>
    case FastAdmit(_) => SlotsTakenAfter(s.clients, s.next, Holding(false));
    case Park(p) => SlotsTakenAfter(s.clients, s.next, Parked(Ticket(s.next, p, s.now)));
    case Wake(c) => SlotsTakenAfter(s.clients, c, Holding(s.clients[c].promoted));
    case CancelParked(c) => SlotsTakenAfter(s.clients, c, GaveUp(s.clients[c].ticket));
    case CancelGranted(c, pick) =>
      var p := Raced(s.clients[c].ticket, s.clients[c].promoted);
      GivingUpASlotConserves(cfg, s, s.(clients := s.clients[c := p], cancelled := s.cancelled + 1), c, p, pick);
    case Release(c, pick) =>
      var p := Served(s.clients[c].promoted);
      GivingUpASlotConserves(cfg, s, s.(clients := s.clients[c := p]), c, p, pick);
    case ReleaseAgain(_) =>
  }

  ghost predicate Inv(cfg: Config, s: Sys) {
    ListsMatchCalls(s) && SlotsConserved(cfg, s)
  }

  lemma {:induction false} RunKeepsInv(cfg: Config, s: Sys, run: seq<Event>)
    requires Inv(cfg, s) && Legal(cfg, s, run)
    ensures Inv(cfg, After(cfg, s, run))
    decreases |run|
  {
    if run != [] {
      var prefix, e := run[..|run| - 1], run[|run| - 1];
      RunKeepsInv(cfg, s, prefix);
      StepKeepsMatch(cfg, After(cfg, s, prefix), e);
      StepConservesSlots(cfg, After(cfg, s, prefix), e);
    }
  }

  /** In every reachable state slots are conserved and lists match calls. */
  lemma ReachableStatesAreSound(cfg: Config, start: int, run: seq<Event>)
    requires ValidConfig(cfg) && Legal(cfg, Init(cfg, start), run)
    ensures Inv(cfg, After(cfg, Init(cfg, start), run))
  {
    RunKeepsInv(cfg, Init(cfg, start), run);
  }

  /** No more than `capacity` calls hold a slot at once, in any run. */
  lemma InFlightNeverExceedsCapacity(cfg: Config, start: int, run: seq<Event>)
    requires ValidConfig(cfg) && Legal(cfg, Init(cfg, start), run)
    ensures Count(After(cfg, Init(cfg, start), run).clients, IsHolding) <= cfg.capacity
  {
    ReachableStatesAreSound(cfg, start, run);
  }

  /** Nobody barges: if some call is queued, an arriving call is parked behind its
      class, never admitted. */
  lemma ArrivalsNeverBarge(cfg: Config, s: Sys, e: Event, t: Ticket)
    requires Inv(cfg, s) && Enabled(cfg, s, e)
    requires t in Waiters(s.classes) && (e.FastAdmit? || e.Park?)
    ensures e.Park? && Apply(cfg, s, e).clients[s.next] == Parked(Ticket(s.next, e.priority, s.now))
  {
    assert s.classes != map[];
    EmptyIffNobodyWaits(s.classes);
  }
}
