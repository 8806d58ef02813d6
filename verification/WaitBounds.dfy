/**
 How long a queued request can be passed over.  Two bounds, counted in grants:
 one for a request that has aged past the promotion window, whatever arrives later,
 and one for a request nobody outranks, however deep the backlog behind it.
 Each rests on a measure that every grant to somebody else lowers.
 */
module WaitBounds {
  import opened AdmissionCore
  import opened AdmissionProtocol
  import opened Wrappers

  lemma SubsetIsNoLarger(a: set<Ticket>, b: set<Ticket>)
    requires a <= b
    ensures |a| <= |b|
  {
    assert b == a + (b - a);
  }

  ghost function GrantsMade(cfg: Config, s: Sys, run: seq<Event>): int
    requires Legal(cfg, s, run)
  {
    |After(cfg, s, run).grants| - |s.grants|
  }

  // ---------------------------------------------------------------- one step

  lemma HandoffWaiters(cfg: Config, s: Sys, pick: Option<Grant>)
    requires ListsMatchCalls(s) && HandoffAllowed(cfg, s, pick)
    ensures var after := Waiters(Handoff(s, pick).classes);
            if pick.Some? then pick.value.ticket in Waiters(s.classes) && after == Waiters(s.classes) - {pick.value.ticket}
            else after == Waiters(s.classes)
  {
    if pick.Some? {
      PickIsParked(cfg, s, pick.value);
      RemoveKeeps(s.classes, pick.value.ticket);
    }
  }

  /** The waiters an event takes out of the lists. */
  ghost function Leaving(s: Sys, e: Event): set<Ticket> {
    match e
    case CancelParked(c) => if c in s.clients && s.clients[c].Parked? then {s.clients[c].ticket} else {}
    case CancelGranted(_, Some(g)) => {g.ticket}
    case Release(_, Some(g)) => {g.ticket}
    case _ => {}
  }

  ghost function Joining(s: Sys, e: Event): set<Ticket> {
    match e
    case Park(p) => {Ticket(s.next, p, s.now)}
    case _ => {}
  }

  /** The grant an event makes, if it makes one. */
  function GrantBy(e: Event): Option<Grant> {
    match e
    case CancelGranted(_, pick) => pick
    case Release(_, pick) => pick
    case _ => None
  }

  lemma GivingUpASlotWaiters(cfg: Config, s: Sys, mid: Sys, c: nat, p: Phase, pick: Option<Grant>)
    requires ListsMatchCalls(s) && c in s.clients && !s.clients[c].Parked? && !p.Parked?
    requires mid == s.(clients := s.clients[c := p], cancelled := mid.cancelled) && HandoffAllowed(cfg, mid, pick)
    ensures Waiters(Handoff(mid, pick).classes) == Waiters(s.classes) - (if pick.Some? then {pick.value.ticket} else {})
  {
    ChangingPhaseKeepsMatch(s, mid, c, p);
    hide ListsMatchCalls, HandoffAllowed, Waiters, Handoff;
    HandoffWaiters(cfg, mid, pick);
  }

  lemma StepWaiters(cfg: Config, s: Sys, e: Event)
    requires Inv(cfg, s) && Enabled(cfg, s, e)
    ensures Waiters(Apply(cfg, s, e).classes) == Waiters(s.classes) - Leaving(s, e) + Joining(s, e)
  {
    hide SlotsConserved, WellFormed, Waiters, Queued, Push, Remove, Handoff, HeadPick;
    match e
    case Tick(_) =>
    case FastAdmit(_) =>
    case Park(p) => PushKeeps(s.classes, Ticket(s.next, p, s.now));
    case Wake(_) =>
    case CancelParked(c) =>
      WaitersAreQueued(s.classes, s.clients[c].ticket);
      RemoveKeeps(s.classes, s.clients[c].ticket);
    case CancelGranted(c, pick) =>
      var p := Raced(s.clients[c].ticket, s.clients[c].promoted);
      GivingUpASlotWaiters(cfg, s, s.(clients := s.clients[c := p], cancelled := s.cancelled + 1), c, p, pick);
    case Release(c, pick) =>
      var p := Served(s.clients[c].promoted);
      GivingUpASlotWaiters(cfg, s, s.(clients := s.clients[c := p]), c, p, pick);
    case ReleaseAgain(_) =>
  }

  lemma StepGrants(cfg: Config, s: Sys, e: Event)
    requires Inv(cfg, s) && Enabled(cfg, s, e)
    ensures var s' := Apply(cfg, s, e);
            match GrantBy(e)
            case None => s'.grants == s.grants && s'.justPromoted == s.justPromoted
            case Some(g) => s'.grants == s.grants + [g] && s'.justPromoted == g.promoted && Leaving(s, e) == {g.ticket}
                            && HeadPick(s.classes, s.justPromoted, s.now, cfg.promoteAfter, g)
  {
  }

  /** What an event does to the waiting lists and the grant log. */
  ghost predicate ListMove(cfg: Config, s: Sys, e: Event, s': Sys) {
    && WellFormed(s.classes)
    && (forall t | t in Waiters(s.classes) :: t.id < s.next)
    && s.now <= s'.now
    && Waiters(s'.classes) == Waiters(s.classes) - Leaving(s, e) + Joining(s, e)
    && match GrantBy(e) {
         case None => s'.grants == s.grants && s'.justPromoted == s.justPromoted
         case Some(g) => s'.grants == s.grants + [g] && s'.justPromoted == g.promoted && Leaving(s, e) == {g.ticket}
                         && HeadPick(s.classes, s.justPromoted, s.now, cfg.promoteAfter, g)
       }
  }

  lemma StepIsListMove(cfg: Config, s: Sys, e: Event)
    requires Inv(cfg, s) && Enabled(cfg, s, e)
    ensures ListMove(cfg, s, e, Apply(cfg, s, e))
  {
    StepWaiters(cfg, s, e);
    StepGrants(cfg, s, e);
  }

  /** A request that has left the lists never comes back to them. */
  lemma {:induction false} StillQueuedWasQueued(cfg: Config, s: Sys, run: seq<Event>, w: Ticket)
    requires Inv(cfg, s) && Legal(cfg, s, run) && w in Waiters(s.classes)
    requires run != [] && w in Waiters(After(cfg, s, run).classes)
    ensures w in Waiters(After(cfg, s, run[..|run| - 1]).classes)
  {
    var prefix := run[..|run| - 1];
    RunKeepsInv(cfg, s, prefix);
    NumbersGrow(cfg, s, prefix);
    StepIsListMove(cfg, After(cfg, s, prefix), run[|run| - 1]);
  }

  lemma {:induction false} NumbersGrow(cfg: Config, s: Sys, run: seq<Event>)
    requires Legal(cfg, s, run)
    ensures s.next <= After(cfg, s, run).next && s.now <= After(cfg, s, run).now
    decreases |run|
  {
    hide Enabled, Apply;
    if run != [] {
      NumbersGrow(cfg, s, run[..|run| - 1]);
      NumbersGrowByStep(cfg, After(cfg, s, run[..|run| - 1]), run[|run| - 1]);
    }
  }

  lemma NumbersGrowByStep(cfg: Config, s: Sys, e: Event)
    requires Enabled(cfg, s, e)
    ensures s.next <= Apply(cfg, s, e).next && s.now <= Apply(cfg, s, e).now
  {
    hide HandoffAllowed, Push, Remove;
  }

  // ---------------------------------------------------------------- no starvation

  ghost predicate Aged(cfg: Config, s: Sys, w: Ticket) {
    s.now - w.since >= cfg.promoteAfter
  }

  /** The waiters that age may serve before `w`: no younger, and not behind it in its class. */
  ghost function OlderRivals(cs: Classes, w: Ticket): set<Ticket> {
    set u | u in Waiters(cs) && u != w && u.since <= w.since && !(u.priority == w.priority && w.id < u.id)
  }

  ghost function AgeMeasure(s: Sys, w: Ticket): nat {
    2 * |OlderRivals(s.classes, w)| + Bit(s.justPromoted)
  }

  lemma RivalsWithout(cs: Classes, cs': Classes, t: Ticket, w: Ticket)
    requires Waiters(cs') == Waiters(cs) - {t}
    ensures OlderRivals(cs', w) == OlderRivals(cs, w) - {t}
  {
  }

  /** When a promotion may be next, an aged waiter is passed over only by a promoted rival. */
  lemma AgedWaiterLosesToARival(cs: Classes, now: int, promoteAfter: int, g: Grant, w: Ticket)
    requires WellFormed(cs) && HeadPick(cs, false, now, promoteAfter, g)
    requires w in Waiters(cs) && g.ticket != w && now - w.since >= promoteAfter
    ensures g.ticket in OlderRivals(cs, w)
  {
    var top, oldest :| TopHead(cs, top) && OldestHead(cs, oldest) && Chosen(top, oldest, false, now, promoteAfter, g);
    OldestHeadIsFirstByAge(cs, oldest);
    hide TopHead, OldestHead, WellFormed;
    assert oldest.since <= w.since;
    assert g.ticket == oldest;
  }

  /** Granting a slot to someone else lowers the measure of an aged waiter: a promotion
      serves one of its rivals, and a strict grant makes the next one a promotion. */
  lemma GrantLowersAgeMeasure(cs: Classes, cs': Classes, justPromoted: bool, now: int, promoteAfter: int, g: Grant, w: Ticket)
    requires WellFormed(cs) && HeadPick(cs, justPromoted, now, promoteAfter, g)
    requires w in Waiters(cs) && g.ticket != w && now - w.since >= promoteAfter
    requires Waiters(cs') == Waiters(cs) - {g.ticket}
    ensures 2 * |OlderRivals(cs', w)| + Bit(g.promoted) < 2 * |OlderRivals(cs, w)| + Bit(justPromoted)
  {
    RivalsWithout(cs, cs', g.ticket, w);
    if justPromoted {
      StrictAfterPromotion(cs, now, promoteAfter, g);
      hide HeadPick, WellFormed, OlderRivals, Waiters;
      SubsetSize(OlderRivals(cs, w), g.ticket);
    } else {
      AgedWaiterLosesToARival(cs, now, promoteAfter, g, w);
      hide HeadPick, WellFormed, OlderRivals, Waiters;
      SubsetSize(OlderRivals(cs, w), g.ticket);
    }
  }

  lemma StrictAfterPromotion(cs: Classes, now: int, promoteAfter: int, g: Grant)
    requires HeadPick(cs, true, now, promoteAfter, g)
    ensures !g.promoted
  {
  }

  lemma SubsetSize(s: set<Ticket>, t: Ticket)
    ensures |s - {t}| == |s| - (if t in s then 1 else 0)
  {
    if t !in s {
      assert s - {t} == s;
    }
  }

  lemma StepLowersAgeMeasure(cfg: Config, s: Sys, e: Event, s': Sys, w: Ticket)
    requires ValidConfig(cfg) && ListMove(cfg, s, e, s') && Aged(cfg, s, w)
    requires w in Waiters(s.classes) && w in Waiters(s'.classes)
    ensures Aged(cfg, s', w)
    ensures AgeMeasure(s', w) + Bit(GrantBy(e).Some?) <= AgeMeasure(s, w)
  {
    match GrantBy(e)
    case Some(g) => GrantLowersAgeMeasure(s.classes, s'.classes, s.justPromoted, s.now, cfg.promoteAfter, g, w);
    case None => SubsetIsNoLarger(OlderRivals(s'.classes, w), OlderRivals(s.classes, w));
  }

  lemma {:induction false} AgedWaiterIsPassedOverBoundedly(cfg: Config, s: Sys, run: seq<Event>, w: Ticket)
    requires ValidConfig(cfg) && Inv(cfg, s) && Legal(cfg, s, run) && Aged(cfg, s, w)
    requires w in Waiters(s.classes) && w in Waiters(After(cfg, s, run).classes)
    ensures Aged(cfg, After(cfg, s, run), w)
    ensures AgeMeasure(After(cfg, s, run), w) + GrantsMade(cfg, s, run) <= AgeMeasure(s, w)
    decreases |run|
  {
    if run != [] {
      var prefix, e := run[..|run| - 1], run[|run| - 1];
      StillQueuedWasQueued(cfg, s, run, w);
      AgedWaiterIsPassedOverBoundedly(cfg, s, prefix, w);
      RunKeepsInv(cfg, s, prefix);
      StepIsListMove(cfg, After(cfg, s, prefix), e);
      StepLowersAgeMeasure(cfg, After(cfg, s, prefix), e, After(cfg, s, run), w);
    }
  }

  /** No starvation.  Once `w` has waited out the promotion window with `o` rivals by
      age, it has been granted a slot or has given up by the time 2*o + 2 grants have
      been made, whatever arrives in the meantime. */
  lemma NoStarvation(cfg: Config, s: Sys, run: seq<Event>, w: Ticket)
    requires ValidConfig(cfg) && Inv(cfg, s) && Legal(cfg, s, run)
    requires w in Waiters(s.classes) && Aged(cfg, s, w)
    requires GrantsMade(cfg, s, run) >= 2 * |OlderRivals(s.classes, w)| + 2
    ensures w !in Waiters(After(cfg, s, run).classes)
  {
    if w in Waiters(After(cfg, s, run).classes) {
      AgedWaiterIsPassedOverBoundedly(cfg, s, run, w);
    }
  }

  // ---------------------------------------------------------------- bounded wait by rank

  /** The waiters that rank serves before `w`. */
  ghost function Ahead(cs: Classes, w: Ticket): set<Ticket> {
    set u | u in Waiters(cs) && (u.priority > w.priority || (u.priority == w.priority && u.id < w.id))
  }

  ghost function RankMeasure(s: Sys, w: Ticket): nat {
    2 * |Ahead(s.classes, w)| + Bit(!s.justPromoted)
  }

  /** Granting a slot to someone else lowers the measure: a strict grant serves someone
      ahead of `w`, and a promotion makes the next grant strict. */
  lemma GrantLowersRankMeasure(cs: Classes, cs': Classes, justPromoted: bool, now: int, promoteAfter: int, g: Grant, w: Ticket)
    requires WellFormed(cs) && HeadPick(cs, justPromoted, now, promoteAfter, g)
    requires w in Waiters(cs) && g.ticket != w
    requires Waiters(cs') == Waiters(cs) - {g.ticket}
    ensures 2 * |Ahead(cs', w)| + Bit(!g.promoted) < 2 * |Ahead(cs, w)| + Bit(!justPromoted)
  {
    var top, oldest :| TopHead(cs, top) && OldestHead(cs, oldest) && Chosen(top, oldest, justPromoted, now, promoteAfter, g);
    TopHeadIsFirstByRank(cs, top);
    var before, after := Ahead(cs, w), Ahead(cs', w);
    assert after == before - {g.ticket};
    if !g.promoted {
      if top.priority == w.priority && top.id == w.id {
        SameClassSameId(cs, top, w);
      }
      assert top in before;
    }
  }

  lemma StepLowersRankMeasure(cfg: Config, s: Sys, e: Event, s': Sys, w: Ticket)
    requires ListMove(cfg, s, e, s')
    requires e.Park? ==> e.priority <= w.priority
    requires w in Waiters(s.classes) && w in Waiters(s'.classes)
    ensures RankMeasure(s', w) + Bit(GrantBy(e).Some?) <= RankMeasure(s, w)
  {
    match GrantBy(e)
    case Some(g) => GrantLowersRankMeasure(s.classes, s'.classes, s.justPromoted, s.now, cfg.promoteAfter, g, w);
    case None => SubsetIsNoLarger(Ahead(s'.classes, w), Ahead(s.classes, w));
  }

  ghost predicate NoHigherArrival(run: seq<Event>, priority: int) {
    forall e | e in run && e.Park? :: e.priority <= priority
  }

  lemma {:induction false} RankedWaiterIsPassedOverBoundedly(cfg: Config, s: Sys, run: seq<Event>, w: Ticket)
    requires Inv(cfg, s) && Legal(cfg, s, run) && NoHigherArrival(run, w.priority)
    requires w in Waiters(s.classes) && w in Waiters(After(cfg, s, run).classes)
    ensures RankMeasure(After(cfg, s, run), w) + GrantsMade(cfg, s, run) <= RankMeasure(s, w)
    decreases |run|
  {
    if run != [] {
      var prefix, e := run[..|run| - 1], run[|run| - 1];
      StillQueuedWasQueued(cfg, s, run, w);
      assert NoHigherArrival(prefix, w.priority);
      RankedWaiterIsPassedOverBoundedly(cfg, s, prefix, w);
      RunKeepsInv(cfg, s, prefix);
      StepIsListMove(cfg, After(cfg, s, prefix), e);
      StepLowersRankMeasure(cfg, After(cfg, s, prefix), e, After(cfg, s, run), w);
    }
  }

  /** Bounded wait.  With `a` waiters ranked ahead and no strictly higher arrival, `w`
      has left the queue by the time 2*a + 2 grants have been made, however deep and
      however aged the backlog.  For a request nobody outranks that is one extra grant. */
  lemma BoundedPriorityWait(cfg: Config, s: Sys, run: seq<Event>, w: Ticket)
    requires Inv(cfg, s) && Legal(cfg, s, run) && NoHigherArrival(run, w.priority)
    requires w in Waiters(s.classes)
    requires GrantsMade(cfg, s, run) >= 2 * |Ahead(s.classes, w)| + 2
    ensures w !in Waiters(After(cfg, s, run).classes)
  {
    if w in Waiters(After(cfg, s, run).classes) {
      RankedWaiterIsPassedOverBoundedly(cfg, s, run, w);
    }
  }

  // ---------------------------------------------------------------- leaving the queue

  /** A call that gave up stays so, and a parked call cancelled by `e` has given up. */
  lemma GivingUpIsFinal(cfg: Config, s: Sys, e: Event, c: nat)
    requires Inv(cfg, s) && Enabled(cfg, s, e) && c in s.clients
    requires s.clients[c].GaveUp? || (e == CancelParked(c) && s.clients[c].Parked?)
    ensures var s' := Apply(cfg, s, e); c in s'.clients && s'.clients[c] == GaveUp(s.clients[c].ticket)
  {
    if GrantBy(e).Some? {
      PickIsParked(cfg, s, GrantBy(e).value);
    }
  }

  ghost predicate GrantedIn(grants: seq<Grant>, w: Ticket) {
    exists i :: 0 <= i < |grants| && grants[i].ticket == w
  }

  ghost predicate Settled(s: Sys, w: Ticket) {
    w.id in s.clients && (s.clients[w.id] == GaveUp(w) || GrantedIn(s.grants, w))
  }

  lemma StepSettles(cfg: Config, s: Sys, e: Event, w: Ticket)
    requires Inv(cfg, s) && Enabled(cfg, s, e) && w in Waiters(s.classes)
    requires w !in Waiters(Apply(cfg, s, e).classes)
    ensures Settled(Apply(cfg, s, e), w)
  {
    var s' := Apply(cfg, s, e);
    StepIsListMove(cfg, s, e);
    if GrantBy(e).Some? {
      assert s'.grants[|s.grants|].ticket == w;
    } else {
      GivingUpIsFinal(cfg, s, e, w.id);
    }
  }

  lemma SettledStays(cfg: Config, s: Sys, e: Event, w: Ticket)
    requires Inv(cfg, s) && Enabled(cfg, s, e) && Settled(s, w)
    ensures Settled(Apply(cfg, s, e), w)
  {
    var s' := Apply(cfg, s, e);
    StepIsListMove(cfg, s, e);
    if GrantedIn(s.grants, w) {
      var i :| 0 <= i < |s.grants| && s.grants[i].ticket == w;
      assert s'.grants[i].ticket == w;
    } else {
      GivingUpIsFinal(cfg, s, e, w.id);
    }
  }

  /** Leaving the queue means having been granted a slot or having given up. */
  lemma {:induction false} LeftMeansGrantedOrGaveUp(cfg: Config, s: Sys, run: seq<Event>, w: Ticket)
    requires Inv(cfg, s) && Legal(cfg, s, run)
    requires w in Waiters(s.classes) && w !in Waiters(After(cfg, s, run).classes)
    ensures Settled(After(cfg, s, run), w)
    decreases |run|
  {
    var prefix, e := run[..|run| - 1], run[|run| - 1];
    var mid := After(cfg, s, prefix);
    RunKeepsInv(cfg, s, prefix);
    if w in Waiters(mid.classes) {
      StepSettles(cfg, mid, e, w);
    } else {
      LeftMeansGrantedOrGaveUp(cfg, s, prefix, w);
      SettledStays(cfg, mid, e, w);
    }
  }

  // ---------------------------------------------------------------- who is granted, and when

  lemma {:induction false} PrefixIsLegal(cfg: Config, s: Sys, run: seq<Event>, j: nat)
    requires Legal(cfg, s, run) && j <= |run|
    ensures Legal(cfg, s, run[..j])
    decreases |run|
  {
    if j == |run| {
      assert run[..j] == run;
    } else {
      PrefixIsLegal(cfg, s, run[..|run| - 1], j);
      assert run[..|run| - 1][..j] == run[..j];
    }
  }

  /** Step `j` of the run parked the call with this ticket, at the clock reading it carries. */
  ghost predicate ParkedAt(cfg: Config, s: Sys, run: seq<Event>, j: nat, t: Ticket) {
    && j < |run| && Legal(cfg, s, run[..j])
    && run[j] == Park(t.priority) && After(cfg, s, run[..j]).next == t.id && After(cfg, s, run[..j]).now == t.since
  }

  /** Whoever waits was parked by a step of the run, and carries its clock reading. */
  lemma {:induction false} WaitersWereParked(cfg: Config, start: int, run: seq<Event>, t: Ticket) returns (j: nat)
    requires ValidConfig(cfg) && Legal(cfg, Init(cfg, start), run) && t in Waiters(After(cfg, Init(cfg, start), run).classes)
    ensures ParkedAt(cfg, Init(cfg, start), run, j, t)
    decreases |run|
  {
    hide Apply, Enabled, Inv, HeadPick;
    var s := Init(cfg, start);
    var front, e := run[..|run| - 1], run[|run| - 1];
    var mid := After(cfg, s, front);
    ReachableStatesAreSound(cfg, start, front);
    StepIsListMove(cfg, mid, e);
    if t in Waiters(mid.classes) {
      j := WaitersWereParked(cfg, start, front, t);
      assert front[..j] == run[..j];
    } else {
      j := |run| - 1;
    }
  }

  /** Every entry of the log of grants was made by a step of the run. */
  lemma {:induction false} GrantsAreMadeBySteps(cfg: Config, start: int, run: seq<Event>, k: nat) returns (i: nat)
    requires ValidConfig(cfg) && Legal(cfg, Init(cfg, start), run) && k < |After(cfg, Init(cfg, start), run).grants|
    ensures i < |run| && Legal(cfg, Init(cfg, start), run[..i])
    ensures |After(cfg, Init(cfg, start), run[..i]).grants| == k
    ensures GrantBy(run[i]) == Some(After(cfg, Init(cfg, start), run).grants[k])
    decreases |run|
  {
    hide Apply, Enabled, Inv, HeadPick;
    var s := Init(cfg, start);
    var front, e := run[..|run| - 1], run[|run| - 1];
    var mid := After(cfg, s, front);
    ReachableStatesAreSound(cfg, start, front);
    StepIsListMove(cfg, mid, e);
    if k < |mid.grants| {
      i := GrantsAreMadeBySteps(cfg, start, front, k);
      assert front[..i] == run[..i];
    } else {
      i := |run| - 1;
    }
  }

  /** Every grant in the log of any run followed the rule when it was made.  Its call had
      been parked by an earlier step; a promoted one had then waited at least the promotion
      window by the queue's clock, longer than or as long as everybody, though it was not
      first by rank, and the grant before was not a promotion; any other was first by rank. */
  lemma GrantsWereEarned(cfg: Config, start: int, run: seq<Event>, k: nat) returns (i: nat, j: nat)
    requires ValidConfig(cfg) && Legal(cfg, Init(cfg, start), run) && k < |After(cfg, Init(cfg, start), run).grants|
    ensures var s, g := Init(cfg, start), After(cfg, Init(cfg, start), run).grants[k];
            && j < i < |run| && Legal(cfg, s, run[..i]) && Legal(cfg, s, run[..j])
            && GrantBy(run[i]) == Some(g) && |After(cfg, s, run[..i]).grants| == k
            && run[j] == Park(g.ticket.priority) && After(cfg, s, run[..j]).next == g.ticket.id
            && (if g.promoted then
                  && After(cfg, s, run[..i]).now - After(cfg, s, run[..j]).now >= cfg.promoteAfter
                  && FirstByAge(After(cfg, s, run[..i]).classes, g.ticket) && !FirstByRank(After(cfg, s, run[..i]).classes, g.ticket)
                  && !After(cfg, s, run[..i]).justPromoted
                else FirstByRank(After(cfg, s, run[..i]).classes, g.ticket))
  {
    hide Apply, Enabled, Inv, HeadPick, FirstByRank, FirstByAge, Init;
    var s, g := Init(cfg, start), After(cfg, Init(cfg, start), run).grants[k];
    i := GrantsAreMadeBySteps(cfg, start, run, k);
    var mid := After(cfg, s, run[..i]);
    ReachableStatesAreSound(cfg, start, run[..i]);
    StepAfterPrefix(cfg, s, run, i);
    StepIsListMove(cfg, mid, run[i]);
    PromotionsAreEarned(mid.classes, mid.justPromoted, mid.now, cfg.promoteAfter, g);
    PickIsHead(mid.classes, mid.justPromoted, mid.now, cfg.promoteAfter, g);
    WaitersAreQueued(mid.classes, g.ticket);
    j := WaitersWereParked(cfg, start, run[..i], g.ticket);
    assert run[..i][..j] == run[..j];
  }

  lemma StepAfterPrefix(cfg: Config, s: Sys, run: seq<Event>, i: nat)
    requires Legal(cfg, s, run) && i < |run|
    ensures Legal(cfg, s, run[..i]) && Enabled(cfg, After(cfg, s, run[..i]), run[i])
  {
    hide Enabled, Apply;
    PrefixIsLegal(cfg, s, run, i + 1);
    assert run[..i + 1][..i] == run[..i];
  }
}
