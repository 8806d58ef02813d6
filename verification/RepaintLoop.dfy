/**
 The dashboard's repaint loop over the queue's change signal.

 The loop holds one connection's panel; the queue signals a one-deep channel on every
 change.  The two run side by side: the queue may move between any two of the loop's
 steps, including between reading the queue and finishing the repaint.
 */
module RepaintLoop {
  import opened AdmissionCore
  import opened AdmissionProtocol
  import opened AdmissionStats
  import opened Wrappers

  /** What the pressure strip shows: slots in use and the depth of each class. */
  datatype Frame = Frame(inFlight: int, depths: map<int, nat>)

  function FrameOf(cfg: Config, s: Sys): Frame {
    Frame(cfg.capacity - s.free, map p | p in s.classes :: |s.classes[p]|)
  }

  /** The depth a frame shows for a class; a class it does not list has nobody in it. */
  function DepthShown(f: Frame, p: int): nat {
    if p in f.depths then f.depths[p] else 0
  }

  /** The strip tells the truth about the queue: the slots its calls take, and for each
      class how many calls are parked in it, classes with none left out. */
  ghost predicate Tells(f: Frame, clients: map<nat, Phase>) {
    && f.inFlight == SlotsTaken(clients)
    && forall p :: DepthShown(f, p) == |ParkedIn(clients, p)| && (p in f.depths <==> ParkedIn(clients, p) != {})
  }

  /** The strip is what a snapshot says: its slots in flight, and one depth for each row. */
  ghost predicate ReadOff(f: Frame, st: Stats) {
    && f.inFlight == st.inFlight
    && (forall i | 0 <= i < |st.classes| ::
          st.classes[i].priority in f.depths && f.depths[st.classes[i].priority] == st.classes[i].waiting)
    && (forall p | p in f.depths :: exists i :: 0 <= i < |st.classes| && st.classes[i].priority == p)
  }

  lemma FrameTells(cfg: Config, s: Sys)
    requires Inv(cfg, s)
    ensures Tells(FrameOf(cfg, s), s.clients)
  {
    hide ParkedIn, SlotsTaken;
    SlotsInUse(cfg, s);
    hide Inv;
    forall p ensures DepthShown(FrameOf(cfg, s), p) == |ParkedIn(s.clients, p)|
                     && (p in FrameOf(cfg, s).depths <==> ParkedIn(s.clients, p) != {})
    {
      MatchingLists(cfg, s);
      DepthIsParkedCalls(s, p);
    }
  }

  lemma SlotsInUse(cfg: Config, s: Sys)
    requires Inv(cfg, s)
    ensures cfg.capacity - s.free == SlotsTaken(s.clients)
  {
  }

  lemma MatchingLists(cfg: Config, s: Sys)
    requires Inv(cfg, s)
    ensures ListsMatchCalls(s)
  {
  }

  /** A frame painted from a snapshot of the queue is the queue's frame. */
  lemma FrameIsReadOff(cfg: Config, s: Sys, now: int, st: Stats)
    requires ReportsQueue(s.classes, now, st) && st.inFlight == cfg.capacity - s.free
    ensures ReadOff(FrameOf(cfg, s), st)
  {
    hide Descending, SumWaiting, LongestWait;
    var f := FrameOf(cfg, s);
    forall i | 0 <= i < |st.classes|
      ensures st.classes[i].priority in f.depths && f.depths[st.classes[i].priority] == st.classes[i].waiting
    {
      assert RowIsRight(s.classes, now, st.classes[i]);
    }
    forall p | p in f.depths ensures exists i :: 0 <= i < |st.classes| && st.classes[i].priority == p {
      ListedHasRow(st.classes, p);
    }
  }

  /** The cooldown timer: stopped, running, or expired with its tick not yet received. */
  datatype Timer = Stopped | Armed(deadline: int) | Expired

  /** The loop's variables and the last frame put on screen. */
  datatype Panel = Panel(throttled: bool, missed: bool, cooldown: Timer, painted: Frame)

  function MinInterval(): int { 100_000_000 }   // nanoseconds

  /** The end of a change-driven repaint: the cooldown starts over. */
  function Painted(p: Panel, f: Frame, now: int): Panel {
    Panel(true, false, Armed(now + MinInterval()), f)
  }

  // ---------------------------------------------------------------- the loop beside the queue

  datatype Stage =
    | Idle                    // in the select
    | GotChange               // a change signal was received
    | GotCooldown             // the cooldown's tick was received
    | MustPaint               // paintQueue entered, the queue not yet read
    | Sending(frame: Frame)   // the queue was read, the fragment not yet sent
    | GotHeartbeat
    | SendingHeartbeat(frame: Frame)
    | Closed

  /** One change-driven repaint: when the queue was read and when the frame was out. */
  datatype Repaint = Repaint(read: int, shown: int)

  datatype Page = Page(queue: Sys, pending: bool, stage: Stage, panel: Panel, readAt: int, repaints: seq<Repaint>)

  datatype PageEvent =
    | QueueMoves(e: Event)
    | CooldownExpires
    | ReceiveChange
    | ReceiveCooldown
    | ReceiveHeartbeat
    | ShowSnapshot(sent: bool)   // a usage snapshot was received, its rows sent or not; the strip is not touched
    | Proceed                 // the loop takes its next step outside the select
    | Disconnect              // the client is gone, or a fragment cannot be sent

  /** The events after which the queue signals its watchers.  Waking a granted call only
      moves counters, and a repeated release moves nothing. */
  predicate Notifies(e: Event) {
    e.FastAdmit? || e.Park? || e.CancelParked? || e.CancelGranted? || e.Release?
  }

  /** The stream just opened: watching, nothing painted yet. */
  function Open(queue: Sys): Page {
    Page(queue, false, MustPaint, Panel(false, false, Stopped, Frame(0, map[])), queue.now, [])
  }

  ghost predicate CanHappen(cfg: Config, p: Page, e: PageEvent) {
    match e
    case QueueMoves(qe) => Enabled(cfg, p.queue, qe)
    case CooldownExpires => p.panel.cooldown.Armed? && p.queue.now >= p.panel.cooldown.deadline
    case ReceiveChange => p.stage.Idle? && p.pending
    case ReceiveCooldown => p.stage.Idle? && p.panel.cooldown.Expired?
    case ReceiveHeartbeat => p.stage.Idle?
    case ShowSnapshot(_) => p.stage.Idle?
    case Proceed => !p.stage.Idle? && !p.stage.Closed?
    case Disconnect => p.stage.Idle? || p.stage.Sending? || p.stage.SendingHeartbeat?
  }

  /** The loop's own steps, between one receive and the next. */
  function NextStage(cfg: Config, p: Page): Page {
    match p.stage
    case GotChange =>
      if p.panel.throttled then p.(stage := Idle, panel := p.panel.(missed := true)) else p.(stage := MustPaint)
    case GotCooldown =>
      p.(stage := if p.panel.missed then MustPaint else Idle, panel := p.panel.(throttled := false))
    case MustPaint => p.(stage := Sending(FrameOf(cfg, p.queue)), readAt := p.queue.now)
    case Sending(f) =>
      p.(stage := Idle, panel := Painted(p.panel, f, p.queue.now),
         repaints := p.repaints + [Repaint(p.readAt, p.queue.now)])
    case GotHeartbeat => p.(stage := SendingHeartbeat(FrameOf(cfg, p.queue)))
    case SendingHeartbeat(f) => p.(stage := Idle, panel := p.panel.(painted := f))
    case _ => p
  }

  ghost function Happen(cfg: Config, p: Page, e: PageEvent): Page
    requires CanHappen(cfg, p, e)
  {
    match e
    case QueueMoves(qe) => p.(queue := Apply(cfg, p.queue, qe), pending := p.pending || Notifies(qe))
    case CooldownExpires => p.(panel := p.panel.(cooldown := Expired))
    case ReceiveChange => p.(pending := false, stage := GotChange)
    case ReceiveCooldown => p.(panel := p.panel.(cooldown := Stopped), stage := GotCooldown)
    case ReceiveHeartbeat => p.(stage := GotHeartbeat)
    case ShowSnapshot(sent) => if sent then p else p.(stage := Closed)
    case Proceed => NextStage(cfg, p)
    case Disconnect => p.(stage := Closed)
  }

  /** The queue's clock moves to `now`, and one of its critical sections runs. */
  ghost function Moved(cfg: Config, p: Page, now: int, e: Event): Page
    requires CanHappen(cfg, p, QueueMoves(Tick(now)))
    requires CanHappen(cfg, Happen(cfg, p, QueueMoves(Tick(now))), QueueMoves(e))
  {
    Happen(cfg, Happen(cfg, p, QueueMoves(Tick(now))), QueueMoves(e))
  }

  ghost predicate LegalPage(cfg: Config, p: Page, run: seq<PageEvent>)
    decreases |run|, 0
  {
    run == [] || (LegalPage(cfg, p, run[..|run| - 1])
                  && CanHappen(cfg, PageAfter(cfg, p, run[..|run| - 1]), run[|run| - 1]))
  }

  ghost function PageAfter(cfg: Config, p: Page, run: seq<PageEvent>): Page
    requires LegalPage(cfg, p, run)
    decreases |run|, 1
  {
    if run == [] then p else Happen(cfg, PageAfter(cfg, p, run[..|run| - 1]), run[|run| - 1])
  }

  /** Back in the select, whatever is ready can be received, in any order: a pending change,
      an expired cooldown, and at any time a heartbeat, a snapshot, or the client leaving;
      and the queue moves as ever, whatever the loop is doing. */
  lemma NothingIsRuledOut(cfg: Config, p: Page, sent: bool, e: Event)
    ensures p.stage.Idle? ==>
              && (p.pending ==> CanHappen(cfg, p, ReceiveChange))
              && (p.panel.cooldown.Expired? ==> CanHappen(cfg, p, ReceiveCooldown))
              && CanHappen(cfg, p, ReceiveHeartbeat) && CanHappen(cfg, p, ShowSnapshot(sent)) && CanHappen(cfg, p, Disconnect)
    ensures Enabled(cfg, p.queue, e) ==> CanHappen(cfg, p, QueueMoves(e))
  {
  }

  // ---------------------------------------------------------------- freshness

  /** A repaint is owed and the cooldown will bring it. */
  predicate RepaintOwed(p: Page) {
    p.panel.missed && p.panel.throttled && !p.panel.cooldown.Stopped?
  }

  /** No update is lost: the screen is current, or something that will repaint it is
      pending, in hand, or booked on the cooldown. */
  ghost predicate Covered(cfg: Config, p: Page) {
    var current := FrameOf(cfg, p.queue);
    match p.stage
    case Idle => p.panel.painted == current || p.pending || RepaintOwed(p)
    case GotChange => true
    case GotCooldown => p.panel.painted == current || p.pending || p.panel.missed
    case MustPaint => true
    case Sending(f) => f == current || p.pending
    case GotHeartbeat => true
    case SendingHeartbeat(f) => f == current || p.pending || RepaintOwed(p)
    case Closed => true
  }

  /** `throttled` means the cooldown is running or its tick is being handled, so the
      timer is never restarted while it runs. */
  predicate TimerAgrees(p: Page) {
    match p.stage
    case GotCooldown => p.panel.throttled && p.panel.cooldown.Stopped?
    case MustPaint => !p.panel.throttled && p.panel.cooldown.Stopped?
    case Sending(_) => !p.panel.throttled && p.panel.cooldown.Stopped?
    case Closed => true
    case _ => p.panel.throttled <==> !p.panel.cooldown.Stopped?
  }

  lemma QuietEventsKeepTheFrame(cfg: Config, s: Sys, e: Event)
    requires Enabled(cfg, s, e) && !Notifies(e)
    ensures FrameOf(cfg, Apply(cfg, s, e)) == FrameOf(cfg, s)
  {
  }

  /** Apart from the clock, an event changes the queue exactly if it signals the watchers or
      is the wake of a granted call; and a wake moves two counters and its call's phase. */
  lemma OnlyWakesGoUnsignalled(cfg: Config, s: Sys, e: Event)
    requires Enabled(cfg, s, e)
    ensures Apply(cfg, s, e).(now := s.now) != s <==> Notifies(e) || e.Wake?
    ensures e.Wake? ==>
              var t := Apply(cfg, s, e);
              && t == s.(admitted := t.admitted, promoted := t.promoted, clients := t.clients)
              && t.admitted == s.admitted + 1 && s.promoted <= t.promoted <= s.promoted + 1
              && forall c | c != e.client :: (c in t.clients <==> c in s.clients) && (c in s.clients ==> t.clients[c] == s.clients[c])
  {
    if e.Release? {
      assert s.clients[e.client].Holding? && !Apply(cfg, s, e).clients[e.client].Holding?;
    }
  }

  lemma StepKeepsCovered(cfg: Config, p: Page, e: PageEvent)
    requires CanHappen(cfg, p, e) && Covered(cfg, p) && TimerAgrees(p)
    ensures Covered(cfg, Happen(cfg, p, e)) && TimerAgrees(Happen(cfg, p, e))
  {
    hide Apply, Enabled, FrameOf;
    if e.QueueMoves? && !Notifies(e.e) {
      QuietEventsKeepTheFrame(cfg, p.queue, e.e);
    }
  }

  // ---------------------------------------------------------------- spacing of repaints

  /** Every change-driven repaint reads the queue a full interval after the previous
      one was out, and the running cooldown keeps the next one as far away. */
  ghost predicate Spaced(p: Page) {
    && (forall i | 0 < i < |p.repaints| :: p.repaints[i - 1].shown + MinInterval() <= p.repaints[i].read)
    && (forall i | 0 <= i < |p.repaints| :: p.repaints[i].read <= p.repaints[i].shown <= p.queue.now)
    && (p.repaints != [] ==>
          var due := p.repaints[|p.repaints| - 1].shown + MinInterval();
          && (p.panel.cooldown.Armed? ==> p.panel.cooldown.deadline == due)
          && (p.panel.cooldown.Expired? ==> due <= p.queue.now)
          && (p.panel.cooldown.Stopped? ==> due <= p.queue.now)
          && (p.stage.Sending? ==> due <= p.readAt))
    && (p.stage.Sending? ==> p.readAt <= p.queue.now)
  }

  lemma QueueClockNeverGoesBack(cfg: Config, s: Sys, e: Event)
    requires Enabled(cfg, s, e)
    ensures s.now <= Apply(cfg, s, e).now
  {
  }

  lemma QueueMoveKeepsSpaced(cfg: Config, p: Page, e: Event)
    requires Enabled(cfg, p.queue, e) && Spaced(p)
    ensures Spaced(Happen(cfg, p, QueueMoves(e)))
  {
    QueueClockNeverGoesBack(cfg, p.queue, e);
    hide Apply, Enabled;
  }

  lemma PaintKeepsSpaced(cfg: Config, p: Page)
    requires p.stage.Sending? && TimerAgrees(p) && Spaced(p)
    ensures Spaced(NextStage(cfg, p))
  {
    hide FrameOf;
    var r, n := NextStage(cfg, p).repaints, |p.repaints|;
    assert forall i | 0 <= i < n :: r[i] == p.repaints[i];
    assert r[n] == Repaint(p.readAt, p.queue.now);
  }

  lemma HandlingKeepsSpaced(cfg: Config, p: Page, e: PageEvent)
    requires CanHappen(cfg, p, e) && TimerAgrees(p) && Spaced(p) && !e.QueueMoves? && !(e.Proceed? && p.stage.Sending?)
    ensures Spaced(Happen(cfg, p, e))
  {
    hide Apply, Enabled, FrameOf;
    assert Happen(cfg, p, e).repaints == p.repaints && Happen(cfg, p, e).queue == p.queue;
  }

  lemma StepKeepsSpaced(cfg: Config, p: Page, e: PageEvent)
    requires CanHappen(cfg, p, e) && TimerAgrees(p) && Spaced(p)
    ensures Spaced(Happen(cfg, p, e))
  {
    hide Apply, Enabled, FrameOf, Spaced;
    if e.QueueMoves? {
      QueueMoveKeepsSpaced(cfg, p, e.e);
    } else if e.Proceed? && p.stage.Sending? {
      PaintKeepsSpaced(cfg, p);
    } else {
      HandlingKeepsSpaced(cfg, p, e);
    }
  }

  // ---------------------------------------------------------------- whole runs

  lemma {:induction false} ReachablePages(cfg: Config, queue: Sys, run: seq<PageEvent>)
    requires LegalPage(cfg, Open(queue), run)
    ensures var p := PageAfter(cfg, Open(queue), run); Covered(cfg, p) && TimerAgrees(p) && Spaced(p)
    decreases |run|
  {
    if run != [] {
      var prefix := run[..|run| - 1];
      ReachablePages(cfg, queue, prefix);
      StepKeepsCovered(cfg, PageAfter(cfg, Open(queue), prefix), run[|run| - 1]);
      StepKeepsSpaced(cfg, PageAfter(cfg, Open(queue), prefix), run[|run| - 1]);
    }
  }

  /** Whenever the loop waits, the screen shows the queue as it is, or a signal is
      pending, or a repaint is booked: missed, throttled, and the cooldown running. */
  lemma NoUpdateIsLost(cfg: Config, queue: Sys, run: seq<PageEvent>)
    requires LegalPage(cfg, Open(queue), run)
    ensures var p := PageAfter(cfg, Open(queue), run);
            p.stage.Idle? ==>
              || p.panel.painted == FrameOf(cfg, p.queue)
              || p.pending
              || (p.panel.missed && p.panel.throttled && !p.panel.cooldown.Stopped?)
    ensures var p := PageAfter(cfg, Open(queue), run);
            Inv(cfg, queue) && p.stage.Idle? ==>
              || Tells(p.panel.painted, p.queue.clients)
              || p.pending
              || (p.panel.missed && p.panel.throttled && !p.panel.cooldown.Stopped?)
  {
    hide Tells, FrameOf, Inv;
    ReachablePages(cfg, queue, run);
    if Inv(cfg, queue) {
      WatchedQueueIsSound(cfg, Open(queue), run);
      FrameTells(cfg, PageAfter(cfg, Open(queue), run).queue);
    }
  }

  /** Beside the page the queue runs as ever. */
  lemma {:induction false} WatchedQueueIsSound(cfg: Config, p: Page, run: seq<PageEvent>)
    requires Inv(cfg, p.queue) && LegalPage(cfg, p, run)
    ensures Inv(cfg, PageAfter(cfg, p, run).queue)
    decreases |run|
  {
    hide Inv, Apply, Enabled, FrameOf;
    if run != [] {
      var front, e := run[..|run| - 1], run[|run| - 1];
      WatchedQueueIsSound(cfg, p, front);
      if e.QueueMoves? {
        QueueStaysSound(cfg, PageAfter(cfg, p, front).queue, e.e);
      }
    }
  }

  lemma QueueStaysSound(cfg: Config, s: Sys, e: Event)
    requires Inv(cfg, s) && Enabled(cfg, s, e)
    ensures Inv(cfg, Apply(cfg, s, e))
  {
    hide Apply, Enabled;
    StepKeepsMatch(cfg, s, e);
    StepConservesSlots(cfg, s, e);
  }

  /** Change-driven repaints are never closer than the minimum interval. */
  lemma RepaintsKeepTheirDistance(cfg: Config, queue: Sys, run: seq<PageEvent>, i: nat, j: nat)
    requires LegalPage(cfg, Open(queue), run)
    requires i < j < |PageAfter(cfg, Open(queue), run).repaints|
    ensures var r := PageAfter(cfg, Open(queue), run).repaints;
            r[j].read - r[i].shown >= (j - i) * 100_000_000
  {
    ReachablePages(cfg, queue, run);
    SpacingAddsUp(PageAfter(cfg, Open(queue), run), i, j);
  }

  /** Nor is one put off longer than that: the running cooldown ends a tenth of a second
      after the last repaint was out. */
  lemma CooldownLastsATenthOfASecond(cfg: Config, queue: Sys, run: seq<PageEvent>)
    requires LegalPage(cfg, Open(queue), run)
    ensures var p := PageAfter(cfg, Open(queue), run);
            p.repaints != [] && p.panel.cooldown.Armed? ==>
              p.panel.cooldown.deadline == p.repaints[|p.repaints| - 1].shown + 100_000_000
  {
    ReachablePages(cfg, queue, run);
  }

  lemma {:induction false} SpacingAddsUp(p: Page, i: nat, j: nat)
    requires Spaced(p) && i < j < |p.repaints|
    ensures p.repaints[j].read - p.repaints[i].shown >= (j - i) * MinInterval()
    decreases j
  {
    if i < j - 1 {
      SpacingAddsUp(p, i, j - 1);
    }
  }

  // ---------------------------------------------------------------- catching up

  /** What the loop does next if the queue rests: nothing once the screen is current. */
  ghost function NextMove(cfg: Config, p: Page): PageEvent {
    if !p.stage.Idle? then Proceed
    else if RepaintOwed(p) then
      match p.panel.cooldown {
        case Armed(d) => if p.queue.now < d then QueueMoves(Tick(d)) else CooldownExpires
        case _ => ReceiveCooldown
      }
    else ReceiveChange
  }

  ghost predicate Current(cfg: Config, p: Page) {
    p.stage.Idle? && p.panel.painted == FrameOf(cfg, p.queue)
  }

  /** How far the screen is from current, in steps of the loop. */
  ghost function Behind(cfg: Config, p: Page): nat {
    match p.stage
    case Idle =>
      if Current(cfg, p) then 0
      else if !RepaintOwed(p) then 15
      else if p.panel.cooldown.Expired? then 10
      else if p.panel.cooldown.Armed? && p.queue.now >= p.panel.cooldown.deadline then 11
      else 12
    case GotChange => 14
    case GotCooldown => if p.panel.missed then 9 else 16
    case MustPaint => 8
    case Sending(f) => if f == FrameOf(cfg, p.queue) then 7 else 16
    case GotHeartbeat => 6
    case SendingHeartbeat(f) => if f == FrameOf(cfg, p.queue) then 5 else 16
    case Closed => 0
  }

  lemma MovingCatchesUp(cfg: Config, p: Page)
    requires Covered(cfg, p) && TimerAgrees(p) && !p.stage.Closed? && !Current(cfg, p)
    ensures var e := NextMove(cfg, p);
            && CanHappen(cfg, p, e)
            && Behind(cfg, Happen(cfg, p, e)) < Behind(cfg, p)
            && !Happen(cfg, p, e).stage.Closed?
            && FrameOf(cfg, Happen(cfg, p, e).queue) == FrameOf(cfg, p.queue)
  {
    if p.stage.Idle? && RepaintOwed(p) && p.panel.cooldown.Armed? && p.queue.now < p.panel.cooldown.deadline {
      QuietEventsKeepTheFrame(cfg, p.queue, Tick(p.panel.cooldown.deadline));
    }
  }

  lemma ExtendRun(cfg: Config, p: Page, run: seq<PageEvent>, e: PageEvent)
    requires LegalPage(cfg, p, run) && CanHappen(cfg, PageAfter(cfg, p, run), e)
    ensures LegalPage(cfg, p, run + [e])
    ensures PageAfter(cfg, p, run + [e]) == Happen(cfg, PageAfter(cfg, p, run), e)
  {
    assert (run + [e])[..|run|] == run;
  }

  /** A run in which the queue rests: the loop and the clock move, nothing else. */
  ghost predicate QueueRests(run: seq<PageEvent>) {
    forall e | e in run && e.QueueMoves? :: e.e.Tick?
  }

  lemma {:induction false} LoopCatchesUp(cfg: Config, p: Page, sofar: seq<PageEvent>) returns (run: seq<PageEvent>)
    requires LegalPage(cfg, p, sofar) && QueueRests(sofar)
    requires var q := PageAfter(cfg, p, sofar); Covered(cfg, q) && TimerAgrees(q) && !q.stage.Closed?
    ensures LegalPage(cfg, p, run) && QueueRests(run) && |run| <= |sofar| + Behind(cfg, PageAfter(cfg, p, sofar))
    ensures var end := PageAfter(cfg, p, run);
            Current(cfg, end) && FrameOf(cfg, end.queue) == FrameOf(cfg, PageAfter(cfg, p, sofar).queue)
    decreases Behind(cfg, PageAfter(cfg, p, sofar))
  {
    hide Behind, FrameOf, CanHappen, Happen, Covered, TimerAgrees;
    var q := PageAfter(cfg, p, sofar);
    if Current(cfg, q) {
      run := sofar;
    } else {
      MovingCatchesUp(cfg, q);
      var e := NextMove(cfg, q);
      ExtendRun(cfg, p, sofar, e);
      StepKeepsCovered(cfg, q, e);
      run := LoopCatchesUp(cfg, p, sofar + [e]);
    }
  }

  /** From any reachable open page, however stale, the loop on its own brings the screen
      to the queue's frame within 16 steps once the queue rests. */
  lemma StaleScreenCatchesUp(cfg: Config, queue: Sys, run: seq<PageEvent>) returns (more: seq<PageEvent>)
    requires LegalPage(cfg, Open(queue), run) && !PageAfter(cfg, Open(queue), run).stage.Closed?
    ensures var p := PageAfter(cfg, Open(queue), run);
            && QueueRests(more) && |more| <= 16 && LegalPage(cfg, p, more)
            && Current(cfg, PageAfter(cfg, p, more))
            && FrameOf(cfg, PageAfter(cfg, p, more).queue) == FrameOf(cfg, p.queue)
  {
    ReachablePages(cfg, queue, run);
    more := LoopCatchesUp(cfg, PageAfter(cfg, Open(queue), run), []);
  }

  // ---------------------------------------------------------------- catching up, on every schedule

  /** The screen shows the queue's frame and no other frame is on its way to it. */
  ghost predicate ShowsQueue(cfg: Config, p: Page) {
    var current := FrameOf(cfg, p.queue);
    && p.panel.painted == current
    && (p.stage.Sending? || p.stage.SendingHeartbeat? ==> p.stage.frame == current)
  }

  /** How much handling can still go by before the screen shows the queue. */
  ghost function Rank(cfg: Config, p: Page): nat {
    var current := FrameOf(cfg, p.queue);
    match p.stage
    case Idle => if p.pending && p.panel.throttled then 6 else 4
    case GotChange => if !p.panel.throttled then 3 else if p.pending then 7 else 5
    case GotCooldown => if p.panel.missed then 3 else 5
    case MustPaint => 2
    case Sending(f) => if f == current then 1 else 7
    case GotHeartbeat => 2
    case SendingHeartbeat(f) => if f == current then 1 else 7
    case Closed => 0
  }

  ghost function TimerBit(p: Page): nat {
    if p.panel.cooldown.Armed? then 1 else 0
  }

  /** A step of the loop or its timer that bears on the strip. */
  predicate IsMove(e: PageEvent) {
    e.CooldownExpires? || e.ReceiveChange? || e.ReceiveCooldown? || e.ReceiveHeartbeat? || e.Proceed?
  }

  function Moves(run: seq<PageEvent>): nat {
    if run == [] then 0 else Moves(run[..|run| - 1]) + (if IsMove(run[|run| - 1]) then 1 else 0)
  }

  /** The queue rests and the page stays open. */
  predicate Rests(e: PageEvent) {
    (e.QueueMoves? ==> e.e.Tick?) && !e.Disconnect? && (e.ShowSnapshot? ==> e.sent)
  }

  /** Whatever happens next while the queue rests: a screen that shows the queue goes on
      showing it, and otherwise every move brings it closer and nothing takes it back. */
  lemma RestingStepCatchesUp(cfg: Config, p: Page, e: PageEvent)
    requires Covered(cfg, p) && TimerAgrees(p) && !p.stage.Closed? && CanHappen(cfg, p, e) && Rests(e)
    ensures var q := Happen(cfg, p, e);
            && !q.stage.Closed? && FrameOf(cfg, q.queue) == FrameOf(cfg, p.queue)
            && (ShowsQueue(cfg, p) ==> ShowsQueue(cfg, q))
            && (!ShowsQueue(cfg, p) && !ShowsQueue(cfg, q) ==>
                  2 * Rank(cfg, q) + TimerBit(q) + (if IsMove(e) then 1 else 0) <= 2 * Rank(cfg, p) + TimerBit(p))
  {
    hide Apply, Enabled, FrameOf;
    if e.QueueMoves? {
      QuietEventsKeepTheFrame(cfg, p.queue, e.e);
    }
  }

  lemma {:induction false} RestingRunCatchesUp(cfg: Config, p: Page, more: seq<PageEvent>)
    requires Covered(cfg, p) && TimerAgrees(p) && !p.stage.Closed?
    requires LegalPage(cfg, p, more) && forall e | e in more :: Rests(e)
    ensures var q := PageAfter(cfg, p, more);
            && Covered(cfg, q) && TimerAgrees(q) && !q.stage.Closed? && FrameOf(cfg, q.queue) == FrameOf(cfg, p.queue)
            && (!ShowsQueue(cfg, q) ==> 2 * Rank(cfg, q) + TimerBit(q) + Moves(more) <= 2 * Rank(cfg, p) + TimerBit(p))
    decreases |more|
  {
    hide Covered, TimerAgrees, ShowsQueue, Rank, TimerBit, CanHappen, Happen, FrameOf;
    if more != [] {
      var front, e := more[..|more| - 1], more[|more| - 1];
      RestingRunCatchesUp(cfg, p, front);
      assert e in more;
      RestingStepCatchesUp(cfg, PageAfter(cfg, p, front), e);
      StepKeepsCovered(cfg, PageAfter(cfg, p, front), e);
    }
  }

  /** From any reachable open page, however stale, every run in which the queue rests and
      the page stays open shows the queue's frame once it has made 15 moves, and from then
      on, whatever order ticks, signals, heartbeats and snapshots come in. */
  lemma EveryScheduleCatchesUp(cfg: Config, queue: Sys, run: seq<PageEvent>, more: seq<PageEvent>)
    requires LegalPage(cfg, Open(queue), run) && !PageAfter(cfg, Open(queue), run).stage.Closed?
    requires LegalPage(cfg, PageAfter(cfg, Open(queue), run), more) && (forall e | e in more :: Rests(e)) && Moves(more) >= 15
    ensures var p, q := PageAfter(cfg, Open(queue), run), PageAfter(cfg, PageAfter(cfg, Open(queue), run), more);
            && ShowsQueue(cfg, q) && q.panel.painted == FrameOf(cfg, q.queue) == FrameOf(cfg, p.queue)
            && (Inv(cfg, queue) ==> Tells(q.panel.painted, q.queue.clients))
  {
    hide Inv, Tells, FrameOf, CanHappen, Happen, Rank, TimerBit, Moves, Rests;
    ReachablePages(cfg, queue, run);
    var p := PageAfter(cfg, Open(queue), run);
    RestingRunCatchesUp(cfg, p, more);
    RankBounds(cfg, p);
    RankBounds(cfg, PageAfter(cfg, p, more));
    if Inv(cfg, queue) {
      WatchedQueueIsSound(cfg, Open(queue), run);
      WatchedQueueIsSound(cfg, p, more);
      FrameTells(cfg, PageAfter(cfg, p, more).queue);
    }
  }

  lemma RankBounds(cfg: Config, p: Page)
    requires !p.stage.Closed?
    ensures 1 <= Rank(cfg, p) <= 7 && 0 <= TimerBit(p) <= 1
  {
  }

  // ---------------------------------------------------------------- the loop as the program runs it

  /** What the select delivered, with what the queue and the clock read at that moment
      and whether sending the fragment succeeded. */
  datatype Input =
    | Change(frame: Frame, now: int, sent: bool)
    | Cooldown(frame: Frame, now: int, sent: bool)
    | Heartbeat(frame: Frame, sent: bool)
    | Snapshot(sent: bool)
    | Done

  datatype Outcome = Outcome(panel: Panel, open: bool)

  /** One turn of the loop. */
  function Turn(p: Panel, i: Input): Outcome {
    match i
    case Change(f, now, sent) =>
      if p.throttled then Outcome(p.(missed := true), true)
      else if sent then Outcome(Painted(p, f, now), true) else Outcome(p, false)
    case Cooldown(f, now, sent) =>
      var q := p.(throttled := false, cooldown := Stopped);
      if !p.missed then Outcome(q, true)
      else if sent then Outcome(Painted(q, f, now), true) else Outcome(q, false)
    case Heartbeat(f, sent) => if sent then Outcome(p.(painted := f), true) else Outcome(p, false)
    case Snapshot(sent) => Outcome(p, sent)
    case Done => Outcome(p, false)
  }

  /** An input that makes the loop send a fragment: every heartbeat and snapshot, a change
      outside the cooldown, and the end of a cooldown in which something was missed. */
  predicate Sends(p: Panel, i: Input) {
    i.Heartbeat? || i.Snapshot? || (i.Change? && !p.throttled) || (i.Cooldown? && p.missed)
  }

  /** The loop returns exactly when the client is gone or a fragment cannot be sent, and the
      strip changes exactly when a fragment of it is sent, to the frame just read. */
  lemma ReturnsAndPaintsExactly(p: Panel, i: Input)
    ensures !Turn(p, i).open <==> i.Done? || (Sends(p, i) && !i.sent)
    ensures Turn(p, i).panel.painted ==
            if !i.Done? && Sends(p, i) && i.sent && !i.Snapshot? then i.frame else p.painted
    ensures Turn(p, i).panel.missed ==
            if i.Change? && p.throttled then true
            else if (i.Change? || i.Cooldown?) && Sends(p, i) && i.sent then false
            else p.missed
  {
  }

  /** The panel as the first paint leaves it. */
  function FirstPanel(first: Frame, start: int): Panel {
    Painted(Panel(false, false, Stopped, first), first, start)
  }

  /** What a list of inputs makes of the panel; inputs after the return are not heard. */
  function Turns(first: Frame, start: int, inputs: seq<Input>): Outcome {
    if inputs == [] then Outcome(FirstPanel(first, start), true) else
      var o := Turns(first, start, inputs[..|inputs| - 1]);
      if o.open then Turn(o.panel, inputs[|inputs| - 1]) else o
  }

  lemma {:induction false} ReturnIsFinal(first: Frame, start: int, inputs: seq<Input>, i: nat)
    requires i <= |inputs| && !Turns(first, start, inputs[..i]).open
    ensures Turns(first, start, inputs) == Turns(first, start, inputs[..i])
    decreases |inputs|
  {
    if i == |inputs| {
      assert inputs[..i] == inputs;
    } else {
      assert inputs[..|inputs| - 1][..i] == inputs[..i];
      ReturnIsFinal(first, start, inputs[..|inputs| - 1], i);
    }
  }

  /** The loop: it keeps `throttled`, `missed` and the cooldown in local variables, and
      returns when the client is gone or a fragment cannot be sent. */
  method HandleKeyLive(first: Frame, start: int, inputs: seq<Input>) returns (o: Outcome)
    ensures o == Turns(first, start, inputs)
  {
    var throttled, missed := true, false;
    var cooldown, painted := Armed(start + MinInterval()), first;
    var i := 0;
    while i < |inputs|
      invariant 0 <= i <= |inputs|
      invariant Turns(first, start, inputs[..i]) == Outcome(Panel(throttled, missed, cooldown, painted), true)
    {
      var input := inputs[i];
      i := i + 1;
      assert inputs[..i][..i - 1] == inputs[..i - 1];
      match input {
        case Change(f, now, sent) =>
          if throttled {
            missed := true;
            continue;
          }
          if !sent {
            ReturnIsFinal(first, start, inputs, i);
            return Outcome(Panel(throttled, missed, cooldown, painted), false);
          }
          throttled, missed, cooldown, painted := true, false, Armed(now + MinInterval()), f;
        case Cooldown(f, now, sent) =>
          throttled, cooldown := false, Stopped;
          if missed {
            if !sent {
              ReturnIsFinal(first, start, inputs, i);
              return Outcome(Panel(throttled, missed, cooldown, painted), false);
            }
            throttled, missed, cooldown, painted := true, false, Armed(now + MinInterval()), f;
          }
        case Heartbeat(f, sent) =>
          if !sent {
            ReturnIsFinal(first, start, inputs, i);
            return Outcome(Panel(throttled, missed, cooldown, painted), false);
          }
          painted := f;
        case Snapshot(sent) =>
          if !sent {
            ReturnIsFinal(first, start, inputs, i);
            return Outcome(Panel(throttled, missed, cooldown, painted), false);
          }
        case Done =>
          ReturnIsFinal(first, start, inputs, i);
          return Outcome(Panel(throttled, missed, cooldown, painted), false);
      }
    }
    assert inputs[..i] == inputs;
    return Outcome(Panel(throttled, missed, cooldown, painted), true);
  }

  /** A turn of the loop is what its stages do one after the other, when the queue does
      not move between them. */
  lemma TurnIsItsStages(cfg: Config, p: Page)
    requires p.stage.Idle? && TimerAgrees(p)
    ensures p.pending ==>
              var q := NextStage(cfg, p.(pending := false, stage := GotChange));
              var end := if q.stage.MustPaint? then NextStage(cfg, NextStage(cfg, q)) else q;
              end.stage.Idle? && Outcome(end.panel, true) == Turn(p.panel, Change(FrameOf(cfg, p.queue), p.queue.now, true))
    ensures p.panel.cooldown.Expired? ==>
              var q := NextStage(cfg, p.(panel := p.panel.(cooldown := Stopped), stage := GotCooldown));
              var end := if q.stage.MustPaint? then NextStage(cfg, NextStage(cfg, q)) else q;
              end.stage.Idle? && Outcome(end.panel, true) == Turn(p.panel, Cooldown(FrameOf(cfg, p.queue), p.queue.now, true))
  {
  }

  // ---------------------------------------------------------------- whole runs, as the loop hears them

  /** What the loop is in the middle of. */
  datatype Doing = Nothing | FirstPaint | AChange | ACooldown | AHeartbeat

  /** A page run as the loop hears it: the first paint, the inputs handled so far, and
      what is being handled. */
  datatype Hearing = Hearing(first: Option<Repaint>, frame: Frame, inputs: seq<Input>, doing: Doing)

  function Handled(h: Hearing, i: Input): Hearing {
    h.(inputs := h.inputs + [i], doing := Nothing)
  }

  /** Handling ends with the loop back in the select, the fragment sent. */
  function Finished(cfg: Config, h: Hearing, p: Page): Hearing {
    match p.stage
    case GotChange => if p.panel.throttled then Handled(h, Change(FrameOf(cfg, p.queue), p.queue.now, true)) else h
    case GotCooldown => if p.panel.missed then h else Handled(h, Cooldown(FrameOf(cfg, p.queue), p.queue.now, true))
    case Sending(f) =>
      if h.doing.AChange? then Handled(h, Change(f, p.queue.now, true))
      else if h.doing.ACooldown? then Handled(h, Cooldown(f, p.queue.now, true))
      else h.(first := Some(Repaint(p.readAt, p.queue.now)), frame := f, doing := Nothing)
    case SendingHeartbeat(f) => Handled(h, Heartbeat(f, true))
    case _ => h
  }

  /** The loop returns: the client is gone, or the fragment in hand cannot be sent. */
  function Returned(h: Hearing, p: Page): Hearing {
    match p.stage
    case Sending(f) =>
      if h.doing.AChange? then Handled(h, Change(f, p.queue.now, false))
      else if h.doing.ACooldown? then Handled(h, Cooldown(f, p.queue.now, false))
      else h
    case SendingHeartbeat(f) => Handled(h, Heartbeat(f, false))
    case _ => Handled(h, Done)
  }

  function Hears(cfg: Config, h: Hearing, p: Page, e: PageEvent): Hearing {
    match e
    case QueueMoves(_) => h
    case CooldownExpires => h
    case ReceiveChange => h.(doing := AChange)
    case ReceiveCooldown => h.(doing := ACooldown)
    case ReceiveHeartbeat => h.(doing := AHeartbeat)
    case ShowSnapshot(sent) => Handled(h, Snapshot(sent))
    case Proceed => Finished(cfg, h, p)
    case Disconnect => Returned(h, p)
  }

  ghost function HeardOf(cfg: Config, queue: Sys, run: seq<PageEvent>): Hearing
    requires LegalPage(cfg, Open(queue), run)
  {
    if run == [] then Hearing(None, Frame(0, map[]), [], FirstPaint) else
      var front := run[..|run| - 1];
      Hears(cfg, HeardOf(cfg, queue, front), PageAfter(cfg, Open(queue), front), run[|run| - 1])
  }

  function HeardOutcome(h: Hearing): Outcome
    requires h.first.Some?
  {
    Turns(h.frame, h.first.value.shown, h.inputs)
  }

  /** The same panel, up to a cooldown that has expired unheard. */
  predicate SamePanel(loop: Panel, page: Panel) {
    && loop.throttled == page.throttled && loop.missed == page.missed && loop.painted == page.painted
    && (loop.cooldown == page.cooldown || (loop.cooldown.Armed? && page.cooldown.Expired?))
  }

  /** The instants at which the loop's change-driven repaints were out. */
  function PaintedAt(first: Frame, start: int, inputs: seq<Input>): seq<int> {
    if inputs == [] then [start] else
      var front, i := inputs[..|inputs| - 1], inputs[|inputs| - 1];
      var o := Turns(first, start, front);
      var sofar := PaintedAt(first, start, front);
      if o.open && i.Change? && !o.panel.throttled && i.sent then sofar + [i.now]
      else if o.open && i.Cooldown? && o.panel.missed && i.sent then sofar + [i.now]
      else sofar
  }

  function ShownAt(repaints: seq<Repaint>): seq<int> {
    if repaints == [] then [] else ShownAt(repaints[..|repaints| - 1]) + [repaints[|repaints| - 1].shown]
  }

  /** The loop's variables and the page agree, at every stage of handling an input. */
  ghost predicate Agrees(h: Hearing, p: Page) {
    if h.first.None? then
      h.doing.FirstPaint? && h.inputs == [] && p.repaints == []
      && (p.stage.MustPaint? || p.stage.Sending? || p.stage.Closed?) && p.panel.cooldown.Stopped? && !p.panel.missed
    else
      var o := HeardOutcome(h);
      && ShownAt(p.repaints) == PaintedAt(h.frame, h.first.value.shown, h.inputs)
      && (o.open <==> !p.stage.Closed?)
      && match p.stage {
           case Idle => SamePanel(o.panel, p.panel)
           case Closed => SamePanel(o.panel, p.panel)
           case GotChange => h.doing.AChange? && SamePanel(o.panel, p.panel)
           case GotHeartbeat => h.doing.AHeartbeat? && SamePanel(o.panel, p.panel)
           case SendingHeartbeat(_) => h.doing.AHeartbeat? && SamePanel(o.panel, p.panel)
           case GotCooldown => h.doing.ACooldown? && p.panel == o.panel.(cooldown := Stopped)
           case _ =>
             if h.doing.ACooldown? then o.panel.missed && p.panel == o.panel.(throttled := false, cooldown := Stopped)
             else h.doing.AChange? && !o.panel.throttled && SamePanel(o.panel, p.panel)
         }
  }

  /** One more input is one more turn. */
  lemma OneMoreInput(first: Frame, start: int, inputs: seq<Input>, i: Input)
    requires Turns(first, start, inputs).open
    ensures var p := Turns(first, start, inputs).panel;
            && Turns(first, start, inputs + [i]) == Turn(p, i)
            && PaintedAt(first, start, inputs + [i])
               == PaintedAt(first, start, inputs)
                  + (if (i.Change? && !p.throttled && i.sent) || (i.Cooldown? && p.missed && i.sent) then [i.now] else [])
  {
    assert (inputs + [i])[..|inputs|] == inputs;
  }

  lemma OneMoreRepaint(repaints: seq<Repaint>, r: Repaint)
    ensures ShownAt(repaints + [r]) == ShownAt(repaints) + [r.shown]
  {
    assert (repaints + [r])[..|repaints|] == repaints;
  }

  /** A fragment is out: the input that brought the repaint has been handled. */
  lemma PaintKeepsAgreement(cfg: Config, h: Hearing, p: Page)
    requires p.stage.Sending? && TimerAgrees(p) && Agrees(h, p)
    ensures Agrees(Hears(cfg, h, p, Proceed), Happen(cfg, p, Proceed))
  {
    hide Apply, Enabled, FrameOf, Turns, PaintedAt, ShownAt;
    var g, q := Hears(cfg, h, p, Proceed), Happen(cfg, p, Proceed);
    OneMoreRepaint(p.repaints, Repaint(p.readAt, p.queue.now));
    if h.first.None? {
      FirstTurn(g.frame, p.queue.now);
      OnlyRepaint(Repaint(p.readAt, p.queue.now));
      assert q.repaints == [Repaint(p.readAt, p.queue.now)];
    } else {
      OneMoreInput(h.frame, h.first.value.shown, h.inputs, g.inputs[|h.inputs|]);
      assert g.inputs == h.inputs + [g.inputs[|h.inputs|]];
    }
  }

  /** The other steps repaint nothing on their own account. */
  lemma QuietStepKeepsAgreement(cfg: Config, h: Hearing, p: Page, e: PageEvent)
    requires CanHappen(cfg, p, e) && TimerAgrees(p) && Agrees(h, p) && !(p.stage.Sending? && e.Proceed?)
    ensures Agrees(Hears(cfg, h, p, e), Happen(cfg, p, e))
  {
    hide Apply, Enabled, FrameOf, Turns, PaintedAt, ShownAt;
    var g := Hears(cfg, h, p, e);
    if h.first.Some? && g.inputs != h.inputs {
      OneMoreInput(h.frame, h.first.value.shown, h.inputs, g.inputs[|h.inputs|]);
      assert g.inputs == h.inputs + [g.inputs[|h.inputs|]];
    }
  }

  lemma StepKeepsAgreement(cfg: Config, h: Hearing, p: Page, e: PageEvent)
    requires CanHappen(cfg, p, e) && TimerAgrees(p) && Agrees(h, p)
    ensures Agrees(Hears(cfg, h, p, e), Happen(cfg, p, e))
  {
    hide Agrees, TimerAgrees, Hears, Happen, CanHappen;
    if p.stage.Sending? && e.Proceed? {
      PaintKeepsAgreement(cfg, h, p);
    } else {
      QuietStepKeepsAgreement(cfg, h, p, e);
    }
  }

  lemma FirstTurn(first: Frame, start: int)
    ensures Turns(first, start, []) == Outcome(FirstPanel(first, start), true) && PaintedAt(first, start, []) == [start]
  {
  }

  lemma OnlyRepaint(r: Repaint)
    ensures ShownAt([r]) == [r.shown]
  {
    assert [r][..0] == [];
  }

  /** Over a whole run, every input it delivers included, the loop's variables are the
      page's panel and its repaints are the page's: the loop is the page. */
  lemma {:induction false} LoopIsThePage(cfg: Config, queue: Sys, run: seq<PageEvent>)
    requires LegalPage(cfg, Open(queue), run)
    ensures Agrees(HeardOf(cfg, queue, run), PageAfter(cfg, Open(queue), run))
    decreases |run|
  {
    hide Agrees, Hears, Happen, CanHappen, TimerAgrees;
    if run == [] {
      AgreesAtFirst(queue);
    } else {
      var front := run[..|run| - 1];
      LoopIsThePage(cfg, queue, front);
      ReachablePages(cfg, queue, front);
      StepKeepsAgreement(cfg, HeardOf(cfg, queue, front), PageAfter(cfg, Open(queue), front), run[|run| - 1]);
    }
  }

  lemma AgreesAtFirst(queue: Sys)
    ensures Agrees(Hearing(None, Frame(0, map[]), [], FirstPaint), Open(queue))
  {
  }

  /** Freshness of the loop: whenever it is back in the select of any run, what it ends
      with on the inputs it heard shows the queue as it is, or a signal is pending, or it
      owes a repaint and its cooldown is running. */
  lemma LoopLosesNoUpdate(cfg: Config, queue: Sys, run: seq<PageEvent>)
    requires LegalPage(cfg, Open(queue), run) && PageAfter(cfg, Open(queue), run).stage.Idle?
    ensures var h, p := HeardOf(cfg, queue, run), PageAfter(cfg, Open(queue), run);
            && h.first.Some? && HeardOutcome(h).open
            && var loop := HeardOutcome(h).panel;
               || (loop.painted == FrameOf(cfg, p.queue) && (Inv(cfg, queue) ==> Tells(loop.painted, p.queue.clients)))
               || p.pending || (loop.missed && loop.throttled && loop.cooldown.Armed?)
  {
    hide Inv, Tells, FrameOf;
    if Inv(cfg, queue) {
      WatchedQueueIsSound(cfg, Open(queue), run);
      FrameTells(cfg, PageAfter(cfg, Open(queue), run).queue);
    }
    LoopIsThePage(cfg, queue, run);
    NoUpdateIsLost(cfg, queue, run);
    LoopTimerRunsOrStopped(HeardOf(cfg, queue, run));
  }

  lemma {:induction false} TurnsNeverExpire(first: Frame, start: int, inputs: seq<Input>)
    ensures !Turns(first, start, inputs).panel.cooldown.Expired?
    decreases |inputs|
  {
    if inputs != [] {
      TurnsNeverExpire(first, start, inputs[..|inputs| - 1]);
    }
  }

  lemma LoopTimerRunsOrStopped(h: Hearing)
    ensures h.first.Some? ==> !HeardOutcome(h).panel.cooldown.Expired?
  {
    if h.first.Some? {
      TurnsNeverExpire(h.frame, h.first.value.shown, h.inputs);
    }
  }

  lemma {:induction false} ShownAtEach(repaints: seq<Repaint>, i: nat)
    requires i < |repaints|
    ensures |ShownAt(repaints)| == |repaints| && ShownAt(repaints)[i] == repaints[i].shown
  {
    var n := |repaints| - 1;
    if n > 0 {
      ShownAtEach(repaints[..n], if i < n then i else 0);
    }
  }

  /** Spacing of the loop: on the inputs heard in any run its change-driven repaints are
      out at least the minimum interval apart. */
  lemma LoopKeepsItsDistance(cfg: Config, queue: Sys, run: seq<PageEvent>, i: nat, j: nat)
    requires LegalPage(cfg, Open(queue), run) && HeardOf(cfg, queue, run).first.Some?
    requires var h := HeardOf(cfg, queue, run); i < j < |PaintedAt(h.frame, h.first.value.shown, h.inputs)|
    ensures var h := HeardOf(cfg, queue, run);
            var at := PaintedAt(h.frame, h.first.value.shown, h.inputs);
            at[j] - at[i] >= (j - i) * MinInterval()
  {
    LoopIsThePage(cfg, queue, run);
    var r := PageAfter(cfg, Open(queue), run).repaints;
    if r != [] {
      ShownAtEach(r, 0);
      ShownAtEach(r, i);
      ShownAtEach(r, j);
      RepaintsKeepTheirDistance(cfg, queue, run, i, j);
      ReachablePages(cfg, queue, run);
    }
  }
}
