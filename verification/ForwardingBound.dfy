/**
 The handler's requests and the admission queue together: what the queue does for a call
 and what the request behind it does happen in step, and everything else interleaves.

 `AdmissionProtocol` has the calls and no requests, `BudgetOvershoot` the requests of one
 key and no queue.  Here a state has one queue and the traffic of any number of keys.
 */
module ForwardingBound {
  import opened Wrappers
  import AdmissionCore
  import AdmissionProtocol
  import Budget
  import BudgetOvershoot

  /** A key, in the budget period that began at `from`. */
  datatype Account = Account(key: Budget.ApiKey, from: int)

  datatype Request = Request(key: nat, number: nat)

  /** `calls` has the number of the queue's call of every request that joined the queue. */
  datatype Proxy = Proxy(queue: AdmissionProtocol.Sys, traffic: map<nat, BudgetOvershoot.Traffic>, calls: map<Request, nat>)

  datatype Step =
    | InQueue(e: AdmissionProtocol.Event)                   // the clock, a repeated release, a call from elsewhere
    | InTraffic(key: nat, s: BudgetOvershoot.Step)          // a request's step away from the queue
    | Joins(q: Request, e: AdmissionProtocol.Event)         // Acquire is called: admitted at once, or parked
    | Wakes(q: Request)                                     // Acquire returns a slot
    | GivesUp(q: Request, e: AdmissionProtocol.Event)       // Acquire returns an error
    | GivesBack(q: Request, s: BudgetOvershoot.Step, pick: Option<AdmissionCore.Grant>)   // the forwarding is over

  // ---------------------------------------------------------------- steps

  /** What a step is for the queue. */
  function QueueEvent(p: Proxy, step: Step): Option<AdmissionProtocol.Event>
    requires (step.Wakes? || step.GivesBack?) ==> step.q in p.calls
  {
    match step
    case InQueue(e) => Some(e)
    case InTraffic(_, _) => None
    case Joins(_, e) => Some(e)
    case Wakes(q) => Some(AdmissionProtocol.Wake(p.calls[q]))
    case GivesUp(_, e) => Some(e)
    case GivesBack(q, _, pick) => Some(AdmissionProtocol.Release(p.calls[q], pick))
  }

  /** What a step is for the traffic of a key. */
  function TrafficStep(step: Step, key: nat): Option<BudgetOvershoot.Step> {
    match step
    case InQueue(_) => None
    case InTraffic(k, s) => if k == key then Some(s) else None
    case Joins(q, e) => if q.key == key && e.FastAdmit? then Some(BudgetOvershoot.Acquire(q.number)) else None
    case Wakes(q) => if q.key == key then Some(BudgetOvershoot.Acquire(q.number)) else None
    case GivesUp(q, _) => if q.key == key then Some(BudgetOvershoot.Abandon(q.number)) else None
    case GivesBack(q, s, _) => if q.key == key then Some(s) else None
  }

  predicate Known(p: Proxy, q: Request) {
    q.key in p.traffic && q.number in p.traffic[q.key].requests
  }

  function StageOf(p: Proxy, q: Request): BudgetOvershoot.Stage
    requires Known(p, q)
  {
    p.traffic[q.key].requests[q.number]
  }

  /** The event is the next one of call `c`. */
  predicate Concerns(e: AdmissionProtocol.Event, c: nat) {
    (e.Wake? || e.CancelParked? || e.CancelGranted? || e.Release?) && e.client == c
  }

  /** The two sides of a step are those of one request. */
  predicate Paired(p: Proxy, step: Step) {
    match step
    case InQueue(e) => forall q | q in p.calls :: !Concerns(e, p.calls[q])
    case InTraffic(k, s) => k in p.traffic && !s.Acquire? && !s.Abandon? && !s.Return? && !s.UpstreamFails?
    case Joins(q, e) => q !in p.calls && Known(p, q) && StageOf(p, q).Passed? && (e.FastAdmit? || e.Park?)
    case Wakes(q) => q in p.calls && q.key in p.traffic
    case GivesUp(q, e) => q in p.calls && q.key in p.traffic && (e.CancelParked? || e.CancelGranted?) && e.client == p.calls[q]
    case GivesBack(q, s, _) => q in p.calls && q.key in p.traffic && (s.Return? || s.UpstreamFails?) && s.r == q.number
  }

  ghost predicate Enabled(cfg: AdmissionProtocol.Config, accounts: map<nat, Account>, p: Proxy, step: Step) {
    && accounts.Keys == p.traffic.Keys && Paired(p, step)
    && (QueueEvent(p, step).Some? ==> AdmissionProtocol.Enabled(cfg, p.queue, QueueEvent(p, step).value))
    && forall k | k in p.traffic && TrafficStep(step, k).Some? ::
         BudgetOvershoot.Enabled(accounts[k].key, accounts[k].from, p.traffic[k], TrafficStep(step, k).value)
  }

  ghost function QueueAfter(cfg: AdmissionProtocol.Config, p: Proxy, step: Step): AdmissionProtocol.Sys
    requires (step.Wakes? || step.GivesBack?) ==> step.q in p.calls
    requires QueueEvent(p, step).Some? ==> AdmissionProtocol.Enabled(cfg, p.queue, QueueEvent(p, step).value)
  {
    if QueueEvent(p, step).None? then p.queue else AdmissionProtocol.Apply(cfg, p.queue, QueueEvent(p, step).value)
  }

  function TrafficAfter(a: Account, t: BudgetOvershoot.Traffic, s: Option<BudgetOvershoot.Step>): BudgetOvershoot.Traffic
    requires s.Some? ==> BudgetOvershoot.Enabled(a.key, a.from, t, s.value)
  {
    if s.None? then t else BudgetOvershoot.Apply(a.key, a.from, t, s.value)
  }

  ghost function Apply(cfg: AdmissionProtocol.Config, accounts: map<nat, Account>, p: Proxy, step: Step): Proxy
    requires Enabled(cfg, accounts, p, step)
  {
    Proxy(QueueAfter(cfg, p, step),
          map k | k in p.traffic :: TrafficAfter(accounts[k], p.traffic[k], TrafficStep(step, k)),
          if step.Joins? then p.calls[step.q := p.queue.next] else p.calls)
  }

  ghost predicate Legal(cfg: AdmissionProtocol.Config, accounts: map<nat, Account>, p: Proxy, run: seq<Step>)
    decreases |run|, 0
  {
    run == [] || (Legal(cfg, accounts, p, run[..|run| - 1])
                  && Enabled(cfg, accounts, After(cfg, accounts, p, run[..|run| - 1]), run[|run| - 1]))
  }

  ghost function After(cfg: AdmissionProtocol.Config, accounts: map<nat, Account>, p: Proxy, run: seq<Step>): Proxy
    requires Legal(cfg, accounts, p, run)
    decreases |run|, 1
  {
    if run == [] then p else Apply(cfg, accounts, After(cfg, accounts, p, run[..|run| - 1]), run[|run| - 1])
  }

  // ---------------------------------------------------------------- requests and calls in step

  /** Where a request stands, by where its call stands. */
  predicate InStep(s: BudgetOvershoot.Stage, ph: AdmissionProtocol.Phase) {
    match s
    case Checking(_) => false
    case Passed(_) => ph.Parked? || ph.Granted?
    case Forwarding(_) => ph.Holding?
    case _ => ph.Served? || ph.GaveUp? || ph.Raced?
  }

  ghost predicate CallsInStep(p: Proxy) {
    && (forall q | q in p.calls :: Known(p, q) && p.calls[q] in p.queue.clients
                                   && InStep(StageOf(p, q), p.queue.clients[p.calls[q]]))
    && (forall q, r | q in p.calls && r in p.calls && q != r :: p.calls[q] != p.calls[r])
    && (forall q | Known(p, q) && StageOf(p, q).Forwarding? :: q in p.calls)
  }

  ghost predicate Inv(cfg: AdmissionProtocol.Config, p: Proxy) {
    AdmissionProtocol.Inv(cfg, p.queue) && CallsInStep(p)
  }

  /** Before anybody has joined the queue, whatever else requests are doing. */
  lemma EmptyQueueIsInStep(cfg: AdmissionProtocol.Config, start: int, traffic: map<nat, BudgetOvershoot.Traffic>)
    requires AdmissionProtocol.ValidConfig(cfg)
    requires var p := Proxy(AdmissionProtocol.Init(cfg, start), traffic, map[]);
             forall q | Known(p, q) :: !StageOf(p, q).Forwarding?
    ensures Inv(cfg, Proxy(AdmissionProtocol.Init(cfg, start), traffic, map[]))
  {
    AdmissionProtocol.ReachableStatesAreSound(cfg, start, []);
  }

  /** At the turn of a key's budget period its requests go on where they are. */
  lemma NextPeriodIsInStep(cfg: AdmissionProtocol.Config, p: Proxy, key: nat, next: BudgetOvershoot.Traffic)
    requires Inv(cfg, p) && key in p.traffic && next.requests == p.traffic[key].requests
    ensures Inv(cfg, p.(traffic := p.traffic[key := next]))
  {
    hide AdmissionProtocol.Inv, InStep;
    var t := p.(traffic := p.traffic[key := next]);
    assert forall q :: (Known(t, q) <==> Known(p, q)) && (Known(p, q) ==> StageOf(t, q) == StageOf(p, q));
  }

  /** A slot passed on wakes a parked call and touches no other. */
  lemma HandingOnKeepsCalls(cfg: AdmissionProtocol.Config, s: AdmissionProtocol.Sys, pick: Option<AdmissionCore.Grant>, c: nat)
    requires AdmissionProtocol.ListsMatchCalls(s) && AdmissionProtocol.HandoffAllowed(cfg, s, pick) && c in s.clients
    ensures var t := AdmissionProtocol.Handoff(s, pick);
            c in t.clients && (t.clients[c] == s.clients[c] || (s.clients[c].Parked? && t.clients[c].Granted?))
  {
    if pick.Some? {
      AdmissionProtocol.PickIsParked(cfg, s, pick.value);
      hide AdmissionProtocol.ListsMatchCalls, AdmissionProtocol.HandoffAllowed, AdmissionCore.Remove, AdmissionCore.Queued;
    }
  }

  /** The state between a call giving its slot up and the slot being passed on. */
  function Between(s: AdmissionProtocol.Sys, e: AdmissionProtocol.Event): AdmissionProtocol.Sys
    requires (e.Release? && e.client in s.clients && s.clients[e.client].Holding?)
             || (e.CancelGranted? && e.client in s.clients && s.clients[e.client].Granted?)
  {
    var w := s.clients[e.client];
    if e.Release? then s.(clients := s.clients[e.client := AdmissionProtocol.Served(w.promoted)])
    else s.(clients := s.clients[e.client := AdmissionProtocol.Raced(w.ticket, w.promoted)], cancelled := s.cancelled + 1)
  }

  lemma PassingOnKeepsCalls(cfg: AdmissionProtocol.Config, s: AdmissionProtocol.Sys, e: AdmissionProtocol.Event, c: nat)
    requires AdmissionProtocol.Inv(cfg, s) && AdmissionProtocol.Enabled(cfg, s, e) && (e.CancelGranted? || e.Release?)
    requires c in s.clients
    ensures var was, t := Between(s, e).clients[c], AdmissionProtocol.Apply(cfg, s, e);
            c in t.clients && (t.clients[c] == was || (was.Parked? && t.clients[c].Granted?))
  {
    var mid := Between(s, e);
    AdmissionProtocol.ChangingPhaseKeepsMatch(s, mid, e.client, mid.clients[e.client]);
    hide AdmissionProtocol.ListsMatchCalls, AdmissionProtocol.SlotsConserved;
    HandingOnKeepsCalls(cfg, mid, e.pick, c);
    hide AdmissionProtocol.Handoff, AdmissionProtocol.HandoffAllowed;
  }

  /** An event leaves other calls in the same part of their life. */
  lemma OtherCallsStay(cfg: AdmissionProtocol.Config, s: AdmissionProtocol.Sys, e: AdmissionProtocol.Event, c: nat, g: BudgetOvershoot.Stage)
    requires AdmissionProtocol.Inv(cfg, s) && AdmissionProtocol.Enabled(cfg, s, e) && c in s.clients && !Concerns(e, c)
    requires InStep(g, s.clients[c])
    ensures var t := AdmissionProtocol.Apply(cfg, s, e); c in t.clients && InStep(g, t.clients[c])
  {
    hide AdmissionProtocol.SlotsConserved;
    if e.CancelGranted? || e.Release? {
      PassingOnKeepsCalls(cfg, s, e, c);
      hide AdmissionProtocol.Apply, AdmissionProtocol.ListsMatchCalls;
    }
  }

  /** What an event does to its own call. */
  lemma OwnCallMoves(cfg: AdmissionProtocol.Config, s: AdmissionProtocol.Sys, e: AdmissionProtocol.Event, c: nat)
    requires AdmissionProtocol.Inv(cfg, s) && AdmissionProtocol.Enabled(cfg, s, e) && Concerns(e, c)
    ensures var t := AdmissionProtocol.Apply(cfg, s, e);
            c in t.clients
            && (if e.Wake? then t.clients[c].Holding? else t.clients[c].Served? || t.clients[c].GaveUp? || t.clients[c].Raced?)
  {
    hide AdmissionProtocol.SlotsConserved;
    if e.CancelGranted? || e.Release? {
      PassingOnKeepsCalls(cfg, s, e, c);
      hide AdmissionProtocol.Apply, AdmissionProtocol.ListsMatchCalls;
    }
  }

  /** A new call: a number nobody had, admitted or parked. */
  lemma NewCall(cfg: AdmissionProtocol.Config, s: AdmissionProtocol.Sys, e: AdmissionProtocol.Event)
    requires AdmissionProtocol.Inv(cfg, s) && AdmissionProtocol.Enabled(cfg, s, e) && (e.FastAdmit? || e.Park?)
    ensures var t := AdmissionProtocol.Apply(cfg, s, e);
            s.next !in s.clients && s.next in t.clients
            && (if e.FastAdmit? then t.clients[s.next].Holding? else t.clients[s.next].Parked?)
  {
  }

  /** The request a traffic step is about, if any. */
  function About(s: BudgetOvershoot.Step): Option<nat> {
    if s.Tick? || s.OtherKey? then None else Some(s.r)
  }

  /** A traffic step moves its own request only, and away from the queue never from one of
      the queue's stages to another. */
  lemma TrafficMoves(a: Account, t: BudgetOvershoot.Traffic, s: BudgetOvershoot.Step, r: nat)
    requires BudgetOvershoot.Enabled(a.key, a.from, t, s)
    ensures var u := BudgetOvershoot.Apply(a.key, a.from, t, s);
            && (About(s) != Some(r) ==> (r in u.requests <==> r in t.requests) && (r in t.requests ==> u.requests[r] == t.requests[r]))
            && (About(s) == Some(r) ==> r in u.requests && match s {
                  case Acquire(_) => u.requests[r].Forwarding?
                  case Abandon(_) => u.requests[r].Ended?
                  case Return(_) => u.requests[r].Returned?
                  case UpstreamFails(_) => u.requests[r].Ended?
                  case _ => !u.requests[r].Forwarding?
                            && (r in t.requests && !t.requests[r].Checking? ==>
                                  (t.requests[r].Returned? || t.requests[r].Stamped?)
                                  && (u.requests[r].Stamped? || u.requests[r].Recorded? || u.requests[r].Ended?))
                })
  {
    hide BudgetOvershoot.PassesCheck, BudgetOvershoot.SumSince, Budget.PeriodStart;
  }

  /** Requests of a step that is not about them stay as they are. */
  lemma OtherRequestsStay(cfg: AdmissionProtocol.Config, accounts: map<nat, Account>, p: Proxy, step: Step, q: Request)
    requires Enabled(cfg, accounts, p, step)
    requires TrafficStep(step, q.key).Some? ==> About(TrafficStep(step, q.key).value) != Some(q.number)
    ensures var t := Apply(cfg, accounts, p, step);
            (Known(t, q) <==> Known(p, q)) && (Known(p, q) ==> StageOf(t, q) == StageOf(p, q))
  {
    hide BudgetOvershoot.Enabled, BudgetOvershoot.Apply, AdmissionProtocol.Enabled, AdmissionProtocol.Apply;
    if q.key in p.traffic && TrafficStep(step, q.key).Some? {
      TrafficMoves(accounts[q.key], p.traffic[q.key], TrafficStep(step, q.key).value, q.number);
    }
  }

  /** The request a step is about, if any. */
  predicate OfStep(step: Step, q: Request) {
    match step
    case InQueue(_) => false
    case InTraffic(k, s) => k == q.key && About(s) == Some(q.number)
    case _ => step.q == q
  }

  ghost predicate QueuedInStep(p: Proxy, q: Request) {
    Known(p, q) && q in p.calls && p.calls[q] in p.queue.clients && InStep(StageOf(p, q), p.queue.clients[p.calls[q]])
  }

  lemma OthersStayInStep(cfg: AdmissionProtocol.Config, accounts: map<nat, Account>, p: Proxy, step: Step, q: Request)
    requires Inv(cfg, p) && Enabled(cfg, accounts, p, step) && q in p.calls && !OfStep(step, q)
    ensures QueuedInStep(Apply(cfg, accounts, p, step), q)
  {
    hide AdmissionProtocol.Inv, AdmissionProtocol.Enabled, AdmissionProtocol.Apply, BudgetOvershoot.Enabled, BudgetOvershoot.Apply;
    OtherRequestsStay(cfg, accounts, p, step, q);
    if QueueEvent(p, step).Some? {
      OtherCallsStay(cfg, p.queue, QueueEvent(p, step).value, p.calls[q], StageOf(p, q));
    }
  }

  /** Away from the queue a request that has been in it goes on from its answer. */
  lemma AwayFromTheQueue(cfg: AdmissionProtocol.Config, accounts: map<nat, Account>, p: Proxy, step: Step, q: Request)
    requires Inv(cfg, p) && Enabled(cfg, accounts, p, step) && q in p.calls && OfStep(step, q) && step.InTraffic?
    ensures QueuedInStep(Apply(cfg, accounts, p, step), q)
  {
    hide AdmissionProtocol.Inv, AdmissionProtocol.Enabled, AdmissionProtocol.Apply, BudgetOvershoot.Enabled, BudgetOvershoot.Apply;
    TrafficMoves(accounts[q.key], p.traffic[q.key], step.s, q.number);
  }

  /** In the queue the request and its call move together. */
  lemma MovesInStep(cfg: AdmissionProtocol.Config, accounts: map<nat, Account>, p: Proxy, step: Step, q: Request)
    requires Inv(cfg, p) && Enabled(cfg, accounts, p, step) && OfStep(step, q) && (step.Wakes? || step.GivesUp? || step.GivesBack?)
    ensures QueuedInStep(Apply(cfg, accounts, p, step), q)
  {
    hide AdmissionProtocol.Inv, AdmissionProtocol.Enabled, AdmissionProtocol.Apply, BudgetOvershoot.Enabled, BudgetOvershoot.Apply;
    TrafficMoves(accounts[q.key], p.traffic[q.key], TrafficStep(step, q.key).value, q.number);
    OwnCallMoves(cfg, p.queue, QueueEvent(p, step).value, p.calls[q]);
  }

  lemma JoinsInStep(cfg: AdmissionProtocol.Config, accounts: map<nat, Account>, p: Proxy, step: Step, q: Request)
    requires Inv(cfg, p) && Enabled(cfg, accounts, p, step) && OfStep(step, q) && step.Joins?
    ensures QueuedInStep(Apply(cfg, accounts, p, step), q)
    ensures p.queue.next !in p.queue.clients
  {
    hide AdmissionProtocol.Inv, AdmissionProtocol.Enabled, AdmissionProtocol.Apply, BudgetOvershoot.Enabled, BudgetOvershoot.Apply;
    NewCall(cfg, p.queue, step.e);
    if step.e.FastAdmit? {
      TrafficMoves(accounts[q.key], p.traffic[q.key], TrafficStep(step, q.key).value, q.number);
    } else {
      OtherRequestsStay(cfg, accounts, p, step, q);
    }
  }

  lemma StaysInStep(cfg: AdmissionProtocol.Config, accounts: map<nat, Account>, p: Proxy, step: Step, q: Request)
    requires Inv(cfg, p) && Enabled(cfg, accounts, p, step) && q in Apply(cfg, accounts, p, step).calls
    ensures QueuedInStep(Apply(cfg, accounts, p, step), q)
  {
    hide Inv, Enabled, QueuedInStep;
    if !OfStep(step, q) {
      OthersStayInStep(cfg, accounts, p, step, q);
    } else if step.InTraffic? {
      AwayFromTheQueue(cfg, accounts, p, step, q);
    } else if step.Joins? {
      JoinsInStep(cfg, accounts, p, step, q);
    } else {
      MovesInStep(cfg, accounts, p, step, q);
    }
  }

  /** Nobody is forwarded without having been in the queue. */
  lemma ForwardedOnlyFromTheQueue(cfg: AdmissionProtocol.Config, accounts: map<nat, Account>, p: Proxy, step: Step, q: Request)
    requires Inv(cfg, p) && Enabled(cfg, accounts, p, step)
    requires Known(Apply(cfg, accounts, p, step), q) && StageOf(Apply(cfg, accounts, p, step), q).Forwarding?
    ensures q in Apply(cfg, accounts, p, step).calls
  {
    hide AdmissionProtocol.Inv, AdmissionProtocol.Enabled, AdmissionProtocol.Apply, BudgetOvershoot.Enabled, BudgetOvershoot.Apply;
    if OfStep(step, q) {
      if step.InTraffic? {
        TrafficMoves(accounts[q.key], p.traffic[q.key], step.s, q.number);
      }
    } else {
      OtherRequestsStay(cfg, accounts, p, step, q);
    }
  }

  lemma CallsStayApart(cfg: AdmissionProtocol.Config, accounts: map<nat, Account>, p: Proxy, step: Step)
    requires Inv(cfg, p) && Enabled(cfg, accounts, p, step)
    ensures var t := Apply(cfg, accounts, p, step);
            forall q, r | q in t.calls && r in t.calls && q != r :: t.calls[q] != t.calls[r]
  {
    hide AdmissionProtocol.Inv, AdmissionProtocol.Enabled, AdmissionProtocol.Apply, BudgetOvershoot.Enabled, BudgetOvershoot.Apply;
    if step.Joins? {
      JoinsInStep(cfg, accounts, p, step, step.q);
    }
  }

  lemma QueueStaysSound(cfg: AdmissionProtocol.Config, accounts: map<nat, Account>, p: Proxy, step: Step)
    requires AdmissionProtocol.Inv(cfg, p.queue) && Enabled(cfg, accounts, p, step)
    ensures AdmissionProtocol.Inv(cfg, Apply(cfg, accounts, p, step).queue)
  {
    hide AdmissionProtocol.Enabled, AdmissionProtocol.Apply, BudgetOvershoot.Enabled, BudgetOvershoot.Apply;
    if QueueEvent(p, step).Some? {
      AdmissionProtocol.StepKeepsMatch(cfg, p.queue, QueueEvent(p, step).value);
      AdmissionProtocol.StepConservesSlots(cfg, p.queue, QueueEvent(p, step).value);
    }
  }

  lemma StepKeepsInv(cfg: AdmissionProtocol.Config, accounts: map<nat, Account>, p: Proxy, step: Step)
    requires Inv(cfg, p) && Enabled(cfg, accounts, p, step)
    ensures Inv(cfg, Apply(cfg, accounts, p, step))
  {
    hide Apply, Enabled, Known, InStep, AdmissionProtocol.Inv, StageOf;
    QueueStaysSound(cfg, accounts, p, step);
    CallsStayApart(cfg, accounts, p, step);
    var t := Apply(cfg, accounts, p, step);
    forall q | q in t.calls ensures QueuedInStep(t, q) {
      StaysInStep(cfg, accounts, p, step, q);
    }
    forall q | Known(t, q) && StageOf(t, q).Forwarding? ensures q in t.calls {
      ForwardedOnlyFromTheQueue(cfg, accounts, p, step, q);
    }
  }

  lemma {:induction false} RunKeepsInv(cfg: AdmissionProtocol.Config, accounts: map<nat, Account>, p: Proxy, run: seq<Step>)
    requires Inv(cfg, p) && Legal(cfg, accounts, p, run)
    ensures Inv(cfg, After(cfg, accounts, p, run))
    decreases |run|
  {
    hide Apply, Enabled, AdmissionProtocol.Inv;
    if run != [] {
      hide Inv;
      RunKeepsInv(cfg, accounts, p, run[..|run| - 1]);
      StepKeepsInv(cfg, accounts, After(cfg, accounts, p, run[..|run| - 1]), run[|run| - 1]);
    }
  }

  // ---------------------------------------------------------------- the bound

  /** The requests being forwarded, of all keys. */
  function Forwarded(p: Proxy): set<Request> {
    set k, r | k in p.traffic && r in p.traffic[k].requests && p.traffic[k].requests[r].Forwarding? :: Request(k, r)
  }

  lemma {:induction false} DistinctCalls(qs: set<Request>, calls: map<Request, nat>, holders: set<nat>)
    requires qs <= calls.Keys && forall q | q in qs :: calls[q] in holders
    requires forall q, r | q in qs && r in qs && q != r :: calls[q] != calls[r]
    ensures |qs| <= |holders|
  {
    if qs != {} {
      var q :| q in qs;
      DistinctCalls(qs - {q}, calls, holders - {calls[q]});
    }
  }

  lemma ForwardedAreKnown(p: Proxy, q: Request)
    ensures q in Forwarded(p) <==> Known(p, q) && StageOf(p, q).Forwarding?
  {
  }

  /** A request is being forwarded exactly while its call of Acquire holds a slot. */
  lemma ForwardedExactlyWhileHolding(cfg: AdmissionProtocol.Config, accounts: map<nat, Account>, p: Proxy, run: seq<Step>, q: Request)
    requires Inv(cfg, p) && Legal(cfg, accounts, p, run)
    ensures var t := After(cfg, accounts, p, run);
            q in Forwarded(t) <==> q in t.calls && t.calls[q] in t.queue.clients && t.queue.clients[t.calls[q]].Holding?
  {
    hide After, Legal, AdmissionProtocol.Inv, Forwarded, Known, StageOf;
    RunKeepsInv(cfg, accounts, p, run);
    ForwardedAreKnown(After(cfg, accounts, p, run), q);
  }

  /** The backend never gets more requests at once than there are slots: in every run of
      the handler's requests with the queue, whatever the keys and however the requests
      interleave, those being forwarded are at most the capacity. */
  lemma ForwardingStaysWithinCapacity(cfg: AdmissionProtocol.Config, accounts: map<nat, Account>, p: Proxy, run: seq<Step>)
    requires Inv(cfg, p) && Legal(cfg, accounts, p, run)
    ensures |Forwarded(After(cfg, accounts, p, run))| <= cfg.capacity
  {
    RunKeepsInv(cfg, accounts, p, run);
    var t := After(cfg, accounts, p, run);
    var holders := AdmissionProtocol.CallsIn(t.queue.clients, AdmissionProtocol.IsHolding);
    forall q | q in Forwarded(t) ensures q in t.calls && t.calls[q] in holders {
      ForwardedExactlyWhileHolding(cfg, accounts, p, run, q);
    }
    hide After, Legal;
    DistinctCalls(Forwarded(t), t.calls, holders);
  }

  lemma SlotCanBePassedOn(cfg: AdmissionProtocol.Config, s: AdmissionProtocol.Sys) returns (pick: Option<AdmissionCore.Grant>)
    requires AdmissionProtocol.Inv(cfg, s)
    ensures AdmissionProtocol.HandoffAllowed(cfg, s, pick)
  {
    if s.classes == map[] {
      pick := None;
    } else {
      var g := AdmissionCore.SomeGrantIsAllowed(s.classes, s.justPromoted, s.now, cfg.promoteAfter);
      pick := Some(g);
    }
  }

  /** Nobody is stuck: a request past its check can always take a step with the queue.  It
      can join it; while parked it can give up; once granted it can go on; and a request
      being forwarded can always give its slot back. */
  lemma NobodyIsStuck(cfg: AdmissionProtocol.Config, accounts: map<nat, Account>, p: Proxy, q: Request) returns (step: Step)
    requires Inv(cfg, p) && accounts.Keys == p.traffic.Keys
    requires Known(p, q) && (StageOf(p, q).Passed? || StageOf(p, q).Forwarding?)
    ensures Enabled(cfg, accounts, p, step) && OfStep(step, q)
    ensures if StageOf(p, q).Forwarding? then step.GivesBack?
            else if q !in p.calls then step.Joins?
            else if p.queue.clients[p.calls[q]].Granted? then step.Wakes?
            else step.GivesUp?
  {
    hide AdmissionCore.HeadPick, Budget.PeriodStart, AdmissionProtocol.Inv, AdmissionProtocol.HandoffAllowed;
    if StageOf(p, q).Forwarding? {
      var pick := SlotCanBePassedOn(cfg, p.queue);
      step := GivesBack(q, BudgetOvershoot.Return(q.number), pick);
    } else if q !in p.calls {
      step := Joins(q, if p.queue.free > 0 && p.queue.waiting == 0 then AdmissionProtocol.FastAdmit(0) else AdmissionProtocol.Park(0));
    } else {
      step := if p.queue.clients[p.calls[q]].Granted? then Wakes(q) else GivesUp(q, AdmissionProtocol.CancelParked(p.calls[q]));
    }
  }

  // ---------------------------------------------------------------- each part by itself

  /** What a run is for the queue. */
  ghost function QueueRun(cfg: AdmissionProtocol.Config, accounts: map<nat, Account>, p: Proxy, run: seq<Step>): seq<AdmissionProtocol.Event>
    requires Legal(cfg, accounts, p, run)
  {
    if run == [] then [] else
      var front := run[..|run| - 1];
      var e := QueueEvent(After(cfg, accounts, p, front), run[|run| - 1]);
      QueueRun(cfg, accounts, p, front) + if e.Some? then [e.value] else []
  }

  /** What a run is for the traffic of a key. */
  function TrafficRun(run: seq<Step>, key: nat): seq<BudgetOvershoot.Step> {
    if run == [] then [] else
      var s := TrafficStep(run[|run| - 1], key);
      TrafficRun(run[..|run| - 1], key) + if s.Some? then [s.value] else []
  }

  lemma QueueOneMore(cfg: AdmissionProtocol.Config, s: AdmissionProtocol.Sys, run: seq<AdmissionProtocol.Event>, e: AdmissionProtocol.Event)
    requires AdmissionProtocol.Legal(cfg, s, run) && AdmissionProtocol.Enabled(cfg, AdmissionProtocol.After(cfg, s, run), e)
    ensures AdmissionProtocol.Legal(cfg, s, run + [e])
    ensures AdmissionProtocol.After(cfg, s, run + [e]) == AdmissionProtocol.Apply(cfg, AdmissionProtocol.After(cfg, s, run), e)
  {
    assert (run + [e])[..|run|] == run;
  }

  lemma TrafficOneMore(a: Account, t: BudgetOvershoot.Traffic, run: seq<BudgetOvershoot.Step>, s: BudgetOvershoot.Step)
    requires BudgetOvershoot.Legal(a.key, a.from, t, run)
    requires BudgetOvershoot.Enabled(a.key, a.from, BudgetOvershoot.After(a.key, a.from, t, run), s)
    ensures BudgetOvershoot.Legal(a.key, a.from, t, run + [s])
    ensures BudgetOvershoot.After(a.key, a.from, t, run + [s])
            == BudgetOvershoot.Apply(a.key, a.from, BudgetOvershoot.After(a.key, a.from, t, run), s)
  {
    assert (run + [s])[..|run|] == run;
  }

  /** Seen by the queue, a run of both is one of the queue's runs; so all that holds of those
      holds here. */
  lemma {:induction false} RunsAreTheQueues(cfg: AdmissionProtocol.Config, accounts: map<nat, Account>, p: Proxy, run: seq<Step>)
    requires Legal(cfg, accounts, p, run)
    ensures AdmissionProtocol.Legal(cfg, p.queue, QueueRun(cfg, accounts, p, run))
    ensures After(cfg, accounts, p, run).queue == AdmissionProtocol.After(cfg, p.queue, QueueRun(cfg, accounts, p, run))
    decreases |run|
  {
    hide AdmissionProtocol.Enabled, AdmissionProtocol.Apply, BudgetOvershoot.Enabled, BudgetOvershoot.Apply;
    if run != [] {
      var front, step := run[..|run| - 1], run[|run| - 1];
      RunsAreTheQueues(cfg, accounts, p, front);
      var mid := After(cfg, accounts, p, front);
      var e := QueueEvent(mid, step);
      if e.Some? {
        QueueOneMore(cfg, p.queue, QueueRun(cfg, accounts, p, front), e.value);
      } else {
        assert QueueRun(cfg, accounts, p, front) + [] == QueueRun(cfg, accounts, p, front);
      }
    }
  }

  /** And seen by a key's traffic it is one of that traffic's runs. */
  lemma {:induction false} RunsAreTheTraffics(cfg: AdmissionProtocol.Config, accounts: map<nat, Account>, p: Proxy, run: seq<Step>, key: nat)
    requires Legal(cfg, accounts, p, run) && key in p.traffic && key in accounts
    ensures BudgetOvershoot.Legal(accounts[key].key, accounts[key].from, p.traffic[key], TrafficRun(run, key))
    ensures key in After(cfg, accounts, p, run).traffic
    ensures After(cfg, accounts, p, run).traffic[key]
            == BudgetOvershoot.After(accounts[key].key, accounts[key].from, p.traffic[key], TrafficRun(run, key))
    decreases |run|
  {
    hide AdmissionProtocol.Enabled, AdmissionProtocol.Apply, BudgetOvershoot.Enabled, BudgetOvershoot.Apply;
    if run != [] {
      var front, step := run[..|run| - 1], run[|run| - 1];
      RunsAreTheTraffics(cfg, accounts, p, front, key);
      var s := TrafficStep(step, key);
      if s.Some? {
        TrafficOneMore(accounts[key], p.traffic[key], TrafficRun(front, key), s.value);
      } else {
        assert TrafficRun(front, key) + [] == TrafficRun(front, key);
      }
    }
  }
}
