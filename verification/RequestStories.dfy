/**
 The concurrent model of requests against the handler, the other way round: whatever the
 interleaving, what a finished request did on its own is what the handler does in the
 world the run showed it.
 */
module RequestStories {
  import opened Budget
  import opened BudgetOvershoot
  import opened Calendar
  import opened EmbeddingInputs
  import opened UsageReport
  import opened Wrappers
  import EmbeddingsHandler

  /** The step is one of this request's. */
  predicate IsOf(s: Step, r: nat) {
    match s
    case Tick(_) => false
    case OtherKey(_) => false
    case Stamp(q, _) => q == r
    case ReadClock(q) => q == r
    case Query(q) => q == r
    case QueryFails(q) => q == r
    case Acquire(q) => q == r
    case Abandon(q) => q == r
    case Return(q) => q == r
    case UpstreamFails(q) => q == r
    case NotOk(q) => q == r
    case Record(q) => q == r
    case RecordFails(q) => q == r
  }

  /** A request's own steps in a run, in order. */
  function OwnSteps(run: seq<Step>, r: nat): seq<Step> {
    if run == [] then [] else
      var s := run[|run| - 1];
      OwnSteps(run[..|run| - 1], r) + (if IsOf(s, r) then [s] else [])
  }

  lemma {:induction false} OwnStepsConcat(a: seq<Step>, b: seq<Step>, r: nat)
    ensures OwnSteps(a + b, r) == OwnSteps(a, r) + OwnSteps(b, r)
    decreases |b|
  {
    if b == [] {
      assert a + b == a;
    } else {
      assert (a + b)[..|a + b| - 1] == a + b[..|b| - 1];
      OwnStepsConcat(a, b[..|b| - 1], r);
    }
  }

  lemma OwnStep(s: Step, r: nat)
    ensures OwnSteps([s], r) == if IsOf(s, r) then [s] else []
  {
    assert [s][..0] == [];
  }

  // ---------------------------------------------------------------- how far a request has come

  /** The ways a request can end. */
  datatype Ending =
    | CheckFailed
    | Exhausted
    | Abandoned
    | NoAnswer
    | BadAnswer
    | Kept(tokens: nat)
    | Lost(tokens: nat)

  function StepsTo(r: nat, e: Ending): seq<Step> {
    match e
    case CheckFailed => [ReadClock(r), QueryFails(r)]
    case Exhausted => [ReadClock(r), Query(r)]
    case Abandoned => [ReadClock(r), Query(r), Abandon(r)]
    case NoAnswer => [ReadClock(r), Query(r), Acquire(r), UpstreamFails(r)]
    case BadAnswer => [ReadClock(r), Query(r), Acquire(r), Return(r), NotOk(r)]
    case Kept(tokens) => [ReadClock(r), Query(r), Acquire(r), Return(r), Stamp(r, tokens), Record(r)]
    case Lost(tokens) => [ReadClock(r), Query(r), Acquire(r), Return(r), Stamp(r, tokens), RecordFails(r)]
  }

  /** What a run showed a request: when its check read the clock, the store its check
      queried, when it stamped its event, and how it ended. */
  datatype Tale = Tale(readAt: Moment, log: seq<Event>, stampAt: Moment, end: Ending)

  predicate Fits(k: ApiKey, tale: Tale) {
    !tale.end.CheckFailed? ==> PassesCheck(k, tale.readAt, tale.log) == !tale.end.Exhausted?
  }

  predicate EndsAs(k: ApiKey, own: seq<Step>, r: nat, tale: Tale) {
    Fits(k, tale) && own == StepsTo(r, tale.end)
  }

  predicate PastIt(k: ApiKey, at: Moment, tale: Tale) {
    at == tale.readAt && PassesCheck(k, at, tale.log)
  }

  /** What a request's own steps look like at each stage, and what its stage says. */
  predicate Story(k: ApiKey, own: seq<Step>, r: nat, s: Stage, tale: Tale) {
    match s
    case Checking(at) => own == [ReadClock(r)] && at == tale.readAt
    case Passed(at) => own == [ReadClock(r), Query(r)] && PastIt(k, at, tale)
    case Forwarding(at) => own == [ReadClock(r), Query(r), Acquire(r)] && PastIt(k, at, tale)
    case Returned(at) => own == [ReadClock(r), Query(r), Acquire(r), Return(r)] && PastIt(k, at, tale)
    case Stamped(at, tokens, stamp) =>
      && own == [ReadClock(r), Query(r), Acquire(r), Return(r), Stamp(r, tokens)] && PastIt(k, at, tale)
      && stamp == tale.stampAt.at
    case Recorded => tale.end.Kept? && EndsAs(k, own, r, tale)
    case Ended => !tale.end.Kept? && EndsAs(k, own, r, tale)
  }

  predicate StoryOf(k: ApiKey, t: Traffic, own: seq<Step>, r: nat, tale: Tale) {
    if r in t.requests then Story(k, own, r, t.requests[r], tale) else own == []
  }

  /** How a step of the request continues its tale. */
  function Continued(t: Traffic, r: nat, s: Step, tale: Tale): Tale {
    match s
    case ReadClock(_) => tale.(readAt := t.now)
    case Query(_) => tale.(log := t.log, end := Exhausted)
    case QueryFails(_) => tale.(end := CheckFailed)
    case Abandon(_) => tale.(end := Abandoned)
    case UpstreamFails(_) => tale.(end := NoAnswer)
    case NotOk(_) => tale.(end := BadAnswer)
    case Stamp(_, tokens) => tale.(stampAt := t.now)
    case Record(_) => if r in t.requests && t.requests[r].Stamped? then tale.(end := Kept(t.requests[r].tokens)) else tale
    case RecordFails(_) => if r in t.requests && t.requests[r].Stamped? then tale.(end := Lost(t.requests[r].tokens)) else tale
    case _ => tale
  }

  lemma StepContinuesStory(k: ApiKey, from: int, t: Traffic, own: seq<Step>, r: nat, s: Step, tale: Tale)
    requires Enabled(k, from, t, s) && StoryOf(k, t, own, r, tale) && IsOf(s, r)
    ensures StoryOf(k, Apply(k, from, t, s), own + [s], r, Continued(t, r, s, tale))
  {
    hide PassesCheck, PeriodStart, SumSince;
    var next := Continued(t, r, s, tale);
    match s
    case ReadClock(_) => assert own + [s] == [ReadClock(r)];
    case Query(_) => assert own + [s] == [ReadClock(r), Query(r)];
    case Acquire(_) => assert own + [s] == [ReadClock(r), Query(r), Acquire(r)];
    case Return(_) => assert own + [s] == [ReadClock(r), Query(r), Acquire(r), Return(r)];
    case Stamp(_, tokens) => assert own + [s] == [ReadClock(r), Query(r), Acquire(r), Return(r), Stamp(r, tokens)];
    case QueryFails(_) | Abandon(_) | UpstreamFails(_) | NotOk(_) | Record(_) | RecordFails(_) =>
      assert own + [s] == StepsTo(r, next.end);
    case _ =>
  }

  lemma OtherStepKeepsStory(k: ApiKey, from: int, t: Traffic, own: seq<Step>, r: nat, s: Step, tale: Tale)
    requires Enabled(k, from, t, s) && StoryOf(k, t, own, r, tale) && !IsOf(s, r)
    ensures StoryOf(k, Apply(k, from, t, s), own, r, tale)
  {
    hide PassesCheck, PeriodStart, SumSince, Story;
  }

  // ---------------------------------------------------------------- the tale is the run's

  /** The traffic before step `i` of a run. */
  ghost function Before(k: ApiKey, from: int, t: Traffic, run: seq<Step>, i: nat): Traffic {
    if i <= |run| && Legal(k, from, t, run[..i]) then After(k, from, t, run[..i]) else t
  }

  lemma {:induction false} PrefixesAreLegal(k: ApiKey, from: int, t: Traffic, run: seq<Step>, i: nat)
    requires Legal(k, from, t, run) && i <= |run|
    ensures Legal(k, from, t, run[..i]) && Before(k, from, t, run, i) == After(k, from, t, run[..i])
    decreases |run|
  {
    if i == |run| {
      assert run[..i] == run;
    } else {
      assert run[..|run| - 1][..i] == run[..i];
      PrefixesAreLegal(k, from, t, run[..|run| - 1], i);
    }
  }

  /** What one step of a run says of a request's tale, with the traffic before and after. */
  predicate SaysOf(k: ApiKey, r: nat, s: Step, before: Traffic, after: Traffic, tale: Tale) {
    match s
    case ReadClock(q) => q == r ==> before.now == tale.readAt
    case Query(q) => q == r ==> before.log == tale.log
    case Stamp(q, tokens) => q == r ==> before.now == tale.stampAt
    case Record(q) =>
      q == r ==> tale.end.Kept? && after.log == before.log + [Event(k.id, tale.end.tokens, tale.stampAt.at)]
    case _ => true
  }

  /** Every step of the run bears the tale out. */
  ghost predicate BornOut(k: ApiKey, from: int, t: Traffic, run: seq<Step>, r: nat, tale: Tale) {
    forall i: nat | i < |run| ::
      SaysOf(k, r, run[i], Before(k, from, t, run, i), Before(k, from, t, run, i + 1), tale)
  }

  lemma {:induction false} OwnStepsHas(run: seq<Step>, r: nat, i: nat)
    requires i < |run| && IsOf(run[i], r)
    ensures run[i] in OwnSteps(run, r)
  {
    if i < |run| - 1 {
      OwnStepsHas(run[..|run| - 1], r, i);
    }
  }

  /** An earlier step of the request says the same of the tale continued. */
  lemma EarlierStepStillSays(k: ApiKey, from: int, t: Traffic, own: seq<Step>, r: nat, s: Step, tale: Tale,
                             u: Step, before: Traffic, after: Traffic)
    requires Enabled(k, from, t, s) && StoryOf(k, t, own, r, tale) && IsOf(s, r)
    requires SaysOf(k, r, u, before, after, tale) && (IsOf(u, r) ==> u in own)
    ensures SaysOf(k, r, u, before, after, Continued(t, r, s, tale))
  {
    hide PassesCheck, PeriodStart, SumSince;
  }

  lemma LastStepSays(k: ApiKey, from: int, t: Traffic, own: seq<Step>, r: nat, s: Step, tale: Tale)
    requires Enabled(k, from, t, s) && StoryOf(k, t, own, r, tale)
    ensures SaysOf(k, r, s, t, Apply(k, from, t, s), Continued(t, r, s, tale))
  {
    hide PassesCheck, PeriodStart, SumSince;
  }

  lemma LongerRunBefore(k: ApiKey, from: int, t: Traffic, run: seq<Step>)
    requires run != [] && Legal(k, from, t, run)
    ensures var front := run[..|run| - 1];
            && (forall i: nat | i <= |front| :: Before(k, from, t, run, i) == Before(k, from, t, front, i))
            && Before(k, from, t, run, |front|) == After(k, from, t, front)
            && Before(k, from, t, run, |run|) == After(k, from, t, run)
  {
    var front := run[..|run| - 1];
    assert forall i: nat | i <= |front| :: run[..i] == front[..i];
    assert run[..|run|] == run && front[..|front|] == front;
  }

  lemma StepKeepsBornOut(k: ApiKey, from: int, t: Traffic, run: seq<Step>, r: nat, tale: Tale)
    requires run != [] && Legal(k, from, t, run)
    requires var front := run[..|run| - 1];
             && StoryOf(k, After(k, from, t, front), OwnSteps(front, r), r, tale) && BornOut(k, from, t, front, r, tale)
    ensures var front, s := run[..|run| - 1], run[|run| - 1];
            BornOut(k, from, t, run, r, if IsOf(s, r) then Continued(After(k, from, t, front), r, s, tale) else tale)
  {
    var front, s := run[..|run| - 1], run[|run| - 1];
    var at := After(k, from, t, front);
    var next := if IsOf(s, r) then Continued(at, r, s, tale) else tale;
    LongerRunBefore(k, from, t, run);
    assert After(k, from, t, run) == Apply(k, from, at, s);
    hide Story, Apply, Enabled, After, Legal, SaysOf, Before, Continued;
    forall i: nat | i < |run|
      ensures SaysOf(k, r, run[i], Before(k, from, t, run, i), Before(k, from, t, run, i + 1), next)
    {
      if i < |front| {
        assert run[i] == front[i];
        assert SaysOf(k, r, front[i], Before(k, from, t, front, i), Before(k, from, t, front, i + 1), tale);
        if IsOf(s, r) {
          if IsOf(front[i], r) { OwnStepsHas(front, r, i); }
          EarlierStepStillSays(k, from, at, OwnSteps(front, r), r, s, tale, front[i],
                               Before(k, from, t, front, i), Before(k, from, t, front, i + 1));
        }
      } else if IsOf(s, r) {
        LastStepSays(k, from, at, OwnSteps(front, r), r, s, tale);
      } else {
        OthersSayNothing(k, r, s, at, After(k, from, t, run), tale);
      }
    }
  }

  lemma OthersSayNothing(k: ApiKey, r: nat, s: Step, before: Traffic, after: Traffic, tale: Tale)
    requires !IsOf(s, r)
    ensures SaysOf(k, r, s, before, after, tale)
  {
  }

  /** Every run tells each request's story, and bears it out step by step: the store is
      the one its own query saw, the clock readings are the run's. */
  lemma {:induction false} RunTellsStory(k: ApiKey, from: int, t: Traffic, run: seq<Step>, r: nat) returns (tale: Tale)
    requires r !in t.requests && Legal(k, from, t, run)
    ensures StoryOf(k, After(k, from, t, run), OwnSteps(run, r), r, tale)
    ensures BornOut(k, from, t, run, r, tale)
    decreases |run|
  {
    hide Story, Apply, Enabled, BornOut;
    if run == [] {
      tale := Tale(t.now, [], t.now, Exhausted);
      NothingToBearOut(k, from, t, r, tale);
    } else {
      var front, s := run[..|run| - 1], run[|run| - 1];
      tale := RunTellsStory(k, from, t, front, r);
      StepKeepsBornOut(k, from, t, run, r, tale);
      var at := After(k, from, t, front);
      if IsOf(s, r) {
        StepContinuesStory(k, from, at, OwnSteps(front, r), r, s, tale);
        tale := Continued(at, r, s, tale);
      } else {
        OtherStepKeepsStory(k, from, at, OwnSteps(front, r), r, s, tale);
        assert OwnSteps(front, r) + [] == OwnSteps(front, r);
      }
    }
  }

  lemma NothingToBearOut(k: ApiKey, from: int, t: Traffic, r: nat, tale: Tale)
    ensures BornOut(k, from, t, [], r, tale)
  {
  }

  // ---------------------------------------------------------------- the handler's side

  /** The world of a tale. */
  function WorldOf(k: ApiKey, tale: Tale): EmbeddingsHandler.World {
    var e := tale.end;
    EmbeddingsHandler.World(
      Some(k), Ok(Some(String(""))), 0, tale.readAt, e.CheckFailed?, !e.Abandoned?,
      match e {
        case NoAnswer => EmbeddingsHandler.Unreachable
        case BadAnswer => EmbeddingsHandler.Answer(500, 0)
        case Kept(tokens) => EmbeddingsHandler.Answer(200, tokens)
        case Lost(tokens) => EmbeddingsHandler.Answer(200, tokens)
        case _ => EmbeddingsHandler.Answer(200, 0)
      },
      tale.stampAt, e.Lost?)
  }

  /** Its request is well formed and the first of its key, so it gets as far as the check. */
  lemma WorldIsRated(k: ApiKey, tale: Tale)
    requires Validate(k.limits) == None
    ensures EmbeddingsHandler.Rated(WorldOf(k, tale), map[])
  {
  }

  lemma CheckInWorld(k: ApiKey, tale: Tale)
    requires !IsUnlimited(k) && Fits(k, tale)
    ensures var w, e := WorldOf(k, tale), tale.end;
            && (EmbeddingsHandler.BudgetStatus(w, tale.log).Err? <==> e.CheckFailed?)
            && (!e.CheckFailed? ==> EmbeddingsHandler.WithinBudget(w, tale.log) == !e.Exhausted?)
  {
    hide ReportWindows;
  }

  /** The request's own steps with the clock readings of its check and its stamp. */
  function ClockReadings(e: Ending, own: seq<Step>, at: Moment, stampAt: Moment): seq<Step> {
    if (e.Kept? || e.Lost?) && |own| >= 4 then ([Tick(at)] + own[..4]) + ([Tick(stampAt)] + own[4..]) else [Tick(at)] + own
  }

  lemma StepsInWorld(k: ApiKey, tale: Tale, r: nat)
    requires var w, e := WorldOf(k, tale), tale.end;
             && (EmbeddingsHandler.BudgetStatus(w, tale.log).Err? <==> e.CheckFailed?)
             && (!e.CheckFailed? ==> EmbeddingsHandler.WithinBudget(w, tale.log) == !e.Exhausted?)
    ensures EmbeddingsHandler.StepsOf(WorldOf(k, tale), tale.log, r)
            == ClockReadings(tale.end, StepsTo(r, tale.end), tale.readAt, tale.stampAt)
  {
    hide EmbeddingsHandler.BudgetStatus, EmbeddingsHandler.WithinBudget;
  }

  lemma ReadingsAside(e: Ending, own: seq<Step>, at: Moment, stampAt: Moment, r: nat)
    requires forall i | 0 <= i < |own| :: IsOf(own[i], r)
    ensures OwnSteps(ClockReadings(e, own, at, stampAt), r) == own
  {
    hide OwnSteps, IsOf;
    AllOwn(own, r);
    TickAside(at, own, r);
    if (e.Kept? || e.Lost?) && |own| >= 4 {
      AllOwn(own[..4], r);
      AllOwn(own[4..], r);
      TickAside(at, own[..4], r);
      TickAside(stampAt, own[4..], r);
      OwnStepsConcat([Tick(at)] + own[..4], [Tick(stampAt)] + own[4..], r);
      assert own[..4] + own[4..] == own;
    }
  }

  lemma WorldTakesSteps(k: ApiKey, tale: Tale, r: nat)
    requires !IsUnlimited(k) && Fits(k, tale)
    ensures OwnSteps(EmbeddingsHandler.StepsOf(WorldOf(k, tale), tale.log, r), r) == StepsTo(r, tale.end)
  {
    hide PassesCheck, EmbeddingsHandler.BudgetStatus, EmbeddingsHandler.WithinBudget, EmbeddingsHandler.StepsOf,
      OwnSteps, StepsTo, IsOf, ClockReadings, WorldOf;
    CheckInWorld(k, tale);
    StepsInWorld(k, tale, r);
    AllMine(r, tale.end);
    ReadingsAside(tale.end, StepsTo(r, tale.end), tale.readAt, tale.stampAt, r);
  }

  lemma AllMine(r: nat, e: Ending)
    ensures forall i | 0 <= i < |StepsTo(r, e)| :: IsOf(StepsTo(r, e)[i], r)
  {
  }

  lemma TickAside(at: Moment, steps: seq<Step>, r: nat)
    ensures OwnSteps([Tick(at)] + steps, r) == OwnSteps(steps, r)
  {
    OwnStepsConcat([Tick(at)], steps, r);
    OwnStep(Tick(at), r);
  }

  lemma {:induction false} AllOwn(own: seq<Step>, r: nat)
    requires forall i | 0 <= i < |own| :: IsOf(own[i], r)
    ensures OwnSteps(own, r) == own
  {
    if own != [] {
      AllOwn(own[..|own| - 1], r);
    }
  }

  lemma StoryEnds(k: ApiKey, own: seq<Step>, r: nat, s: Stage, tale: Tale)
    requires Story(k, own, r, s, tale) && !UnderWay(s)
    ensures Fits(k, tale) && own == StepsTo(r, tale.end)
  {
  }

  /** What one step of a run shows a request of its world. */
  predicate Shows(r: nat, s: Step, before: Traffic, after: Traffic, w: EmbeddingsHandler.World, log: seq<Event>) {
    && (s == ReadClock(r) ==> before.now == w.checkAt)
    && (s == Query(r) ==> before.log == log)
    && (s.Stamp? && s.r == r ==> before.now == w.stampAt)
    && (s == Record(r) ==>
          w.key.Some? && w.upstream.Answer? && after.log == before.log + [EmbeddingsHandler.UsageEvent(w)])
  }

  /** The run shows the request this world: its clock readings are the world's, the store
      its query saw is `log`, and the event it records is the world's. */
  ghost predicate RunShows(k: ApiKey, from: int, t: Traffic, run: seq<Step>, r: nat, w: EmbeddingsHandler.World, log: seq<Event>) {
    forall i: nat | i < |run| :: Shows(r, run[i], Before(k, from, t, run, i), Before(k, from, t, run, i + 1), w, log)
  }

  lemma SayingShows(k: ApiKey, r: nat, s: Step, before: Traffic, after: Traffic, tale: Tale)
    requires SaysOf(k, r, s, before, after, tale)
    ensures Shows(r, s, before, after, WorldOf(k, tale), tale.log)
  {
  }

  lemma TaleShows(k: ApiKey, from: int, t: Traffic, run: seq<Step>, r: nat, tale: Tale)
    requires BornOut(k, from, t, run, r, tale)
    ensures RunShows(k, from, t, run, r, WorldOf(k, tale), tale.log)
  {
    hide Before, SaysOf, Shows;
    forall i: nat | i < |run|
      ensures Shows(r, run[i], Before(k, from, t, run, i), Before(k, from, t, run, i + 1), WorldOf(k, tale), tale.log)
    {
      SayingShows(k, r, run[i], Before(k, from, t, run, i), Before(k, from, t, run, i + 1), tale);
    }
  }

  /** Every request the concurrent model lets finish, in any run and however interleaved,
      took on its own the steps the handler takes in the world that run showed it: the
      store its own query saw, the run's clock readings, the event it recorded. */
  lemma FinishedRequestsAreHandled(k: ApiKey, from: int, t: Traffic, run: seq<Step>, r: nat)
      returns (w: EmbeddingsHandler.World, log: seq<Event>)
    requires !IsUnlimited(k) && Validate(k.limits) == None && r !in t.requests && Legal(k, from, t, run)
    requires r in After(k, from, t, run).requests && !UnderWay(After(k, from, t, run).requests[r])
    ensures w.key == Some(k) && EmbeddingsHandler.Rated(w, map[])
    ensures OwnSteps(EmbeddingsHandler.StepsOf(w, log, r), r) == OwnSteps(run, r)
    ensures RunShows(k, from, t, run, r, w, log)
  {
    hide Story, StepsTo, PassesCheck, EmbeddingsHandler.StepsOf, EmbeddingsHandler.Rated, OwnSteps, BornOut, RunShows;
    var tale := RunTellsStory(k, from, t, run, r);
    StoryEnds(k, OwnSteps(run, r), r, After(k, from, t, run).requests[r], tale);
    WorldIsRated(k, tale);
    WorldTakesSteps(k, tale, r);
    TaleShows(k, from, t, run, r, tale);
    w, log := WorldOf(k, tale), tale.log;
    assert w.key == Some(k);
  }
}
