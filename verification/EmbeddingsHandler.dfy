/**
 One embeddings request from end to end: the gates it passes in order, the slot it holds
 while the backend works, and what it leaves in the limiter and in the store.

 Whatever the outside world decides is a parameter: the credentials, the body, clock
 readings, whether the caller waits for its slot, the backend's answer, and failures of
 the store.
 */
module EmbeddingsHandler {
  import opened Budget
  import opened Calendar
  import opened EmbeddingInputs
  import opened LiveHub
  import opened RateLimiter
  import opened UsageReport
  import opened Wrappers
  import BudgetOvershoot

  datatype BodyError = TooLarge | NotJson

  datatype Upstream = Unreachable | Answer(status: int, tokens: nat)

  datatype World = World(
    key: Option<ApiKey>,
    body: Result<Option<Json>, BodyError>,
    limitAt: int,
    checkAt: Moment,
    queryFails: bool,
    waits: bool,            // the caller is still there when its slot comes
    upstream: Upstream,
    stampAt: Moment,
    recordFails: bool)

  datatype Response =
    | Refused(status: int)
    | RetryAfter(seconds: int)                          // 429
    | Relayed(status: int, remaining: Option<int>)      // the backend's own answer

  datatype Effect =
    | Limit              // one call counted against the key's rate
    | Check              // one budget check
    | Acquire(got: bool)
    | Forward
    | Release
    | Record(e: Event)

  // ---------------------------------------------------------------- the gates

  predicate WellFormed(w: World) {
    w.key.Some? && w.body.Ok? && Accepts(w.key.value.limits, w.body.value)
  }

  function RateDecision(w: World, windows: map<nat, Window>): Decision
    requires w.key.Some?
  {
    Decide(Lookup(windows, w.key.value.id), w.limitAt, w.key.value.limits.ratePerMin)
  }

  function Sum(w: World, log: seq<Event>): Range -> Result<int, string>
    requires w.key.Some?
  {
    if w.queryFails then (r => Err("query failed")) else StoreSum(log, w.key.value.id)
  }

  function BudgetStatus(w: World, log: seq<Event>): Result<Status, string>
    requires w.key.Some?
  {
    CheckBudget(w.key.value, w.checkAt, Sum(w, log))
  }

  predicate Rated(w: World, windows: map<nat, Window>) {
    WellFormed(w) && RateDecision(w, windows).Allowed?
  }

  predicate WithinBudget(w: World, log: seq<Event>)
    requires w.key.Some?
  {
    BudgetStatus(w, log).Ok? && !BudgetStatus(w, log).value.exhausted
  }

  predicate Successful(w: World) {
    w.upstream.Answer? && w.upstream.status == 200
  }

  /** The backend answered 200 to a request that passed every gate and got its slot. */
  predicate Accounted(w: World, windows: map<nat, Window>, log: seq<Event>) {
    Rated(w, windows) && WithinBudget(w, log) && w.waits && Successful(w)
  }

  function UsageEvent(w: World): Event
    requires w.key.Some? && w.upstream.Answer?
  {
    Event(w.key.value.id, w.upstream.tokens, w.stampAt.at)
  }

  function ServeEffects(w: World): seq<Effect>
    requires w.key.Some?
  {
    [Forward, Release] + (if Successful(w) then [Record(UsageEvent(w))] else []) + [Release]
  }

  function AdmitEffects(w: World, log: seq<Event>): seq<Effect>
    requires w.key.Some?
  {
    [Check] + if !WithinBudget(w, log) then [] else [Acquire(w.waits)] + if w.waits then ServeEffects(w) else []
  }

  /** Everything one request does to the world outside it, in order. */
  function EffectsOf(w: World, windows: map<nat, Window>, log: seq<Event>): seq<Effect> {
    if !WellFormed(w) then [] else [Limit] + if Rated(w, windows) then AdmitEffects(w, log) else []
  }

  function Served(w: World, remaining: int): Response {
    match w.upstream
    case Unreachable => Refused(502)
    case Answer(status, _) => Relayed(status, if status == 200 && remaining != UNLIMITED then Some(remaining) else None)
  }

  function Admitted(w: World, log: seq<Event>): Response
    requires w.key.Some?
  {
    var st := BudgetStatus(w, log);
    if st.Err? then Refused(500)
    else if st.value.exhausted then Refused(402)
    else if !w.waits then Refused(503)
    else Served(w, st.value.remaining)
  }

  /** The refusal of a request that is not well formed. */
  function Rejected(w: World): Response {
    Refused(if w.key.None? then 401 else if w.body == Err(TooLarge) then 413 else 400)
  }

  function ResponseTo(w: World, windows: map<nat, Window>, log: seq<Event>): Response {
    if !WellFormed(w) then Rejected(w)
    else if !Rated(w, windows) then RetryAfter(RetryAfterSeconds(RateDecision(w, windows)))
    else Admitted(w, log)
  }

  // ---------------------------------------------------------------- the handler

  class Handler {
    const limiter: Limiter
    const recorder: Recorder

    constructor (l: Limiter, r: Recorder)
      ensures limiter == l && recorder == r
    {
      limiter, recorder := l, r;
    }

    /** Accounts for a successful answer; a failure of the store does not fail the call. */
    method Account(w: World, key: ApiKey) returns (done: Effect)
      requires recorder.hub.Valid() && w.key == Some(key) && w.upstream.Answer?
      modifies recorder.store, (if key.id in recorder.hub.keys then {recorder.hub.keys[key.id]} else {})`credits
      ensures recorder.hub.Valid() && done == Record(UsageEvent(w))
      ensures recorder.store.log == if w.recordFails then old(recorder.store.log) else old(recorder.store.log) + [UsageEvent(w)]
    {
      var ok, told := recorder.Record(UsageEvent(w), w.recordFails);
      done := Record(UsageEvent(w));
    }

    /** The request holds a slot: forward it, give the slot back, account, relay. */
    method Serve(w: World, key: ApiKey, remaining: int) returns (resp: Response, effects: seq<Effect>)
      requires recorder.hub.Valid() && w.key == Some(key)
      modifies recorder.store, (if key.id in recorder.hub.keys then {recorder.hub.keys[key.id]} else {})`credits
      ensures recorder.hub.Valid() && resp == Served(w, remaining) && effects == ServeEffects(w)
      ensures recorder.store.log ==
                if Successful(w) && !w.recordFails then old(recorder.store.log) + [UsageEvent(w)] else old(recorder.store.log)
    {
      effects := [Forward];
      effects := effects + [Release];
      if w.upstream.Unreachable? {
        return Refused(502), effects + [Release];
      }
      var header := None;
      if w.upstream.status == 200 {
        var done := Account(w, key);
        effects := effects + [done];
        if remaining != UNLIMITED {
          header := Some(remaining);
        }
      }
      return Relayed(w.upstream.status, header), effects + [Release];
    }

    /** The request is within its rate: check the budget and queue for a slot. */
    method Admit(w: World, key: ApiKey) returns (resp: Response, effects: seq<Effect>)
      requires recorder.hub.Valid() && w.key == Some(key)
      modifies recorder.store, (if key.id in recorder.hub.keys then {recorder.hub.keys[key.id]} else {})`credits
      ensures recorder.hub.Valid()
      ensures resp == Admitted(w, old(recorder.store.log)) && effects == AdmitEffects(w, old(recorder.store.log))
      ensures recorder.store.log ==
                if WithinBudget(w, old(recorder.store.log)) && w.waits && Successful(w) && !w.recordFails
                then old(recorder.store.log) + [UsageEvent(w)]
                else old(recorder.store.log)
    {
      hide CheckBudget, Served, ServeEffects;
      var st := CheckBudget(key, w.checkAt, Sum(w, recorder.store.log));
      effects := [Check];
      if st.Err? {
        return Refused(500), effects;
      }
      if st.value.exhausted {
        return Refused(402), effects;
      }
      effects := effects + [Acquire(w.waits)];
      if !w.waits {
        return Refused(503), effects;
      }
      var rest;
      resp, rest := Serve(w, key, st.value.remaining);
      effects := effects + rest;
    }

    /** Credentials, body and batch size: what can be refused without touching anything. */
    method Decode(w: World) returns (refusal: Option<Response>)
      ensures refusal == if WellFormed(w) then None else Some(Rejected(w))
    {
      hide InputOutcome;
      if w.key.None? {
        return Some(Refused(401));
      }
      if w.body.Err? {
        return Some(Refused(if w.body.error.TooLarge? then 413 else 400));
      }
      var n := CountInputs(w.body.value, w.key.value.limits.batchMax);
      if n.Err? {
        return Some(Refused(400));
      }
      if !AllowsBatch(w.key.value.limits, n.value) {
        return Some(Refused(400));
      }
      return None;
    }

    /** A well-formed request: spend one of its key's calls, and go on if it had one. */
    method Meter(w: World, key: ApiKey) returns (resp: Response, effects: seq<Effect>)
      requires recorder.hub.Valid() && w.key == Some(key) && WellFormed(w)
      modifies limiter, recorder.store, (if key.id in recorder.hub.keys then {recorder.hub.keys[key.id]} else {})`credits
      ensures recorder.hub.Valid()
      ensures resp == ResponseTo(w, old(limiter.windows), old(recorder.store.log))
      ensures effects == EffectsOf(w, old(limiter.windows), old(recorder.store.log))
      ensures limiter.windows ==
                old(limiter.windows)[key.id := NextWindow(Lookup(old(limiter.windows), key.id), w.limitAt, key.limits.ratePerMin)]
      ensures recorder.store.log ==
                if Accounted(w, old(limiter.windows), old(recorder.store.log)) && !w.recordFails
                then old(recorder.store.log) + [UsageEvent(w)]
                else old(recorder.store.log)
    {
      hide WellFormed, CheckBudget, Accepts, Decide, NextWindow, Admitted, AdmitEffects, WithinBudget, RetryAfterSeconds,
        Rejected, Successful;
      var d := limiter.Allow(key.id, key.limits.ratePerMin, w.limitAt);
      effects := [Limit];
      if !d.Allowed? {
        return RetryAfter(RetryAfterSeconds(d)), effects;
      }
      var rest;
      resp, rest := Admit(w, key);
      effects := effects + rest;
    }

    method Embeddings(w: World) returns (resp: Response, effects: seq<Effect>)
      requires recorder.hub.Valid()
      modifies limiter, recorder.store,
               (if w.key.Some? && w.key.value.id in recorder.hub.keys then {recorder.hub.keys[w.key.value.id]} else {})`credits
      ensures recorder.hub.Valid()
      ensures resp == ResponseTo(w, old(limiter.windows), old(recorder.store.log))
      ensures effects == EffectsOf(w, old(limiter.windows), old(recorder.store.log))
      ensures limiter.windows ==
                if WellFormed(w)
                then old(limiter.windows)[w.key.value.id := NextWindow(Lookup(old(limiter.windows), w.key.value.id),
                                                                       w.limitAt, w.key.value.limits.ratePerMin)]
                else old(limiter.windows)
      ensures recorder.store.log ==
                if Accounted(w, old(limiter.windows), old(recorder.store.log)) && !w.recordFails
                then old(recorder.store.log) + [UsageEvent(w)]
                else old(recorder.store.log)
    {
      hide Accepts, NextWindow, Admitted, AdmitEffects, RateDecision, WithinBudget, Successful, Rejected;
      var refusal := Decode(w);
      if refusal.Some? {
        return refusal.value, [];
      }
      resp, effects := Meter(w, w.key.value);
    }
  }

  // ---------------------------------------------------------------- the slot

  /** Whether the request holds a slot after these effects; only the first release of a
      slot counts. */
  function Holds(effects: seq<Effect>): bool {
    if effects == [] then false else
      var before, e := Holds(effects[..|effects| - 1]), effects[|effects| - 1];
      if e == Acquire(true) then true else if e.Release? then false else before
  }

  lemma HoldsAfter(es: seq<Effect>, k: nat)
    requires k < |es|
    ensures Holds(es[..k + 1]) == if es[k] == Acquire(true) then true else if es[k].Release? then false else Holds(es[..k])
  {
    assert es[..k + 1][..k] == es[..k];
  }

  /** The slot covers the backend's work and nothing else: it is held when the request is
      forwarded, is given back before anything is recorded, and none is held at the end,
      whichever way the request ends. */
  lemma SlotCoversOnlyForwarding(w: World, windows: map<nat, Window>, log: seq<Event>, i: nat)
    requires i < |EffectsOf(w, windows, log)|
    ensures var es := EffectsOf(w, windows, log);
            && (es[i].Forward? ==> Holds(es[..i]))
            && (es[i].Record? ==> !Holds(es[..i]))
            && !Holds(es)
  {
    var es, n := EffectsOf(w, windows, log), |EffectsOf(w, windows, log)|;
    EffectsByPosition(w, windows, log);
    hide EffectsOf, Holds;
    HoldsAfter(es, n - 1);
    assert es[..n] == es;
    if n <= 3 {
      HoldsNothingYet(es);
    } else {
      HoldsAfter(es, 2);
      HoldsAfter(es, 4);
    }
  }

  lemma EffectsByPosition(w: World, windows: map<nat, Window>, log: seq<Event>)
    ensures var es := EffectsOf(w, windows, log);
            && (|es| <= 3 ==> forall i | 0 <= i < |es| :: !es[i].Forward? && !es[i].Record? && !es[i].Release? && es[i] != Acquire(true))
            && (|es| > 3 ==>
                  && 6 <= |es| <= 7 && es[0] == Limit && es[1] == Check && es[2] == Acquire(true) && es[3] == Forward
                  && es[4] == Release && es[|es| - 1] == Release && (|es| == 7 ==> es[5].Record?))
  {
    hide WellFormed, Rated, WithinBudget, Successful;
  }

  lemma {:induction false} HoldsNothingYet(es: seq<Effect>)
    requires forall i | 0 <= i < |es| :: es[i] != Acquire(true)
    ensures !Holds(es)
  {
    if es != [] {
      HoldsNothingYet(es[..|es| - 1]);
    }
  }

  /** A request is forwarded exactly when it passes every gate and waits for its slot, and
      is then accounted for exactly when the backend answers 200, with the backend's own
      count of tokens. */
  lemma ForwardedExactlyThroughTheGates(w: World, windows: map<nat, Window>, log: seq<Event>, e: Event)
    ensures var es := EffectsOf(w, windows, log);
            && (Forward in es <==>
                  && w.key.Some? && w.body.Ok? && Accepts(w.key.value.limits, w.body.value)
                  && RateDecision(w, windows).Allowed?
                  && BudgetStatus(w, log).Ok? && !BudgetStatus(w, log).value.exhausted && w.waits)
            && (Record(e) in es <==>
                  Forward in es && w.upstream.Answer? && w.upstream.status == 200
                  && e == Event(w.key.value.id, w.upstream.tokens, w.stampAt.at))
  {
    hide Accepts, RateDecision, BudgetStatus;
    var es := EffectsOf(w, windows, log);
    if Rated(w, windows) && WithinBudget(w, log) && w.waits {
      assert es == [Limit, Check, Acquire(true)] + ServeEffects(w);
      assert es[3] == Forward;
      if Successful(w) {
        assert es[5] == Record(UsageEvent(w));
      }
    }
  }

  /** The cheap gates come first, and a request refused at one never reaches the next. */
  lemma RefusedRequestsGoNoFurther(w: World, windows: map<nat, Window>, log: seq<Event>)
    ensures var es := EffectsOf(w, windows, log);
            && (Limit in es <==> WellFormed(w))
            && (Check in es <==> Limit in es && RateDecision(w, windows).Allowed?)
            && (Acquire(w.waits) in es <==> Check in es && WithinBudget(w, log))
  {
    hide Accepts, RateDecision, BudgetStatus;
    var es := EffectsOf(w, windows, log);
    if WellFormed(w) { assert es[0] == Limit; }
    if Rated(w, windows) { assert es[1] == Check; }
    if Rated(w, windows) && WithinBudget(w, log) { assert es[2] == Acquire(w.waits); }
  }

  /** What a limited key has used of its budget when the handler checks it. */
  function UsedAtCheck(w: World, log: seq<Event>): nat
    requires w.key.Some?
  {
    SumTokens(log, w.key.value.id, Range(PeriodStart(w.key.value, w.checkAt), w.checkAt.at))
  }

  predicate Limited(w: World) {
    w.key.Some? && w.key.value.limits.tokenBudget != -1
  }

  /** The key's budget leaves something: it has none, or the query answers with less. */
  predicate HasBudget(w: World, log: seq<Event>) {
    w.key.Some? && (Limited(w) ==> !w.queryFails && UsedAtCheck(w, log) < w.key.value.limits.tokenBudget)
  }

  lemma StatusExplained(w: World, log: seq<Event>)
    requires w.key.Some?
    ensures BudgetStatus(w, log).Err? <==> Limited(w) && w.queryFails
    ensures BudgetStatus(w, log).Ok? ==>
              var st, budget := BudgetStatus(w, log).value, w.key.value.limits.tokenBudget;
              && (st.exhausted <==> Limited(w) && UsedAtCheck(w, log) >= budget)
              && st.remaining == (if !Limited(w) then -1
                                  else if UsedAtCheck(w, log) >= budget then 0 else budget - UsedAtCheck(w, log))
  {
    hide ReportWindows, SumTokens, PeriodStart;
    if Limited(w) && !w.queryFails {
      CheckPassesExactly(w.key.value, w.checkAt, log);
    }
  }

  /** When a request is refused before its budget is looked at, and how. */
  lemma EarlyRefusals(w: World, windows: map<nat, Window>, log: seq<Event>)
    ensures var resp := ResponseTo(w, windows, log);
            && (resp == Refused(401) <==> w.key.None?)
            && (resp == Refused(413) <==> w.key.Some? && w.body == Err(TooLarge))
            && (resp == Refused(400) <==>
                  w.key.Some? && (w.body == Err(NotJson) || (w.body.Ok? && !Accepts(w.key.value.limits, w.body.value))))
            && (resp.RetryAfter? <==>
                  && w.key.Some? && w.body.Ok? && Accepts(w.key.value.limits, w.body.value)
                  && Decide(Lookup(windows, w.key.value.id), w.limitAt, w.key.value.limits.ratePerMin).Denied?)
            && (resp.RetryAfter? ==>
                  var d := Decide(Lookup(windows, w.key.value.id), w.limitAt, w.key.value.limits.ratePerMin);
                  resp.seconds >= 1 && (resp.seconds - 1) * 1_000_000_000 < Max(d.retryAfter, 1) <= resp.seconds * 1_000_000_000)
  {
    hide Accepts, BudgetStatus, Decide, RetryAfterSeconds;
    assert w.body.Err? ==> w.body == Err(w.body.error) && (w.body.error == TooLarge || w.body.error == NotJson);
    if w.key.Some? && RateDecision(w, windows).Denied? {
      RoundedUp(RateDecision(w, windows));
    }
  }

  lemma RoundedUp(d: Decision)
    requires d.Denied?
    ensures var secs := RetryAfterSeconds(d);
            secs >= 1 && (secs - 1) * 1_000_000_000 < Max(d.retryAfter, 1) <= secs * 1_000_000_000
  {
  }

  /** And after that: 500, 402, 503 and 502 each exactly when its gate is the one that
      stops the request, and otherwise the backend's own answer, with the remaining budget
      exactly on a 200 to a limited key. */
  lemma LateAnswers(w: World, windows: map<nat, Window>, log: seq<Event>)
    ensures var resp, gated := ResponseTo(w, windows, log),
              && w.key.Some? && w.body.Ok? && Accepts(w.key.value.limits, w.body.value)
              && Decide(Lookup(windows, w.key.value.id), w.limitAt, w.key.value.limits.ratePerMin).Allowed?;
            && (resp == Refused(500) <==> gated && Limited(w) && w.queryFails)
            && (resp == Refused(402) <==>
                  gated && Limited(w) && !w.queryFails && UsedAtCheck(w, log) >= w.key.value.limits.tokenBudget)
            && (resp == Refused(503) <==> gated && HasBudget(w, log) && !w.waits)
            && (resp == Refused(502) <==> gated && HasBudget(w, log) && w.waits && w.upstream.Unreachable?)
            && (resp.Relayed? <==> gated && HasBudget(w, log) && w.waits && w.upstream.Answer?)
            && (resp.Relayed? ==>
                  && resp.status == w.upstream.status
                  && resp.remaining == if w.upstream.status == 200 && Limited(w)
                                       then Some(w.key.value.limits.tokenBudget - UsedAtCheck(w, log)) else None)
  {
    hide Accepts, BudgetStatus, Decide, UsedAtCheck, RetryAfterSeconds;
    if w.key.Some? {
      StatusExplained(w, log);
    }
  }

  // ---------------------------------------------------------------- one request among many

  /** The steps a request that holds a slot takes in the concurrent model of budgets. */
  function ServeSteps(w: World, r: nat): seq<BudgetOvershoot.Step> {
    match w.upstream
    case Unreachable => [BudgetOvershoot.UpstreamFails(r)]
    case Answer(status, tokens) =>
      if status != 200 then [BudgetOvershoot.Return(r), BudgetOvershoot.NotOk(r)] else
      [BudgetOvershoot.Return(r), BudgetOvershoot.Tick(w.stampAt), BudgetOvershoot.Stamp(r, tokens),
       if w.recordFails then BudgetOvershoot.RecordFails(r) else BudgetOvershoot.Record(r)]
  }

  /** The steps of a request whose query came back. */
  function QueriedSteps(w: World, log: seq<Event>, r: nat): seq<BudgetOvershoot.Step>
    requires w.key.Some?
  {
    if !WithinBudget(w, log) then []
    else if !w.waits then [BudgetOvershoot.Abandon(r)]
    else [BudgetOvershoot.Acquire(r)] + ServeSteps(w, r)
  }

  /** The steps of a request that has read the clock for its check. */
  function CheckSteps(w: World, log: seq<Event>, r: nat): seq<BudgetOvershoot.Step>
    requires w.key.Some?
  {
    if BudgetStatus(w, log).Err? then [BudgetOvershoot.QueryFails(r)] else
    [BudgetOvershoot.Query(r)] + QueriedSteps(w, log, r)
  }

  function StepsOf(w: World, log: seq<Event>, r: nat): seq<BudgetOvershoot.Step>
    requires w.key.Some?
  {
    [BudgetOvershoot.Tick(w.checkAt), BudgetOvershoot.ReadClock(r)] + CheckSteps(w, log, r)
  }

  /** What a step of the concurrent model is in the handler. */
  function Shown(w: World, s: BudgetOvershoot.Step): seq<Effect>
    requires w.key.Some?
  {
    match s
    case ReadClock(_) => [Check]
    case Acquire(_) => [Acquire(true)]
    case Abandon(_) => [Acquire(false)]
    case Return(_) => [Forward, Release]
    case UpstreamFails(_) => [Forward, Release]
    case Record(_) => if w.upstream.Answer? then [Record(UsageEvent(w))] else []
    case RecordFails(_) => if w.upstream.Answer? then [Record(UsageEvent(w))] else []
    case _ => []
  }

  function ShownAll(w: World, steps: seq<BudgetOvershoot.Step>): seq<Effect>
    requires w.key.Some?
  {
    if steps == [] then [] else Shown(w, steps[0]) + ShownAll(w, steps[1..])
  }

  lemma ShownServing(w: World, r: nat)
    requires w.key.Some?
    ensures ShownAll(w, ServeSteps(w, r)) + [Release] == ServeEffects(w)
  {
    hide Shown;
    var steps := ServeSteps(w, r);
    ShownFirst(w, steps);
    if |steps| > 1 { ShownFirst(w, steps[1..]); }
    if |steps| > 2 { ShownFirst(w, steps[2..]); }
    if |steps| > 3 { ShownFirst(w, steps[3..]); }
    ShownOf(w, r);
  }

  lemma ShownFirst(w: World, steps: seq<BudgetOvershoot.Step>)
    requires w.key.Some? && steps != []
    ensures ShownAll(w, steps) == Shown(w, steps[0]) + ShownAll(w, steps[1..])
  {
  }

  lemma ShownOf(w: World, r: nat)
    requires w.key.Some?
    ensures Shown(w, BudgetOvershoot.Return(r)) == [Forward, Release] == Shown(w, BudgetOvershoot.UpstreamFails(r))
    ensures Shown(w, BudgetOvershoot.NotOk(r)) == [] == Shown(w, BudgetOvershoot.Tick(w.stampAt))
    ensures w.upstream.Answer? ==>
              && Shown(w, BudgetOvershoot.Stamp(r, w.upstream.tokens)) == []
              && Shown(w, BudgetOvershoot.Record(r)) == [Record(UsageEvent(w))] == Shown(w, BudgetOvershoot.RecordFails(r))
  {
  }

  lemma {:induction false} ShownConcat(w: World, a: seq<BudgetOvershoot.Step>, b: seq<BudgetOvershoot.Step>)
    requires w.key.Some?
    ensures ShownAll(w, a + b) == ShownAll(w, a) + ShownAll(w, b)
  {
    if a == [] {
      assert a + b == b;
    } else {
      assert (a + b)[1..] == a[1..] + b;
      ShownConcat(w, a[1..], b);
    }
  }

  lemma ShownOne(w: World, s: BudgetOvershoot.Step)
    requires w.key.Some?
    ensures ShownAll(w, [s]) == Shown(w, s)
  {
    assert [s][1..] == [];
  }

  lemma ShownChecking(w: World, log: seq<Event>, r: nat)
    requires w.key.Some?
    ensures [Check] + ShownAll(w, CheckSteps(w, log, r)) + (if WithinBudget(w, log) && w.waits then [Release] else [])
            == AdmitEffects(w, log)
  {
    hide BudgetStatus, ServeSteps, ServeEffects, ShownAll;
    ShownOne(w, BudgetOvershoot.QueryFails(r));
    ShownOne(w, BudgetOvershoot.Query(r));
    ShownOne(w, BudgetOvershoot.Acquire(r));
    ShownOne(w, BudgetOvershoot.Abandon(r));
    ShownConcat(w, [BudgetOvershoot.Query(r)], [BudgetOvershoot.Abandon(r)]);
    ShownConcat(w, [BudgetOvershoot.Acquire(r)], ServeSteps(w, r));
    ShownConcat(w, [BudgetOvershoot.Query(r)], [BudgetOvershoot.Acquire(r)] + ServeSteps(w, r));
    ShownServing(w, r);
    assert [BudgetOvershoot.Query(r)] + [] == [BudgetOvershoot.Query(r)];
  }

  /** The handler's effects, as the method returns them, are its steps in the concurrent
      model, in order: the rate charged before, and the deferred release after. */
  lemma EffectsAreTheSteps(w: World, windows: map<nat, Window>, log: seq<Event>, r: nat)
    requires Rated(w, windows)
    ensures EffectsOf(w, windows, log)
            == [Limit] + ShownAll(w, StepsOf(w, log, r)) + (if WithinBudget(w, log) && w.waits then [Release] else [])
  {
    hide CheckSteps, AdmitEffects, WithinBudget, RateDecision, ShownAll;
    ShownOne(w, BudgetOvershoot.Tick(w.checkAt));
    ShownOne(w, BudgetOvershoot.ReadClock(r));
    ShownConcat(w, [BudgetOvershoot.Tick(w.checkAt)], [BudgetOvershoot.ReadClock(r)]);
    assert [BudgetOvershoot.Tick(w.checkAt)] + [BudgetOvershoot.ReadClock(r)]
           == [BudgetOvershoot.Tick(w.checkAt), BudgetOvershoot.ReadClock(r)];
    ShownConcat(w, [BudgetOvershoot.Tick(w.checkAt), BudgetOvershoot.ReadClock(r)], CheckSteps(w, log, r));
    ShownChecking(w, log, r);
  }

  lemma OneMoreStep(k: ApiKey, from: int, t: BudgetOvershoot.Traffic, run: seq<BudgetOvershoot.Step>, s: BudgetOvershoot.Step)
    requires BudgetOvershoot.Legal(k, from, t, run)
    requires BudgetOvershoot.Enabled(k, from, BudgetOvershoot.After(k, from, t, run), s)
    ensures BudgetOvershoot.Legal(k, from, t, run + [s])
    ensures BudgetOvershoot.After(k, from, t, run + [s])
            == BudgetOvershoot.Apply(k, from, BudgetOvershoot.After(k, from, t, run), s)
  {
    assert (run + [s])[..|run|] == run;
  }

  /** Runs compose. */
  lemma {:induction false} ThenRun(k: ApiKey, from: int, t: BudgetOvershoot.Traffic,
                                   first: seq<BudgetOvershoot.Step>, next: seq<BudgetOvershoot.Step>)
    requires BudgetOvershoot.Legal(k, from, t, first)
    requires BudgetOvershoot.Legal(k, from, BudgetOvershoot.After(k, from, t, first), next)
    ensures BudgetOvershoot.Legal(k, from, t, first + next)
    ensures BudgetOvershoot.After(k, from, t, first + next)
            == BudgetOvershoot.After(k, from, BudgetOvershoot.After(k, from, t, first), next)
    decreases |next|
  {
    if next == [] {
      assert first + next == first;
    } else {
      var front, last := next[..|next| - 1], next[|next| - 1];
      ThenRun(k, from, t, first, front);
      OneMoreStep(k, from, t, first + front, last);
      assert first + front + [last] == first + next;
    }
  }

  /** The clock readings of one request, in order and within one budget period. */
  predicate InOnePeriod(w: World, k: ApiKey, from: int, now: Moment) {
    && now.at <= w.checkAt.at <= w.stampAt.at
    && PeriodStart(k, w.checkAt) == from && PeriodStart(k, w.stampAt) == from
  }

  lemma ServingIsLegal(w: World, k: ApiKey, from: int, t: BudgetOvershoot.Traffic, r: nat)
    requires w.key == Some(k) && r in t.requests && t.requests[r].Forwarding?
    requires t.now.at <= w.stampAt.at && PeriodStart(k, w.stampAt) == from
    ensures BudgetOvershoot.Legal(k, from, t, ServeSteps(w, r))
    ensures var end := BudgetOvershoot.After(k, from, t, ServeSteps(w, r));
            end.log == (if Successful(w) && !w.recordFails then t.log + [UsageEvent(w)] else t.log)
            && r in end.requests && !BudgetOvershoot.UnderWay(end.requests[r])
  {
    hide PeriodStart, BudgetOvershoot.SumSince;
    var run: seq<BudgetOvershoot.Step> := [];
    match w.upstream
    case Unreachable =>
      OneMoreStep(k, from, t, run, BudgetOvershoot.UpstreamFails(r));
      assert ServeSteps(w, r) == run + [BudgetOvershoot.UpstreamFails(r)];
    case Answer(status, tokens) =>
      OneMoreStep(k, from, t, run, BudgetOvershoot.Return(r));
      run := run + [BudgetOvershoot.Return(r)];
      if status != 200 {
        OneMoreStep(k, from, t, run, BudgetOvershoot.NotOk(r));
        assert ServeSteps(w, r) == run + [BudgetOvershoot.NotOk(r)];
      } else {
        OneMoreStep(k, from, t, run, BudgetOvershoot.Tick(w.stampAt));
        run := run + [BudgetOvershoot.Tick(w.stampAt)];
        OneMoreStep(k, from, t, run, BudgetOvershoot.Stamp(r, tokens));
        run := run + [BudgetOvershoot.Stamp(r, tokens)];
        var last := if w.recordFails then BudgetOvershoot.RecordFails(r) else BudgetOvershoot.Record(r);
        OneMoreStep(k, from, t, run, last);
        assert ServeSteps(w, r) == run + [last];
      }
  }

  lemma ClockIsRead(w: World, k: ApiKey, from: int, t: BudgetOvershoot.Traffic, r: nat)
    requires r !in t.requests && InOnePeriod(w, k, from, t.now)
    ensures var run := [BudgetOvershoot.Tick(w.checkAt), BudgetOvershoot.ReadClock(r)];
            && BudgetOvershoot.Legal(k, from, t, run)
            && BudgetOvershoot.After(k, from, t, run)
               == BudgetOvershoot.Go(t.(now := w.checkAt), r, BudgetOvershoot.Checking(w.checkAt))
  {
    hide PeriodStart;
    OneMoreStep(k, from, t, [], BudgetOvershoot.Tick(w.checkAt));
    OneMoreStep(k, from, t, [BudgetOvershoot.Tick(w.checkAt)], BudgetOvershoot.ReadClock(r));
    assert [BudgetOvershoot.Tick(w.checkAt)] + [BudgetOvershoot.ReadClock(r)]
           == [BudgetOvershoot.Tick(w.checkAt), BudgetOvershoot.ReadClock(r)];
  }

  lemma FirstStep(k: ApiKey, from: int, t: BudgetOvershoot.Traffic, s: BudgetOvershoot.Step)
    requires BudgetOvershoot.Enabled(k, from, t, s)
    ensures BudgetOvershoot.Legal(k, from, t, [s])
    ensures BudgetOvershoot.After(k, from, t, [s]) == BudgetOvershoot.Apply(k, from, t, s)
  {
    OneMoreStep(k, from, t, [], s);
    assert [] + [s] == [s];
  }

  /** One step, and then the rest of a request's steps. */
  lemma StepThenRun(k: ApiKey, from: int, t: BudgetOvershoot.Traffic, s: BudgetOvershoot.Step, next: seq<BudgetOvershoot.Step>)
    requires BudgetOvershoot.Enabled(k, from, t, s)
    requires BudgetOvershoot.Legal(k, from, BudgetOvershoot.Apply(k, from, t, s), next)
    ensures BudgetOvershoot.Legal(k, from, t, [s] + next)
    ensures BudgetOvershoot.After(k, from, t, [s] + next) == BudgetOvershoot.After(k, from, BudgetOvershoot.Apply(k, from, t, s), next)
  {
    hide BudgetOvershoot.Enabled, BudgetOvershoot.Apply;
    FirstStep(k, from, t, s);
    ThenRun(k, from, t, [s], next);
  }

  lemma AdmittedIsLegal(w: World, k: ApiKey, from: int, t: BudgetOvershoot.Traffic, r: nat)
    requires w.key == Some(k) && r in t.requests && t.requests[r].Passed?
    requires t.now.at <= w.stampAt.at && PeriodStart(k, w.stampAt) == from
    ensures BudgetOvershoot.Legal(k, from, t, [BudgetOvershoot.Acquire(r)] + ServeSteps(w, r))
    ensures var end := BudgetOvershoot.After(k, from, t, [BudgetOvershoot.Acquire(r)] + ServeSteps(w, r));
            end.log == (if Successful(w) && !w.recordFails then t.log + [UsageEvent(w)] else t.log)
            && r in end.requests && !BudgetOvershoot.UnderWay(end.requests[r])
  {
    hide PeriodStart, ServeSteps, BudgetOvershoot.After, BudgetOvershoot.Legal;
    ServingIsLegal(w, k, from, BudgetOvershoot.Apply(k, from, t, BudgetOvershoot.Acquire(r)), r);
    StepThenRun(k, from, t, BudgetOvershoot.Acquire(r), ServeSteps(w, r));
  }

  lemma QueriedIsLegal(w: World, k: ApiKey, from: int, t: BudgetOvershoot.Traffic, r: nat)
    requires w.key == Some(k) && r in t.requests
    requires if WithinBudget(w, t.log) then t.requests[r].Passed? else t.requests[r].Ended?
    requires t.now.at <= w.stampAt.at && PeriodStart(k, w.stampAt) == from
    ensures BudgetOvershoot.Legal(k, from, t, QueriedSteps(w, t.log, r))
    ensures var end := BudgetOvershoot.After(k, from, t, QueriedSteps(w, t.log, r));
            end.log == (if WithinBudget(w, t.log) && w.waits && Successful(w) && !w.recordFails then t.log + [UsageEvent(w)] else t.log)
            && r in end.requests && !BudgetOvershoot.UnderWay(end.requests[r])
  {
    hide PeriodStart, WithinBudget, Successful, ServeSteps;
    if WithinBudget(w, t.log) {
      if w.waits {
        AdmittedIsLegal(w, k, from, t, r);
        hide BudgetOvershoot.After, BudgetOvershoot.Legal;
      } else {
        FirstStep(k, from, t, BudgetOvershoot.Abandon(r));
        hide BudgetOvershoot.After, BudgetOvershoot.Legal;
      }
    }
  }

  lemma CheckingIsLegal(w: World, k: ApiKey, from: int, t: BudgetOvershoot.Traffic, r: nat)
    requires w.key == Some(k) && r in t.requests && t.requests[r] == BudgetOvershoot.Checking(w.checkAt)
    requires t.now.at <= w.stampAt.at && PeriodStart(k, w.stampAt) == from
    ensures BudgetOvershoot.Legal(k, from, t, CheckSteps(w, t.log, r))
    ensures var end := BudgetOvershoot.After(k, from, t, CheckSteps(w, t.log, r));
            end.log == (if WithinBudget(w, t.log) && w.waits && Successful(w) && !w.recordFails then t.log + [UsageEvent(w)] else t.log)
            && r in end.requests && !BudgetOvershoot.UnderWay(end.requests[r])
  {
    hide PeriodStart, Successful, ServeSteps, BudgetOvershoot.PassesCheck, BudgetOvershoot.After, BudgetOvershoot.Legal, CheckBudget;
    if BudgetStatus(w, t.log).Err? {
      FirstStep(k, from, t, BudgetOvershoot.QueryFails(r));
    } else {
      CheckIsTheModels(w, k, t.log);
      QueriedIsLegal(w, k, from, BudgetOvershoot.Apply(k, from, t, BudgetOvershoot.Query(r)), r);
      StepThenRun(k, from, t, BudgetOvershoot.Query(r), QueriedSteps(w, t.log, r));
    }
  }

  /** The handler is one of the requests of the concurrent model: from any state of the
      traffic its steps are a legal run, and the store they leave is the handler's. */
  lemma HandlerFollowsTheModel(w: World, k: ApiKey, from: int, t: BudgetOvershoot.Traffic, windows: map<nat, Window>, r: nat)
    requires w.key == Some(k) && Rated(w, windows) && r !in t.requests && InOnePeriod(w, k, from, t.now)
    ensures BudgetOvershoot.Legal(k, from, t, StepsOf(w, t.log, r))
    ensures var end := BudgetOvershoot.After(k, from, t, StepsOf(w, t.log, r));
            end.log == (if Accounted(w, windows, t.log) && !w.recordFails then t.log + [UsageEvent(w)] else t.log)
            && r in end.requests && !BudgetOvershoot.UnderWay(end.requests[r])
  {
    hide PeriodStart, CheckSteps, Rated, WithinBudget, BudgetOvershoot.After, BudgetOvershoot.Legal;
    var run := [BudgetOvershoot.Tick(w.checkAt), BudgetOvershoot.ReadClock(r)];
    ClockIsRead(w, k, from, t, r);
    CheckingIsLegal(w, k, from, BudgetOvershoot.After(k, from, t, run), r);
    ThenRun(k, from, t, run, CheckSteps(w, t.log, r));
  }

  /** A check whose query came back says what the model's check says. */
  lemma CheckIsTheModels(w: World, k: ApiKey, log: seq<Event>)
    requires w.key == Some(k) && BudgetStatus(w, log).Ok?
    ensures WithinBudget(w, log) <==> BudgetOvershoot.PassesCheck(k, w.checkAt, log)
  {
    hide ReportWindows;
  }
}
