/**
 How one actor's snapshots reach its subscribers.  A channel holds one snapshot; the
 sender never waits.  Snapshots are numbered in the order they are published, 0 standing
 for "none yet".

 The three channel operations inside a send are separate steps, and receivers run
 between any two of them.  Publishing and priming hold the actor's lock from beginning
 to end.
 */
module SnapshotDelivery {
  import opened Wrappers

  /** Where the send in progress stands. */
  datatype Sending =
    | Idle
    | Put(ch: nat)         // about to try the channel
    | Drain(ch: nat)       // it was full: about to discard what it holds
    | PutAgain(ch: nat)    // about to try once more, giving the snapshot up if it is full

  datatype Lock =
    | Free
    | Held(todo: set<nat>, sending: Sending, priming: bool)

  datatype Actor = Actor(
    latest: nat,
    subs: set<nat>,
    gap: set<nat>,               // added, priming not yet begun
    buf: map<nat, nat>,          // what a full channel holds
    seen: map<nat, seq<nat>>,    // what the receiver of each channel ever added has read
    lock: Lock,
    gaveUp: bool)                // some send reached its last resort and lost its snapshot

  const NEW := Actor(0, {}, {}, map[], map[], Free, false)

  datatype Event =
    | AddSub(ch: nat)
    | RemoveSub(ch: nat)
    | BeginPublish
    | BeginPrime(ch: nat)
    | Pick(ch: nat)
    | Advance                    // the send in progress makes its next channel operation
    | Unlock
    | Receive(ch: nat)

  predicate Enabled(a: Actor, e: Event) {
    match e
    case AddSub(ch) => a.lock.Free? && ch !in a.seen
    case RemoveSub(ch) => a.lock.Free? && ch in a.subs - a.gap
    case BeginPublish => a.lock.Free?
    case BeginPrime(ch) => a.lock.Free? && ch in a.gap
    case Pick(ch) => a.lock.Held? && a.lock.sending.Idle? && ch in a.lock.todo
    case Advance => a.lock.Held? && !a.lock.sending.Idle?
    case Unlock => a.lock.Held? && a.lock.sending.Idle? && a.lock.todo == {}
    case Receive(ch) => ch in a.buf && ch in a.seen
  }

  function Stage(a: Actor, s: Sending): Actor
    requires a.lock.Held?
  {
    a.(lock := a.lock.(sending := s))
  }

  function NextOperation(a: Actor): Actor
    requires Enabled(a, Advance)
  {
    match a.lock.sending
    case Put(ch) =>
      if ch in a.buf then Stage(a, Drain(ch)) else Stage(a, Idle).(buf := a.buf[ch := a.latest])
    case Drain(ch) => Stage(a, PutAgain(ch)).(buf := a.buf - {ch})
    case PutAgain(ch) =>
      if ch in a.buf then Stage(a, Idle).(gaveUp := true) else Stage(a, Idle).(buf := a.buf[ch := a.latest])
  }

  function Apply(a: Actor, e: Event): Actor
    requires Enabled(a, e)
  {
    match e
    case AddSub(ch) => a.(subs := a.subs + {ch}, gap := a.gap + {ch}, seen := a.seen[ch := []])
    case RemoveSub(ch) => a.(subs := a.subs - {ch})
    case BeginPublish => a.(latest := a.latest + 1, lock := Held(a.subs, Idle, false))
    case BeginPrime(ch) =>
      a.(gap := a.gap - {ch}, lock := if a.latest == 0 then Free else Held({ch}, Idle, true))
    case Pick(ch) => a.(lock := Held(a.lock.todo - {ch}, Put(ch), a.lock.priming))
    case Advance => NextOperation(a)
    case Unlock => a.(lock := Free)
    case Receive(ch) => a.(buf := a.buf - {ch}, seen := a.seen[ch := a.seen[ch] + [a.buf[ch]]])
  }

  // ---------------------------------------------------------------- what a channel carries

  /** Everything read from a channel, then what it still holds. */
  function Stream(a: Actor, ch: nat): seq<nat>
    requires ch in a.seen
  {
    a.seen[ch] + (if ch in a.buf then [a.buf[ch]] else [])
  }

  function Last(s: seq<nat>): nat {
    if s == [] then 0 else s[|s| - 1]
  }

  predicate NeverBack(s: seq<nat>) {
    forall i, j | 0 <= i < j < |s| :: s[i] <= s[j]
  }

  /** How often a snapshot follows itself. */
  function Repeats(s: seq<nat>): nat {
    if |s| < 2 then 0 else
      Repeats(s[..|s| - 1]) + (if s[|s| - 2] == s[|s| - 1] then 1 else 0)
  }

  /** The lock holder still has to send to this channel. */
  predicate Due(a: Actor, ch: nat) {
    a.lock.Held? && (ch in a.lock.todo || (!a.lock.sending.Idle? && a.lock.sending.ch == ch))
  }

  predicate Carries(s: seq<nat>, bound: int, repeats: nat) {
    NeverBack(s) && Repeats(s) <= repeats && (forall i | 0 <= i < |s| :: 1 <= s[i] <= bound)
  }

  /** What is promised of a channel's stream `s`.  Before the lock holder's send, a
      publish is news to the channel; a priming may not be.  Afterwards its last item is
      the newest; a channel not primed yet has had every publish since it joined. */
  predicate Sound(s: seq<nat>, latest: nat, due: bool, priming: bool, inGap: bool, inSubs: bool) {
    if due then
      if priming then !inGap && Carries(s, latest, 0)
      else Carries(s, latest - 1, if inGap then 0 else 1)
    else
      && Carries(s, latest, if inGap then 0 else 1)
      && (inGap ==> s == [] || Last(s) == latest)
      && (inSubs && !inGap ==> Last(s) == latest)
  }

  predicate Priming(a: Actor) {
    a.lock.Held? && a.lock.priming
  }

  predicate ChannelSound(a: Actor, ch: nat)
    requires ch in a.seen
  {
    Sound(Stream(a, ch), a.latest, Due(a, ch), Priming(a), ch in a.gap, ch in a.subs)
  }

  predicate LockSound(a: Actor) {
    a.lock.Held? ==>
      && a.latest > 0
      && a.lock.todo <= a.subs
      && (!a.lock.sending.Idle? ==> a.lock.sending.ch in a.subs - a.lock.todo)
      && (a.lock.sending.PutAgain? ==> a.lock.sending.ch !in a.buf)
  }

  ghost predicate Inv(a: Actor) {
    && !a.gaveUp
    && a.gap <= a.subs <= a.seen.Keys
    && a.buf.Keys <= a.seen.Keys
    && LockSound(a)
    && (forall ch | ch in a.seen :: ChannelSound(a, ch))
  }

  lemma Shorter(s: seq<nat>, bound: int, repeats: nat)
    requires s != [] && Carries(s, bound, repeats)
    ensures Carries(s[..|s| - 1], bound, repeats)
  {
  }

  lemma Longer(s: seq<nat>, v: nat, bound: int, repeats: nat)
    requires Carries(s, bound, repeats) && bound <= v && 1 <= v
    ensures Carries(s + [v], v, if bound < v then repeats else repeats + 1)
    ensures Last(s + [v]) == v
  {
    assert (s + [v])[..|s|] == s;
  }

  lemma Widen(s: seq<nat>, bound: int, repeats: nat, bound': int, repeats': nat)
    requires Carries(s, bound, repeats) && bound <= bound' && repeats <= repeats'
    ensures Carries(s, bound', repeats')
  {
  }

  /** Bounds on what a channel still due to be sent to carries. */
  function DueBound(a: Actor): int {
    if Priming(a) then a.latest else a.latest - 1
  }

  function DueRepeats(a: Actor, ch: nat): nat {
    if Priming(a) || ch in a.gap then 0 else 1
  }

  lemma DueCarries(a: Actor, ch: nat)
    requires Inv(a) && ch in a.seen && Due(a, ch)
    ensures Carries(Stream(a, ch), DueBound(a), DueRepeats(a, ch)) && (Priming(a) ==> ch !in a.gap)
  {
    hide Carries, Due;
    assert ChannelSound(a, ch);
  }

  lemma SendingIsDue(a: Actor)
    requires Inv(a) && Enabled(a, Advance)
    ensures a.lock.sending.ch in a.seen && Due(a, a.lock.sending.ch) && a.latest > 0 && a.lock.sending.ch in a.subs
    ensures a.lock.sending.ch !in a.lock.todo
  {
  }

  /** Putting a snapshot in an empty channel keeps its promise: it is up to date. */
  lemma PutKeepsChannel(a: Actor)
    requires Inv(a) && Enabled(a, Advance) && !a.lock.sending.Drain? && a.lock.sending.ch !in a.buf
    ensures var ch := a.lock.sending.ch; ch in a.seen && ChannelSound(NextOperation(a), ch)
  {
    var ch := a.lock.sending.ch;
    SendingIsDue(a);
    DueCarries(a, ch);
    hide Carries, Inv;
    Longer(Stream(a, ch), a.latest, DueBound(a), DueRepeats(a, ch));
    assert Stream(NextOperation(a), ch) == Stream(a, ch) + [a.latest];
  }

  /** Draining a channel, or finding it full, leaves it due with no more than it carried. */
  lemma DrainKeepsChannel(a: Actor)
    requires Inv(a) && Enabled(a, Advance) && (a.lock.sending.Drain? || a.lock.sending.ch in a.buf)
    ensures var ch := a.lock.sending.ch; ch in a.seen && ChannelSound(NextOperation(a), ch)
  {
    var ch, t := a.lock.sending.ch, NextOperation(a);
    SendingIsDue(a);
    DueCarries(a, ch);
    hide Carries;
    if a.lock.sending.PutAgain? {
      assert false;
    }
    if a.lock.sending.Drain? && ch in a.buf {
      Shorter(Stream(a, ch), DueBound(a), DueRepeats(a, ch));
      assert Stream(t, ch) == Stream(a, ch)[..|Stream(a, ch)| - 1];
    } else {
      assert Stream(t, ch) == Stream(a, ch);
    }
    hide Inv, Stream;
    assert Due(t, ch) && Priming(t) == Priming(a) && t.gap == a.gap && t.latest == a.latest;
  }

  /** The channel operation in progress keeps its channel's promise. */
  lemma OperationKeepsChannel(a: Actor)
    requires Inv(a) && Enabled(a, Advance)
    ensures var ch := a.lock.sending.ch; ch in a.seen && ChannelSound(NextOperation(a), ch)
  {
    hide Inv, ChannelSound, NextOperation;
    if a.lock.sending.Drain? || a.lock.sending.ch in a.buf {
      DrainKeepsChannel(a);
    } else {
      PutKeepsChannel(a);
    }
  }

  /** A step that leaves a channel as it was keeps its promise. */
  lemma SameChannel(a: Actor, t: Actor, ch: nat)
    requires Inv(a) && ch in a.seen && ch in t.seen && Stream(t, ch) == Stream(a, ch) && t.latest == a.latest
    requires Due(t, ch) == Due(a, ch) && (Due(a, ch) ==> Priming(t) == Priming(a))
    requires (ch in t.gap <==> ch in a.gap) && (ch in t.subs ==> ch in a.subs)
    ensures ChannelSound(t, ch)
  {
    hide Carries, Due;
    assert ChannelSound(a, ch);
  }

  lemma AdvanceSparesOthers(a: Actor, ch: nat)
    requires Inv(a) && Enabled(a, Advance) && ch in a.seen && ch != a.lock.sending.ch
    ensures ChannelSound(NextOperation(a), ch)
  {
    hide ChannelSound, Inv;
    SameChannel(a, NextOperation(a), ch);
  }

  lemma AdvanceKeepsInv(a: Actor)
    requires Inv(a) && Enabled(a, Advance)
    ensures Inv(Apply(a, Advance))
  {
    var t := NextOperation(a);
    OperationKeepsChannel(a);
    hide ChannelSound;
    forall ch | ch in t.seen && ch != a.lock.sending.ch ensures ChannelSound(t, ch) {
      AdvanceSparesOthers(a, ch);
    }
  }

  lemma PublishKeepsInv(a: Actor)
    requires Inv(a) && Enabled(a, BeginPublish)
    ensures Inv(Apply(a, BeginPublish))
  {
    var t := Apply(a, BeginPublish);
    hide Carries;
    forall ch | ch in t.seen ensures ChannelSound(t, ch) {
      assert ChannelSound(a, ch);
      var s := Stream(a, ch);
      assert Stream(t, ch) == s;
      Widen(s, a.latest, if ch in a.gap then 0 else 1, a.latest + 1, if ch in a.gap then 0 else 1);
    }
  }

  lemma ReceiveKeepsInv(a: Actor, ch: nat)
    requires Inv(a) && Enabled(a, Receive(ch))
    ensures Inv(Apply(a, Receive(ch)))
  {
    var t := Apply(a, Receive(ch));
    hide ChannelSound;
    forall c | c in t.seen ensures ChannelSound(t, c) {
      assert Stream(t, c) == Stream(a, c);
      SameChannel(a, t, c);
    }
  }

  lemma BeginPrimeKeepsInv(a: Actor, ch: nat)
    requires Inv(a) && Enabled(a, BeginPrime(ch))
    ensures Inv(Apply(a, BeginPrime(ch)))
  {
    var t := Apply(a, BeginPrime(ch));
    hide ChannelSound, Carries;
    forall c | c in t.seen ensures ChannelSound(t, c) {
      if c != ch {
        SameChannel(a, t, c);
      } else {
        PrimingIsDue(a, ch);
      }
    }
  }

  lemma PrimingIsDue(a: Actor, ch: nat)
    requires Inv(a) && Enabled(a, BeginPrime(ch))
    ensures ChannelSound(Apply(a, BeginPrime(ch)), ch)
  {
    var t := Apply(a, BeginPrime(ch));
    assert ChannelSound(a, ch);
    assert Stream(t, ch) == Stream(a, ch);
  }

  lemma AddSubKeepsInv(a: Actor, ch: nat)
    requires Inv(a) && Enabled(a, AddSub(ch))
    ensures Inv(Apply(a, AddSub(ch)))
  {
    var t := Apply(a, AddSub(ch));
    hide Carries;
    forall c | c in t.seen ensures ChannelSound(t, c) {
      if c != ch {
        SameChannel(a, t, c);
      } else {
        NothingCarried(t.latest);
        assert Stream(t, ch) == [];
      }
    }
  }

  lemma LockStepKeepsInv(a: Actor, e: Event)
    requires Inv(a) && Enabled(a, e) && (e.RemoveSub? || e.Pick? || e.Unlock?)
    ensures Inv(Apply(a, e))
  {
    var t := Apply(a, e);
    hide ChannelSound;
    forall c | c in t.seen ensures ChannelSound(t, c) {
      SameChannel(a, t, c);
    }
  }

  lemma StepKeepsInv(a: Actor, e: Event)
    requires Inv(a) && Enabled(a, e)
    ensures Inv(Apply(a, e))
  {
    hide Inv, Apply, Enabled;
    match e
    case AddSub(ch) => AddSubKeepsInv(a, ch);
    case BeginPublish => PublishKeepsInv(a);
    case BeginPrime(ch) => BeginPrimeKeepsInv(a, ch);
    case Advance => AdvanceKeepsInv(a);
    case Receive(ch) => ReceiveKeepsInv(a, ch);
    case _ => LockStepKeepsInv(a, e);
  }

  lemma NothingCarried(bound: int)
    ensures Carries([], bound, 0)
  {
  }

  // ---------------------------------------------------------------- runs

  ghost predicate Legal(run: seq<Event>)
    decreases |run|, 0
  {
    run == [] || (Legal(run[..|run| - 1]) && Enabled(After(run[..|run| - 1]), run[|run| - 1]))
  }

  ghost function After(run: seq<Event>): Actor
    requires Legal(run)
    decreases |run|, 1
  {
    if run == [] then NEW else Apply(After(run[..|run| - 1]), run[|run| - 1])
  }

  lemma {:induction false} RunKeepsInv(run: seq<Event>)
    requires Legal(run)
    ensures Inv(After(run))
    decreases |run|
  {
    if run != [] {
      RunKeepsInv(run[..|run| - 1]);
      StepKeepsInv(After(run[..|run| - 1]), run[|run| - 1]);
    }
  }

  /** The branch of a send that would lose its snapshot is never taken: at the second
      attempt the channel is empty, because every sender holds the lock. */
  lemma {:induction false} NoSendGivesUp(run: seq<Event>)
    requires Legal(run)
    ensures var a := After(run);
            !a.gaveUp && (a.lock.Held? && a.lock.sending.PutAgain? ==> a.lock.sending.ch !in a.buf)
  {
    RunKeepsInv(run);
  }

  /** Whenever no send is under way, a primed subscriber has the newest snapshot waiting
      or has read it; one not primed yet has that, or nothing at all. */
  lemma NewestIsWaitingOrRead(run: seq<Event>, ch: nat)
    requires Legal(run) && After(run).lock.Free? && ch in After(run).subs
    ensures var a := After(run);
            && ch in a.seen
            && (ch in a.buf ==> a.buf[ch] == a.latest)
            && (ch !in a.buf && (ch !in a.gap || a.seen[ch] != []) ==> Last(a.seen[ch]) == a.latest)
  {
    RunKeepsInv(run);
    hide After, Legal, Carries;
    assert ChannelSound(After(run), ch);
  }

  /** No subscriber ever reads an older snapshot after a newer one, and at most one
      snapshot in its whole life is read twice. */
  lemma ReadsNeverGoBack(run: seq<Event>, ch: nat)
    requires Legal(run) && ch in After(run).seen
    ensures NeverBack(After(run).seen[ch]) && Repeats(After(run).seen[ch]) <= 1
  {
    RunKeepsInv(run);
    hide After, Legal;
    var a := After(run);
    assert ChannelSound(a, ch);
    var s := Stream(a, ch);
    if ch in a.buf {
      Shorter(s, a.latest, 1);
      assert s[..|s| - 1] == a.seen[ch];
    } else {
      assert s == a.seen[ch];
    }
  }

  // ---------------------------------------------------------------- sending never waits

  /** Channel operations the lock holder has left, at most. */
  function WorkLeft(l: Lock): nat {
    match l
    case Free => 0
    case Held(todo, sending, _) =>
      1 + 4 * |todo| + (match sending case Idle => 0 case Put(_) => 3 case Drain(_) => 2 case PutAgain(_) => 1)
  }

  /** A send never waits for a receiver: while the lock is held, its holder has a step
      to take. */
  lemma SendingNeverWaits(a: Actor)
    requires a.lock.Held?
    ensures exists step: Event :: (step.Pick? || step.Advance? || step.Unlock?) && Enabled(a, step)
  {
    if !a.lock.sending.Idle? {
      assert Enabled(a, Advance);
    } else if a.lock.todo == {} {
      assert Enabled(a, Unlock);
    } else {
      InhabitedNat(a.lock.todo);
      var ch :| ch in a.lock.todo;
      assert Enabled(a, Pick(ch));
    }
  }

  /** And it finishes within four steps a subscriber, whatever the receivers do: every
      step the holder takes leaves less to do, and receiving never adds to it. */
  lemma EveryStepLeavesLess(a: Actor, e: Event)
    requires a.lock.Held? && Enabled(a, e)
    ensures if e.Receive? then WorkLeft(Apply(a, e).lock) == WorkLeft(a.lock)
            else WorkLeft(Apply(a, e).lock) < WorkLeft(a.lock)
  {
    if e.Pick? {
      assert |a.lock.todo - {e.ch}| == |a.lock.todo| - 1;
    }
  }

  /** Nothing the program can do next is ruled out: with the lock free anybody can join, a
      subscriber can be primed or, if it has been, leave, and the actor can publish; and a
      receiver can always read what its channel holds. */
  lemma NothingIsRuledOut(a: Actor, ch: nat)
    requires Inv(a)
    ensures a.lock.Free? ==>
              && Enabled(a, BeginPublish) && (ch !in a.seen ==> Enabled(a, AddSub(ch)))
              && (ch in a.subs ==> Enabled(a, if ch in a.gap then BeginPrime(ch) else RemoveSub(ch)))
    ensures ch in a.buf ==> Enabled(a, Receive(ch))
  {
    hide ChannelSound;
  }

  // ---------------------------------------------------------------- the one repeat

  /** A subscriber that joins while a publish is imminent can read one snapshot twice:
      once from the publish, once more from its priming. */
  lemma JoiningCanReadTwice()
    ensures exists run :: Legal(run) && 0 in After(run).seen && After(run).seen[0] == [1, 1]
  {
    var run0: seq<Event> := [];
    var run1 := Step(run0, AddSub(0));
    var run2 := Step(run1, BeginPublish);
    var run3 := Step(run2, Pick(0));
    var run4 := Step(run3, Advance);
    var run5 := Step(run4, Unlock);
    var run6 := Step(run5, Receive(0));
    var run7 := Step(run6, BeginPrime(0));
    var run8 := Step(run7, Pick(0));
    var run9 := Step(run8, Advance);
    var run10 := Step(run9, Receive(0));
    assert After(run10).seen[0] == [1, 1];
  }

  lemma Step(run: seq<Event>, e: Event) returns (longer: seq<Event>)
    requires Legal(run) && Enabled(After(run), e)
    ensures longer == run + [e] && Legal(longer) && After(longer) == Apply(After(run), e)
  {
    longer := run + [e];
    assert longer[..|run|] == run;
  }

  // ---------------------------------------------------------------- a send that nothing interrupts

  /** `run` leads from `a` to `b`. */
  ghost predicate Leads(a: Actor, run: seq<Event>, b: Actor)
    decreases |run|
  {
    if run == [] then a == b else Enabled(a, run[0]) && Leads(Apply(a, run[0]), run[1..], b)
  }

  lemma {:induction false} LeadsOn(a: Actor, first: seq<Event>, b: Actor, next: seq<Event>, c: Actor)
    requires Leads(a, first, b) && Leads(b, next, c)
    ensures Leads(a, first + next, c)
    decreases |first|
  {
    hide Enabled, Apply;
    if first == [] {
      assert first + next == next;
    } else {
      assert (first + next)[1..] == first[1..] + next;
      LeadsOn(Apply(a, first[0]), first[1..], b, next, c);
    }
  }

  /** From a reachable state, such a run goes on to another. */
  lemma {:induction false} ContinuesTheRun(before: seq<Event>, run: seq<Event>, b: Actor)
    requires Legal(before) && Leads(After(before), run, b)
    ensures Legal(before + run) && After(before + run) == b
    decreases |run|
  {
    hide Enabled, Apply;
    if run == [] {
      assert before + run == before;
    } else {
      var longer := Step(before, run[0]);
      ContinuesTheRun(longer, run[1..], b);
      assert longer + run[1..] == before + run;
    }
  }

  /** The channel operations of one send: one if the channel is empty, three if it is full. */
  function SendRun(ch: nat, full: bool): seq<Event> {
    [Pick(ch)] + if full then [Advance, Advance, Advance] else [Advance]
  }

  function Sent(a: Actor, ch: nat): Actor
    requires a.lock.Held?
  {
    a.(lock := Held(a.lock.todo - {ch}, Idle, a.lock.priming), buf := a.buf[ch := a.latest])
  }

  lemma OneStepLeads(a: Actor, e: Event)
    requires Enabled(a, e)
    ensures Leads(a, [e], Apply(a, e))
  {
    assert [e][1..] == [];
  }

  lemma SendLeads(a: Actor, ch: nat)
    requires Enabled(a, Pick(ch))
    ensures Leads(a, SendRun(ch, ch in a.buf), Sent(a, ch))
  {
    var b := Apply(a, Pick(ch));
    OneStepLeads(a, Pick(ch));
    var c := Apply(b, Advance);
    OneStepLeads(b, Advance);
    hide Leads;
    if ch in a.buf {
      var d := Apply(c, Advance);
      OneStepLeads(c, Advance);
      OneStepLeads(d, Advance);
      assert Apply(d, Advance).buf == a.buf[ch := a.latest];
      LeadsOn(b, [Advance], c, [Advance], d);
      LeadsOn(b, [Advance] + [Advance], d, [Advance], Sent(a, ch));
      assert [Advance] + [Advance] + [Advance] == [Advance, Advance, Advance];
      LeadsOn(a, [Pick(ch)], b, [Advance, Advance, Advance], Sent(a, ch));
    } else {
      LeadsOn(a, [Pick(ch)], b, [Advance], Sent(a, ch));
    }
  }

  /** What the channels hold once `v` has been sent to all of `todo`. */
  function Filled(buf: map<nat, nat>, todo: set<nat>, v: nat): map<nat, nat> {
    map ch | ch in buf.Keys + todo :: if ch in todo then v else buf[ch]
  }

  /** The steps of one lock section. */
  predicate OneSection(run: seq<Event>) {
    run != [] && run[|run| - 1] == Unlock && forall i | 0 <= i < |run| - 1 :: run[i].Pick? || run[i].Advance?
  }

  lemma SectionGrows(ch: nat, full: bool, rest: seq<Event>)
    requires OneSection(rest)
    ensures OneSection(SendRun(ch, full) + rest)
  {
  }

  lemma FilledOneByOne(buf: map<nat, nat>, todo: set<nat>, ch: nat, v: nat)
    requires ch in todo
    ensures Filled(buf[ch := v], todo - {ch}, v) == Filled(buf, todo, v)
  {
  }

  lemma {:induction false} SendingLeads(a: Actor) returns (run: seq<Event>)
    requires a.lock.Held? && a.lock.sending.Idle?
    ensures OneSection(run) && Leads(a, run, a.(lock := Free, buf := Filled(a.buf, a.lock.todo, a.latest)))
    decreases if a.lock.Held? then |a.lock.todo| else 0
  {
    if a.lock.todo == {} {
      run := [Unlock];
      OneStepLeads(a, Unlock);
      assert Filled(a.buf, {}, a.latest) == a.buf;
    } else {
      InhabitedNat(a.lock.todo);
      var ch :| ch in a.lock.todo;
      var b := Sent(a, ch);
      assert |b.lock.todo| == |a.lock.todo| - 1;
      SendLeads(a, ch);
      hide Leads, OneSection, SendRun, Filled;
      var rest := SendingLeads(b);
      run := SendRun(ch, ch in a.buf) + rest;
      LeadsOn(a, SendRun(ch, ch in a.buf), b, rest, b.(lock := Free, buf := Filled(b.buf, b.lock.todo, b.latest)));
      SectionGrows(ch, ch in a.buf, rest);
      FilledOneByOne(a.buf, a.lock.todo, ch, a.latest);
    }
  }

  /** The state a publish leaves. */
  function Published(a: Actor): Actor {
    a.(latest := a.latest + 1, buf := Filled(a.buf, a.subs, a.latest + 1))
  }

  /** The state a priming leaves: nothing to send before the first publish. */
  function Primed(a: Actor, ch: nat): Actor {
    a.(gap := a.gap - {ch}, buf := if a.latest == 0 then a.buf else a.buf[ch := a.latest])
  }

  /** A publish that no receiver interrupts begins, sends to each subscriber, and unlocks. */
  lemma PublishLeads(a: Actor) returns (run: seq<Event>)
    requires a.lock.Free?
    ensures run != [] && run[0] == BeginPublish && OneSection(run[1..]) && Leads(a, run, Published(a))
  {
    var b := Apply(a, BeginPublish);
    var rest := SendingLeads(b);
    run := [BeginPublish] + rest;
    assert run[1..] == rest;
  }

  /** So does a priming, once something has been published. */
  lemma PrimingLeads(a: Actor, ch: nat) returns (run: seq<Event>)
    requires Enabled(a, BeginPrime(ch))
    ensures run != [] && run[0] == BeginPrime(ch) && Leads(a, run, Primed(a, ch))
    ensures if a.latest == 0 then run == [BeginPrime(ch)] else OneSection(run[1..])
  {
    var b := Apply(a, BeginPrime(ch));
    if a.latest == 0 {
      run := [BeginPrime(ch)];
      OneStepLeads(a, BeginPrime(ch));
    } else {
      var rest := SendingLeads(b);
      run := [BeginPrime(ch)] + rest;
      assert run[1..] == rest;
      assert Filled(a.buf, {ch}, a.latest) == a.buf[ch := a.latest];
    }
  }
}
