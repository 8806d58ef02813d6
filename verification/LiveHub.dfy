/**
 The live hub as the program keeps it: a map of actors, each with its subscribers'
 channels, its last snapshot and its credit buffer.  The ghost field `view` is the state
 of the registry, and the contracts of Subscribe and Cancel say which of its steps they
 were.
 */
module LiveHub {
  import opened HubRegistry
  import opened UsageReport
  import opened Wrappers
  import ReadModel
  import SnapshotDelivery

  datatype Snapshot = Snapshot(key: nat, report: Report, at: int)

  /** A channel of capacity one.  Its number stands for its identity. */
  class Channel {
    const number: nat
    var buf: Option<Snapshot>

    constructor (n: nat)
      ensures number == n && buf == None
    {
      number, buf := n, None;
    }

    /** Delivers without waiting: an unread snapshot makes way for the newer one. */
    method Send(snap: Snapshot)
      modifies `buf
      ensures buf == Some(snap)
    {
      if buf.None? {
        buf := Some(snap);
      } else {
        if buf.Some? {
          buf := None;
        }
        if buf.None? {
          buf := Some(snap);
        }
      }
    }
  }

  /** A credit joins the buffer if there is room, and is dropped otherwise. */
  predicate Taken(before: seq<nat>, tokens: nat, after: seq<nat>) {
    after == if |before| < ReadModel.BUFFER_CAP then before + [tokens] else before
  }

  // ---------------------------------------------------------------- the actor beside its model

  /** An actor's report, its last published figures and its credit buffer are those of
      the read model `m`. */
  ghost predicate Shows(report: Report, latest: Report, credits: seq<nat>, m: ReadModel.Actor) {
    && report == m.report && latest == m.latest && |credits| == |m.buffer|
    && forall j: nat | j < |credits| :: m.buffer[j] < |m.log| && credits[j] == m.log[m.buffer[j]].tokens
  }

  /** In the model, the credit of event `i`, worth `tokens`, is ready to be published. */
  predicate Publishes(m: ReadModel.Actor, i: nat, tokens: nat) {
    ReadModel.Enabled(m, ReadModel.Publish(i)) && i < |m.log| && m.log[i].tokens == tokens
  }

  /** In the model, the load under way ends now, with this outcome. */
  predicate Loads(key: nat, m: ReadModel.Actor, loaded: Result<Report, string>) {
    m.phase.Loading? && (loaded.Ok? ==> |m.phase.sums| == 4 && ReadModel.Queried(key, m).report == loaded.value)
  }

  function LoadEnd(loaded: Result<Report, string>): ReadModel.Step {
    if loaded.Ok? then ReadModel.Query else ReadModel.QueryFails
  }

  lemma PublishShows(key: nat, report: Report, latest: Report, before: seq<nat>, after: seq<nat>,
                     m: ReadModel.Actor, i: nat, tokens: nat)
    requires Shows(report, latest, before, m) && Publishes(m, i, tokens) && Taken(before, tokens, after)
    ensures Shows(report, latest, after, ReadModel.Apply(key, m, ReadModel.Publish(i)))
  {
  }

  lemma ApplyCreditShows(key: nat, report: Report, latest: Report, credits: seq<nat>, m: ReadModel.Actor)
    requires Shows(report, latest, credits, m) && credits != [] && ReadModel.Enabled(m, ReadModel.ApplyCredit)
    ensures var r := ReadModel.Credited(report, credits[0]);
            Shows(r, r, credits[1..], ReadModel.Apply(key, m, ReadModel.ApplyCredit))
  {
  }

  lemma LoadEndShows(key: nat, report: Report, latest: Report, credits: seq<nat>, m: ReadModel.Actor, loaded: Result<Report, string>)
    requires Shows(report, latest, credits, m) && Loads(key, m, loaded)
    ensures var r := if loaded.Ok? then loaded.value else latest;
            Shows(r, r, credits, ReadModel.Apply(key, m, LoadEnd(loaded)))
  {
    hide ReportWindows, SumTokens;
  }

  /** A write to the store leaves the actor as it was. */
  lemma WriteShows(key: nat, report: Report, latest: Report, credits: seq<nat>, m: ReadModel.Actor, e: Event)
    requires Shows(report, latest, credits, m) && ReadModel.Enabled(m, ReadModel.Write(e))
    ensures Shows(report, latest, credits, ReadModel.Apply(key, m, ReadModel.Write(e)))
  {
  }

  // ---------------------------------------------------------------- the actor beside its deliveries

  /** An actor's subscribers, and what their channels hold, are those of the delivery model
      `d`, whose snapshot numbers stand for the snapshots published so far. */
  ghost predicate Holds(bufs: map<nat, Option<Snapshot>>, latest: Snapshot, primed: bool,
                        d: SnapshotDelivery.Actor, published: seq<Snapshot>) {
    && d.lock.Free? && d.subs == bufs.Keys && d.latest == |published| && (primed <==> published != [])
    && (primed ==> latest == published[|published| - 1])
    && (forall n | n in bufs :: bufs[n].Some? <==> n in d.buf)
    && (forall n | n in bufs && n in d.buf :: 1 <= d.buf[n] <= |published| && bufs[n] == Some(published[d.buf[n] - 1]))
  }

  lemma PublishHolds(bufs: map<nat, Option<Snapshot>>, latest: Snapshot, primed: bool, after: map<nat, Option<Snapshot>>,
                     snap: Snapshot, d: SnapshotDelivery.Actor, published: seq<Snapshot>)
    requires Holds(bufs, latest, primed, d, published)
    requires after.Keys == bufs.Keys && forall n | n in after :: after[n] == Some(snap)
    ensures Holds(after, snap, true, SnapshotDelivery.Published(d), published + [snap])
  {
  }

  lemma PrimingHolds(bufs: map<nat, Option<Snapshot>>, latest: Snapshot, primed: bool, n: nat,
                     d: SnapshotDelivery.Actor, published: seq<Snapshot>)
    requires Holds(bufs, latest, primed, d, published) && n in bufs
    ensures Holds(if primed then bufs[n := Some(latest)] else bufs, latest, primed, SnapshotDelivery.Primed(d, n), published)
  {
  }

  lemma JoiningHolds(bufs: map<nat, Option<Snapshot>>, latest: Snapshot, primed: bool, n: nat,
                     d: SnapshotDelivery.Actor, published: seq<Snapshot>)
    requires Holds(bufs, latest, primed, d, published)
    requires SnapshotDelivery.Enabled(d, SnapshotDelivery.AddSub(n)) && n !in d.buf
    ensures Holds(bufs[n := None], latest, primed, SnapshotDelivery.Apply(d, SnapshotDelivery.AddSub(n)), published)
  {
  }

  lemma LeavingHolds(bufs: map<nat, Option<Snapshot>>, latest: Snapshot, primed: bool, n: nat,
                     d: SnapshotDelivery.Actor, published: seq<Snapshot>)
    requires Holds(bufs, latest, primed, d, published) && SnapshotDelivery.Enabled(d, SnapshotDelivery.RemoveSub(n))
    ensures Holds(bufs - {n}, latest, primed, SnapshotDelivery.Apply(d, SnapshotDelivery.RemoveSub(n)), published)
  {
  }

  class KeyActor {
    const keyID: nat
    var subs: map<nat, Channel>    // by channel number
    var report: Report             // the running actor's own
    var latest: Snapshot
    var primed: bool
    var credits: seq<nat>
    var done: bool

    ghost predicate Mirrors(m: ReadModel.Actor)
      reads `report, `latest, `credits
    {
      Shows(report, latest.report, credits, m)
    }

    /** What the subscribers' channels hold. */
    ghost function Bufs(): map<nat, Option<Snapshot>>
      reads `subs, subs.Values`buf
    {
      map n | n in subs :: subs[n].buf
    }

    ghost predicate Delivers(d: SnapshotDelivery.Actor, published: seq<Snapshot>)
      reads `latest, `primed, `subs, subs.Values`buf
    {
      Holds(Bufs(), latest, primed, d, published)
    }

    /** Whether `ch` is a subscriber, under its own number only. */
    ghost predicate Subscribed(ch: Channel)
      reads `subs
    {
      ch.number in subs && forall n | n in subs :: subs[n] == ch <==> n == ch.number
    }

    constructor (key: nat)
      ensures Delivers(SnapshotDelivery.NEW, [])
      ensures forall m: ReadModel.Actor | m.report == m.latest == ReadModel.ZERO && m.buffer == [] :: Mirrors(m)
      ensures keyID == key && subs == map[] && credits == [] && !primed && !done
      ensures report == latest.report == ReadModel.ZERO
    {
      keyID, subs, report, primed, credits, done := key, map[], ReadModel.ZERO, false, [], false;
      latest := Snapshot(0, ReadModel.ZERO, 0);
    }

    method AddSub(ch: Channel)
      modifies `subs
      ensures subs == old(subs)[ch.number := ch]
      ensures forall d, published | old(Delivers(d, published)) && ch.buf == None && ch.number !in d.buf
                                    && SnapshotDelivery.Enabled(d, SnapshotDelivery.AddSub(ch.number)) ::
                Delivers(SnapshotDelivery.Apply(d, SnapshotDelivery.AddSub(ch.number)), published)
    {
      ghost var before := Bufs();
      subs := subs[ch.number := ch];
      forall d, published | old(Delivers(d, published)) && ch.buf == None && ch.number !in d.buf
                            && SnapshotDelivery.Enabled(d, SnapshotDelivery.AddSub(ch.number))
        ensures Delivers(SnapshotDelivery.Apply(d, SnapshotDelivery.AddSub(ch.number)), published)
      {
        JoiningHolds(before, latest, primed, ch.number, d, published);
        assert Bufs() == before[ch.number := None];
      }
    }

    method RemoveSub(number: nat) returns (remaining: nat)
      modifies `subs
      ensures subs == old(subs) - {number} && remaining == |subs|
      ensures forall d, published | old(Delivers(d, published)) && SnapshotDelivery.Enabled(d, SnapshotDelivery.RemoveSub(number)) ::
                Delivers(SnapshotDelivery.Apply(d, SnapshotDelivery.RemoveSub(number)), published)
    {
      ghost var before := Bufs();
      subs := subs - {number};
      remaining := |subs|;
      forall d, published | old(Delivers(d, published)) && SnapshotDelivery.Enabled(d, SnapshotDelivery.RemoveSub(number))
        ensures Delivers(SnapshotDelivery.Apply(d, SnapshotDelivery.RemoveSub(number)), published)
      {
        LeavingHolds(before, latest, primed, number, d, published);
        assert Bufs() == before - {number};
      }
    }

    /** Gives a joining channel what was published last.  It is the delivery model's priming. */
    method PrimeSub(ch: Channel)
      modifies ch`buf
      ensures ch.buf == if primed then Some(latest) else old(ch.buf)
      ensures forall d, published | old(Delivers(d, published)) && Subscribed(ch) ::
                Delivers(SnapshotDelivery.Primed(d, ch.number), published)
    {
      ghost var before := Bufs();
      if primed {
        ch.Send(latest);
      }
      forall d, published | old(Delivers(d, published)) && Subscribed(ch)
        ensures Delivers(SnapshotDelivery.Primed(d, ch.number), published)
      {
        PrimingHolds(before, latest, primed, ch.number, d, published);
        assert Bufs() == if primed then before[ch.number := Some(latest)] else before;
      }
    }

    /** Records the new state and fans it out: every subscriber's channel then holds it.  It
        is the delivery model's publish. */
    method Publish(at: int)
      modifies `latest, `primed, subs.Values`buf
      ensures latest == Snapshot(keyID, report, at) && primed
      ensures forall n | n in subs :: subs[n].buf == Some(latest)
      ensures forall d, published | old(Delivers(d, published)) :: Delivers(SnapshotDelivery.Published(d), published + [latest])
    {
      ghost var before, last, was := Bufs(), latest, primed;
      latest, primed := Snapshot(keyID, report, at), true;
      var todo := subs.Keys;
      while todo != {}
        invariant todo <= subs.Keys
        invariant forall n | n in subs && n !in todo :: subs[n].buf == Some(latest)
        modifies subs.Values`buf
        decreases todo
      {
        InhabitedNat(todo);
        var n :| n in todo;
        subs[n].Send(latest);
        todo := todo - {n};
      }
      forall d, published | old(Delivers(d, published))
        ensures Delivers(SnapshotDelivery.Published(d), published + [latest])
      {
        PublishHolds(before, last, was, Bufs(), latest, d, published);
      }
    }

    /** The running actor takes the oldest credit: only the three open buckets move.  It
        is the read model's ApplyCredit. */
    method ApplyCredit(at: int)
      requires credits != []
      modifies `credits, `report, `latest, `primed, subs.Values`buf
      ensures credits == old(credits[1..]) && report == ReadModel.Credited(old(report), old(credits[0]))
      ensures forall m | old(Mirrors(m)) && ReadModel.Enabled(m, ReadModel.ApplyCredit) ::
                Mirrors(ReadModel.Apply(keyID, m, ReadModel.ApplyCredit))
      ensures latest == Snapshot(keyID, report, at) && primed
      ensures forall n | n in subs :: subs[n].buf == Some(latest)
    {
      var tokens := credits[0];
      credits := credits[1..];
      report := report.(today := report.today + tokens);
      report := report.(thisWeek := report.thisWeek + tokens);
      report := report.(thisMonth := report.thisMonth + tokens);
      Publish(at);
      forall m | old(Mirrors(m)) && ReadModel.Enabled(m, ReadModel.ApplyCredit)
        ensures Mirrors(ReadModel.Apply(keyID, m, ReadModel.ApplyCredit))
      {
        ApplyCreditShows(keyID, old(report), old(latest.report), old(credits), m);
      }
    }

    /** The running actor reloads; if the store fails it keeps the last figures.  It is the
        end of the read model's load. */
    method Resync(loaded: Result<Report, string>, at: int)
      modifies `report, `latest, `primed, subs.Values`buf
      ensures report == if loaded.Ok? then loaded.value else old(latest.report)
      ensures forall m | old(Mirrors(m)) && Loads(keyID, m, loaded) :: Mirrors(ReadModel.Apply(keyID, m, LoadEnd(loaded)))
      ensures latest == Snapshot(keyID, report, at) && primed
      ensures forall n | n in subs :: subs[n].buf == Some(latest)
    {
      report := if loaded.Ok? then loaded.value else latest.report;
      Publish(at);
      forall m | old(Mirrors(m)) && Loads(keyID, m, loaded) ensures Mirrors(ReadModel.Apply(keyID, m, LoadEnd(loaded))) {
        LoadEndShows(keyID, old(report), old(latest.report), old(credits), m, loaded);
      }
    }

    /** Never waits: with the buffer full the credit is dropped.  It is the read model's
        Publish. */
    method Credit(tokens: nat)
      modifies `credits
      ensures Taken(old(credits), tokens, credits)
      ensures forall m, i | old(Mirrors(m)) && Publishes(m, i, tokens) :: Mirrors(ReadModel.Apply(keyID, m, ReadModel.Publish(i)))
    {
      if |credits| < ReadModel.BUFFER_CAP {
        credits := credits + [tokens];
      }
      forall m, i | old(Mirrors(m)) && Publishes(m, i, tokens)
        ensures Mirrors(ReadModel.Apply(keyID, m, ReadModel.Publish(i)))
      {
        PublishShows(keyID, report, latest.report, old(credits), credits, m, i, tokens);
      }
    }

    /** Closing a closed channel would panic. */
    method Stop()
      requires !done
      modifies `done
      ensures done
    {
      done := true;
    }
  }

  // ---------------------------------------------------------------- what each step does to the sets

  /** The channels the registry puts on a key's actor. */
  ghost function SubsOf(r: Registry, key: nat): set<nat> {
    if key in r.keys && r.keys[key] < |r.actors| then r.actors[r.keys[key]].subs else {}
  }

  ghost predicate OwnActors(r: Registry) {
    InRange(r) && forall k, m | k in r.keys && m in r.keys && k != m :: r.keys[k] != r.keys[m]
  }

  lemma InvFacts(r: Registry)
    requires HubRegistry.Inv(r)
    ensures InRange(r) && OwnActors(r)
  {
    assert forall k | k in r.keys :: r.actors[r.keys[k]].key == k;
  }

  /** From `r` to `t` nothing changed for any key but this one. */
  ghost predicate OthersSame(r: Registry, t: Registry, key: nat) {
    forall k | k != key :: (k in t.keys <==> k in r.keys) && SubsOf(t, k) == SubsOf(r, k)
  }

  lemma StartedSubs(r: Registry, key: nat)
    requires OwnActors(r) && InRange(r) && key !in r.keys
    ensures var t := Started(r, key);
            && OwnActors(t) && InRange(t) && t.viewers == r.viewers && OthersSame(r, t, key)
            && key in t.keys && SubsOf(t, key) == {}
  {
  }

  lemma JoinedSubs(r: Registry, key: nat)
    requires OwnActors(r) && InRange(r) && key in r.keys
    ensures var t := Joined(r, key);
            && OwnActors(t) && InRange(t) && t.viewers == r.viewers + [Viewer(key, false)] && OthersSame(r, t, key)
            && key in t.keys && SubsOf(t, key) == SubsOf(r, key) + {|r.viewers|}
  {
  }

  lemma UnsubscribedSubs(r: Registry, key: nat, n: nat)
    requires OwnActors(r) && InRange(r) && key in r.keys
    ensures var t, left := Unsubscribed(r, key, n), SubsOf(r, key) - {n};
            && OwnActors(t) && InRange(t) && t.viewers == r.viewers && OthersSame(r, t, key)
            && (key in t.keys <==> left != {}) && (left != {} ==> SubsOf(t, key) == left)
  {
  }

  /** `spent` are the channels whose cancel has run. */
  ghost predicate SpentMatch(spent: set<nat>, viewers: seq<Viewer>) {
    (forall n | n in spent :: n < |viewers|) && forall n: nat | n < |viewers| :: viewers[n].cancelled <==> n in spent
  }

  lemma SubscribeFacts(r: Registry, key: nat, spent: set<nat>)
    requires HubRegistry.Inv(r) && SpentMatch(spent, r.viewers)
    ensures var t := Joined(Started(r, key), key);
            && SpentMatch(spent, t.viewers) && |t.viewers| == |r.viewers| + 1
            && Started(r, key).viewers == r.viewers && (key in r.keys ==> Started(r, key) == r)
            && t == HubRegistry.Apply(r, HubRegistry.Subscribe(key))
  {
  }

  ghost function Flagged(r: Registry, n: nat): Registry
    requires n < |r.viewers|
  {
    r.(viewers := r.viewers[n := r.viewers[n].(cancelled := true)])
  }

  /** The viewers' flags are no concern of the actors. */
  lemma FlagKeepsSubs(r: Registry, n: nat, spent: set<nat>)
    requires OwnActors(r) && InRange(r) && SpentMatch(spent, r.viewers) && n < |r.viewers|
    ensures n in spent <==> r.viewers[n].cancelled
    ensures var t := Flagged(r, n);
            && OwnActors(t) && InRange(t) && t.keys == r.keys && (forall k :: SubsOf(t, k) == SubsOf(r, k))
            && SpentMatch(spent + {n}, t.viewers)
            && forall key :: Unsubscribed(t, key, n).viewers == t.viewers
  {
  }

  /** A cancel that has not run is a flag and an unsubscribe. */
  lemma CancelFacts(r: Registry, spent: set<nat>, n: nat)
    requires HubRegistry.Inv(r) && SpentMatch(spent, r.viewers) && n < |r.viewers|
    ensures InRange(r) && InRange(Flagged(r, n)) && (n in spent <==> r.viewers[n].cancelled)
    ensures n in spent ==> Cancelled(r, n) == r
    ensures n !in spent ==>
              var t := Unsubscribed(Flagged(r, n), r.viewers[n].key, n);
              t == Cancelled(r, n) && HubRegistry.Inv(t) && SpentMatch(spent + {n}, t.viewers) && |t.viewers| == |r.viewers|
  {
    CancelKeepsInv(r, n);
    InvFacts(r);
    FlagKeepsSubs(r, n, spent);
  }

  /** An actor that runs for a key, with these channels. */
  ghost predicate Serves(a: KeyActor, key: nat, subs: set<nat>)
    reads a`subs, a`done
  {
    a.keyID == key && !a.done && a.subs.Keys == subs
  }

  /** These actors run, and have the subscribers the registry says. */
  ghost predicate Manned(keys: map<nat, KeyActor>, r: Registry)
    reads keys.Values`subs, keys.Values`done
  {
    && OwnActors(r) && InRange(r)
    && (forall k :: k in keys <==> k in r.keys)
    && (forall k | k in keys :: Serves(keys[k], k, SubsOf(r, k)))
  }

  lemma OneMoreManned(keys: map<nat, KeyActor>, r: Registry, key: nat, a: KeyActor)
    requires Manned(keys, r) && key !in keys && Serves(a, key, {})
    ensures Manned(keys[key := a], Started(r, key))
  {
    StartedSubs(r, key);
    hide Started, OwnActors, InRange, SubsOf, Serves;
  }

  class Hub {
    var keys: map<nat, KeyActor>
    var next: nat                          // numbers channels
    var spent: set<nat>                    // the cancels that have run; stands for their one-shot guards
    ghost var view: Registry

    /** The registered actors run, and have the subscribers the registry says. */
    ghost predicate Staffed()
      reads `keys, `view, keys.Values`subs, keys.Values`done
    {
      Manned(keys, view)
    }

    ghost predicate Valid()
      reads this, keys.Values`subs, keys.Values`done
    {
      HubRegistry.Inv(view) && Staffed() && SpentMatch(spent, view.viewers) && next == |view.viewers|
    }

    constructor ()
      ensures Valid() && view == EMPTY && keys == map[]
    {
      keys, next, spent, view := map[], 0, {}, EMPTY;
    }

    /** Puts a new actor in the map. */
    method Register(key: nat, a: KeyActor)
      requires Staffed() && key !in keys && Serves(a, key, {})
      modifies `keys, `view
      ensures view == Started(old(view), key) && Staffed() && keys == old(keys)[key := a]
    {
      OneMoreManned(keys, view, key, a);
      hide Started, Manned;
      keys := keys[key := a];
      view := Started(view, key);
    }

    /** Starts an actor for a key nobody watches yet. */
    method Start(key: nat) returns (a: KeyActor)
      requires Staffed() && key !in keys
      modifies `keys, `view
      ensures view == Started(old(view), key) && Staffed()
      ensures fresh(a) && !a.primed && keys == old(keys)[key := a]
    {
      hide Started, OwnActors, InRange, SubsOf;
      a := new KeyActor(key);
      Register(key, a);
    }

    /** The actor of a key, started if need be. */
    method Lookup(key: nat) returns (a: KeyActor)
      requires Staffed()
      modifies `keys, `view
      ensures view == Started(old(view), key) && Staffed() && key in keys && a == keys[key]
      ensures if key in old(keys) then keys == old(keys) else fresh(a) && !a.primed && keys == old(keys)[key := a]
    {
      hide OwnActors, InRange, SubsOf, Serves;
      if key in keys {
        a := keys[key];
      } else {
        a := Start(key);
      }
    }

    /** Everything is in order, apart perhaps from one key's actor. */
    ghost predicate StaffedBut(key: nat)
      reads `keys, `view, keys.Values`subs, keys.Values`done
    {
      && OwnActors(view) && InRange(view)
      && (forall k :: k in keys <==> k in view.keys)
      && (forall k | k in keys && k != key :: (key in keys ==> keys[k] != keys[key]) && Serves(keys[k], k, SubsOf(view, k)))
    }

    /** Takes a key's actor out of the map and stops it. */
    method Retire(key: nat, a: KeyActor, ghost r: Registry)
      requires key in keys && a == keys[key] && !a.done && StaffedBut(key)
      requires OwnActors(r) && InRange(r) && OthersSame(view, r, key) && key !in r.keys
      modifies `keys, `view, a`done
      ensures view == r && Staffed() && keys == old(keys) - {key} && a.done
    {
      hide OwnActors, InRange, SubsOf, Serves;
      keys := keys - {key};
      view := r;
      a.Stop();
    }

    /** The registry catches up with a change to one key's actor. */
    ghost method Settle(key: nat, r: Registry)
      requires key in keys && StaffedBut(key)
      requires OwnActors(r) && InRange(r) && OthersSame(view, r, key) && key in r.keys
      requires Serves(keys[key], key, SubsOf(r, key))
      modifies `view
      ensures view == r && Staffed()
    {
      hide OwnActors, InRange, SubsOf, Serves;
      view := r;
    }

    /** Puts a channel on a key's actor. */
    method Attach(key: nat, a: KeyActor, ch: Channel)
      requires key in keys && a == keys[key] && Staffed()
      modifies a`subs
      ensures StaffedBut(key) && Serves(a, key, SubsOf(view, key) + {ch.number})
    {
      hide OwnActors, InRange, SubsOf;
      a.AddSub(ch);
      assert a.subs.Keys == SubsOf(view, key) + {ch.number};
    }

    /** Puts a new subscriber on its key's actor. */
    method Join(key: nat, a: KeyActor, ch: Channel)
      requires key in keys && a == keys[key] && Staffed() && ch.number == |view.viewers|
      modifies `view, `next, a`subs
      ensures view == Joined(old(view), key) && next == old(next) + 1 && Staffed()
    {
      JoinedSubs(view, key);
      ghost var after := Joined(view, key);
      hide Joined, OwnActors, InRange, SubsOf;
      next := next + 1;
      Attach(key, a, ch);
      Settle(key, after);
    }

    /** Takes a channel off a key's actor. */
    method Detach(key: nat, a: KeyActor, number: nat) returns (remaining: nat)
      requires key in keys && a == keys[key] && Staffed()
      modifies a`subs
      ensures StaffedBut(key) && Serves(a, key, SubsOf(view, key) - {number})
      ensures remaining == |SubsOf(view, key) - {number}|
    {
      hide OwnActors, InRange, SubsOf;
      remaining := a.RemoveSub(number);
      assert a.subs.Keys == SubsOf(view, key) - {number};
      assert remaining == |a.subs.Keys|;
    }

    /** Detaches a channel and retires the key's actor when nobody is left. */
    method Unsubscribe(key: nat, number: nat)
      requires Staffed()
      modifies `keys, `view,
               (if key in keys then {keys[key]} else {})`subs, (if key in keys then {keys[key]} else {})`done
      ensures view == Unsubscribed(old(view), key, number) && Staffed()
      ensures key in old(keys) && key !in keys ==> old(keys)[key].done
    {
      if key !in keys {
        return;
      }
      UnsubscribedSubs(view, key, number);
      ghost var after := Unsubscribed(view, key, number);
      hide Unsubscribed, OwnActors, InRange, SubsOf;
      var a := keys[key];
      var remaining := Detach(key, a, number);
      if remaining == 0 {
        Retire(key, a, after);
      } else {
        Settle(key, after);
      }
    }

    /** The section of Subscribe under the lock. */
    method Enrol(key: nat, ch: Channel) returns (a: KeyActor)
      requires Valid() && ch.number == next
      modifies `keys, `view, `next, (if key in keys then {keys[key]} else {})`subs
      ensures HubRegistry.Inv(view) && Staffed() && SpentMatch(spent, view.viewers) && next == |view.viewers|
      ensures view == Joined(Started(old(view), key), key)
      ensures key in keys && a == keys[key]
      ensures if key in old(keys) then keys == old(keys) else fresh(a) && keys == old(keys)[key := a]
    {
      SubscribeKeepsInv(view, key);
      SubscribeFacts(view, key, spent);
      hide HubRegistry.Inv, Joined, Started, SpentMatch, Manned;
      a := Lookup(key);
      Join(key, a, ch);
    }

    /** Makes a channel and enrols it, unprimed. */
    method EnrolNew(key: nat) returns (ch: Channel, a: KeyActor)
      requires Valid()
      modifies `keys, `view, `next, (if key in keys then {keys[key]} else {})`subs
      ensures Valid() && view == Joined(Started(old(view), key), key)
      ensures fresh(ch) && ch.number == |old(view).viewers| && ch.buf == None && key in keys && a == keys[key]
      ensures if key in old(keys) then keys == old(keys) else fresh(a) && keys == old(keys)[key := a]
    {
      InvFacts(view);
      hide HubRegistry.Inv, Joined, Started, SpentMatch, Manned;
      ch := new Channel(next);
      a := Enrol(key, ch);
    }

    /** Outside the lock: gives a joining channel what its actor published last. */
    method Prime(a: KeyActor, ch: Channel)
      requires Valid()
      modifies ch`buf
      ensures Valid() && ch.buf == if a.primed then Some(a.latest) else old(ch.buf)
    {
      hide HubRegistry.Inv, SpentMatch, Manned;
      a.PrimeSub(ch);
    }

    /** Starts watching a key: the new subscriber sits on the key's one actor, and has
        what that actor published last, if anything. */
    method Subscribe(key: nat) returns (ch: Channel, ghost a: KeyActor)
      requires Valid()
      modifies `keys, `view, `next, (if key in keys then {keys[key]} else {})`subs
      ensures Valid() && view == HubRegistry.Apply(old(view), HubRegistry.Subscribe(key))
      ensures fresh(ch) && ch.number == |old(view).viewers| && key in keys && a == keys[key]
      ensures ch.buf == if a.primed then Some(a.latest) else None
      ensures if key in old(keys) then keys == old(keys) else fresh(a) && keys == old(keys)[key := a]
    {
      InvFacts(view);
      SubscribeFacts(view, key, spent);
      hide HubRegistry.Inv, HubRegistry.Apply, Joined, Started, SpentMatch, Manned;
      var actor;
      ch, actor := EnrolNew(key);
      Prime(actor, ch);
      a := actor;
    }

    /** Uses a channel's cancel up. */
    method Spend(number: nat)
      requires Staffed() && number < |view.viewers| && SpentMatch(spent, view.viewers)
      modifies `spent, `view
      ensures view == Flagged(old(view), number) && spent == old(spent) + {number} && Staffed()
    {
      FlagKeepsSubs(view, number, spent);
      hide OwnActors, InRange, SubsOf, Serves, SpentMatch, Flagged;
      spent := spent + {number};
      view := Flagged(view, number);
    }

    /** The first call of a channel's cancel. */
    method CancelOnce(key: nat, number: nat)
      requires Valid() && number < |view.viewers| && view.viewers[number].key == key && number !in spent
      modifies `keys, `spent, `view,
               (if key in keys then {keys[key]} else {})`subs, (if key in keys then {keys[key]} else {})`done
      ensures HubRegistry.Inv(view) && Staffed() && SpentMatch(spent, view.viewers) && next == |view.viewers|
      ensures view == Unsubscribed(Flagged(old(view), number), key, number)
      ensures key in old(keys) && key !in keys ==> old(keys)[key].done
    {
      CancelFacts(view, spent, number);
      hide HubRegistry.Inv, SpentMatch, OwnActors, InRange, SubsOf, Unsubscribed, Serves, Flagged;
      Spend(number);
      Unsubscribe(key, number);
    }

    /** Stops watching; only the first call for a channel does anything. */
    method Cancel(key: nat, number: nat)
      requires Valid() && number < |view.viewers| && view.viewers[number].key == key
      modifies `keys, `spent, `view,
               (if key in keys then {keys[key]} else {})`subs, (if key in keys then {keys[key]} else {})`done
      ensures Valid() && view == HubRegistry.Apply(old(view), HubRegistry.Cancel(number))
      ensures key in old(keys) && key !in keys ==> old(keys)[key].done
      ensures number in old(spent) ==> keys == old(keys) && view == old(view)
    {
      CancelFacts(view, spent, number);
      hide HubRegistry.Inv, SpentMatch, OwnActors, InRange, SubsOf, Unsubscribed, Serves, Flagged;
      if number !in spent {
        CancelOnce(key, number);
      }
    }

    /** Tells the key's actor that tokens were recorded; without an actor, nobody. */
    method Publish(key: nat, tokens: nat)
      requires Valid()
      modifies (if key in keys then {keys[key]} else {})`credits
      ensures Valid()
      ensures key in keys ==> Taken(old(keys[key].credits), tokens, keys[key].credits)
      ensures key in keys ==>
                forall m, i | old(keys[key].Mirrors(m)) && Publishes(m, i, tokens) ::
                  keys[key].Mirrors(ReadModel.Apply(key, m, ReadModel.Publish(i)))
    {
      if key in keys {
        keys[key].Credit(tokens);
      }
    }

    method Watching() returns (n: nat)
      requires Valid()
      ensures n == |view.keys|
    {
      n := |keys|;
      assert keys.Keys == view.keys.Keys;
      assert |keys| == |keys.Keys| && |view.keys| == |view.keys.Keys|;
    }
  }

  /** The store of events. */
  class Store {
    var log: seq<Event>

    constructor ()
      ensures log == []
    {
      log := [];
    }

    method Write(e: Event, fails: bool) returns (ok: bool)
      modifies this
      ensures ok == !fails && log == if ok then old(log) + [e] else old(log)
    {
      if !fails {
        log := log + [e];
      }
      ok := !fails;
    }
  }

  class Recorder {
    const store: Store
    const hub: Hub

    constructor (s: Store, h: Hub)
      ensures store == s && hub == h
    {
      store, hub := s, h;
    }

    /** Store first, then publish: an event that was not written credits nobody, and the
        hub is told (`told` is what the store held then) with the event written.  In the
        read model it is a Write and then the Publish of that event. */
    method Record(e: Event, fails: bool) returns (ok: bool, ghost told: Option<seq<Event>>)
      requires hub.Valid()
      modifies store, (if e.key in hub.keys then {hub.keys[e.key]} else {})`credits
      ensures hub.Valid() && ok == !fails
      ensures store.log == if ok then old(store.log) + [e] else old(store.log)
      ensures told == if ok then Some(old(store.log) + [e]) else None
      ensures e.key in hub.keys ==>
                var a := hub.keys[e.key];
                && (if ok then Taken(old(a.credits), e.tokens, a.credits) else a.credits == old(a.credits))
                && (ok ==> forall m | old(a.Mirrors(m)) && Writes(m, e) ::
                             a.Mirrors(ReadModel.Apply(e.key, ReadModel.Apply(e.key, m, ReadModel.Write(e)), ReadModel.Publish(|m.log|))))
    {
      ok := store.Write(e, fails);
      told := None;
      if ok {
        told := Some(store.log);
        hub.Publish(e.key, e.tokens);
        if e.key in hub.keys {
          ghost var a := hub.keys[e.key];
          forall m | old(a.Mirrors(m)) && Writes(m, e)
            ensures a.Mirrors(ReadModel.Apply(e.key, ReadModel.Apply(e.key, m, ReadModel.Write(e)), ReadModel.Publish(|m.log|)))
          {
            WriteShows(e.key, old(a.report), old(a.latest.report), old(a.credits), m, e);
            WrittenIsReady(m, e);
          }
        }
      }
    }
  }

  /** The write can happen in the model, whose log and credits go together. */
  predicate Writes(m: ReadModel.Actor, e: Event) {
    ReadModel.Enabled(m, ReadModel.Write(e)) && |m.credits| == |m.log|
  }

  lemma WrittenIsReady(m: ReadModel.Actor, e: Event)
    requires Writes(m, e)
    ensures Publishes(ReadModel.Apply(e.key, m, ReadModel.Write(e)), |m.log|, e.tokens)
  {
  }
}
