/**
 Which keys have a running actor: the registry of the live hub.  Subscribing and
 cancelling are the two critical sections under the hub's lock; they come in any
 order, for any keys, and every cancel may be called any number of times.
 */
module HubRegistry {
  import opened Wrappers

  /** One actor ever started.  `stops` counts the times its done channel was closed. */
  datatype Actor = Actor(key: nat, subs: set<nat>, stops: nat)

  /** One subscription ever made; its position is its channel's number. */
  datatype Viewer = Viewer(key: nat, cancelled: bool)

  datatype Registry = Registry(keys: map<nat, nat>, actors: seq<Actor>, viewers: seq<Viewer>)

  const EMPTY := Registry(map[], [], [])

  datatype Op = Subscribe(key: nat) | Cancel(ch: nat)

  predicate Enabled(r: Registry, op: Op) {
    op.Cancel? ==> op.ch < |r.viewers|
  }

  predicate InRange(r: Registry) {
    forall key | key in r.keys :: r.keys[key] < |r.actors|
  }

  function Started(r: Registry, key: nat): Registry {
    if key in r.keys then r else
      r.(keys := r.keys[key := |r.actors|], actors := r.actors + [Actor(key, {}, 0)])
  }

  function Joined(r: Registry, key: nat): Registry
    requires InRange(r) && key in r.keys
  {
    var a, ch := r.keys[key], |r.viewers|;
    r.(actors := r.actors[a := r.actors[a].(subs := r.actors[a].subs + {ch})],
       viewers := r.viewers + [Viewer(key, false)])
  }

  /** Detaches a channel from the key's actor and retires the actor when nobody is left. */
  function Unsubscribed(r: Registry, key: nat, ch: nat): Registry
    requires InRange(r)
  {
    if key !in r.keys then r else
      var a := r.keys[key];
      var left := r.actors[a].subs - {ch};
      if left != {} then r.(actors := r.actors[a := r.actors[a].(subs := left)]) else
        r.(keys := r.keys - {key},
           actors := r.actors[a := r.actors[a].(subs := left, stops := r.actors[a].stops + 1)])
  }

  /** A cancel acts once; afterwards it does nothing. */
  function Cancelled(r: Registry, ch: nat): Registry
    requires InRange(r) && ch < |r.viewers|
  {
    var v := r.viewers[ch];
    if v.cancelled then r else
      Unsubscribed(r.(viewers := r.viewers[ch := v.(cancelled := true)]), v.key, ch)
  }

  function Apply(r: Registry, op: Op): Registry
    requires InRange(r) && Enabled(r, op)
  {
    match op
    case Subscribe(key) => Joined(Started(r, key), key)
    case Cancel(ch) => Cancelled(r, ch)
  }

  // ---------------------------------------------------------------- the invariant

  predicate Active(r: Registry, ch: nat) {
    ch < |r.viewers| && !r.viewers[ch].cancelled
  }

  predicate Registered(r: Registry, a: nat)
    requires a < |r.actors|
  {
    var key := r.actors[a].key;
    key in r.keys && r.keys[key] == a
  }

  /** A registered actor runs for its own key and for somebody; any other was stopped
      once and has nobody. */
  ghost predicate ActorSound(r: Registry, a: nat)
    requires a < |r.actors|
  {
    if Registered(r, a) then r.actors[a].subs != {} && r.actors[a].stops == 0
    else r.actors[a].subs == {} && r.actors[a].stops == 1
  }

  /** An uncancelled viewer sits on the actor registered under its key. */
  ghost predicate ViewerSound(r: Registry, ch: nat)
    requires ch < |r.viewers| && InRange(r)
  {
    var v := r.viewers[ch];
    !v.cancelled ==> v.key in r.keys && ch in r.actors[r.keys[v.key]].subs
  }

  predicate Sits(r: Registry, a: nat, ch: nat) {
    a < |r.actors| && ch in r.actors[a].subs
  }

  ghost predicate Inv(r: Registry) {
    && InRange(r)
    && (forall key | key in r.keys :: r.actors[r.keys[key]].key == key)
    && (forall a: nat | a < |r.actors| :: ActorSound(r, a))
    && (forall a: nat, ch: nat | Sits(r, a, ch) :: Active(r, ch) && r.viewers[ch].key == r.actors[a].key)
    && (forall ch: nat | ch < |r.viewers| :: ViewerSound(r, ch))
  }

  lemma SubscribeKeepsInv(r: Registry, key: nat)
    requires Inv(r)
    ensures Inv(Joined(Started(r, key), key))
  {
    var t := Joined(Started(r, key), key);
    assert |r.viewers| in t.actors[t.keys[key]].subs;
    forall b: nat | b < |t.actors| ensures ActorSound(t, b) {
      if b < |r.actors| { assert ActorSound(r, b); }
    }
    forall b: nat, c: nat | Sits(t, b, c) ensures Active(t, c) && t.viewers[c].key == t.actors[b].key {
      assert b < |r.actors| && c in r.actors[b].subs ==> Sits(r, b, c);
    }
    forall c: nat | c < |t.viewers| ensures ViewerSound(t, c) {
      if c < |r.viewers| { assert ViewerSound(r, c); }
    }
  }

  lemma CancelKeepsInv(r: Registry, ch: nat)
    requires Inv(r) && ch < |r.viewers|
    ensures Inv(Cancelled(r, ch))
  {
    var t := Cancelled(r, ch);
    assert ViewerSound(r, ch);
    forall b: nat | b < |t.actors| ensures ActorSound(t, b) {
      assert ActorSound(r, b);
    }
    forall b: nat, c: nat | Sits(t, b, c) ensures Active(t, c) && t.viewers[c].key == t.actors[b].key {
      assert Sits(r, b, c) && ActorSound(r, b);
    }
    forall c: nat | c < |t.viewers| ensures ViewerSound(t, c) {
      assert ViewerSound(r, c);
      if t != r && c != ch && Active(r, c) && r.viewers[c].key == r.viewers[ch].key {
        assert c in r.actors[r.keys[r.viewers[ch].key]].subs - {ch};
      }
    }
  }

  lemma StepKeepsInv(r: Registry, op: Op)
    requires Inv(r) && Enabled(r, op)
    ensures Inv(Apply(r, op))
  {
    match op
    case Subscribe(key) => SubscribeKeepsInv(r, key);
    case Cancel(ch) => CancelKeepsInv(r, ch);
  }

  // ---------------------------------------------------------------- runs

  /** The registry after any run of subscribes and cancels; a cancel of a channel never
      handed out cannot be called. */
  ghost predicate Legal(run: seq<Op>)
    decreases |run|, 0
  {
    run == [] || (Legal(run[..|run| - 1]) && InRange(After(run[..|run| - 1]))
                  && Enabled(After(run[..|run| - 1]), run[|run| - 1]))
  }

  ghost function After(run: seq<Op>): Registry
    requires Legal(run)
    decreases |run|, 1
  {
    if run == [] then EMPTY else Apply(After(run[..|run| - 1]), run[|run| - 1])
  }

  lemma {:induction false} RunKeepsInv(run: seq<Op>)
    requires Legal(run)
    ensures Inv(After(run))
    decreases |run|
  {
    if run != [] {
      RunKeepsInv(run[..|run| - 1]);
      StepKeepsInv(After(run[..|run| - 1]), run[|run| - 1]);
    }
  }

  /** In every reachable state a key is registered exactly when it has an uncancelled
      subscriber, and then all of them, and nobody else, sit on its one actor. */
  lemma RegisteredExactlyWhileWatched(run: seq<Op>, key: nat)
    requires Legal(run)
    ensures var r := After(run);
            && (key in r.keys <==> exists ch: nat :: Active(r, ch) && r.viewers[ch].key == key)
            && (key in r.keys ==>
                  && r.keys[key] < |r.actors|
                  && forall ch: nat :: ch in r.actors[r.keys[key]].subs <==> Active(r, ch) && r.viewers[ch].key == key)
  {
    RunKeepsInv(run);
    var r := After(run);
    hide After, Legal;
    assert forall ch: nat | Active(r, ch) :: ViewerSound(r, ch);
    if key in r.keys {
      assert ActorSound(r, r.keys[key]);
      assert forall ch: nat :: ch in r.actors[r.keys[key]].subs <==> Sits(r, r.keys[key], ch);
      var subs := r.actors[r.keys[key]].subs;
      InhabitedNat(subs);
      var ch :| ch in subs;
      assert Active(r, ch) && r.viewers[ch].key == key;
    }
  }

  /** In every reachable state no actor was stopped twice, the unstopped ones are exactly
      the registered ones, and a key has at most one of them. */
  lemma StoppedAtMostOnceAndNeverWhileRegistered(run: seq<Op>, a: nat, b: nat)
    requires Legal(run) && a < |After(run).actors| && b < |After(run).actors|
    ensures var r := After(run);
            && r.actors[a].stops <= 1
            && (r.actors[a].stops == 0 <==> Registered(r, a))
            && (r.actors[a].stops == 0 && r.actors[b].stops == 0 && r.actors[a].key == r.actors[b].key ==> a == b)
  {
    RunKeepsInv(run);
    assert ActorSound(After(run), a) && ActorSound(After(run), b);
  }

  /** An actor is stopped by the very step that takes it out of the map, and never
      comes back: a later subscriber of its key gets a fresh actor. */
  lemma RetiredActorsStayRetired(r: Registry, op: Op, a: nat)
    requires Inv(r) && Enabled(r, op) && a < |r.actors|
    ensures var t := Apply(r, op);
            && a < |t.actors| && t.actors[a].key == r.actors[a].key
            && (t.actors[a].stops != r.actors[a].stops <==> Registered(r, a) && !Registered(t, a))
            && (!Registered(r, a) ==> t.actors[a] == r.actors[a] && !Registered(t, a))
  {
    StepKeepsInv(r, op);
    assert ActorSound(r, a) && ActorSound(Apply(r, op), a);
  }

  lemma StaysCancelled(r: Registry, op: Op, ch: nat)
    requires InRange(r) && Enabled(r, op) && ch < |r.viewers| && r.viewers[ch].cancelled
    ensures ch < |Apply(r, op).viewers| && Apply(r, op).viewers[ch].cancelled
  {
  }

  /** Cancelling again, after anything else happened, changes nothing. */
  lemma {:induction false} CancellingAgainDoesNothing(run: seq<Op>, ch: nat, since: nat)
    requires Legal(run) && since < |run| && run[since] == Cancel(ch)
    ensures var r := After(run);
            InRange(r) && ch < |r.viewers| && r.viewers[ch].cancelled && Apply(r, Cancel(ch)) == r
    decreases |run|
  {
    RunKeepsInv(run);
    var front := run[..|run| - 1];
    RunKeepsInv(front);
    hide Inv;
    if since < |front| {
      CancellingAgainDoesNothing(front, ch, since);
      StaysCancelled(After(front), run[|run| - 1], ch);
    }
  }
}
