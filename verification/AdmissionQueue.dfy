/**
 The admission queue as the program keeps it: mutable lists and counters behind one
 mutex.  Each method is one critical section.  The ghost field `view` is the state of
 the protocol, and every method's contract says which event of the protocol it was.
 */
module AdmissionQueue {
  import opened AdmissionCore
  import opened AdmissionProtocol
  import opened AdmissionStats
  import opened Wrappers
  import RepaintLoop

  /** A request parked in the queue.  `ready` is the channel closed by the grant. */
  class Waiter {
    const ticket: Ticket
    var granted: bool
    var promoted: bool
    var ready: bool

    constructor (t: Ticket)
      ensures ticket == t && !granted && !promoted && !ready
    {
      ticket, granted, promoted, ready := t, false, false, false;
    }

    method Grant(promo: bool)
      modifies this
      ensures granted && ready && promoted == promo
    {
      granted := true;
      promoted := promo;
      ready := true;
    }
  }

  /** What an admitted call holds: a release that works once. */
  class Slot {
    const client: nat
    var spent: bool

    constructor (c: nat)
      ensures client == c && !spent
    {
      client, spent := c, false;
    }
  }

  function Tickets(ws: seq<Waiter>): seq<Ticket> {
    seq(|ws|, i requires 0 <= i < |ws| => ws[i].ticket)
  }

  /** The waiting lists as the protocol sees them. */
  function Abs(classes: map<int, seq<Waiter>>): Classes {
    map p | p in classes :: Tickets(classes[p])
  }

  function At(classes: map<int, seq<Waiter>>, p: int, i: nat): Waiter
    requires p in classes && i < |classes[p]|
  {
    classes[p][i]
  }

  /** Every listed waiter is the registered object of its call. */
  ghost predicate Registered(classes: map<int, seq<Waiter>>, calls: map<nat, Waiter>) {
    forall p, i: nat | p in classes && i < |classes[p]| ::
      At(classes, p, i).ticket.id in calls && calls[At(classes, p, i).ticket.id] == At(classes, p, i)
  }

  /** `classes` with the waiter at position `i` of class `p` unlinked. */
  function Unlinked(classes: map<int, seq<Waiter>>, p: int, i: nat): map<int, seq<Waiter>>
    requires p in classes && i < |classes[p]|
  {
    var rest := classes[p][..i] + classes[p][i + 1..];
    if rest == [] then classes - {p} else classes[p := rest]
  }

  lemma UnlinkingIsRemoving(classes: map<int, seq<Waiter>>, calls: map<nat, Waiter>, p: int, i: nat)
    requires p in classes && i < |classes[p]| && WellFormed(Abs(classes)) && Registered(classes, calls)
    ensures Abs(Unlinked(classes, p, i)) == Remove(Abs(classes), classes[p][i].ticket)
    ensures Registered(Unlinked(classes, p, i), calls)
  {
    var l := classes[p];
    var rest := l[..i] + l[i + 1..];
    assert Abs(classes)[p][i] == l[i].ticket;
    assert Ordered(Abs(classes)[p]);
    DropAt(Tickets(l), i);
    assert Tickets(rest) == Drop(Tickets(l), l[i].ticket.id);
    var after := Unlinked(classes, p, i);
    forall q, j: nat | q in after && j < |after[q]|
      ensures At(after, q, j).ticket.id in calls && calls[At(after, q, j).ticket.id] == At(after, q, j)
    {
      assert At(after, q, j) == At(classes, q, if q == p && j >= i then j + 1 else j);
    }
  }

  /** A watcher's channel holds at most one signal; notifying fills every channel. */
  function Signalled(watchers: map<nat, bool>): map<nat, bool> {
    map ch | ch in watchers :: true
  }

  ghost predicate Mirrors(p: Phase, w: Waiter)
    reads w
  {
    match p
    case Parked(t) => w.ticket == t && !w.granted && !w.ready
    case Granted(t, b) => w.ticket == t && w.granted && w.ready && w.promoted == b
    case _ => true
  }

  class Queue {
    const capacity: int
    const promoteAfter: int
    var free: nat
    var waiting: int
    var justPromoted: bool
    var classes: map<int, seq<Waiter>>
    var watchers: map<nat, bool>
    var admitted: nat
    var promoted: nat
    var cancelled: nat
    var next: nat                        // numbers calls; stands for the identity of their waiters

    ghost var view: Sys                  // the protocol state this object is in
    ghost var calls: map<nat, Waiter>    // the waiter of every call that was parked
    ghost var slots: map<nat, Slot>      // the release of every call that was admitted

    ghost function Cfg(): Config {
      Config(capacity, promoteAfter)
    }

    ghost predicate FieldsMatch()
      reads `view, `next, `free, `waiting, `justPromoted, `admitted, `promoted, `cancelled, `classes
    {
      && free == view.free && waiting == view.waiting && justPromoted == view.justPromoted
      && next == view.next && admitted == view.admitted && promoted == view.promoted && cancelled == view.cancelled
      && view.classes == Abs(classes)
    }

    /** Waiters carry the flags the protocol says. */
    ghost predicate WaitersMatch()
      reads `view, `calls, calls.Values
    {
      && (forall c | c in calls :: calls[c].ticket.id == c && c in view.clients && Mirrors(view.clients[c], calls[c]))
      && (forall c | c in view.clients && (view.clients[c].Parked? || view.clients[c].Granted?) :: c in calls)
    }

    /** Releases are in the one-shot state the protocol says. */
    ghost predicate SlotsMatch()
      reads `view, `slots, slots.Values
    {
      && (forall c | c in slots :: slots[c].client == c && c in view.clients
                                   && (if slots[c].spent then view.clients[c].Served? else view.clients[c].Holding?))
      && (forall c | c in view.clients && view.clients[c].Holding? :: c in slots)
    }

    ghost predicate CallsMatch()
      reads `view, `calls, `slots, calls.Values, slots.Values
    {
      WaitersMatch() && SlotsMatch()
    }

    /** The object mirrors the protocol state, slot accounting aside. */
    ghost predicate Coupled()
      reads `view, `next, `free, `waiting, `justPromoted, `admitted, `promoted, `cancelled, `classes
      reads `calls, `slots, calls.Values, slots.Values
    {
      ValidConfig(Cfg()) && FieldsMatch() && Registered(classes, calls) && CallsMatch() && ListsMatchCalls(view)
    }

    ghost predicate Valid()
      reads `view, `next, `free, `waiting, `justPromoted, `admitted, `promoted, `cancelled, `classes
      reads `calls, `slots, calls.Values, slots.Values
    {
      Coupled() && Inv(Cfg(), view)
    }

    constructor (capacity: int, promoteAfter: int, ghost now: int)
      requires capacity >= 1 && promoteAfter > 0
      ensures Valid() && Cfg() == Config(capacity, promoteAfter) && view == Init(Cfg(), now)
      ensures fresh(calls.Values) && fresh(slots.Values)
    {
      this.capacity, this.promoteAfter := capacity, promoteAfter;
      free, waiting, justPromoted := capacity, 0, false;
      classes, watchers := map[], map[];
      admitted, promoted, cancelled, next := 0, 0, 0, 0;
      view, calls, slots := Init(Config(capacity, promoteAfter), now), map[], map[];
    }

    /** The page `p` watches this queue through the channel `ch`: the change signal it has
        pending is what the channel holds. */
    ghost predicate WatchedBy(ch: nat, p: RepaintLoop.Page)
      reads `view, `watchers
    {
      p.queue == view && ch in watchers && (p.pending <==> watchers[ch])
    }

    /** Adds a signal to every watcher's channel; a full channel stays full. */
    method NotifyLocked()
      modifies this`watchers
      ensures watchers.Keys == old(watchers).Keys && forall ch | ch in watchers :: watchers[ch]
      ensures watchers == Signalled(old(watchers))
    {
      var todo := watchers.Keys;
      while todo != {}
        invariant todo <= watchers.Keys == old(watchers).Keys
        invariant forall ch | ch in watchers && ch !in todo :: watchers[ch]
      {
        InhabitedNat(todo);
        var ch :| ch in todo;
        watchers := watchers[ch := true];
        todo := todo - {ch};
      }
    }

    method Watch(ch: nat)
      requires ch !in watchers
      modifies this`watchers
      ensures watchers == old(watchers)[ch := false]
      ensures WatchedBy(ch, RepaintLoop.Open(view))
    {
      watchers := watchers[ch := false];
    }

    /** A watcher receives its signal; the other channels keep theirs. */
    method Receive(ch: nat)
      requires ch in watchers && watchers[ch]
      modifies this`watchers
      ensures watchers == old(watchers)[ch := false]
      ensures forall p | old(WatchedBy(ch, p)) && p.stage.Idle? ::
                WatchedBy(ch, RepaintLoop.Happen(Cfg(), p, RepaintLoop.ReceiveChange))
    {
      watchers := watchers[ch := false];
    }

    method Unwatch(ch: nat)
      modifies this`watchers
      ensures watchers == old(watchers) - {ch}
    {
      watchers := watchers - {ch};
    }

    /** Appends `w` to its class. */
    method PushLocked(w: Waiter)
      modifies this`classes, this`waiting
      ensures waiting == old(waiting) + 1
      ensures classes == Linked(old(classes), w)
    {
      if w.ticket.priority !in classes {
        classes := classes[w.ticket.priority := []];
      }
      classes := classes[w.ticket.priority := classes[w.ticket.priority] + [w]];
      waiting := waiting + 1;
    }

    /** Unlinks `w` from its class, deleting the class when it was the last. */
    method RemoveLocked(w: Waiter)
      requires WellFormed(Abs(classes)) && Registered(classes, calls)
      requires w.ticket.priority in classes && w in classes[w.ticket.priority]
      modifies this`classes, this`waiting
      ensures waiting == old(waiting) - 1
      ensures Abs(classes) == Remove(old(Abs(classes)), w.ticket)
      ensures Registered(classes, calls)
    {
      var p := w.ticket.priority;
      var l := classes[p];
      var i :| 0 <= i < |l| && l[i] == w;
      UnlinkingIsRemoving(classes, calls, p, i);
      var rest := l[..i] + l[i + 1..];
      waiting := waiting - 1;
      if |rest| == 0 {
        classes := classes - {p};
      } else {
        classes := classes[p := rest];
      }
    }

    /** The loop over the classes: the highest head and a longest-waiting one. */
    method Candidates() returns (top: Waiter?, oldest: Waiter?)
      requires WellFormed(Abs(classes)) && Registered(classes, calls)
      ensures top == null <==> classes == map[]
      ensures top == null <==> oldest == null
      ensures top != null ==>
                && HeadIn(classes, top) && HeadIn(classes, oldest)
                && TopHead(Abs(classes), top.ticket) && OldestHead(Abs(classes), oldest.ticket)
                && (oldest.ticket == top.ticket <==> oldest == top)
    {
      top, oldest := null, null;
      var todo := classes.Keys;
      while todo != {}
        modifies {}
        invariant todo <= classes.Keys
        invariant todo == classes.Keys ==> top == null && oldest == null
        invariant todo != classes.Keys ==> top != null && oldest != null && HeadIn(classes, top) && HeadIn(classes, oldest)
        invariant forall p | p in classes && p !in todo :: Beats(classes, p, top, oldest)
      {
        Inhabited(todo);
        var p :| p in todo;
        assert Abs(classes)[p][0].priority == p;
        var head := classes[p][0];
        if top == null || head.ticket.priority > top.ticket.priority {
          top := head;
        }
        if oldest == null || head.ticket.since < oldest.ticket.since {
          oldest := head;
        }
        todo := todo - {p};
      }
      if top != null {
        CandidatesAreHeads(classes, top, oldest);
      }
    }

    /** Picks the next waiter by looking at class heads, and unlinks it. */
    method PopLocked(now: int) returns (w: Waiter?, promo: bool)
      requires WellFormed(Abs(classes)) && Registered(classes, calls)
      modifies this`classes, this`waiting, this`justPromoted
      ensures Registered(classes, calls)
      ensures w == null ==> old(classes) == map[] && classes == old(classes)
                            && waiting == old(waiting) && justPromoted == old(justPromoted)
      ensures w != null ==>
                && w.ticket.id in calls && calls[w.ticket.id] == w
                && HeadPick(old(Abs(classes)), old(justPromoted), now, promoteAfter, Grant(w.ticket, promo))
                && Abs(classes) == Remove(old(Abs(classes)), w.ticket)
                && waiting == old(waiting) - 1 && justPromoted == promo
                && (promo ==> !old(justPromoted) && now - w.ticket.since >= promoteAfter)
    {
      var top, oldest := Candidates();
      if top == null {
        return null, false;
      }
      assert At(classes, top.ticket.priority, 0) == top && At(classes, oldest.ticket.priority, 0) == oldest;
      if !justPromoted && oldest != top && now - oldest.ticket.since >= promoteAfter {
        justPromoted := true;
        RemoveLocked(oldest);
        return oldest, true;
      }
      justPromoted := false;
      RemoveLocked(top);
      return top, false;
    }

    /** Marks `w` granted and opens its channel; `after` is the protocol's next state. */
    method Mark(w: Waiter, promo: bool, ghost after: Sys)
      requires WaitersMatch() && w.ticket.id in calls && calls[w.ticket.id] == w
      requires w.ticket.id in view.clients && after.clients == view.clients[w.ticket.id := Granted(w.ticket, promo)]
      modifies w, `view
      ensures view == after && WaitersMatch()
    {
      w.Grant(promo);
      view := after;
      forall c | c in calls
        ensures calls[c].ticket.id == c && c in view.clients && Mirrors(view.clients[c], calls[c])
      {
        if c != w.ticket.id {
          assert Mirrors(old(view).clients[c], calls[c]);
        }
      }
    }

    /** Hands the slot to `w`. */
    method GrantTo(w: Waiter, promo: bool)
      requires CallsMatch()
      requires w.ticket.id in calls && calls[w.ticket.id] == w
      requires w.ticket.id in view.clients && view.clients[w.ticket.id] == Parked(w.ticket)
      modifies w, `view
      ensures view == Handoff(old(view), Some(Grant(w.ticket, promo)))
      ensures CallsMatch()
    {
      hide Handoff, WaitersMatch;
      HandoffMarks(view, w.ticket, promo);
      assert w.ticket.id !in slots;
      Mark(w, promo, Handoff(view, Some(Grant(w.ticket, promo))));
    }

    method AddFree()
      requires CallsMatch()
      modifies `free, `view
      ensures free == old(free) + 1 && view == Handoff(old(view), None)
      ensures CallsMatch()
    {
      free := free + 1;
      view := Handoff(view, None);
    }

    /** Between the pop and the hand-over: the lists are already those after `pick`. */
    ghost predicate Popped(pick: Option<Grant>)
      reads `view, `next, `free, `waiting, `justPromoted, `admitted, `promoted, `cancelled, `classes
    {
      var after := Handoff(view, pick);
      && free == view.free && next == view.next && admitted == view.admitted
      && promoted == view.promoted && cancelled == view.cancelled
      && waiting == after.waiting && justPromoted == after.justPromoted && after.classes == Abs(classes)
    }

    /** Delivers the slot to the popped waiter, or to the free pool if there was none. */
    method Settle(w: Waiter?, promo: bool)
      requires var pick := if w == null then None else Some(Grant(w.ticket, promo)); Popped(pick)
      requires CallsMatch()
      requires w != null ==> w.ticket.id in calls && calls[w.ticket.id] == w
      requires w != null ==> w.ticket.id in view.clients && view.clients[w.ticket.id] == Parked(w.ticket)
      modifies w, `free, `view
      ensures FieldsMatch() && CallsMatch()
      ensures view == Handoff(old(view), if w == null then None else Some(Grant(w.ticket, promo)))
    {
      hide CallsMatch, Remove, Abs;
      if w != null {
        GrantTo(w, promo);
      } else {
        AddFree();
      }
    }

    /** Gives one slot back: to the waiter the rule picks, else to the free pool. */
    method ReleaseLocked(now: int) returns (ghost pick: Option<Grant>)
      requires Coupled() && now == view.now
      modifies this, calls.Values
      ensures Coupled() && calls == old(calls) && slots == old(slots)
      ensures HandoffAllowed(Cfg(), old(view), pick) && view == Handoff(old(view), pick)
      ensures watchers == Signalled(old(watchers))
    {
      hide ListsMatchCalls, WellFormed, HeadPick, Remove, Abs, Registered, CallsMatch, Handoff, HandoffAllowed;
      MatchingListsAreWellFormed(view);
      var w, promo := PopLocked(now);
      pick := if w == null then None else Some(Grant(w.ticket, promo));
      PickIsAllowed(Cfg(), view, old(classes), w == null, pick);
      HandoffKeepsMatch(Cfg(), view, pick);
      HandoffEffect(Cfg(), view, pick);
      Settle(w, promo);
      NotifyLocked();
    }

    // -------------------------------------------------------------- bookkeeping of the coupling

    lemma NextIsNew()
      requires ListsMatchCalls(view) && CallsMatch()
      ensures view.next !in view.clients && view.next !in calls
    {
    }

    /** A call is admitted: it gets a fresh release. */
    ghost method NoteAdmission(slot: Slot, after: Sys, b: bool)
      requires CallsMatch() && !slot.spent
      requires slot.client in view.clients ==> view.clients[slot.client].Granted?
      requires after.clients == view.clients[slot.client := Holding(b)]
      modifies `view, `slots
      ensures view == after && slots == old(slots)[slot.client := slot]
      ensures CallsMatch()
    {
      assert slot.client !in slots;
      view, slots := after, slots[slot.client := slot];
    }

    /** A call is parked: its waiter is registered. */
    ghost method NoteParking(w: Waiter, after: Sys)
      requires CallsMatch() && !w.granted && !w.ready
      requires w.ticket.id !in view.clients
      requires after.clients == view.clients[w.ticket.id := Parked(w.ticket)]
      modifies `view, `calls
      ensures view == after && calls == old(calls)[w.ticket.id := w]
      ensures CallsMatch()
    {
      view, calls := after, calls[w.ticket.id := w];
    }

    /** A parked or granted call gives up. */
    ghost method NoteGivingUp(c: nat, p: Phase, after: Sys)
      requires CallsMatch() && (p.GaveUp? || p.Raced?)
      requires c in view.clients && (view.clients[c].Parked? || view.clients[c].Granted?)
      requires after.clients == view.clients[c := p]
      modifies `view
      ensures view == after
      ensures CallsMatch()
    {
      assert c !in slots;
      view := after;
    }

    /** The first use of a release. */
    method Spend(slot: Slot, ghost after: Sys)
      requires CallsMatch()
      requires slot.client in slots && slots[slot.client] == slot && !slot.spent
      requires after.clients == view.clients[slot.client := Served(view.clients[slot.client].promoted)]
      modifies slot, `view
      ensures slot.spent && view == after
      ensures CallsMatch()
    {
      assert forall c | c in slots && c != slot.client :: slots[c] != slot;
      slot.spent := true;
      view := after;
    }

    // -------------------------------------------------------------- the critical sections

    /** The fast path of Acquire: takes a free slot. */
    method TakeFree() returns (slot: Slot)
      requires free > 0
      modifies `free, `admitted, `next, `watchers
      ensures free == old(free) - 1 && admitted == old(admitted) + 1 && next == old(next) + 1
      ensures watchers == Signalled(old(watchers))
      ensures fresh(slot) && slot.client == old(next) && !slot.spent
    {
      free := free - 1;
      admitted := admitted + 1;
      slot := new Slot(next);
      next := next + 1;
      NotifyLocked();
    }

    /** The slow path of Acquire: the call joins its class. */
    method Join(priority: int, now: int) returns (w: Waiter)
      modifies `classes, `waiting, `next, `watchers
      ensures w.ticket == Ticket(old(next), priority, now) && fresh(w) && !w.granted && !w.ready
      ensures classes == Linked(old(classes), w) && waiting == old(waiting) + 1 && next == old(next) + 1
      ensures watchers == Signalled(old(watchers))
    {
      w := new Waiter(Ticket(next, priority, now));
      PushLocked(w);
      next := next + 1;
      NotifyLocked();
    }

    method AdmitAtOnce(priority: int, ghost now: int) returns (slot: Slot)
      requires Valid() && view.now <= now && free > 0 && waiting == 0
      modifies this
      ensures Valid() && watchers == Signalled(old(watchers))
      ensures Stepped(Cfg(), old(view), now, FastAdmit(priority), view)
      ensures fresh(slot) && slot.client == old(next) && slots == old(slots)[slot.client := slot]
    {
      hide ListsMatchCalls, CallsMatch, Registered, SlotsConserved, Abs, Apply;
      ghost var after := Apply(Cfg(), view.(now := now), FastAdmit(priority));
      SteppedKeepsInv(Cfg(), view, now, FastAdmit(priority), after);
      FastAdmitEffect(Cfg(), view, now, priority);
      NextIsNew();
      slot := TakeFree();
      NoteAdmission(slot, after, false);
    }

    method ParkCall(priority: int, now: int) returns (w: Waiter)
      requires Valid() && view.now <= now && !(free > 0 && waiting == 0)
      modifies this
      ensures Valid() && watchers == Signalled(old(watchers))
      ensures Stepped(Cfg(), old(view), now, Park(priority), view)
      ensures fresh(w) && w.ticket.id == old(next) && calls == old(calls)[w.ticket.id := w]
    {
      hide ListsMatchCalls, CallsMatch, Registered, SlotsConserved, Abs, Apply, Linked, Push;
      ghost var after := Apply(Cfg(), view.(now := now), Park(priority));
      SteppedKeepsInv(Cfg(), view, now, Park(priority), after);
      ParkEffect(Cfg(), view, now, priority);
      NextIsNew();
      w := Join(priority, now);
      LinkingIsPushing(old(classes), calls, w);
      NoteParking(w, after);
    }

    /** The first critical section of Acquire: admitted at once, or parked. */
    method Enter(priority: int, now: int) returns (w: Waiter?, slot: Slot?)
      requires Valid() && view.now <= now
      modifies this
      ensures Valid() && watchers == Signalled(old(watchers))
      ensures slot != null ==>
                && w == null && Stepped(Cfg(), old(view), now, FastAdmit(priority), view)
                && fresh(slot) && slot.client == old(next) && slots == old(slots)[slot.client := slot]
      ensures slot == null ==>
                && w != null && Stepped(Cfg(), old(view), now, Park(priority), view)
                && fresh(w) && w.ticket.id == old(next) && calls == old(calls)[w.ticket.id := w]
      ensures forall ch, p | old(WatchedBy(ch, p)) ::
                WatchedBy(ch, RepaintLoop.Moved(Cfg(), p, now, if slot != null then FastAdmit(priority) else Park(priority)))
    {
      hide Valid, Coupled, Stepped, Apply, Enabled, Signalled, RepaintLoop.CanHappen, RepaintLoop.Happen, RepaintLoop.Moved;
      if free > 0 && waiting == 0 {
        slot := AdmitAtOnce(priority, now);
        w := null;
        WatchersSee(old(view), old(watchers), now, FastAdmit(priority));
      } else {
        w := ParkCall(priority, now);
        slot := null;
        WatchersSee(old(view), old(watchers), now, Park(priority));
      }
    }

    /** After an event of the protocol whose signal, if it has one, went to every channel,
        each watching page has moved with the queue. */
    lemma WatchersSee(before: Sys, channels: map<nat, bool>, now: int, e: Event)
      requires Stepped(Cfg(), before, now, e, view)
      requires watchers == if RepaintLoop.Notifies(e) then Signalled(channels) else channels
      ensures forall ch, p: RepaintLoop.Page | p.queue == before && ch in channels && (p.pending <==> channels[ch]) ::
                && RepaintLoop.CanHappen(Cfg(), p, RepaintLoop.QueueMoves(Tick(now)))
                && RepaintLoop.CanHappen(Cfg(), RepaintLoop.Happen(Cfg(), p, RepaintLoop.QueueMoves(Tick(now))),
                                         RepaintLoop.QueueMoves(e))
                && WatchedBy(ch, RepaintLoop.Moved(Cfg(), p, now, e))
    {
      hide HandoffAllowed, Handoff;
    }

    /** Whether `w` is the waiter of a call still blocked in Acquire. */
    ghost predicate Blocked(w: Waiter)
      reads `view, `calls
    {
      && w.ticket.id in calls && calls[w.ticket.id] == w && w.ticket.id in view.clients
      && (view.clients[w.ticket.id].Parked? || view.clients[w.ticket.id].Granted?)
    }

    lemma FlagsTell(w: Waiter)
      requires CallsMatch() && Blocked(w)
      ensures view.clients[w.ticket.id] == if w.granted then Granted(w.ticket, w.promoted) else Parked(w.ticket)
      ensures w.ready == w.granted
    {
    }

    /** The section a woken call runs. */
    method TakeUp(w: Waiter) returns (slot: Slot)
      requires Valid() && Blocked(w) && w.ready
      modifies `admitted, `promoted, `view, `slots
      ensures Valid()
      ensures Stepped(Cfg(), old(view), old(view).now, AdmissionProtocol.Wake(w.ticket.id), view)
      ensures fresh(slot) && slot.client == w.ticket.id && slots == old(slots)[slot.client := slot]
      ensures watchers == old(watchers)
    {
      hide ListsMatchCalls, CallsMatch, Registered, SlotsConserved, Abs, Apply;
      FlagsTell(w);
      ghost var e := AdmissionProtocol.Wake(w.ticket.id);
      ghost var after := Apply(Cfg(), view.(now := view.now), e);
      SteppedKeepsInv(Cfg(), view, view.now, e, after);
      WakeEffect(Cfg(), view, w.ticket.id);
      admitted := admitted + 1;
      if w.promoted {
        promoted := promoted + 1;
      }
      slot := new Slot(w.ticket.id);
      NoteAdmission(slot, after, w.promoted);
    }

    /** Acquire after its channel opened: the call holds its slot. */
    method Wake(w: Waiter) returns (slot: Slot)
      requires Valid() && Blocked(w) && w.ready
      modifies `admitted, `promoted, `view, `slots
      ensures Valid()
      ensures Stepped(Cfg(), old(view), old(view).now, AdmissionProtocol.Wake(w.ticket.id), view)
      ensures fresh(slot) && slot.client == w.ticket.id && slots == old(slots)[slot.client := slot]
      ensures watchers == old(watchers)
      ensures forall ch, p | old(WatchedBy(ch, p)) ::
                WatchedBy(ch, RepaintLoop.Moved(Cfg(), p, old(view).now, AdmissionProtocol.Wake(w.ticket.id)))
    {
      hide Valid, Coupled, Blocked, Stepped, Apply, Enabled, Signalled, RepaintLoop.CanHappen, RepaintLoop.Happen, RepaintLoop.Moved;
      slot := TakeUp(w);
      WatchersSee(old(view), old(watchers), old(view).now, AdmissionProtocol.Wake(w.ticket.id));
    }

    /** Acquire after its context ended, the slot already granted: passes it straight on. */
    method CancelGrantedCall(w: Waiter, now: int) returns (ghost pick: Option<Grant>)
      requires Valid() && Blocked(w) && w.granted && view.now <= now
      modifies this, calls.Values
      ensures Valid() && calls == old(calls) && slots == old(slots) && watchers == Signalled(old(watchers))
      ensures Stepped(Cfg(), old(view), now, CancelGranted(w.ticket.id, pick), view)
    {
      hide ListsMatchCalls, CallsMatch, Registered, SlotsConserved, Abs, Apply, Handoff, HandoffAllowed;
      FlagsTell(w);
      ghost var before := view;
      ghost var mid := Ceded(view.(now := now), w.ticket.id, Raced(w.ticket, w.promoted));
      CedingKeepsMatch(Cfg(), view, now, w.ticket.id, Raced(w.ticket, w.promoted));
      NoteGivingUp(w.ticket.id, Raced(w.ticket, w.promoted), mid);
      pick := ReleaseLocked(now);
      CancelGrantedEffect(Cfg(), before, now, w.ticket.id, pick);
      SteppedKeepsInv(Cfg(), before, now, CancelGranted(w.ticket.id, pick), view.(cancelled := view.cancelled + 1));
      CountCancellation();
    }

    /** Acquire after its context ended, still parked: leaves its list. */
    method CancelParkedCall(w: Waiter, ghost now: int)
      requires Valid() && Blocked(w) && !w.granted && view.now <= now
      modifies this
      ensures Valid() && calls == old(calls) && slots == old(slots) && watchers == Signalled(old(watchers))
      ensures Stepped(Cfg(), old(view), now, CancelParked(w.ticket.id), view)
    {
      hide ListsMatchCalls, CallsMatch, Registered, SlotsConserved, Abs, Apply, Remove, WellFormed;
      FlagsTell(w);
      ParkedWaiterIsListed(w);
      ghost var e := CancelParked(w.ticket.id);
      ghost var after := Apply(Cfg(), view.(now := now), e);
      SteppedKeepsInv(Cfg(), view, now, e, after);
      CancelParkedEffect(Cfg(), view, now, w.ticket.id);
      LeaveList(w);
      NoteGivingUp(w.ticket.id, GaveUp(w.ticket), after);
    }

    /** The critical section of a cancelled Acquire. */
    method Cancel(w: Waiter, now: int) returns (ghost pick: Option<Grant>)
      requires Valid() && Blocked(w) && view.now <= now
      modifies this, calls.Values
      ensures Valid() && watchers == Signalled(old(watchers))
      ensures if old(w.granted) then Stepped(Cfg(), old(view), now, CancelGranted(w.ticket.id, pick), view)
              else Stepped(Cfg(), old(view), now, CancelParked(w.ticket.id), view)
      ensures forall ch, p | old(WatchedBy(ch, p)) ::
                WatchedBy(ch, RepaintLoop.Moved(Cfg(), p, now,
                                                if old(w.granted) then CancelGranted(w.ticket.id, pick) else CancelParked(w.ticket.id)))
    {
      hide Valid, Coupled, Blocked, Stepped, Apply, Enabled, Signalled, RepaintLoop.CanHappen, RepaintLoop.Happen, RepaintLoop.Moved;
      if w.granted {
        pick := CancelGrantedCall(w, now);
        WatchersSee(old(view), old(watchers), now, CancelGranted(w.ticket.id, pick));
      } else {
        CancelParkedCall(w, now);
        pick := None;
        WatchersSee(old(view), old(watchers), now, CancelParked(w.ticket.id));
      }
    }

    /** Release: the first call gives the slot back, every later one does nothing. */
    method Release(slot: Slot, now: int) returns (ghost pick: Option<Grant>)
      requires Valid() && view.now <= now
      requires slot.client in slots && slots[slot.client] == slot
      modifies this, calls.Values, slot
      ensures Valid() && slot.spent
      ensures if old(slot.spent) then unchanged(this) && unchanged(calls.Values)
              else && Stepped(Cfg(), old(view), now, AdmissionProtocol.Release(slot.client, pick), view)
                   && watchers == Signalled(old(watchers))
                   && forall ch, p | old(WatchedBy(ch, p)) ::
                        WatchedBy(ch, RepaintLoop.Moved(Cfg(), p, now, AdmissionProtocol.Release(slot.client, pick)))
    {
      hide Valid, Coupled, Stepped, Apply, Enabled, Signalled, RepaintLoop.CanHappen, RepaintLoop.Happen, RepaintLoop.Moved;
      pick := None;
      if !slot.spent {
        pick := FirstRelease(slot, now);
        WatchersSee(old(view), old(watchers), now, AdmissionProtocol.Release(slot.client, pick));
      }
    }

    method FirstRelease(slot: Slot, now: int) returns (ghost pick: Option<Grant>)
      requires Valid() && view.now <= now
      requires slot.client in slots && slots[slot.client] == slot && !slot.spent
      modifies this, calls.Values, slot
      ensures Valid() && slot.spent && watchers == Signalled(old(watchers))
      ensures Stepped(Cfg(), old(view), now, AdmissionProtocol.Release(slot.client, pick), view)
    {
      hide ListsMatchCalls, CallsMatch, Registered, SlotsConserved, Abs, Apply, Handoff, HandoffAllowed;
      ghost var before, c := view, slot.client;
      UnspentMeansHolding(slot);
      ghost var p := Served(view.clients[c].promoted);
      CedingKeepsMatch(Cfg(), view, now, c, p);
      Spend(slot, Ceded(view.(now := now), c, p));
      pick := ReleaseLocked(now);
      ReleaseEffect(Cfg(), before, now, c, pick);
      SteppedKeepsInv(Cfg(), before, now, AdmissionProtocol.Release(c, pick), view);
    }

    lemma UnspentMeansHolding(slot: Slot)
      requires CallsMatch() && slot.client in slots && slots[slot.client] == slot && !slot.spent
      ensures slot.client in view.clients && view.clients[slot.client].Holding?
    {
    }

    lemma ParkedWaiterIsListed(w: Waiter)
      requires Coupled() && Blocked(w) && !w.granted
      ensures WellFormed(Abs(classes)) && w.ticket.priority in classes && w in classes[w.ticket.priority]
    {
      FlagsTell(w);
      WaitersAreQueued(view.classes, w.ticket);
      var i :| 0 <= i < |view.classes[w.ticket.priority]| && view.classes[w.ticket.priority][i] == w.ticket;
      assert At(classes, w.ticket.priority, i) == w;
    }

    /** A snapshot of the queue, read from class heads only. */
    method Snapshot(now: int) returns (s: Stats)
      requires Valid() && view.now <= now
      ensures s.capacity == capacity && s.inFlight == SlotsTaken(view.clients)
      ensures s.waiting == waiting && s.promoteAfter == promoteAfter
      ensures s.admitted == admitted && s.promoted == promoted && s.cancelled == cancelled
      ensures ReportsQueue(view.classes, now, s)
      ensures RepaintLoop.ReadOff(RepaintLoop.FrameOf(Cfg(), view), s)
    {
      hide ListsMatchCalls, CallsMatch, Registered, WellFormed, RowsFor, WaitSoFar, SortRows, ReportsQueue;
      SlotsBalance();
      ghost var cs := view.classes;
      MatchingListsAreWellFormed(view);
      NoWaiterIsFromTheFuture(view, now);
      var rows, oldest := [], 0;
      var todo := classes.Keys;
      StartRows(cs, now);
      assert classes.Keys - todo == {};
      while todo != {}
        modifies {}
        invariant todo <= classes.Keys
        invariant RowsFor(cs, now, rows, classes.Keys - todo) && WaitSoFar(cs, now, oldest, classes.Keys - todo)
      {
        Inhabited(todo);
        var p :| p in todo;
        AddRow(cs, now, rows, classes.Keys - todo, p);
        AddWait(cs, now, oldest, classes.Keys - todo, p);
        var wait := now - classes[p][0].ticket.since;
        rows := rows + [ClassStat(p, |classes[p]|, wait)];
        oldest := if oldest >= wait then oldest else wait;
        assert classes.Keys - (todo - {p}) == classes.Keys - todo + {p};
        todo := todo - {p};
      }
      assert classes.Keys - todo == cs.Keys;
      s := Stats(capacity, capacity - free, waiting, promoteAfter, SortRows(rows), oldest, admitted, promoted, cancelled);
      RowsAreAReport(cs, now, rows, s);
      hide RepaintLoop.ReadOff, RepaintLoop.FrameOf;
      RepaintLoop.FrameIsReadOff(Cfg(), view, now, s);
    }

    lemma SlotsBalance()
      requires Valid()
      ensures capacity - free == SlotsTaken(view.clients)
    {
    }

    method CountCancellation()
      requires Coupled() && Inv(Cfg(), view.(cancelled := view.cancelled + 1))
      modifies `cancelled, `view
      ensures cancelled == old(cancelled) + 1 && view == old(view).(cancelled := old(view).cancelled + 1)
      ensures Valid()
    {
      hide SlotsConserved, Registered, ListsMatchCalls, Abs;
      cancelled := cancelled + 1;
      view := view.(cancelled := view.cancelled + 1);
    }

    method LeaveList(w: Waiter)
      requires WellFormed(Abs(classes)) && Registered(classes, calls)
      requires w.ticket.priority in classes && w in classes[w.ticket.priority]
      modifies `classes, `waiting, `cancelled, `watchers
      ensures waiting == old(waiting) - 1 && cancelled == old(cancelled) + 1
      ensures Abs(classes) == Remove(old(Abs(classes)), w.ticket) && Registered(classes, calls)
      ensures watchers == Signalled(old(watchers))
    {
      hide WellFormed, Registered, Remove, Abs;
      RemoveLocked(w);
      cancelled := cancelled + 1;
      NotifyLocked();
    }
  }

  /** Call `c` has given its slot up; the slot itself is still to be handed on. */
  function Ceded(s: Sys, c: nat, p: Phase): Sys {
    s.(clients := s.clients[c := p])
  }

  lemma CedingKeepsMatch(cfg: Config, s: Sys, now: int, c: nat, p: Phase)
    requires ListsMatchCalls(s) && s.now <= now && c in s.clients && TakesSlot(s.clients[c]) && (p.Raced? || p.Served?)
    ensures ListsMatchCalls(Ceded(s.(now := now), c, p))
  {
    StepKeepsMatch(cfg, s, Tick(now));
    ChangingPhaseKeepsMatch(s.(now := now), Ceded(s.(now := now), c, p), c, p);
  }

  lemma CancelGrantedEffect(cfg: Config, s: Sys, now: int, c: nat, pick: Option<Grant>)
    requires s.now <= now && c in s.clients && s.clients[c].Granted?
    requires HandoffAllowed(cfg, Ceded(s.(now := now), c, Raced(s.clients[c].ticket, s.clients[c].promoted)), pick)
    ensures var mid := Handoff(Ceded(s.(now := now), c, Raced(s.clients[c].ticket, s.clients[c].promoted)), pick);
            Stepped(cfg, s, now, CancelGranted(c, pick), mid.(cancelled := mid.cancelled + 1))
  {
  }

  lemma ReleaseEffect(cfg: Config, s: Sys, now: int, c: nat, pick: Option<Grant>)
    requires s.now <= now && c in s.clients && s.clients[c].Holding?
    requires HandoffAllowed(cfg, Ceded(s.(now := now), c, Served(s.clients[c].promoted)), pick)
    ensures Stepped(cfg, s, now, AdmissionProtocol.Release(c, pick),
                    Handoff(Ceded(s.(now := now), c, Served(s.clients[c].promoted)), pick))
  {
  }

  lemma CancelParkedEffect(cfg: Config, s: Sys, now: int, c: nat)
    requires s.now <= now && c in s.clients && s.clients[c].Parked?
    ensures var t := s.clients[c].ticket;
            Apply(cfg, s.(now := now), CancelParked(c))
            == s.(now := now, classes := Remove(s.classes, t), waiting := s.waiting - 1, cancelled := s.cancelled + 1,
                  clients := s.clients[c := GaveUp(t)])
  {
  }

  lemma WakeEffect(cfg: Config, s: Sys, c: nat)
    requires c in s.clients && s.clients[c].Granted?
    ensures var b := s.clients[c].promoted;
            Apply(cfg, s.(now := s.now), AdmissionProtocol.Wake(c))
            == s.(admitted := s.admitted + 1, promoted := s.promoted + (if b then 1 else 0),
                  clients := s.clients[c := Holding(b)])
  {
  }

  lemma FastAdmitEffect(cfg: Config, s: Sys, now: int, p: int)
    requires s.now <= now && Enabled(cfg, s.(now := now), FastAdmit(p))
    ensures Apply(cfg, s.(now := now), FastAdmit(p))
            == s.(now := now, free := s.free - 1, admitted := s.admitted + 1,
                  clients := s.clients[s.next := Holding(false)], next := s.next + 1)
  {
  }

  lemma ParkEffect(cfg: Config, s: Sys, now: int, p: int)
    requires s.now <= now && Enabled(cfg, s.(now := now), Park(p))
    ensures var t := Ticket(s.next, p, now);
            Apply(cfg, s.(now := now), Park(p))
            == s.(now := now, classes := Push(s.classes, t), waiting := s.waiting + 1,
                  clients := s.clients[s.next := Parked(t)], next := s.next + 1, arrivals := s.arrivals + [t])
  {
  }

  /** One event of the protocol, at clock reading `now`. */
  ghost predicate Stepped(cfg: Config, s: Sys, now: int, e: Event, s': Sys) {
    Enabled(cfg, s, Tick(now)) && Enabled(cfg, s.(now := now), e) && s' == Apply(cfg, s.(now := now), e)
  }

  lemma SteppedKeepsInv(cfg: Config, s: Sys, now: int, e: Event, s': Sys)
    requires Inv(cfg, s) && Stepped(cfg, s, now, e, s')
    ensures Inv(cfg, s')
  {
    StepKeepsMatch(cfg, s, Tick(now));
    StepConservesSlots(cfg, s, Tick(now));
    StepKeepsMatch(cfg, s.(now := now), e);
    StepConservesSlots(cfg, s.(now := now), e);
  }

  /** `classes` with `w` appended to its class. */
  function Linked(classes: map<int, seq<Waiter>>, w: Waiter): map<int, seq<Waiter>> {
    classes[w.ticket.priority :=
      (if w.ticket.priority in classes then classes[w.ticket.priority] else []) + [w]]
  }

  lemma LinkingIsPushing(classes: map<int, seq<Waiter>>, calls: map<nat, Waiter>, w: Waiter)
    requires Registered(classes, calls) && w.ticket.id !in calls
    ensures Abs(Linked(classes, w)) == Push(Abs(classes), w.ticket)
    ensures Registered(Linked(classes, w), calls[w.ticket.id := w])
  {
    var after, p := Linked(classes, w), w.ticket.priority;
    var l := if p in classes then classes[p] else [];
    assert Tickets(l + [w]) == Tickets(l) + [w.ticket];
    forall q, j: nat | q in after && j < |after[q]|
      ensures var v := At(after, q, j); v.ticket.id in calls[w.ticket.id := w] && calls[w.ticket.id := w][v.ticket.id] == v
    {
      if q != p || j < |l| {
        assert At(after, q, j) == At(classes, q, j);
      }
    }
  }

  /** What popping returned is an allowed outcome of the handoff. */
  lemma PickIsAllowed(cfg: Config, s: Sys, classes: map<int, seq<Waiter>>, nobody: bool, pick: Option<Grant>)
    requires s.classes == Abs(classes) && (nobody <==> pick.None?)
    requires nobody ==> classes == map[]
    requires !nobody ==> HeadPick(Abs(classes), s.justPromoted, s.now, cfg.promoteAfter, pick.value)
    ensures HandoffAllowed(cfg, s, pick)
  {
  }

  lemma HandoffMarks(s: Sys, t: Ticket, promo: bool)
    ensures Handoff(s, Some(Grant(t, promo))).clients == s.clients[t.id := Granted(t, promo)]
  {
  }

  lemma HandoffEffect(cfg: Config, s: Sys, pick: Option<Grant>)
    requires ListsMatchCalls(s) && HandoffAllowed(cfg, s, pick)
    ensures var after := Handoff(s, pick);
            match pick
            case None => after == s.(free := s.free + 1)
            case Some(g) =>
              && after.classes == Remove(s.classes, g.ticket) && after.waiting == s.waiting - 1
              && after.justPromoted == g.promoted
              && g.ticket.id in s.clients && s.clients[g.ticket.id] == Parked(g.ticket)
  {
    if pick.Some? {
      PickIsParked(cfg, s, pick.value);
    }
  }

  lemma MatchingListsAreWellFormed(s: Sys)
    requires ListsMatchCalls(s)
    ensures WellFormed(s.classes)
  {
  }

  ghost predicate HeadIn(classes: map<int, seq<Waiter>>, w: Waiter) {
    w.ticket.priority in classes && classes[w.ticket.priority] != [] && classes[w.ticket.priority][0] == w
  }

  ghost predicate Beats(classes: map<int, seq<Waiter>>, p: int, top: Waiter?, oldest: Waiter?)
    requires p in classes
  {
    classes[p] != [] && top != null && oldest != null
    && classes[p][0].ticket.priority <= top.ticket.priority
    && oldest.ticket.since <= classes[p][0].ticket.since
  }

  lemma CandidatesAreHeads(classes: map<int, seq<Waiter>>, top: Waiter, oldest: Waiter)
    requires WellFormed(Abs(classes)) && HeadIn(classes, top) && HeadIn(classes, oldest)
    requires forall p | p in classes :: Beats(classes, p, top, oldest)
    ensures TopHead(Abs(classes), top.ticket) && OldestHead(Abs(classes), oldest.ticket)
    ensures oldest.ticket == top.ticket <==> oldest == top
  {
    var cs := Abs(classes);
    assert cs[top.ticket.priority][0] == top.ticket;
    assert cs[oldest.ticket.priority][0] == oldest.ticket;
    forall p | p in cs && cs[p] != []
      ensures cs[p][0].priority <= top.ticket.priority && oldest.ticket.since <= cs[p][0].since
    {
      assert Beats(classes, p, top, oldest);
    }
  }
}
