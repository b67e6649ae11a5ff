/** Draining WebSockets at shutdown: a counter of tracked sockets, a notifier, and any number of tasks
    that wait for the counter to be zero. */
module WebSocketTracking {
  import opened Basics

  /** `Armed` holds a notification future that is registered but has not been awaited; `Parked` awaits it.
      `notified` is set by a wake-up sent after the registration. */
  datatype Waiter = Starting | Armed(notified: bool) | Parked(notified: bool) | Returned

  /** `notifiers` counts guards that brought the counter to zero and have not woken the waiters yet. */
  datatype State = State(active: nat, notifiers: nat, waiters: seq<Waiter>)

  function Wake(waiters: seq<Waiter>): seq<Waiter> {
    seq(|waiters|, i requires 0 <= i < |waiters| =>
      match waiters[i]
      case Armed(_) => Armed(true)
      case Parked(_) => Parked(true)
      case other => other)
  }

  datatype Step =
    | Track
    | Untrack             // a guard's counter decrement
    | Notify              // the wake-up by a guard that saw itself last
    | Arm(i: nat)         // register for the next wake-up
    | Look(i: nat)        // read the counter
    | Resume(i: nat)      // an awaited notification arrives

  predicate Enabled(s: State, step: Step) {
    match step
    case Track => true
    case Untrack => s.active > 0
    case Notify => s.notifiers > 0
    case Arm(i) => i < |s.waiters| && s.waiters[i].Starting?
    case Look(i) => i < |s.waiters| && s.waiters[i].Armed?
    case Resume(i) => i < |s.waiters| && s.waiters[i] == Parked(true)
  }

  function Apply(s: State, step: Step): State
    requires Enabled(s, step)
  {
    match step
    case Track => s.(active := s.active + 1)
    case Untrack => s.(active := s.active - 1, notifiers := s.notifiers + if s.active == 1 then 1 else 0)
    case Notify => s.(notifiers := s.notifiers - 1, waiters := Wake(s.waiters))
    case Arm(i) => s.(waiters := s.waiters[i := Armed(false)])
    case Look(i) => s.(waiters := s.waiters[i := if s.active == 0 then Returned else Parked(s.waiters[i].notified)])
    case Resume(i) => s.(waiters := s.waiters[i := Starting])
  }

  function Init(waiting: nat): State {
    State(0, 0, seq(waiting, _ => Starting))
  }

  ghost predicate Legal(s: State, steps: seq<Step>)
    decreases |steps|
  {
    steps == [] || (Enabled(s, steps[0]) && Legal(Apply(s, steps[0]), steps[1..]))
  }

  ghost function Execute(s: State, steps: seq<Step>): State
    requires Legal(s, steps)
    decreases |steps|
  {
    if steps == [] then s else Execute(Apply(s, steps[0]), steps[1..])
  }

  /** A waiter that sleeps without a wake-up on its way has a socket, or a guard about to wake it. */
  ghost predicate NoLostWakeUp(s: State) {
    forall i | 0 <= i < |s.waiters| && s.waiters[i] == Parked(false) :: s.active > 0 || s.notifiers > 0
  }

  lemma {:induction false} NoWakeUpIsLost(s: State, steps: seq<Step>)
    requires NoLostWakeUp(s) && Legal(s, steps)
    ensures NoLostWakeUp(Execute(s, steps))
    decreases |steps|
  {
    if steps != [] {
      NoWakeUpIsLost(Apply(s, steps[0]), steps[1..]);
    }
  }

  /** Step `k` is a look at the counter by waiter `i`, and the counter is zero then. */
  ghost predicate SeesIdle(s: State, steps: seq<Step>, k: nat, i: nat) {
    k < |steps| && steps[k] == Look(i) && Legal(s, steps[..k]) && Execute(s, steps[..k]).active == 0
  }

  lemma SeesIdleLater(s: State, steps: seq<Step>, k: nat, i: nat)
    requires steps != [] && Enabled(s, steps[0])
    ensures SeesIdle(s, steps, k + 1, i) <==> SeesIdle(Apply(s, steps[0]), steps[1..], k, i)
  {
    if k + 1 < |steps| {
      assert steps[..k + 1][1..] == steps[1..][..k];
    }
  }

  /** In every run a waiter has returned exactly when at some point it looked at the counter and saw zero. */
  lemma {:induction false} ReturnsOnlyWhenIdle(s: State, steps: seq<Step>, i: nat)
    requires Legal(s, steps) && i < |s.waiters| && !s.waiters[i].Returned?
    ensures |Execute(s, steps).waiters| == |s.waiters|
    ensures Execute(s, steps).waiters[i].Returned? <==> exists k: nat :: SeesIdle(s, steps, k, i)
    decreases |steps|
  {
    if steps != [] {
      var s' := Apply(s, steps[0]);
      assert SeesIdle(s, steps, 0, i) <==> s'.waiters[i].Returned?;
      if s'.waiters[i].Returned? {
        ReturnedStays(s', steps[1..], i);
      } else {
        ReturnsOnlyWhenIdle(s', steps[1..], i);
        forall k: nat ensures SeesIdle(s, steps, k + 1, i) <==> SeesIdle(s', steps[1..], k, i) {
          SeesIdleLater(s, steps, k, i);
        }
        if k: nat :| SeesIdle(s, steps, k, i) {
          SeesIdleLater(s, steps, k - 1, i);
        }
      }
    }
  }

  lemma {:induction false} ReturnedStays(s: State, steps: seq<Step>, i: nat)
    requires Legal(s, steps) && i < |s.waiters| && s.waiters[i].Returned?
    ensures |Execute(s, steps).waiters| == |s.waiters| && Execute(s, steps).waiters[i].Returned?
    decreases |steps|
  {
    if steps != [] {
      ReturnedStays(Apply(s, steps[0]), steps[1..], i);
    }
  }

  // ----- waiters return once no new sockets arrive -----

  /** Moves a waiter has left before it sleeps or returns, if nobody wakes it again. */
  function Moves(w: Waiter): nat {
    match w
    case Parked(notified) => if notified then 3 else 0
    case Armed(notified) => if notified then 4 else 1
    case Starting => 2
    case Returned => 0
  }

  function AllMoves(waiters: seq<Waiter>): seq<nat> {
    seq(|waiters|, i requires 0 <= i < |waiters| => Moves(waiters[i]))
  }

  /** A bound on the moves left when no socket is added. */
  function Budget(s: State): nat {
    s.active * (3 * |s.waiters| + 2) + s.notifiers * (3 * |s.waiters| + 1) + Sum(AllMoves(s.waiters))
  }

  lemma {:induction false} WakeAddsMoves(waiters: seq<Waiter>)
    ensures Sum(AllMoves(Wake(waiters))) <= Sum(AllMoves(waiters)) + 3 * |waiters|
  {
    if waiters != [] {
      assert AllMoves(Wake(waiters))[1..] == AllMoves(Wake(waiters[1..]));
      assert AllMoves(waiters)[1..] == AllMoves(waiters[1..]);
      WakeAddsMoves(waiters[1..]);
    }
  }

  lemma StepUsesBudget(s: State, step: Step)
    requires Enabled(s, step) && !step.Track?
    ensures Budget(Apply(s, step)) < Budget(s) && |Apply(s, step).waiters| == |s.waiters|
  {
    var s', n := Apply(s, step), |s.waiters|;
    if step.Untrack? {
      assert s.active * (3 * n + 2) == s'.active * (3 * n + 2) + (3 * n + 2);
      if s.active == 1 {
        assert s'.notifiers * (3 * n + 1) == s.notifiers * (3 * n + 1) + (3 * n + 1);
      }
    } else if step.Notify? {
      assert s.notifiers * (3 * n + 1) == s'.notifiers * (3 * n + 1) + (3 * n + 1);
      WakeAddsMoves(s.waiters);
    } else {
      assert AllMoves(s'.waiters) == AllMoves(s.waiters)[step.i := Moves(s'.waiters[step.i])];
      SumUpdate(AllMoves(s.waiters), step.i, Moves(s'.waiters[step.i]));
    }
  }

  lemma {:induction false} DrainIsBounded(s: State, steps: seq<Step>)
    requires Legal(s, steps) && forall k | 0 <= k < |steps| :: !steps[k].Track?
    ensures |steps| <= Budget(s)
    decreases |steps|
  {
    if steps != [] {
      StepUsesBudget(s, steps[0]);
      DrainIsBounded(Apply(s, steps[0]), steps[1..]);
    }
  }

  /** From the moment no socket is added the run is bounded, and when it can go no further (every guard
      dropped, every wake-up delivered) every waiter has returned. */
  lemma DrainedWaitersReturn(waiting: nat, before: seq<Step>, draining: seq<Step>)
    requires Legal(Init(waiting), before) && forall k | 0 <= k < |draining| :: !draining[k].Track?
    requires Legal(Execute(Init(waiting), before), draining)
    ensures var s := Execute(Init(waiting), before);
      var s' := Execute(s, draining);
      && |draining| <= Budget(s)
      && ((forall step :: Enabled(s', step) ==> step.Track?) <==>
          s'.active == 0 && s'.notifiers == 0 && forall i | 0 <= i < |s'.waiters| :: s'.waiters[i].Returned?)
  {
    var s := Execute(Init(waiting), before);
    DrainIsBounded(s, draining);
    NoWakeUpIsLost(Init(waiting), before);
    NoWakeUpIsLost(s, draining);
    var s' := Execute(s, draining);
    if forall step :: Enabled(s', step) ==> step.Track? {
      assert !Enabled(s', Untrack) && !Enabled(s', Notify);
      forall i | 0 <= i < |s'.waiters| ensures s'.waiters[i].Returned? {
        assert !Enabled(s', Arm(i)) && !Enabled(s', Look(i)) && !Enabled(s', Resume(i));
      }
    }
  }

  // ----- the tracker -----

  /** The cells behind the tracker: `active`, and the waiters registered with the notifier. The ghost field
      counts the guards between their decrement and their wake-up. Each method is what the protocol says of it. */
  class WebSocketTracker {
    var active: nat
    var waiters: seq<Waiter>
    ghost var notifiers: nat

    constructor (waiting: nat)
      ensures Now() == Init(waiting)
    {
      active := 0;
      waiters := seq(waiting, _ => Starting);
      notifiers := 0;
    }

    ghost function Now(): State
      reads this
    {
      State(active, notifiers, waiters)
    }

    method Track()
      modifies this`active
      ensures Now() == Apply(old(Now()), Step.Track)
    {
      active := active + 1;
    }

    /** The atomic decrement of a dropped guard, and whether that guard must wake the waiters. */
    method Untrack() returns (last: bool)
      requires active > 0
      modifies this`active, this`notifiers
      ensures Now() == Apply(old(Now()), Step.Untrack)
      ensures (last <==> active == 0) && (last <==> notifiers == old(notifiers) + 1)
    {
      var previous := active;
      active := active - 1;
      last := previous == 1;
      notifiers := notifiers + if last then 1 else 0;
    }

    /** Nobody who was registered sleeps on: a parked waiter can resume, and one that has yet to await its
        notification will find it there. */
    method NotifyWaiters()
      requires notifiers > 0
      modifies this`waiters, this`notifiers
      ensures Now() == Apply(old(Now()), Notify)
      ensures |waiters| == |old(waiters)| && forall i | 0 <= i < |waiters| ::
        && (old(waiters[i]).Parked? ==> Enabled(Now(), Resume(i)))
        && (old(waiters[i]).Armed? ==> waiters[i] == Armed(true))
        && (old(waiters[i]).Starting? || old(waiters[i]).Returned? ==> waiters[i] == old(waiters[i]))
    {
      waiters := Wake(waiters);
      notifiers := notifiers - 1;
    }

    /** A guard is dropped: one or two steps of the protocol. If it was the last, no waiter is left asleep. */
    method DropGuard() returns (ghost steps: seq<Step>)
      requires active > 0
      modifies this`active, this`waiters, this`notifiers
      ensures Legal(old(Now()), steps) && Execute(old(Now()), steps) == Now()
      ensures active == old(active) - 1 && notifiers == old(notifiers)
      ensures if active > 0 then waiters == old(waiters)
        else forall i | 0 <= i < |waiters| :: waiters[i] != Armed(false) && waiters[i] != Parked(false)
    {
      ghost var before := Now();
      var last := Untrack();
      if last {
        ghost var between := Now();
        NotifyWaiters();
        steps := [Step.Untrack, Notify];
        assert steps[1..] == [Notify] && Legal(Now(), [Notify][1..]);
        assert Execute(between, [Notify]) == Now();
      } else {
        steps := [Step.Untrack];
      }
    }

    /** The counter is read; a waiter that sees zero returns, any other awaits its notification. */
    method Look(i: nat) returns (idle: bool)
      requires i < |waiters| && waiters[i].Armed?
      modifies this`waiters
      ensures Now() == Apply(old(Now()), Step.Look(i))
      ensures idle <==> active == 0
      ensures idle <==> waiters[i].Returned?
    {
      idle := active == 0;
      waiters := waiters[i := if idle then Returned else Parked(waiters[i].notified)];
    }
  }
}
