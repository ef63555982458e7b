/** The auto-reset or manual-reset event of epoll_server/event.cpp. `set`, `reset` and every stretch of
    a wait between two acquisitions of the mutex are atomic; any number of threads interleave, a wait
    may wake up without reason, and a timed wait may time out at any moment. */
module CEvents {

  datatype Phase = Free | Waiting | TryWaiting

  datatype State = State(autoReset: bool, ready: bool, phases: map<nat, Phase>)

  /** One atomic step of thread `thread`. `Wake` steps follow the return of the condition variable,
      with the mutex held again. */
  datatype Step =
    | Set(thread: nat)
    | Reset(thread: nat)
    | WaitEnter(thread: nat)
    | WaitWake(thread: nat)
    | TryEnter(thread: nat)
    | TryWake(thread: nat, timedOut: bool)

  datatype Outcome = Pending | Signalled | TimedOut

  function PhaseOf(s: State, t: nat): Phase {
    if t in s.phases then s.phases[t] else Free
  }

  predicate Enabled(s: State, step: Step) {
    PhaseOf(s, step.thread) ==
    match step
    case WaitWake(_) => Waiting
    case TryWake(_, _) => TryWaiting
    case _ => Free
  }

  predicate IsWait(step: Step) {
    !step.Set? && !step.Reset?
  }

  /** How a step of a wait ends: the test of the loop is made with the mutex held, except that a timed
      wait which timed out leaves the loop without testing again. */
  function Result(s: State, step: Step): Outcome {
    if step.TryWake? && step.timedOut then TimedOut
    else if IsWait(step) && s.ready then Signalled
    else Pending
  }

  function Next(s: State, step: Step): State {
    match step
    case Set(_) => s.(ready := true)
    case Reset(_) => s.(ready := false)
    case _ =>
      match Result(s, step)
      case Pending => s.(phases := s.phases[step.thread := if step.WaitEnter? || step.WaitWake? then Waiting else TryWaiting])
      case Signalled => s.(ready := !s.autoReset, phases := s.phases[step.thread := Free])
      case TimedOut => s.(phases := s.phases[step.thread := Free])
  }

  ghost predicate Possible(s: State, steps: seq<Step>)
    decreases |steps|
  {
    steps == [] || (Enabled(s, steps[0]) && Possible(Next(s, steps[0]), steps[1..]))
  }

  ghost function Run(s: State, steps: seq<Step>): State
    decreases |steps|
  {
    if steps == [] then s else Run(Next(s, steps[0]), steps[1..])
  }

  // ---------------------------------------------------------------- accounting

  function One(b: bool): nat { if b then 1 else 0 }

  /** How often the event goes from not ready to ready. */
  ghost function Rises(s: State, steps: seq<Step>): nat
    decreases |steps|
  {
    if steps == [] then 0
    else One(!s.ready && Next(s, steps[0]).ready) + Rises(Next(s, steps[0]), steps[1..])
  }

  /** How many waits return because of a signal. */
  ghost function Wins(s: State, steps: seq<Step>): nat
    decreases |steps|
  {
    if steps == [] then 0
    else One(Result(s, steps[0]) == Signalled) + Wins(Next(s, steps[0]), steps[1..])
  }

  /** How many resets find the event ready. */
  ghost function Clears(s: State, steps: seq<Step>): nat
    decreases |steps|
  {
    if steps == [] then 0
    else One(steps[0].Reset? && s.ready) + Clears(Next(s, steps[0]), steps[1..])
  }

  /** The event stops being ready by a reset, or by an auto-reset wait that returns; a wait that times
      out takes nothing, even if the event has become ready meanwhile. */
  lemma ReadyFalls(s: State, step: Step)
    requires Enabled(s, step)
    ensures s.ready && !Next(s, step).ready <==>
            s.ready && (step.Reset? || (s.autoReset && Result(s, step) == Signalled))
    ensures Result(s, step) == TimedOut ==> Next(s, step).ready == s.ready
  {
  }

  ghost predicate OthersStay(s: State, s': State, t: nat) {
    forall u :: u != t ==> PhaseOf(s', u) == PhaseOf(s, u)
  }

  /** `set` and `reset` decide the flag whatever it was, and move no thread. */
  lemma SignalOutcome(s: State, t: nat)
    ensures Next(s, Set(t)) == State(s.autoReset, true, s.phases)
    ensures Next(s, Reset(t)) == State(s.autoReset, false, s.phases)
  {
  }

  /** A step of an untimed wait: it returns exactly if the event is ready, taking the signal of an
      auto-reset event and leaving that of a manual-reset one, and goes on waiting otherwise. */
  lemma WaitOutcome(s: State, t: nat)
    ensures forall step :: step == WaitEnter(t) || step == WaitWake(t) ==>
              var s' := Next(s, step);
              && OthersStay(s, s', t) && s'.autoReset == s.autoReset
              && Result(s, step) == (if s.ready then Signalled else Pending)
              && PhaseOf(s', t) == (if s.ready then Free else Waiting)
              && (s'.ready <==> s.ready && !s.autoReset)
  {
  }

  /** A step of a timed wait: the same, except that a time-out ends it whatever the event is, and takes
      nothing. */
  lemma TryWaitOutcome(s: State, t: nat)
    ensures forall step :: step == TryEnter(t) || step == TryWake(t, false) ==>
              var s' := Next(s, step);
              && OthersStay(s, s', t) && s'.autoReset == s.autoReset
              && Result(s, step) == (if s.ready then Signalled else Pending)
              && PhaseOf(s', t) == (if s.ready then Free else TryWaiting)
              && (s'.ready <==> s.ready && !s.autoReset)
    ensures var s' := Next(s, TryWake(t, true));
            OthersStay(s, s', t) && s'.autoReset == s.autoReset
            && Result(s, TryWake(t, true)) == TimedOut && PhaseOf(s', t) == Free && s'.ready == s.ready
  {
  }

  /** How many tests of the loop condition are made while the event is ready: a step of any wait but one
      that timed out. */
  ghost function Chances(s: State, steps: seq<Step>): nat
    decreases |steps|
  {
    if steps == [] then 0
    else
      (match steps[0]
       case Set(_) => 0
       case Reset(_) => 0
       case WaitEnter(_) => One(s.ready)
       case WaitWake(_) => One(s.ready)
       case TryEnter(_) => One(s.ready)
       case TryWake(_, timedOut) => One(s.ready && !timedOut))
      + Chances(Next(s, steps[0]), steps[1..])
  }

  /** Over every interleaving and for both kinds of event, every wait that looks while the event is ready
      returns, and no other does for a signal. */
  lemma {:induction false} EveryChanceIsTaken(s: State, steps: seq<Step>)
    requires Possible(s, steps)
    ensures Wins(s, steps) == Chances(s, steps)
    decreases |steps|
  {
    if steps == [] {
    } else {
      EveryChanceIsTaken(Next(s, steps[0]), steps[1..]);
    }
  }

  /** Over every interleaving: each time the event becomes ready, exactly one auto-reset wait returns
      or one reset takes the signal back, unless it is still there. */
  lemma {:induction false} AutoAccounting(s: State, steps: seq<Step>)
    requires s.autoReset && Possible(s, steps)
    ensures One(s.ready) + Rises(s, steps) == Wins(s, steps) + Clears(s, steps) + One(Run(s, steps).ready)
    decreases |steps|
  {
    if steps == [] {
    } else {
      AutoAccounting(Next(s, steps[0]), steps[1..]);
    }
  }

  /** A manual-reset event is cleared by resets alone, however many waits return. */
  lemma {:induction false} ManualAccounting(s: State, steps: seq<Step>)
    requires !s.autoReset && Possible(s, steps)
    ensures One(s.ready) + Rises(s, steps) == Clears(s, steps) + One(Run(s, steps).ready)
    decreases |steps|
  {
    if steps == [] {
    } else {
      ManualAccounting(Next(s, steps[0]), steps[1..]);
    }
  }

  /** From a new event: no more auto-reset waits return than signals were given. */
  lemma NoSignalTwice(steps: seq<Step>)
    requires Possible(State(true, false, map[]), steps)
    ensures Wins(State(true, false, map[]), steps) <= Rises(State(true, false, map[]), steps)
  {
    AutoAccounting(State(true, false, map[]), steps);
  }

  // ---------------------------------------------------------------- the object

  /** What happens while a waiter has given up the mutex: other threads leave `_ready` with some value,
      and the condition variable returns, with a timeout or without. */
  datatype Wake = Wake(ready: bool, timedOut: bool)

  /** A timed wait over the wake-ups it gets: its answer, if it has one, and `_ready` afterwards. */
  function TryLoop(autoReset: bool, ready: bool, wakes: seq<Wake>): (Outcome, bool)
    decreases |wakes|
  {
    if ready then (Signalled, !autoReset)
    else if wakes == [] then (Pending, ready)
    else if wakes[0].timedOut then (TimedOut, wakes[0].ready)
    else TryLoop(autoReset, wakes[0].ready, wakes[1..])
  }

  /** Before wake-up `k` nothing has happened that ends the wait. */
  ghost predicate QuietBefore(wakes: seq<Wake>, k: nat) {
    forall j :: 0 <= j < k && j < |wakes| ==> !wakes[j].ready && !wakes[j].timedOut
  }

  /** The first wake-up that ends the wait is number `k`. */
  ghost predicate EndsAt(wakes: seq<Wake>, k: nat) {
    k < |wakes| && QuietBefore(wakes, k) && (wakes[k].ready || wakes[k].timedOut)
  }

  /** What a wait answers: at once if the event is ready; else what the first wake-up says that brings a
      time-out, which takes nothing, or finds the event ready; and nothing if there is none. */
  lemma {:induction false} TryLoopExactly(autoReset: bool, ready: bool, wakes: seq<Wake>)
    ensures ready ==> TryLoop(autoReset, ready, wakes) == (Signalled, !autoReset)
    ensures !ready ==> forall k: nat :: EndsAt(wakes, k) ==>
              TryLoop(autoReset, ready, wakes) == if wakes[k].timedOut then (TimedOut, wakes[k].ready) else (Signalled, !autoReset)
    ensures !ready && QuietBefore(wakes, |wakes|) ==> TryLoop(autoReset, ready, wakes) == (Pending, false)
  {
    if !ready {
      forall k: nat | EndsAt(wakes, k)
        ensures TryLoop(autoReset, ready, wakes) == if wakes[k].timedOut then (TimedOut, wakes[k].ready) else (Signalled, !autoReset)
      {
        LoopEndsAt(autoReset, wakes, k);
      }
      if QuietBefore(wakes, |wakes|) {
        LoopStays(autoReset, wakes);
      }
    }
  }

  lemma {:induction false} LoopEndsAt(autoReset: bool, wakes: seq<Wake>, k: nat)
    requires EndsAt(wakes, k)
    ensures TryLoop(autoReset, false, wakes) == if wakes[k].timedOut then (TimedOut, wakes[k].ready) else (Signalled, !autoReset)
    decreases k
  {
    if k > 0 {
      var rest := wakes[1..];
      assert !wakes[0].ready && !wakes[0].timedOut;
      assert forall j :: 0 <= j < k ==> rest[j] == wakes[j + 1];
      LoopEndsAt(autoReset, rest, k - 1);
    }
  }

  lemma {:induction false} LoopStays(autoReset: bool, wakes: seq<Wake>)
    requires QuietBefore(wakes, |wakes|)
    ensures TryLoop(autoReset, false, wakes) == (Pending, false)
    decreases |wakes|
  {
    if wakes != [] {
      assert forall j :: 0 <= j < |wakes| - 1 ==> wakes[1..][j] == wakes[j + 1];
      LoopStays(autoReset, wakes[1..]);
    }
  }

  /** The same wait as steps of one thread, timed or not, between which the others leave `_ready` as they
      like. */
  ghost function Drive(s: State, step: Step, timed: bool, wakes: seq<Wake>): (Outcome, bool)
    decreases |wakes|
  {
    var next := Next(s, step);
    if Result(s, step) != Pending then (Result(s, step), next.ready)
    else if wakes == [] then (Pending, next.ready)
    else
      Drive(next.(ready := wakes[0].ready),
            if timed then TryWake(step.thread, wakes[0].timedOut) else WaitWake(step.thread), timed, wakes[1..])
  }

  /** The loops and the steps agree, from the entry of `tryWait` and of `wait` on; an untimed wait is one
      whose wake-ups bring no time-out. */
  lemma LoopIsSteps(s: State, t: nat, wakes: seq<Wake>)
    ensures Drive(s, TryEnter(t), true, wakes) == TryLoop(s.autoReset, s.ready, wakes)
    ensures (forall k :: 0 <= k < |wakes| ==> !wakes[k].timedOut) ==>
              Drive(s, WaitEnter(t), false, wakes) == TryLoop(s.autoReset, s.ready, wakes)
  {
    DriveLoop(s, TryEnter(t), true, wakes);
    if forall k :: 0 <= k < |wakes| ==> !wakes[k].timedOut {
      DriveLoop(s, WaitEnter(t), false, wakes);
    }
  }

  lemma {:induction false} DriveLoop(s: State, step: Step, timed: bool, wakes: seq<Wake>)
    requires if timed then step.TryEnter? || step.TryWake?
             else (step.WaitEnter? || step.WaitWake?) && forall k :: 0 <= k < |wakes| ==> !wakes[k].timedOut
    ensures Drive(s, step, timed, wakes)
            == if step.TryWake? && step.timedOut then (TimedOut, s.ready) else TryLoop(s.autoReset, s.ready, wakes)
    decreases |wakes|
  {
    if Result(s, step) == Pending && wakes != [] {
      DriveLoop(Next(s, step).(ready := wakes[0].ready),
                if timed then TryWake(step.thread, wakes[0].timedOut) else WaitWake(step.thread), timed, wakes[1..]);
    }
  }

  class CEvent {
    const autoReset: bool
    var ready: bool

    constructor (autoReset: bool := true)
      ensures this.autoReset == autoReset && !ready
    {
      this.autoReset := autoReset;
      ready := false;
    }

    method Set()
      modifies this
      ensures ready
    {
      ready := true;
    }

    method Reset()
      modifies this
      ensures !ready
    {
      ready := false;
    }

    /** `tryWait`, for the wake-ups the condition variable delivers. */
    method TryWait(wakes: seq<Wake>) returns (outcome: Outcome)
      modifies this
      ensures (outcome, ready) == TryLoop(autoReset, old(ready), wakes)
    {
      var timedOut := false;
      var k := 0;
      while !ready
        invariant 0 <= k <= |wakes| && !timedOut
        invariant TryLoop(autoReset, ready, wakes[k..]) == TryLoop(autoReset, old(ready), wakes)
        decreases |wakes| - k
      {
        if k == |wakes| {
          return Pending;
        }
        ready := wakes[k].ready;
        timedOut := wakes[k].timedOut;
        assert wakes[k..][1..] == wakes[k + 1..];
        k := k + 1;
        if timedOut {
          break;
        }
      }
      if !timedOut && autoReset {
        ready := false;
      }
      outcome := if timedOut then TimedOut else Signalled;
    }

    /** `wait`: the same loop without a time limit. */
    method Wait(readies: seq<bool>) returns (outcome: Outcome)
      modifies this
      ensures (outcome, ready) == TryLoop(autoReset, old(ready), seq(|readies|, i requires 0 <= i < |readies| => Wake(readies[i], false)))
    {
      ghost var wakes := seq(|readies|, i requires 0 <= i < |readies| => Wake(readies[i], false));
      var k := 0;
      while !ready
        invariant 0 <= k <= |readies|
        invariant TryLoop(autoReset, ready, wakes[k..]) == TryLoop(autoReset, old(ready), wakes)
        decreases |readies| - k
      {
        if k == |readies| {
          return Pending;
        }
        ready := readies[k];
        assert wakes[k..][1..] == wakes[k + 1..];
        k := k + 1;
      }
      if autoReset {
        ready := false;
      }
      outcome := Signalled;
    }
  }
}
