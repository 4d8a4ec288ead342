/** The debounce filter shared by the two buttons and the flags their interrupt handlers
    toggle. Interrupts are delivered one at a time, each handler running to completion
    before the next press is seen, so a run of the sketch is a sequence of presses. */
module Buttons {
  import opened Words

  /** Minimum gap, in milliseconds, between two accepted presses. */
  const DEBOUNCE_MS: int := 200

  datatype Button = Joystick | ButtonA

  /** A falling edge on one button, stamped with the milliseconds since boot as a
      `uint32_t`. */
  datatype Event = Event(button: Button, now: uint32)

  /** The debounce filter's remembered time and the three flags the handlers toggle. */
  datatype State = State(lastPressTime: uint32, greenLedState: bool, borderStyle: bool, allLedsOn: bool)

  const Init: State := State(0, false, false, false)

  /** Result of one debounce check: whether the press is accepted, and the remembered
      time afterwards. */
  datatype Debounced = Debounced(accepted: bool, lastPressTime: uint32)

  /** A press is rejected exactly when it falls in the 201 ms starting at the last
      accepted press, that window being taken around the 2^32 ms wrap of the clock. */
  predicate WithinWindow(last: uint32, now: uint32) {
    (last <= now <= last + DEBOUNCE_MS) || now + U32_MODULUS <= last + DEBOUNCE_MS
  }

  /** The debounce check: accept when the wrap-around time since the last accepted
      press exceeds 200 ms, and then remember the current time. */
  function Debounce(last: uint32, now: uint32): (d: Debounced)
    ensures d.accepted <==> !WithinWindow(last, now)
    ensures d.accepted ==> d.lastPressTime == now
    ensures !d.accepted ==> d.lastPressTime == last
  {
    if SubU32(now, last) > DEBOUNCE_MS then Debounced(true, now) else Debounced(false, last)
  }

  predicate Accepts(s: State, now: uint32) {
    Debounce(s.lastPressTime, now).accepted
  }

  /** `joystick_button_isr`: an accepted press toggles the green LED and the border
      style together. */
  function JoystickIsr(s: State, now: uint32): (t: State)
    ensures !Accepts(s, now) ==> t == s
    ensures Accepts(s, now) ==> t == State(now, !s.greenLedState, !s.borderStyle, s.allLedsOn)
  {
    var d := Debounce(s.lastPressTime, now);
    if d.accepted then
      s.(lastPressTime := d.lastPressTime, greenLedState := !s.greenLedState, borderStyle := !s.borderStyle)
    else
      s
  }

  /** `button_a_isr`: an accepted press toggles the all-LEDs-on mode and nothing else. */
  function ButtonAIsr(s: State, now: uint32): (t: State)
    ensures !Accepts(s, now) ==> t == s
    ensures Accepts(s, now) ==> t == State(now, s.greenLedState, s.borderStyle, !s.allLedsOn)
  {
    var d := Debounce(s.lastPressTime, now);
    if d.accepted then
      s.(lastPressTime := d.lastPressTime, allLedsOn := !s.allLedsOn)
    else
      s
  }

  function Step(s: State, e: Event): State {
    match e.button
    case Joystick => JoystickIsr(s, e.now)
    case ButtonA => ButtonAIsr(s, e.now)
  }

  /** The state after the handlers have processed `events` in order. */
  function Run(s: State, events: seq<Event>): State
    decreases |events|
  {
    if events == [] then s else Run(Step(s, events[0]), events[1..])
  }

  /** Number of presses of button `b` in `events` that the debounce filter accepts,
      starting from state `s`. */
  function AcceptedCount(s: State, events: seq<Event>, b: Button): nat
    decreases |events|
  {
    if events == [] then 0
    else
      (if events[0].button == b && Accepts(s, events[0].now) then 1 else 0)
        + AcceptedCount(Step(s, events[0]), events[1..], b)
  }

  /** The green LED and the border style always agree. */
  predicate Coupled(s: State) {
    s.greenLedState == s.borderStyle
  }

  /** The time since boot is 0 when the filter starts, so no press in the first 200 ms
      is accepted. */
  lemma EarlyPressRejected(e: Event)
    ensures Step(Init, e) == Init <==> e.now <= DEBOUNCE_MS
  {
  }

  /** Either handler keeps the green LED and the border style in step. */
  lemma StepPreservesCoupling(s: State, e: Event)
    requires Coupled(s)
    ensures Coupled(Step(s, e))
  {
  }

  lemma {:induction false} RunPreservesCoupling(s: State, events: seq<Event>)
    requires Coupled(s)
    ensures Coupled(Run(s, events))
    decreases |events|
  {
    if events != [] {
      StepPreservesCoupling(s, events[0]);
      RunPreservesCoupling(Step(s, events[0]), events[1..]);
    }
  }

  /** In every reachable state the green LED and the border style agree. */
  lemma ReachableCoupled(events: seq<Event>)
    ensures Coupled(Run(Init, events))
  {
    RunPreservesCoupling(Init, events);
  }

  lemma {:induction false} RunAppend(s: State, a: seq<Event>, b: seq<Event>)
    ensures Run(s, a + b) == Run(Run(s, a), b)
    decreases |a|
  {
    if a == [] {
      assert a + b == b;
    } else {
      assert (a + b)[0] == a[0];
      assert (a + b)[1..] == a[1..] + b;
      RunAppend(Step(s, a[0]), a[1..], b);
    }
  }

  /** Each flag records the parity of the accepted presses of its button: the green
      LED and the border style flip once per accepted joystick press, the all-on mode
      once per accepted A press. */
  lemma {:induction false} FlagsCountPresses(s: State, events: seq<Event>)
    ensures Run(s, events).greenLedState == (s.greenLedState != (AcceptedCount(s, events, Joystick) % 2 == 1))
    ensures Run(s, events).borderStyle == (s.borderStyle != (AcceptedCount(s, events, Joystick) % 2 == 1))
    ensures Run(s, events).allLedsOn == (s.allLedsOn != (AcceptedCount(s, events, ButtonA) % 2 == 1))
    decreases |events|
  {
    if events != [] {
      FlagsCountPresses(Step(s, events[0]), events[1..]);
    }
  }

  /** The filter is shared: once a press of either button is accepted, a press of
      either button within the next 200 ms changes nothing. */
  lemma SharedDebounce(s: State, first: Event, second: Event)
    requires Accepts(s, first.now)
    requires SubU32(second.now, first.now) <= DEBOUNCE_MS
    ensures Step(Step(s, first), second) == Step(s, first)
  {
  }

  /** Two accepted A presses restore the all-on mode and leave the other flags alone. */
  lemma DoubleButtonA(s: State, t1: uint32, t2: uint32)
    requires Accepts(s, t1) && Debounce(t1, t2).accepted
    ensures Run(s, [Event(ButtonA, t1), Event(ButtonA, t2)]) == s.(lastPressTime := t2)
  {
    var events := [Event(ButtonA, t1), Event(ButtonA, t2)];
    var mid := Step(s, events[0]);
    assert mid == s.(lastPressTime := t1, allLedsOn := !s.allLedsOn);
    assert events[1..] == [Event(ButtonA, t2)];
    assert Run(mid, events[1..]) == Step(mid, events[1]);
  }

  /** A rejected press of either button changes no part of the state. */
  lemma RejectedPressIsNoOp(s: State, e: Event)
    requires !Accepts(s, e.now)
    ensures Step(s, e) == s
  {
  }

  /** Presses that all fall within the first 200 ms after boot leave the initial state
      untouched. */
  lemma {:induction false} EarlyPressesIgnored(events: seq<Event>)
    requires forall i :: 0 <= i < |events| ==> events[i].now <= DEBOUNCE_MS
    ensures Run(Init, events) == Init
    decreases |events|
  {
    if events != [] {
      EarlyPressRejected(events[0]);
      EarlyPressesIgnored(events[1..]);
    }
  }

  /* The two registrations go through a vendor call that keeps a single GPIO callback
     per core, so the second registration replaces the first and every edge, on
     either pin, runs `button_a_isr`. The functions below model that dispatch; the
     rest of the model uses the per-button dispatch of `Step`. */

  /** Dispatch as built: every press, whichever button, runs the A handler. */
  function StepAsBuilt(s: State, e: Event): (t: State)
    ensures t.greenLedState == s.greenLedState && t.borderStyle == s.borderStyle
    ensures Accepts(s, e.now) <==> t.allLedsOn != s.allLedsOn
  {
    ButtonAIsr(s, e.now)
  }

  function RunAsBuilt(s: State, events: seq<Event>): State
    decreases |events|
  {
    if events == [] then s else RunAsBuilt(StepAsBuilt(s, events[0]), events[1..])
  }

  /** As built, no press ever changes the green LED or the border style: from power-on
      the green LED stays off and the plain border stays drawn. */
  lemma {:induction false} AsBuiltGreenStuck(s: State, events: seq<Event>)
    ensures RunAsBuilt(s, events).greenLedState == s.greenLedState
    ensures RunAsBuilt(s, events).borderStyle == s.borderStyle
    decreases |events|
  {
    if events != [] {
      AsBuiltGreenStuck(StepAsBuilt(s, events[0]), events[1..]);
    }
  }

  /** A joystick press 201 ms after boot: as built it switches the all-on mode on and
      leaves the green LED off; with per-button dispatch it lights the green LED and
      leaves the all-on mode off. */
  lemma AsBuiltJoystickPress()
    ensures StepAsBuilt(Init, Event(Joystick, 201)) == State(201, false, false, true)
    ensures Step(Init, Event(Joystick, 201)) == State(201, true, true, false)
  {
  }
}
