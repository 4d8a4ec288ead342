/** The polling loop of the sketch: each pass samples both axes, drives the LEDs and
    redraws the square and the border, while button presses arrive in between. */
module Sketch {
  import opened Words
  import opened Leds
  import opened Screen
  import opened Buttons

  /** Which drawing `update_border` chooses: one rectangle, or four separate lines. */
  datatype BorderShape = Rectangle | FourLines

  function BorderOf(borderStyle: bool): (shape: BorderShape)
    ensures shape == Rectangle <==> borderStyle
  {
    if borderStyle then Rectangle else FourLines
  }

  /** What happens next on the board: a button interrupt, or one pass of the loop
      with the two converter readings it takes. */
  datatype Input = Press(event: Event) | Sample(reading: Reading)

  /** The two axis readings of one loop pass. */
  datatype Reading = Reading(vrx: AdcSample, vry: AdcSample)

  /** What one pass of the loop shows: the LED outputs, the square's position and the
      border drawing. */
  datatype Frame = Frame(leds: LedOutput, x: int, y: int, border: BorderShape)

  /** The button interrupts in `inputs`, in order. */
  function Presses(inputs: seq<Input>): seq<Event>
    decreases |inputs|
  {
    if inputs == [] then []
    else
      var init := Presses(inputs[..|inputs| - 1]);
      match inputs[|inputs| - 1]
      case Press(e) => init + [e]
      case Sample(_) => init
  }

  /** A loop pass as the loop sees it: the flags left by every press before it, and
      the readings it takes. */
  datatype Pass = Pass(flags: State, reading: Reading)

  /** The loop passes in `inputs`, in order, each with the flags as they stand when it
      runs. */
  function Passes(inputs: seq<Input>): seq<Pass>
    decreases |inputs|
  {
    if inputs == [] then []
    else
      var before := inputs[..|inputs| - 1];
      match inputs[|inputs| - 1]
      case Press(_) => Passes(before)
      case Sample(r) => Passes(before) + [Pass(Run(Init, Presses(before)), r)]
  }

  /** A frame keeps the square inside the scaled range, keeps both PWM levels at most
      one above the wrap, and lights the green LED whenever the rectangle border is
      drawn. */
  predicate FrameSound(f: Frame) {
    && MARGIN <= f.x <= MARGIN + X_SPAN
    && MARGIN <= f.y <= MARGIN + Y_SPAN
    && f.leds.red <= PWM_WRAP + 1
    && f.leds.blue <= PWM_WRAP + 1
    && (f.border == Rectangle ==> f.leds.green)
  }

  /** One pass of the loop body with the flags as they stand. */
  function Render(s: State, vrx: AdcSample, vry: AdcSample): (f: Frame)
    ensures Coupled(s) ==> FrameSound(f)
    ensures f.leds == ControlLeds(s.allLedsOn, s.greenLedState, vrx, vry)
    ensures f.x == ScreenX(vrx) && f.y == ScreenY(vry)
    ensures f.border == Rectangle <==> s.borderStyle
  {
    Frame(ControlLeds(s.allLedsOn, s.greenLedState, vrx, vry), ScreenX(vrx), ScreenY(vry), BorderOf(s.borderStyle))
  }

  /** Runs the sketch over `inputs` from power-on, returning one frame per loop pass and
      the final flags. */
  method MainLoop(inputs: seq<Input>) returns (frames: seq<Frame>, final: State)
    ensures final == Run(Init, Presses(inputs))
    ensures |frames| == |Passes(inputs)|
    ensures forall k :: 0 <= k < |frames| ==> FrameSound(frames[k])
    ensures forall k :: 0 <= k < |frames| ==>
              var p := Passes(inputs)[k];
              frames[k] == Render(p.flags, p.reading.vrx, p.reading.vry)
  {
    frames := [];
    final := Init;
    var i := 0;
    while i < |inputs|
      invariant 0 <= i <= |inputs|
      invariant final == Run(Init, Presses(inputs[..i]))
      invariant |frames| == |Passes(inputs[..i])|
      invariant forall k :: 0 <= k < |frames| ==> FrameSound(frames[k])
      invariant forall k :: 0 <= k < |frames| ==>
                  var p := Passes(inputs[..i])[k];
                  frames[k] == Render(p.flags, p.reading.vrx, p.reading.vry)
    {
      var prefix := inputs[..i + 1];
      assert prefix[..i] == inputs[..i];
      ReachableCoupled(Presses(inputs[..i]));
      match inputs[i] {
        case Press(e) =>
          RunAppend(Init, Presses(inputs[..i]), [e]);
          assert Run(final, [e]) == Run(Step(final, e), []);
          final := Step(final, e);
        case Sample(r) =>
          frames := frames + [Render(final, r.vrx, r.vry)];
      }
      i := i + 1;
    }
    assert inputs[..i] == inputs;
  }

  /** Whenever the all-on mode is off, the green LED shows which border is drawn. */
  lemma GreenShowsBorder(events: seq<Event>, vrx: AdcSample, vry: AdcSample)
    requires !Run(Init, events).allLedsOn
    ensures Render(Run(Init, events), vrx, vry).leds.green <==> Render(Run(Init, events), vrx, vry).border == Rectangle
  {
    ReachableCoupled(events);
  }
}
