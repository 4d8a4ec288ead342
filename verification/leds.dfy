/** The mapping from joystick readings to the levels of the RGB LED (`control_leds`). */
module Leds {
  import opened Words

  /** Counter wrap configured for the PWM slices of the red and blue LEDs. */
  const PWM_WRAP: int := 4095
  /** Level written to red and blue in the all-LEDs-on mode. */
  const FULL_LEVEL: int := 4095
  /** Reading taken as the rest position of an axis when computing the level. */
  const ADC_CENTRE: int := 2048
  /** Open interval of readings for which an axis LED is switched off. */
  const DEAD_ZONE_LOW: int := 1500
  const DEAD_ZONE_HIGH: int := 2500

  datatype LedOutput = LedOutput(red: nat, blue: nat, green: bool)

  predicate InDeadZone(v: int) {
    DEAD_ZONE_LOW < v < DEAD_ZONE_HIGH
  }

  function Abs(x: int): nat {
    if x < 0 then -x else x
  }

  /** PWM level of one axis LED for one reading: off inside the dead zone, otherwise
      twice the distance of the reading from the centre. The subtraction is done on
      the promoted `int`, so it is signed and never wraps. */
  function AxisLevel(v: uint16): (level: nat)
    ensures level == 0 <==> InDeadZone(v)
    ensures level % 2 == 0
    ensures !InDeadZone(v) ==> level / 2 == Abs(v - ADC_CENTRE)
    ensures !InDeadZone(v) ==> level >= 2 * (DEAD_ZONE_HIGH - ADC_CENTRE)
  {
    if InDeadZone(v) then 0 else Abs(v - ADC_CENTRE) * 2
  }

  /** One call of `control_leds` with the current flags: the levels written to the red
      (X axis) and blue (Y axis) LEDs and the value put on the green LED. */
  function ControlLeds(allLedsOn: bool, greenLedState: bool, vrx: uint16, vry: uint16): (out: LedOutput)
    ensures allLedsOn ==> out == LedOutput(FULL_LEVEL, FULL_LEVEL, true)
    ensures !allLedsOn ==> out.green == greenLedState
    ensures !allLedsOn ==> out.red == AxisLevel(vrx) && out.blue == AxisLevel(vry)
    ensures !allLedsOn && InDeadZone(vrx) ==> out.red == 0
    ensures !allLedsOn && InDeadZone(vry) ==> out.blue == 0
  {
    if allLedsOn then
      LedOutput(FULL_LEVEL, FULL_LEVEL, true)
    else
      LedOutput(AxisLevel(vrx), AxisLevel(vry), greenLedState)
  }

  /** Each axis LED follows only its own axis, and the green LED follows neither. */
  lemma ChannelsIndependent(allLedsOn: bool, greenLedState: bool, x1: uint16, y1: uint16, x2: uint16, y2: uint16)
    ensures ControlLeds(allLedsOn, greenLedState, x1, y1).red == ControlLeds(allLedsOn, greenLedState, x1, y2).red
    ensures ControlLeds(allLedsOn, greenLedState, x1, y1).blue == ControlLeds(allLedsOn, greenLedState, x2, y1).blue
    ensures ControlLeds(allLedsOn, greenLedState, x1, y1).green == ControlLeds(allLedsOn, greenLedState, x2, y2).green
  {
  }

  /** For converter readings the level never exceeds 4096; it reaches 4096 exactly at
      reading 0, one above the configured wrap, and nowhere else. */
  lemma LevelBound(v: AdcSample)
    ensures AxisLevel(v) <= PWM_WRAP + 1
    ensures AxisLevel(v) == PWM_WRAP + 1 <==> v == 0
  {
  }

  /** Readings at the same distance below and above the centre give the same level
      whenever neither lies in the dead zone. */
  lemma LevelSymmetric(d: nat)
    requires d <= ADC_CENTRE
    requires !InDeadZone(ADC_CENTRE - d) && !InDeadZone(ADC_CENTRE + d)
    ensures AxisLevel(ADC_CENTRE - d) == AxisLevel(ADC_CENTRE + d)
  {
  }

  /** The level falls as the reading rises towards the dead zone from below, and rises
      with the reading above it. */
  lemma LevelMonotone(a: uint16, b: uint16)
    requires a <= b
    ensures b <= DEAD_ZONE_LOW ==> AxisLevel(a) >= AxisLevel(b)
    ensures DEAD_ZONE_HIGH <= a ==> AxisLevel(a) <= AxisLevel(b)
  {
  }

  /** The dead zone is not centred on 2048, so the level jumps to different values at
      its two edges. */
  lemma DeadZoneEdges()
    ensures AxisLevel(DEAD_ZONE_LOW) == 1096
    ensures AxisLevel(DEAD_ZONE_HIGH) == 904
    ensures AxisLevel(DEAD_ZONE_LOW + 1) == 0 && AxisLevel(DEAD_ZONE_HIGH - 1) == 0
  {
  }
}
