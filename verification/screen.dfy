/** Conversion of joystick readings to the position of the 8x8 square on the display. */
module Screen {
  import opened Words

  const DISPLAY_WIDTH: int := 128
  const DISPLAY_HEIGHT: int := 64
  const SQUARE_SIZE: int := 8
  /** Offset added to both coordinates after scaling. */
  const MARGIN: int := 4
  /** Number of positions each axis is scaled onto. */
  const X_SPAN: int := 120
  const Y_SPAN: int := 56

  /** Position the square starts from: centred on the display. */
  const INITIAL_X: int := (DISPLAY_WIDTH - SQUARE_SIZE) / 2
  const INITIAL_Y: int := (DISPLAY_HEIGHT - SQUARE_SIZE) / 2

  /** `(v * span) / 4095 + 4` in C `int` arithmetic. Both operands of the division are
      non-negative, so C's truncating division agrees with Dafny's. The result is the
      unique p whose scaled interval [(p-4)*4095, (p-3)*4095) holds v*span. */
  function Scale(v: uint16, span: nat): (p: int)
    ensures (p - MARGIN) * ADC_MAX <= v * span < (p - MARGIN + 1) * ADC_MAX
  {
    (v * span) / ADC_MAX + MARGIN
  }

  function ScreenX(v: uint16): int {
    Scale(v, X_SPAN)
  }

  function ScreenY(v: uint16): int {
    Scale(v, Y_SPAN)
  }

  /** A larger reading never moves the square back. */
  lemma ScaleMonotone(a: uint16, b: uint16, span: nat)
    requires a <= b
    ensures Scale(a, span) <= Scale(b, span)
  {
  }

  /** A converter reading is scaled into [4, 4 + span], reaching both ends. */
  lemma ScaleRange(v: AdcSample, span: nat)
    ensures MARGIN <= Scale(v, span) <= MARGIN + span
    ensures Scale(0, span) == MARGIN && Scale(ADC_MAX, span) == MARGIN + span
  {
  }

  /** Screen x lies in 4..124 and screen y in 4..60 and both follow their reading
      upwards. */
  lemma ScreenBounds(a: AdcSample, b: AdcSample)
    ensures MARGIN <= ScreenX(a) <= MARGIN + X_SPAN && MARGIN <= ScreenY(a) <= MARGIN + Y_SPAN
    ensures a <= b ==> ScreenX(a) <= ScreenX(b) && ScreenY(a) <= ScreenY(b)
  {
  }

  /** The centre reading 2048 does not reproduce the starting position: it lands four
      pixels right of and below it. */
  lemma CentreOffset()
    ensures INITIAL_X == 60 && INITIAL_Y == 28
    ensures ScreenX(2048) == INITIAL_X + MARGIN && ScreenY(2048) == INITIAL_Y + MARGIN
  {
  }
}
