# ProjectU4C8 joystick sketch — a Dafny model of its integer core

The sketch reads a two-axis analog joystick and two push buttons on a
microcontroller. It drives an RGB LED and draws an 8x8 square with a
switchable border on a 128x64 display. Four pieces of it are pure integer logic
and are modelled here.

- `Words`: the fixed-width integers the C code uses. `uint32_t` subtraction is
  modelled as arithmetic modulo 2^32. A converter sample is a `uint16_t` holding
  a 12-bit value.
- `Leds` (`control_leds`): maps the two axis readings and the flags to the red
  and blue PWM levels and the green LED. Inside the dead zone 1500 < v < 2500 a
  level is 0; outside it the level is `|v - 2048| * 2`. The all-LEDs-on mode
  overrides everything. The subtraction is done after promotion to `int`, so it
  is signed and never wraps.
- `Screen`: the two scaling expressions of the main loop,
  `x = v*120/4095 + 4` and `y = v*56/4095 + 4`. Both operands of the division are
  non-negative, so C's truncating division and Dafny's agree.
- `Buttons` (`debounce`, `joystick_button_isr`, `button_a_isr`): a state record
  holding one shared `last_press_time` and the three flags, plus a step function
  per handler. A press is accepted iff `(now - last) mod 2^32 > 200`. An accepted
  joystick press toggles the green LED and the border style together. An
  accepted A press toggles all-LEDs-on. Interrupts are treated as a sequence of
  atomic events, which is sound here because the handlers only flip flags.
- `Sketch`: the polling loop. It runs over an interleaved stream of button
  presses and loop passes and produces one frame (LED outputs, square position,
  border drawing) per pass.

Some facts are proved that are not obvious from the code:
- The dead zone is centred on 2000, not 2048. The level just outside it is 1096
  at 1500 but 904 at 2500.
- The level reaches 4096 at reading 0. That is one above the PWM wrap of 4095.
- The centre reading 2048 puts the square at (64, 32). The initial centring
  values are (60, 28).
- No press in the first 200 ms after boot is accepted.

## Model

| member | source | states |
|---|---|---|
| Words.SubU32 | ProjectU4C8.c:35-37 | `uint32_t` difference: equals `a - b` when `a >= b`, otherwise `a - b + 2^32`; adding `b` back modulo 2^32 gives `a` |
| Leds.AxisLevel | ProjectU4C8.c:92-103 | the level is 0 exactly inside the dead zone; it is always even; outside the dead zone half the level is the distance from 2048, and the level is at least 904 |
| Leds.ControlLeds | ProjectU4C8.c:84-108 | all-on mode gives red = blue = 4095 and green on whatever the readings and green flag; otherwise green follows the green flag, red and blue are the axis levels, and a reading in the dead zone switches its LED off |
| Leds.ChannelsIndependent | ProjectU4C8.c:91-106 | red depends only on the X reading, blue only on the Y reading, and green on neither |
| Leds.LevelBound | ProjectU4C8.c:151 | for 12-bit readings the level is at most 4096 (the wrap plus one), and it equals 4096 iff the reading is 0 |
| Leds.LevelSymmetric | ProjectU4C8.c:95 | readings at equal distance below and above 2048 give equal levels when neither is in the dead zone |
| Leds.LevelMonotone | ProjectU4C8.c:92-96 | below the dead zone the level falls as the reading rises; above it the level rises with the reading |
| Leds.DeadZoneEdges | ProjectU4C8.c:92-95 | the level is 1096 at reading 1500 and 904 at reading 2500, and 0 just inside either edge |
| Screen.Scale | ProjectU4C8.c:176-177 | truncating division characterised without `/`: the result `p` is the unique value with `(p-4)*4095 <= v*span < (p-3)*4095` |
| Screen.ScaleMonotone | ProjectU4C8.c:176-177 | a larger reading never gives a smaller coordinate |
| Screen.ScaleRange | ProjectU4C8.c:176-177 | a 12-bit reading is mapped into `[4, 4 + span]`, with 0 giving 4 and 4095 giving `4 + span` |
| Screen.ScreenBounds | ProjectU4C8.c:176-177 | screen x lies in 4..124 and y in 4..60, and both are non-decreasing in their reading |
| Screen.CentreOffset | ProjectU4C8.c:30-31 | the starting position is (60, 28); the centre reading 2048 gives (64, 32), the start offset by the margin of 4 |
| Buttons.Debounce | ProjectU4C8.c:34-42 | a press is accepted iff it lies outside the 201 ms window after the last accepted press, with the window wrapping at 2^32; on acceptance the remembered time becomes `now`, otherwise it is unchanged |
| Buttons.JoystickIsr | ProjectU4C8.c:45-52 | a rejected press changes nothing; an accepted one records the time and flips both the green LED and the border style, leaving all-on alone |
| Buttons.ButtonAIsr | ProjectU4C8.c:55-59 | a rejected press changes nothing; an accepted one records the time and flips only all-on |
| Buttons.EarlyPressRejected | ProjectU4C8.c:35-37 | from power-on, a press of either button leaves the state untouched iff it comes at or before 200 ms |
| Buttons.StepPreservesCoupling | ProjectU4C8.c:46-57 | either handler keeps the green LED flag equal to the border style |
| Buttons.RunPreservesCoupling | ProjectU4C8.c:45-59 | any sequence of presses keeps the green LED flag equal to the border style |
| Buttons.ReachableCoupled | ProjectU4C8.c:27-29 | in every state reachable from power-on the green LED flag equals the border style |
| Buttons.RunAppend | ProjectU4C8.c:45-59 | handling two runs of presses one after the other is the same as handling their concatenation |
| Buttons.FlagsCountPresses | ProjectU4C8.c:45-59 | after any run, green and border are flipped by the parity of the accepted joystick presses and all-on by the parity of the accepted A presses |
| Buttons.SharedDebounce | ProjectU4C8.c:35-56 | after an accepted press of either button, a press of either button at most 200 ms later changes nothing |
| Buttons.DoubleButtonA | ProjectU4C8.c:55-59 | two accepted A presses restore every flag; only the remembered time changes |
| Buttons.RejectedPressIsNoOp | ProjectU4C8.c:45-59 | a rejected press of either button leaves the whole state unchanged |
| Buttons.EarlyPressesIgnored | ProjectU4C8.c:35-41 | any run of presses all within the first 200 ms after boot leaves the power-on state unchanged |
| Buttons.StepAsBuilt | ProjectU4C8.c:159-164 | with the single shared callback, a press of either button never changes the green LED or the border style, and it flips all-on iff the debounce accepts it |
| Buttons.AsBuiltGreenStuck | ProjectU4C8.c:159-164 | with the single shared callback, no run of presses ever changes the green LED or the border style |
| Buttons.AsBuiltJoystickPress | ProjectU4C8.c:45-59 | a joystick press at 201 ms after boot turns all-on on and leaves green off with the shared callback, but lights green and leaves all-on off with per-button dispatch |
| Sketch.BorderOf | ProjectU4C8.c:111-119 | the rectangle drawing is chosen iff the border style flag is set |
| Sketch.Render | ProjectU4C8.c:167-178 | one loop pass shows the `control_leds` outputs of the current flags and readings, puts the square at the scaled readings and draws the border the flag selects; from a coupled state the frame is sound: coordinates in range, levels at most 4096, green lit whenever the rectangle border is drawn |
| Sketch.MainLoop | ProjectU4C8.c:167-186 | from power-on over any interleaving of presses and loop passes: the final flags are those of the presses in order; there is one frame per pass; each frame is exactly the rendering of its readings with the flags left by all presses before that pass (LEDs, square and border); every frame is sound |
| Sketch.GreenShowsBorder | ProjectU4C8.c:105-106 | in any reachable state with all-on off, the green LED is lit iff the rectangle border is drawn |

## Left out

- Hardware set-up and driver calls are not modelled. This covers I2C and display
  initialisation, the `ssd1306_*` drawing and transfer calls, ADC set-up and
  `read_adc`, `pwm_init_gpio` and `pwm_set_gpio_level`, the `gpio_*` calls and
  `sleep_ms`. Their bodies are vendor code outside this model. A frame records
  the values the sketch hands to these calls.
- `update_border` and `draw_square` are reduced to the border choice
  (`Sketch.BorderOf`) and the square's coordinates.
- The system clock (`to_ms_since_boot(get_absolute_time())`) is a parameter: each
  press carries its own `uint32` timestamp.
- Real interrupt concurrency and `volatile` are not modelled. Handlers run
  atomically between loop passes. This is sound here because they only flip
  flags.
- Button dispatch: the main model gives each button its own handler (`Buttons.Step`).
  That is the evident intent of the two registrations at ProjectU4C8.c:159 and 164.
  The vendor registration call is documented to keep one GPIO callback per core.
  As built, the second registration then replaces the first, and both buttons run
  `button_a_isr`. The vendor body is not part of this model. So that as-built
  dispatch is modelled only beside the main model (`Buttons.StepAsBuilt`; see
  "## Findings").
- The `button_pressed` flag is not modelled. It is set by the joystick handler and
  cleared by the loop, but nothing ever reads it.
- Samples are 12-bit converter values (`Words.AdcSample`). `Leds.AxisLevel` and
  `Leds.ControlLeds` accept any `uint16_t`. For readings above 12 bits, any
  narrowing of the level inside the PWM driver is not modelled.
- Loop passes are atomic. A pass reads the flags once, and a press that arrives
  during a pass is ordered before or after it. In the source the flags are read in
  `control_leds` (lines 85 and 106) and again in `update_border` (line 112). A press
  between lines 173 and 178 would therefore give a pass with the old LEDs and the
  new border. `Sketch.FrameSound`'s green-LED conjunct and `Sketch.GreenShowsBorder`
  rely on this atomicity. In the source only the handler's own `gpio_put` (line 49)
  keeps the green LED in step there, and that call is not modelled.

## Findings

| source | as written | input that shows it | evidently intended | confidence | as-written member | corrected member |
|---|---|---|---|---|---|---|
| ProjectU4C8.c:159-164 | both handlers are registered through the per-core single-callback registration call, so the second replaces the first and every edge runs `button_a_isr` | a joystick press 201 ms after boot turns all-on on and leaves the green LED off | each button runs its own handler, so a joystick press toggles the green LED and the border | not executed; depends on the vendor library's documented behaviour, whose body is not part of this model | Buttons.AsBuiltGreenStuck | Buttons.FlagsCountPresses |
