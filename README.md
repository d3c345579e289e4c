# Two-channel limiter firmware, modelled in Dafny

This project models the sequential core of a small real-time firmware for a
two-channel analog interface. The firmware samples two analog inputs and
keeps two user-adjustable setpoints. It drives two analog outputs through a
cross-channel limiter and shows diagnostics on a text terminal.

- `types.dfy` (module `Types`): the machine integer types `u8`, `u16` and
  `u32`. It also holds the Sample Store record `InputValues` (raw samples
  a0, a1) and the Output Store record `OutputValues` (codes dac0, dac1).
  Both records default to zero.
- `logics.dfy` (module `Logics`): the limiter. `Side.OutputFor` makes the
  three-way decision. `State.From` runs one control cycle. `GetOutputLevel`
  turns the real outputs into codes. `AdcConvert` and `DacConvert` convert
  between raw codes and volts-equivalent units.
- `app.dfy` (module `App`): the shared stores and the task bodies as methods
  of class `App`. The tasks are the button task, the two sample-ready
  interrupts, the control task `Sync` and the actuation task `DacUpdate`.
- `terminal.dfy` (module `Terminal`): the text terminal's cursor logic.
  Drawing is recorded in a ghost log of `Glyph(position, char)` and
  `Clear` operations.
- `dac.dfy` (module `Dac`): the converter driver with its two staged codes.
  Register writes are recorded in a ghost log.
- `delay.dfy` (module `Delay`): busy-wait delays, given as the number of
  cycles they request.

Numeric choices:

- Setpoints are integers in half-units: `h` stands for `h / 2`. Every
  setpoint the firmware can reach is a multiple of 0.5 in [0, 20], and each
  such value is exact in single precision. So the guards `> 1.0` and
  `< 20.0` become `> 2` and `< 40`, and a 0.5 step becomes 1.
- Conversions are over `real`. `DacConvert` truncates toward zero and, like
  the float-to-u16 cast, saturates: negative values give 0, values of 65536
  or more give 65535.

Where the design description and the code disagree, the model follows the
code:

- The design says setpoints are clamped to [1, 20]. In the code they start
  at 0, and 0 and 0.5 stay reachable: a decrement needs a value above 1.0.
  What does hold is that a setpoint that has reached 1.0 never drops below
  it (`App.ButtonsKeepRange`).
- The design says a raw sample converted to volts and back comes within one
  code of the sample. In the code the 3/3.3 voltage ratio makes the result
  floor(11 * raw / 10) (`Logics.AdcDacRoundTrip`).
- The channels cross. Output code dac0 is the RIGHT side's real output: the
  setpoint dac1, limited by input a0. Output code dac1 is the left setpoint
  dac0, limited by input a1 (`Logics.OutputLevelsCrossed`).
- A setpoint of 20.0 with an idle opposite input gives the code 4096.
  `Logics.OutputLevelsBounded` shows 4096 is the largest code a control
  cycle can produce.

## Model

| member | source | states |
|---|---|---|
| `Logics.Side.OutputFor` | src/logics.rs:63-73 | Opposite input below 1.0 gives (setpoint, true). An input in [1.0, setpoint) gives (input, true). Otherwise it gives (0.0, false), so the flag is false exactly in the cutoff case |
| `Logics.OutputForBounds` | src/logics.rs:63-73 | For a non-negative input and setpoint, the output is in [0, setpoint]. It is one of setpoint, limiting input or 0, and never exceeds an active (at least 1.0) limiting input |
| `Logics.State.From` | src/logics.rs:24-41 | a0 feeds left.input, a1 right.input, setpoint dac0 left.desired, dac1 right.desired. Right's real output is limited by left's input and left's by right's |
| `Logics.FromOutputsBounded` | src/logics.rs:38-39 | For non-negative setpoints, both real outputs of a control cycle lie in [0, own setpoint] |
| `Logics.State.AdcConvert` | src/logics.rs:50-56 | Gives pin volts raw*3.3/4096 and scaled input raw/4096/(3/3.3)*20 = raw*11/2048. Both are non-negative, 0 maps to (0, 0), and there is no range check |
| `Logics.State.GetOutputLevel` | src/logics.rs:43-48 | Real outputs of at most 20 give codes of at most 4096, and outputs of 0 or less give 0. The codes cross: code dac0 follows the right side and dac1 the left, so the larger real output gets the larger code |
| `Logics.AdcConvertMonotone` | src/logics.rs:50-56 | The scaled input is monotone in the raw sample |
| `Logics.State.DacConvert` | src/logics.rs:57-59 | The code is v/20*4096 truncated toward zero, saturating at 0 below and 65535 above |
| `Logics.DacConvertMonotone` | src/logics.rs:57-59 | The code is monotone non-decreasing in the scaled output |
| `Logics.DacConvertRange` | src/logics.rs:57-59 | An output of at most 20 gives a code of at most 4096, and 0 gives 0 |
| `Logics.AdcDacRoundTrip` | src/logics.rs:50-59 | Converting a raw sample to the scaled input and back gives floor(11*raw/10), saturated at 65535, not the raw sample |
| `Logics.OutputLevelsCrossed` | src/logics.rs:43-48 | Code dac0 is DacConvert of the right setpoint limited by input a0. Code dac1 is DacConvert of the left setpoint limited by input a1 |
| `Logics.OutputLevelsBounded` | src/logics.rs:43-48 | With setpoints in [0, 20], both codes of a control cycle are at most 4096 |
| `Logics.LimiterScenarios` | src/logics.rs:24-41 | With a right setpoint of 10.0: an idle left input gives 10.0, a left input of about 5.0 passes through, a left input of about 15.0 cuts off to 0.0 |
| `App.ApplyButton` | src/main.rs:246-282 | A TopLeft press lowers dac0 by 0.5 exactly when it is above 1.0, and a TopMiddle press raises it exactly when it is below 20.0. Down and Up do the same for dac1. Each press changes only its own setpoint, and releases and other buttons change nothing |
| `App.ButtonKeepsRange` | src/main.rs:251-279 | One event keeps setpoints in [0, 20] |
| `App.ButtonsKeepRange` | src/main.rs:240-283 | Any sequence of events keeps setpoints in [0, 20], and a setpoint at or above 1.0 never drops below 1.0 |
| `App.ReachableSetpoints` | src/main.rs:194-199 | From the power-on setpoints (0, 0), every reachable setpoint is in [0, 20] |
| `App.App.constructor` | src/main.rs:194-199 | All stores start at their zero defaults, and the converter stages 0 on both channels |
| `App.App.Button` | src/main.rs:240-283 | The setpoints become ApplyButton of the old ones, and the other stores are unchanged |
| `App.App.Adc0Rdy` | src/main.rs:285-291 | A sample overwrites only raw a0, and no sample changes nothing |
| `App.App.Adc1Rdy` | src/main.rs:293-299 | A sample overwrites only raw a1, and no sample changes nothing |
| `App.App.Sync` | src/main.rs:223-231 | Stores the fresh State.From(samples, setpoints) and its output levels, keeping setpoints and samples. The codes stay at most 4096 |
| `App.App.DacUpdate` | src/main.rs:233-238 | Stages exactly the current output codes, then writes channel 0 and channel 1 with them. Each is at most 4096 |
| `Dac.Dac.constructor` | src/dac.rs:50-54 | Both staged values are 0, and nothing has been written |
| `Dac.Dac.Update` | src/dac.rs:57-61 | Writes dac0_value to channel 0 then dac1_value to channel 1, and leaves the staged values unchanged |
| `Dac.Dac.SetAdc0Desired` | src/dac.rs:63-65 | Changes only dac0_value |
| `Dac.Dac.SetAdc1Desired` | src/dac.rs:67-69 | Changes only dac1_value |
| `Dac.Dac.Set` | src/dac.rs:71-74 | Assigns both staged values |
| `Dac.Dac.SetOutput` | src/dac.rs:76-79 | Copies output dac0 to dac0_value and dac1 to dac1_value |
| `Delay.UsToCycle` | src/delay.rs:11-15 | (us * 1000 ns) / 10 ns equals us * 100 cycles, given that us * 1000 fits in 32 bits |
| `Delay.UsToCycleMonotone` | src/delay.rs:11-15 | A longer delay never requests fewer cycles |
| `Delay.CycleDelayUs` | src/delay.rs:37-40 | The requested cycles of 10 ns span exactly us microseconds |
| `Delay.CycleDelayMs` | src/delay.rs:32-35 | Delegates to the microsecond delay of ms * 1000, so it requests ms * 100000 cycles |
| `Delay.DelayMs` | src/delay.rs:17-21 | Widens the 16-bit argument and requests ms * 100000 cycles |
| `Delay.DelayUs` | src/delay.rs:26-29 | Requests us * 100 cycles and always returns Ok(()) |
| `Terminal.Step` | src/terminal.rs:86-109 | x at or past 320, or a newline, moves to (0, y + 12): a printable char there is drawn at (0, y + 12) and leaves the cursor at (6, y + 12). Then y at or past 240 clears and goes to (0, 0), so after a clear the cursor is (0, 0) for a newline and (6, 0) otherwise. A newline draws nothing; any other char is drawn at the cursor, then x advances by 6 and y is unchanged. An on-screen cursor (0 <= x < 326, 0 <= y < 240) stays on screen, and every glyph position lies inside 320x240 |
| `Terminal.GlyphsOfStep` | src/terminal.rs:95-108 | Writing one character draws that character, or nothing for a newline |
| `Terminal.RunStaysOnScreen` | src/terminal.rs:49-53 | Writing any string from an on-screen cursor keeps the cursor on screen and draws every glyph at a position inside the display |
| `Terminal.RunDrawsPrintable` | src/terminal.rs:49-53 | Writing a string draws exactly its non-newline characters, in order |
| `Terminal.BytesAsChars` | src/terminal.rs:117 | Each byte is read as the character with the same code |
| `Terminal.Terminal.constructor` | src/terminal.rs:41-46 | The cursor starts at (0, 8) with nothing drawn |
| `Terminal.Terminal.WriteCharacter` | src/terminal.rs:86-109 | Cursor and drawing log advance exactly as Step says, and the cursor invariant is kept |
| `Terminal.Terminal.WriteStr` | src/terminal.rs:49-53 | Same as WriteCharacter applied to each character in order |
| `Terminal.Terminal.Write` | src/terminal.rs:111-119 | Writes exactly the first min(count, 32) bytes of the segment, in order |

## Left out

- Task scheduling is not modelled: priorities, periodic re-spawning, interrupt bindings, dispatchers and lock-free sharing. Task bodies are sequential methods; this is concurrency.
- Hardware bring-up is not modelled: `init` beyond its default resources, the converter's clock, reset and ready polling, and the end-of-conversion wait in `update`.
- The sample-ready interrupts take their sample as an `Option` parameter. Reading the converter hardware is not part of this model.
- The button task's diagnostic message to the print task is not modelled, and neither are the `print`, `print_state` and `blinky` tasks. These are formatted text, f32 display and LED output.
- The button interrupt handlers and the button decoder belong to a foreign library; events arrive as parameters.
- Terminal drawing is not modelled: the backdrop in `new`, `write_pos`, and the scrolling and nop loop of `animate_clear`. The clear appears only as one `Clear` entry in the ghost log. Font constants are 6x12 with spacing 0.
- Single-precision rounding in `adc_convert` and `dac_convert` is not modelled. These are computed over reals.
- Delay.UsToCycle: requires `us * 1000 < 2^32`. The microsecond-to-nanosecond conversion in the hardware layer is not part of this model, so its overflow is a precondition.
- Delay.DelayMs: requires `ms <= 4294`, for the same reason. A larger 16-bit argument would overflow that conversion.
- Terminal.Terminal.WriteCharacter: the cursor uses unbounded integers. The cursor invariant `OnScreen` keeps x below 326 and y below 240, so 32-bit wrap-around cannot occur.
