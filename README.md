# gcode_wrangler and drawbot L-systems in Dafny

This project models three pieces of a pen-plotter stack and proves properties of them.

1. **The G-code renderer** of the `gcode_wrangler` crate. Each plotter operation becomes fixed lines of command text, and a machine flavour (GRBL or Marlin) picks the flavour-specific text.
   - `Gcode` holds the data model: positions with optional axes, the small enums, and the operation structs gathered into one `Op` datatype.
   - `Gcode` also holds the position text `Vec3::to_string`. That text always starts with its own `G92` word, so moves render as `G0 G92 X.. Y..` and `SetCurrentPosition` renders as `G92 G92 ..`. The model keeps this.
   - `Generic` holds the shared renderings (G0, G1, G4, G17, G20/G21, G90/G91, G92).
   - `Grbl` and `Marlin` hold the flavour-specific texts.
   - `Render` dispatches an operation to its flavour's rendering. It fails where the crate panics on a position with no axis, and where it has no implementation (GRBL has no stepper control).
2. **Machine configuration and hash input** (`Models`).
   - `MachineDetails::from` turns a string map into a machine record. It fails on a missing key, an unparsable value or an unknown flavour.
   - The model also gives the sequence of writes that the `Hash` implementations of `Vec2D`, `Movement` and a list of movements make on a hasher. The job cache keys on that hash.
3. **The L-system evaluator** of the drawbot clients (`LSystems`).
   - Construction checks the alphabet.
   - `evaluate` rewrites every symbol in parallel to a given depth, then runs the symbols' actions. It is modelled as a pure function returning the trace of action labels.
   - The predefined systems are included.

Text is modelled with the crate's own operations. `Text.Join` and `Text.Split` are Rust's `join` and `split` on one character. `Text.Decimal` is the `{}` formatting of an unsigned integer, and `Text.ParseU32` is `u32::from_str`. A rendered operation is read as lines split at `'\n'`, and each line as words split at `' '`. The reader functions (`Text.WordValue`, `Marlin.ReadHome`, `Marlin.ReadSteppers`, `Generic.ReadPositionMode`, `Generic.ReadUnits`) recover an operation's fields from its text, and the round-trip lemmas prove that they do.

- **The distance-mode and unit codes**: the readers take G90/G91 as absolute/relative positioning and G20/G21 as inches/millimetres, as the renderer uses them.
- **Coordinates**: an `f32` is identified by its bit pattern (`Gcode.F32`). Its decimal formatting and its parsing are parameters, a `Fmt` and a `ParseF32`. Where layout matters, the lemmas assume only `Gcode.WordFmt`: a formatted number contains no space and no newline.

The repository also has an older snapshot of the renderer under `src/`. Its renderings are, token for token, those of the newer copy, for every operation it implements. The one exception is `SetUnits`, which the snapshot does not render. So the same members model both copies; see "Older snapshot" below. The two Python copies of the L-system (`client/drawbot_client/l_system.py` and `python/drawbot_control/l_system.py`) agree line for line on `__init__` and `evaluate`, and they define the same five systems.

Both flavours' `preamble` returns an empty operation list (`gcode_wrangler/src/grbl.rs:4-8`, `gcode_wrangler/src/marlin.rs:6-10`).

## Model

| member | source | states |
|---|---|---|
| Gcode.PositionText | gcode_wrangler/src/lib.rs:44-64 | The position text is `Err("At least one dimension must be provided")` exactly when x, y and z are all absent, and `Ok` otherwise |
| Gcode.ToString | gcode_wrangler/src/lib.rs:49-60 | Pushing "G92" and then each present axis's word, then joining with spaces, gives exactly the position text |
| Gcode.PositionTextShape | gcode_wrangler/src/lib.rs:49-60 | A successful text has 1 + (number of present axes) words. The first word is "G92". The rest are axis words only, in ascending X, Y, Z order, and the value read after each axis letter is that coordinate's formatting (absent axes contribute nothing) |
| Gcode.PositionWordsSplit | src/main.rs:30-43 | In the older copy too, the words of the position text are "G92" followed by the axis words, and the text is a single line |
| Gcode.AxisWordsRead | gcode_wrangler/src/lib.rs:51-59 | Each present axis gives exactly one word, its letter then its value. An absent axis gives none. The words are in X, Y, Z order |
| Generic.LinearText | gcode_wrangler/src/generic.rs:12-34 | A linear move or draw fails, as the `unwrap` panics, exactly when the target has no axis. The error is then `IncompletePosition` |
| Generic.RenderLinear | gcode_wrangler/src/generic.rs:24-34 | The push-and-join render, as written, returns the linear text for the given code, feedrate and target |
| Generic.LinearWords | src/main.rs:66-88 | The words of a linear line are the motion code, then the F word when a feedrate is given, then "G92" and the axis words |
| Generic.LinearTextShape | gcode_wrangler/src/generic.rs:12-22 | The first word is the motion code. An F word is present iff a feedrate is given. It sits right after the code, and its value parses back to the feedrate's decimal text. The remaining words are exactly the position text's words |
| Generic.MoveIsDrawWithRapidCode | gcode_wrangler/src/generic.rs:24-34 | A LinearMove and a LinearDraw with the same fields both render. They start "G0" and "G1" respectively and agree on everything after those two characters |
| Generic.PauseRoundTrip | gcode_wrangler/src/generic.rs:36-40 | A dwell is two words: "G4" and a P word whose digits parse back to the milliseconds |
| Generic.SetCurrentPositionText | gcode_wrangler/src/generic.rs:42-46 | Setting the current position fails exactly when no axis is given (the `unwrap` panic) |
| Generic.SetCurrentPositionShape | src/main.rs:114-118 | The words are "G92" followed by the position text's words, so the line begins "G92 G92" |
| Generic.PositionModeRoundTrip | gcode_wrangler/src/generic.rs:48-56 | Each distance mode renders the code (G90 or G91) that selects it |
| Generic.UnitsRoundTrip | gcode_wrangler/src/generic.rs:58-66 | Each unit renders the code (G20 or G21) that selects it |
| Grbl.Preamble | gcode_wrangler/src/grbl.rs:4-8 | The GRBL preamble is empty |
| Grbl.ActivateLines | gcode_wrangler/src/grbl.rs:15-17 | Activate is the two lines "M3 S254" and "G4 P300" |
| Grbl.DeactivateLines | gcode_wrangler/src/grbl.rs:25-27 | Deactivate is the two lines "M3 S65" and "G4 P300". It differs from Activate only in the S word |
| Grbl.PenCommandRead | gcode_wrangler/src/grbl.rs:15-27 | A pen command reads back as two lines: an M3 line whose S word parses back to the duty value, and the dwell that `Pause` renders |
| Grbl.ActivateDuty | gcode_wrangler/src/grbl.rs:15-17 | Activate's text is the pen command for duty value 254 (pen down) with a 300 ms dwell |
| Grbl.DeactivateDuty | gcode_wrangler/src/grbl.rs:25-27 | Deactivate's text is the pen command for duty value 65 (pen up) with the same 300 ms dwell |
| Grbl.PenDwell | src/grbl.rs:9-19 | The dwell line that both pen commands share is exactly how Pause renders 300 ms |
| Grbl.EndProgramLines | gcode_wrangler/src/grbl.rs:45-47 | EndProgram is the two lines "M5" and "M2" |
| Marlin.Preamble | gcode_wrangler/src/marlin.rs:6-10 | The Marlin preamble is empty |
| Marlin.ActivateMove | gcode_wrangler/src/marlin.rs:17-26 | Activate is the rapid move with no feedrate to x = 0, y = 0, z = -5, written out as "G0 G92 X.. Y.. Z.." |
| Marlin.DeactivateMove | gcode_wrangler/src/marlin.rs:34-43 | Deactivate is the same move with z = +5. Only the Z value differs from Activate |
| Marlin.ActivateExample | src/marlin.rs:10-21 | With Rust's formatting of 0.0 and -5.0, Activate is "G0 G92 X0 Y0 Z-5" |
| Marlin.RenderHome | gcode_wrangler/src/marlin.rs:51-64 | The push-and-join render, as written, returns "G28" followed by the letter of each requested axis |
| Marlin.HomeShape | src/marlin.rs:36-51 | The homing line is "G28" followed by bare axis letters. Each letter is present iff its flag is set, the letters are in X, Y, Z order, and with no flag set the line is just "G28" |
| Marlin.HomeRoundTrip | gcode_wrangler/src/marlin.rs:51-64 | Reading the homing line back gives the requested flags |
| Marlin.RenderStepperControl | gcode_wrangler/src/marlin.rs:72-99 | The render as written (sort the axes into the M17 and M18 groups, push each non-empty group's line, join with newlines) returns the stepper text |
| Marlin.GroupSizes | gcode_wrangler/src/marlin.rs:75-86 | Each of X, Y and Z is listed in exactly one of the M18 and M17 groups, so the two groups hold five words between them |
| Marlin.StepperLines | gcode_wrangler/src/marlin.rs:89-98 | The lines are the M18 line if some axis is disabled, then the M17 line if some axis is enabled. Each line's words are its group |
| Marlin.StepperTextPushed | gcode_wrangler/src/marlin.rs:89-96 | The stepper text is the newline join of exactly the groups that hold an axis, M18 first |
| Marlin.StepperShape | src/marlin.rs:71-81 | The output is one or two lines and never empty. With two lines, the M18 line comes first. Every line is M17 or M18 followed by axis letters in X, Y, Z order |
| Marlin.LetterPartition | src/marlin.rs:55-69 | Each axis letter is listed on exactly one line, and the line that lists it is the group of its state |
| Marlin.StepperPartition | gcode_wrangler/src/marlin.rs:73-98 | X, Y and Z each appear exactly once across the lines, and reading the text back gives the requested stepper states |
| Render.Preamble | gcode_wrangler/src/lib.rs:5-7 | Each flavour's preamble is the empty operation list |
| Render.Render | gcode_wrangler/src/grbl.rs:10-48 | Rendering fails exactly for GRBL stepper control (no implementation: `UnsupportedOperation`), and for a linear move, linear draw or current-position setting with no axis (`IncompletePosition`) |
| Render.FlavorIndependent | src/generic.rs:6-10 | The generic operations render the same for every flavour |
| Render.GenericSingleLine | gcode_wrangler/src/generic.rs:6-66 | Every successful generic rendering is a single line |
| Render.SetXYEveryFlavor | gcode_wrangler/src/generic.rs:6-10 | SetXY is "G17" on every flavour |
| Render.GrblHomeIgnoresFlags | gcode_wrangler/src/grbl.rs:35-37 | GRBL homing is "$H" whatever axes are requested |
| Render.EndProgramTexts | gcode_wrangler/src/marlin.rs:107-109 | EndProgram is "M5" on Marlin and "M5\nM2" on GRBL |
| Render.MarlinPenIsMove | src/marlin.rs:23-34 | On Marlin, Activate and Deactivate render exactly as the LinearMove to their pen position with no feedrate |
| Render.MarlinHomeRoundTrip | src/marlin.rs:36-51 | Reading a Marlin homing rendering back gives the Home operation |
| Render.MarlinStepperRoundTrip | src/marlin.rs:53-82 | Reading a Marlin stepper-control rendering back gives the requested state of every axis |
| Render.GenericRoundTrips | src/main.rs:90-108 | Pause's milliseconds, the distance mode and the units are read back from their renderings, for every flavour |
| Models.ParseFlavor | gcode_wrangler/src/models.rs:51-58 | A flavour name is accepted exactly when it is "GRBL" or "Marlin", case included, and it maps to that flavour |
| Models.FromConfig | gcode_wrangler/src/models.rs:35-77 | On success all six keys are present. Each field comes from its key: dimensions from xdim and ydim, the flavour from flavor, device from name, port from port, and baud rate from baud_rate parsed as u32 |
| Models.FirstBadKey | gcode_wrangler/src/models.rs:37-76 | Validation fails exactly when some key is missing or bad. The error is then that of the first bad key in reading order (xdim, ydim, flavor, name, port, baud_rate) |
| Models.ValidIff | gcode_wrangler/src/models.rs:39-75 | Validation succeeds iff every key is present, xdim, ydim and baud_rate parse, and the flavour is known |
| Models.MissingKeyFails | gcode_wrangler/src/models.rs:40-73 | A configuration missing any of the six keys is rejected |
| Models.OtherKeysIgnored | gcode_wrangler/src/models.rs:37-76 | Two configurations that agree on the six keys give the same result. No other key matters |
| Models.ConfigRoundTrip | gcode_wrangler/src/models.rs:35-77 | A record written out as a configuration validates back to itself, whenever the float parse reads back the formatted dimensions |
| Models.LeBytesRoundTrip | gcode_wrangler/src/models.rs:15-16 | The four little-endian bytes of a bit pattern give the pattern back |
| Models.Vec2DInputInjective | gcode_wrangler/src/models.rs:13-18 | Two points have equal hash input iff their coordinates have equal bit patterns |
| Models.Vec2DSwap | gcode_wrangler/src/models.rs:14-17 | Swapping x and y swaps the two halves of the hash input |
| Models.MovementInputInjective | gcode_wrangler/src/models.rs:20-24 | A movement's hash input is five writes, dest first and then pen_down, and it determines the movement |
| Models.MovementsInputInjective | gcode_wrangler/src/main.rs:103-107 | Two lists of movements have equal hash input iff they are equal |
| Models.HashByteArray | gcode_wrangler/src/models.rs:15-16 | Hashing a byte array writes its length and then its bytes |
| Models.HashVec2D | gcode_wrangler/src/models.rs:13-18 | Hashing a point appends exactly the x bytes' array input and then the y bytes' array input |
| Models.HashMovement | gcode_wrangler/src/models.rs:20-24 | Hashing a movement appends the dest input and then the pen_down byte |
| Models.HashMovements | gcode_wrangler/src/main.rs:105-106 | Hashing a list appends the list's length and then every movement's input in order |
| LSystems.Create | client/drawbot_client/l_system.py:14-38 | Construction succeeds iff missing symbols are allowed or the alphabet covers the axiom, the rule keys and the rule bodies. It then stores the three fields. A failure names a used symbol missing from the alphabet, and if the axiom has a missing symbol, the failure names the first one |
| LSystems.EvalIsActionsOfRewrite | client/drawbot_client/l_system.py:40-50 | The trace of evaluating to depth n is the depth-0 trace of the string rewritten n times |
| LSystems.EvalEachRewrite | python/drawbot_control/l_system.py:48-51 | The depth-n loop over a string is the evaluation of its rewrite one level down |
| LSystems.RewriteNConcat | client/drawbot_client/l_system.py:47-50 | Rewriting n times distributes over concatenation |
| LSystems.EvalConcat | client/drawbot_client/l_system.py:43-50 | The trace of a concatenation is the concatenation of the traces, at every depth |
| LSystems.EvaluateAxiom | client/drawbot_client/l_system.py:40-46 | An absent axiom evaluates the stored one, and an empty axiom emits nothing at any depth |
| LSystems.ActionsAll | client/drawbot_client/l_system.py:43-46 | At depth 0, when every symbol has an action, the trace is those actions, one per symbol, left to right |
| LSystems.ActionsNone | python/drawbot_control/l_system.py:45-47 | Symbols without an action are no-ops |
| LSystems.TraceLength | python/drawbot_control/l_system.py:32-51 | For a system that passes the alphabet check, every symbol of the rewritten axiom runs an action: the trace length equals the rewritten length |
| LSystems.SeripinskiCovered | client/drawbot_client/l_system.py:74-86 | The Seripinski system passes the alphabet check |
| LSystems.SeripinskiArrowHeadCovered | client/drawbot_client/l_system.py:97-109 | The Seripinski arrowhead system passes the alphabet check |
| LSystems.GosperCovered | python/drawbot_control/l_system.py:81-93 | The Gosper system passes the alphabet check |
| LSystems.DragonCovered | python/drawbot_control/l_system.py:109-121 | The dragon system passes the alphabet check |
| LSystems.FernCovered | client/drawbot_client/l_system.py:166-180 | The fern system passes the alphabet check |
| LSystems.StandardAlphabetDistinct | client/drawbot_client/l_system.py:53-63 | The eight standard symbols call eight different turtle operations |
| LSystems.StandardTraceDetermines | client/drawbot_client/l_system.py:40-63 | Over the standard alphabet, two strings of standard symbols that give the same depth-0 turtle trace are the same string |

## Specification functions

These functions define the source's operations. The lemmas in the table above state what they compute:

- `LSystems.Evaluate`, `LSystems.Eval` and `LSystems.EvalEach` are `LSystem.evaluate` (`client/drawbot_client/l_system.py:40-50`, `python/drawbot_control/l_system.py:41-51`).
- `LSystems.Actions` is its depth-0 loop, and `LSystems.Rewrite`/`LSystems.RewriteN` are the parallel rewriting that its recursion performs.
- `LSystems.StandardAlphabet` is `LSystem.standard_alphabet` (`client/drawbot_client/l_system.py:53-63`). It records the label each symbol's callback emits.
- `Generic.PauseText`, `Generic.PositionModeText` and `Generic.UnitsText` are the `render` methods at `gcode_wrangler/src/generic.rs:36-66`.
- `Marlin.ActivateText`, `Marlin.DeactivateText`, `Marlin.HomeText` and `Marlin.StepperText` are the Marlin `render` methods at `gcode_wrangler/src/marlin.rs:17-99`.
- `Grbl.PenCommand` is the shared form of the two GRBL pen texts at `gcode_wrangler/src/grbl.rs:16` and `gcode_wrangler/src/grbl.rs:26`.
- `Models.Vec2DInput`, `Models.MovementInput` and `Models.MovementsInput` are the writes made by the `Hash` implementations at `gcode_wrangler/src/models.rs:13-24`, and by hashing a `Vec<Movement>` at `gcode_wrangler/src/main.rs:105-106`.

## Older snapshot

The files under `src/` render these operations with the same text as the newer copy, and the same members model them:

- `src/main.rs:26-46` (same as `gcode_wrangler/src/lib.rs:44-64`): Gcode.PositionText, Gcode.ToString, Gcode.PositionTextShape
- `src/main.rs:66-88` (same as `gcode_wrangler/src/generic.rs:12-34`): Generic.LinearText, Generic.RenderLinear, Generic.LinearTextShape
- `src/main.rs:90-94` (same as `gcode_wrangler/src/generic.rs:36-40`): Generic.PauseRoundTrip
- `src/main.rs:100-108` (same as `gcode_wrangler/src/generic.rs:48-56`): Generic.PositionModeRoundTrip
- `src/main.rs:114-118` (same as `gcode_wrangler/src/generic.rs:42-46`): Generic.SetCurrentPositionText
- `src/generic.rs:6-10` (same as `gcode_wrangler/src/generic.rs:6-10`): Render.SetXYEveryFlavor
- `src/grbl.rs:9-31` (same as `gcode_wrangler/src/grbl.rs:15-47`): Grbl.ActivateLines, Grbl.DeactivateLines, Render.GrblHomeIgnoresFlags, Grbl.EndProgramLines
- `src/marlin.rs:10-34` (same as `gcode_wrangler/src/marlin.rs:17-43`): Marlin.ActivateMove, Marlin.DeactivateMove
- `src/marlin.rs:36-51` (same as `gcode_wrangler/src/marlin.rs:51-64`): Marlin.RenderHome, Marlin.HomeRoundTrip
- `src/marlin.rs:53-82` (same as `gcode_wrangler/src/marlin.rs:72-99`): Marlin.RenderStepperControl, Marlin.StepperPartition
- `src/marlin.rs:84-88` (same as `gcode_wrangler/src/marlin.rs:107-109`): Render.EndProgramTexts
- `python/drawbot_control/l_system.py:15-51` (same as `client/drawbot_client/l_system.py:14-50`): LSystems.Create, LSystems.EvalIsActionsOfRewrite

## Left out

- Each `to_op` wraps an operation struct in the same-named `Operation` variant. The model's `Op` is that operation type, so `to_op` is the identity and has no member of its own.
- `Operation` is used by `gcode_wrangler/src/grbl.rs` and `gcode_wrangler/src/marlin.rs` but is not declared in `gcode_wrangler/src/lib.rs`, whose `GCode` trait has no `to_op`. The model's `Op` has one variant per operation struct, as named at the `to_op` sites.
- `f32` formatting and parsing are parameters (`Fmt`, `ParseF32`). The model does not give their digits, and it does no IEEE-754 arithmetic. The layout lemmas assume only that a number formats as one word on one line.
- Hash values are left out. `DefaultHasher`'s output and collisions are not modelled, only the writes made to it. `write_length_prefix` is kept as its own write event, and its forwarding to `write_usize` is not modelled.
- Panic messages are modelled as error values (`RenderError`, `ConfigError`, the missing symbol of an L-system). The model leaves out the message text, and so also the "calue" typo in the baud_rate message (`gcode_wrangler/src/models.rs:73`).
- LSystems.Create: rule keys and rule bodies are visited in an arbitrary order, not the dictionaries' insertion order. So for a missing symbol outside the axiom, the error names some missing used symbol, not necessarily the first in dictionary order.
- Python's `assert` is removed under `python -O`. The model assumes that assertions run.
- LSystems.Evaluate: the order is a natural number. A negative order recurses without end unless the string rewrites to the empty string. Negative orders are not modelled.
- The actions of an alphabet are callbacks into the turtle. Each is modelled as the label it emits (`LSystems.Turtle`), and `standard_alphabet` maps to those labels.
- The turtle wrappers are left out: GUI drawing, float geometry and sleeps.
- The module-level `Drawbot()` construction and the `fern.evaluate(6)` call at import time are side effects, and they are left out.
- `gcode_wrangler/src/main.rs` is left out except for the hashing of a movement list in `post_movements`. The rest is HTTP handlers, mutex-guarded caches and preview drawing, plus calls to `clamp_movements`, `to_gcode` and `to_program`, which are not part of this model.
- `gcode_wrangler/src/shell.rs` is left out: serial-port and channel I/O on a thread.
- `SimulationState` (`gcode_wrangler/src/lib.rs:28`, `src/main.rs:5`) is declared but never used, and the older snapshot's `main` (`src/main.rs:1-3`) only prints a line. Both are left out.
- The older snapshot does not type-check as shown, because `src/generic.rs` imports a nonexistent `EmergencyStop`. Its renderings are modelled as they read.
