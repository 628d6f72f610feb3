# Window targeting and status log of the Dofus bot, in Dafny

This project models the core of a small macOS bot for the game Dofus. One part is
`VisionEngine`. It holds three fields: the target window's name, its owning process
id, and a "resolution" label. It re-targets itself from the operating system's
window inventory by picking the first window whose title contains `"Dofus"`. The
other part is `BotEngine`. It runs scans, asks for windows to be focused, and
reports each step as a levelled message on a log channel.

Files:

- `wrappers.dfy`: `Option` and `Result`, the two Rust enums the core returns.
- `ints.dfy`: `i32` and `u32` as newtypes, plus `AsI32`, Rust's `u32 as i32` cast.
- `text.dfy`: case-sensitive substring search (`Contains`) and an independent
  reference meaning for it (`Occurs`). Also decimal formatting of integers, as
  Rust's `{}` does it, and its inverse `ParseInt`.
- `vision_engine.dfy`: module `Vision`. Holds the `VisionEngine` class, the
  first-match search `FirstMatch`, and `FindDofus`, the specification of a scan
  (old fields and inventory go in; new fields and the returned `Result` come out).
  The lemmas about that specification sit beside it.
- `bot_engine.dfy`: module `Bot`. Holds the `BotEngine` class. It records one
  ordered trace of effects: each message sent on the log channel and each focus
  request. `LogsOf` and `FocusesOf` project that trace onto the messages and onto
  the focused pids. The class methods are proved equal to the specification
  functions `ScanEffects`, `FocusDofusEffects`, `FocusBotEffects` and
  `TestSequenceEffects`. The lemmas then state what those traces contain.

The window inventory is an input of type `Option<seq<Window>>`, where
`Window = (id: u32, title, pid: i32)`. `None` means the inventory query failed. The
bot's own process id is a `u32` parameter. The methods that need it cast it to
`i32` with two's-complement wrap-around, as `std::process::id() as i32` does.

Behaviours of the code worth knowing:

- A scan is not free of side effects: `find_dofus_window` overwrites the engine's
  fields.
- When no window matches, the resolution label is not reset. It keeps its old value.
- `scan_for_window` logs an unavailable inventory as a Warning, not an Error. (The
  unused code in `src/main.rs` would log it as an Error.)
- There is no frame capture, pixel conversion, frame store or capture session in
  the code. `capture_frame` is a stub that returns `None`.

## Model

| member | source | states |
|---|---|---|
| `Text.Contains` | src/vision_engine.rs:23 | the case-sensitive search for a pattern in a title, left to right; a match needs the pattern to fit inside the title, and the empty pattern is in every title |
| `Text.ContainsIffOccurs` | src/vision_engine.rs:23 | the left-to-right substring search succeeds exactly when the pattern occurs at some position of the title |
| `Text.NatToDecimal` | src/vision_engine.rs:29-30 | a number formats as a non-empty string of decimal digits with no leading zero |
| `Text.ParseIntToDecimal` | src/vision_engine.rs:30 | the decimal text of an integer (with a `-` sign when negative) reads back to that integer |
| `Text.IntToDecimalInjective` | src/vision_engine.rs:29 | different ids and pids never format to the same text |
| `Ints.AsI32` | src/bot_engine.rs:71 | `as i32` keeps the value below 2^31, and otherwise wraps to a negative value congruent to it modulo 2^32 |
| `Vision.FirstMatch` | src/vision_engine.rs:22-24 | returns the position of a window whose title contains the pattern, with no earlier title containing it; `None` exactly when no title contains it |
| `Vision.FindDofus` | src/vision_engine.rs:20-39 | the scan specification: new fields and returned result from the old fields and the inventory; a failed query leaves the fields as they were, and an `Ok` result always comes with a pid |
| `Vision.VisionEngine.constructor` | src/vision_engine.rs:11-17 | a new engine has name "Not Scanned", no pid and resolution "0x0" |
| `Vision.VisionEngine.FindDofusWindow` | src/vision_engine.rs:20-39 | the new fields and the returned result are exactly those `FindDofus` gives for the old fields and the inventory |
| `Vision.VisionEngine.CaptureFrame` | src/vision_engine.rs:43-46 | never yields a frame, and reads or changes no state |
| `Vision.FindDofusInventoryUnavailable` | src/vision_engine.rs:36-37 | a failed inventory query returns `Err("Failed to get shareable content.")` and leaves all three fields unchanged |
| `Vision.FindDofusMatch` | src/vision_engine.rs:26-30 | when window k is the first whose title contains "Dofus": the name becomes its title, the pid becomes its owner, the label becomes "ID: <id>", and the result is `Ok("Found window: <title> (PID: <pid>)")` |
| `Vision.FindDofusNoMatch` | src/vision_engine.rs:31-34 | when no title contains "Dofus": the name becomes "Dofus not found", the pid is cleared, the old resolution label stays, and the result is `Err("Dofus window not found.")` |
| `Vision.FindDofusOk` | src/vision_engine.rs:28-30 | a scan returns `Ok` exactly when the inventory is available and some title contains "Dofus"; on `Ok` a pid is always set (the `unwrap` cannot fail), and the text names the new title and pid |
| `Vision.FindDofusIdempotent` | src/vision_engine.rs:20-39 | a second scan against the same inventory gives the same result and the same fields as the first |
| `Vision.FoundMessageRoundTrip` | src/vision_engine.rs:30 | the match report reads back to exactly the title and pid it was built from, whatever the title contains |
| `Vision.FindDofusExample` | src/vision_engine.rs:22-24 | of the windows "Notepad", "My Dofus Game" and "Other", the second is chosen |
| `Vision.MatchIsCaseSensitive` | src/vision_engine.rs:23 | "dofus" does not match and "Dofus" does |
| `Bot.BotEngine.constructor` | src/bot_engine.rs:29-35 | a new bot owns a fresh vision engine in its initial state, and nothing has been logged or focused yet |
| `Bot.BotEngine.Log` | src/bot_engine.rs:37-44 | appends exactly one message with the given level and text, and reports no error to the caller |
| `Bot.BotEngine.RequestFocus` | src/input_manager.rs:24-33 | appends exactly one focus request for the given pid |
| `Bot.BotEngine.ScanForWindow` | src/bot_engine.rs:46-52 | the vision engine changes exactly as `FindDofus` says, and the trace grows by the "Scanning" notice followed by the level-tagged result |
| `Bot.BotEngine.FocusDofus` | src/bot_engine.rs:54-61 | the vision engine is unchanged, and the trace grows by the focus-target effects for the current pid |
| `Bot.BotEngine.FocusBot` | src/bot_engine.rs:63-66 | the vision engine is unchanged, and the trace grows by one Info message and one focus request for the bot's own cast pid |
| `Bot.BotEngine.RunTestSequence` | src/bot_engine.rs:68-96 | reads the target pid once at the start, never changes the vision engine, and appends the test-sequence effects for that pid |
| `Bot.ScanMessages` | src/bot_engine.rs:46-52 | a scan logs exactly two messages and focuses nothing: Info "Scanning for Dofus window...", then the engine's text at Success when a Dofus window exists and at Warning otherwise, including when the inventory is unavailable |
| `Bot.FocusDofusOutcomes` | src/bot_engine.rs:54-61 | with pid p: one Info message naming p, then one focus request for p; without a pid: one Warning "Cannot focus Dofus: Window not found." and no focus request |
| `Bot.FocusingMessageCarriesPid` | src/bot_engine.rs:56 | the focus notice carries the pid in decimal, and it reads back to that pid |
| `Bot.FocusBotOutcome` | src/bot_engine.rs:63-66 | exactly two effects, one Info message and then one focus request for the bot's pid; that pid equals the process id whenever the id fits in 31 bits |
| `Bot.TestSequenceOutcomes` | src/bot_engine.rs:84-94 | with pid p: five effects alternating message, focus, message, focus, message, with levels Info, Info, Success and focus requests [p, bot pid]; without a pid: one Warning and no focus request |
| `Bot.ScanThenFocus` | src/bot_engine.rs:54-57 | after a scan that matched window k, focusing the target requests focus for exactly window k's owner |
| `Bot.NeverLogsError` | src/bot_engine.rs:46-94 | no operation of the bot logs at level Error, so a log with no Error message keeps having none |

## Left out

- Frame capture: `capture_frame` is a stub returning `None`. There is no stream, pixel conversion or frame store to model. `RgbaImage` is only its return type.
- `SCShareableContent::get()`, `window.title()` and `owning_application()`: foreign calls to ScreenCaptureKit. They are replaced by the inventory input.
- Log timestamps (`chrono::Local::now()`): wall-clock values; `LogMessage` holds only the level and the text.
- Bot.BotEngine.Log: a send on a channel whose receiver is gone is dropped silently. The model always appends the message. The caller sees no error in either case.
- Bot.BotEngine.RunTestSequence: `run_test_sequence` spawns a thread that sleeps 5 s before each focus. The model runs it to completion within the call. So it does not capture that other messages may interleave with the sequence's effects. It also does not capture that the effects arrive after the call returns.
- `std::process::id()`: an operating-system call; it is a parameter.
- The input layer (`src/input_manager.rs`): `click_at` (pointer simulation with `f64` coordinates and fixed 50 ms sleeps) and the `rdev` calls are not modelled. `InputManager::focus_window` only prints, so it is modelled as a recorded focus request.
- `src/main.rs`: the egui user interface, and the FIFO draining of the log channel into the displayed list. Its stale helper methods refer to fields the application struct does not have.
- `src/bin/test_focus.rs`: a stand-alone program that launches `osascript` and prints. Its window match is the same first-match search as `FirstMatch`.
