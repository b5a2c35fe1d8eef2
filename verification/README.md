# joymapper in Dafny

A model of the translation engine of joymapper, a program that reads a
keyboard's input events and replays them on an emulated uinput gamepad:
Enter/Space, G, E and C become the A, Y, X and B buttons, and W/S/A/D move the
left stick.

The model has five modules:

- `InputCodes` (`codes.dfy`): the Linux input-subsystem constants the
  translator uses. They take their values from `linux/input-event-codes.h`:
  `KEY_W` = 17, `BTN_A` = 0x130, `EV_KEY` = 1, `EV_ABS` = 3, and so on. It
  also defines the `input_event` record as `Event(kind: u16, code: u16,
  value: i32)`.
- `Gamepad` (`gamepad.dfy`) covers `src/gamepad.rs`:
  - the conversion from a raw key value to a press state;
  - the button table and the stick table;
  - the axis levels and the 16-bit values they are written as;
  - the three-level axis state machine;
  - the pad state (one level per axis), which starts centred;
  - the records written by a button action, a stick action and a sync;
  - the outcome of constructing the sink.
- `EventLoop` (`event_loop.dfy`) covers `src/main.rs`:
  - `HandlePress`, the per-record handler.
  - `Drain`, which handles one batch of buffered records in order.
  - `ProcessBatch`, which is `Drain` followed by one sync marker.
  - `Run`, the loop over a finite sequence of batches.
  - `DrainBatch` and `EventLoopRun`, imperative methods that mirror the
    program's two nested loops and are proved equal to the functional fold.

  The process either keeps running or aborts (`Outcome = Running(pad, trace)
  | Aborted(trace)`). In both cases `trace` lists every record written to the
  emulated device, in order. The range check `assert!` at src/main.rs:24
  becomes the `Aborted` outcome. Records written before the fatal record stay
  in the trace. The construction asserts become `SetupPanics`, and the
  `unreachable!()` of the press-state conversion becomes its `None` result,
  which `HandlePress` never reaches.
- `GamepadLemmas` and `EventLoopLemmas` relate the operations to
  independent definitions:
  - an arithmetic reading of the state machine;
  - encode/decode round trips;
  - a device reader (`Replay`) that rebuilds the stick from the written
    records. Its picture always equals the sink's stored state.
  - the set of records the device was registered for;
  - the crossed-key and aliased-button scenarios.

Three facts about the program that a reader might not expect:

- The axis minimum is -32768 (`i16::MIN`, src/gamepad.rs:69), not -32767.
  It is also the registered `absmin` (src/gamepad.rs:142,147).
- Constructing the sink returns "no sink" only when the device-creation
  ioctl fails (src/gamepad.rs:181-191). A name that is too long, a failed
  open, a failed capability ioctl or a failed write of the device description
  is a panic (`SetupPanics`).
- The state machine is idempotent only on equal levels, `Next(L, L) == L`.
  Repeating an opposite request is not idempotent: `Next(Next(High, Low), Low)
  == Low`. `NextSecondRequestTakesEffect` states exactly when repeating a
  request changes the result.

## Model

| member | source | states |
|---|---|---|
| `Gamepad.ButtonStateFrom` | src/gamepad.rs:29-38 | a raw value converts to a press state exactly when it is 0, 1 or 2, and it converts to the state whose discriminant it is; anything else is the unreachable case |
| `Gamepad.ButtonStateValue` | src/gamepad.rs:22-27 | Release, Press and Repeat are written as 0, 1 and 2 respectively (the enum's discriminants, written by `state as _` at src/gamepad.rs:201) |
| `GamepadLemmas.ButtonStateRoundTrip` | src/gamepad.rs:22-27 | a press state written as its discriminant converts back to the same state |
| `Gamepad.MapButton` | src/gamepad.rs:49-58 | the full preimage of each button: A comes from exactly Enter and Space, Y from G, X from E, B from C; every other key maps to nothing |
| `GamepadLemmas.ButtonCodeInjective` | src/gamepad.rs:40-47 | two buttons share an event code only if they are the same button |
| `Gamepad.LevelValue` | src/gamepad.rs:60-70 | High is written as i16::MAX = 32767, Neutral as 0 and Low as i16::MIN = -32768; a value is positive exactly for High and negative exactly for Low |
| `GamepadLemmas.LevelRoundTrip` | src/gamepad.rs:62-70 | the i16 values of the levels decode back to the levels, and a value decodes to a level only if it is that level's value |
| `Gamepad.MapStick` | src/gamepad.rs:78-95 | a repeat maps to nothing; a press maps to the key's axis and direction in the direction-key table (W up, S down, A left, D right); a release of a direction key centres that key's axis; any other key maps to nothing |
| `GamepadLemmas.DirectionKeysPairUp` | src/gamepad.rs:84-91 | two different direction keys on the same axis request opposite extremes, and no press requests the centre |
| `GamepadLemmas.DirectionKeysCoverBothExtremes` | src/gamepad.rs:84-91 | each axis has a key for each extreme |
| `GamepadLemmas.TablesDisjoint` | src/gamepad.rs:49-95 | no key is in both the button table and the stick table, whatever its press state |
| `Gamepad.Next` | src/gamepad.rs:210-221 | requesting the centre always centres; from the centre, or when the request equals the current level, the request takes effect; an extreme is reached only when it is the request, and never straight from the opposite extreme |
| `GamepadLemmas.NextIsSignOfSum` | src/gamepad.rs:211-221 | the transition table equals "centre if the request is the centre, otherwise the sign of the sum of the two directions" |
| `GamepadLemmas.NextNeverFlips` | src/gamepad.rs:214-218 | the new level never has the opposite sign of the current one |
| `GamepadLemmas.NextSecondRequestTakesEffect` | src/gamepad.rs:211-221 | a request repeated once always takes effect, and the second application differs from the first exactly when an extreme was cancelled by the opposite request |
| `GamepadLemmas.NextReleaseThenPress` | src/gamepad.rs:211-221 | after a release (centre request) any request takes effect, whatever the level before |
| `Gamepad.UpdateStick` | src/gamepad.rs:205-222 | the named axis moves by the state machine and the other axis keeps its level |
| `Gamepad.StickActionEffect` | src/gamepad.rs:224-237 | the named axis moves by the state machine and the other axis is unchanged; one EV_ABS record with that axis's code is written, and its value decodes to the axis's new level |
| `Gamepad.ButtonRecord` | src/gamepad.rs:195-203 | a button action writes one EV_KEY record with the button's code, and its value converts back to the press state given |
| `Gamepad.NewGamepad` | src/gamepad.rs:108-193 | construction panics exactly when the name is longer than 80 bytes or registration fails; it yields a sink exactly when the name fits, registration succeeds and the kernel creates the device; a new sink has both axes centred |
| `EventLoop.HandlePress` | src/main.rs:19-30 | a non-key record writes nothing and keeps the state; a key record with a value outside 0..=2 aborts before writing; a button key writes one EV_KEY record with the button's code and the raw value, with the state unchanged; otherwise a stick key moves its axis and writes the new level; an unmapped key writes nothing; at most one record and never a sync marker |
| `EventLoop.Drain` | src/main.rs:12-14 | handling a batch aborts exactly when the batch holds a fatal record; it writes at most one record per input record and no sync marker |
| `EventLoop.DrainAppend` | src/main.rs:12-14 | the output of a batch is the output of its first part followed by the output of the rest, handled from the state the first part left |
| `EventLoop.DrainBatch` | src/main.rs:12-14 | the read-and-handle loop computes exactly the fold `Drain` |
| `EventLoop.ProcessBatch` | src/main.rs:11-15 | a wake-up aborts exactly when its batch holds a fatal record; otherwise its output ends in one sync marker, has no other sync marker, and has at most one record per input record plus the sync; an aborted batch writes no sync marker |
| `EventLoop.Run` | src/main.rs:9-17 | a run aborts exactly when some batch holds a fatal record |
| `EventLoop.RunAppend` | src/main.rs:10-16 | running two stretches of batches is running the first and then the second from the state the first left; the stick state carries over between batches |
| `EventLoop.RunSyncs` | src/main.rs:15 | a run that keeps going writes exactly one sync marker per batch; an aborted run writes fewer sync markers than it had batches |
| `EventLoop.EventLoopRun` | src/main.rs:9-17 | the nested wait/drain/sync loop computes exactly the fold `Run` |
| `EventLoopLemmas.HandlePressReplay` | src/gamepad.rs:225-236 | a reader that applies the written axis records to its picture of the stick ends with the sink's new state (the write follows the update); every record written is one the device was registered for |
| `EventLoopLemmas.DrainReplay` | src/main.rs:12-14 | after a batch the reader's picture equals the sink's state, and every record written is a registered one |
| `EventLoopLemmas.RunReplay` | src/main.rs:9-17 | after any number of batches the reader's picture equals the sink's state; every record written is a button record for A/B/X/Y with a 0..=2 value, an ABS_X/ABS_Y record with a level's value, or a sync marker (the buttons and axes registered at src/gamepad.rs:118-127, plus the sync marker) |
| `EventLoopLemmas.StickRepeatDropped` | src/gamepad.rs:84-94 | a repeat of any key that is not a button writes nothing and keeps the state |
| `EventLoopLemmas.AliasedPressesNotDeduplicated` | src/main.rs:25-26 | two keys that alias to the same button write two identical button records in one batch, followed by the sync marker |
| `EventLoopLemmas.CrossedKeys` | src/gamepad.rs:211-221 | W press, S press, W release from a centred pad writes vertical values -32768, 0, 0 and one sync marker, and leaves the pad centred |
| `EventLoopLemmas.PressThenReleaseAcrossBatches` | src/main.rs:10-16 | a press and a release in two wake-ups each end with their own sync marker, and the vertical level set in the first carries over to the second |

## Left out

- The keyboard side (src/keyboard.rs) is not modelled: opening the device, the blocking `poll` and the non-blocking `read`. The input is a given finite sequence of batches, one per wake-up. A failed `poll` is fatal in the program and is not modelled.
- The program's loop never ends. The model runs a finite sequence of batches, and every property holds for every finite prefix.
- Raw byte I/O (src/util.rs) is not modelled. Every write is taken to succeed in full and becomes one element of the output trace. A short write, which panics in the program, is not modelled.
- Timestamps are not modelled. Each written record is stamped with the current time by `get_time`. `Event` has no time field, the input record's timestamp is ignored, and a failed `gettimeofday` (a panic) is not modelled.
- `NewGamepad` does not model the uinput device description: the name copy, the absmin/absmax/fuzz/flat arrays and the bus/vendor/product identity. These are arguments to foreign calls. The kernel's answers are the parameters `registers` and `creates`.
- `main` is not modelled: it only fixes the keyboard device path and the gamepad's display name.
