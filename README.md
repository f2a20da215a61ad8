# FMDisplayMidiController in Dafny

A model of the MIDI-controller screen of the preenfm3 firmware. This is the front-panel controller that lets the player use the six encoders and six buttons of the synth as a MIDI controller.

Two small state machines share one set of UI variables:

- **The step refresh scheduler.** A countdown, `refreshStatus`, picks one draw step per call from one of four step tables (main, encoder editor, button editor, save). The countdown then drops by one. At a table's terminal value it jumps straight to 0. Every call that leaves it at 0 restarts the display refresh. Value 21 always goes through the main table's header step, whatever the mode.
- **The display-mode controller.** It routes encoder turns and button presses and releases by display mode (main, encoder editor, button editor, save) and by whether MENU is held:
  - In the main view, input is passed through as live edits, or turns pages and changes the MIDI channel.
  - In the editors, each input is a clamped in-place edit of the encoder or button record under edit.
  - The save screen confirms with SEQUENCER or cancels with any other button.

## Files

| File | Module | What it holds |
|---|---|---|
| `midi_types.dfy` | `MidiTypes` | display modes, encoder and button records and their well-formedness, button ids, countdown constants, draw events |
| `param_editor.dfy` | `ParamEditor` | the clamped edits as pure functions; this is the specification the editor branches are proved against |
| `field_formatter.dfy` | `FieldFormatter` | the text each field redraw prints (padding, `--` for the global channel, the cursor `_`) |
| `refresh_scheduler.dfy` | `RefreshScheduler` | the four step tables as pure functions; `Run` (n consecutive calls); exact settle counts |
| `controller_state.dfy` | `ControllerState` | class `MidiControllerState`: the record store, written in place |
| `display_midi_controller.dfy` | `DisplayMidiController` | class `FMDisplayMidiController`: the seven UI fields, the draw log, the save counter, the scheduler methods and the input handlers |

## How it is modelled

- The controller is a class. Its seven fields are changed in place by its methods:
  - `displayMode`, `refreshStatus`, `menuPressed`, `editControl`, `editLetterPosition`, `midiChannel`, `pageNumber`.
- The display is an append-only `log` of abstract `DrawEvent`s. Examples are `MainHeader`, `EncoderCell(page, i)`, `EncoderParamField(page, i, EncoderMin)` and `RestartRefresh`. The configuration file is a `saveCount`.
- The records are datatypes held in `seq<seq<..>>` fields of the store, indexed by (page, index). An edit writes the changed record back with `SetEncoder`/`SetButton`.
- Each scheduler method is proved against the pure step function of its table (`Next`, `TableEvents`; `StepStatus`, `StepEvents` for the dispatcher). The lemmas about those functions give the step counts.
- Each editor branch is proved against `EditEncoderParam`, `EditButtonParam` or `EditButtonLow`. Their contracts give:
  - the clamps;
  - that exactly one field changes;
  - that the ranges are kept;
  - that a redraw happens iff the value changed.
- The constructor stands for both the C++ constructor and `init`. It takes a store whose configuration has already been loaded.

Three behaviours of the code to note:

- Entering an editor calls `setResetRefreshStatus`, which sets 21. The first call therefore draws the main header. The editor's own table then runs from 20. So from entry an editor takes 9 calls (encoder) or 10 calls (button) to settle.
- Entering an edit mode does not reset `editLetterPosition`. Only the constructor initialises it, and only editor encoder 0 changes it (lines 422 and 490).
- A countdown does not take one call per value. It jumps to 0 at the terminal value of its table.

Assumptions about names declared outside this file:

- `setResetRefreshStatus` sets 21 (`RESET_REFRESH_STATUS`). The header step at lines 45 and 59-60 is the value it must reach.
- The button ids are `BUTTON_PFM3_1..6` = 0..5, MENU 6, NEXT_INSTRUMENT 7, PREVIOUS_INSTRUMENT 8 and SEQUENCER 9. Lines 745 and 748 use the control buttons directly as indices. For the others, only being distinct and outside 0..5 matters.
- `MIDI_NUMBER_OF_PAGES` is the store's `pageCount`, which is at least 1 and otherwise symbolic.

## Model

| member | source | states |
|---|---|---|
| `ParamEditor.Clamp` | firmware/Src/MidiController/FMDisplayMidiController.cpp:449-451 | the lower clamp, then the upper: the result is in [lo, hi] when lo <= hi, is unchanged inside it and is the nearer bound outside it |
| `ParamEditor.TickSign` | firmware/Src/MidiController/FMDisplayMidiController.cpp:418 | the sign-only step is +1 exactly when ticks > 0 and -1 otherwise, zero ticks included (also lines 438, 486, 506) |
| `ParamEditor.SignStep` | firmware/Src/MidiController/FMDisplayMidiController.cpp:418-420 | a sign-only step from inside [0, hi] is +1 iff ticks > 0 and not at hi, -1 iff ticks <= 0 and not at 0 (zero ticks counts as down), and otherwise no move |
| `ParamEditor.AddClamped` | firmware/Src/MidiController/FMDisplayMidiController.cpp:449-451 | a magnitude edit lands in [lo, hi], is exact when v + ticks is in range, saturates at hi above it and at lo below it, and never moves against the sign of ticks |
| `ParamEditor.NameCharEdit` | firmware/Src/MidiController/FMDisplayMidiController.cpp:427-436 | only the character at the cursor changes; its code becomes code + ticks clamped to [32, 127]; the length is kept |
| `ParamEditor.TypeForTicks` | firmware/Src/MidiController/FMDisplayMidiController.cpp:527 | a push button is selected exactly when ticks < 0; zero and positive ticks select a toggle |
| `ParamEditor.EditEncoderParam` | firmware/Src/MidiController/FMDisplayMidiController.cpp:414-480 | encoder 0 moves only the cursor in [0, 4]; encoders 3/1/4/2/5 change only the name character, channel (0..16, sign-only), CC (0..127), min (0..max) or max (min..127); other controls change nothing; min <= max and well-formedness are kept; the runtime value is never touched; a redraw of that field happens iff something changed |
| `ParamEditor.EditButtonParam` | firmware/Src/MidiController/FMDisplayMidiController.cpp:481-545 | the same for a button; encoder 2 selects push iff ticks < 0; encoder 5 sets high to high + ticks clamped to [low + 1, 127]; low < high and well-formedness are kept |
| `ParamEditor.EditButtonLow` | firmware/Src/MidiController/FMDisplayMidiController.cpp:783-791 | only valueLow changes; it goes down by one iff PREVIOUS and low > 0, up by one iff NEXT and low < high - 1; low < high is kept |
| `ParamEditor.EditEncoderRun` | firmware/Src/MidiController/FMDisplayMidiController.cpp:414-480 | over any sequence of editor turns the cursor stays in [0, 4] and the name keeps its length |
| `ParamEditor.EditButtonRun` | firmware/Src/MidiController/FMDisplayMidiController.cpp:481-545 | the same for a button under edit |
| `ParamEditor.EncoderRunKeepsWellFormed` | firmware/Src/MidiController/FMDisplayMidiController.cpp:414-480 | any sequence of editor turns keeps a well-formed encoder well-formed (printable name, channel 0..16, CC 0..127, 0 <= min <= max <= 127) |
| `ParamEditor.ButtonRunKeepsWellFormed` | firmware/Src/MidiController/FMDisplayMidiController.cpp:481-545 | any sequence of editor turns keeps a well-formed button well-formed (0 <= low < high <= 127) |
| `ParamEditor.EncoderRunKeepsValue` | firmware/Src/MidiController/FMDisplayMidiController.cpp:414-480 | no sequence of editor turns changes the runtime value of the encoder |
| `ParamEditor.ButtonRunKeepsValue` | firmware/Src/MidiController/FMDisplayMidiController.cpp:481-545 | no sequence of editor turns changes the runtime value of the button |
| `FieldFormatter.DigitChar` | firmware/Src/MidiController/FMDisplayMidiController.cpp:365 | a digit is printed as the character whose code is '0' plus the digit |
| `FieldFormatter.Decimal` | firmware/Src/MidiController/FMDisplayMidiController.cpp:365 | printed numbers are all digits, with no leading zero; one digit iff < 10, at most two iff < 100, at most three iff < 1000 |
| `FieldFormatter.DecimalRoundTrip` | firmware/Src/MidiController/FMDisplayMidiController.cpp:365 | what is printed for a number reads back as that number |
| `FieldFormatter.TrailingPadded` | firmware/Src/MidiController/FMDisplayMidiController.cpp:598-630 | CC, min, max and high are printed as the number followed by spaces, three characters wide for 0..999 |
| `FieldFormatter.EncoderValueText` | firmware/Src/MidiController/FMDisplayMidiController.cpp:360-365 | the runtime value is right-aligned in three characters: leading spaces, then the number |
| `FieldFormatter.OneBasedText` | firmware/Src/MidiController/FMDisplayMidiController.cpp:552-561 | the channel is printed one-based, followed by spaces only (one space after a one-digit number); a channel 0..15 is two characters wide and starts with a digit |
| `FieldFormatter.OneBasedReadsBack` | firmware/Src/MidiController/FMDisplayMidiController.cpp:552-561 | the digits of a one-based channel field read back as the channel + 1 |
| `FieldFormatter.ChannelFieldText` | firmware/Src/MidiController/FMDisplayMidiController.cpp:586-597 | a record channel 0..16 prints two characters, and prints "--" iff it is 16, the global channel; any other channel prints as the one-based channel text |
| `FieldFormatter.NameFieldText` | firmware/Src/MidiController/FMDisplayMidiController.cpp:574-585 | the name with the character under the cursor shown as '_' when it is a space; every other character as is |
| `FieldFormatter.ButtonTypeText` | firmware/Src/MidiController/FMDisplayMidiController.cpp:675-683 | the type field is four characters wide: "Push" exactly for a push button, "Togl" for a toggle |
| `FieldFormatter.ButtonLowText` | firmware/Src/MidiController/FMDisplayMidiController.cpp:695-706 | the low value's digits come first and only spaces follow; it is padded to three characters when high < 100; when high >= 100 it is printed unpadded (as written, see Findings) |
| `FieldFormatter.ButtonLowTextIntended` | firmware/Src/MidiController/FMDisplayMidiController.cpp:695-706 | the low value padded by its own width like every other numeric field: its digits, then spaces, three characters for 0..999 |
| `FieldFormatter.LowPaddingDiffers` | firmware/Src/MidiController/FMDisplayMidiController.cpp:699 | for a well-formed button the printed low value equals the intended one exactly when high < 100 or low >= 100 |
| `FieldFormatter.ChannelReadoutText` | firmware/Src/MidiController/FMDisplayMidiController.cpp:552-566 | the readout shows the channel as the one-based channel text (two characters for 0..15) and the page one-based |
| `FieldFormatter.EncoderParamText` | firmware/Src/MidiController/FMDisplayMidiController.cpp:570-634 | each parameter prints its own record field with its formatter: the name with the cursor mark, the channel field, and the trailing-padded CC, min and max; for a well-formed encoder the numeric fields have fixed widths (channel 2, CC/min/max 3) |
| `FieldFormatter.ButtonParamText` | firmware/Src/MidiController/FMDisplayMidiController.cpp:636-710 | each parameter prints its own record field with its formatter: name, channel, trailing-padded CC and high, type text, and the low value padded by its own width (`ButtonLowTextIntended`); for a well-formed button CC, high and low are 3 wide, channel 2, type 4 |
| `RefreshScheduler.ModeTable` | firmware/Src/MidiController/FMDisplayMidiController.cpp:45-56 | each display mode owns its own table (the table determines the mode); the main table starts at 21, the others at 20 |
| `RefreshScheduler.Terminal` | firmware/Src/MidiController/FMDisplayMidiController.cpp:138 | the value at which a table jumps to 0 (lines 138, 215, 305, 340) lies strictly between 0 and the table's start |
| `RefreshScheduler.DrawsWithinTable` | firmware/Src/MidiController/FMDisplayMidiController.cpp:58-141 | `Draws`, the draw step of each table (main lines 58-141, encoder editor 154-214, button editor 233-304, save 321-339), is non-empty exactly from the table's start down to just above its terminal value, with at most two events per step |
| `RefreshScheduler.EncoderRowOf` | firmware/Src/MidiController/FMDisplayMidiController.cpp:167-214 | every encoder parameter has a row between 18 and 14, and `EncoderRow` of that row is the parameter |
| `RefreshScheduler.ButtonRowOf` | firmware/Src/MidiController/FMDisplayMidiController.cpp:246-304 | every button parameter has a row between 18 and 13, and `ButtonRow` of that row is the parameter |
| `RefreshScheduler.RowsRoundTrip` | firmware/Src/MidiController/FMDisplayMidiController.cpp:167-304 | each editor row from 18 down shows a different parameter: `EncoderRow` and `ButtonRow` are undone by the row lookups |
| `RefreshScheduler.TableFor` | firmware/Src/MidiController/FMDisplayMidiController.cpp:45-56 | the main table runs iff the mode is main or the countdown is 21 |
| `RefreshScheduler.Next` | firmware/Src/MidiController/FMDisplayMidiController.cpp:138-149 | the countdown never increases: from a positive value it drops by one or jumps to 0; 0 stays 0; it reaches 0 iff it was 1 or the table's terminal value |
| `RefreshScheduler.TableEvents` | firmware/Src/MidiController/FMDisplayMidiController.cpp:215-227 | the restart is drawn iff the countdown ends the call at 0; a call made at 0 draws only the restart |
| `RefreshScheduler.StepStatus` | firmware/Src/MidiController/FMDisplayMidiController.cpp:45-56 | one dispatching call: at 21 any mode goes to 20; otherwise the mode's own table's `Next`; a positive countdown drops and 0 stays 0 |
| `RefreshScheduler.StepEvents` | firmware/Src/MidiController/FMDisplayMidiController.cpp:43-150 | the same for the dispatching call, whatever the mode |
| `RefreshScheduler.Run` | firmware/Src/MidiController/FMDisplayMidiController.cpp:43-150 | n consecutive calls: the countdown ends between 0 and its start, and strictly below a positive start once a call is made |
| `RefreshScheduler.RunSplit` | firmware/Src/MidiController/FMDisplayMidiController.cpp:43-150 | a + b calls are a calls followed by b calls from where the first a left the countdown |
| `RefreshScheduler.SettledIsFixedPoint` | firmware/Src/MidiController/FMDisplayMidiController.cpp:43-150 | from 0, every call keeps the countdown at 0 and only restarts the refresh |
| `RefreshScheduler.Drain` | firmware/Src/MidiController/FMDisplayMidiController.cpp:43-150 | above the terminal value each call draws its step and drops the countdown by exactly one |
| `RefreshScheduler.StepAboveTerminal` | firmware/Src/MidiController/FMDisplayMidiController.cpp:45-56 | within a mode's own table and above its terminal value, one call is the table's draw step and a decrement, with no restart |
| `RefreshScheduler.Settle` | firmware/Src/MidiController/FMDisplayMidiController.cpp:138-149 | from its start value every table reaches 0 after exactly start - terminal + 1 calls: its steps in order, then the restart |
| `RefreshScheduler.TerminalStep` | firmware/Src/MidiController/FMDisplayMidiController.cpp:138-141 | at a table's terminal value one call jumps straight to 0 and only restarts the refresh |
| `RefreshScheduler.Compose` | firmware/Src/MidiController/FMDisplayMidiController.cpp:43-150 | a run of a calls ending at some countdown, followed by a run of b calls from there, is the run of a + b calls with both runs' drawing in order |
| `RefreshScheduler.SegmentSplit` | firmware/Src/MidiController/FMDisplayMidiController.cpp:58-141 | the drawing of a + b consecutive steps is that of the first a followed by that of the next b |
| `RefreshScheduler.MainEncoderSteps` | firmware/Src/MidiController/FMDisplayMidiController.cpp:81-108 | steps 19..14 draw encoder cells 0..5 with their values, in order |
| `RefreshScheduler.MainButtonSteps` | firmware/Src/MidiController/FMDisplayMidiController.cpp:109-137 | steps 13..8 draw button cells 0..5 with their values, in order |
| `RefreshScheduler.MainHeaderSteps` | firmware/Src/MidiController/FMDisplayMidiController.cpp:59-80 | steps 21 and 20 pause the refresh, draw the header and frame, and show the channel readout |
| `RefreshScheduler.MainScreenSteps` | firmware/Src/MidiController/FMDisplayMidiController.cpp:58-141 | steps 21..8 draw the whole main screen in order |
| `RefreshScheduler.EditEncoderScreenSteps` | firmware/Src/MidiController/FMDisplayMidiController.cpp:154-214 | steps 20..14 draw the encoder editor: frame, title, then name, channel, CC, min, max |
| `RefreshScheduler.EditButtonScreenSteps` | firmware/Src/MidiController/FMDisplayMidiController.cpp:233-304 | steps 20..13 draw the button editor: frame, title, then name, channel, CC, type, high, low |
| `RefreshScheduler.MainRefreshTakes15Calls` | firmware/Src/MidiController/FMDisplayMidiController.cpp:58-149 | in the main view from 21 it takes exactly 15 calls to settle; they draw the main screen and then restart, and the countdown is 21 - k after k < 15 calls |
| `RefreshScheduler.EditEncoderRefreshTakes8Calls` | firmware/Src/MidiController/FMDisplayMidiController.cpp:154-227 | in the encoder editor from 20 it takes exactly 8 calls to settle, drawing its screen and then restarting; the countdown is 20 - k after k < 8 calls |
| `RefreshScheduler.EditButtonRefreshTakes9Calls` | firmware/Src/MidiController/FMDisplayMidiController.cpp:233-317 | in the button editor from 20 it takes exactly 9 calls to settle, drawing its screen and then restarting; the countdown is 20 - k after k < 9 calls |
| `RefreshScheduler.SaveRefreshTakes4Calls` | firmware/Src/MidiController/FMDisplayMidiController.cpp:321-349 | on the save screen from 20 it takes exactly 4 calls to settle, drawing the confirmation and then restarting; the countdown is 20 - k after k < 4 calls |
| `RefreshScheduler.ResetStep` | firmware/Src/MidiController/FMDisplayMidiController.cpp:45-66 | in any mode, a call at 21 pauses the refresh, draws the main header and leaves 20 |
| `RefreshScheduler.EditEncoderEntryTakes9Calls` | firmware/Src/MidiController/FMDisplayMidiController.cpp:405-410 | after entering the encoder editor (countdown 21), 9 calls draw the header step and then the whole editor, and settle |
| `RefreshScheduler.EditButtonEntryTakes10Calls` | firmware/Src/MidiController/FMDisplayMidiController.cpp:746-750 | after entering the button editor, 10 calls draw the header step and then the whole editor, and settle |
| `ControllerState.Put` | firmware/Src/MidiController/FMDisplayMidiController.cpp:432 | writing a record in place changes exactly the entry at (page, index) and keeps the shape of the store |
| `ControllerState.PutSame` | firmware/Src/MidiController/FMDisplayMidiController.cpp:442 | writing back the record already there leaves the store as it was |
| `ControllerState.MidiControllerState.GetEncoder` | firmware/Src/MidiController/FMDisplayMidiController.cpp:415 | the record under edit has a name of at least five characters |
| `ControllerState.MidiControllerState.GetButton` | firmware/Src/MidiController/FMDisplayMidiController.cpp:482 | the same for buttons |
| `ControllerState.MidiControllerState.SetEncoder` | firmware/Src/MidiController/FMDisplayMidiController.cpp:432 | the store afterwards is the old store with that one encoder replaced; well-formedness is kept when the new record is well-formed |
| `ControllerState.MidiControllerState.SetButton` | firmware/Src/MidiController/FMDisplayMidiController.cpp:529 | the same for buttons |
| `ControllerState.MidiControllerState.EncoderDelta` | firmware/Src/MidiController/FMDisplayMidiController.cpp:403 | a live turn changes only the runtime value of that one encoder |
| `ControllerState.MidiControllerState.ButtonDown` | firmware/Src/MidiController/FMDisplayMidiController.cpp:744 | a live press changes only the runtime value of that one button |
| `ControllerState.MidiControllerState.ButtonUp` | firmware/Src/MidiController/FMDisplayMidiController.cpp:717 | a live release changes only the runtime value of that button, and returns the "changed" report |
| `ControllerState.MidiControllerState.constructor` | firmware/Src/MidiController/FMDisplayMidiController.cpp:39 | the store holds the loaded pages, six encoders and six buttons each |
| `DisplayMidiController.FMDisplayMidiController.constructor` | firmware/Src/MidiController/FMDisplayMidiController.cpp:26-41 | starts in the main view, menu released, cursor 0, channel 0, page 0, with an empty display log and no save |
| `DisplayMidiController.FMDisplayMidiController.SetResetRefreshStatus` | firmware/Src/MidiController/FMDisplayMidiController.cpp:45 | the countdown restarts from 21, the main header step |
| `DisplayMidiController.FMDisplayMidiController.DisplayMidiChannel` | firmware/Src/MidiController/FMDisplayMidiController.cpp:552-567 | appends the channel/page readout to the display, and nothing else |
| `DisplayMidiController.FMDisplayMidiController.DisplayEncoderValue` | firmware/Src/MidiController/FMDisplayMidiController.cpp:353-366 | appends the redraw of one encoder's runtime value |
| `DisplayMidiController.FMDisplayMidiController.DisplayButtonValue` | firmware/Src/MidiController/FMDisplayMidiController.cpp:368-397 | appends the redraw of one button's runtime value |
| `DisplayMidiController.FMDisplayMidiController.DisplayEncoderParam` | firmware/Src/MidiController/FMDisplayMidiController.cpp:570-634 | appends the redraw of one field of the encoder under edit |
| `DisplayMidiController.FMDisplayMidiController.DisplayButtonParam` | firmware/Src/MidiController/FMDisplayMidiController.cpp:636-710 | appends the redraw of one field of the button under edit |
| `DisplayMidiController.FMDisplayMidiController.CountDownAndRestart` | firmware/Src/MidiController/FMDisplayMidiController.cpp:143-149 | a positive countdown drops by one, and the refresh is restarted iff it is then 0 |
| `DisplayMidiController.FMDisplayMidiController.RefreshAllScreenByStep` | firmware/Src/MidiController/FMDisplayMidiController.cpp:43-150 | the new countdown is `StepStatus` of the mode and the old countdown, and the display gains exactly `StepEvents`; a positive countdown strictly drops, and a call at 0 only restarts the refresh |
| `DisplayMidiController.FMDisplayMidiController.RefreshAllScreenByStepEditEncoder` | firmware/Src/MidiController/FMDisplayMidiController.cpp:153-229 | one step of the encoder-editor table: the countdown is `Next` of it and the display gains `TableEvents` |
| `DisplayMidiController.FMDisplayMidiController.RefreshAllScreenByStepEditButton` | firmware/Src/MidiController/FMDisplayMidiController.cpp:232-319 | one step of the button-editor table |
| `DisplayMidiController.FMDisplayMidiController.RefreshAllScreenByStepSave` | firmware/Src/MidiController/FMDisplayMidiController.cpp:320-351 | one step of the save table |
| `DisplayMidiController.FMDisplayMidiController.EncoderTurned` | firmware/Src/MidiController/FMDisplayMidiController.cpp:399-549 | main view: a live value edit of that encoder and its redraw; main view with MENU held: enter the encoder editor on that encoder with countdown 21, cursor kept; editors: exactly the `EditEncoderParam`/`EditButtonParam` edit of the record under edit, written back, with its redraw; save screen: no change; well-formedness of the store is kept |
| `DisplayMidiController.FMDisplayMidiController.MainEncoderTurned` | firmware/Src/MidiController/FMDisplayMidiController.cpp:401-412 | without MENU: only that encoder's runtime value changes and it is redrawn; with MENU held: the encoder editor is entered on that encoder with countdown 21, cursor kept, nothing drawn |
| `DisplayMidiController.FMDisplayMidiController.EditEncoderTurned` | firmware/Src/MidiController/FMDisplayMidiController.cpp:414-480 | the encoder under edit and the cursor become those of `EditEncoderParam`, and the display gains its redraw; encoder 0 moves the cursor within [0, 4] |
| `DisplayMidiController.FMDisplayMidiController.EncoderNameTurned` | firmware/Src/MidiController/FMDisplayMidiController.cpp:427-436 | the encoder under edit becomes the `EditEncoderParam` name edit of it (the character at the cursor), written back, with its redraw |
| `DisplayMidiController.FMDisplayMidiController.EncoderChannelTurned` | firmware/Src/MidiController/FMDisplayMidiController.cpp:437-447 | the encoder under edit becomes the `EditEncoderParam` channel edit of it (a sign-only step in [0, 16]), with its redraw |
| `DisplayMidiController.FMDisplayMidiController.EncoderControllerTurned` | firmware/Src/MidiController/FMDisplayMidiController.cpp:448-457 | the `EditEncoderParam` CC edit (clamped to [0, 127]), with its redraw |
| `DisplayMidiController.FMDisplayMidiController.EncoderMinTurned` | firmware/Src/MidiController/FMDisplayMidiController.cpp:458-467 | the `EditEncoderParam` min edit (clamped to [0, max]), with its redraw |
| `DisplayMidiController.FMDisplayMidiController.EncoderMaxTurned` | firmware/Src/MidiController/FMDisplayMidiController.cpp:468-477 | the `EditEncoderParam` max edit (clamped to [min, 127]), with its redraw |
| `DisplayMidiController.FMDisplayMidiController.EditButtonTurned` | firmware/Src/MidiController/FMDisplayMidiController.cpp:481-547 | the button under edit and the cursor become those of `EditButtonParam`, and the display gains its redraw; encoder 0 moves the cursor within [0, 4] |
| `DisplayMidiController.FMDisplayMidiController.ButtonNameTurned` | firmware/Src/MidiController/FMDisplayMidiController.cpp:495-504 | the button under edit becomes the `EditButtonParam` name edit of it, written back, with its redraw |
| `DisplayMidiController.FMDisplayMidiController.ButtonChannelTurned` | firmware/Src/MidiController/FMDisplayMidiController.cpp:505-515 | the `EditButtonParam` channel edit (a sign-only step in [0, 16]), with its redraw |
| `DisplayMidiController.FMDisplayMidiController.ButtonControllerTurned` | firmware/Src/MidiController/FMDisplayMidiController.cpp:516-525 | the `EditButtonParam` CC edit (clamped to [0, 127]), with its redraw |
| `DisplayMidiController.FMDisplayMidiController.ButtonTypeTurned` | firmware/Src/MidiController/FMDisplayMidiController.cpp:526-533 | the `EditButtonParam` type edit (push iff ticks < 0), with its redraw |
| `DisplayMidiController.FMDisplayMidiController.ButtonHighTurned` | firmware/Src/MidiController/FMDisplayMidiController.cpp:534-543 | the `EditButtonParam` high edit (clamped to [low + 1, 127]), with its redraw |
| `DisplayMidiController.FMDisplayMidiController.ButtonUp` | firmware/Src/MidiController/FMDisplayMidiController.cpp:712-724 | main view: a control button's value is updated, and redrawn iff the model reports a change; MENU clears the menu flag; in the editors and on the save screen nothing changes |
| `DisplayMidiController.FMDisplayMidiController.ButtonDown` | firmware/Src/MidiController/FMDisplayMidiController.cpp:726-798 | save screen: any button returns to the main view with countdown 21, and the configuration is saved exactly once iff it is SEQUENCER; main view: live press, or enter the button editor with MENU held (cursor kept); MENU sets the flag; SEQUENCER enters the save screen with countdown 20; NEXT/PREVIOUS move the page within [0, pageCount - 1] and reset the countdown only on a change, or with MENU held move the channel within [0, 15] and redraw only the readout; button editor: PREVIOUS/NEXT do `EditButtonLow`; in both editors MENU returns to the main view |
| `DisplayMidiController.FMDisplayMidiController.SaveButtonDown` | firmware/Src/MidiController/FMDisplayMidiController.cpp:727-740 | any button leaves the save screen for the main view with countdown 21; SEQUENCER shows the banner and saves exactly once, any other button neither |
| `DisplayMidiController.FMDisplayMidiController.MainButtonDown` | firmware/Src/MidiController/FMDisplayMidiController.cpp:741-782 | the main-view cases of `ButtonDown`: live press, editor entry with MENU held, MENU flag, save screen with countdown 20, paging and channel changes; nothing else changes |
| `DisplayMidiController.FMDisplayMidiController.Navigate` | firmware/Src/MidiController/FMDisplayMidiController.cpp:757-781 | NEXT/PREVIOUS: without MENU the page moves by one within [0, pageCount - 1], resetting the countdown only when it moves; with MENU the channel moves by one within [0, 15], redrawing only the readout |
| `DisplayMidiController.FMDisplayMidiController.EditorButtonDown` | firmware/Src/MidiController/FMDisplayMidiController.cpp:782-797 | in either editor MENU returns to the main view with countdown 21; in the button editor the button under edit becomes `EditButtonLow` of it; in the encoder editor no record changes and nothing is drawn |
| `DisplayMidiController.FMDisplayMidiController.EditButtonPressed` | firmware/Src/MidiController/FMDisplayMidiController.cpp:783-792 | the button under edit becomes `EditButtonLow` of it, and the low field is redrawn iff it changed |
| `DisplayMidiController.FMDisplayMidiController.EncoderTurnedWhileButtonPressed` | firmware/Src/MidiController/FMDisplayMidiController.cpp:802-803 | an empty hook: the UI fields, the store, the display log and the save count are unchanged |
| `DisplayMidiController.FMDisplayMidiController.ButtonPressed` | firmware/Src/MidiController/FMDisplayMidiController.cpp:805-806 | an empty hook: the UI fields, the store, the display log and the save count are unchanged |
| `DisplayMidiController.FMDisplayMidiController.ButtonLongPressed` | firmware/Src/MidiController/FMDisplayMidiController.cpp:808-809 | an empty hook: the UI fields, the store, the display log and the save count are unchanged |
| `DisplayMidiController.FMDisplayMidiController.TwoButtonsPressed` | firmware/Src/MidiController/FMDisplayMidiController.cpp:811-812 | an empty hook: the UI fields, the store, the display log and the save count are unchanged |

## Left out

- TFT drawing primitives are not modelled: colours, pixel and cell coordinates, `fillArea`, and the x/y layout arithmetic. Each drawing step is a single abstract event in the display log. `pauseRefresh` and `restartRefreshTft` appear only as events.
- The centring of a button's value in `displayButtonValue` (lines 372-395) is not modelled, because it is pure pixel geometry.
- `ButtonParamText`: the low field is printed with `ButtonLowTextIntended`, not as lines 698-704 print it. When high >= 100 and low < 100 the code prints the low value unpadded (low 5 under high 127 prints "5"), while the model gives "5  ". The as-written text is `ButtonLowText`; see Findings.
- `HAL_Delay` (lines 736 and 756) is not modelled. It blocks for wall-clock time and changes no state.
- `MidiControllerState::encoderDelta`, `buttonDown` and `buttonUp` are not part of this model. The only effect modelled is that the runtime value of the one control becomes a caller-supplied value. The `changed` result of `buttonUp` is a caller-supplied bool.
- `MidiControllerFile::loadConfig` and `saveConfig` are not part of this model, because they are persistence I/O. The controller's constructor takes an already loaded store, and a save is counted in `saveCount`.
- The body of `setResetRefreshStatus` and the `TftDisplay` refresh mechanism are declared outside this file. The reset value is taken as 21.
- The values of the button ids and of `MIDI_NUMBER_OF_PAGES` are declared outside this file. They are taken as stated above.
- `refreshStatus_` and `editControl_` are not initialised by the C++ constructor. The model starts them at 0.
- `ticks` is an unbounded integer. A 32-bit overflow of `value + ticks` in the clamps is not modelled, and neither is the 8-bit `char` of the name.
- The controls are records held by value in the store and written back after each edit. Aliasing through the `MidiEncoder*`/`MidiButton*` pointers is not modelled. Only the record under edit changes, which is what the pointer writes do.
- The draw events of the main table record which cell is drawn, not the text in it. The field text is given separately by the `FieldFormatter` functions.
- `EncoderTurnedWhileButtonPressed`, `ButtonPressed`, `ButtonLongPressed` and `TwoButtonsPressed` are empty in the source (lines 802-812). They are modelled as methods with empty bodies whose contracts state that nothing changes.

## Findings

| source | as written | input that shows it | evidently intended | confidence | as-written member | corrected member |
|---|---|---|---|---|---|---|
| firmware/Src/MidiController/FMDisplayMidiController.cpp:699 | the first space after the low value is printed only when `valueHigh < 100` | a button with high 127 whose low goes from 10 to 9: "9" is printed one character wide and the "0" of "10" stays, so the field reads "90" | pad by the low value itself, as line 701 and the CC, min, max and high fields (lines 602/604, 613/615, 624/626, 688/690) do | medium, not executed | `FieldFormatter.ButtonLowText`, `FieldFormatter.LowPaddingDiffers` | `FieldFormatter.ButtonLowTextIntended` |

`ButtonParamText` prints the low field with `ButtonLowTextIntended`.
