/**
 * The front-panel controller of the MIDI-controller screen: the UI state,
 * the step refresh scheduler that paints one step per call, and the input
 * handlers that route encoder and button events by display mode.
 */
module DisplayMidiController {
  import opened MidiTypes
  import opened ParamEditor
  import opened RefreshScheduler
  import opened ControllerState

  /** The seven UI variables as one value. */
  datatype UiState = UiState(
    displayMode: DisplayMode,
    refreshStatus: int,
    menuPressed: bool,
    editControl: int,
    editLetterPosition: int,
    midiChannel: int,
    pageNumber: int)

  /** The redraw an encoder edit asks for, as drawing. */
  function EncoderRedraw(page: int, index: int, redraw: Option<EncoderParam>): seq<DrawEvent> {
    if redraw.Some? then [EncoderParamField(page, index, redraw.value)] else []
  }

  /** The redraw a button edit asks for, as drawing. */
  function ButtonRedraw(page: int, index: int, redraw: Option<ButtonParam>): seq<DrawEvent> {
    if redraw.Some? then [ButtonParamField(page, index, redraw.value)] else []
  }

  class FMDisplayMidiController {
    var displayMode: DisplayMode
    /** The refresh countdown: the step the next scheduler call draws; 0 when the screen is settled. */
    var refreshStatus: int
    var menuPressed: bool
    /** The encoder or button under edit. */
    var editControl: int
    /** The name cursor; only the editor's encoder 0 moves it. */
    var editLetterPosition: int
    var midiChannel: int
    var pageNumber: int

    /** The external model store holding the records. */
    const midiControllerState: MidiControllerState
    /** Everything drawn on the display so far. */
    var log: seq<DrawEvent>
    /** How many times the configuration was saved. */
    var saveCount: nat

    ghost predicate Valid()
      reads this, midiControllerState
    {
      midiControllerState.Valid()
      && 0 <= refreshStatus <= RESET_REFRESH_STATUS
      && 0 <= editControl < CONTROL_COUNT
      && 0 <= editLetterPosition < NAME_LENGTH
      && 0 <= midiChannel <= 15
      && 0 <= pageNumber < midiControllerState.pageCount
    }

    ghost function Ui(): UiState
      reads this
    {
      UiState(displayMode, refreshStatus, menuPressed, editControl, editLetterPosition, midiChannel, pageNumber)
    }

    /** What the step tables read. */
    function CurrentView(): View
      reads this
    {
      View(pageNumber, midiChannel, editControl)
    }

    /** The controller over a store whose configuration has been loaded. */
    constructor (store: MidiControllerState)
      requires store.Valid()
      ensures Valid() && midiControllerState == store
      ensures Ui() == UiState(MainMode, 0, false, 0, 0, 0, 0)
      ensures log == [] && saveCount == 0
    {
      menuPressed := false;
      displayMode := MainMode;
      editLetterPosition := 0;
      midiChannel := 0;
      pageNumber := 0;
      refreshStatus := 0;
      editControl := 0;
      midiControllerState := store;
      log := [];
      saveCount := 0;
    }

    /** Restarts the staged repaint from the main table's header step. */
    method SetResetRefreshStatus()
      modifies this`refreshStatus
      ensures refreshStatus == RESET_REFRESH_STATUS
    {
      refreshStatus := RESET_REFRESH_STATUS;
    }

    method DisplayMidiChannel()
      modifies this`log
      ensures log == old(log) + [ChannelReadout(midiChannel, pageNumber)]
    {
      log := log + [ChannelReadout(midiChannel, pageNumber)];
    }

    method DisplayEncoderValue(encoderNumber: int)
      modifies this`log
      ensures log == old(log) + [EncoderValue(pageNumber, encoderNumber)]
    {
      log := log + [EncoderValue(pageNumber, encoderNumber)];
    }

    method DisplayButtonValue(buttonNumber: int)
      modifies this`log
      ensures log == old(log) + [ButtonValue(pageNumber, buttonNumber)]
    {
      log := log + [ButtonValue(pageNumber, buttonNumber)];
    }

    method DisplayEncoderParam(encoderNumber: int, param: EncoderParam)
      modifies this`log
      ensures log == old(log) + [EncoderParamField(pageNumber, encoderNumber, param)]
    {
      log := log + [EncoderParamField(pageNumber, encoderNumber, param)];
    }

    method DisplayButtonParam(buttonNumber: int, param: ButtonParam)
      modifies this`log
      ensures log == old(log) + [ButtonParamField(pageNumber, buttonNumber, param)]
    {
      log := log + [ButtonParamField(pageNumber, buttonNumber, param)];
    }

    /** The last two statements of every step table: count down, and restart the refresh at 0. */
    method CountDownAndRestart()
      modifies this`refreshStatus, this`log
      ensures refreshStatus == (if old(refreshStatus) > 0 then old(refreshStatus) - 1 else old(refreshStatus))
      ensures log == old(log) + (if refreshStatus == 0 then [RestartRefresh] else [])
    {
      if refreshStatus > 0 {
        refreshStatus := refreshStatus - 1;
      }
      if refreshStatus == 0 {
        log := log + [RestartRefresh];
      }
    }

    /** One scheduler call: one draw step of the table the mode and countdown select. */
    method RefreshAllScreenByStep()
      requires Valid()
      modifies this`refreshStatus, this`log
      ensures Valid()
      ensures refreshStatus == StepStatus(displayMode, old(refreshStatus))
      ensures log == old(log) + StepEvents(displayMode, old(refreshStatus), CurrentView())
      // the countdown never increases, and a call made at 0 only restarts the refresh
      ensures old(refreshStatus) > 0 ==> refreshStatus < old(refreshStatus)
      ensures old(refreshStatus) == 0 ==> refreshStatus == 0 && log == old(log) + [RestartRefresh]
    {
      if refreshStatus != RESET_REFRESH_STATUS {
        if displayMode == EditEncoderMode {
          RefreshAllScreenByStepEditEncoder();
          return;
        } else if displayMode == EditButtonMode {
          RefreshAllScreenByStepEditButton();
          return;
        } else if displayMode == SaveMode {
          RefreshAllScreenByStepSave();
          return;
        }
      }

      if refreshStatus == 21 {
        log := log + [PauseRefresh, MainHeader];
      } else if refreshStatus == 20 {
        log := log + [MainFrame];
        DisplayMidiChannel();
      } else if 14 <= refreshStatus <= 19 {
        var encoderNumber := 19 - refreshStatus;
        log := log + [EncoderCell(pageNumber, encoderNumber)];
        DisplayEncoderValue(encoderNumber);
      } else if 8 <= refreshStatus <= 13 {
        var buttonNumber := 13 - refreshStatus;
        log := log + [ButtonCell(pageNumber, buttonNumber)];
        DisplayButtonValue(buttonNumber);
      } else if refreshStatus == 7 {
        refreshStatus := 0;
      }
      CountDownAndRestart();
    }

    method RefreshAllScreenByStepEditEncoder()
      requires Valid()
      modifies this`refreshStatus, this`log
      ensures Valid()
      ensures refreshStatus == Next(EditEncoderTable, old(refreshStatus))
      ensures log == old(log) + TableEvents(EditEncoderTable, old(refreshStatus), CurrentView())
    {
      if refreshStatus == 20 {
        log := log + [EditFrame(EncoderControl)];
      } else if refreshStatus == 19 {
        log := log + [EditTitle(EncoderControl)];
      } else if refreshStatus == 18 {
        log := log + [EncoderParamLabel(EncoderName)];
        DisplayEncoderParam(editControl, EncoderName);
      } else if refreshStatus == 17 {
        log := log + [EncoderParamLabel(EncoderMidiChannel)];
        DisplayEncoderParam(editControl, EncoderMidiChannel);
      } else if refreshStatus == 16 {
        log := log + [EncoderParamLabel(EncoderController)];
        DisplayEncoderParam(editControl, EncoderController);
      } else if refreshStatus == 15 {
        log := log + [EncoderParamLabel(EncoderMin)];
        DisplayEncoderParam(editControl, EncoderMin);
      } else if refreshStatus == 14 {
        log := log + [EncoderParamLabel(EncoderMax)];
        DisplayEncoderParam(editControl, EncoderMax);
      } else if refreshStatus == 13 {
        refreshStatus := 0;
      }
      CountDownAndRestart();
    }

    method RefreshAllScreenByStepEditButton()
      requires Valid()
      modifies this`refreshStatus, this`log
      ensures Valid()
      ensures refreshStatus == Next(EditButtonTable, old(refreshStatus))
      ensures log == old(log) + TableEvents(EditButtonTable, old(refreshStatus), CurrentView())
    {
      if refreshStatus == 20 {
        log := log + [EditFrame(ButtonControl)];
      } else if refreshStatus == 19 {
        log := log + [EditTitle(ButtonControl)];
      } else if refreshStatus == 18 {
        log := log + [ButtonParamLabel(ButtonName)];
        DisplayButtonParam(editControl, ButtonName);
      } else if refreshStatus == 17 {
        log := log + [ButtonParamLabel(ButtonMidiChannel)];
        DisplayButtonParam(editControl, ButtonMidiChannel);
      } else if refreshStatus == 16 {
        log := log + [ButtonParamLabel(ButtonController)];
        DisplayButtonParam(editControl, ButtonController);
      } else if refreshStatus == 15 {
        log := log + [ButtonParamLabel(ButtonTypeField)];
        DisplayButtonParam(editControl, ButtonTypeField);
      } else if refreshStatus == 14 {
        log := log + [ButtonParamLabel(ButtonHigh)];
        DisplayButtonParam(editControl, ButtonHigh);
      } else if refreshStatus == 13 {
        log := log + [ButtonParamLabel(ButtonLow)];
        DisplayButtonParam(editControl, ButtonLow);
      } else if refreshStatus == 12 {
        refreshStatus := 0;
      }
      CountDownAndRestart();
    }

    method RefreshAllScreenByStepSave()
      requires Valid()
      modifies this`refreshStatus, this`log
      ensures Valid()
      ensures refreshStatus == Next(SaveTable, old(refreshStatus))
      ensures log == old(log) + TableEvents(SaveTable, old(refreshStatus), CurrentView())
    {
      if refreshStatus == 20 {
        log := log + [SaveFrame];
      } else if refreshStatus == 19 {
        log := log + [SaveTitle];
      } else if refreshStatus == 18 {
        log := log + [SaveHelp];
      } else if refreshStatus == 17 {
        refreshStatus := 0;
      }
      CountDownAndRestart();
    }

    /**
     * Encoder `encoderNumber` turned by `ticks`. In the main view without the
     * menu held the external model applies the turn and the encoder's runtime
     * value becomes `liveValue`.
     */
    method EncoderTurned(encoderNumber: int, ticks: int, liveValue: int)
      requires Valid() && 0 <= encoderNumber < CONTROL_COUNT
      modifies this, midiControllerState
      ensures Valid() && saveCount == old(saveCount)
      ensures old(midiControllerState.RecordsWellFormed()) ==> midiControllerState.RecordsWellFormed()
      // main view: a live edit of the runtime value, redrawing that value
      ensures old(displayMode) == MainMode && !old(menuPressed) ==>
                && Ui() == old(Ui())
                && midiControllerState.encoders
                   == Put(old(midiControllerState.encoders), pageNumber, encoderNumber,
                          old(midiControllerState.encoders[pageNumber][encoderNumber]).(value := liveValue))
                && midiControllerState.buttons == old(midiControllerState.buttons)
                && log == old(log) + [EncoderValue(pageNumber, encoderNumber)]
      // main view with the menu held: enter the encoder editor; the cursor is kept
      ensures old(displayMode) == MainMode && old(menuPressed) ==>
                && Ui() == old(Ui()).(displayMode := EditEncoderMode, editControl := encoderNumber,
                                      refreshStatus := RESET_REFRESH_STATUS)
                && unchanged(midiControllerState) && log == old(log)
      // encoder editor: one clamped edit of the encoder under edit
      ensures old(displayMode) == EditEncoderMode ==>
                var ed := EditEncoderParam(old(midiControllerState.encoders[pageNumber][editControl]),
                                           old(editLetterPosition), encoderNumber, ticks);
                && Ui() == old(Ui()).(editLetterPosition := ed.cursor)
                && midiControllerState.encoders
                   == Put(old(midiControllerState.encoders), pageNumber, editControl, ed.encoder)
                && midiControllerState.buttons == old(midiControllerState.buttons)
                && log == old(log) + EncoderRedraw(pageNumber, editControl, ed.redraw)
      // button editor: one clamped edit of the button under edit
      ensures old(displayMode) == EditButtonMode ==>
                var ed := EditButtonParam(old(midiControllerState.buttons[pageNumber][editControl]),
                                          old(editLetterPosition), encoderNumber, ticks);
                && Ui() == old(Ui()).(editLetterPosition := ed.cursor)
                && midiControllerState.buttons
                   == Put(old(midiControllerState.buttons), pageNumber, editControl, ed.button)
                && midiControllerState.encoders == old(midiControllerState.encoders)
                && log == old(log) + ButtonRedraw(pageNumber, editControl, ed.redraw)
      // save screen: turning an encoder does nothing
      ensures old(displayMode) == SaveMode ==> Ui() == old(Ui()) && unchanged(midiControllerState) && log == old(log)
    {
      if displayMode == MainMode {
        MainEncoderTurned(encoderNumber, ticks, liveValue);
      } else if displayMode == EditEncoderMode {
        EditEncoderTurned(encoderNumber, ticks);
      } else if displayMode == EditButtonMode {
        EditButtonTurned(encoderNumber, ticks);
      }
    }

    /** An encoder turn on the main view: a live edit, or with the menu held, entering the encoder editor. */
    method MainEncoderTurned(encoderNumber: int, ticks: int, liveValue: int)
      requires Valid() && displayMode == MainMode && 0 <= encoderNumber < CONTROL_COUNT
      modifies this`displayMode, this`editControl, this`refreshStatus, this`log, midiControllerState`encoders
      ensures Valid()
      ensures old(midiControllerState.RecordsWellFormed()) ==> midiControllerState.RecordsWellFormed()
      ensures !old(menuPressed) ==>
                && Ui() == old(Ui())
                && midiControllerState.encoders
                   == Put(old(midiControllerState.encoders), pageNumber, encoderNumber,
                          old(midiControllerState.encoders[pageNumber][encoderNumber]).(value := liveValue))
                && log == old(log) + [EncoderValue(pageNumber, encoderNumber)]
      ensures old(menuPressed) ==>
                && Ui() == old(Ui()).(displayMode := EditEncoderMode, editControl := encoderNumber,
                                      refreshStatus := RESET_REFRESH_STATUS)
                && midiControllerState.encoders == old(midiControllerState.encoders) && log == old(log)
    {
      if !menuPressed {
        midiControllerState.EncoderDelta(pageNumber, midiChannel, encoderNumber, ticks, liveValue);
        DisplayEncoderValue(encoderNumber);
      } else {
        if displayMode != EditEncoderMode {
          displayMode := EditEncoderMode;
          editControl := encoderNumber;
          SetResetRefreshStatus();
        }
      }
    }

    /** The encoder-editor branch of an encoder turn. */
    method EditEncoderTurned(encoderNumber: int, ticks: int)
      requires Valid()
      modifies this`editLetterPosition, this`log, midiControllerState`encoders
      ensures Valid()
      ensures old(midiControllerState.RecordsWellFormed()) ==> midiControllerState.RecordsWellFormed()
      ensures var ed := EditEncoderParam(old(midiControllerState.encoders[pageNumber][editControl]),
                             old(editLetterPosition), encoderNumber, ticks);
              && editLetterPosition == ed.cursor
              && midiControllerState.encoders == Put(old(midiControllerState.encoders), pageNumber, editControl, ed.encoder)
              && log == old(log) + EncoderRedraw(pageNumber, editControl, ed.redraw)
    {
      PutSame(midiControllerState.encoders, pageNumber, editControl);
      if encoderNumber == 0 {
        var newValue := editLetterPosition + (if ticks > 0 then 1 else -1);
        newValue := if newValue < 0 then 0 else newValue;
        newValue := if newValue > 4 then 4 else newValue;
        if editLetterPosition != newValue {
          editLetterPosition := newValue;
          DisplayEncoderParam(editControl, EncoderName);
        }
      } else if encoderNumber == 3 {
        EncoderNameTurned(ticks);
      } else if encoderNumber == 1 {
        EncoderChannelTurned(ticks);
      } else if encoderNumber == 4 {
        EncoderControllerTurned(ticks);
      } else if encoderNumber == 2 {
        EncoderMinTurned(ticks);
      } else if encoderNumber == 5 {
        EncoderMaxTurned(ticks);
      }
    }

    /** Editor encoder 3 on the encoder under edit: the name character at the cursor. */
    method EncoderNameTurned(ticks: int)
      requires Valid()
      modifies this`log, midiControllerState`encoders
      ensures Valid()
      ensures old(midiControllerState.RecordsWellFormed()) ==> midiControllerState.RecordsWellFormed()
      ensures var ed := EditEncoderParam(old(midiControllerState.encoders[pageNumber][editControl]), editLetterPosition, 3, ticks);
              && midiControllerState.encoders == Put(old(midiControllerState.encoders), pageNumber, editControl, ed.encoder)
              && log == old(log) + EncoderRedraw(pageNumber, editControl, ed.redraw)
    {
      var encoder := midiControllerState.GetEncoder(pageNumber, editControl);
      PutSame(midiControllerState.encoders, pageNumber, editControl);
      var newValue := encoder.name[editLetterPosition] as int + ticks;
      newValue := if newValue < 32 then 32 else newValue;
      newValue := if newValue > 127 then 127 else newValue;
      if encoder.name[editLetterPosition] as int != newValue {
        midiControllerState.SetEncoder(pageNumber, editControl,
          encoder.(name := encoder.name[editLetterPosition := newValue as char]));
        DisplayEncoderParam(editControl, EncoderName);
      } else {
        assert encoder.name[editLetterPosition := newValue as char] == encoder.name;
      }
    }

    /** Editor encoder 1 on the encoder under edit: its MIDI channel, 16 meaning the global channel. */
    method EncoderChannelTurned(ticks: int)
      requires Valid()
      modifies this`log, midiControllerState`encoders
      ensures Valid()
      ensures old(midiControllerState.RecordsWellFormed()) ==> midiControllerState.RecordsWellFormed()
      ensures var ed := EditEncoderParam(old(midiControllerState.encoders[pageNumber][editControl]), editLetterPosition, 1, ticks);
              && midiControllerState.encoders == Put(old(midiControllerState.encoders), pageNumber, editControl, ed.encoder)
              && log == old(log) + EncoderRedraw(pageNumber, editControl, ed.redraw)
    {
      var encoder := midiControllerState.GetEncoder(pageNumber, editControl);
      PutSame(midiControllerState.encoders, pageNumber, editControl);
      var newValue := encoder.midiChannel + (if ticks > 0 then 1 else -1);
      newValue := if newValue < 0 then 0 else newValue;
      newValue := if newValue > 16 then 16 else newValue;
      if encoder.midiChannel != newValue {
        midiControllerState.SetEncoder(pageNumber, editControl, encoder.(midiChannel := newValue));
        DisplayEncoderParam(editControl, EncoderMidiChannel);
      }
    }

    /** Editor encoder 4 on the encoder under edit: its CC number. */
    method EncoderControllerTurned(ticks: int)
      requires Valid()
      modifies this`log, midiControllerState`encoders
      ensures Valid()
      ensures old(midiControllerState.RecordsWellFormed()) ==> midiControllerState.RecordsWellFormed()
      ensures var ed := EditEncoderParam(old(midiControllerState.encoders[pageNumber][editControl]), editLetterPosition, 4, ticks);
              && midiControllerState.encoders == Put(old(midiControllerState.encoders), pageNumber, editControl, ed.encoder)
              && log == old(log) + EncoderRedraw(pageNumber, editControl, ed.redraw)
    {
      var encoder := midiControllerState.GetEncoder(pageNumber, editControl);
      PutSame(midiControllerState.encoders, pageNumber, editControl);
      var newValue := encoder.controller + ticks;
      newValue := if newValue < 0 then 0 else newValue;
      newValue := if newValue > 127 then 127 else newValue;
      if encoder.controller != newValue {
        midiControllerState.SetEncoder(pageNumber, editControl, encoder.(controller := newValue));
        DisplayEncoderParam(editControl, EncoderController);
      }
    }

    /** Editor encoder 2 on the encoder under edit: its minimum, never above its maximum. */
    method EncoderMinTurned(ticks: int)
      requires Valid()
      modifies this`log, midiControllerState`encoders
      ensures Valid()
      ensures old(midiControllerState.RecordsWellFormed()) ==> midiControllerState.RecordsWellFormed()
      ensures var ed := EditEncoderParam(old(midiControllerState.encoders[pageNumber][editControl]), editLetterPosition, 2, ticks);
              && midiControllerState.encoders == Put(old(midiControllerState.encoders), pageNumber, editControl, ed.encoder)
              && log == old(log) + EncoderRedraw(pageNumber, editControl, ed.redraw)
    {
      var encoder := midiControllerState.GetEncoder(pageNumber, editControl);
      PutSame(midiControllerState.encoders, pageNumber, editControl);
      var newValue := encoder.minValue + ticks;
      newValue := if newValue < 0 then 0 else newValue;
      newValue := if newValue > encoder.maxValue then encoder.maxValue else newValue;
      if encoder.minValue != newValue {
        midiControllerState.SetEncoder(pageNumber, editControl, encoder.(minValue := newValue));
        DisplayEncoderParam(editControl, EncoderMin);
      }
    }

    /** Editor encoder 5 on the encoder under edit: its maximum, never below its minimum. */
    method EncoderMaxTurned(ticks: int)
      requires Valid()
      modifies this`log, midiControllerState`encoders
      ensures Valid()
      ensures old(midiControllerState.RecordsWellFormed()) ==> midiControllerState.RecordsWellFormed()
      ensures var ed := EditEncoderParam(old(midiControllerState.encoders[pageNumber][editControl]), editLetterPosition, 5, ticks);
              && midiControllerState.encoders == Put(old(midiControllerState.encoders), pageNumber, editControl, ed.encoder)
              && log == old(log) + EncoderRedraw(pageNumber, editControl, ed.redraw)
    {
      var encoder := midiControllerState.GetEncoder(pageNumber, editControl);
      PutSame(midiControllerState.encoders, pageNumber, editControl);
      var newValue := encoder.maxValue + ticks;
      newValue := if newValue < encoder.minValue then encoder.minValue else newValue;
      newValue := if newValue > 127 then 127 else newValue;
      if encoder.maxValue != newValue {
        midiControllerState.SetEncoder(pageNumber, editControl, encoder.(maxValue := newValue));
        DisplayEncoderParam(editControl, EncoderMax);
      }
    }

    /** The button-editor branch of an encoder turn. */
    method EditButtonTurned(encoderNumber: int, ticks: int)
      requires Valid()
      modifies this`editLetterPosition, this`log, midiControllerState`buttons
      ensures Valid()
      ensures old(midiControllerState.RecordsWellFormed()) ==> midiControllerState.RecordsWellFormed()
      ensures var ed := EditButtonParam(old(midiControllerState.buttons[pageNumber][editControl]),
                             old(editLetterPosition), encoderNumber, ticks);
              && editLetterPosition == ed.cursor
              && midiControllerState.buttons == Put(old(midiControllerState.buttons), pageNumber, editControl, ed.button)
              && log == old(log) + ButtonRedraw(pageNumber, editControl, ed.redraw)
    {
      PutSame(midiControllerState.buttons, pageNumber, editControl);
      if encoderNumber == 0 {
        var newValue := editLetterPosition + (if ticks > 0 then 1 else -1);
        newValue := if newValue < 0 then 0 else newValue;
        newValue := if newValue > 4 then 4 else newValue;
        if editLetterPosition != newValue {
          editLetterPosition := newValue;
          DisplayButtonParam(editControl, ButtonName);
        }
      } else if encoderNumber == 3 {
        ButtonNameTurned(ticks);
      } else if encoderNumber == 1 {
        ButtonChannelTurned(ticks);
      } else if encoderNumber == 4 {
        ButtonControllerTurned(ticks);
      } else if encoderNumber == 2 {
        ButtonTypeTurned(ticks);
      } else if encoderNumber == 5 {
        ButtonHighTurned(ticks);
      }
    }

    /** Editor encoder 3 on the button under edit: the name character at the cursor. */
    method ButtonNameTurned(ticks: int)
      requires Valid()
      modifies this`log, midiControllerState`buttons
      ensures Valid()
      ensures old(midiControllerState.RecordsWellFormed()) ==> midiControllerState.RecordsWellFormed()
      ensures var ed := EditButtonParam(old(midiControllerState.buttons[pageNumber][editControl]), editLetterPosition, 3, ticks);
              && midiControllerState.buttons == Put(old(midiControllerState.buttons), pageNumber, editControl, ed.button)
              && log == old(log) + ButtonRedraw(pageNumber, editControl, ed.redraw)
    {
      var button := midiControllerState.GetButton(pageNumber, editControl);
      PutSame(midiControllerState.buttons, pageNumber, editControl);
      var newValue := button.name[editLetterPosition] as int + ticks;
      newValue := if newValue < 32 then 32 else newValue;
      newValue := if newValue > 127 then 127 else newValue;
      if button.name[editLetterPosition] as int != newValue {
        midiControllerState.SetButton(pageNumber, editControl,
          button.(name := button.name[editLetterPosition := newValue as char]));
        DisplayButtonParam(editControl, ButtonName);
      } else {
        assert button.name[editLetterPosition := newValue as char] == button.name;
      }
    }

    /** Editor encoder 1 on the button under edit: its MIDI channel, 16 meaning the global channel. */
    method ButtonChannelTurned(ticks: int)
      requires Valid()
      modifies this`log, midiControllerState`buttons
      ensures Valid()
      ensures old(midiControllerState.RecordsWellFormed()) ==> midiControllerState.RecordsWellFormed()
      ensures var ed := EditButtonParam(old(midiControllerState.buttons[pageNumber][editControl]), editLetterPosition, 1, ticks);
              && midiControllerState.buttons == Put(old(midiControllerState.buttons), pageNumber, editControl, ed.button)
              && log == old(log) + ButtonRedraw(pageNumber, editControl, ed.redraw)
    {
      var button := midiControllerState.GetButton(pageNumber, editControl);
      PutSame(midiControllerState.buttons, pageNumber, editControl);
      var newValue := button.midiChannel + (if ticks > 0 then 1 else -1);
      newValue := if newValue < 0 then 0 else newValue;
      newValue := if newValue > 16 then 16 else newValue;
      if button.midiChannel != newValue {
        midiControllerState.SetButton(pageNumber, editControl, button.(midiChannel := newValue));
        DisplayButtonParam(editControl, ButtonMidiChannel);
      }
    }

    /** Editor encoder 4 on the button under edit: its CC number. */
    method ButtonControllerTurned(ticks: int)
      requires Valid()
      modifies this`log, midiControllerState`buttons
      ensures Valid()
      ensures old(midiControllerState.RecordsWellFormed()) ==> midiControllerState.RecordsWellFormed()
      ensures var ed := EditButtonParam(old(midiControllerState.buttons[pageNumber][editControl]), editLetterPosition, 4, ticks);
              && midiControllerState.buttons == Put(old(midiControllerState.buttons), pageNumber, editControl, ed.button)
              && log == old(log) + ButtonRedraw(pageNumber, editControl, ed.redraw)
    {
      var button := midiControllerState.GetButton(pageNumber, editControl);
      PutSame(midiControllerState.buttons, pageNumber, editControl);
      var newValue := button.controller + ticks;
      newValue := if newValue < 0 then 0 else newValue;
      newValue := if newValue > 127 then 127 else newValue;
      if button.controller != newValue {
        midiControllerState.SetButton(pageNumber, editControl, button.(controller := newValue));
        DisplayButtonParam(editControl, ButtonController);
      }
    }

    /** Editor encoder 2 on the button under edit: push for a negative turn, toggle otherwise. */
    method ButtonTypeTurned(ticks: int)
      requires Valid()
      modifies this`log, midiControllerState`buttons
      ensures Valid()
      ensures old(midiControllerState.RecordsWellFormed()) ==> midiControllerState.RecordsWellFormed()
      ensures var ed := EditButtonParam(old(midiControllerState.buttons[pageNumber][editControl]), editLetterPosition, 2, ticks);
              && midiControllerState.buttons == Put(old(midiControllerState.buttons), pageNumber, editControl, ed.button)
              && log == old(log) + ButtonRedraw(pageNumber, editControl, ed.redraw)
    {
      var button := midiControllerState.GetButton(pageNumber, editControl);
      PutSame(midiControllerState.buttons, pageNumber, editControl);
      var newValue := if ticks < 0 then Push else Toggle;
      if button.buttonType != newValue {
        midiControllerState.SetButton(pageNumber, editControl, button.(buttonType := newValue));
        DisplayButtonParam(editControl, ButtonTypeField);
      }
    }

    /** Editor encoder 5 on the button under edit: its high value, kept above its low value. */
    method ButtonHighTurned(ticks: int)
      requires Valid()
      modifies this`log, midiControllerState`buttons
      ensures Valid()
      ensures old(midiControllerState.RecordsWellFormed()) ==> midiControllerState.RecordsWellFormed()
      ensures var ed := EditButtonParam(old(midiControllerState.buttons[pageNumber][editControl]), editLetterPosition, 5, ticks);
              && midiControllerState.buttons == Put(old(midiControllerState.buttons), pageNumber, editControl, ed.button)
              && log == old(log) + ButtonRedraw(pageNumber, editControl, ed.redraw)
    {
      var button := midiControllerState.GetButton(pageNumber, editControl);
      PutSame(midiControllerState.buttons, pageNumber, editControl);
      var newValue := button.valueHigh + ticks;
      newValue := if newValue < button.valueLow + 1 then button.valueLow + 1 else newValue;
      newValue := if newValue > 127 then 127 else newValue;
      if button.valueHigh != newValue {
        midiControllerState.SetButton(pageNumber, editControl, button.(valueHigh := newValue));
        DisplayButtonParam(editControl, ButtonHigh);
      }
    }

    /**
     * Button `buttonNumber` released. In the main view a control button is
     * passed to the external model, which sets its runtime value to
     * `liveValue` and reports in `changed` whether it needs a redraw.
     */
    method ButtonUp(buttonNumber: int, liveValue: int, changed: bool)
      requires Valid()
      modifies this, midiControllerState
      ensures Valid() && saveCount == old(saveCount)
      ensures old(midiControllerState.RecordsWellFormed()) ==> midiControllerState.RecordsWellFormed()
      ensures old(displayMode) == MainMode && IsControlButton(buttonNumber) ==>
                && Ui() == old(Ui())
                && midiControllerState.buttons
                   == Put(old(midiControllerState.buttons), pageNumber, buttonNumber,
                          old(midiControllerState.buttons[pageNumber][buttonNumber]).(value := liveValue))
                && midiControllerState.encoders == old(midiControllerState.encoders)
                && log == old(log) + (if changed then [ButtonValue(pageNumber, buttonNumber)] else [])
      ensures old(displayMode) == MainMode && buttonNumber == BUTTON_PFM3_MENU ==>
                Ui() == old(Ui()).(menuPressed := false) && unchanged(midiControllerState) && log == old(log)
      // in the editors and on the save screen a release changes nothing
      ensures !(old(displayMode) == MainMode && (IsControlButton(buttonNumber) || buttonNumber == BUTTON_PFM3_MENU)) ==>
                Ui() == old(Ui()) && unchanged(midiControllerState) && log == old(log)
    {
      if displayMode == SaveMode {
        return;
      } else if displayMode == MainMode {
        if BUTTON_PFM3_1 <= buttonNumber <= BUTTON_PFM3_6 {
          var redraw := midiControllerState.ButtonUp(pageNumber, midiChannel, buttonNumber, liveValue, changed);
          if redraw {
            DisplayButtonValue(buttonNumber);
          }
        } else if buttonNumber == BUTTON_PFM3_MENU {
          menuPressed := false;
        }
      }
    }

    /**
     * Button `buttonNumber` pressed. In the main view without the menu held a
     * control button is passed to the external model, which sets its runtime
     * value to `liveValue`.
     */
    method ButtonDown(buttonNumber: int, liveValue: int)
      requires Valid()
      modifies this, midiControllerState
      ensures Valid()
      ensures old(midiControllerState.RecordsWellFormed()) ==> midiControllerState.RecordsWellFormed()
      // save screen: any button returns to the main view; SEQUENCER saves first, exactly once
      ensures old(displayMode) == SaveMode ==>
                && Ui() == old(Ui()).(displayMode := MainMode, refreshStatus := RESET_REFRESH_STATUS)
                && unchanged(midiControllerState)
                && saveCount == old(saveCount) + (if buttonNumber == BUTTON_PFM3_SEQUENCER then 1 else 0)
                && log == old(log) + (if buttonNumber == BUTTON_PFM3_SEQUENCER then [SavedBanner] else [])
      ensures old(displayMode) != SaveMode ==> saveCount == old(saveCount)
      // main view, control button, menu not held: a live press
      ensures old(displayMode) == MainMode && IsControlButton(buttonNumber) && !old(menuPressed) ==>
                && Ui() == old(Ui())
                && midiControllerState.buttons
                   == Put(old(midiControllerState.buttons), pageNumber, buttonNumber,
                          old(midiControllerState.buttons[pageNumber][buttonNumber]).(value := liveValue))
                && midiControllerState.encoders == old(midiControllerState.encoders)
                && log == old(log) + [ButtonValue(pageNumber, buttonNumber)]
      // main view, control button, menu held: enter the button editor; the cursor is kept
      ensures old(displayMode) == MainMode && IsControlButton(buttonNumber) && old(menuPressed) ==>
                && Ui() == old(Ui()).(displayMode := EditButtonMode, editControl := buttonNumber,
                                      refreshStatus := RESET_REFRESH_STATUS)
                && unchanged(midiControllerState) && log == old(log)
      ensures old(displayMode) == MainMode && buttonNumber == BUTTON_PFM3_MENU ==>
                Ui() == old(Ui()).(menuPressed := true) && unchanged(midiControllerState) && log == old(log)
      // SEQUENCER writes the save countdown directly
      ensures old(displayMode) == MainMode && buttonNumber == BUTTON_PFM3_SEQUENCER ==>
                && Ui() == old(Ui()).(displayMode := SaveMode, refreshStatus := SAVE_REFRESH_STATUS)
                && unchanged(midiControllerState) && log == old(log)
      // NEXT/PREVIOUS without the menu: page within [0, pageCount - 1], countdown reset only on a change
      ensures old(displayMode) == MainMode && !old(menuPressed) && buttonNumber == BUTTON_NEXT_INSTRUMENT ==>
                && Ui() == (if old(pageNumber) < midiControllerState.pageCount - 1
                            then old(Ui()).(pageNumber := old(pageNumber) + 1, refreshStatus := RESET_REFRESH_STATUS)
                            else old(Ui()))
                && unchanged(midiControllerState) && log == old(log)
      ensures old(displayMode) == MainMode && !old(menuPressed) && buttonNumber == BUTTON_PREVIOUS_INSTRUMENT ==>
                && Ui() == (if old(pageNumber) > 0
                            then old(Ui()).(pageNumber := old(pageNumber) - 1, refreshStatus := RESET_REFRESH_STATUS)
                            else old(Ui()))
                && unchanged(midiControllerState) && log == old(log)
      // NEXT/PREVIOUS with the menu: channel within [0, 15], redrawing only the readout
      ensures old(displayMode) == MainMode && old(menuPressed) && buttonNumber == BUTTON_NEXT_INSTRUMENT ==>
                && Ui() == (if old(midiChannel) < 15 then old(Ui()).(midiChannel := old(midiChannel) + 1) else old(Ui()))
                && log == old(log) + (if old(midiChannel) < 15 then [ChannelReadout(midiChannel, pageNumber)] else [])
                && unchanged(midiControllerState)
      ensures old(displayMode) == MainMode && old(menuPressed) && buttonNumber == BUTTON_PREVIOUS_INSTRUMENT ==>
                && Ui() == (if old(midiChannel) > 0 then old(Ui()).(midiChannel := old(midiChannel) - 1) else old(Ui()))
                && log == old(log) + (if old(midiChannel) > 0 then [ChannelReadout(midiChannel, pageNumber)] else [])
                && unchanged(midiControllerState)
      // main view, any other button: nothing
      ensures old(displayMode) == MainMode && !IsControlButton(buttonNumber)
              && buttonNumber !in {BUTTON_PFM3_MENU, BUTTON_PFM3_SEQUENCER, BUTTON_NEXT_INSTRUMENT, BUTTON_PREVIOUS_INSTRUMENT} ==>
                Ui() == old(Ui()) && unchanged(midiControllerState) && log == old(log)
      // button editor: PREVIOUS/NEXT move the low value; MENU returns to the main view
      ensures old(displayMode) == EditButtonMode ==>
                var b := old(midiControllerState.buttons[pageNumber][editControl]);
                var edited := EditButtonLow(b, buttonNumber);
                && midiControllerState.buttons == Put(old(midiControllerState.buttons), pageNumber, editControl, edited)
                && midiControllerState.encoders == old(midiControllerState.encoders)
                && log == old(log) + (if edited != b then [ButtonParamField(pageNumber, editControl, ButtonLow)] else [])
                && Ui() == (if buttonNumber == BUTTON_PFM3_MENU
                            then old(Ui()).(displayMode := MainMode, refreshStatus := RESET_REFRESH_STATUS)
                            else old(Ui()))
      // encoder editor: only MENU does anything, returning to the main view
      ensures old(displayMode) == EditEncoderMode ==>
                && Ui() == (if buttonNumber == BUTTON_PFM3_MENU
                            then old(Ui()).(displayMode := MainMode, refreshStatus := RESET_REFRESH_STATUS)
                            else old(Ui()))
                && unchanged(midiControllerState) && log == old(log)
    {
      if displayMode == SaveMode {
        SaveButtonDown(buttonNumber);
        return;
      } else if displayMode == MainMode {
        MainButtonDown(buttonNumber, liveValue);
      } else {
        EditorButtonDown(buttonNumber);
      }
    }

    /** A button on the save screen: SEQUENCER saves, and every button returns to the main view. */
    method SaveButtonDown(buttonNumber: int)
      requires Valid()
      modifies this`displayMode, this`refreshStatus, this`log, this`saveCount
      ensures Valid()
      ensures Ui() == old(Ui()).(displayMode := MainMode, refreshStatus := RESET_REFRESH_STATUS)
      ensures saveCount == old(saveCount) + (if buttonNumber == BUTTON_PFM3_SEQUENCER then 1 else 0)
      ensures log == old(log) + (if buttonNumber == BUTTON_PFM3_SEQUENCER then [SavedBanner] else [])
    {
      if buttonNumber == BUTTON_PFM3_SEQUENCER {
        log := log + [SavedBanner];
        saveCount := saveCount + 1;
      }
      displayMode := MainMode;
      SetResetRefreshStatus();
    }

    /** A button in either editor: the button editor moves the low value; MENU returns to the main view. */
    method EditorButtonDown(buttonNumber: int)
      requires Valid() && displayMode in {EditEncoderMode, EditButtonMode}
      modifies this`displayMode, this`refreshStatus, this`log, midiControllerState`buttons
      ensures Valid()
      ensures old(midiControllerState.RecordsWellFormed()) ==> midiControllerState.RecordsWellFormed()
      ensures Ui() == (if buttonNumber == BUTTON_PFM3_MENU
                       then old(Ui()).(displayMode := MainMode, refreshStatus := RESET_REFRESH_STATUS)
                       else old(Ui()))
      ensures old(displayMode) == EditButtonMode ==>
                var b := old(midiControllerState.buttons[pageNumber][editControl]);
                var edited := EditButtonLow(b, buttonNumber);
                && midiControllerState.buttons == Put(old(midiControllerState.buttons), pageNumber, editControl, edited)
                && log == old(log) + (if edited != b then [ButtonParamField(pageNumber, editControl, ButtonLow)] else [])
      ensures old(displayMode) == EditEncoderMode ==>
                midiControllerState.buttons == old(midiControllerState.buttons) && log == old(log)
    {
      if displayMode == EditButtonMode {
        EditButtonPressed(buttonNumber);
      }
      if buttonNumber == BUTTON_PFM3_MENU {
        displayMode := MainMode;
        SetResetRefreshStatus();
      }
    }

    /** The main-view branch of a button press. */
    method MainButtonDown(buttonNumber: int, liveValue: int)
      requires Valid()
      modifies this, midiControllerState`buttons
      ensures Valid() && saveCount == old(saveCount)
      ensures old(midiControllerState.RecordsWellFormed()) ==> midiControllerState.RecordsWellFormed()
      // main view, control button, menu not held: a live press
      ensures IsControlButton(buttonNumber) && !old(menuPressed) ==>
                && Ui() == old(Ui())
                && midiControllerState.buttons
                   == Put(old(midiControllerState.buttons), pageNumber, buttonNumber,
                          old(midiControllerState.buttons[pageNumber][buttonNumber]).(value := liveValue))
                && midiControllerState.encoders == old(midiControllerState.encoders)
                && log == old(log) + [ButtonValue(pageNumber, buttonNumber)]
      // main view, control button, menu held: enter the button editor; the cursor is kept
      ensures IsControlButton(buttonNumber) && old(menuPressed) ==>
                && Ui() == old(Ui()).(displayMode := EditButtonMode, editControl := buttonNumber,
                                      refreshStatus := RESET_REFRESH_STATUS)
                && unchanged(midiControllerState) && log == old(log)
      ensures buttonNumber == BUTTON_PFM3_MENU ==>
                Ui() == old(Ui()).(menuPressed := true) && unchanged(midiControllerState) && log == old(log)
      // SEQUENCER writes the save countdown directly
      ensures buttonNumber == BUTTON_PFM3_SEQUENCER ==>
                && Ui() == old(Ui()).(displayMode := SaveMode, refreshStatus := SAVE_REFRESH_STATUS)
                && unchanged(midiControllerState) && log == old(log)
      // NEXT/PREVIOUS without the menu: page within [0, pageCount - 1], countdown reset only on a change
      ensures !old(menuPressed) && buttonNumber == BUTTON_NEXT_INSTRUMENT ==>
                && Ui() == (if old(pageNumber) < midiControllerState.pageCount - 1
                            then old(Ui()).(pageNumber := old(pageNumber) + 1, refreshStatus := RESET_REFRESH_STATUS)
                            else old(Ui()))
                && unchanged(midiControllerState) && log == old(log)
      ensures !old(menuPressed) && buttonNumber == BUTTON_PREVIOUS_INSTRUMENT ==>
                && Ui() == (if old(pageNumber) > 0
                            then old(Ui()).(pageNumber := old(pageNumber) - 1, refreshStatus := RESET_REFRESH_STATUS)
                            else old(Ui()))
                && unchanged(midiControllerState) && log == old(log)
      // NEXT/PREVIOUS with the menu: channel within [0, 15], redrawing only the readout
      ensures old(menuPressed) && buttonNumber == BUTTON_NEXT_INSTRUMENT ==>
                && Ui() == (if old(midiChannel) < 15 then old(Ui()).(midiChannel := old(midiChannel) + 1) else old(Ui()))
                && log == old(log) + (if old(midiChannel) < 15 then [ChannelReadout(midiChannel, pageNumber)] else [])
                && unchanged(midiControllerState)
      ensures old(menuPressed) && buttonNumber == BUTTON_PREVIOUS_INSTRUMENT ==>
                && Ui() == (if old(midiChannel) > 0 then old(Ui()).(midiChannel := old(midiChannel) - 1) else old(Ui()))
                && log == old(log) + (if old(midiChannel) > 0 then [ChannelReadout(midiChannel, pageNumber)] else [])
                && unchanged(midiControllerState)
      // main view, any other button: nothing
      ensures !IsControlButton(buttonNumber)
              && buttonNumber !in {BUTTON_PFM3_MENU, BUTTON_PFM3_SEQUENCER, BUTTON_NEXT_INSTRUMENT, BUTTON_PREVIOUS_INSTRUMENT} ==>
                Ui() == old(Ui()) && unchanged(midiControllerState) && log == old(log)
    {
      if BUTTON_PFM3_1 <= buttonNumber <= BUTTON_PFM3_6 {
        if !menuPressed {
          midiControllerState.ButtonDown(pageNumber, midiChannel, buttonNumber, liveValue);
          DisplayButtonValue(buttonNumber);
        } else {
          displayMode := EditButtonMode;
          editControl := buttonNumber;
          SetResetRefreshStatus();
        }
      } else if buttonNumber == BUTTON_PFM3_MENU {
        menuPressed := true;
      } else if buttonNumber == BUTTON_PFM3_SEQUENCER {
        displayMode := SaveMode;
        refreshStatus := SAVE_REFRESH_STATUS;
      } else if buttonNumber == BUTTON_NEXT_INSTRUMENT || buttonNumber == BUTTON_PREVIOUS_INSTRUMENT {
        Navigate(buttonNumber);
      }
    }

    /**
     * NEXT/PREVIOUS in the main view: without the menu they turn the page
     * within [0, pageCount - 1]; with it they change the global MIDI channel
     * within [0, 15].
     */
    method Navigate(buttonNumber: int)
      requires Valid() && (buttonNumber == BUTTON_NEXT_INSTRUMENT || buttonNumber == BUTTON_PREVIOUS_INSTRUMENT)
      modifies this`pageNumber, this`midiChannel, this`refreshStatus, this`log
      ensures Valid()
      ensures !menuPressed && buttonNumber == BUTTON_NEXT_INSTRUMENT ==>
                && Ui() == (if old(pageNumber) < midiControllerState.pageCount - 1
                            then old(Ui()).(pageNumber := old(pageNumber) + 1, refreshStatus := RESET_REFRESH_STATUS)
                            else old(Ui()))
                && log == old(log)
      ensures !menuPressed && buttonNumber == BUTTON_PREVIOUS_INSTRUMENT ==>
                && Ui() == (if old(pageNumber) > 0
                            then old(Ui()).(pageNumber := old(pageNumber) - 1, refreshStatus := RESET_REFRESH_STATUS)
                            else old(Ui()))
                && log == old(log)
      ensures menuPressed && buttonNumber == BUTTON_NEXT_INSTRUMENT ==>
                && Ui() == (if old(midiChannel) < 15 then old(Ui()).(midiChannel := old(midiChannel) + 1) else old(Ui()))
                && log == old(log) + (if old(midiChannel) < 15 then [ChannelReadout(midiChannel, pageNumber)] else [])
      ensures menuPressed && buttonNumber == BUTTON_PREVIOUS_INSTRUMENT ==>
                && Ui() == (if old(midiChannel) > 0 then old(Ui()).(midiChannel := old(midiChannel) - 1) else old(Ui()))
                && log == old(log) + (if old(midiChannel) > 0 then [ChannelReadout(midiChannel, pageNumber)] else [])
    {
      if buttonNumber == BUTTON_NEXT_INSTRUMENT {
        if !menuPressed {
          if pageNumber < midiControllerState.pageCount - 1 {
            pageNumber := pageNumber + 1;
            SetResetRefreshStatus();
          }
        } else {
          if midiChannel < 15 {
            midiChannel := midiChannel + 1;
            DisplayMidiChannel();
          }
        }
      } else if buttonNumber == BUTTON_PREVIOUS_INSTRUMENT {
        if !menuPressed {
          if pageNumber > 0 {
            pageNumber := pageNumber - 1;
            SetResetRefreshStatus();
          }
        } else {
          if midiChannel > 0 {
            midiChannel := midiChannel - 1;
            DisplayMidiChannel();
          }
        }
      }
    }

    /** The button-editor part of a button press: PREVIOUS/NEXT step the low value by one below the high value. */
    method EditButtonPressed(buttonNumber: int)
      requires Valid()
      modifies this`log, midiControllerState`buttons
      ensures Valid()
      ensures old(midiControllerState.RecordsWellFormed()) ==> midiControllerState.RecordsWellFormed()
      ensures var b := old(midiControllerState.buttons[pageNumber][editControl]);
              var edited := EditButtonLow(b, buttonNumber);
              && midiControllerState.buttons == Put(old(midiControllerState.buttons), pageNumber, editControl, edited)
              && log == old(log) + (if edited != b then [ButtonParamField(pageNumber, editControl, ButtonLow)] else [])
    {
      var button := midiControllerState.GetButton(pageNumber, editControl);
      PutSame(midiControllerState.buttons, pageNumber, editControl);
      if buttonNumber == BUTTON_PREVIOUS_INSTRUMENT && button.valueLow > 0 {
        midiControllerState.SetButton(pageNumber, editControl, button.(valueLow := button.valueLow - 1));
        DisplayButtonParam(editControl, ButtonLow);
      } else if buttonNumber == BUTTON_NEXT_INSTRUMENT && button.valueLow < button.valueHigh - 1 {
        midiControllerState.SetButton(pageNumber, editControl, button.(valueLow := button.valueLow + 1));
        DisplayButtonParam(editControl, ButtonLow);
      }
    }

    /** Reserved input hooks: accepted, with no effect. */
    method EncoderTurnedWhileButtonPressed(encoder: int, ticks: int, buttonNumber: int)
      ensures Ui() == old(Ui()) && log == old(log) && saveCount == old(saveCount) && unchanged(midiControllerState)
    {
    }

    method ButtonPressed(buttonNumber: int)
      ensures Ui() == old(Ui()) && log == old(log) && saveCount == old(saveCount) && unchanged(midiControllerState)
    {
    }

    method ButtonLongPressed(button: int)
      ensures Ui() == old(Ui()) && log == old(log) && saveCount == old(saveCount) && unchanged(midiControllerState)
    {
    }

    method TwoButtonsPressed(button1: int, button2: int)
      ensures Ui() == old(Ui()) && log == old(log) && saveCount == old(saveCount) && unchanged(midiControllerState)
    {
    }
  }
}
