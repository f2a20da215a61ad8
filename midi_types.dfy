/**
 * Data model shared by the MIDI-controller screen: the display modes, the
 * configurable encoder and button records, the button identifiers and the
 * constants of the refresh countdown.
 */
module MidiTypes {

  datatype Option<T> = None | Some(value: T)

  /** The four screens of the MIDI-controller page. */
  datatype DisplayMode = MainMode | EditEncoderMode | EditButtonMode | SaveMode

  datatype ButtonType = Push | Toggle

  /** A configurable encoder; `value` is the runtime value owned by the external model. */
  datatype Encoder = Encoder(
    name: seq<char>,
    midiChannel: int,
    controller: int,
    minValue: int,
    maxValue: int,
    value: int)
  {
    /** The ranges the editor promises to keep: printable name, channel 0..16 (16 = global), CC 0..127, min <= max. */
    predicate WellFormed() {
      PrintableName(name) && 0 <= midiChannel <= 16 && 0 <= controller <= 127
      && 0 <= minValue <= maxValue <= 127
    }
  }

  /** A configurable button; `value` is the runtime value owned by the external model. */
  datatype Button = Button(
    name: seq<char>,
    midiChannel: int,
    controller: int,
    buttonType: ButtonType,
    valueLow: int,
    valueHigh: int,
    value: int)
  {
    /** Printable name, channel 0..16, CC 0..127 and low < high. */
    predicate WellFormed() {
      PrintableName(name) && 0 <= midiChannel <= 16 && 0 <= controller <= 127
      && 0 <= valueLow < valueHigh <= 127
    }
  }

  /** Number of editable name characters (the cursor ranges over 0..4). */
  const NAME_LENGTH := 5
  /** Encoders and buttons per page. */
  const CONTROL_COUNT := 6

  const FIRST_PRINTABLE := 32
  const LAST_PRINTABLE := 127

  const MIDI_CHANNEL_GLOBAL := 16

  predicate PrintableName(name: seq<char>) {
    |name| >= NAME_LENGTH
    && forall j :: 0 <= j < NAME_LENGTH ==> FIRST_PRINTABLE <= name[j] as int <= LAST_PRINTABLE
  }

  /** Button identifiers. The six control buttons are used directly as control indices. */
  const BUTTON_PFM3_1 := 0
  const BUTTON_PFM3_6 := 5
  const BUTTON_PFM3_MENU := 6
  const BUTTON_NEXT_INSTRUMENT := 7
  const BUTTON_PREVIOUS_INSTRUMENT := 8
  const BUTTON_PFM3_SEQUENCER := 9

  predicate IsControlButton(buttonNumber: int) {
    BUTTON_PFM3_1 <= buttonNumber <= BUTTON_PFM3_6
  }

  /** The countdown value setResetRefreshStatus writes: the main table's header step. */
  const RESET_REFRESH_STATUS := 21
  /** The countdown value written directly when the save screen is entered. */
  const SAVE_REFRESH_STATUS := 20

  /** Fields the encoder editor can redraw. */
  datatype EncoderParam = EncoderName | EncoderMidiChannel | EncoderController | EncoderMin | EncoderMax

  /** Fields the button editor can redraw. */
  datatype ButtonParam = ButtonName | ButtonMidiChannel | ButtonController | ButtonTypeField | ButtonHigh | ButtonLow

  datatype ControlKind = EncoderControl | ButtonControl

  /**
   * One call on the display surface, as far as the model distinguishes them.
   * Page and control indices say which record the drawing reads.
   */
  datatype DrawEvent =
    | PauseRefresh
    | RestartRefresh
    | MainHeader
    | MainFrame
    | ChannelReadout(channel: int, page: int)
    | EncoderCell(page: int, index: int)
    | EncoderValue(page: int, index: int)
    | ButtonCell(page: int, index: int)
    | ButtonValue(page: int, index: int)
    | EditFrame(kind: ControlKind)
    | EditTitle(kind: ControlKind)
    | EncoderParamLabel(eparam: EncoderParam)
    | EncoderParamField(page: int, index: int, eparam: EncoderParam)
    | ButtonParamLabel(bparam: ButtonParam)
    | ButtonParamField(page: int, index: int, bparam: ButtonParam)
    | SaveFrame
    | SaveTitle
    | SaveHelp
    | SavedBanner
}
