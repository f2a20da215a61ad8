/**
 * The parameter editor: what one turn of editor encoder 0..5 does to the
 * encoder or button under edit, and what PREVIOUS/NEXT do to a button's low
 * value. Every edit is a clamp; a field is redrawn exactly when it changed.
 */
module ParamEditor {
  import opened MidiTypes

  /** `v` raised to `lo`, then cut down to `hi`, in that order. */
  function Clamp(v: int, lo: int, hi: int): (r: int)
    ensures r <= hi
    ensures lo <= hi ==> lo <= r
    ensures lo <= v <= hi ==> r == v
    ensures lo <= hi && v < lo ==> r == lo
    ensures v > hi ==> r == hi
  {
    var raised := if v < lo then lo else v;
    if raised > hi then hi else raised
  }

  /** The sign-only step: zero ticks count as a step down. */
  function TickSign(ticks: int): (r: int)
    ensures r == 1 <==> ticks > 0
    ensures r == -1 <==> ticks <= 0
  {
    if ticks > 0 then 1 else -1
  }

  /** Moves `v` one step in the direction of `ticks`, kept within [0, hi] (the cursor and the MIDI channel). */
  function SignStep(v: int, ticks: int, hi: int): (r: int)
    ensures r <= hi
    ensures 0 <= hi ==> 0 <= r
    ensures 0 <= v <= hi ==> (r == v + 1 <==> ticks > 0 && v < hi)
    ensures 0 <= v <= hi ==> (r == v - 1 <==> ticks <= 0 && 0 < v)
    ensures 0 <= v <= hi ==> (r == v <==> (ticks > 0 && v == hi) || (ticks <= 0 && v == 0))
  {
    Clamp(v + TickSign(ticks), 0, hi)
  }

  /** Adds the raw tick count to `v`, kept within [lo, hi]. */
  function AddClamped(v: int, ticks: int, lo: int, hi: int): (r: int)
    ensures lo <= hi ==> lo <= r <= hi
    ensures lo <= v + ticks <= hi ==> r == v + ticks
    ensures lo <= v <= hi && 0 <= ticks ==> v <= r
    ensures lo <= v <= hi && ticks <= 0 ==> r <= v
    ensures lo <= hi && v + ticks > hi ==> r == hi
    ensures lo <= hi && v + ticks < lo ==> r == lo
  {
    Clamp(v + ticks, lo, hi)
  }

  /** Adds the tick count to the character code at `pos`, kept printable; no other character changes. */
  function NameCharEdit(name: seq<char>, pos: int, ticks: int): (r: seq<char>)
    requires 0 <= pos < |name|
    ensures |r| == |name|
    ensures forall j :: 0 <= j < |name| && j != pos ==> r[j] == name[j]
    ensures FIRST_PRINTABLE <= r[pos] as int <= LAST_PRINTABLE
    ensures FIRST_PRINTABLE <= name[pos] as int + ticks <= LAST_PRINTABLE ==> r[pos] as int == name[pos] as int + ticks
    ensures name[pos] as int + ticks < FIRST_PRINTABLE ==> r[pos] == ' '
    ensures name[pos] as int + ticks > LAST_PRINTABLE ==> r[pos] as int == LAST_PRINTABLE
  {
    var code := AddClamped(name[pos] as int, ticks, FIRST_PRINTABLE, LAST_PRINTABLE);
    name[pos := code as char]
  }

  /** `ticks < 0` selects a push button; zero and positive select a toggle. */
  function TypeForTicks(ticks: int): (t: ButtonType)
    ensures t == Push <==> ticks < 0
    ensures t == Toggle <==> ticks >= 0
  {
    if ticks < 0 then Push else Toggle
  }

  /** The outcome of one editor turn on an encoder: the record, the cursor and the field to redraw, if any. */
  datatype EncoderEdit = EncoderEdit(encoder: Encoder, cursor: int, redraw: Option<EncoderParam>)

  /** The outcome of one editor turn on a button. */
  datatype ButtonEdit = ButtonEdit(button: Button, cursor: int, redraw: Option<ButtonParam>)

  /** The field each editor encoder redraws when editing an encoder. */
  function EncoderParamFor(control: int): EncoderParam {
    if control == 0 || control == 3 then EncoderName
    else if control == 1 then EncoderMidiChannel
    else if control == 4 then EncoderController
    else if control == 2 then EncoderMin
    else EncoderMax
  }

  /** The field each editor encoder redraws when editing a button. */
  function ButtonParamFor(control: int): ButtonParam {
    if control == 0 || control == 3 then ButtonName
    else if control == 1 then ButtonMidiChannel
    else if control == 4 then ButtonController
    else if control == 2 then ButtonTypeField
    else ButtonHigh
  }

  /** The redraw that goes with a field change, and none when nothing changed. */
  function RedrawIf<P>(changed: bool, param: P): Option<P> {
    if changed then Some(param) else None
  }

  /**
   * Editor encoder `control` turned by `ticks` while encoder `e` is under
   * edit with the name cursor at `cursor`.
   */
  function EditEncoderParam(e: Encoder, cursor: int, control: int, ticks: int): (r: EncoderEdit)
    requires 0 <= cursor < |e.name|
    // the runtime value and the name length are never touched
    ensures |r.encoder.name| == |e.name| && r.encoder.value == e.value
    // a redraw happens exactly when something changed, and it is of the edited field
    ensures r.redraw.Some? <==> (r.encoder != e || r.cursor != cursor)
    ensures r.redraw.Some? ==> r.redraw.value == EncoderParamFor(control)
    // only encoder 0 moves the cursor, and it moves nothing else
    ensures control != 0 ==> r.cursor == cursor
    ensures control == 0 ==> r.encoder == e && r.cursor == SignStep(cursor, ticks, NAME_LENGTH - 1)
    // each other editor encoder changes exactly one field
    ensures control == 3 ==> r.encoder.(name := e.name) == e && r.encoder.name == NameCharEdit(e.name, cursor, ticks)
    ensures control == 1 ==> r.encoder.(midiChannel := e.midiChannel) == e
                             && r.encoder.midiChannel == SignStep(e.midiChannel, ticks, MIDI_CHANNEL_GLOBAL)
    ensures control == 4 ==> r.encoder.(controller := e.controller) == e
                             && r.encoder.controller == AddClamped(e.controller, ticks, 0, 127)
    ensures control == 2 ==> r.encoder.(minValue := e.minValue) == e
                             && r.encoder.minValue == AddClamped(e.minValue, ticks, 0, e.maxValue)
    ensures control == 5 ==> r.encoder.(maxValue := e.maxValue) == e
                             && r.encoder.maxValue == AddClamped(e.maxValue, ticks, e.minValue, 127)
    ensures !(0 <= control < CONTROL_COUNT) ==> r == EncoderEdit(e, cursor, None)
    // the ranges are preserved
    ensures 0 <= e.minValue <= e.maxValue <= 127 ==> 0 <= r.encoder.minValue <= r.encoder.maxValue <= 127
    ensures e.WellFormed() && 0 <= cursor < NAME_LENGTH ==> r.encoder.WellFormed() && 0 <= r.cursor < NAME_LENGTH
  {
    if control == 0 then
      var newValue := SignStep(cursor, ticks, NAME_LENGTH - 1);
      EncoderEdit(e, newValue, RedrawIf(newValue != cursor, EncoderName))
    else if control == 3 then
      var newName := NameCharEdit(e.name, cursor, ticks);
      EncoderEdit(e.(name := newName), cursor, RedrawIf(newName != e.name, EncoderName))
    else if control == 1 then
      var newValue := SignStep(e.midiChannel, ticks, MIDI_CHANNEL_GLOBAL);
      EncoderEdit(e.(midiChannel := newValue), cursor, RedrawIf(newValue != e.midiChannel, EncoderMidiChannel))
    else if control == 4 then
      var newValue := AddClamped(e.controller, ticks, 0, 127);
      EncoderEdit(e.(controller := newValue), cursor, RedrawIf(newValue != e.controller, EncoderController))
    else if control == 2 then
      var newValue := AddClamped(e.minValue, ticks, 0, e.maxValue);
      EncoderEdit(e.(minValue := newValue), cursor, RedrawIf(newValue != e.minValue, EncoderMin))
    else if control == 5 then
      var newValue := AddClamped(e.maxValue, ticks, e.minValue, 127);
      EncoderEdit(e.(maxValue := newValue), cursor, RedrawIf(newValue != e.maxValue, EncoderMax))
    else
      EncoderEdit(e, cursor, None)
  }

  /**
   * Editor encoder `control` turned by `ticks` while button `b` is under
   * edit with the name cursor at `cursor`.
   */
  function EditButtonParam(b: Button, cursor: int, control: int, ticks: int): (r: ButtonEdit)
    requires 0 <= cursor < |b.name|
    ensures |r.button.name| == |b.name| && r.button.value == b.value
    ensures r.redraw.Some? <==> (r.button != b || r.cursor != cursor)
    ensures r.redraw.Some? ==> r.redraw.value == ButtonParamFor(control)
    ensures control != 0 ==> r.cursor == cursor
    ensures control == 0 ==> r.button == b && r.cursor == SignStep(cursor, ticks, NAME_LENGTH - 1)
    ensures control == 3 ==> r.button.(name := b.name) == b && r.button.name == NameCharEdit(b.name, cursor, ticks)
    ensures control == 1 ==> r.button.(midiChannel := b.midiChannel) == b
                             && r.button.midiChannel == SignStep(b.midiChannel, ticks, MIDI_CHANNEL_GLOBAL)
    ensures control == 4 ==> r.button.(controller := b.controller) == b
                             && r.button.controller == AddClamped(b.controller, ticks, 0, 127)
    // the type follows the sign of ticks: negative is push, zero and positive are toggle
    ensures control == 2 ==> r.button.(buttonType := b.buttonType) == b
                             && (r.button.buttonType == Push <==> ticks < 0)
    ensures control == 5 ==> r.button.(valueHigh := b.valueHigh) == b
                             && r.button.valueHigh == AddClamped(b.valueHigh, ticks, b.valueLow + 1, 127)
    ensures !(0 <= control < CONTROL_COUNT) ==> r == ButtonEdit(b, cursor, None)
    ensures 0 <= b.valueLow < b.valueHigh <= 127 ==> 0 <= r.button.valueLow < r.button.valueHigh <= 127
    ensures b.WellFormed() && 0 <= cursor < NAME_LENGTH ==> r.button.WellFormed() && 0 <= r.cursor < NAME_LENGTH
  {
    if control == 0 then
      var newValue := SignStep(cursor, ticks, NAME_LENGTH - 1);
      ButtonEdit(b, newValue, RedrawIf(newValue != cursor, ButtonName))
    else if control == 3 then
      var newName := NameCharEdit(b.name, cursor, ticks);
      ButtonEdit(b.(name := newName), cursor, RedrawIf(newName != b.name, ButtonName))
    else if control == 1 then
      var newValue := SignStep(b.midiChannel, ticks, MIDI_CHANNEL_GLOBAL);
      ButtonEdit(b.(midiChannel := newValue), cursor, RedrawIf(newValue != b.midiChannel, ButtonMidiChannel))
    else if control == 4 then
      var newValue := AddClamped(b.controller, ticks, 0, 127);
      ButtonEdit(b.(controller := newValue), cursor, RedrawIf(newValue != b.controller, ButtonController))
    else if control == 2 then
      var newValue := TypeForTicks(ticks);
      ButtonEdit(b.(buttonType := newValue), cursor, RedrawIf(newValue != b.buttonType, ButtonTypeField))
    else if control == 5 then
      var newValue := AddClamped(b.valueHigh, ticks, b.valueLow + 1, 127);
      ButtonEdit(b.(valueHigh := newValue), cursor, RedrawIf(newValue != b.valueHigh, ButtonHigh))
    else
      ButtonEdit(b, cursor, None)
  }

  /**
   * PREVIOUS/NEXT on the button editor: the low value moves by one, never
   * below 0 and never up to the high value. Any other button leaves it.
   */
  function EditButtonLow(b: Button, buttonNumber: int): (r: Button)
    ensures r.(valueLow := b.valueLow) == b
    ensures r.valueLow == b.valueLow - 1 <==> buttonNumber == BUTTON_PREVIOUS_INSTRUMENT && b.valueLow > 0
    ensures r.valueLow == b.valueLow + 1 <==> buttonNumber == BUTTON_NEXT_INSTRUMENT && b.valueLow < b.valueHigh - 1
    ensures r != b ==> r.valueLow == b.valueLow - 1 || r.valueLow == b.valueLow + 1
    ensures 0 <= b.valueLow < b.valueHigh <= 127 ==> 0 <= r.valueLow < r.valueHigh <= 127
    ensures b.WellFormed() ==> r.WellFormed()
  {
    if buttonNumber == BUTTON_PREVIOUS_INSTRUMENT && b.valueLow > 0 then b.(valueLow := b.valueLow - 1)
    else if buttonNumber == BUTTON_NEXT_INSTRUMENT && b.valueLow < b.valueHigh - 1 then b.(valueLow := b.valueLow + 1)
    else b
  }

  /** A run of editor turns on one encoder, each a (control, ticks) pair. */
  function EditEncoderRun(e: Encoder, cursor: int, turns: seq<(int, int)>): (r: EncoderEdit)
    requires 0 <= cursor < NAME_LENGTH <= |e.name|
    ensures |r.encoder.name| == |e.name| && 0 <= r.cursor < NAME_LENGTH
    decreases |turns|
  {
    if turns == [] then EncoderEdit(e, cursor, None)
    else
      var first := EditEncoderParam(e, cursor, turns[0].0, turns[0].1);
      EditEncoderRun(first.encoder, first.cursor, turns[1..])
  }

  /** A run of editor turns on one button. */
  function EditButtonRun(b: Button, cursor: int, turns: seq<(int, int)>): (r: ButtonEdit)
    requires 0 <= cursor < NAME_LENGTH <= |b.name|
    ensures |r.button.name| == |b.name| && 0 <= r.cursor < NAME_LENGTH
    decreases |turns|
  {
    if turns == [] then ButtonEdit(b, cursor, None)
    else
      var first := EditButtonParam(b, cursor, turns[0].0, turns[0].1);
      EditButtonRun(first.button, first.cursor, turns[1..])
  }

  /** Any run of editor turns keeps a well-formed encoder well-formed. */
  lemma {:induction false} EncoderRunKeepsWellFormed(e: Encoder, cursor: int, turns: seq<(int, int)>)
    requires 0 <= cursor < NAME_LENGTH && e.WellFormed()
    ensures EditEncoderRun(e, cursor, turns).encoder.WellFormed()
    decreases |turns|
  {
    if turns != [] {
      var first := EditEncoderParam(e, cursor, turns[0].0, turns[0].1);
      EncoderRunKeepsWellFormed(first.encoder, first.cursor, turns[1..]);
    }
  }

  /** Any run of editor turns keeps a well-formed button well-formed. */
  lemma {:induction false} ButtonRunKeepsWellFormed(b: Button, cursor: int, turns: seq<(int, int)>)
    requires 0 <= cursor < NAME_LENGTH && b.WellFormed()
    ensures EditButtonRun(b, cursor, turns).button.WellFormed()
    decreases |turns|
  {
    if turns != [] {
      var first := EditButtonParam(b, cursor, turns[0].0, turns[0].1);
      ButtonRunKeepsWellFormed(first.button, first.cursor, turns[1..]);
    }
  }

  /** The runtime value is owned by the external model: no run of editor turns changes it. */
  lemma {:induction false} EncoderRunKeepsValue(e: Encoder, cursor: int, turns: seq<(int, int)>)
    requires 0 <= cursor < NAME_LENGTH <= |e.name|
    ensures EditEncoderRun(e, cursor, turns).encoder.value == e.value
    decreases |turns|
  {
    if turns != [] {
      var first := EditEncoderParam(e, cursor, turns[0].0, turns[0].1);
      EncoderRunKeepsValue(first.encoder, first.cursor, turns[1..]);
    }
  }

  /** The same for a button: no run of editor turns changes its runtime value. */
  lemma {:induction false} ButtonRunKeepsValue(b: Button, cursor: int, turns: seq<(int, int)>)
    requires 0 <= cursor < NAME_LENGTH <= |b.name|
    ensures EditButtonRun(b, cursor, turns).button.value == b.value
    decreases |turns|
  {
    if turns != [] {
      var first := EditButtonParam(b, cursor, turns[0].0, turns[0].1);
      ButtonRunKeepsValue(first.button, first.cursor, turns[1..]);
    }
  }
}
