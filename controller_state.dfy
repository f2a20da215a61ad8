/**
 * The external model store: the encoder and button records of every page,
 * looked up by (page, index) and changed in place. Its live-input entry
 * points are not part of this model; their effect on the runtime value is
 * passed in by the caller.
 */
module ControllerState {
  import opened MidiTypes

  /** `table` with the entry at (page, index) replaced by `x`. */
  function Put<T>(table: seq<seq<T>>, page: int, index: int, x: T): (r: seq<seq<T>>)
    requires 0 <= page < |table| && 0 <= index < |table[page]|
    ensures |r| == |table| && forall p :: 0 <= p < |table| ==> |r[p]| == |table[p]|
    ensures r[page][index] == x
    ensures forall p, i :: 0 <= p < |table| && 0 <= i < |table[p]| && (p, i) != (page, index) ==> r[p][i] == table[p][i]
  {
    table[page := table[page][index := x]]
  }

  /** Writing back the entry already there leaves the table as it was. */
  lemma PutSame<T>(table: seq<seq<T>>, page: int, index: int)
    requires 0 <= page < |table| && 0 <= index < |table[page]|
    ensures Put(table, page, index, table[page][index]) == table
  {
    assert table[page][index := table[page][index]] == table[page];
  }

  /** Six encoders and six buttons, each with a name of at least five characters. */
  predicate PageShaped(es: seq<Encoder>, bs: seq<Button>) {
    |es| == CONTROL_COUNT && |bs| == CONTROL_COUNT
    && (forall i :: 0 <= i < CONTROL_COUNT ==> |es[i].name| >= NAME_LENGTH)
    && (forall i :: 0 <= i < CONTROL_COUNT ==> |bs[i].name| >= NAME_LENGTH)
  }

  class MidiControllerState {
    /** Number of pages of controls (at least one). */
    const pageCount: int
    var encoders: seq<seq<Encoder>>
    var buttons: seq<seq<Button>>

    /** Every page holds six encoders and six buttons, each with a name of at least five characters. */
    ghost predicate Valid()
      reads this
    {
      pageCount >= 1 && |encoders| == pageCount && |buttons| == pageCount
      && forall p :: 0 <= p < pageCount ==> PageShaped(encoders[p], buttons[p])
    }

    /** Every record satisfies the ranges the editor keeps. */
    ghost predicate RecordsWellFormed()
      reads this
    {
      (forall p, i :: 0 <= p < |encoders| && 0 <= i < |encoders[p]| ==> encoders[p][i].WellFormed())
      && (forall p, i :: 0 <= p < |buttons| && 0 <= i < |buttons[p]| ==> buttons[p][i].WellFormed())
    }

    /** A store holding the records loaded from the configuration. */
    constructor (pages: int, loadedEncoders: seq<seq<Encoder>>, loadedButtons: seq<seq<Button>>)
      requires pages >= 1 && |loadedEncoders| == pages && |loadedButtons| == pages
      requires forall p :: 0 <= p < pages ==> |loadedEncoders[p]| == CONTROL_COUNT && |loadedButtons[p]| == CONTROL_COUNT
      requires forall p, i :: 0 <= p < pages && 0 <= i < |loadedEncoders[p]| ==> |loadedEncoders[p][i].name| >= NAME_LENGTH
      requires forall p, i :: 0 <= p < pages && 0 <= i < |loadedButtons[p]| ==> |loadedButtons[p][i].name| >= NAME_LENGTH
      ensures Valid()
      ensures pageCount == pages && encoders == loadedEncoders && buttons == loadedButtons
    {
      pageCount := pages;
      encoders := loadedEncoders;
      buttons := loadedButtons;
    }

    function GetEncoder(page: int, index: int): (e: Encoder)
      requires Valid() && 0 <= page < pageCount && 0 <= index < CONTROL_COUNT
      reads this
      ensures |e.name| >= NAME_LENGTH
    {
      encoders[page][index]
    }

    function GetButton(page: int, index: int): (b: Button)
      requires Valid() && 0 <= page < pageCount && 0 <= index < CONTROL_COUNT
      reads this
      ensures |b.name| >= NAME_LENGTH
    {
      buttons[page][index]
    }

    /** Writes the encoder record at (page, index) in place. */
    method SetEncoder(page: int, index: int, e: Encoder)
      requires Valid() && 0 <= page < pageCount && 0 <= index < CONTROL_COUNT && |e.name| >= NAME_LENGTH
      modifies this`encoders
      ensures Valid()
      ensures encoders == Put(old(encoders), page, index, e)
      ensures old(RecordsWellFormed()) && e.WellFormed() ==> RecordsWellFormed()
    {
      encoders := Put(encoders, page, index, e);
    }

    /** Writes the button record at (page, index) in place. */
    method SetButton(page: int, index: int, b: Button)
      requires Valid() && 0 <= page < pageCount && 0 <= index < CONTROL_COUNT && |b.name| >= NAME_LENGTH
      modifies this`buttons
      ensures Valid()
      ensures buttons == Put(old(buttons), page, index, b)
      ensures old(RecordsWellFormed()) && b.WellFormed() ==> RecordsWellFormed()
    {
      buttons := Put(buttons, page, index, b);
    }

    /**
     * A live encoder turn: the external model applies the delta on `channel`
     * and the encoder's runtime value becomes `newValue`; nothing else changes.
     */
    method EncoderDelta(page: int, channel: int, index: int, ticks: int, newValue: int)
      requires Valid() && 0 <= page < pageCount && 0 <= index < CONTROL_COUNT
      modifies this`encoders
      ensures Valid()
      ensures encoders == Put(old(encoders), page, index, old(encoders[page][index]).(value := newValue))
      ensures old(RecordsWellFormed()) ==> RecordsWellFormed()
    {
      SetEncoder(page, index, encoders[page][index].(value := newValue));
    }

    /** A live button press: the button's runtime value becomes `newValue`. */
    method ButtonDown(page: int, channel: int, index: int, newValue: int)
      requires Valid() && 0 <= page < pageCount && 0 <= index < CONTROL_COUNT
      modifies this`buttons
      ensures Valid()
      ensures buttons == Put(old(buttons), page, index, old(buttons[page][index]).(value := newValue))
      ensures old(RecordsWellFormed()) ==> RecordsWellFormed()
    {
      SetButton(page, index, buttons[page][index].(value := newValue));
    }

    /** A live button release: the runtime value becomes `newValue`; `changed` is what the model reports. */
    method ButtonUp(page: int, channel: int, index: int, newValue: int, changed: bool) returns (redraw: bool)
      requires Valid() && 0 <= page < pageCount && 0 <= index < CONTROL_COUNT
      modifies this`buttons
      ensures Valid()
      ensures buttons == Put(old(buttons), page, index, old(buttons[page][index]).(value := newValue))
      ensures old(RecordsWellFormed()) ==> RecordsWellFormed()
      ensures redraw == changed
    {
      SetButton(page, index, buttons[page][index].(value := newValue));
      redraw := changed;
    }
  }
}
