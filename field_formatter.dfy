/**
 * The text each field redraw puts on the screen. Numeric fields are written
 * in decimal and padded with spaces so that a shorter value overwrites the
 * digits of a wider one. Colours and cursor positions are not modelled.
 */
module FieldFormatter {
  import opened MidiTypes

  function DigitChar(d: int): (c: char)
    requires 0 <= d <= 9
    ensures '0' <= c <= '9' && c as int - '0' as int == d
  {
    ('0' as int + d) as char
  }

  /** Decimal digits of `n`, most significant first, without leading zeros. */
  function Decimal(n: nat): (s: string)
    ensures 1 <= |s| <= 3 ==> (n < 10 <==> |s| == 1) && (n < 100 <==> |s| <= 2)
    ensures |s| <= 3 <==> n < 1000
    ensures forall i :: 0 <= i < |s| ==> '0' <= s[i] <= '9'
    ensures 1 <= |s|
    ensures n >= 1 ==> s[0] != '0'
    decreases n
  {
    if n < 10 then [DigitChar(n)] else Decimal(n / 10) + [DigitChar(n % 10)]
  }

  /** Reads decimal digits back into a number. */
  function DecimalValue(s: string): int
    decreases |s|
  {
    if s == [] then 0 else DecimalValue(s[..|s| - 1]) * 10 + (s[|s| - 1] as int - '0' as int)
  }

  /** What `Decimal` prints reads back as the value printed. */
  lemma {:induction false} DecimalRoundTrip(n: nat)
    ensures DecimalValue(Decimal(n)) == n
    decreases n
  {
    if n >= 10 {
      var front := Decimal(n / 10);
      var s := front + [DigitChar(n % 10)];
      assert s[..|s| - 1] == front;
      DecimalRoundTrip(n / 10);
    }
  }

  /** How the display prints an integer. */
  function IntText(n: int): string {
    if n < 0 then "-" + Decimal(-n) else Decimal(n)
  }

  /** A number followed by spaces up to three characters (CC, min, max, high). */
  function TrailingPadded(n: int): (s: string)
    ensures 0 <= n <= 999 ==> |s| == 3
    ensures |IntText(n)| <= |s| && s[..|IntText(n)|] == IntText(n)
    ensures forall i :: |IntText(n)| <= i < |s| ==> s[i] == ' '
  {
    IntText(n) + (if n < 100 then " " + (if n < 10 then " " else "") else "")
  }

  /** An encoder's runtime value, right-aligned in three characters. */
  function EncoderValueText(value: int): (s: string)
    ensures 0 <= value <= 999 ==> |s| == 3
    ensures |IntText(value)| <= |s| && s[|s| - |IntText(value)|..] == IntText(value)
    ensures forall i :: 0 <= i < |s| - |IntText(value)| ==> s[i] == ' '
  {
    (if value < 10 then "  " else if value < 100 then " " else "") + IntText(value)
  }

  /** A channel number shown one-based and padded with a space to two characters. */
  function OneBasedText(channel: int): (s: string)
    ensures 0 <= channel < 16 ==> |s| == 2
    ensures 0 <= channel ==> |s| >= 1 && '0' <= s[0] <= '9'
    ensures |IntText(channel + 1)| <= |s| && s[..|IntText(channel + 1)|] == IntText(channel + 1)
    ensures forall i :: |IntText(channel + 1)| <= i < |s| ==> s[i] == ' '
  {
    IntText(channel + 1) + (if channel + 1 < 10 then " " else "")
  }

  /** The digits a one-based channel field shows read back as the channel number + 1. */
  lemma OneBasedReadsBack(channel: int)
    requires 0 <= channel < 16
    ensures DecimalValue(OneBasedText(channel)[..|IntText(channel + 1)|]) == channel + 1
  {
    DecimalRoundTrip(channel + 1);
  }

  /** A record's MIDI channel: "--" for the global channel, otherwise the one-based channel. */
  function ChannelFieldText(midiChannel: int): (s: string)
    ensures 0 <= midiChannel <= 16 ==> |s| == 2
    ensures 0 <= midiChannel <= 16 ==> (s == "--" <==> midiChannel == MIDI_CHANNEL_GLOBAL)
    ensures midiChannel != MIDI_CHANNEL_GLOBAL ==> s == OneBasedText(midiChannel)
  {
    if midiChannel == MIDI_CHANNEL_GLOBAL then "--" else OneBasedText(midiChannel)
  }

  /** The name with the character under the cursor shown as '_' when it is a space. */
  function NameFieldText(name: seq<char>, cursor: int): (s: string)
    requires 0 <= cursor < |name|
    ensures |s| == |name| && s[cursor] != ' '
    ensures name[cursor] == ' ' ==> s[cursor] == '_'
    ensures name[cursor] != ' ' ==> s == name
    ensures forall j :: 0 <= j < |name| && j != cursor ==> s[j] == name[j]
  {
    name[cursor := if name[cursor] == ' ' then '_' else name[cursor]]
  }

  function ButtonTypeText(t: ButtonType): (s: string)
    ensures |s| == 4
    ensures s == "Push" <==> t == Push
    ensures t == Toggle ==> s == "Togl"
  {
    if t == Push then "Push" else "Togl"
  }

  /**
   * The low value of a button as the code prints it: the first pad is
   * decided by valueHigh, not valueLow, so a low value below 100 is left
   * unpadded whenever valueHigh is 100 or more.
   */
  function ButtonLowText(b: Button): (s: string)
    ensures 0 <= b.valueLow < b.valueHigh < 100 ==> |s| == 3
    ensures b.valueHigh >= 100 ==> s == IntText(b.valueLow)
    ensures |IntText(b.valueLow)| <= |s| && s[..|IntText(b.valueLow)|] == IntText(b.valueLow)
    ensures forall i :: |IntText(b.valueLow)| <= i < |s| ==> s[i] == ' '
  {
    IntText(b.valueLow) + (if b.valueHigh < 100 then " " + (if b.valueLow < 10 then " " else "") else "")
  }

  /**
   * The low value padded by its own width, as every other numeric field is:
   * the number followed by spaces up to three characters.
   */
  function ButtonLowTextIntended(b: Button): (s: string)
    ensures 0 <= b.valueLow <= 999 ==> |s| == 3
    ensures |IntText(b.valueLow)| <= |s| && s[..|IntText(b.valueLow)|] == IntText(b.valueLow)
    ensures forall i :: |IntText(b.valueLow)| <= i < |s| ==> s[i] == ' '
  {
    TrailingPadded(b.valueLow)
  }

  /**
   * The low value as printed agrees with the padded one exactly when high is
   * below 100 or low has three digits; a low value below 100 under a high
   * value of 100 or more is printed too short to cover a wider earlier value.
   */
  lemma LowPaddingDiffers(b: Button)
    requires b.WellFormed()
    ensures ButtonLowText(b) == ButtonLowTextIntended(b) <==> b.valueHigh < 100 || b.valueLow >= 100
  {
    if b.valueHigh >= 100 && b.valueLow < 100 {
      assert |ButtonLowText(b)| < 3;
    }
  }

  /** The channel/page readout: the global channel one-based and padded, and the page number one-based. */
  function ChannelReadoutText(channel: int, page: int): (s: (string, string))
    ensures 0 <= channel < 16 ==> |s.0| == 2
    ensures s.0 == OneBasedText(channel)
    ensures s.1 == IntText(page + 1)
  {
    (OneBasedText(channel), IntText(page + 1))
  }

  /** What displayEncoderParam prints for one field of encoder `e`. */
  function EncoderParamText(e: Encoder, param: EncoderParam, cursor: int): (s: string)
    requires 0 <= cursor < |e.name|
    ensures e.WellFormed() && param != EncoderName ==> |s| == (if param == EncoderMidiChannel then 2 else 3)
    ensures param == EncoderName ==> |s| == |e.name|
    ensures param == EncoderName ==> s == NameFieldText(e.name, cursor)
    ensures param == EncoderMidiChannel ==> s == ChannelFieldText(e.midiChannel)
    ensures param == EncoderController ==> s == TrailingPadded(e.controller)
    ensures param == EncoderMin ==> s == TrailingPadded(e.minValue)
    ensures param == EncoderMax ==> s == TrailingPadded(e.maxValue)
  {
    match param
    case EncoderName => NameFieldText(e.name, cursor)
    case EncoderMidiChannel => ChannelFieldText(e.midiChannel)
    case EncoderController => TrailingPadded(e.controller)
    case EncoderMin => TrailingPadded(e.minValue)
    case EncoderMax => TrailingPadded(e.maxValue)
  }

  /** What displayButtonParam prints for one field of button `b`. */
  function ButtonParamText(b: Button, param: ButtonParam, cursor: int): (s: string)
    requires 0 <= cursor < |b.name|
    ensures b.WellFormed() && param in {ButtonController, ButtonHigh} ==> |s| == 3
    ensures b.WellFormed() && param == ButtonMidiChannel ==> |s| == 2
    ensures b.WellFormed() && param == ButtonLow ==> |s| == 3
    ensures param == ButtonTypeField ==> |s| == 4
    ensures param == ButtonName ==> |s| == |b.name|
    ensures param == ButtonName ==> s == NameFieldText(b.name, cursor)
    ensures param == ButtonMidiChannel ==> s == ChannelFieldText(b.midiChannel)
    ensures param == ButtonController ==> s == TrailingPadded(b.controller)
    ensures param == ButtonTypeField ==> s == ButtonTypeText(b.buttonType)
    ensures param == ButtonHigh ==> s == TrailingPadded(b.valueHigh)
    ensures param == ButtonLow ==> s == ButtonLowTextIntended(b)
  {
    match param
    case ButtonName => NameFieldText(b.name, cursor)
    case ButtonMidiChannel => ChannelFieldText(b.midiChannel)
    case ButtonController => TrailingPadded(b.controller)
    case ButtonTypeField => ButtonTypeText(b.buttonType)
    case ButtonHigh => TrailingPadded(b.valueHigh)
    case ButtonLow => ButtonLowTextIntended(b)
  }
}
