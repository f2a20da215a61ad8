/**
 * The step refresh scheduler as pure functions: which table a countdown
 * value selects, what that table draws at each value, how the countdown
 * moves, and where a run of calls ends.
 */
module RefreshScheduler {
  import opened MidiTypes

  /** The four step tables. */
  datatype Table = MainTable | EditEncoderTable | EditButtonTable | SaveTable

  /** What a table's draw steps read: the page shown, the global channel and the control under edit. */
  datatype View = View(page: int, channel: int, editControl: int)

  /** The mode whose countdown steps through table `t`. */
  function TableMode(t: Table): DisplayMode {
    match t
    case MainTable => MainMode
    case EditEncoderTable => EditEncoderMode
    case EditButtonTable => EditButtonMode
    case SaveTable => SaveMode
  }

  /** The table each display mode owns; no two modes share one. */
  function ModeTable(mode: DisplayMode): (t: Table)
    ensures TableMode(t) == mode
    ensures StartOf(t) == (if mode == MainMode then RESET_REFRESH_STATUS else SAVE_REFRESH_STATUS)
  {
    match mode
    case MainMode => MainTable
    case EditEncoderMode => EditEncoderTable
    case EditButtonMode => EditButtonTable
    case SaveMode => SaveTable
  }

  /** Value 21 always goes to the main table's header step, whatever the mode. */
  function TableFor(mode: DisplayMode, status: int): (t: Table)
    ensures t == MainTable <==> mode == MainMode || status == RESET_REFRESH_STATUS
    ensures status != RESET_REFRESH_STATUS ==> t == ModeTable(mode)
  {
    if status != RESET_REFRESH_STATUS && mode != MainMode then ModeTable(mode) else MainTable
  }

  /** The highest countdown value a table draws at. */
  function StartOf(t: Table): int {
    if t == MainTable then RESET_REFRESH_STATUS else SAVE_REFRESH_STATUS
  }

  /** The value at which a table jumps the countdown straight to 0. */
  function Terminal(t: Table): (r: int)
    ensures 0 < r < StartOf(t)
  {
    match t
    case MainTable => 7
    case EditEncoderTable => 13
    case EditButtonTable => 12
    case SaveTable => 17
  }

  /** The drawing a table does at one countdown value; unmapped values draw nothing. */
  function Draws(t: Table, status: int, v: View): seq<DrawEvent> {
    match t
    case MainTable =>
      if status == 21 then [PauseRefresh, MainHeader]
      else if status == 20 then [MainFrame, ChannelReadout(v.channel, v.page)]
      else if 14 <= status <= 19 then [EncoderCell(v.page, 19 - status), EncoderValue(v.page, 19 - status)]
      else if 8 <= status <= 13 then [ButtonCell(v.page, 13 - status), ButtonValue(v.page, 13 - status)]
      else []
    case EditEncoderTable =>
      if status == 20 then [EditFrame(EncoderControl)]
      else if status == 19 then [EditTitle(EncoderControl)]
      else if 14 <= status <= 18 then
        var p := EncoderRow(status);
        [EncoderParamLabel(p), EncoderParamField(v.page, v.editControl, p)]
      else []
    case EditButtonTable =>
      if status == 20 then [EditFrame(ButtonControl)]
      else if status == 19 then [EditTitle(ButtonControl)]
      else if 13 <= status <= 18 then
        var p := ButtonRow(status);
        [ButtonParamLabel(p), ButtonParamField(v.page, v.editControl, p)]
      else []
    case SaveTable =>
      if status == 20 then [SaveFrame]
      else if status == 19 then [SaveTitle]
      else if status == 18 then [SaveHelp]
      else []
  }

  /** The encoder editor's rows, top to bottom from countdown 18. */
  function EncoderRow(status: int): EncoderParam {
    if status == 18 then EncoderName
    else if status == 17 then EncoderMidiChannel
    else if status == 16 then EncoderController
    else if status == 15 then EncoderMin
    else EncoderMax
  }

  /** The button editor's rows, top to bottom from countdown 18. */
  function ButtonRow(status: int): ButtonParam {
    if status == 18 then ButtonName
    else if status == 17 then ButtonMidiChannel
    else if status == 16 then ButtonController
    else if status == 15 then ButtonTypeField
    else if status == 14 then ButtonHigh
    else ButtonLow
  }

  /** A table draws at exactly the values from its start down to just above its terminal value, at most two events each. */
  lemma DrawsWithinTable(t: Table, status: int, v: View)
    ensures Draws(t, status, v) != [] <==> Terminal(t) < status <= StartOf(t)
    ensures |Draws(t, status, v)| <= 2
  {
  }

  /** Each editor row from 18 down shows a different parameter. */
  lemma RowsRoundTrip(status: int)
    ensures 14 <= status <= 18 ==> EncoderRowOf(EncoderRow(status)) == status
    ensures 13 <= status <= 18 ==> ButtonRowOf(ButtonRow(status)) == status
  {
  }

  /** The countdown value at which the encoder editor draws parameter `p`. */
  function EncoderRowOf(p: EncoderParam): (status: int)
    ensures 14 <= status <= 18 && EncoderRow(status) == p
  {
    match p
    case EncoderName => 18
    case EncoderMidiChannel => 17
    case EncoderController => 16
    case EncoderMin => 15
    case EncoderMax => 14
  }

  /** The countdown value at which the button editor draws parameter `p`. */
  function ButtonRowOf(p: ButtonParam): (status: int)
    ensures 13 <= status <= 18 && ButtonRow(status) == p
  {
    match p
    case ButtonName => 18
    case ButtonMidiChannel => 17
    case ButtonController => 16
    case ButtonTypeField => 15
    case ButtonHigh => 14
    case ButtonLow => 13
  }

  /** The countdown after one step of table `t`. */
  function Next(t: Table, status: int): (r: int)
    // the countdown never increases: it drops by one, jumps to 0, or stays at 0
    ensures r <= status
    ensures r == status - 1 || r == 0 || (r == status && status <= 0)
    ensures 0 < status ==> 0 <= r < status
    ensures status == 0 ==> r == 0
    ensures 0 <= status ==> (r == 0 <==> status <= 1 || status == Terminal(t))
  {
    if status == Terminal(t) then 0 else if status > 0 then status - 1 else status
  }

  /** The countdown after one call made in `mode`. */
  function StepStatus(mode: DisplayMode, status: int): (r: int)
    ensures status == RESET_REFRESH_STATUS ==> r == SAVE_REFRESH_STATUS
    ensures status != RESET_REFRESH_STATUS ==> r == Next(ModeTable(mode), status)
    ensures 0 < status ==> 0 <= r < status
    ensures status == 0 ==> r == 0
  {
    Next(TableFor(mode, status), status)
  }

  /** Everything one step of table `t` draws: its step, then the restart when the countdown is 0. */
  function TableEvents(t: Table, status: int, v: View): (r: seq<DrawEvent>)
    ensures RestartRefresh in r <==> Next(t, status) == 0
    ensures status == 0 ==> r == [RestartRefresh]
  {
    Draws(t, status, v) + (if Next(t, status) == 0 then [RestartRefresh] else [])
  }

  /** Everything one call made in `mode` draws. */
  function StepEvents(mode: DisplayMode, status: int, v: View): (r: seq<DrawEvent>)
    ensures RestartRefresh in r <==> StepStatus(mode, status) == 0
    ensures status == 0 ==> r == [RestartRefresh]
  {
    TableEvents(TableFor(mode, status), status, v)
  }

  /** Where a run of calls leaves the countdown, and what it drew. */
  datatype RunResult = RunResult(status: int, events: seq<DrawEvent>)

  /** `n` consecutive calls in `mode` from countdown `status`. */
  function Run(mode: DisplayMode, status: int, v: View, n: nat): (r: RunResult)
    // the countdown never increases, and a positive one strictly drops once a call is made
    ensures 0 <= status ==> 0 <= r.status <= status
    ensures 0 < status && 0 < n ==> r.status < status
    decreases n
  {
    if n == 0 then RunResult(status, [])
    else
      var rest := Run(mode, StepStatus(mode, status), v, n - 1);
      RunResult(rest.status, StepEvents(mode, status, v) + rest.events)
  }

  /** `n` draw steps of table `t` from countdown `hi` downwards. */
  function Segment(t: Table, hi: int, n: nat, v: View): seq<DrawEvent>
    decreases n
  {
    if n == 0 then [] else Draws(t, hi, v) + Segment(t, hi - 1, n - 1, v)
  }

  /** `n` restarts in a row. */
  function Restarts(n: nat): seq<DrawEvent>
    decreases n
  {
    if n == 0 then [] else [RestartRefresh] + Restarts(n - 1)
  }

  /** Runs compose: `a + b` calls are `a` calls followed by `b` calls. */
  lemma {:induction false} RunSplit(mode: DisplayMode, status: int, v: View, a: nat, b: nat)
    ensures var first := Run(mode, status, v, a);
            var second := Run(mode, first.status, v, b);
            Run(mode, status, v, a + b) == RunResult(second.status, first.events + second.events)
    decreases a
  {
    if a > 0 {
      var next := StepStatus(mode, status);
      var drawn := StepEvents(mode, status, v);
      RunSplit(mode, next, v, a - 1, b);
      var rest := Run(mode, next, v, a - 1);
      var second := Run(mode, rest.status, v, b);
      AppendAssoc(drawn, rest.events, second.events);
    }
  }

  /** Concatenation regroups freely. */
  lemma AppendAssoc<T>(x: seq<T>, y: seq<T>, z: seq<T>)
    ensures x + (y + z) == (x + y) + z
  {
  }

  /** 0 is a fixed point: every call made there only restarts the refresh. */
  lemma {:induction false} SettledIsFixedPoint(mode: DisplayMode, v: View, n: nat)
    ensures Run(mode, 0, v, n) == RunResult(0, Restarts(n))
    decreases n
  {
    if n > 0 {
      SettledIsFixedPoint(mode, v, n - 1);
    }
  }

  /**
   * Above the terminal value a mode's own table counts down one value per
   * call, drawing its steps in order and never restarting the refresh.
   */
  lemma {:induction false} Drain(mode: DisplayMode, v: View, hi: int, k: nat)
    requires hi <= StartOf(ModeTable(mode))
    requires k <= hi - Terminal(ModeTable(mode))
    ensures Run(mode, hi, v, k) == RunResult(hi - k, Segment(ModeTable(mode), hi, k, v))
    decreases k
  {
    if k > 0 {
      StepAboveTerminal(mode, v, hi);
      Drain(mode, v, hi - 1, k - 1);
    }
  }

  /** One call above the terminal value draws the mode's own step and lowers the countdown by one. */
  lemma StepAboveTerminal(mode: DisplayMode, v: View, hi: int)
    requires Terminal(ModeTable(mode)) < hi <= StartOf(ModeTable(mode))
    ensures StepStatus(mode, hi) == hi - 1
    ensures StepEvents(mode, hi, v) == Draws(ModeTable(mode), hi, v)
  {
    assert TableFor(mode, hi) == ModeTable(mode);
  }

  /**
   * From its start value a mode's table settles after start - terminal + 1
   * calls: the steps above the terminal value in order, then the restart.
   */
  lemma Settle(mode: DisplayMode, v: View)
    ensures var t := ModeTable(mode);
            var n := StartOf(t) - Terminal(t);
            Run(mode, StartOf(t), v, n + 1) == RunResult(0, Segment(t, StartOf(t), n, v) + [RestartRefresh])
  {
    var t := ModeTable(mode);
    var start := StartOf(t);
    var terminal := Terminal(t);
    var n := start - terminal;
    var drawn := Segment(t, start, n, v);
    assert Run(mode, start, v, n) == RunResult(terminal, drawn) by {
      Drain(mode, v, start, n);
    }
    assert Run(mode, terminal, v, 1) == RunResult(0, [RestartRefresh]) by {
      TerminalStep(mode, v);
    }
    Compose(mode, v, start, n, 1, terminal, drawn, 0, [RestartRefresh]);
  }

  /** Two runs with known results make up one run whose events are theirs in order. */
  lemma Compose(mode: DisplayMode, v: View, status: int, a: nat, b: nat, mid: int, first: seq<DrawEvent>, final: int, second: seq<DrawEvent>)
    requires Run(mode, status, v, a) == RunResult(mid, first)
    requires Run(mode, mid, v, b) == RunResult(final, second)
    ensures Run(mode, status, v, a + b) == RunResult(final, first + second)
  {
    RunSplit(mode, status, v, a, b);
  }

  /** At its terminal value a mode's table draws nothing, jumps to 0 and restarts the refresh. */
  lemma TerminalStep(mode: DisplayMode, v: View)
    ensures Run(mode, Terminal(ModeTable(mode)), v, 1) == RunResult(0, [RestartRefresh])
  {
    match mode
    case MainMode =>
    case EditEncoderMode =>
    case EditButtonMode =>
    case SaveMode =>
  }

  /** The cells of encoders `from`..5 of a page, each its name/cc/channel then its value. */
  function EncoderCells(page: int, from: nat): seq<DrawEvent>
    decreases CONTROL_COUNT - from
  {
    if from >= CONTROL_COUNT then []
    else [EncoderCell(page, from), EncoderValue(page, from)] + EncoderCells(page, from + 1)
  }

  /** The cells of buttons `from`..5 of a page. */
  function ButtonCells(page: int, from: nat): seq<DrawEvent>
    decreases CONTROL_COUNT - from
  {
    if from >= CONTROL_COUNT then []
    else [ButtonCell(page, from), ButtonValue(page, from)] + ButtonCells(page, from + 1)
  }

  /** The main screen's draw steps, countdown 21 down to 8. */
  function MainScreen(v: View): seq<DrawEvent> {
    [PauseRefresh, MainHeader, MainFrame, ChannelReadout(v.channel, v.page)]
    + EncoderCells(v.page, 0) + ButtonCells(v.page, 0)
  }

  /** Segments compose: `a + b` steps down from `hi` are `a` steps, then `b` steps from `hi - a`. */
  lemma {:induction false} SegmentSplit(t: Table, hi: int, a: nat, b: nat, v: View)
    ensures Segment(t, hi, a + b, v) == Segment(t, hi, a, v) + Segment(t, hi - a, b, v)
    decreases a
  {
    if a > 0 {
      SegmentSplit(t, hi - 1, a - 1, b, v);
      AppendAssoc(Draws(t, hi, v), Segment(t, hi - 1, a - 1, v), Segment(t, hi - a, b, v));
    }
  }

  /** Main-table values 19 - from down to 14 draw encoders from..5 in index order. */
  lemma {:induction false} MainEncoderSteps(v: View, from: nat)
    requires from <= CONTROL_COUNT
    ensures Segment(MainTable, 19 - from, CONTROL_COUNT - from, v) == EncoderCells(v.page, from)
    decreases CONTROL_COUNT - from
  {
    if from < CONTROL_COUNT {
      MainEncoderSteps(v, from + 1);
    }
  }

  /** Main-table values 13 - from down to 8 draw buttons from..5 in index order. */
  lemma {:induction false} MainButtonSteps(v: View, from: nat)
    requires from <= CONTROL_COUNT
    ensures Segment(MainTable, 13 - from, CONTROL_COUNT - from, v) == ButtonCells(v.page, from)
    decreases CONTROL_COUNT - from
  {
    if from < CONTROL_COUNT {
      MainButtonSteps(v, from + 1);
    }
  }

  /** The encoder editor's draw steps, countdown 20 down to 14. */
  function EditEncoderScreen(v: View): seq<DrawEvent> {
    [EditFrame(EncoderControl), EditTitle(EncoderControl),
     EncoderParamLabel(EncoderName), EncoderParamField(v.page, v.editControl, EncoderName),
     EncoderParamLabel(EncoderMidiChannel), EncoderParamField(v.page, v.editControl, EncoderMidiChannel),
     EncoderParamLabel(EncoderController), EncoderParamField(v.page, v.editControl, EncoderController),
     EncoderParamLabel(EncoderMin), EncoderParamField(v.page, v.editControl, EncoderMin),
     EncoderParamLabel(EncoderMax), EncoderParamField(v.page, v.editControl, EncoderMax)]
  }

  /** The button editor's draw steps, countdown 20 down to 13. */
  function EditButtonScreen(v: View): seq<DrawEvent> {
    [EditFrame(ButtonControl), EditTitle(ButtonControl),
     ButtonParamLabel(ButtonName), ButtonParamField(v.page, v.editControl, ButtonName),
     ButtonParamLabel(ButtonMidiChannel), ButtonParamField(v.page, v.editControl, ButtonMidiChannel),
     ButtonParamLabel(ButtonController), ButtonParamField(v.page, v.editControl, ButtonController),
     ButtonParamLabel(ButtonTypeField), ButtonParamField(v.page, v.editControl, ButtonTypeField),
     ButtonParamLabel(ButtonHigh), ButtonParamField(v.page, v.editControl, ButtonHigh),
     ButtonParamLabel(ButtonLow), ButtonParamField(v.page, v.editControl, ButtonLow)]
  }

  /** The save confirmation's draw steps, countdown 20 down to 18. */
  function SaveScreen(): seq<DrawEvent> {
    [SaveFrame, SaveTitle, SaveHelp]
  }

  /** The main table's draw steps from 21 down to 8 are the main screen. */
  lemma MainScreenSteps(v: View)
    ensures Segment(MainTable, 21, 14, v) == MainScreen(v)
  {
    var t := MainTable;
    SegmentSplit(t, 21, 2, 12, v);
    SegmentSplit(t, 19, 6, 6, v);
    MainEncoderSteps(v, 0);
    MainButtonSteps(v, 0);
    MainHeaderSteps(v);
    assert Segment(t, 21, 14, v)
        == Segment(t, 21, 2, v) + (Segment(t, 19, 6, v) + Segment(t, 13, 6, v));
  }

  /** Main-table values 21 and 20 pause the refresh, draw the header, the frame and the channel readout. */
  lemma MainHeaderSteps(v: View)
    ensures Segment(MainTable, 21, 2, v) == [PauseRefresh, MainHeader, MainFrame, ChannelReadout(v.channel, v.page)]
  {
    assert Segment(MainTable, 20, 1, v) == Draws(MainTable, 20, v);
  }

  /** The encoder editor's draw steps from 20 down to 14 are its screen. */
  lemma EditEncoderScreenSteps(v: View)
    ensures Segment(EditEncoderTable, 20, 7, v) == EditEncoderScreen(v)
  {
    var t := EditEncoderTable;
    assert Segment(t, 14, 1, v) == Draws(t, 14, v);
    assert Segment(t, 15, 2, v) == Draws(t, 15, v) + Segment(t, 14, 1, v);
    assert Segment(t, 16, 3, v) == Draws(t, 16, v) + Segment(t, 15, 2, v);
    assert Segment(t, 17, 4, v) == Draws(t, 17, v) + Segment(t, 16, 3, v);
    assert Segment(t, 18, 5, v) == Draws(t, 18, v) + Segment(t, 17, 4, v);
    assert Segment(t, 19, 6, v) == Draws(t, 19, v) + Segment(t, 18, 5, v);
    assert Segment(t, 20, 7, v) == Draws(t, 20, v) + Segment(t, 19, 6, v);
  }

  /** The button editor's draw steps from 20 down to 13 are its screen. */
  lemma EditButtonScreenSteps(v: View)
    ensures Segment(EditButtonTable, 20, 8, v) == EditButtonScreen(v)
  {
    var t := EditButtonTable;
    assert Segment(t, 13, 1, v) == Draws(t, 13, v);
    assert Segment(t, 14, 2, v) == Draws(t, 14, v) + Segment(t, 13, 1, v);
    assert Segment(t, 15, 3, v) == Draws(t, 15, v) + Segment(t, 14, 2, v);
    assert Segment(t, 16, 4, v) == Draws(t, 16, v) + Segment(t, 15, 3, v);
    assert Segment(t, 17, 5, v) == Draws(t, 17, v) + Segment(t, 16, 4, v);
    assert Segment(t, 18, 6, v) == Draws(t, 18, v) + Segment(t, 17, 5, v);
    assert Segment(t, 19, 7, v) == Draws(t, 19, v) + Segment(t, 18, 6, v);
    assert Segment(t, 20, 8, v) == Draws(t, 20, v) + Segment(t, 19, 7, v);
  }

  /** In the main view, 15 calls from 21 draw the whole screen; the countdown is positive until the 15th. */
  lemma MainRefreshTakes15Calls(v: View)
    ensures Run(MainMode, RESET_REFRESH_STATUS, v, 15) == RunResult(0, MainScreen(v) + [RestartRefresh])
    ensures forall k :: 0 <= k < 15 ==> Run(MainMode, RESET_REFRESH_STATUS, v, k).status == 21 - k
  {
    assert ModeTable(MainMode) == MainTable;
    Settle(MainMode, v);
    forall k | 0 <= k < 15
      ensures Run(MainMode, RESET_REFRESH_STATUS, v, k).status == 21 - k
    {
      Drain(MainMode, v, RESET_REFRESH_STATUS, k);
    }
    MainScreenSteps(v);
  }

  /** In the encoder editor, 8 calls from 20 draw its screen; the countdown is positive until the 8th. */
  lemma EditEncoderRefreshTakes8Calls(v: View)
    ensures Run(EditEncoderMode, SAVE_REFRESH_STATUS, v, 8) == RunResult(0, EditEncoderScreen(v) + [RestartRefresh])
    ensures forall k :: 0 <= k < 8 ==> Run(EditEncoderMode, SAVE_REFRESH_STATUS, v, k).status == 20 - k
  {
    assert ModeTable(EditEncoderMode) == EditEncoderTable;
    Settle(EditEncoderMode, v);
    forall k | 0 <= k < 8
      ensures Run(EditEncoderMode, SAVE_REFRESH_STATUS, v, k).status == 20 - k
    {
      Drain(EditEncoderMode, v, SAVE_REFRESH_STATUS, k);
    }
    EditEncoderScreenSteps(v);
  }

  /** In the button editor, 9 calls from 20 draw its screen; the countdown is positive until the 9th. */
  lemma EditButtonRefreshTakes9Calls(v: View)
    ensures Run(EditButtonMode, SAVE_REFRESH_STATUS, v, 9) == RunResult(0, EditButtonScreen(v) + [RestartRefresh])
    ensures forall k :: 0 <= k < 9 ==> Run(EditButtonMode, SAVE_REFRESH_STATUS, v, k).status == 20 - k
  {
    assert ModeTable(EditButtonMode) == EditButtonTable;
    Settle(EditButtonMode, v);
    forall k | 0 <= k < 9
      ensures Run(EditButtonMode, SAVE_REFRESH_STATUS, v, k).status == 20 - k
    {
      Drain(EditButtonMode, v, SAVE_REFRESH_STATUS, k);
    }
    EditButtonScreenSteps(v);
  }

  /** On the save screen, 4 calls from 20 draw the confirmation; the countdown is positive until the 4th. */
  lemma SaveRefreshTakes4Calls(v: View)
    ensures Run(SaveMode, SAVE_REFRESH_STATUS, v, 4) == RunResult(0, SaveScreen() + [RestartRefresh])
    ensures forall k :: 0 <= k < 4 ==> Run(SaveMode, SAVE_REFRESH_STATUS, v, k).status == 20 - k
  {
    assert ModeTable(SaveMode) == SaveTable;
    Settle(SaveMode, v);
    forall k | 0 <= k < 4
      ensures Run(SaveMode, SAVE_REFRESH_STATUS, v, k).status == 20 - k
    {
      Drain(SaveMode, v, SAVE_REFRESH_STATUS, k);
    }
    assert Segment(SaveTable, 20, 3, v) == SaveScreen();
  }

  /** At 21 any mode draws the main header first (pausing the refresh) and moves on to 20. */
  lemma ResetStep(mode: DisplayMode, v: View)
    ensures Run(mode, RESET_REFRESH_STATUS, v, 1) == RunResult(20, [PauseRefresh, MainHeader])
  {
    assert TableFor(mode, RESET_REFRESH_STATUS) == MainTable;
    assert StepEvents(mode, RESET_REFRESH_STATUS, v) == [PauseRefresh, MainHeader];
  }

  /**
   * Entering the encoder editor resets the countdown to 21, so its first
   * call draws the main header and the editor screen follows: 9 calls.
   */
  lemma EditEncoderEntryTakes9Calls(v: View)
    ensures Run(EditEncoderMode, RESET_REFRESH_STATUS, v, 9)
            == RunResult(0, [PauseRefresh, MainHeader] + EditEncoderScreen(v) + [RestartRefresh])
  {
    ResetStep(EditEncoderMode, v);
    EditEncoderRefreshTakes8Calls(v);
    RunSplit(EditEncoderMode, RESET_REFRESH_STATUS, v, 1, 8);
    AppendAssoc([PauseRefresh, MainHeader], EditEncoderScreen(v), [RestartRefresh]);
  }

  /** Entering the button editor likewise takes one call more than from 20: 10 calls. */
  lemma EditButtonEntryTakes10Calls(v: View)
    ensures Run(EditButtonMode, RESET_REFRESH_STATUS, v, 10)
            == RunResult(0, [PauseRefresh, MainHeader] + EditButtonScreen(v) + [RestartRefresh])
  {
    ResetStep(EditButtonMode, v);
    EditButtonRefreshTakes9Calls(v);
    RunSplit(EditButtonMode, RESET_REFRESH_STATUS, v, 1, 9);
    AppendAssoc([PauseRefresh, MainHeader], EditButtonScreen(v), [RestartRefresh]);
  }
}
