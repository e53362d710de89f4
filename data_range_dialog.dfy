/**
 * `DataRangeDialog`: the small dialog that edits a track view's data range.
 * Its state is the text of its two inputs, the container's offset and
 * visibility, and the handlers bound to the inputs' `keyup` and the OK
 * button's `click`, each of which remembers the track view it was bound
 * for. What leaves the dialog is recorded: the `setDataRange` calls made on
 * track views and the number of alerts presented.
 *
 * `DialogState` and the functions over it specify each operation; the class
 * `DataRangeDialog` holds the same state in fields and its methods are
 * proved to change them as those functions say.
 */
module RangeDialog {
  import opened Wrappers
  import opened JsNumbers
  import opened JsValues
  import opened NumericStrings
  import opened NumericStringFacts

  /** A track view, identified. */
  type ViewId = nat

  /**
   * What an input holds: text (typed by the user, or the string a
   * non-number was preloaded as), or a number preloaded with `val(n)`,
   * whose decimal rendering is not modelled; reading it back yields `n`.
   */
  datatype InputText = Typed(text: string) | Shown(number: JsNumber)

  /** What `trackView.dataRange()` returns: a falsy value, or a range object. */
  datatype RangeValue = NoRange | Range(min: JsVal, max: JsVal)

  /** A `trackView.setDataRange(min, max)` call. */
  datatype Commit = Commit(view: ViewId, min: JsNumber, max: JsNumber)

  datatype DialogState = DialogState(
    minimum: InputText, maximum: InputText,
    visible: bool, left: real, top: real,
    minimumKeyup: seq<ViewId>, maximumKeyup: seq<ViewId>, okClick: seq<ViewId>,
    commits: seq<Commit>, alerts: nat)

  const Empty := Typed("")

  /** `$input.val(v)`: null and undefined clear the input; other values are stored as their string. */
  function Preloaded(v: JsVal): (r: InputText)
    ensures v.Number? <==> r.Shown?
    ensures v.Number? ==> r.number == v.n
    ensures v.Str? ==> r == Typed(v.s)
    ensures v == Undefined || v == Null ==> r == Empty
  {
    match v
    case Undefined => Empty
    case Null => Empty
    case Bool(b) => Typed(if b then "true" else "false")
    case Number(n) => Shown(n)
    case Str(s) => Typed(s)
    case Obj(_) => Typed("[object Object]")
  }

  /** `Number($input.val())`. */
  function Converted(i: InputText): JsNumber {
    match i
    case Typed(s) => StringToNumber(s)
    case Shown(n) => n
  }

  /** A preloaded null, number or string converts back to the value's own ToNumber. */
  lemma PreloadConvertsBack(v: JsVal)
    requires v.Null? || v.Number? || v.Str?
    ensures Converted(Preloaded(v)) == ToNumber(v)
  {
    if v.Null? {
      BlankStrings("");
    }
  }

  /** A preloaded boolean does not: `true` is stored as the text "true", which converts to NaN, not 1. */
  lemma PreloadedBooleanIsNaN(b: bool)
    ensures Converted(Preloaded(Bool(b))) == NaN && ToNumber(Bool(b)) != NaN
  {
    NonNumericIsNaN("true");
    NonNumericIsNaN("false");
  }

  /** After construction: empty inputs, offset (0, 0), hidden, nothing bound, nothing sent. */
  function Initial(): (s: DialogState)
    ensures !s.visible && s.minimum == s.maximum == Empty && s.left == s.top == 0.0
    ensures s.minimumKeyup == s.maximumKeyup == s.okClick == []
    ensures s.commits == [] && s.alerts == 0
  {
    DialogState(Empty, Empty, false, 0.0, 0.0, [], [], [], [], 0)
  }

  /** The header's close control and the Cancel button: clear, move to (0, 0), hide. */
  function Dismissed(s: DialogState): DialogState {
    s.(minimum := Empty, maximum := Empty, left := 0.0, top := 0.0, visible := false)
  }

  /** `configure(trackView)`: preload the view's range, or 0 and 100, and rebind every handler to the view. */
  function Configured(s: DialogState, view: ViewId, dataRange: RangeValue): DialogState {
    var min := if dataRange.Range? then dataRange.min else Num(0.0);
    var max := if dataRange.Range? then dataRange.max else Num(100.0);
    s.(minimum := Preloaded(min), maximum := Preloaded(max),
       minimumKeyup := [view], maximumKeyup := [view], okClick := [view])
  }

  /** `processResults(trackView)`: alert or commit, then clear, move to (0, 0) and hide. */
  function Processed(s: DialogState, view: ViewId): DialogState {
    var min := Converted(s.minimum);
    var max := Converted(s.maximum);
    var sent := if min == NaN || max == NaN then s.(alerts := s.alerts + 1)
                else s.(commits := s.commits + [Commit(view, min, max)]);
    Dismissed(sent)
  }

  /** `present($parent)`: move to the offset computed from the parent and show. */
  function Presented(s: DialogState, left: real, top: real): DialogState {
    s.(left := left, top := top, visible := true)
  }

  /** Every handler in `views` runs `processResults` for its view, in binding order. */
  function Dispatched(s: DialogState, views: seq<ViewId>): DialogState
    decreases |views|
  {
    if views == [] then s else Dispatched(Processed(s, views[0]), views[1..])
  }

  /** A key released in an input: only Enter (key code 13) reaches `processResults`. */
  function KeyedUp(s: DialogState, views: seq<ViewId>, keyCode: int): DialogState {
    if keyCode == 13 then Dispatched(s, views) else s
  }

  datatype DialogEvent =
    | Configure(view: ViewId, dataRange: RangeValue)
    | ProcessResults(view: ViewId)
    | Cancel
    | CloseHeader
    | Present(left: real, top: real)
    | TypeMinimum(text: string)
    | TypeMaximum(text: string)
    | KeyUpMinimum(keyCode: int)
    | KeyUpMaximum(keyCode: int)
    | ClickOk

  function Step(s: DialogState, e: DialogEvent): DialogState {
    match e
    case Configure(view, dataRange) => Configured(s, view, dataRange)
    case ProcessResults(view) => Processed(s, view)
    case Cancel => Dismissed(s)
    case CloseHeader => Dismissed(s)
    case Present(left, top) => Presented(s, left, top)
    case TypeMinimum(text) => s.(minimum := Typed(text))
    case TypeMaximum(text) => s.(maximum := Typed(text))
    case KeyUpMinimum(keyCode) => KeyedUp(s, s.minimumKeyup, keyCode)
    case KeyUpMaximum(keyCode) => KeyedUp(s, s.maximumKeyup, keyCode)
    case ClickOk => Dispatched(s, s.okClick)
  }

  function Run(s: DialogState, es: seq<DialogEvent>): DialogState
    decreases |es|
  {
    if es == [] then s else Run(Step(s, es[0]), es[1..])
  }

  /** The view of the last `Configure` in `es`, if any. */
  function LastConfigured(es: seq<DialogEvent>): Option<ViewId>
    decreases |es|
  {
    if es == [] then None
    else if es[|es| - 1].Configure? then Some(es[|es| - 1].view)
    else LastConfigured(es[..|es| - 1])
  }

  /**
   * Validation: when either input converts to NaN there is exactly one more
   * alert and no commit; otherwise exactly one commit of the two converted
   * values, in the order typed (a minimum above the maximum included), and
   * no alert.
   */
  lemma ProcessOutcome(s: DialogState, view: ViewId)
    ensures var r := Processed(s, view);
      var min := Converted(s.minimum);
      var max := Converted(s.maximum);
      if min == NaN || max == NaN then r.alerts == s.alerts + 1 && r.commits == s.commits
      else r.alerts == s.alerts && r.commits == s.commits + [Commit(view, min, max)]
  {
  }

  /** Whatever the outcome, processing and dismissing both clear the inputs, reset the offset and hide, keeping the bindings. */
  lemma Resets(s: DialogState, view: ViewId)
    ensures var r := Processed(s, view);
      r.minimum == r.maximum == Empty && r.left == r.top == 0.0 && !r.visible
      && r.minimumKeyup == s.minimumKeyup && r.maximumKeyup == s.maximumKeyup && r.okClick == s.okClick
    ensures var d := Dismissed(s);
      d.minimum == d.maximum == Empty && d.left == d.top == 0.0 && !d.visible
      && d.commits == s.commits && d.alerts == s.alerts
  {
  }

  /** Cleared (or blank) inputs convert to 0, so processing them commits the range 0 to 0. */
  lemma EmptyInputCommitsZero(s: DialogState, view: ViewId, min: string, max: string)
    requires s.minimum == Typed(min) && s.maximum == Typed(max)
    requires forall k :: 0 <= k < |min| ==> IsStrWhiteSpace(min[k])
    requires forall k :: 0 <= k < |max| ==> IsStrWhiteSpace(max[k])
    ensures Processed(s, view).commits == s.commits + [Commit(view, Finite(0.0), Finite(0.0))]
    ensures Processed(s, view).alerts == s.alerts
  {
    BlankStrings(min);
    BlankStrings(max);
  }

  /**
   * Configuring preloads the view's range, or 0 and 100 without one, and
   * leaves visibility alone. A null, number or string bound reads back as
   * its own ToNumber; a missing one reads back as 0, not NaN.
   */
  lemma ConfigurePreloads(s: DialogState, view: ViewId, dataRange: RangeValue)
    ensures var r := Configured(s, view, dataRange);
      && r.visible == s.visible && r.commits == s.commits && r.alerts == s.alerts
      && (dataRange.NoRange? ==> Converted(r.minimum) == Finite(0.0) && Converted(r.maximum) == Finite(100.0))
      && (dataRange.Range? ==> r.minimum == Preloaded(dataRange.min) && r.maximum == Preloaded(dataRange.max))
      && (dataRange.Range? && (dataRange.min.Null? || dataRange.min.Number? || dataRange.min.Str?) ==>
            Converted(r.minimum) == ToNumber(dataRange.min))
      && (dataRange.Range? && dataRange.min.Undefined? ==> Converted(r.minimum) == Finite(0.0))
  {
    if dataRange.Range? {
      if dataRange.min.Undefined? {
        BlankStrings("");
      } else if dataRange.min.Null? || dataRange.min.Number? || dataRange.min.Str? {
        PreloadConvertsBack(dataRange.min);
      }
    }
  }

  /**
   * Rebinding: each of the three handler lists is exactly the last
   * configured view after any run that configured, and unchanged by a run
   * that did not, so no handler is ever bound twice.
   */
  lemma {:induction false} Bindings(s: DialogState, es: seq<DialogEvent>)
    ensures var r := Run(s, es);
      match LastConfigured(es)
      case None => r.minimumKeyup == s.minimumKeyup && r.maximumKeyup == s.maximumKeyup && r.okClick == s.okClick
      case Some(v) => r.minimumKeyup == r.maximumKeyup == r.okClick == [v]
    decreases |es|
  {
    if es != [] {
      var t := Step(s, es[0]);
      StepBindings(s, es[0]);
      Bindings(t, es[1..]);
      LastConfiguredOfTail(es);
    }
  }

  lemma {:induction false} StepBindings(s: DialogState, e: DialogEvent)
    ensures var t := Step(s, e);
      if e.Configure? then t.minimumKeyup == t.maximumKeyup == t.okClick == [e.view]
      else t.minimumKeyup == s.minimumKeyup && t.maximumKeyup == s.maximumKeyup && t.okClick == s.okClick
  {
    match e
    case KeyUpMinimum(keyCode) => DispatchKeepsBindings(s, s.minimumKeyup);
    case KeyUpMaximum(keyCode) => DispatchKeepsBindings(s, s.maximumKeyup);
    case ClickOk => DispatchKeepsBindings(s, s.okClick);
    case _ =>
  }

  lemma {:induction false} DispatchKeepsBindings(s: DialogState, views: seq<ViewId>)
    ensures var t := Dispatched(s, views);
      t.minimumKeyup == s.minimumKeyup && t.maximumKeyup == s.maximumKeyup && t.okClick == s.okClick
    decreases |views|
  {
    if views != [] {
      DispatchKeepsBindings(Processed(s, views[0]), views[1..]);
    }
  }

  /** The last configure of `es` is that of its tail, unless only the head configures. */
  lemma {:induction false} LastConfiguredOfTail(es: seq<DialogEvent>)
    requires es != []
    ensures LastConfigured(es) ==
      if LastConfigured(es[1..]).Some? then LastConfigured(es[1..])
      else if es[0].Configure? then Some(es[0].view) else None
    decreases |es|
  {
    if |es| > 1 {
      var init := es[..|es| - 1];
      assert init[1..] == es[1..][..|es[1..]| - 1];
      assert es[1..][|es[1..]| - 1] == es[|es| - 1];
      if !es[|es| - 1].Configure? {
        LastConfiguredOfTail(init);
        assert init[0] == es[0];
      }
    }
  }

  /**
   * Once a view has been configured, Enter in either input or a click on
   * OK processes the inputs exactly once, for the last configured view;
   * any other key leaves the dialog as it is.
   */
  lemma EnterProcessesOnce(s: DialogState, es: seq<DialogEvent>, keyCode: int)
    requires LastConfigured(es).Some?
    ensures var r := Run(s, es);
      var v := LastConfigured(es).value;
      && Step(r, ClickOk) == Processed(r, v)
      && Step(r, KeyUpMinimum(keyCode)) == (if keyCode == 13 then Processed(r, v) else r)
      && Step(r, KeyUpMaximum(keyCode)) == (if keyCode == 13 then Processed(r, v) else r)
  {
    Bindings(s, es);
    var r := Run(s, es);
    var v := LastConfigured(es).value;
    assert Dispatched(r, [v]) == Processed(r, v) by {
      assert [v][1..] == [];
    }
  }

  /** Only `present` shows the dialog: a step that ends visible started visible or was a `present`. */
  lemma StepVisibility(s: DialogState, e: DialogEvent)
    ensures Step(s, e).visible ==> s.visible || e.Present?
  {
    match e
    case KeyUpMinimum(keyCode) => DispatchHides(s, s.minimumKeyup);
    case KeyUpMaximum(keyCode) => DispatchHides(s, s.maximumKeyup);
    case ClickOk => DispatchHides(s, s.okClick);
    case _ =>
  }

  lemma {:induction false} DispatchHides(s: DialogState, views: seq<ViewId>)
    ensures Dispatched(s, views).visible ==> s.visible && views == []
    decreases |views|
  {
    if views != [] {
      DispatchHides(Processed(s, views[0]), views[1..]);
    }
  }

  /** The dialog starts hidden, so it is visible after a run only if the run presented it. */
  lemma {:induction false} VisibleOnlyAfterPresent(s: DialogState, es: seq<DialogEvent>)
    ensures Run(s, es).visible ==> s.visible || exists k :: 0 <= k < |es| && es[k].Present?
    decreases |es|
  {
    if es != [] {
      StepVisibility(s, es[0]);
      VisibleOnlyAfterPresent(Step(s, es[0]), es[1..]);
      if Run(s, es).visible && !s.visible && !es[0].Present? {
        var k :| 0 <= k < |es[1..]| && es[1..][k].Present?;
        assert es[k + 1].Present?;
      }
    }
  }

  /** From construction: visible only after some `present`. */
  lemma HiddenUntilPresented(es: seq<DialogEvent>)
    ensures Run(Initial(), es).visible ==> exists k :: 0 <= k < |es| && es[k].Present?
  {
    VisibleOnlyAfterPresent(Initial(), es);
  }

  /** A run of three events is the three steps in turn. */
  lemma RunOfThree(s: DialogState, a: DialogEvent, b: DialogEvent, c: DialogEvent)
    ensures Run(s, [a, b, c]) == Step(Step(Step(s, a), b), c)
  {
    var es := [a, b, c];
    assert es[1..] == [b, c] && es[1..][1..] == [c] && es[1..][1..][1..] == [];
    var t := Step(Step(Step(s, a), b), c);
    assert Run(t, []) == t;
    assert Run(Step(Step(s, a), b), [c]) == t;
    assert Run(Step(s, a), [b, c]) == t;
  }

  /** A single bound handler processes once. */
  lemma DispatchOne(s: DialogState, v: ViewId)
    ensures Dispatched(s, [v]) == Processed(s, v)
  {
    assert [v][1..] == [];
  }

  /** Typing both inputs and clicking OK processes the typed text for the view bound to OK. */
  lemma TypeThenOk(s: DialogState, v: ViewId, min: string, max: string)
    requires s.okClick == [v]
    ensures Run(s, [TypeMinimum(min), TypeMaximum(max), ClickOk]) == Processed(s.(minimum := Typed(min), maximum := Typed(max)), v)
  {
    RunOfThree(s, TypeMinimum(min), TypeMaximum(max), ClickOk);
    var u := s.(minimum := Typed(min));
    var t := s.(minimum := Typed(min), maximum := Typed(max));
    assert Step(s, TypeMinimum(min)) == u;
    assert Step(u, TypeMaximum(max)) == t;
    assert t.okClick == [v];
    assert Step(t, ClickOk) == Dispatched(t, [v]);
    DispatchOne(t, v);
  }

  /** Typing "abc" and "10" then OK alerts once and leaves the dialog hidden and cleared. */
  lemma NonNumericAlerts(s: DialogState, v: ViewId, range: RangeValue)
    ensures var r := Run(s, [Configure(v, range), TypeMinimum("abc"), TypeMaximum("10"), ClickOk]);
      r.alerts == s.alerts + 1 && r.commits == s.commits && !r.visible && r.minimum == r.maximum == Empty
  {
    var es := [Configure(v, range), TypeMinimum("abc"), TypeMaximum("10"), ClickOk];
    var c := Configured(s, v, range);
    assert es[1..] == [TypeMinimum("abc"), TypeMaximum("10"), ClickOk];
    TypeThenOk(c, v, "abc", "10");
    NonNumericIsNaN("abc");
  }

  /** Typing "5" and "10" then OK commits the range 5 to 10 once, and typing them the other way round commits 10 to 5. */
  lemma NumericCommits(s: DialogState, v: ViewId)
    requires s.okClick == [v]
    ensures Step(s.(minimum := Typed("5"), maximum := Typed("10")), ClickOk).commits == s.commits + [Commit(v, Finite(5.0), Finite(10.0))]
    ensures Step(s.(minimum := Typed("10"), maximum := Typed("5")), ClickOk).commits == s.commits + [Commit(v, Finite(10.0), Finite(5.0))]
  {
    assert StringToNumber("5") == Finite(5.0) by {
      DecimalStringRoundTrip(5);
      assert DecimalString(5) == "5";
    }
    assert StringToNumber("10") == Finite(10.0) by {
      DecimalStringRoundTrip(10);
      assert DecimalString(10) == "10";
    }
    DispatchOne(s.(minimum := Typed("5"), maximum := Typed("10")), v);
    DispatchOne(s.(minimum := Typed("10"), maximum := Typed("5")), v);
  }

  /**
   * The dialog object. Its fields are the state above; the close and cancel
   * handlers and the input and button handlers are its methods.
   */
  class DataRangeDialog {
    var minimum: InputText
    var maximum: InputText
    var visible: bool
    var left: real
    var top: real
    var minimumKeyup: seq<ViewId>
    var maximumKeyup: seq<ViewId>
    var okClick: seq<ViewId>
    var commits: seq<Commit>
    var alerts: nat

    function State(): DialogState
      reads this
    {
      DialogState(minimum, maximum, visible, left, top, minimumKeyup, maximumKeyup, okClick, commits, alerts)
    }

    constructor ()
      ensures State() == Initial()
    {
      minimum, maximum := Empty, Empty;
      left, top := 0.0, 0.0;
      minimumKeyup, maximumKeyup, okClick := [], [], [];
      commits, alerts := [], 0;
      visible := false;
    }

    /** The header's close control. */
    method CloseHeader()
      modifies this
      ensures State() == Dismissed(old(State()))
    {
      minimum := Empty;
      maximum := Empty;
      left, top := 0.0, 0.0;
      visible := false;
    }

    /** The Cancel button. */
    method Cancel()
      modifies this
      ensures State() == Dismissed(old(State()))
    {
      minimum := Empty;
      maximum := Empty;
      left, top := 0.0, 0.0;
      visible := false;
    }

    method Configure(view: ViewId, dataRange: RangeValue)
      modifies this
      ensures State() == Configured(old(State()), view, dataRange)
    {
      var min, max;
      if dataRange.Range? {
        min := dataRange.min;
        max := dataRange.max;
      } else {
        min := Num(0.0);
        max := Num(100.0);
      }
      minimum := Preloaded(min);
      maximum := Preloaded(max);
      minimumKeyup := [];
      minimumKeyup := minimumKeyup + [view];
      maximumKeyup := [];
      maximumKeyup := maximumKeyup + [view];
      okClick := [];
      okClick := okClick + [view];
    }

    method ProcessResults(view: ViewId)
      modifies this
      ensures State() == Processed(old(State()), view)
    {
      var min := Converted(minimum);
      var max := Converted(maximum);
      if min == NaN || max == NaN {
        alerts := alerts + 1;
      } else {
        commits := commits + [Commit(view, min, max)];
      }
      minimum := Empty;
      maximum := Empty;
      left, top := 0.0, 0.0;
      visible := false;
    }

    /** `present($parent)`, with the offset computed from the parent's measurements passed in. */
    method Present(parentLeft: real, parentTop: real)
      modifies this
      ensures State() == Presented(old(State()), parentLeft, parentTop)
    {
      left, top := parentLeft, parentTop;
      visible := true;
    }

    method TypeMinimum(text: string)
      modifies this
      ensures State() == old(State()).(minimum := Typed(text))
    {
      minimum := Typed(text);
    }

    method TypeMaximum(text: string)
      modifies this
      ensures State() == old(State()).(maximum := Typed(text))
    {
      maximum := Typed(text);
    }

    /** Runs each bound handler in turn, as jQuery does for one event. */
    method Dispatch(views: seq<ViewId>)
      modifies this
      ensures State() == Dispatched(old(State()), views)
    {
      for i := 0 to |views|
        invariant Dispatched(State(), views[i..]) == Dispatched(old(State()), views)
      {
        assert views[i..][1..] == views[i + 1..];
        ProcessResults(views[i]);
      }
    }

    method KeyUpMinimum(keyCode: int)
      modifies this
      ensures State() == Step(old(State()), DialogEvent.KeyUpMinimum(keyCode))
    {
      if 13 == keyCode {
        Dispatch(minimumKeyup);
      }
    }

    method KeyUpMaximum(keyCode: int)
      modifies this
      ensures State() == Step(old(State()), DialogEvent.KeyUpMaximum(keyCode))
    {
      if 13 == keyCode {
        Dispatch(maximumKeyup);
      }
    }

    method ClickOk()
      modifies this
      ensures State() == Step(old(State()), DialogEvent.ClickOk)
    {
      Dispatch(okClick);
    }
  }
}
