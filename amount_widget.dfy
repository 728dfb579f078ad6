/**
 * The amount counter of the ordering widget (class AmountWidget,
 * src/js/script.js:307-371): an integer kept within the global bounds
 * Settings.DefaultMin and Settings.DefaultMax, set from the text of its input.
 */
module AmountWidgets {
  import opened Wrappers
  import opened Settings
  import opened JsParseInt

  /**
   * The bound checks of setValue applied in order: first pinned down to the
   * maximum, then up to the minimum.
   */
  function Clamp(n: int): (r: int)
    ensures DefaultMin <= r <= DefaultMax
    ensures DefaultMin <= n <= DefaultMax ==> r == n
    ensures n > DefaultMax ==> r == DefaultMax
    ensures n < DefaultMin ==> r == DefaultMin
  {
    var capped := if n >= DefaultMax then DefaultMax else n;
    if capped <= DefaultMin then DefaultMin else capped
  }

  /** The value setValue(raw) leaves behind, starting from `current`. */
  function SetValueResult(current: int, raw: string): (r: int)
    ensures DefaultMin <= r <= DefaultMax
    ensures ParseInt(raw).Some? && DefaultMin <= ParseInt(raw).value <= DefaultMax ==> r == ParseInt(raw).value
    ensures ParseInt(raw).None? ==> r == Clamp(current)
  {
    match ParseInt(raw)
    case Some(n) => Clamp(n)
    case None => Clamp(current)
  }

  /** An in-range value survives a setValue whose input parseInt rejects. */
  lemma UnparseableKeepsValue(current: int, raw: string)
    requires DefaultMin <= current <= DefaultMax
    requires ParseInt(raw) == None
    ensures SetValueResult(current, raw) == current
  {
  }

  /** Incrementing at the maximum and decrementing at the minimum change nothing. */
  lemma StepsStopAtBounds()
    ensures SetValueResult(DefaultMax, DecimalString(DefaultMax + 1)) == DefaultMax
    ensures SetValueResult(DefaultMin, DecimalString(DefaultMin - 1)) == DefaultMin
  {
    ParseIntRoundTrip(DefaultMax + 1);
    ParseIntRoundTrip(DefaultMin - 1);
  }

  /** A step from an in-range value moves it by one unless a bound stops it. */
  lemma StepMovesByOne(current: int, delta: int)
    requires DefaultMin <= current <= DefaultMax
    requires delta == 1 || delta == -1
    ensures SetValueResult(current, DecimalString(current + delta))
         == if DefaultMin <= current + delta <= DefaultMax then current + delta else current
  {
    ParseIntRoundTrip(current + delta);
  }

  class AmountWidget {
    /** thisWidget.value */
    var value: int
    /** The text of the widget's input element, which setValue rewrites. */
    var inputText: string
    /** How many 'updated' events announce() has dispatched. */
    var announced: nat

    ghost predicate Valid()
      reads this
    {
      DefaultMin <= value <= DefaultMax && inputText == DecimalString(value)
    }

    /**
     * The constructor calls setValue with the input's text, or with
     * DefaultValue when that text is empty.
     */
    constructor (initialText: string)
      requires initialText == "" || ParseInt(initialText).Some?
      ensures Valid() && announced == 1
      ensures value == Clamp(ParseInt(if initialText == "" then DecimalString(DefaultValue) else initialText).value)
    {
      value, inputText, announced := DefaultValue, initialText, 0;
      new;
      var raw := if initialText == "" then DecimalString(DefaultValue) else initialText;
      ParseIntRoundTrip(DefaultValue);
      SetValue(raw);
    }

    /**
     * setValue: parse the input; a parsed value replaces the current one; the
     * result is clamped into the bounds, written back to the input, and an
     * 'updated' event is announced whether or not anything changed.
     */
    method SetValue(raw: string)
      modifies this
      ensures value == SetValueResult(old(value), raw)
      ensures inputText == DecimalString(value)
      ensures announced == old(announced) + 1
      ensures Valid()
    {
      var newValue := ParseInt(raw);
      if newValue.Some? && value != newValue.value {
        value := newValue.value;
      }
      if value >= DefaultMax {
        value := DefaultMax;
      }
      if value <= DefaultMin {
        value := DefaultMin;
      }
      inputText := DecimalString(value);
      Announce();
    }

    /** announce(): dispatch one 'updated' event. */
    method Announce()
      modifies this`announced
      ensures announced == old(announced) + 1
    {
      announced := announced + 1;
    }

    /** The increase link: setValue(value + 1). */
    method Increment()
      requires Valid()
      modifies this
      ensures Valid() && announced == old(announced) + 1
      ensures value == Clamp(old(value) + 1)
      ensures value == if old(value) < DefaultMax then old(value) + 1 else old(value)
    {
      ParseIntRoundTrip(value + 1);
      SetValue(DecimalString(value + 1));
    }

    /** The decrease link: setValue(value - 1). */
    method Decrement()
      requires Valid()
      modifies this
      ensures Valid() && announced == old(announced) + 1
      ensures value == Clamp(old(value) - 1)
      ensures value == if old(value) > DefaultMin then old(value) - 1 else old(value)
    {
      ParseIntRoundTrip(value - 1);
      SetValue(DecimalString(value - 1));
    }
  }
}
