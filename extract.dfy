/**
 * Field extraction from the node lists a query returned
 * (`HLTVBase.get_text_by_xpath`, `get_all_by_xpath`,
 * `raise_exception_if_not_found`).  Query evaluation itself is not
 * modelled: a query result is the list of its nodes' texts, None for an
 * element without text.
 */
module Extract {
  import opened Wrappers
  import opened Strings

  /** The texts a query returned; None for an element whose text is absent. */
  type Raw = seq<Option<string>>

  /** A result of `get_text_by_xpath`, or the IndexError it lets escape. */
  datatype Extracted = Value(text: Option<string>) | IndexError

  /** The extracted values that survive the filter: trimmed, and empty ones dropped. */
  function Kept(raw: Raw): (r: seq<string>)
    ensures |r| <= |raw|
  {
    if |raw| == 0 then []
    else if raw[0].Some? && Trim(raw[0].value) != "" then [Trim(raw[0].value)] + Kept(raw[1..])
    else Kept(raw[1..])
  }

  /** Every kept value is non-empty and already trimmed. */
  lemma {:induction false} KeptClean(raw: Raw)
    ensures forall i :: 0 <= i < |Kept(raw)| ==> Kept(raw)[i] != "" && Trim(Kept(raw)[i]) == Kept(raw)[i]
  {
    if |raw| > 0 {
      KeptClean(raw[1..]);
      if raw[0].Some? && Trim(raw[0].value) != "" {
        TrimIdempotent(raw[0].value);
      }
    }
  }

  /** When every text is present, trimmed and non-blank, all are kept, in order. */
  lemma {:induction false} KeptOfTexts(raw: Raw)
    requires forall i :: 0 <= i < |raw| ==> raw[i].Some? && raw[i].value != "" && Trim(raw[i].value) == raw[i].value
    ensures |Kept(raw)| == |raw|
    ensures forall i :: 0 <= i < |raw| ==> Kept(raw)[i] == raw[i].value
  {
    if |raw| > 0 {
      KeptOfTexts(raw[1..]);
      var v := raw[0].value;
      assert raw[0] == Some(v) && Trim(v) == v && v != "";
      assert Kept(raw) == [v] + Kept(raw[1..]);
    }
  }

  /** Python's `xs[i]` for an index that may be negative; None where it raises IndexError. */
  function PyIndex<T>(xs: seq<T>, i: int): (r: Option<T>)
    ensures r.Some? <==> -|xs| <= i < |xs|
    ensures r.Some? && i >= 0 ==> r.value == xs[i]
    ensures r.Some? && i < 0 ==> r.value == xs[|xs| + i]
  {
    if 0 <= i < |xs| then Some(xs[i])
    else if -|xs| <= i < 0 then Some(xs[|xs| + i])
    else None
  }

  /** A slice bound as Python normalises it: counted from the end when negative, then clamped. */
  function SliceBound(i: int, len: nat): (b: nat)
    ensures b <= len
  {
    if i < 0 then (if i + len < 0 then 0 else i + len) else if i > len then len else i
  }

  /** `xs[from:to]` with either bound optional. */
  function PySlice<T>(xs: seq<T>, from: Option<int>, to: Option<int>): (r: seq<T>)
    ensures |r| <= |xs|
    ensures from.None? && to.None? ==> r == xs
  {
    var lo := if from.Some? then SliceBound(from.value, |xs|) else 0;
    var hi := if to.Some? then SliceBound(to.value, |xs|) else |xs|;
    if lo < hi then xs[lo..hi] else []
  }

  /** A slice is a contiguous run of the list. */
  lemma PySliceIsRun<T>(xs: seq<T>, from: Option<int>, to: Option<int>)
    ensures exists lo, hi :: 0 <= lo <= hi <= |xs| && PySlice(xs, from, to) == xs[lo..hi]
  {
    var lo := if from.Some? then SliceBound(from.value, |xs|) else 0;
    var hi := if to.Some? then SliceBound(to.value, |xs|) else |xs|;
    if lo < hi {
      assert PySlice(xs, from, to) == xs[lo..hi];
    } else {
      assert PySlice(xs, from, to) == xs[0..0];
    }
  }

  /**
   * `get_text_by_xpath(xpath, pos, iloc, iloc_from, iloc_to, join_str)`:
   * None when the query found nothing; otherwise the kept values, selected
   * by `iloc` if given, else sliced, then joined when `join_str` is
   * non-empty, else indexed by `pos`.
   */
  function GetText(raw: Raw, pos: int, iloc: Option<int>, ilocFrom: Option<int>, ilocTo: Option<int>, joinStr: Option<string>)
    : (r: Extracted)
    ensures raw == [] ==> r == Value(None)
    ensures r == IndexError <==> raw != [] && iloc.Some? && iloc.value < -|Kept(raw)|
  {
    if raw == [] then Value(None)
    else
      var elements := Kept(raw);
      if iloc.Some? then
        if iloc.value < |elements| then
          match PyIndex(elements, iloc.value)
          case Some(e) => Value(Some(e))
          case None => IndexError
        else Value(None)
      else
        var sliced := PySlice(elements, ilocFrom, ilocTo);
        if Truthy(joinStr) then Value(Some(Join(sliced, joinStr.value)))
        else Value(PyIndex(sliced, pos))
  }

  /** `get_text_by_xpath(xpath)` with every option at its default. */
  function Text(raw: Raw): Option<string> {
    GetText(raw, 0, None, None, None, None).text
  }

  /** Without a join, a text returned is one of the kept values: trimmed and non-empty. */
  lemma GetTextPicksKept(raw: Raw, pos: int, iloc: Option<int>, ilocFrom: Option<int>, ilocTo: Option<int>, joinStr: Option<string>, t: string)
    requires !Truthy(joinStr) || iloc.Some?
    requires GetText(raw, pos, iloc, ilocFrom, ilocTo, joinStr) == Value(Some(t))
    ensures t in Kept(raw) && t != "" && Trim(t) == t
  {
    var elements := Kept(raw);
    KeptClean(raw);
    if iloc.None? {
      PySliceIsRun(elements, ilocFrom, ilocTo);
      var lo, hi :| 0 <= lo <= hi <= |elements| && PySlice(elements, ilocFrom, ilocTo) == elements[lo..hi];
      var sliced := elements[lo..hi];
      var k :| 0 <= k < |sliced| && sliced[k] == t;
      assert elements[lo + k] == t;
    }
  }

  /** An integer `iloc` overrides the slice bounds, the join string and `pos`. */
  lemma IlocTakesPrecedence(raw: Raw, i: int, pos1: int, from1: Option<int>, to1: Option<int>, join1: Option<string>,
                            pos2: int, from2: Option<int>, to2: Option<int>, join2: Option<string>)
    ensures GetText(raw, pos1, Some(i), from1, to1, join1) == GetText(raw, pos2, Some(i), from2, to2, join2)
    ensures raw != [] && 0 <= i < |Kept(raw)| ==> GetText(raw, pos1, Some(i), from1, to1, join1) == Value(Some(Kept(raw)[i]))
    ensures raw != [] && i >= |Kept(raw)| ==> GetText(raw, pos1, Some(i), from1, to1, join1) == Value(None)
  {
  }

  /** A non-empty join string joins every kept value, and gives "" when none was kept. */
  lemma JoinJoinsAll(raw: Raw, pos: int, sep: string)
    requires raw != [] && sep != ""
    ensures GetText(raw, pos, None, None, None, Some(sep)) == Value(Some(Join(Kept(raw), sep)))
    ensures Kept(raw) == [] ==> GetText(raw, pos, None, None, None, Some(sep)) == Value(Some(""))
  {
  }

  /** With the defaults, the first kept value, or None when nothing was kept. */
  lemma TextIsFirstKept(raw: Raw)
    ensures Text(raw) == if Kept(raw) == [] then None else Some(Kept(raw)[0])
  {
  }

  /** A text found with the defaults is non-empty and trimmed. */
  lemma TextClean(raw: Raw)
    ensures Text(raw).Some? ==> Text(raw).value != "" && Trim(Text(raw).value) == Text(raw).value
  {
    KeptClean(raw);
  }

  /** A query whose every text is blank yields None, like one that found nothing. */
  lemma BlankTextsGiveNone(raw: Raw)
    requires forall i :: 0 <= i < |raw| ==> raw[i].None? || Trim(raw[i].value) == ""
    ensures Text(raw) == None
  {
    assert Kept(raw) == [] by { KeptOfBlanks(raw); }
  }

  lemma {:induction false} KeptOfBlanks(raw: Raw)
    requires forall i :: 0 <= i < |raw| ==> raw[i].None? || Trim(raw[i].value) == ""
    ensures Kept(raw) == []
  {
    if |raw| > 0 { KeptOfBlanks(raw[1..]); }
  }

  /** `get_all_by_xpath`: every non-empty string, trimmed; blank ones become "". */
  function GetAll(raw: seq<string>): (r: seq<string>)
    ensures |r| <= |raw|
    ensures forall i :: 0 <= i < |r| ==> Trim(r[i]) == r[i]
  {
    if |raw| == 0 then []
    else if raw[0] != "" then
      TrimIdempotent(raw[0]);
      [Trim(raw[0])] + GetAll(raw[1..])
    else GetAll(raw[1..])
  }

  /** Exactly the empty strings are dropped. */
  lemma {:induction false} GetAllLength(raw: seq<string>)
    ensures |GetAll(raw)| == |raw| - multiset(raw)[""]
  {
    if |raw| > 0 {
      GetAllLength(raw[1..]);
      assert raw == [raw[0]] + raw[1..];
    }
  }

  /** `raise_exception_if_not_found`: raises 404 exactly when the default text is missing or empty. */
  function NotFoundStatus(raw: Raw): (r: Option<int>)
    ensures r.Some? <==> Kept(raw) == []
    ensures r.Some? ==> r.value == 404
  {
    KeptClean(raw);
    if !Truthy(Text(raw)) then Some(404) else None
  }
}
