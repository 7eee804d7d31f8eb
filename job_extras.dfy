/** The two template filters of the job pages: `split` and `trim`. */
module JobExtras {
  import Text

  /** What a template hands a filter: nothing (`None`), a string, or some other
      object, known here by the text `str()` gives for it. Other objects have
      no `split` taking a string separator. */
  datatype TemplateValue = NoneValue | Str(s: string) | Other(text: string)

  /** The separator `split` uses when the template gives none. */
  const DefaultSep: string := ","

  /** `split`: the pieces of a string around `sep`, empty pieces kept. `None`
      gives `[]`; an empty separator or a value that is not a string makes the
      split raise, and the filter answers `[]` then too. */
  function SplitFilter(value: TemplateValue, sep: string): (r: seq<string>)
    ensures value.Str? && sep != [] ==>
      && Text.Join(r, sep) == value.s
      && |r| == Text.Count(value.s, sep) + 1
      && forall k :: 0 <= k < |r| ==> !Text.Contains(r[k], sep)
    ensures !(value.Str? && sep != []) ==> r == []
  {
    match value
    case Str(s) =>
      if sep == [] then []
      else
        Text.JoinSplit(s, sep);
        Text.Split(s, sep)
    case _ => []
  }

  /** `trim`: `str(value).strip()`, and `''` for `None`. The result has no
      leading or trailing whitespace. */
  function TrimFilter(value: TemplateValue): (r: string)
    ensures Text.Trimmed(r, Text.Whitespace)
    ensures value.NoneValue? ==> r == ""
    ensures value.Str? ==> |r| <= |value.s|
    ensures value.Other? ==> |r| <= |value.text|
  {
    match value
    case NoneValue => ""
    case Str(s) => Text.Trim(s)
    case Other(text) => Text.Trim(text)
  }

  /** Splitting the empty string keeps its single empty piece. */
  lemma SplitEmpty()
    ensures SplitFilter(Str(""), DefaultSep) == [""]
  {
  }

  /** Every piece is a substring of the value, and the value holds a separator
      exactly when there is more than one piece. */
  lemma SplitPieces(s: string, sep: string, k: nat)
    requires sep != [] && k < |SplitFilter(Str(s), sep)|
    ensures Text.Contains(s, SplitFilter(Str(s), sep)[k])
    ensures |SplitFilter(Str(s), sep)| > 1 <==> Text.Find(s, sep).Some?
  {
    var parts := SplitFilter(Str(s), sep);
    Text.JoinContainsPart(parts, sep, k);
  }

  /** `trim` is idempotent: trimming its result changes nothing. */
  lemma TrimIdempotent(value: TemplateValue)
    ensures TrimFilter(Str(TrimFilter(value))) == TrimFilter(value)
  {
    match value
    case NoneValue =>
    case Str(s) => Text.StripIdempotent(s, Text.Whitespace);
    case Other(text) => Text.StripIdempotent(text, Text.Whitespace);
  }

  /** `trim` removes whitespace only, and only at the two ends: the result sits
      in the string where the leading whitespace ends, with nothing but
      whitespace before and after it. */
  lemma TrimRemovesOuterWhitespace(s: string)
    ensures Text.SliceBetween(s, |s| - |Text.StripLeft(s, Text.Whitespace)|, TrimFilter(Str(s)), Text.Whitespace)
  {
    assert TrimFilter(Str(s)) == Text.Strip(s, Text.Whitespace);
    Text.StripSlice(s, Text.Whitespace);
  }

  /** A string without outer whitespace comes back as it is. */
  lemma TrimKeepsTrimmed(s: string)
    requires Text.Trimmed(s, Text.Whitespace)
    ensures TrimFilter(Str(s)) == s
  {
    assert [] + s + [] == s;
    assert Text.AllIn([], Text.Whitespace);
    Text.StripOf([], s, [], Text.Whitespace);
  }
}
