/** `source_extract`: the window of source lines around the failing line,
    each printed with its 1-based number. The file's lines are given as a
    sequence (the result of reading the file). */
module SourceWindow {
  import opened Text

  const SourceCodeRadius: nat := 3

  /** [num - SOURCE_CODE_RADIUS - 1, 0].max */
  function StartIndex(num: nat): (r: nat)
    ensures r + SourceCodeRadius + 1 >= num
    ensures r == 0 || r + SourceCodeRadius + 1 == num
  {
    if num - SourceCodeRadius - 1 > 0 then num - SourceCodeRadius - 1 else 0
  }

  /** [num + SOURCE_CODE_RADIUS - 1, length].min */
  function EndIndex(num: nat, len: nat): (r: nat)
    ensures r <= len && r <= num + SourceCodeRadius - 1
    ensures r == len || r == num + SourceCodeRadius - 1
  {
    if num + SourceCodeRadius - 1 < len then num + SourceCodeRadius - 1 else len
  }

  /** Array#[first..last] for non-negative bounds: nil when the range starts
      past the end, empty when it is reversed, otherwise clipped at the end. */
  function RangeSlice(a: seq<string>, first: nat, last: nat): (r: Option<seq<string>>)
    ensures r.None? <==> first > |a|
    ensures r.Some? ==> first + |r.value| <= |a| && r.value == a[first..first + |r.value|]
    ensures r.Some? && last < |a| && first <= last ==> |r.value| == last - first + 1
    ensures r.Some? && last >= |a| ==> first + |r.value| == |a|
  {
    if first > |a| then None
    else if last < first then Some([])
    else Some(a[first..if last + 1 < |a| then last + 1 else |a|])
  }

  /** source_code[start_on_line..end_on_line] */
  function Window(lines: seq<string>, num: nat): (r: Option<seq<string>>)
    ensures r.Some? ==> |r.value| <= 2 * SourceCodeRadius + 1
    ensures r.Some? ==> (StartIndex(num) + |r.value| <= |lines|
      && forall k :: 0 <= k < |r.value| ==> r.value[k] == lines[StartIndex(num) + k])
  {
    RangeSlice(lines, StartIndex(num), EndIndex(num, |lines|))
  }

  /** "#{indent}#{line_counter}: #{line}" */
  function NumberedLine(indentation: nat, n: nat, line: string): (r: string)
    ensures |r| == indentation + |ShowNat(n)| + 2 + |line|
  {
    Spaces(indentation) + ShowNat(n) + ": " + line
  }

  /** The window's lines, the k-th carrying the number start + k + 1. */
  function Numbered(window: seq<string>, start: nat, indentation: nat): (r: seq<string>)
    ensures |r| == |window|
  {
    seq(|window|, k requires 0 <= k < |window| => NumberedLine(indentation, start + k + 1, window[k]))
  }

  lemma NumberedSnoc(window: seq<string>, start: nat, indentation: nat, i: nat)
    requires i < |window|
    ensures Concat(Numbered(window[..i + 1], start, indentation))
         == Concat(Numbered(window[..i], start, indentation)) + NumberedLine(indentation, start + i + 1, window[i])
  {
    assert Numbered(window[..i + 1], start, indentation)
        == Numbered(window[..i], start, indentation) + [NumberedLine(indentation, start + i + 1, window[i])];
    ConcatSnoc(Numbered(window[..i], start, indentation), NumberedLine(indentation, start + i + 1, window[i]));
  }

  /** What source_extract(indentation) returns for a given line number: nothing
      without a line number or when the window starts past the end of the file. */
  function ExtractOf(lines: seq<string>, lineNumber: Option<string>, indentation: nat): (r: Option<string>)
    ensures r.Some? <==> lineNumber.Some? && ToI(lineNumber.value) <= |lines| + SourceCodeRadius + 1
  {
    match lineNumber
    case None => None
    case Some(digits) =>
      var num := ToI(digits);
      match Window(lines, num)
      case None => None
      case Some(w) => Some(Concat(Numbered(w, StartIndex(num), indentation)))
  }

  /** The body of source_extract once the line number is known: the window is
      sliced, then its lines are numbered. */
  method SourceExtractText(lines: seq<string>, lineNumber: Option<string>, indentation: nat)
    returns (r: Option<string>)
    ensures r == ExtractOf(lines, lineNumber, indentation)
  {
    if lineNumber.None? {
      return None;
    }
    var num := ToI(lineNumber.value);
    var startOnLine := StartIndex(num);
    var endOnLine := EndIndex(num, |lines|);
    var slice := RangeSlice(lines, startOnLine, endOnLine);
    if slice.None? {
      return None;
    }
    var text := NumberWindow(slice.value, startOnLine, indentation);
    r := Some(text);
  }

  /** `source_code.sum do |line| ... end`: a running counter starting at
      start numbers the window's lines, and the numbered lines are joined in
      order. */
  method NumberWindow(sourceCode: seq<string>, start: nat, indentation: nat) returns (text: string)
    ensures text == Concat(Numbered(sourceCode, start, indentation))
  {
    var lineCounter := start;
    text := "";
    var i := 0;
    while i < |sourceCode|
      invariant 0 <= i <= |sourceCode|
      invariant lineCounter == start + i
      invariant text == Concat(Numbered(sourceCode[..i], start, indentation))
    {
      lineCounter := lineCounter + 1;
      NumberedSnoc(sourceCode, start, indentation, i);
      text := text + NumberedLine(indentation, lineCounter, sourceCode[i]);
      i := i + 1;
    }
    assert sourceCode[..i] == sourceCode;
  }

  /** Every window line is the file line of the same number, the numbers stay
      within 1 and the file's length, and they are never more than three away
      from the reported line. */
  lemma WindowWithinFile(lines: seq<string>, num: nat)
    requires Window(lines, num).Some?
    ensures var w := Window(lines, num).value; var start := StartIndex(num);
      && start + |w| <= |lines|
      && (forall k :: 0 <= k < |w| ==> w[k] == lines[start + k] && 1 <= start + k + 1 <= |lines|)
      && (|w| > 0 ==> num - SourceCodeRadius <= start + 1 && start + |w| <= num + SourceCodeRadius)
      && |w| <= 2 * SourceCodeRadius + 1
  {
  }

  /** Away from both ends of the file the window is exactly seven lines,
      numbered from num - 3 to num + 3. */
  lemma FullWindow(lines: seq<string>, num: nat)
    requires num >= SourceCodeRadius + 1 && num + SourceCodeRadius <= |lines|
    ensures Window(lines, num) == Some(lines[num - SourceCodeRadius - 1..num + SourceCodeRadius])
    ensures |Window(lines, num).value| == 2 * SourceCodeRadius + 1
    ensures StartIndex(num) + 1 == num - SourceCodeRadius
  {
  }

  /** The reported line itself is in the window whenever it is a line of the file. */
  lemma WindowHoldsReportedLine(lines: seq<string>, num: nat)
    requires 1 <= num <= |lines|
    ensures Window(lines, num).Some?
    ensures var w := Window(lines, num).value;
      num - 1 - StartIndex(num) < |w| && w[num - 1 - StartIndex(num)] == lines[num - 1]
  {
  }

  /** The slice is nil, and nothing is printed, exactly when the reported line
      is more than four lines past the end of the file. */
  lemma WindowMissing(lines: seq<string>, num: nat)
    ensures Window(lines, num).None? <==> num > |lines| + SourceCodeRadius + 1
  {
  }

  /** Each printed line is the indentation, then a number that reads back as
      the line's own number, then ": " and the file line unchanged; the
      numbers go up by one from start + 1. */
  lemma NumberedLinesReadBack(window: seq<string>, start: nat, indentation: nat, k: nat)
    requires k < |window|
    ensures var l := Numbered(window, start, indentation)[k];
      var n := ShowNat(start + k + 1);
      && |l| == indentation + |n| + 2 + |window[k]|
      && l[..indentation] == Spaces(indentation)
      && ToI(l[indentation..]) == start + k + 1
      && l[indentation + |n|..] == ": " + window[k]
  {
    var n := ShowNat(start + k + 1);
    var l := NumberedLine(indentation, start + k + 1, window[k]);
    assert l == Numbered(window, start, indentation)[k];
    assert l == Spaces(indentation) + n + (": " + window[k]);
    SplitThree(Spaces(indentation), n, ": " + window[k]);
    ToIShowNat(start + k + 1, ": " + window[k]);
  }

  lemma SplitThree(a: string, b: string, c: string)
    ensures var s := a + b + c;
      && |s| == |a| + |b| + |c|
      && s[..|a|] == a && s[|a|..] == b + c && s[|a| + |b|..] == c
  {
    var s := a + b + c;
    assert s[|a|..] == b + c;
  }
}
