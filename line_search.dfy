/** Line-number recovery: the search for `basename:digits` in the failure's
    message and then in its backtrace. Only the literal pattern
    `name ":" \d+` is modelled, as a leftmost search with a greedy digit run. */
module LineSearch {
  import opened Text
  import opened Paths

  /** The pattern matches at index i of s: the name, a colon, and a digit. */
  predicate MatchAt(s: string, name: string, i: nat)
  {
    i + |name| + 1 < |s| && s[i..i + |name|] == name && s[i + |name|] == ':' && IsDigit(s[i + |name| + 1])
  }

  ghost predicate HasMatch(s: string, name: string)
  {
    exists i: nat :: MatchAt(s, name, i)
  }

  /** The leftmost index, at i or after it, where the pattern matches. */
  function FirstMatchFrom(s: string, name: string, i: nat): (r: Option<nat>)
    requires i <= |s|
    ensures r.Some? ==> i <= r.value < |s| && MatchAt(s, name, r.value)
    ensures r.Some? ==> forall j :: i <= j < r.value ==> !MatchAt(s, name, j)
    ensures r.None? ==> forall j: nat :: i <= j ==> !MatchAt(s, name, j)
    decreases |s| - i
  {
    if i == |s| then None
    else if MatchAt(s, name, i) then Some(i)
    else FirstMatchFrom(s, name, i + 1)
  }

  /** `s =~ /name:(\d+)/` followed by `$1`: the digits of the leftmost match. */
  function Capture(s: string, name: string): (r: Option<string>)
    ensures r.Some? <==> HasMatch(s, name)
    ensures r.Some? ==> |r.value| > 0 && AllDigits(r.value)
  {
    match FirstMatchFrom(s, name, 0)
    case None => None
    case Some(i) => Some(DigitRun(s[i + |name| + 1..]))
  }

  /** `lines.find { |line| line =~ regexp }`, as an index: the first line, at k or after it, that matches. */
  function FirstMatchingLine(lines: seq<string>, name: string, k: nat): (r: Option<nat>)
    requires k <= |lines|
    ensures r.Some? ==> k <= r.value < |lines| && HasMatch(lines[r.value], name)
    ensures r.Some? ==> forall j :: k <= j < r.value ==> !HasMatch(lines[j], name)
    ensures r.None? ==> forall j :: k <= j < |lines| ==> !HasMatch(lines[j], name)
    decreases |lines| - k
  {
    if k == |lines| then None
    else if Capture(lines[k], name).Some? then Some(k)
    else FirstMatchingLine(lines, name, k + 1)
  }

  /** line_number without its memo: the pattern is built from the base name of
      the display file name; the message is searched first, then the backtrace. */
  function LineNumberOf(message: string, backtrace: seq<string>, fileName: string): (r: Option<string>)
    ensures r.Some? ==> |r.value| > 0 && AllDigits(r.value)
    ensures r.None? ==> !HasMatch(message, Basename(fileName))
  {
    var name := Basename(fileName);
    var fromMessage := Capture(message, name);
    if fromMessage.Some? then fromMessage
    else match FirstMatchingLine(backtrace, name, 0)
      case None => None
      case Some(k) => Capture(backtrace[k], name)
  }

  /** A match in the message wins; otherwise the first matching backtrace
      line supplies the digits; with no match anywhere there is no line number.
      A line number found is a non-empty run of digits, followed in its line
      by something other than a digit. */
  lemma LineNumberPriority(message: string, backtrace: seq<string>, fileName: string)
    ensures var name := Basename(fileName);
      var r := LineNumberOf(message, backtrace, fileName);
      && (HasMatch(message, name) ==> r == Capture(message, name))
      && (!HasMatch(message, name) && r.Some? ==>
            exists k :: 0 <= k < |backtrace| && HasMatch(backtrace[k], name) && r == Capture(backtrace[k], name)
              && forall j :: 0 <= j < k ==> !HasMatch(backtrace[j], name))
      && (r.None? <==> !HasMatch(message, name) && forall k :: 0 <= k < |backtrace| ==> !HasMatch(backtrace[k], name))
      && (r.Some? ==> |r.value| > 0 && AllDigits(r.value))
  {
    var name := Basename(fileName);
    if !HasMatch(message, name) {
      var found := FirstMatchingLine(backtrace, name, 0);
      if found.Some? {
        var k := found.value;
        assert HasMatch(backtrace[k], name);
        assert forall j :: 0 <= j < k ==> !HasMatch(backtrace[j], name);
        assert LineNumberOf(message, backtrace, fileName) == Capture(backtrace[k], name);
      }
    }
  }

  /** i is the leftmost match and d is the whole run of digits after its
      name and colon, up to the next non-digit. */
  predicate LeftmostGreedyAt(s: string, name: string, i: nat, d: string)
  {
    && MatchAt(s, name, i)
    && (forall j :: 0 <= j < i ==> !MatchAt(s, name, j))
    && var at := i + |name| + 1;
       at + |d| <= |s| && s[at..at + |d|] == d && (at + |d| == |s| || !IsDigit(s[at + |d|]))
  }

  /** The captured digits are exactly those that follow the name and colon at
      the leftmost match, and they run up to the next non-digit. */
  lemma CaptureIsLeftmostGreedy(s: string, name: string)
    requires HasMatch(s, name)
    ensures Capture(s, name).Some?
    ensures exists i: nat :: LeftmostGreedyAt(s, name, i, Capture(s, name).value)
  {
    var i := FirstMatchFrom(s, name, 0).value;
    var at := i + |name| + 1;
    var d := Capture(s, name).value;
    assert d == DigitRun(s[at..]);
    DigitRunInPlace(s, at);
    assert LeftmostGreedyAt(s, name, i, d);
  }

  /** The digit run taken from index at sits in s at that index and stops
      before the next non-digit. */
  lemma DigitRunInPlace(s: string, at: nat)
    requires at <= |s|
    ensures var d := DigitRun(s[at..]);
      at + |d| <= |s| && s[at..at + |d|] == d && (at + |d| == |s| || !IsDigit(s[at + |d|]))
  {
    var d := DigitRun(s[at..]);
    assert s[at..][..|d|] == s[at..at + |d|];
  }

  /** A string that starts with the name, a colon and digits yields those digits. */
  lemma CaptureAtStart(name: string, digits: string, rest: string)
    requires |digits| > 0 && AllDigits(digits)
    requires rest == [] || !IsDigit(rest[0])
    ensures Capture(name + ":" + digits + rest, name) == Some(digits)
  {
    var s := name + ":" + digits + rest;
    assert s[..|name|] == name && s[|name|] == ':' && s[|name| + 1] == digits[0];
    assert MatchAt(s, name, 0);
    assert s[|name| + 1..] == digits + rest;
    DigitRunStopsAt(digits, rest);
  }
}
