/** Strings, decimal numerals and the small pieces of Ruby's String and
    Array library that the error report is built from. */
module Text {

  datatype Option<T> = None | Some(value: T)

  predicate IsDigit(c: char) { '0' <= c <= '9' }

  predicate AllDigits(s: string) { forall i :: 0 <= i < |s| ==> IsDigit(s[i]) }

  function DigitValue(c: char): (d: nat)
    requires IsDigit(c)
    ensures d < 10
  {
    c as int - '0' as int
  }

  function DigitChar(d: nat): (c: char)
    requires d < 10
    ensures IsDigit(c) && DigitValue(c) == d
  {
    ('0' as int + d) as char
  }

  /** Integer#to_s of a non-negative integer: decimal, no leading zero. */
  function ShowNat(n: nat): (r: string)
    ensures |r| > 0 && AllDigits(r)
    ensures r[0] == '0' <==> n == 0
  {
    if n < 10 then [DigitChar(n)] else ShowNat(n / 10) + [DigitChar(n % 10)]
  }

  /** String#to_i of a string made of decimal digits only. */
  function ParseDigits(s: string): nat
    requires AllDigits(s)
  {
    if s == [] then 0 else ParseDigits(s[..|s| - 1]) * 10 + DigitValue(s[|s| - 1])
  }

  /** Reading a printed number back gives the number. */
  lemma {:induction false} ParseShow(n: nat)
    ensures ParseDigits(ShowNat(n)) == n
  {
    if n >= 10 {
      var s := ShowNat(n);
      assert s[..|s| - 1] == ShowNat(n / 10);
      ParseShow(n / 10);
    }
  }

  lemma {:induction false} ParseAtLeastFirstDigit(s: string)
    requires |s| > 0 && AllDigits(s)
    ensures ParseDigits(s) >= DigitValue(s[0])
  {
    if |s| > 1 {
      ParseAtLeastFirstDigit(s[..|s| - 1]);
    }
  }

  /** The longest prefix of s made of digits (the greedy `\d+` of a pattern). */
  function DigitRun(s: string): (r: string)
    ensures r <= s && AllDigits(r)
    ensures |r| < |s| ==> !IsDigit(s[|r|])
    ensures AllDigits(s) ==> r == s
  {
    if s != [] && IsDigit(s[0]) then [s[0]] + DigitRun(s[1..]) else []
  }

  /** String#to_i, for the strings it meets here: the value of the leading
      run of digits (0 when there is none). */
  function ToI(s: string): (r: nat)
    ensures AllDigits(s) ==> r == ParseDigits(s)
    ensures s == [] || !IsDigit(s[0]) ==> r == 0
  {
    ParseDigits(DigitRun(s))
  }

  /** The digits of a printed number end where a non-digit follows, so the
      number reads back from the front of any text that continues that way. */
  lemma ToIShowNat(n: nat, rest: string)
    requires rest == [] || !IsDigit(rest[0])
    ensures ToI(ShowNat(n) + rest) == n
  {
    DigitRunStopsAt(ShowNat(n), rest);
    ParseShow(n);
  }

  lemma {:induction false} DigitRunStopsAt(d: string, rest: string)
    requires AllDigits(d)
    requires rest == [] || !IsDigit(rest[0])
    ensures DigitRun(d + rest) == d
  {
    if d != [] {
      assert (d + rest)[1..] == d[1..] + rest;
      DigitRunStopsAt(d[1..], rest);
    }
  }

  /** Printing a numeral without a leading zero gives the numeral back. */
  lemma {:induction false} ShowParse(s: string)
    requires |s| > 0 && AllDigits(s)
    requires s[0] != '0' || |s| == 1
    ensures ShowNat(ParseDigits(s)) == s
  {
    if |s| > 1 {
      var front := s[..|s| - 1];
      ParseAtLeastFirstDigit(front);
      ShowParse(front);
      var n := ParseDigits(s);
      assert n / 10 == ParseDigits(front) && n % 10 == DigitValue(s[|s| - 1]);
    }
  }

  /** ' ' * n */
  function Spaces(n: nat): (r: string)
    ensures |r| == n && forall i :: 0 <= i < n ==> r[i] == ' '
  {
    seq(n, _ => ' ')
  }

  /** Array#sum over strings: the pieces concatenated in order. */
  function Concat(xs: seq<string>): (r: string)
    ensures xs != [] ==> xs[0] <= r
    ensures r == "" <==> forall k :: 0 <= k < |xs| ==> xs[k] == ""
  {
    if xs == [] then "" else xs[0] + Concat(xs[1..])
  }

  lemma {:induction false} ConcatSnoc(xs: seq<string>, x: string)
    ensures Concat(xs + [x]) == Concat(xs) + x
  {
    if xs != [] {
      assert (xs + [x])[1..] == xs[1..] + [x];
      ConcatSnoc(xs[1..], x);
    }
  }

  /** Array#join(sep). */
  function Join(xs: seq<string>, sep: string): (r: string)
    ensures xs != [] ==> xs[0] <= r
  {
    if xs == [] then ""
    else if |xs| == 1 then xs[0]
    else xs[0] + sep + Join(xs[1..], sep)
  }

  /** Appending one more element extends the joined text by the separator and that element. */
  lemma {:induction false} JoinSnoc(xs: seq<string>, x: string, sep: string)
    ensures Join(xs + [x], sep) == if xs == [] then x else Join(xs, sep) + sep + x
  {
    if |xs| > 1 {
      assert (xs + [x])[1..] == xs[1..] + [x];
      JoinSnoc(xs[1..], x, sep);
    } else if |xs| == 1 {
      assert (xs + [x])[1..] == [x];
    }
  }

  function Upcase(c: char): char
  {
    if 'a' <= c <= 'z' then (c as int - 32) as char else c
  }

  function Downcase(c: char): char
  {
    if 'A' <= c <= 'Z' then (c as int + 32) as char else c
  }

  function DowncaseAll(s: string): (r: string)
    ensures |r| == |s|
    ensures forall i :: 0 <= i < |s| ==> r[i] == Downcase(s[i])
  {
    if s == [] then [] else [Downcase(s[0])] + DowncaseAll(s[1..])
  }

  /** String#capitalize (ASCII, as in Ruby 1.8): first character upper case, the rest lower case. */
  function Capitalize(s: string): (r: string)
    ensures |r| == |s|
    ensures s != [] ==> r[0] == Upcase(s[0])
    ensures forall i :: 0 < i < |s| ==> r[i] == Downcase(s[i])
  {
    if s == [] then [] else [Upcase(s[0])] + DowncaseAll(s[1..])
  }

  lemma {:induction false} DowncaseAllConcat(a: string, b: string)
    ensures DowncaseAll(a + b) == DowncaseAll(a) + DowncaseAll(b)
  {
    if a != [] {
      assert (a + b)[1..] == a[1..] + b;
      DowncaseAllConcat(a[1..], b);
    } else {
      assert a + b == b;
    }
  }

  /** Only the letters A to Z change under Downcase. */
  lemma {:induction false} DowncaseUnchanged(s: string)
    requires forall i :: 0 <= i < |s| ==> !('A' <= s[i] <= 'Z')
    ensures DowncaseAll(s) == s
  {
    if s != [] {
      DowncaseUnchanged(s[1..]);
    }
  }

  /** Capitalising upper-cases the first character and lower-cases only the
      part of the rest that was not already lower case. */
  lemma CapitalizeSplit(c: char, m: string, g: string)
    requires DowncaseAll(m) == m
    ensures Capitalize([c] + (m + g)) == [Upcase(c)] + (m + DowncaseAll(g))
  {
    assert ([c] + (m + g))[1..] == m + g;
    DowncaseAllConcat(m, g);
  }
}
