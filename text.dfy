/** Character and string helpers shared by the gateway and the client models. */
module Text {
  import opened Wrappers

  /** ASCII lower-casing of one character; every other character is left alone. */
  function LowerChar(c: char): char
  {
    if 'A' <= c <= 'Z' then (c as int + 32) as char else c
  }

  /** ASCII upper-casing of one character; every other character is left alone. */
  function UpperChar(c: char): char
  {
    if 'a' <= c <= 'z' then (c as int - 32) as char else c
  }

  function Lower(s: string): (r: string)
    ensures |r| == |s|
    ensures forall i :: 0 <= i < |s| ==> r[i] == LowerChar(s[i])
  {
    seq(|s|, i requires 0 <= i < |s| => LowerChar(s[i]))
  }

  predicate HasNoUpper(s: string)
  {
    forall i :: 0 <= i < |s| ==> !('A' <= s[i] <= 'Z')
  }

  lemma LowerOfLower(s: string)
    requires HasNoUpper(s)
    ensures Lower(s) == s
  {
  }

  /** Index of the first character of `s` that is in `stops`, or `|s|` when there is none. */
  function IndexOfAny(s: string, stops: set<char>): (r: nat)
    ensures r <= |s|
    ensures forall i :: 0 <= i < r ==> s[i] !in stops
    ensures r < |s| ==> s[r] in stops
  {
    if s == [] || s[0] in stops then 0 else 1 + IndexOfAny(s[1..], stops)
  }

  /** When no character of `a` is a stop, the search continues into `b`. */
  lemma {:induction false} IndexOfAnySkip(a: string, b: string, stops: set<char>)
    requires forall i :: 0 <= i < |a| ==> a[i] !in stops
    ensures IndexOfAny(a + b, stops) == |a| + IndexOfAny(b, stops)
  {
    if a != [] {
      assert (a + b)[0] == a[0];
      assert (a + b)[1..] == a[1..] + b;
      IndexOfAnySkip(a[1..], b, stops);
    } else {
      assert a + b == b;
    }
  }

  /** A stop inside `a` is found before anything appended to `a` is looked at. */
  lemma {:induction false} IndexOfAnyFound(a: string, b: string, stops: set<char>)
    requires IndexOfAny(a, stops) < |a|
    ensures IndexOfAny(a + b, stops) == IndexOfAny(a, stops)
  {
    if a[0] !in stops {
      assert (a + b)[1..] == a[1..] + b;
      IndexOfAnyFound(a[1..], b, stops);
    }
  }

  /** Index of the last occurrence of `c` in `s`. */
  function LastIndexOf(s: string, c: char): (r: Option<nat>)
    ensures r.Some? ==> r.value < |s| && s[r.value] == c && c !in s[r.value + 1..]
    ensures r.None? ==> c !in s
  {
    if s == [] then None
    else if s[|s| - 1] == c then Some(|s| - 1)
    else
      var r := LastIndexOf(s[..|s| - 1], c);
      assert s == s[..|s| - 1] + [s[|s| - 1]];
      r
  }

  /** JavaScript's `s.split(sep)` for a one-character separator. */
  function Split(s: string, sep: char): (parts: seq<string>)
    ensures |parts| >= 1
    ensures forall i :: 0 <= i < |parts| ==> sep !in parts[i]
    decreases |s|
  {
    var i := IndexOfAny(s, {sep});
    if i == |s| then [s] else [s[..i]] + Split(s[i + 1..], sep)
  }

  /** JavaScript's `parts.join(sep)` for a one-character separator. */
  function Join(parts: seq<string>, sep: char): string
  {
    if |parts| == 0 then ""
    else if |parts| == 1 then parts[0]
    else parts[0] + [sep] + Join(parts[1..], sep)
  }

  /** Splitting on a character and joining on it again gives back the string. */
  lemma {:induction false} JoinSplit(s: string, sep: char)
    ensures Join(Split(s, sep), sep) == s
    decreases |s|
  {
    var i := IndexOfAny(s, {sep});
    if i < |s| {
      var tail := Split(s[i + 1..], sep);
      JoinSplit(s[i + 1..], sep);
      assert Split(s, sep) == [s[..i]] + tail;
      assert s == s[..i] + [sep] + s[i + 1..];
    }
  }

  /** A text without the separator splits into itself alone. */
  lemma SplitWithoutSeparator(s: string, sep: char)
    requires sep !in s
    ensures Split(s, sep) == [s]
  {
    assert IndexOfAny(s, {sep}) == |s|;
  }

  /** The first part of a split is the text before the first separator, and
      the other parts joined again are the text after it. */
  lemma {:induction false} SplitFirst(s: string, sep: char)
    ensures var i := IndexOfAny(s, {sep});
            && Split(s, sep)[0] == s[..i]
            && Join(Split(s, sep)[1..], sep) == (if i < |s| then s[i + 1..] else "")
  {
    var i := IndexOfAny(s, {sep});
    if i < |s| {
      var tail := Split(s[i + 1..], sep);
      assert Split(s, sep) == [s[..i]] + tail;
      assert Split(s, sep)[1..] == tail;
      JoinSplit(s[i + 1..], sep);
    } else {
      assert Split(s, sep) == [s];
      assert s[..i] == s;
    }
  }

  /** Putting `x` in place of the first part of a split and joining again
      gives `x` followed by the text from the first separator on. */
  lemma JoinAfterFirst(x: string, s: string, sep: char)
    ensures Join([x] + Split(s, sep)[1..], sep) == x + s[IndexOfAny(s, {sep})..]
  {
    var i := IndexOfAny(s, {sep});
    if i == |s| {
      JoinWithoutSeparator(x, s, sep);
    } else {
      SplitTail(s, sep);
      JoinSplit(s[i + 1..], sep);
      JoinAfterSeparator(x, Split(s, sep)[1..], s, sep, i);
    }
  }

  lemma JoinWithoutSeparator(x: string, s: string, sep: char)
    requires IndexOfAny(s, {sep}) == |s|
    ensures Join([x] + Split(s, sep)[1..], sep) == x + s[|s|..]
  {
    assert Split(s, sep) == [s];
    assert [x] + Split(s, sep)[1..] == [x];
    assert s[|s|..] == [];
  }

  /** Joining `x` to parts that join to the text after position `i`, where
      the separator stands, gives `x` followed by the text from `i` on. */
  lemma JoinAfterSeparator(x: string, rest: seq<string>, s: string, sep: char, i: nat)
    requires i < |s| && s[i] == sep
    requires rest != [] && Join(rest, sep) == s[i + 1..]
    ensures Join([x] + rest, sep) == x + s[i..]
  {
    JoinCons(x, rest, sep);
    assert s[i..] == [sep] + s[i + 1..];
  }

  /** Past the first separator, the parts are those of the text after it. */
  lemma SplitTail(s: string, sep: char)
    requires IndexOfAny(s, {sep}) < |s|
    ensures Split(s, sep)[1..] == Split(s[IndexOfAny(s, {sep}) + 1..], sep)
  {
    var i := IndexOfAny(s, {sep});
    assert Split(s, sep) == [s[..i]] + Split(s[i + 1..], sep);
  }

  lemma JoinCons(x: string, rest: seq<string>, sep: char)
    requires rest != []
    ensures Join([x] + rest, sep) == x + [sep] + Join(rest, sep)
  {
    assert ([x] + rest)[1..] == rest;
  }

  /** The white space that JavaScript's `String.prototype.trim` removes
      (WhiteSpace and LineTerminator of the ECMAScript grammar). */
  predicate IsJsSpace(c: char)
  {
    c == '\t' || c == '\n' || c == '\U{000B}' || c == '\U{000C}' || c == '\r' || c == ' '
    || c == '\U{00A0}' || c == '\U{1680}' || ('\U{2000}' <= c <= '\U{200A}')
    || c == '\U{2028}' || c == '\U{2029}' || c == '\U{202F}' || c == '\U{205F}'
    || c == '\U{3000}' || c == '\U{FEFF}'
  }

  /** Drops the longest run of white space at the start of `s`. */
  function TrimStart(s: string): (r: string)
    ensures |r| <= |s| && r == s[|s| - |r|..]
    ensures forall i :: 0 <= i < |s| - |r| ==> IsJsSpace(s[i])
    ensures r == [] || !IsJsSpace(r[0])
  {
    if s != [] && IsJsSpace(s[0]) then TrimStart(s[1..]) else s
  }

  /** Drops the longest run of white space at the end of `s`. */
  function TrimEnd(s: string): (r: string)
    ensures |r| <= |s| && r == s[..|r|]
    ensures forall i :: |r| <= i < |s| ==> IsJsSpace(s[i])
    ensures r == [] || !IsJsSpace(r[|r| - 1])
  {
    if s != [] && IsJsSpace(s[|s| - 1]) then TrimEnd(s[..|s| - 1]) else s
  }

  /** JavaScript's `s.trim()`: the input without its leading and trailing white space. */
  function Trim(s: string): (r: string)
    ensures |r| <= |s|
    ensures r == [] || (!IsJsSpace(r[0]) && !IsJsSpace(r[|r| - 1]))
  {
    var t := TrimStart(s);
    var r := TrimEnd(t);
    assert r != [] ==> r[0] == t[0];
    r
  }

  predicate IsDigit(c: char)
  {
    '0' <= c <= '9'
  }

  predicate AllDigits(s: string)
  {
    forall i :: 0 <= i < |s| ==> IsDigit(s[i])
  }

  /** The longest prefix of `s` made of ASCII digits. */
  function LeadingDigits(s: string): (r: string)
    ensures AllDigits(r) && |r| <= |s| && r == s[..|r|]
    ensures |r| < |s| ==> !IsDigit(s[|r|])
  {
    if s != [] && IsDigit(s[0]) then [s[0]] + LeadingDigits(s[1..]) else ""
  }

  /** A string of digits is its own longest digit prefix. */
  lemma {:induction false} LeadingDigitsOfDigits(s: string)
    requires AllDigits(s)
    ensures LeadingDigits(s) == s
  {
    if s != [] {
      LeadingDigitsOfDigits(s[1..]);
    }
  }

  /** The number written in decimal by the digit string `s`. */
  function DigitsValue(s: string): nat
    requires AllDigits(s)
  {
    if s == [] then 0
    else DigitsValue(s[..|s| - 1]) * 10 + (s[|s| - 1] as int - '0' as int)
  }

  /** The shortest decimal writing of `n`. */
  function NatToDigits(n: nat): (r: string)
    ensures |r| > 0 && AllDigits(r)
  {
    if n < 10 then [('0' as int + n) as char]
    else NatToDigits(n / 10) + [('0' as int + n % 10) as char]
  }

  /** Reading back the decimal writing of a number gives the number. */
  lemma {:induction false} DigitsRoundTrip(n: nat)
    ensures DigitsValue(NatToDigits(n)) == n
  {
    if n >= 10 {
      DigitsRoundTrip(n / 10);
      var s := NatToDigits(n);
      assert s[..|s| - 1] == NatToDigits(n / 10);
    }
  }
}
