// Strings as the service uses them: splitting on a separator, joining, and decimal printing.
module Text {
  import opened Basics

  // str.split(sep) for a one-character separator
  function Split(s: string, sep: char): (parts: seq<string>)
    ensures |parts| >= 1
  {
    if s == [] then [[]]
    else
      var rest := Split(s[1..], sep);
      if s[0] == sep then [[]] + rest else [[s[0]] + rest[0]] + rest[1..]
  }

  // sep.join(parts)
  function Join(parts: seq<string>, sep: char): string
  {
    if |parts| == 0 then []
    else if |parts| == 1 then parts[0]
    else parts[0] + [sep] + Join(parts[1..], sep)
  }

  ghost predicate AllFree(parts: seq<string>, sep: char) {
    forall i :: 0 <= i < |parts| ==> sep !in parts[i]
  }

  // Split is the inverse of Join, and its pieces never hold the separator.
  lemma {:induction false} SplitSound(s: string, sep: char)
    ensures Join(Split(s, sep), sep) == s
    ensures AllFree(Split(s, sep), sep)
  {
    if s != [] {
      SplitSound(s[1..], sep);
      var rest := Split(s[1..], sep);
      if s[0] == sep {
        assert ([[]] + rest)[1..] == rest;
      } else {
        var parts := [[s[0]] + rest[0]] + rest[1..];
        assert parts[1..] == rest[1..];
        assert s == [s[0]] + s[1..];
      }
    }
  }

  lemma {:induction false} SplitFree(s: string, sep: char)
    requires sep !in s
    ensures Split(s, sep) == [s]
  {
    if s != [] {
      SplitFree(s[1..], sep);
      assert [s[0]] + s[1..] == s;
    }
  }

  // Splitting "head + sep + tail" peels a separator-free head.
  lemma {:induction false} SplitHead(head: string, tail: string, sep: char)
    requires sep !in head
    ensures Split(head + [sep] + tail, sep) == [head] + Split(tail, sep)
  {
    var s := head + [sep] + tail;
    if head == [] {
      assert s[1..] == tail;
    } else {
      assert s[1..] == head[1..] + [sep] + tail;
      SplitHead(head[1..], tail, sep);
      assert ([head[1..]] + Split(tail, sep))[1..] == Split(tail, sep);
      assert [head[0]] + head[1..] == head;
      assert s[0] == head[0];
    }
  }

  // What one more character in front does to the pieces.
  function Grown(c: char, rest: seq<string>, sep: char): seq<string>
    requires |rest| >= 1
  {
    if c == sep then [[]] + rest else [[c] + rest[0]] + rest[1..]
  }

  lemma GrownConcat(c: char, rest: seq<string>, more: seq<string>, sep: char)
    requires |rest| >= 1
    ensures Grown(c, rest + more, sep) == Grown(c, rest, sep) + more
  {
    assert (rest + more)[1..] == rest[1..] + more;
  }

  // Splitting at a separator splits both sides on their own.
  lemma {:induction false} SplitConcat(x: string, y: string, sep: char)
    ensures Split(x + [sep] + y, sep) == Split(x, sep) + Split(y, sep)
  {
    var s := x + [sep] + y;
    if x == [] {
      assert s[1..] == y;
    } else {
      var tail := x[1..] + [sep] + y;
      assert s[1..] == tail && s[0] == x[0];
      assert Split(s, sep) == Grown(x[0], Split(tail, sep), sep);
      assert Split(x, sep) == Grown(x[0], Split(x[1..], sep), sep);
      hide Split, Grown;
      SplitConcat(x[1..], y, sep);
      GrownConcat(x[0], Split(x[1..], sep), Split(y, sep), sep);
    }
  }

  lemma {:induction false} SplitJoin(parts: seq<string>, sep: char)
    requires |parts| >= 1 && AllFree(parts, sep)
    ensures Split(Join(parts, sep), sep) == parts
  {
    if |parts| == 1 {
      SplitFree(parts[0], sep);
    } else {
      SplitHead(parts[0], Join(parts[1..], sep), sep);
      SplitJoin(parts[1..], sep);
    }
  }

  // ----- decimal printing -----

  function Digit(d: nat): (c: char)
    requires d < 10
    ensures '0' <= c <= '9'
  {
    '0' + d as char
  }

  predicate IsDigit(c: char) { '0' <= c <= '9' }

  predicate AllDigits(s: string) { forall i :: 0 <= i < |s| ==> IsDigit(s[i]) }

  // str(n) for a natural number
  function Dec(n: nat): (s: string)
    ensures |s| >= 1 && AllDigits(s)
  {
    if n < 10 then [Digit(n)] else Dec(n / 10) + [Digit(n % 10)]
  }

  // The value of a string of ASCII digits.
  function DigitsValue(s: string): nat
    requires AllDigits(s)
  {
    if s == [] then 0
    else DigitsValue(s[..|s| - 1]) * 10 + (s[|s| - 1] as int - '0' as int)
  }

  lemma {:induction false} DecValue(n: nat)
    ensures DigitsValue(Dec(n)) == n
  {
    if n >= 10 {
      DecValue(n / 10);
      var s := Dec(n);
      assert s[..|s| - 1] == Dec(n / 10);
    } else {
      var s := Dec(n);
      assert s[..0] == [];
      assert DigitsValue(s) == DigitsValue(s[..0]) * 10 + (s[0] as int - '0' as int);
    }
  }

  lemma DecInjective(m: nat, n: nat)
    requires Dec(m) == Dec(n)
    ensures m == n
  {
    DecValue(m);
    DecValue(n);
  }

  // ----- stripping -----

  function StripLeft(s: string, blank: char -> bool): string {
    if s != [] && blank(s[0]) then StripLeft(s[1..], blank) else s
  }

  function StripRight(s: string, blank: char -> bool): string {
    if s != [] && blank(s[|s| - 1]) then StripRight(s[..|s| - 1], blank) else s
  }

  function Strip(s: string, blank: char -> bool): string { StripRight(StripLeft(s, blank), blank) }

  predicate AllBlank(s: string, blank: char -> bool) { forall i :: 0 <= i < |s| ==> blank(s[i]) }

  // Blank-free at both ends.
  predicate Tight(s: string, blank: char -> bool) { s != [] ==> !blank(s[0]) && !blank(s[|s| - 1]) }

  // Stripping takes off blanks at both ends, and leaves none there.
  lemma {:induction false} StripExact(s: string, blank: char -> bool) returns (left: string, right: string)
    ensures s == left + Strip(s, blank) + right && AllBlank(left, blank) && AllBlank(right, blank)
    ensures Tight(Strip(s, blank), blank)
  {
    left := StripLeftExact(s, blank);
    right := StripRightExact(StripLeft(s, blank), blank);
    var t := Strip(s, blank);
    if t != [] {
      assert StripLeft(s, blank)[0] == t[0];
    }
  }

  lemma {:induction false} StripLeftExact(s: string, blank: char -> bool) returns (left: string)
    ensures s == left + StripLeft(s, blank) && AllBlank(left, blank)
    ensures StripLeft(s, blank) != [] ==> !blank(StripLeft(s, blank)[0])
  {
    left := [];
    if s != [] && blank(s[0]) {
      left := StripLeftExact(s[1..], blank);
      left := [s[0]] + left;
      assert s == [s[0]] + s[1..];
    }
  }

  lemma {:induction false} StripRightExact(s: string, blank: char -> bool) returns (right: string)
    ensures s == StripRight(s, blank) + right && AllBlank(right, blank)
    ensures StripRight(s, blank) != [] ==> !blank(StripRight(s, blank)[|StripRight(s, blank)| - 1])
  {
    right := [];
    if s != [] && blank(s[|s| - 1]) {
      right := StripRightExact(s[..|s| - 1], blank);
      right := right + [s[|s| - 1]];
      assert s == s[..|s| - 1] + [s[|s| - 1]];
    }
  }

  lemma StripTight(s: string, blank: char -> bool)
    ensures Strip(s, blank) == s <==> Tight(s, blank)
  {
    var left, right := StripExact(s, blank);
    assert Tight(s, blank) && s != [] ==> StripLeft(s, blank) == s;
  }

  // ----- int() of a string -----

  // The blanks int() takes around an ASCII numeral.
  predicate IsNumeralBlank(c: char) { c == ' ' || '\t' <= c <= '\r' }

  // Digits, with single underscores between them.
  predicate IsNumeral(s: string) {
    && s != [] && IsDigit(s[0]) && IsDigit(s[|s| - 1])
    && forall i :: 0 <= i < |s| ==> IsDigit(s[i]) || (s[i] == '_' && i + 1 < |s| && s[i + 1] != '_')
  }

  function DigitsOf(s: string): (r: string)
    ensures AllDigits(r)
  {
    if s == [] then []
    else (if IsDigit(s[0]) then [s[0]] else []) + DigitsOf(s[1..])
  }

  // int(s): None where Python raises ValueError
  function ParseInt(s: string): (r: Option<int>)
    ensures r.Some? && r.value < 0 ==> '-' in s
  {
    var t := Strip(s, IsNumeralBlank);
    StripMembers(s, IsNumeralBlank);
    if t != [] && t[0] in {'+', '-'} then
      if IsNumeral(t[1..]) then
        var n: int := DigitsValue(DigitsOf(t[1..]));
        Some(if t[0] == '-' then -n else n)
      else None
    else if IsNumeral(t) then Some(DigitsValue(DigitsOf(t)))
    else None
  }

  lemma {:induction false} StripMembers(s: string, blank: char -> bool)
    ensures forall c :: c in Strip(s, blank) ==> c in s
  {
    StripLeftMembers(s, blank);
    StripRightMembers(StripLeft(s, blank), blank);
  }

  lemma {:induction false} StripLeftMembers(s: string, blank: char -> bool)
    ensures forall c :: c in StripLeft(s, blank) ==> c in s
  {
    if s != [] && blank(s[0]) {
      StripLeftMembers(s[1..], blank);
    }
  }

  lemma {:induction false} StripRightMembers(s: string, blank: char -> bool)
    ensures forall c :: c in StripRight(s, blank) ==> c in s
  {
    if s != [] && blank(s[|s| - 1]) {
      StripRightMembers(s[..|s| - 1], blank);
    }
  }

  lemma {:induction false} DigitsOnly(s: string)
    requires AllDigits(s)
    ensures DigitsOf(s) == s
  {
    if s != [] {
      DigitsOnly(s[1..]);
    }
  }

  // int() undoes str() on natural numbers.
  lemma ParseIntDec(n: nat)
    ensures ParseInt(Dec(n)) == Some(n)
  {
    var s := Dec(n);
    assert IsDigit(s[0]) && IsDigit(s[|s| - 1]);
    assert Strip(s, IsNumeralBlank) == s;
    DigitsOnly(s);
    DecValue(n);
  }

  lemma DigitsNumeral(d: string)
    requires d != [] && AllDigits(d)
    ensures IsNumeral(d) && DigitsOf(d) == d
  {
    DigitsOnly(d);
    forall i | 0 <= i < |d| ensures IsDigit(d[i]) {}
  }

  lemma SignedTight(sign: char, d: string)
    requires sign in {'+', '-'} && d != [] && AllDigits(d)
    ensures Strip([sign] + d, IsNumeralBlank) == [sign] + d
  {
    var s := [sign] + d;
    assert s[|s| - 1] == d[|d| - 1] && IsDigit(d[|d| - 1]);
    StripTight(s, IsNumeralBlank);
    hide Strip;
  }

  lemma SignedDigits(sign: char, d: string)
    requires sign in {'+', '-'} && d != [] && AllDigits(d)
    ensures var n: int := DigitsValue(d); ParseInt([sign] + d) == Some(if sign == '-' then -n else n)
  {
    hide Strip, DigitsValue, DigitsOf, IsNumeral, AllDigits;
    SignedTight(sign, d);
    DigitsNumeral(d);
    assert ([sign] + d)[0] == sign && ([sign] + d)[1..] == d;
  }

  // A sign in front is read, blanks around the number do not matter, and nothing is read where
  // there is no digit.
  lemma ParseIntSigned(n: nat)
    ensures var m: int := n; ParseInt("-" + Dec(n)) == Some(-m) && ParseInt("+" + Dec(n)) == Some(m)
  {
    hide ParseInt, Dec, DigitsValue, AllDigits;
    assert "-" == ['-'] && "+" == ['+'];
    SignedDigits('-', Dec(n));
    SignedDigits('+', Dec(n));
    DecValue(n);
  }

  lemma ParseIntTight(s: string)
    ensures ParseInt(s) == ParseInt(Strip(s, IsNumeralBlank))
    ensures ParseInt(s).Some? ==> exists i :: 0 <= i < |s| && IsDigit(s[i])
  {
    var left, right := StripExact(s, IsNumeralBlank);
    var t := Strip(s, IsNumeralBlank);
    StripTight(t, IsNumeralBlank);
    if ParseInt(s).Some? {
      assert IsDigit(t[|t| - 1]) && s[|left| + |t| - 1] == t[|t| - 1];
    }
  }

  // Single underscores between digits do not count.
  lemma {:induction false} UnderscoreReads(a: string, b: string)
    requires AllDigits(a) && AllDigits(b)
    ensures DigitsOf(a + "_" + b) == a + b
  {
    if a == [] {
      assert a + "_" + b == "_" + b && ("_" + b)[1..] == b;
      DigitsOnly(b);
    } else {
      var s := a + "_" + b;
      assert s[1..] == a[1..] + "_" + b;
      UnderscoreReads(a[1..], b);
      assert a == [a[0]] + a[1..];
    }
  }

  ghost predicate Numerals(parts: seq<string>) {
    forall i :: 0 <= i < |parts| ==> parts[i] != [] && AllDigits(parts[i])
  }

  // A numeral is digits with single underscores between them.
  lemma {:induction false} NumeralExact(s: string)
    ensures IsNumeral(s) <==> Numerals(Split(s, '_'))
    decreases |s|
  {
    hide Split, Numerals;
    if '_' !in s {
      SplitFree(s, '_');
      if IsNumeral(s) {
        forall i | 0 <= i < |s| ensures IsDigit(s[i]) {
          assert s[i] in s;
          NumeralAt(s, i);
        }
      }
      NumeralsCons(s, []);
      NoNumerals();
      assert [s] + [] == [s];
    } else {
      hide IsNumeral;
      var k := FirstOccurrence(s, '_');
      var head, tail := s[..k], s[k + 1..];
      assert s == head + ['_'] + tail;
      SplitHead(head, tail, '_');
      NumeralExact(tail);
      NumeralParts(s, k);
      NumeralsCons(head, Split(tail, '_'));
    }
  }

  lemma NoNumerals()
    ensures Numerals([])
  {
  }

  lemma NumeralsCons(head: string, parts: seq<string>)
    ensures Numerals([head] + parts) <==> head != [] && AllDigits(head) && Numerals(parts)
  {
    var all := [head] + parts;
    assert all[0] == head && forall i :: 0 <= i < |parts| ==> all[i + 1] == parts[i];
    hide AllDigits;
  }

  lemma {:induction false} FirstOccurrence(s: string, c: char) returns (k: nat)
    requires c in s
    ensures k < |s| && s[k] == c && c !in s[..k]
  {
    if s[0] == c {
      k := 0;
    } else {
      k := FirstOccurrence(s[1..], c);
      assert s[..k + 1] == [s[0]] + s[1..][..k];
      k := k + 1;
    }
  }

  lemma NumeralParts(s: string, k: nat)
    requires k < |s| && s[k] == '_' && '_' !in s[..k]
    ensures IsNumeral(s) <==> s[..k] != [] && AllDigits(s[..k]) && IsNumeral(s[k + 1..])
  {
    if IsNumeral(s) {
      NumeralSplits(s, k);
    } else if s[..k] != [] && AllDigits(s[..k]) && IsNumeral(s[k + 1..]) {
      NumeralJoins(s, k);
    }
    hide IsNumeral, AllDigits;
  }

  lemma NumeralAt(s: string, i: nat)
    requires IsNumeral(s) && i < |s|
    ensures IsDigit(s[i]) || (0 < i && s[i] == '_' && i + 1 < |s| && s[i + 1] != '_')
  {
    var digit := IsDigit(s[i]);
    assert digit || (s[i] == '_' && i + 1 < |s| && s[i + 1] != '_');
  }

  lemma NumeralSplits(s: string, k: nat)
    requires k < |s| && s[k] == '_' && '_' !in s[..k] && IsNumeral(s)
    ensures s[..k] != [] && AllDigits(s[..k]) && IsNumeral(s[k + 1..])
  {
    var head, tail := s[..k], s[k + 1..];
    forall i | 0 <= i < k ensures IsDigit(head[i]) {
      assert head[i] == s[i] && head[i] in head;
      NumeralAt(s, i);
    }
    NumeralAt(s, k);
    NumeralAt(s, k + 1);
    assert tail[0] == s[k + 1] && tail[|tail| - 1] == s[|s| - 1];
    forall i | 0 <= i < |tail|
      ensures IsDigit(tail[i]) || (tail[i] == '_' && i + 1 < |tail| && tail[i + 1] != '_')
    {
      assert tail[i] == s[k + 1 + i];
      assert i + 1 < |tail| ==> tail[i + 1] == s[k + 2 + i];
    }
  }

  lemma NumeralJoins(s: string, k: nat)
    requires k < |s| && s[k] == '_'
    requires s[..k] != [] && AllDigits(s[..k]) && IsNumeral(s[k + 1..])
    ensures IsNumeral(s)
  {
    var head, tail := s[..k], s[k + 1..];
    assert s[0] == head[0] && s[|s| - 1] == tail[|tail| - 1] && s[k + 1] == tail[0];
    forall i | 0 <= i < |s| ensures IsDigit(s[i]) || (s[i] == '_' && i + 1 < |s| && s[i + 1] != '_') {
      if i > k {
        assert tail[i - k - 1] == s[i];
        assert i + 1 < |s| ==> tail[i - k] == s[i + 1];
      } else if i < k {
        assert head[i] == s[i];
      }
    }
  }
}
