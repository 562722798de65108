/** The optional value used wherever the source has a null or a missing result. */
module Wrappers {
  datatype Option<T> = None | Some(value: T)
}

/**
 * String handling shared by every command: ordinal case-insensitive comparison,
 * `String.Split(" ")` and `String.Join(" ", ...)`, `int.TryParse` with
 * `int.ToString()`, and `String.Trim()`.
 */
module Text {
  import opened Wrappers

  /** Upper-case folding of one character, as ordinal ignore-case comparison applies it (ASCII letters). */
  function Upper(c: char): char {
    if 'a' <= c <= 'z' then (c as int - 32) as char else c
  }

  /** `a.Equals(b, StringComparison.OrdinalIgnoreCase)`. */
  predicate EqualsIgnoreCase(a: string, b: string) {
    |a| == |b| && forall i :: 0 <= i < |a| ==> Upper(a[i]) == Upper(b[i])
  }

  /** `list.Contains(s, StringComparer.OrdinalIgnoreCase)`. */
  predicate ContainsIgnoreCase(list: seq<string>, s: string) {
    exists i :: 0 <= i < |list| && EqualsIgnoreCase(list[i], s)
  }

  /** `s.StartsWith(p, StringComparison.OrdinalIgnoreCase)`. */
  predicate StartsWithIgnoreCase(s: string, p: string) {
    |p| <= |s| && EqualsIgnoreCase(s[..|p|], p)
  }

  predicate NoSpace(s: string) {
    ' ' !in s
  }

  predicate NoSpaces(ts: seq<string>) {
    forall i :: 0 <= i < |ts| ==> NoSpace(ts[i])
  }

  /**
   * `s.Split(" ")`: the pieces between single spaces, keeping empty pieces
   * (two adjacent spaces give an empty piece, and "" gives [""]).
   */
  function SplitSpace(s: string): (r: seq<string>)
    ensures |r| >= 1
    ensures NoSpaces(r)
  {
    if |s| == 0 then [""]
    else
      var rest := SplitSpace(s[1..]);
      if s[0] == ' ' then [""] + rest
      else [[s[0]] + rest[0]] + rest[1..]
  }

  /** `String.Join(" ", ts)`. */
  function JoinSpace(ts: seq<string>): string {
    if |ts| == 0 then ""
    else if |ts| == 1 then ts[0]
    else ts[0] + " " + JoinSpace(ts[1..])
  }

  /** Splitting at single spaces and joining with single spaces gives back the line unchanged. */
  lemma {:induction false} JoinOfSplit(s: string)
    ensures JoinSpace(SplitSpace(s)) == s
  {
    if |s| > 0 {
      var rest := SplitSpace(s[1..]);
      JoinOfSplit(s[1..]);
      if s[0] == ' ' {
        assert SplitSpace(s) == [""] + rest;
        assert ([""] + rest)[1..] == rest;
      } else {
        var r := SplitSpace(s);
        assert r == [[s[0]] + rest[0]] + rest[1..];
        if |rest| == 1 {
          assert r == [[s[0]] + rest[0]];
        } else {
          assert r[1..] == rest[1..];
          assert JoinSpace(rest) == rest[0] + " " + JoinSpace(rest[1..]);
        }
        assert [s[0]] + s[1..] == s;
      }
    }
  }

  lemma {:induction false} SplitOfWord(a: string)
    requires NoSpace(a)
    ensures SplitSpace(a) == [a]
  {
    if |a| > 0 {
      SplitOfWord(a[1..]);
      assert [a[0]] + a[1..] == a;
    }
  }

  lemma {:induction false} SplitAfterWord(a: string, b: string)
    requires NoSpace(a)
    ensures SplitSpace(a + " " + b) == [a] + SplitSpace(b)
  {
    var s := a + " " + b;
    if |a| == 0 {
      assert s == " " + b;
      assert s[1..] == b;
    } else {
      assert s[1..] == a[1..] + " " + b;
      SplitAfterWord(a[1..], b);
      assert [a[0]] + a[1..] == a;
    }
  }

  /**
   * Joining words that contain no space and splitting the result again gives the
   * words back: a rejoined free-text tail still separates into the same words.
   */
  lemma {:induction false} SplitOfJoin(ts: seq<string>)
    requires |ts| >= 1 && NoSpaces(ts)
    ensures SplitSpace(JoinSpace(ts)) == ts
  {
    if |ts| == 1 {
      SplitOfWord(ts[0]);
    } else {
      SplitOfJoin(ts[1..]);
      SplitAfterWord(ts[0], JoinSpace(ts[1..]));
      assert [ts[0]] + ts[1..] == ts;
    }
  }

  /** Joining one more word appends a space and the word. */
  lemma {:induction false} JoinSnoc(ts: seq<string>, w: string)
    requires |ts| >= 1
    ensures JoinSpace(ts + [w]) == JoinSpace(ts) + " " + w
  {
    if |ts| > 1 {
      assert (ts + [w])[1..] == ts[1..] + [w];
      JoinSnoc(ts[1..], w);
    }
  }

  /** A line that splits into at least two pieces is its first piece, a space, and the rejoined rest. */
  lemma HeadSpaceTail(s: string)
    requires |SplitSpace(s)| >= 2
    ensures s == SplitSpace(s)[0] + " " + JoinSpace(SplitSpace(s)[1..])
  {
    JoinOfSplit(s);
  }

  // ---- int.TryParse and int.ToString ----

  const Int32Min: int := -0x8000_0000
  const Int32Max: int := 0x7FFF_FFFF

  predicate IsDigit(c: char) {
    '0' <= c <= '9'
  }

  predicate AllDigits(s: string) {
    forall i :: 0 <= i < |s| ==> IsDigit(s[i])
  }

  /** The number a string of decimal digits denotes. */
  function DigitsValue(s: string): nat
    requires AllDigits(s)
  {
    if |s| == 0 then 0
    else DigitsValue(s[..|s| - 1]) * 10 + (s[|s| - 1] as int - '0' as int)
  }

  function DigitChar(d: nat): (c: char)
    requires d < 10
    ensures IsDigit(c) && c as int - '0' as int == d
  {
    ('0' as int + d) as char
  }

  /** The shortest decimal spelling of a natural number. */
  function NatToDigits(n: nat): (r: string)
    ensures |r| >= 1 && AllDigits(r) && DigitsValue(r) == n
    ensures |r| > 1 ==> r[0] != '0'
  {
    if n < 10 then [DigitChar(n)]
    else
      var high := NatToDigits(n / 10);
      var r := high + [DigitChar(n % 10)];
      assert r[..|r| - 1] == high;
      r
  }

  /** `n.ToString()` for an `int`. */
  function IntToString(n: int): string {
    if n < 0 then "-" + NatToDigits(-n) else NatToDigits(n)
  }

  /**
   * `int.TryParse(s, out n)`: an optional leading sign and at least one decimal digit,
   * within the 32-bit range; otherwise no number.
   */
  function ParseInt(s: string): (r: Option<int>)
    ensures r.Some? ==> Int32Min <= r.value <= Int32Max
    ensures r.Some? ==> |s| >= 1
    ensures r.Some? ==> (var d := if s[0] == '-' || s[0] == '+' then s[1..] else s;
      |d| >= 1 && AllDigits(d))
  {
    var signed := |s| > 0 && (s[0] == '-' || s[0] == '+');
    var digits := if signed then s[1..] else s;
    if |digits| == 0 || !AllDigits(digits) then None
    else
      var d: int := DigitsValue(digits);
      var v := if signed && s[0] == '-' then -d else d;
      if Int32Min <= v <= Int32Max then Some(v) else None
  }

  /** Printing a 32-bit integer and parsing the text gives the same integer back. */
  lemma ParseOfIntToString(n: int)
    requires Int32Min <= n <= Int32Max
    ensures ParseInt(IntToString(n)) == Some(n)
  {
    var s := IntToString(n);
    if n < 0 {
      assert s[1..] == NatToDigits(-n);
    } else {
      var d := NatToDigits(n);
      assert s == d && IsDigit(d[0]);
    }
  }

  /** Text with a letter, a lone sign or a sign after a digit is not a number. */
  lemma ParseRejectsMalformed()
    ensures ParseInt("") == None && ParseInt("-") == None && ParseInt("+") == None
    ensures ParseInt("5a") == None && ParseInt("1-2") == None && ParseInt("abc") == None
  {
    assert !IsDigit('a') && !IsDigit('-');
    assert !AllDigits("5a") by { assert "5a"[1] == 'a'; }
    assert !AllDigits("1-2") by { assert "1-2"[1] == '-'; }
  }

  /** The text `ToString` prints for an integer is canonical. */
  lemma IntToStringCanonical(n: int)
    ensures Canonical(IntToString(n))
  {
    if n < 0 {
      var d := NatToDigits(-n);
      assert ("-" + d)[1..] == d;
    }
  }

  /** A string of digits that denotes its number: at least one digit, no leading zero. */
  predicate CanonicalDigits(d: string) {
    |d| >= 1 && AllDigits(d) && (|d| > 1 ==> d[0] != '0')
  }

  /** How `ToString` spells an `int`: canonical digits, after a minus sign when negative. */
  predicate Canonical(s: string) {
    CanonicalDigits(s) || (|s| >= 2 && s[0] == '-' && CanonicalDigits(s[1..]) && s[1..] != "0")
  }

  /** Digits that do not start with a zero denote a positive number. */
  lemma {:induction false} DigitsPositive(d: string)
    requires |d| >= 1 && AllDigits(d) && d[0] != '0'
    ensures DigitsValue(d) >= 1
    ensures |d| > 1 ==> DigitsValue(d) >= 10
  {
    if |d| > 1 {
      var h := d[..|d| - 1];
      assert h[0] == d[0];
      DigitsPositive(h);
    }
  }

  /** Canonical digits are exactly how their number is printed. */
  lemma {:induction false} DigitsOfValue(d: string)
    requires CanonicalDigits(d)
    ensures NatToDigits(DigitsValue(d)) == d
  {
    var n := DigitsValue(d);
    if |d| == 1 {
      assert d[..|d| - 1] == [];
      assert DigitsValue(d) == DigitsValue([]) * 10 + (d[0] as int - '0' as int);
      assert n == d[0] as int - '0' as int;
    } else {
      var h := d[..|d| - 1];
      assert h[0] == d[0];
      DigitsPositive(d);
      DigitsOfValue(h);
      assert n / 10 == DigitsValue(h) && n % 10 == d[|d| - 1] as int - '0' as int;
      assert NatToDigits(n) == h + [DigitChar(n % 10)];
      assert d == h + [d[|d| - 1]];
    }
  }

  /** Text that parses and is spelt the way `ToString` spells it prints back unchanged. */
  lemma IntToStringOfParse(s: string)
    requires Canonical(s) && ParseInt(s).Some?
    ensures IntToString(ParseInt(s).value) == s
  {
    if CanonicalDigits(s) {
      DigitsOfValue(s);
    } else {
      var d := s[1..];
      DigitsOfValue(d);
      DigitsPositive(d);
      assert s == "-" + d;
    }
  }

  /** A leading zero does not change the number. */
  lemma {:induction false} DigitsValueLeadingZero(d: string)
    requires AllDigits(d)
    ensures AllDigits("0" + d) && DigitsValue("0" + d) == DigitsValue(d)
  {
    var z := "0" + d;
    assert forall i :: 1 <= i < |z| ==> z[i] == d[i - 1];
    if |d| > 0 {
      assert z[..|z| - 1] == "0" + d[..|d| - 1];
      DigitsValueLeadingZero(d[..|d| - 1]);
    }
  }

  /** Digits within the 32-bit range parse to the number they denote. */
  lemma ParseDigits(d: string)
    requires |d| >= 1 && AllDigits(d) && DigitsValue(d) <= Int32Max
    ensures ParseInt(d) == Some(DigitsValue(d))
  {
    assert IsDigit(d[0]);
  }

  /** A minus sign before such digits negates the number. */
  lemma ParseNegative(d: string)
    requires |d| >= 1 && AllDigits(d) && DigitsValue(d) <= Int32Max + 1
    ensures ParseInt("-" + d) == Some(0 - DigitsValue(d))
  {
    var s := "-" + d;
    assert s[0] == '-' && s[1..] == d;
  }

  /** A leading `+` is read as no sign at all. */
  lemma ParsePlus(d: string)
    requires |d| > 0 ==> d[0] != '-' && d[0] != '+'
    ensures ParseInt("+" + d) == ParseInt(d)
  {
    assert ("+" + d)[1..] == d;
  }

  /** A leading zero is read as no digit at all. */
  lemma ParseLeadingZero(d: string)
    requires |d| >= 1 && AllDigits(d)
    ensures ParseInt("0" + d) == ParseInt(d)
  {
    assert IsDigit(d[0]);
    DigitsValueLeadingZero(d);
  }

  // ---- String.Trim ----

  /** `char.IsWhiteSpace` restricted to the Latin-1 range. */
  predicate IsWhiteSpace(c: char) {
    c == ' ' || '\t' <= c <= '\r' || c == '\U{0085}' || c == '\U{00A0}'
  }

  /** `s.TrimStart()`: drops leading white space. */
  function TrimStart(s: string): string {
    if |s| > 0 && IsWhiteSpace(s[0]) then TrimStart(s[1..]) else s
  }

  /** `s.TrimEnd()`: drops trailing white space. */
  function TrimEnd(s: string): string {
    if |s| > 0 && IsWhiteSpace(s[|s| - 1]) then TrimEnd(s[..|s| - 1]) else s
  }

  /** `s.Trim()`: drops leading and trailing white space. */
  function Trim(s: string): string {
    TrimEnd(TrimStart(s))
  }

  /** TrimStart keeps a suffix that starts with a non-white character, and drops only white space. */
  lemma {:induction false} TrimStartKeepsSuffix(s: string)
    ensures |TrimStart(s)| <= |s| && TrimStart(s) == s[|s| - |TrimStart(s)|..]
    ensures forall k :: 0 <= k < |s| - |TrimStart(s)| ==> IsWhiteSpace(s[k])
    ensures |TrimStart(s)| > 0 ==> !IsWhiteSpace(TrimStart(s)[0])
  {
    if |s| > 0 && IsWhiteSpace(s[0]) {
      TrimStartKeepsSuffix(s[1..]);
      forall k | 1 <= k < |s| - |TrimStart(s)| ensures IsWhiteSpace(s[k]) {
        assert s[k] == s[1..][k - 1];
      }
    }
  }

  /** TrimEnd keeps a prefix that ends with a non-white character, and drops only white space. */
  lemma {:induction false} TrimEndKeepsPrefix(s: string)
    ensures |TrimEnd(s)| <= |s| && TrimEnd(s) == s[..|TrimEnd(s)|]
    ensures forall k :: |TrimEnd(s)| <= k < |s| ==> IsWhiteSpace(s[k])
    ensures |TrimEnd(s)| > 0 ==> !IsWhiteSpace(TrimEnd(s)[|TrimEnd(s)| - 1])
  {
    if |s| > 0 && IsWhiteSpace(s[|s| - 1]) {
      var init := s[..|s| - 1];
      TrimEndKeepsPrefix(init);
      forall k | |TrimEnd(s)| <= k < |s| - 1 ensures IsWhiteSpace(s[k]) {
        assert s[k] == init[k];
      }
    }
  }

  lemma SliceOfSuffix(s: string, lead: nat, n: nat)
    requires lead + n <= |s|
    ensures s[lead..][..n] == s[lead..lead + n]
  {
  }

  /**
   * What `Trim` keeps is one contiguous slice of `s` that neither starts nor ends with
   * white space, and everything it drops is white space.
   */
  lemma TrimIsSlice(s: string, lead: nat)
    requires lead == |s| - |TrimStart(s)|
    ensures lead + |Trim(s)| <= |s| && Trim(s) == s[lead..lead + |Trim(s)|]
    ensures forall k :: 0 <= k < lead ==> IsWhiteSpace(s[k])
    ensures forall k :: lead + |Trim(s)| <= k < |s| ==> IsWhiteSpace(s[k])
    ensures |Trim(s)| > 0 ==> !IsWhiteSpace(Trim(s)[0]) && !IsWhiteSpace(Trim(s)[|Trim(s)| - 1])
  {
    var head := TrimStart(s);
    var r := Trim(s);
    TrimStartKeepsSuffix(s);
    TrimEndKeepsPrefix(head);
    assert r == TrimEnd(head);
    SliceOfSuffix(s, lead, |r|);
    forall k | lead + |r| <= k < |s| ensures IsWhiteSpace(s[k]) {
      assert s[k] == head[k - lead];
    }
    if |r| > 0 {
      assert r[0] == head[0];
    }
  }
}
