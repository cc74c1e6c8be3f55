/** The optional value, standing for a reference that may be null. */
module Wrappers {
  datatype Option<T> = None | Some(value: T)
}

/**
 * The .NET string operations the notification pipeline relies on:
 * `string.Join`, `string.Split(char)`, `string.Trim()` and `string.Substring(0, n)`.
 * Strings are sequences of characters; UTF-16 code units are not modelled.
 */
module Text {

  /** `char.IsWhiteSpace`: the Unicode categories Zs, Zl and Zp, plus U+0009..U+000D and U+0085. */
  predicate IsWhiteSpace(c: char) {
    var n := c as int;
    || (0x09 <= n <= 0x0D)
    || n == 0x20 || n == 0x85 || n == 0xA0 || n == 0x1680
    || (0x2000 <= n <= 0x200A)
    || n == 0x2028 || n == 0x2029 || n == 0x202F || n == 0x205F || n == 0x3000
  }

  predicate AllWhiteSpace(s: string) {
    forall i :: 0 <= i < |s| ==> IsWhiteSpace(s[i])
  }

  /** Neither end of `s` is white space (what `Trim` leaves behind). */
  predicate IsTrimmed(s: string) {
    s == [] || (!IsWhiteSpace(s[0]) && !IsWhiteSpace(s[|s| - 1]))
  }

  predicate StartsWith(s: string, prefix: string) {
    |prefix| <= |s| && s[..|prefix|] == prefix
  }

  function Min(a: int, b: int): int {
    if a <= b then a else b
  }

  /** The number of white-space characters `s` starts with. */
  function LeadingWhiteSpace(s: string): (n: nat)
    ensures n <= |s|
    ensures forall i :: 0 <= i < n ==> IsWhiteSpace(s[i])
    ensures n < |s| ==> !IsWhiteSpace(s[n])
  {
    if |s| > 0 && IsWhiteSpace(s[0]) then
      var n := 1 + LeadingWhiteSpace(s[1..]);
      assert forall i :: 1 <= i < n ==> s[i] == s[1..][i - 1];
      n
    else 0
  }

  /** The number of white-space characters `s` ends with. */
  function TrailingWhiteSpace(s: string): (n: nat)
    ensures n <= |s|
    ensures forall i :: |s| - n <= i < |s| ==> IsWhiteSpace(s[i])
    ensures n < |s| ==> !IsWhiteSpace(s[|s| - n - 1])
  {
    if |s| > 0 && IsWhiteSpace(s[|s| - 1]) then
      var n := 1 + TrailingWhiteSpace(s[..|s| - 1]);
      assert forall i :: |s| - n <= i < |s| - 1 ==> s[i] == s[..|s| - 1][i];
      n
    else 0
  }

  /**
   * `s.Trim()`: the slice of `s` between its leading and its trailing white space.
   * The result is trimmed, only white space lies outside it, and it is empty exactly
   * when `s` is all white space.
   */
  function Trim(s: string): (r: string)
    ensures IsTrimmed(r)
    ensures LeadingWhiteSpace(s) + |r| <= |s|
    ensures r == s[LeadingWhiteSpace(s)..LeadingWhiteSpace(s) + |r|]
    ensures forall i :: LeadingWhiteSpace(s) + |r| <= i < |s| ==> IsWhiteSpace(s[i])
    ensures r == [] <==> AllWhiteSpace(s)
  {
    var lead := LeadingWhiteSpace(s);
    var t := s[lead..];
    var trail := TrailingWhiteSpace(t);
    var r := t[..|t| - trail];
    assert forall i :: lead + |r| <= i < |s| ==> s[i] == t[i - lead];
    assert r != [] ==> r[0] == s[lead] && r[|r| - 1] == t[|t| - trail - 1];
    r
  }

  /** Trimming a string that is already trimmed leaves it unchanged. */
  lemma TrimTrimmed(s: string)
    requires IsTrimmed(s)
    ensures Trim(s) == s
  {
    assert LeadingWhiteSpace(s) == 0;
    assert s[0..] == s;
  }

  /** Every character of `Trim(s)` is a character of `s`. */
  lemma TrimChars(s: string, c: char)
    requires c in Trim(s)
    ensures c in s
  {
    var r := Trim(s);
    var lead := LeadingWhiteSpace(s);
    var k :| 0 <= k < |r| && r[k] == c;
    assert s[lead + k] == c;
  }

  /** `string.Join(sep, parts)`: the parts with `sep` between neighbours. */
  function Join(parts: seq<string>, sep: string): string {
    if |parts| == 0 then ""
    else if |parts| == 1 then parts[0]
    else parts[0] + sep + Join(parts[1..], sep)
  }

  /**
   * `s.Split(sep)`: the fields between separators, empty ones included. There is one
   * field more than there are separators, no field holds `sep`, and joining the fields
   * with `sep` gives `s` back.
   */
  function Split(s: string, sep: char): (fields: seq<string>)
    ensures |fields| >= 1
    ensures forall k :: 0 <= k < |fields| ==> sep !in fields[k]
    ensures Join(fields, [sep]) == s
  {
    if |s| == 0 then [""]
    else
      var rest := Split(s[1..], sep);
      if s[0] == sep then
        assert Join([""] + rest, [sep]) == [sep] + Join(rest, [sep]);
        [""] + rest
      else
        var fields := [[s[0]] + rest[0]] + rest[1..];
        assert Join(fields, [sep]) == [s[0]] + Join(rest, [sep]) by {
          if |rest| > 1 {
            assert fields[1..] == rest[1..];
          }
        }
        fields
  }

  /** Splitting a string that starts with a separator-free piece `p` extends the first field by `p`. */
  lemma {:induction false} SplitAfterPiece(p: string, x: string, sep: char)
    requires sep !in p
    ensures Split(p + x, sep) == [p + Split(x, sep)[0]] + Split(x, sep)[1..]
  {
    if p != [] {
      var f := Split(x, sep);
      assert (p + x)[0] == p[0] && (p + x)[1..] == p[1..] + x;
      SplitAfterPiece(p[1..], x, sep);
      var rest := [p[1..] + f[0]] + f[1..];
      assert rest[0] == p[1..] + f[0] && rest[1..] == f[1..];
      assert [p[0]] + (p[1..] + f[0]) == p + f[0];
    } else {
      var f := Split(x, sep);
      assert p + x == x;
      assert p + f[0] == f[0];
      assert [f[0]] + f[1..] == f;
    }
  }

  /** `Split` inverts `Join` when no part holds the separator. */
  lemma {:induction false} SplitJoin(parts: seq<string>, sep: char)
    requires |parts| >= 1
    requires forall k :: 0 <= k < |parts| ==> sep !in parts[k]
    ensures Split(Join(parts, [sep]), sep) == parts
  {
    if |parts| == 1 {
      SplitAfterPiece(parts[0], "", sep);
      assert parts[0] + "" == parts[0];
    } else {
      var tail := Join(parts[1..], [sep]);
      assert Join(parts, [sep]) == parts[0] + ([sep] + tail);
      SplitAfterPiece(parts[0], [sep] + tail, sep);
      assert ([sep] + tail)[0] == sep && ([sep] + tail)[1..] == tail;
      assert Split([sep] + tail, sep) == [""] + Split(tail, sep);
      assert parts[0] + "" == parts[0];
      SplitJoin(parts[1..], sep);
      assert parts == [parts[0]] + parts[1..];
    }
  }

  /**
   * The first `n` elements of `s`, or all of them when there are fewer: LINQ's
   * `Take(n)`, and what `validate_message` makes of a message with `Substring(0, n)`.
   */
  function Take<T>(s: seq<T>, n: nat): (r: seq<T>)
    ensures |r| == Min(|s|, n)
    ensures r == s[..|r|]
  {
    if |s| > n then s[..n] else s
  }

  /** Cutting twice to the same length cuts no further than cutting once. */
  lemma TakeIdempotent<T>(s: seq<T>, n: nat)
    ensures Take(Take(s, n), n) == Take(s, n)
  {
  }

  /** Every character of a field of `Split(s, sep)` occurs in `s`. */
  lemma {:induction false} SplitChars(s: string, sep: char, k: nat, c: char)
    requires k < |Split(s, sep)| && c in Split(s, sep)[k]
    ensures c in s
  {
    if |s| > 0 {
      var rest := Split(s[1..], sep);
      if s[0] == sep {
        assert Split(s, sep) == [""] + rest;
        SplitChars(s[1..], sep, k - 1, c);
      } else {
        assert Split(s, sep) == [[s[0]] + rest[0]] + rest[1..];
        if k == 0 {
          if c != s[0] {
            assert c in rest[0];
            SplitChars(s[1..], sep, 0, c);
          }
        } else {
          assert Split(s, sep)[k] == rest[k];
          SplitChars(s[1..], sep, k, c);
        }
      }
    }
  }

  /** A separator splits the string into the fields before it followed by the fields after it. */
  lemma {:induction false} SplitAtSeparator(s: string, t: string, sep: char)
    ensures Split(s + [sep] + t, sep) == Split(s, sep) + Split(t, sep)
  {
    if |s| == 0 {
      assert s + [sep] + t == [sep] + t;
      assert ([sep] + t)[1..] == t;
    } else {
      var u := s + [sep] + t;
      assert u[0] == s[0] && u[1..] == s[1..] + [sep] + t;
      SplitAtSeparator(s[1..], t, sep);
      var a, b := Split(s[1..], sep), Split(t, sep);
      if s[0] == sep {
        assert Split(u, sep) == [""] + (a + b);
        assert Split(s, sep) == [""] + a;
      } else {
        var ab := a + b;
        assert ab[0] == a[0] && ab[1..] == a[1..] + b;
        assert Split(u, sep) == [[s[0]] + ab[0]] + ab[1..];
        assert Split(s, sep) == [[s[0]] + a[0]] + a[1..];
      }
    }
  }
}
