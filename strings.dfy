/**
 * The JavaScript string operations the form designer relies on: template
 * interpolation of numbers, `split`, `join`, `trim`, ASCII case mapping and
 * the newline re-indentation `replace(/\n/g, '\n  ')`.
 */
module Strings {

  /** Concatenation of a list of fragments, in order (`+=` in a `forEach`). */
  function Concat(parts: seq<string>): string
  {
    if parts == [] then "" else parts[0] + Concat(parts[1..])
  }

  /** Proof helper: string concatenation is associative. */
  lemma AppendAssoc(a: string, b: string, c: string)
    ensures (a + b) + c == a + (b + c)
  {
  }

  lemma {:induction false} ConcatAppend(a: seq<string>, b: seq<string>)
    ensures Concat(a + b) == Concat(a) + Concat(b)
  {
    if a == [] {
      assert a + b == b;
    } else {
      assert (a + b)[1..] == a[1..] + b;
      ConcatAppend(a[1..], b);
    }
  }

  // ---------------------------------------------------------------------------
  // Decimal rendering of numbers, as `${n}` in a template literal
  // ---------------------------------------------------------------------------

  predicate IsDigit(c: char)
  {
    '0' <= c <= '9'
  }

  function DigitChar(d: nat): (c: char)
    requires d < 10
    ensures IsDigit(c) && (c as int) - ('0' as int) == d
  {
    (('0' as int) + d) as char
  }

  /** The shortest decimal numeral of `n`. */
  function NatToString(n: nat): (r: string)
    ensures |r| > 0
    ensures forall i :: 0 <= i < |r| ==> IsDigit(r[i])
    ensures |r| > 1 ==> r[0] != '0'
  {
    if n < 10 then [DigitChar(n)] else NatToString(n / 10) + [DigitChar(n % 10)]
  }

  /** The value a string of digits denotes. */
  function DigitsValue(s: string): nat
    requires forall i :: 0 <= i < |s| ==> IsDigit(s[i])
  {
    if s == [] then 0
    else DigitsValue(s[..|s| - 1]) * 10 + DigitValue(s[|s| - 1])
  }

  function DigitValue(c: char): (d: nat)
    requires IsDigit(c)
    ensures d < 10
  {
    (c as int) - ('0' as int)
  }

  /** Reading back a rendered number gives the number. */
  lemma {:induction false} NatToStringRoundTrip(n: nat)
    ensures DigitsValue(NatToString(n)) == n
  {
    if n >= 10 {
      var r := NatToString(n);
      assert r[..|r| - 1] == NatToString(n / 10);
      NatToStringRoundTrip(n / 10);
    }
  }

  /** Distinct numbers render to distinct numerals. */
  lemma NatToStringInjective(m: nat, n: nat)
    requires NatToString(m) == NatToString(n)
    ensures m == n
  {
    NatToStringRoundTrip(m);
    NatToStringRoundTrip(n);
  }

  /** A prefix followed by a number determines the number (`field_7` is not `field_8`). */
  lemma PrefixedNumberInjective(prefix: string, m: nat, n: nat)
    requires prefix + NatToString(m) == prefix + NatToString(n)
    ensures m == n
  {
    assert NatToString(m) == (prefix + NatToString(m))[|prefix|..];
    assert NatToString(n) == (prefix + NatToString(n))[|prefix|..];
    NatToStringInjective(m, n);
  }

  /** `${i}` for an integer `i`. */
  function IntToString(i: int): (r: string)
    ensures i >= 0 ==> r == NatToString(i)
    ensures i < 0 ==> r == "-" + NatToString(-i)
  {
    if i < 0 then "-" + NatToString(-i) else NatToString(i)
  }

  // ---------------------------------------------------------------------------
  // split and join
  // ---------------------------------------------------------------------------

  /** `s.split(sep)` for a one-character separator: `"".split(",")` is `[""]`. */
  function Split(s: string, sep: char): (r: seq<string>)
    ensures |r| > 0
    ensures forall i :: 0 <= i < |r| ==> sep !in r[i]
  {
    if s == [] then [""]
    else
      var rest := Split(s[1..], sep);
      if s[0] == sep then [""] + rest
      else [[s[0]] + rest[0]] + rest[1..]
  }

  /** `parts.join(sep)`. */
  function Join(parts: seq<string>, sep: string): string
  {
    if parts == [] then ""
    else if |parts| == 1 then parts[0]
    else parts[0] + sep + Join(parts[1..], sep)
  }

  /** Joining the pieces of a split with the separator restores the string. */
  lemma {:induction false} JoinSplit(s: string, sep: char)
    ensures Join(Split(s, sep), [sep]) == s
  {
    if s != [] {
      var rest := Split(s[1..], sep);
      JoinSplit(s[1..], sep);
      if s[0] == sep {
        assert Split(s, sep) == [""] + rest;
        assert ([""] + rest)[1..] == rest;
      } else {
        var r := Split(s, sep);
        assert r == [[s[0]] + rest[0]] + rest[1..];
        if |rest| == 1 {
          assert s[1..] == rest[0];
        } else {
          assert r[1..] == rest[1..];
          assert Join(rest, [sep]) == rest[0] + [sep] + Join(rest[1..], [sep]);
          assert s == [s[0]] + s[1..];
        }
      }
    }
  }

  /** `s.split(sep)` has one piece more than `s` has separators. */
  lemma {:induction false} SplitCount(s: string, sep: char)
    ensures |Split(s, sep)| == CountChar(s, sep) + 1
  {
    if s != [] {
      SplitCount(s[1..], sep);
    }
  }

  /** A piece without the separator is split into itself. */
  lemma {:induction false} SplitWithoutSeparator(a: string, sep: char)
    requires sep !in a
    ensures Split(a, sep) == [a]
  {
    if a != [] {
      SplitWithoutSeparator(a[1..], sep);
      assert [a[0]] + a[1..] == a;
    }
  }

  /** Splitting at the first separator. */
  lemma {:induction false} SplitAtFirstSeparator(a: string, sep: char, b: string)
    requires sep !in a
    ensures Split(a + [sep] + b, sep) == [a] + Split(b, sep)
  {
    if a == [] {
      assert a + [sep] + b == [sep] + b;
      assert ([sep] + b)[1..] == b;
    } else {
      assert (a + [sep] + b)[1..] == a[1..] + [sep] + b;
      SplitAtFirstSeparator(a[1..], sep, b);
      assert [a[0]] + a[1..] == a;
    }
  }

  // ---------------------------------------------------------------------------
  // trim
  // ---------------------------------------------------------------------------

  /** The white space and line terminators `String.prototype.trim` removes. */
  predicate IsWhitespace(c: char)
  {
    c == ' ' || c == '\t' || c == '\n' || c == '\r' || c == '\U{000B}' || c == '\U{000C}'
    || c == '\U{00A0}' || c == '\U{1680}' || ('\U{2000}' <= c <= '\U{200A}')
    || c == '\U{2028}' || c == '\U{2029}' || c == '\U{202F}' || c == '\U{205F}'
    || c == '\U{3000}' || c == '\U{FEFF}'
  }

  predicate AllWhitespace(s: string)
  {
    forall i :: 0 <= i < |s| ==> IsWhitespace(s[i])
  }

  /** Neither end of `s` is white space. */
  predicate IsTrimmed(s: string)
  {
    s == [] || (!IsWhitespace(s[0]) && !IsWhitespace(s[|s| - 1]))
  }

  /** Drops the longest all-white-space prefix. */
  function TrimStart(s: string): string
  {
    if s != [] && IsWhitespace(s[0]) then TrimStart(s[1..]) else s
  }

  /** Drops the longest all-white-space suffix. */
  function TrimEnd(s: string): string
  {
    if s != [] && IsWhitespace(s[|s| - 1]) then TrimEnd(s[..|s| - 1]) else s
  }

  /** `s.trim()`. */
  function Trim(s: string): string
  {
    TrimEnd(TrimStart(s))
  }

  /** TrimStart keeps a suffix of `s`, drops only white space, and stops at the first other character. */
  lemma {:induction false} TrimStartShape(s: string)
    ensures var r := TrimStart(s);
      && |r| <= |s| && r == s[|s| - |r|..]
      && AllWhitespace(s[..|s| - |r|])
      && (r == [] || !IsWhitespace(r[0]))
  {
    if s != [] && IsWhitespace(s[0]) {
      TrimStartShape(s[1..]);
      var r := TrimStart(s);
      assert s[1..][|s| - 1 - |r|..] == s[|s| - |r|..];
      var w := s[..|s| - |r|];
      forall i | 0 <= i < |w| ensures IsWhitespace(w[i]) {
        if i > 0 {
          assert w[i] == s[1..][..|s| - 1 - |r|][i - 1];
        }
      }
    } else {
      assert s[..0] == [];
    }
  }

  /** TrimEnd keeps a prefix of `s`, drops only white space, and stops at the last other character. */
  lemma {:induction false} TrimEndShape(s: string)
    ensures var r := TrimEnd(s);
      && |r| <= |s| && r == s[..|r|]
      && AllWhitespace(s[|r|..])
      && (r == [] || !IsWhitespace(r[|r| - 1]))
  {
    if s != [] && IsWhitespace(s[|s| - 1]) {
      var u := s[..|s| - 1];
      TrimEndShape(u);
      var r := TrimEnd(s);
      assert u[..|r|] == s[..|r|];
      forall i | 0 <= i < |s| - |r| ensures IsWhitespace(s[|r|..][i]) {
        if i < |s| - 1 - |r| {
          assert s[|r|..][i] == u[|r|..][i];
        }
      }
    } else {
      assert s[|s|..] == [];
    }
  }

  /**
   * Trimming leaves neither end white space, empties exactly the all-white-space
   * strings, and introduces no character.
   */
  lemma TrimProperties(s: string)
    ensures IsTrimmed(Trim(s))
    ensures AllWhitespace(s) <==> Trim(s) == []
    ensures forall c :: c in Trim(s) ==> c in s
  {
    var u := TrimStart(s);
    var t := Trim(s);
    TrimStartShape(s);
    TrimEndShape(u);
    forall c | c in t ensures c in s {
      var i :| 0 <= i < |t| && t[i] == c;
      assert t[i] == u[i] == s[|s| - |u| + i];
    }
    if t != [] {
      assert t[0] == u[0];
    }
    if t == [] {
      assert u[|t|..] == u;
      assert u == [];
      assert s[..|s| - |u|] == s;
    }
    if AllWhitespace(s) {
      AllWhitespaceTrimsAway(s);
    }
  }

  lemma {:induction false} AllWhitespaceTrimsAway(s: string)
    requires AllWhitespace(s)
    ensures TrimStart(s) == []
  {
    if s != [] {
      assert AllWhitespace(s[1..]) by {
        forall i | 0 <= i < |s[1..]| ensures IsWhitespace(s[1..][i]) {
          assert s[1..][i] == s[i + 1];
        }
      }
      AllWhitespaceTrimsAway(s[1..]);
    }
  }

  /** White space in front of a trimmed, non-empty word is all that trim removes. */
  lemma {:induction false} TrimAfterWhitespace(w: string, x: string)
    requires AllWhitespace(w) && IsTrimmed(x) && x != []
    ensures Trim(w + x) == x
  {
    TrimStartSkips(w, x);
    assert TrimEnd(x) == x;
  }

  lemma {:induction false} TrimStartSkips(w: string, x: string)
    requires AllWhitespace(w) && x != [] && !IsWhitespace(x[0])
    ensures TrimStart(w + x) == x
  {
    if w == [] {
      assert w + x == x;
    } else {
      assert (w + x)[0] == w[0];
      assert (w + x)[1..] == w[1..] + x;
      assert AllWhitespace(w[1..]) by {
        forall i | 0 <= i < |w[1..]| ensures IsWhitespace(w[1..][i]) {
          assert w[1..][i] == w[i + 1];
        }
      }
      TrimStartSkips(w[1..], x);
    }
  }

  // ---------------------------------------------------------------------------
  // prefixes and suffixes
  // ---------------------------------------------------------------------------

  predicate StartsWith(s: string, p: string)
  {
    |p| <= |s| && s[..|p|] == p
  }

  predicate EndsWith(s: string, p: string)
  {
    |p| <= |s| && s[|s| - |p|..] == p
  }

  /** Proof helper: a prefix stays a prefix when text is appended. */
  lemma StartsWithAppend(s: string, p: string, t: string)
    requires StartsWith(s, p)
    ensures StartsWith(s + t, p)
  {
    assert (s + t)[..|p|] == s[..|p|];
  }

  /** Proof helper: a string is a prefix of itself followed by anything. */
  lemma StartsWithConcat(s: string, t: string)
    ensures StartsWith(s + t, s)
  {
    assert (s + t)[..|s|] == s;
  }

  /** Proof helper: a string is a suffix of anything followed by it. */
  lemma EndsWithConcat(s: string, t: string)
    ensures EndsWith(s + t, t)
  {
    assert (s + t)[|s + t| - |t|..] == t;
  }

  // ---------------------------------------------------------------------------
  // ASCII case mapping
  // ---------------------------------------------------------------------------

  function UpperChar(c: char): (u: char)
    ensures 'a' <= c <= 'z' ==> u as int == c as int - 32 && 'A' <= u <= 'Z'
    ensures !('a' <= c <= 'z') ==> u == c
  {
    if 'a' <= c <= 'z' then ((c as int) - 32) as char else c
  }

  function LowerChar(c: char): (l: char)
    ensures 'A' <= c <= 'Z' ==> l as int == c as int + 32 && 'a' <= l <= 'z'
    ensures !('A' <= c <= 'Z') ==> l == c
  {
    if 'A' <= c <= 'Z' then ((c as int) + 32) as char else c
  }

  /** `s.toLowerCase()` on ASCII text. */
  function ToLower(s: string): (r: string)
    ensures |r| == |s|
    ensures forall i :: 0 <= i < |s| ==> r[i] == LowerChar(s[i])
  {
    if s == [] then [] else [LowerChar(s[0])] + ToLower(s[1..])
  }

  // ---------------------------------------------------------------------------
  // re-indentation
  // ---------------------------------------------------------------------------

  function CountChar(s: string, c: char): nat
  {
    if s == [] then 0 else (if s[0] == c then 1 else 0) + CountChar(s[1..], c)
  }

  /** `s.replace(/\n/g, '\n  ')`: every line after the first gains two spaces. */
  function Indent(s: string): (r: string)
    ensures |r| == |s| + 2 * CountChar(s, '\n')
    ensures '\n' !in s ==> r == s
  {
    if s == [] then []
    else (if s[0] == '\n' then "\n  " else [s[0]]) + Indent(s[1..])
  }

  /** Re-indentation works piece by piece: it distributes over concatenation. */
  lemma {:induction false} IndentAppend(a: string, b: string)
    ensures Indent(a + b) == Indent(a) + Indent(b)
  {
    if a == [] {
      assert a + b == b;
    } else {
      assert (a + b)[0] == a[0];
      assert (a + b)[1..] == a[1..] + b;
      IndentAppend(a[1..], b);
    }
  }

  /** Each newline becomes a newline followed by two spaces; the text around it is re-indented as it stands. */
  lemma IndentNewline(a: string, b: string)
    ensures Indent(a + "\n" + b) == Indent(a) + "\n  " + Indent(b)
  {
    var nl := "\n";
    assert nl[0] == '\n' && nl[1..] == [];
    assert Indent(nl) == "\n  ";
    IndentAppend(a, nl);
    IndentAppend(a + nl, b);
  }
}
