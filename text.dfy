/** The few operations on Python `str` values that the scheduler and the step factories
    use: reading an ASCII digit run as `int()` does, `str.split(sep)` for a one-character
    separator, and `re.split(r"\s+", s)`. */
module Text {

  /** The characters for which Python's `str.isspace()` holds, which is what `\s` matches
      in a `str` pattern. */
  predicate IsWhitespace(c: char) {
    c == ' ' || ('\t' <= c <= '\r') || ('\U{1c}' <= c <= '\U{1f}') || c == '\U{85}'
    || c == '\U{a0}' || c == '\U{1680}' || ('\U{2000}' <= c <= '\U{200a}') || c == '\U{2028}'
    || c == '\U{2029}' || c == '\U{202f}' || c == '\U{205f}' || c == '\U{3000}'
  }

  predicate IsDigit(c: char) {
    '0' <= c <= '9'
  }

  /** A token of the shape `\d+`, with ASCII digits. */
  predicate IsDigits(s: string) {
    |s| > 0 && forall i :: 0 <= i < |s| ==> IsDigit(s[i])
  }

  predicate NoWhitespace(s: string) {
    forall i :: 0 <= i < |s| ==> !IsWhitespace(s[i])
  }

  function DigitValue(c: char): (d: nat)
    requires IsDigit(c)
    ensures d < 10
  {
    c as int - '0' as int
  }

  /** The value `int()` gives a run of ASCII digits (leading zeros allowed). */
  function DigitsValue(s: string): nat
    requires forall i :: 0 <= i < |s| ==> IsDigit(s[i])
  {
    if s == [] then 0 else DigitsValue(s[..|s| - 1]) * 10 + DigitValue(s[|s| - 1])
  }

  function DigitChar(d: nat): (c: char)
    requires d < 10
    ensures IsDigit(c) && DigitValue(c) == d
  {
    ('0' as int + d) as char
  }

  /** The decimal text of `n` without leading zeros, as Python's `str(n)`. */
  function Decimal(n: nat): (s: string)
    ensures IsDigits(s)
  {
    if n < 10 then [DigitChar(n)] else Decimal(n / 10) + [DigitChar(n % 10)]
  }

  /** `int(str(n)) == n` */
  lemma {:induction false} DigitsValueOfDecimal(n: nat)
    ensures DigitsValue(Decimal(n)) == n
  {
    var s := Decimal(n);
    if n < 10 {
      assert s[..|s| - 1] == [];
    } else {
      var p := Decimal(n / 10);
      assert s == p + [DigitChar(n % 10)];
      assert s[..|s| - 1] == p;
      DigitsValueOfDecimal(n / 10);
    }
  }

  /** The position of the first `c` in `s`, as Python's `s.index(c)`. */
  function IndexOf(s: string, c: char): (i: nat)
    requires c in s
    ensures i < |s| && s[i] == c && c !in s[..i]
  {
    if s[0] == c then 0
    else
      assert c in s[1..] by { assert s == [s[0]] + s[1..]; }
      var j := IndexOf(s[1..], c);
      assert s[..j + 1] == [s[0]] + s[1..][..j];
      j + 1
  }

  /** Python's `s.split(sep)` for a one-character separator: every occurrence of `sep`
      starts a new part, so `k` separators give `k + 1` parts, possibly empty. */
  function SplitAt(s: string, sep: char): (parts: seq<string>)
    ensures |parts| >= 1
  {
    if s == [] then [""]
    else
      var rest := SplitAt(s[1..], sep);
      if s[0] == sep then [""] + rest else [[s[0]] + rest[0]] + rest[1..]
  }

  /** Python's `sep.join(parts)`. */
  function Join(parts: seq<string>, sep: char): string {
    if parts == [] then ""
    else if |parts| == 1 then parts[0]
    else parts[0] + [sep] + Join(parts[1..], sep)
  }

  lemma {:induction false} JoinSplitAt(s: string, sep: char)
    ensures Join(SplitAt(s, sep), sep) == s
  {
    if s != [] {
      var rest := SplitAt(s[1..], sep);
      JoinSplitAt(s[1..], sep);
      if s[0] == sep {
        assert SplitAt(s, sep)[1..] == rest;
      } else if |rest| == 1 {
        assert SplitAt(s, sep) == [[s[0]] + rest[0]];
      } else {
        var parts := SplitAt(s, sep);
        assert parts[1..] == rest[1..];
        assert Join(rest, sep) == rest[0] + [sep] + Join(rest[1..], sep);
      }
    }
  }

  lemma {:induction false} SplitAtPartsLackSeparator(s: string, sep: char)
    ensures forall k :: 0 <= k < |SplitAt(s, sep)| ==> sep !in SplitAt(s, sep)[k]
  {
    if s != [] {
      SplitAtPartsLackSeparator(s[1..], sep);
    }
  }

  /** A string splits into more than one part exactly when it holds the separator. */
  lemma {:induction false} SplitAtSeparatorParts(s: string, sep: char)
    ensures sep in s <==> |SplitAt(s, sep)| >= 2
  {
    if s != [] {
      SplitAtSeparatorParts(s[1..], sep);
      assert sep in s <==> s[0] == sep || sep in s[1..] by {
        assert s == [s[0]] + s[1..];
      }
    }
  }

  /** Splitting a join of separator-free parts gives the parts back. */
  lemma {:induction false} SplitAtJoin(parts: seq<string>, sep: char)
    requires |parts| >= 1
    requires forall k :: 0 <= k < |parts| ==> sep !in parts[k]
    ensures SplitAt(Join(parts, sep), sep) == parts
  {
    if |parts| == 1 {
      SplitAtNoSeparator(parts[0], sep);
    } else {
      SplitAtJoin(parts[1..], sep);
      SplitAtPrefix(parts[0], sep, Join(parts[1..], sep));
    }
  }

  lemma {:induction false} SplitAtNoSeparator(s: string, sep: char)
    requires sep !in s
    ensures SplitAt(s, sep) == [s]
  {
    if s != [] {
      assert s[0] != sep && sep !in s[1..] by {
        assert s == [s[0]] + s[1..];
      }
      SplitAtNoSeparator(s[1..], sep);
      assert [s[0]] + s[1..] == s;
    }
  }

  lemma {:induction false} SplitAtPrefix(p: string, sep: char, t: string)
    requires sep !in p
    ensures SplitAt(p + [sep] + t, sep) == [p] + SplitAt(t, sep)
  {
    if p == [] {
      assert ([sep] + t)[1..] == t;
    } else {
      var x := p + [sep] + t;
      assert x[0] == p[0] && x[1..] == p[1..] + [sep] + t;
      assert p[0] != sep && sep !in p[1..] by {
        assert p == [p[0]] + p[1..];
      }
      SplitAtPrefix(p[1..], sep, t);
      assert [p[0]] + p[1..] == p;
    }
  }

  /** Python's `re.split(r"\s+", s)`: every maximal run of whitespace separates two parts;
      leading or trailing whitespace gives an empty first or last part. */
  function SplitWhitespace(s: string): (parts: seq<string>)
    ensures |parts| >= 1
  {
    if s == [] then [""]
    else
      var rest := SplitWhitespace(s[1..]);
      if IsWhitespace(s[0]) then
        if |s| > 1 && IsWhitespace(s[1]) then rest else [""] + rest
      else [[s[0]] + rest[0]] + rest[1..]
  }

  /** `s` with its whitespace removed. */
  function Squeeze(s: string): string {
    if s == [] then ""
    else if IsWhitespace(s[0]) then Squeeze(s[1..])
    else [s[0]] + Squeeze(s[1..])
  }

  function Concat(parts: seq<string>): string {
    if parts == [] then "" else parts[0] + Concat(parts[1..])
  }

  /** No part of `re.split(r"\s+", s)` holds whitespace. */
  lemma {:induction false} SplitWhitespaceNoWhitespace(s: string)
    ensures forall k :: 0 <= k < |SplitWhitespace(s)| ==> NoWhitespace(SplitWhitespace(s)[k])
  {
    if s != [] {
      SplitWhitespaceNoWhitespace(s[1..]);
      var rest := SplitWhitespace(s[1..]);
      if !IsWhitespace(s[0]) {
        var parts := SplitWhitespace(s);
        assert parts[0] == [s[0]] + rest[0];
        forall k | 0 < k < |parts| ensures NoWhitespace(parts[k]) {
          assert parts[k] == rest[k];
        }
      }
    }
  }

  /** Together the parts hold every non-whitespace character of `s`, in order. */
  lemma {:induction false} SplitWhitespaceConcat(s: string)
    ensures Concat(SplitWhitespace(s)) == Squeeze(s)
  {
    if s != [] {
      SplitWhitespaceConcat(s[1..]);
      var rest := SplitWhitespace(s[1..]);
      var parts := SplitWhitespace(s);
      if IsWhitespace(s[0]) {
        if !(|s| > 1 && IsWhitespace(s[1])) {
          assert parts[1..] == rest;
        }
      } else {
        assert parts[1..] == rest[1..];
        assert Concat(rest) == rest[0] + Concat(rest[1..]);
      }
    }
  }

  /** Only the first and the last part can be empty, and the first is empty when `s`
      starts with whitespace. */
  lemma {:induction false} SplitWhitespaceInnerParts(s: string)
    ensures forall k :: 0 < k < |SplitWhitespace(s)| - 1 ==> SplitWhitespace(s)[k] != ""
    ensures s != [] && IsWhitespace(s[0]) ==> SplitWhitespace(s)[0] == ""
  {
    if s != [] {
      SplitWhitespaceInnerParts(s[1..]);
      var rest := SplitWhitespace(s[1..]);
      var parts := SplitWhitespace(s);
      if IsWhitespace(s[0]) {
        if !(|s| > 1 && IsWhitespace(s[1])) {
          assert parts[1..] == rest;
          if |s| > 1 {
            SplitWhitespaceHead(s[1..]);
          }
        }
      } else {
        forall k | 0 < k < |parts| - 1 ensures parts[k] != "" {
          assert parts[k] == rest[k];
        }
      }
    }
  }

  /** A string that starts with a non-whitespace character has a non-empty first part. */
  lemma SplitWhitespaceHead(s: string)
    requires s != [] && !IsWhitespace(s[0])
    ensures SplitWhitespace(s)[0] != ""
  {
  }

  lemma JoinCons(p: string, rest: seq<string>, sep: char)
    requires |rest| >= 1
    ensures Join([p] + rest, sep) == p + [sep] + Join(rest, sep)
  {
    assert ([p] + rest)[1..] == rest;
  }

  /** Python's `" ".join(tokens)`. */
  function JoinSpace(tokens: seq<string>): string {
    Join(tokens, ' ')
  }

  /** Splitting a single-space join of non-empty, whitespace-free tokens gives the tokens
      back. */
  lemma {:induction false} SplitWhitespaceJoin(tokens: seq<string>)
    requires |tokens| >= 1
    requires forall k :: 0 <= k < |tokens| ==> tokens[k] != "" && NoWhitespace(tokens[k])
    ensures SplitWhitespace(JoinSpace(tokens)) == tokens
  {
    if |tokens| == 1 {
      SplitWhitespaceNone(tokens[0]);
    } else {
      SplitWhitespaceJoin(tokens[1..]);
      var t := Join(tokens[1..], ' ');
      assert t != [] && !IsWhitespace(t[0]) by {
        JoinHead(tokens[1..]);
      }
      SplitWhitespaceSpace(tokens[0], t);
    }
  }

  lemma {:induction false} JoinHead(tokens: seq<string>)
    requires |tokens| >= 1 && tokens[0] != ""
    ensures Join(tokens, ' ') != [] && Join(tokens, ' ')[0] == tokens[0][0]
  {
  }

  lemma {:induction false} SplitWhitespaceNone(s: string)
    requires NoWhitespace(s)
    ensures SplitWhitespace(s) == [s]
  {
    if s != [] {
      assert !IsWhitespace(s[0]) && NoWhitespace(s[1..]) by {
        assert forall i :: 0 <= i < |s[1..]| ==> s[1..][i] == s[i + 1];
      }
      SplitWhitespaceNone(s[1..]);
      assert [s[0]] + s[1..] == s;
    }
  }

  lemma {:induction false} SplitWhitespaceSpace(p: string, t: string)
    requires NoWhitespace(p)
    requires t != [] && !IsWhitespace(t[0])
    ensures SplitWhitespace(p + [' '] + t) == [p] + SplitWhitespace(t)
  {
    if p == [] {
      assert ([' '] + t)[1..] == t;
    } else {
      var x := p + [' '] + t;
      assert x[0] == p[0] && x[1..] == p[1..] + [' '] + t;
      assert !IsWhitespace(p[0]) && NoWhitespace(p[1..]) by {
        assert forall i :: 0 <= i < |p[1..]| ==> p[1..][i] == p[i + 1];
      }
      SplitWhitespaceSpace(p[1..], t);
      assert [p[0]] + p[1..] == p;
    }
  }
}
