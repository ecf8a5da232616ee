/** Text helpers with the meaning of the Python string operations the translator uses. */
module Strings {

  /** `sep.join(parts)`. */
  function Join(parts: seq<string>, sep: string): string
  {
    if |parts| == 0 then ""
    else if |parts| == 1 then parts[0]
    else parts[0] + sep + Join(parts[1..], sep)
  }

  /** `"".join(parts)`. */
  function Concat(parts: seq<string>): string
  {
    if |parts| == 0 then "" else parts[0] + Concat(parts[1..])
  }

  lemma {:induction false} ConcatAppend(parts: seq<string>, s: string)
    ensures Concat(parts + [s]) == Concat(parts) + s
  {
    if |parts| == 0 {
      assert parts + [s] == [s];
    } else {
      assert (parts + [s])[1..] == parts[1..] + [s];
      ConcatAppend(parts[1..], s);
    }
  }

  lemma {:induction false} JoinAppend(parts: seq<string>, s: string, sep: string)
    requires |parts| > 0
    ensures Join(parts + [s], sep) == Join(parts, sep) + sep + s
  {
    if |parts| == 1 {
      assert (parts + [s])[1..] == [s];
    } else {
      assert (parts + [s])[1..] == parts[1..] + [s];
      JoinAppend(parts[1..], s, sep);
    }
  }

  /** `s * n` in Python: empty when `n` is zero or negative. */
  function Repeat(s: string, n: int): (r: string)
    ensures n <= 0 ==> r == ""
    ensures n > 0 ==> |r| == |s| * n
    decreases n
  {
    if n <= 0 then "" else s + Repeat(s, n - 1)
  }

  lemma {:induction false} RepeatSucc(s: string, n: nat)
    ensures Repeat(s, n + 1) == Repeat(s, n) + s
  {
    if n > 0 {
      RepeatSucc(s, n - 1);
    }
  }

  function DigitChar(d: nat): char
    requires d < 10
  {
    "0123456789"[d]
  }

  /** Decimal text of a natural number, as `%d` prints it. */
  function NatToString(n: nat): (r: string)
    ensures |r| > 0
    ensures n >= 10 ==> |r| >= 2
    decreases n
  {
    if n < 10 then [DigitChar(n)] else NatToString(n / 10) + [DigitChar(n % 10)]
  }

  lemma {:induction false} NatToStringInjective(n: nat, m: nat)
    requires NatToString(n) == NatToString(m)
    ensures n == m
    decreases n
  {
    var s, t := NatToString(n), NatToString(m);
    if n < 10 && m < 10 {
      assert s[0] == t[0];
    } else if n >= 10 && m >= 10 {
      assert s[|s| - 1] == t[|t| - 1];
      assert DigitChar(n % 10) == DigitChar(m % 10);
      assert NatToString(n / 10) == s[..|s| - 1] == t[..|t| - 1] == NatToString(m / 10);
      NatToStringInjective(n / 10, m / 10);
    }
  }

  predicate Contains(s: string, c: char)
  {
    exists i :: 0 <= i < |s| && s[i] == c
  }

  lemma ContainsConcat(s: string, t: string, c: char)
    ensures Contains(s + t, c) <==> Contains(s, c) || Contains(t, c)
  {
    if Contains(s + t, c) {
      var i :| 0 <= i < |s + t| && (s + t)[i] == c;
      if i < |s| {
        assert s[i] == c;
      } else {
        assert t[i - |s|] == c;
      }
    }
    if Contains(s, c) {
      var i :| 0 <= i < |s| && s[i] == c;
      assert (s + t)[i] == c;
    }
    if Contains(t, c) {
      var i :| 0 <= i < |t| && t[i] == c;
      assert (s + t)[|s| + i] == c;
    }
  }

  /** `s.split(c)` for a one-character separator: never empty. */
  function Split(s: string, c: char): (parts: seq<string>)
    ensures |parts| > 0
    ensures forall k :: 0 <= k < |parts| ==> !Contains(parts[k], c)
    decreases |s|
  {
    if |s| == 0 then [""]
    else
      var rest := Split(s[1..], c);
      if s[0] == c then [""] + rest
      else
        assert !Contains(rest[0], c);
        assert forall k :: 0 < k < |rest| ==> !Contains(rest[k], c);
        [[s[0]] + rest[0]] + rest[1..]
  }

  lemma {:induction false} SplitJoin(s: string, c: char)
    ensures Join(Split(s, c), [c]) == s
    decreases |s|
  {
    if |s| > 0 {
      var rest := Split(s[1..], c);
      SplitJoin(s[1..], c);
      if s[0] == c {
        assert Split(s, c) == [""] + rest;
        assert ([""] + rest)[1..] == rest;
      } else {
        var parts := [[s[0]] + rest[0]] + rest[1..];
        assert Split(s, c) == parts;
        if |rest| == 1 {
          assert Join(rest, [c]) == rest[0];
        } else {
          assert parts[1..] == rest[1..];
          assert Join(rest, [c]) == rest[0] + [c] + Join(rest[1..], [c]);
        }
      }
    }
  }

  lemma {:induction false} SplitSingle(s: string, c: char)
    requires !Contains(s, c)
    ensures Split(s, c) == [s]
    decreases |s|
  {
    if |s| > 0 {
      assert !Contains(s[1..], c) by {
        forall i | 0 <= i < |s[1..]| ensures s[1..][i] != c {
          assert s[1..][i] == s[i + 1];
        }
      }
      SplitSingle(s[1..], c);
      assert s[0] != c;
      assert [s[0]] + s[1..] == s;
    }
  }

  /** Splitting after a separator-free head peels that head off. */
  lemma {:induction false} SplitPrefix(a: string, b: string, c: char)
    requires !Contains(a, c)
    ensures Split(a + [c] + b, c) == [a] + Split(b, c)
    decreases |a|
  {
    if |a| == 0 {
      assert a + [c] + b == [c] + b;
      assert ([c] + b)[1..] == b;
    } else {
      assert !Contains(a[1..], c) by {
        forall i | 0 <= i < |a[1..]| ensures a[1..][i] != c {
          assert a[1..][i] == a[i + 1];
        }
      }
      SplitPrefix(a[1..], b, c);
      var s := a + [c] + b;
      assert s[1..] == a[1..] + [c] + b;
      assert s[0] == a[0] && a[0] != c;
      assert [a[0]] + a[1..] == a;
    }
  }

  lemma {:induction false} SplitMany(s: string, c: char)
    requires Contains(s, c)
    ensures |Split(s, c)| >= 2
    decreases |s|
  {
    if s[0] != c {
      assert Contains(s[1..], c) by {
        var i :| 0 <= i < |s| && s[i] == c;
        assert s[1..][i - 1] == c;
      }
      SplitMany(s[1..], c);
    }
  }

  /** ASCII `str.upper()` of one character. */
  function UpperChar(ch: char): char
  {
    if 'a' <= ch <= 'z' then (ch as int - 'a' as int + 'A' as int) as char else ch
  }

  /** ASCII `str.lower()`. */
  function Lower(s: string): (r: string)
    ensures |r| == |s|
    ensures forall i :: 0 <= i < |s| ==> r[i] == (if 'A' <= s[i] <= 'Z' then (s[i] as int - 'A' as int + 'a' as int) as char else s[i])
  {
    if |s| == 0 then "" else
      [if 'A' <= s[0] <= 'Z' then (s[0] as int - 'A' as int + 'a' as int) as char else s[0]] + Lower(s[1..])
  }

  predicate StartsWith(s: string, p: string)
  {
    |p| <= |s| && s[..|p|] == p
  }

  predicate EndsWith(s: string, p: string)
  {
    |p| <= |s| && s[|s| - |p|..] == p
  }

  /** A concatenation starts with its left part and ends with its right part. */
  lemma Affixes(a: string, b: string)
    ensures StartsWith(a + b, a) && EndsWith(a + b, b)
  {
    assert (a + b)[..|a|] == a;
    assert (a + b)[|a + b| - |b|..] == b;
  }

  /** `s.split(c, 1)` for a text holding `c`: what precedes its first occurrence and what follows it. */
  function SplitFirst(s: string, c: char): (r: (string, string))
    requires Contains(s, c)
    ensures r.0 + [c] + r.1 == s
    ensures !Contains(r.0, c)
    decreases |s|
  {
    if s[0] == c then ("", s[1..])
    else
      assert Contains(s[1..], c) by {
        var i :| 0 <= i < |s| && s[i] == c;
        assert s[1..][i - 1] == c;
      }
      var t := SplitFirst(s[1..], c);
      assert !Contains([s[0]] + t.0, c) by {
        forall i | 0 <= i < |[s[0]] + t.0| ensures ([s[0]] + t.0)[i] != c {
          if i > 0 {
            assert ([s[0]] + t.0)[i] == t.0[i - 1];
          }
        }
      }
      ([s[0]] + t.0, t.1)
  }

  /** Splitting once after a separator-free head gives that head and the rest. */
  lemma {:induction false} SplitFirstAfter(a: string, b: string, c: char)
    requires !Contains(a, c)
    ensures Contains(a + [c] + b, c)
    ensures SplitFirst(a + [c] + b, c) == (a, b)
    decreases |a|
  {
    var s := a + [c] + b;
    assert s[|a|] == c;
    if |a| == 0 {
      assert s == [c] + b;
      assert s[1..] == b;
    } else {
      assert !Contains(a[1..], c) by {
        forall i | 0 <= i < |a[1..]| ensures a[1..][i] != c {
          assert a[1..][i] == a[i + 1];
        }
      }
      SplitFirstAfter(a[1..], b, c);
      assert s[1..] == a[1..] + [c] + b;
      assert s[0] == a[0] && a[0] != c;
      assert [a[0]] + a[1..] == a;
    }
  }

  /** `s.replace(a, b)` for single characters. */
  function ReplaceChar(s: string, a: char, b: char): (r: string)
    ensures |r| == |s|
    ensures forall i :: 0 <= i < |s| ==> r[i] == (if s[i] == a then b else s[i])
  {
    if |s| == 0 then "" else [if s[0] == a then b else s[0]] + ReplaceChar(s[1..], a, b)
  }

  // Regrouping concatenations, so that text written piece by piece can be
  // matched against the function describing the whole.

  lemma Assoc(a: string, b: string, c: string)
    ensures a + (b + c) == a + b + c
  {
  }

  lemma Flatten8(p: string, a: string, b: string, c: string, d: string, e: string, f: string, g: string, h: string)
    ensures p + (a + b + c + d + e + f + g + h) == p + a + b + c + d + e + f + g + h
  {
    Assoc(p, a + b + c + d + e + f + g, h);
    Assoc(p, a + b + c + d + e + f, g);
    Assoc(p, a + b + c + d + e, f);
    Assoc(p, a + b + c + d, e);
    Assoc(p, a + b + c, d);
    Assoc(p, a + b, c);
    Assoc(p, a, b);
  }

  /** Six pieces written one by one, then a block of three. */
  lemma SixThenThree(p: string, a: string, b: string, c: string, d: string, e: string, x: string, o: string, y: string)
    ensures p + a + b + c + d + e + (x + o + y) == p + (a + b + c + d + e + x + o + y)
  {
    Flatten8(p, a, b, c, d, e, x, o, y);
    Assoc(p + a + b + c + d + e, x + o, y);
    Assoc(p + a + b + c + d + e, x, o);
  }

  /** A block of three, three pieces, and a block of three. */
  lemma ThreeThenThree(p: string, a: string, b: string, c: string, d: string, e: string, x: string, o: string, y: string)
    ensures p + (a + b + c) + d + e + (x + o + y) == p + (a + b + c + d + e + x + o + y)
  {
    Flatten8(p, a, b, c, d, e, x, o, y);
    Assoc(p + (a + b + c) + d + e, x + o, y);
    Assoc(p + (a + b + c) + d + e, x, o);
    Assoc(p, a + b, c);
    Assoc(p, a, b);
  }

  /** Eight pieces regrouped as the first three and the last five, the final three kept together. */
  lemma SplitAtThree(a: string, b: string, c: string, d: string, e: string, f: string, g: string, h: string)
    ensures a + b + c + d + e + f + g + h == (a + b + c) + (d + e + (f + g + h))
      && a + b + c + d + e + f + g + h == (a + b + c + d) + (e + (f + g + h))
  {
    Three(a + b + c + d + e, f, g, h);
    Assoc(a + b + c + d, e, f + g + h);
    Assoc(a + b + c, d, e + (f + g + h));
    Assoc(a + b + c, d + e, f + g + h);
    Assoc(d, e, f + g + h);
  }

  /** Four pieces written one by one. */
  lemma Four(p: string, a: string, b: string, c: string, d: string)
    ensures p + a + b + c + d == p + (a + b + c + d)
  {
    Assoc(p, a + b + c, d);
    Assoc(p, a + b, c);
    Assoc(p, a, b);
  }

  /** Three pieces written one by one. */
  lemma Three(p: string, a: string, b: string, c: string)
    ensures p + a + b + c == p + (a + b + c)
  {
    Assoc(p, a + b, c);
    Assoc(p, a, b);
  }
}
