/**
 * The output buffer of the translator: an indentation level, a list of
 * pending text fragments, and a carry-over string left by sized reads.
 */
module Formatter {
  import opened Wrappers
  import opened Strings

  /** Python's clamping of a slice bound `k` against a text of length `n`. */
  function SliceBound(n: nat, k: int): (r: nat)
    ensures r <= n
    ensures 0 <= k <= n ==> r == k
    ensures k > n ==> r == n
    ensures k < 0 ==> r == if n + k < 0 then 0 else n + k
  {
    if k < 0 then (if n + k < 0 then 0 else n + k) else if k > n then n else k
  }

  /** The fragments `write` appends for one call. */
  function WriteFragments(prefix: string, text: string, indent: bool, newline: bool): seq<string>
  {
    (if indent then [prefix] else []) + [text] + (if newline then ["\n"] else [])
  }

  lemma WriteFragmentsText(prefix: string, text: string, indent: bool, newline: bool)
    ensures Concat(WriteFragments(prefix, text, indent, newline))
         == (if indent then prefix else "") + text + (if newline then "\n" else "")
  {
    var head := if indent then [prefix] else [];
    ConcatAppend(head, text);
    if newline {
      ConcatAppend(head + [text], "\n");
    }
  }

  class Formatter {
    /** Pending fragments, appended to by `Write`. */
    var buffer: seq<string>
    /** Indentation level; it has no lower bound. */
    var indentation: int
    /** The text of one indentation step. */
    const indentUnit: string
    /** The cached prefix for the current level. */
    var indentTemp: string
    /** Text taken out of `buffer` by a sized read and not yet returned. */
    var stringBuffer: string

    ghost predicate Valid()
      reads this
    {
      indentTemp == Repeat(indentUnit, indentation)
    }

    /** Everything written and not yet read, in order. */
    function Pending(): string
      reads this
    {
      stringBuffer + Concat(buffer)
    }

    constructor (indentString: string)
      ensures Valid()
      ensures indentUnit == indentString && indentation == 0
      ensures buffer == [] && stringBuffer == "" && Pending() == ""
    {
      buffer := [];
      indentation := 0;
      indentUnit := indentString;
      indentTemp := "";
      stringBuffer := "";
    }

    method Dedent()
      requires Valid()
      modifies this
      ensures Valid()
      ensures indentation == old(indentation) - 1
      ensures buffer == old(buffer) && stringBuffer == old(stringBuffer)
    {
      indentation := indentation - 1;
      indentTemp := Repeat(indentUnit, indentation);
    }

    method Indent()
      requires Valid()
      modifies this
      ensures Valid()
      ensures indentation == old(indentation) + 1
      ensures indentTemp == old(indentTemp) + indentUnit || old(indentation) < 0
      ensures buffer == old(buffer) && stringBuffer == old(stringBuffer)
    {
      if indentation >= 0 {
        RepeatSucc(indentUnit, indentation);
      }
      indentation := indentation + 1;
      indentTemp := Repeat(indentUnit, indentation);
    }

    /** The prefix `Write` puts before an indented line. */
    method IndentString() returns (r: string)
      requires Valid()
      ensures r == Repeat(indentUnit, indentation)
      ensures indentation <= 0 ==> r == ""
    {
      r := indentTemp;
    }

    /** Drops the pending fragments; the level and the carry-over stay. */
    method Clear()
      requires Valid()
      modifies this
      ensures Valid()
      ensures buffer == [] && Pending() == old(stringBuffer)
      ensures stringBuffer == old(stringBuffer) && indentation == old(indentation)
    {
      buffer := [];
    }

    method Write(text: Option<string>, indent: bool, newline: bool) returns (r: Result<()>)
      requires Valid()
      modifies this
      ensures Valid()
      ensures indentation == old(indentation) && stringBuffer == old(stringBuffer)
      ensures text.None? ==> r == Err(ConvertError("Convert Error.")) && buffer == old(buffer)
      ensures text.Some? ==> r.Ok?
      ensures text.Some? ==> buffer == old(buffer) + WriteFragments(indentTemp, text.value, indent, newline)
      ensures text.Some? ==>
        Pending() == old(Pending()) + (if indent then indentTemp else "") + text.value + (if newline then "\n" else "")
    {
      if text.None? {
        return Err(ConvertError("Convert Error."));
      }
      AppendFragments(stringBuffer, buffer, indentTemp, text.value, indent, newline);
      buffer := buffer + WriteFragments(indentTemp, text.value, indent, newline);
      r := Ok(());
    }

    /** `write(text)` with the default flags: an indented line. */
    method WriteLine(text: string)
      requires Valid()
      modifies this
      ensures Valid()
      ensures indentation == old(indentation) && stringBuffer == old(stringBuffer)
      ensures Pending() == old(Pending()) + indentTemp + text + "\n"
    {
      AppendFragments(stringBuffer, buffer, indentTemp, text, true, true);
      buffer := buffer + WriteFragments(indentTemp, text, true, true);
    }

    /**
     * With no size, returns all pending text and empties the buffer. With a
     * size, returns a prefix of at most that many characters (Python slice
     * rules for a negative size) and keeps the rest as carry-over.
     */
    method Read(size: Option<int>) returns (text: string)
      requires Valid()
      modifies this
      ensures Valid() && indentation == old(indentation)
      ensures text + Pending() == old(Pending())
      ensures size.None? ==> text == old(Pending()) && buffer == [] && stringBuffer == ""
      ensures size.Some? && size.value >= 0 ==>
        text == old(Pending())[..SliceBound(|old(Pending())|, size.value)]
      ensures size.Some? && size.value < 0 ==>
        buffer == old(buffer) &&
        text == old(stringBuffer)[..SliceBound(|old(stringBuffer)|, size.value)]
    {
      if size.None? {
        text := stringBuffer + Concat(buffer);
        buffer := [];
        stringBuffer := "";
        return;
      }
      var n := size.value;
      if |stringBuffer| < n {
        stringBuffer := stringBuffer + Concat(buffer);
        buffer := [];
        if |stringBuffer| < n {
          text, stringBuffer := stringBuffer, "";
        } else {
          var k := SliceBound(|stringBuffer|, n);
          text, stringBuffer := stringBuffer[..k], stringBuffer[k..];
          assert text + stringBuffer == old(Pending());
        }
      } else {
        var k := SliceBound(|stringBuffer|, n);
        text, stringBuffer := stringBuffer[..k], stringBuffer[k..];
        assert old(stringBuffer) == text + stringBuffer;
      }
    }
  }

  lemma {:induction false} ConcatJoinAppend(a: seq<string>, b: seq<string>)
    ensures Concat(a + b) == Concat(a) + Concat(b)
  {
    if |a| == 0 {
      assert a + b == b;
    } else {
      assert (a + b)[1..] == a[1..] + b;
      ConcatJoinAppend(a[1..], b);
    }
  }

  lemma AppendFragments(carry: string, buffer: seq<string>, prefix: string, text: string, indent: bool, newline: bool)
    ensures carry + Concat(buffer + WriteFragments(prefix, text, indent, newline))
         == carry + Concat(buffer) + (if indent then prefix else "") + text + (if newline then "\n" else "")
  {
    WriteFragmentsText(prefix, text, indent, newline);
    ConcatJoinAppend(buffer, WriteFragments(prefix, text, indent, newline));
  }

  /** Upper-cases the first character (ASCII) and keeps the rest. */
  function Capitalize(text: string): (r: string)
    ensures |r| == |text|
    ensures |text| > 0 ==> r[0] == UpperChar(text[0]) && !('a' <= r[0] <= 'z')
    ensures |text| > 0 ==> r[1..] == text[1..]
  {
    if text == "" then "" else [UpperChar(text[0])] + text[1..]
  }

  lemma CapitalizeIdempotent(text: string)
    ensures Capitalize(Capitalize(text)) == Capitalize(text)
  {
  }
}
