/** The two pieces of Go's standard library the report relies on:
    `strings.Split` with a one-character separator, and the `%d` rendering of a
    count. `Join` and `DecimalValue` are their inverses, used to state what the
    split and the rendering preserve. */
module Strings {

  /** How many times `sep` occurs in `s`. */
  function Occurrences(s: string, sep: char): nat
    decreases |s|
  {
    if s == [] then 0
    else (if s[0] == sep then 1 else 0) + Occurrences(s[1..], sep)
  }

  /** `strings.Split(s, string(sep))`: the segments of `s` between separators.
      The empty string gives one empty segment, never an empty list. */
  function Split(s: string, sep: char): (rows: seq<string>)
    ensures |rows| >= 1
    decreases |s|
  {
    if s == [] then [""]
    else
      var rest := Split(s[1..], sep);
      if s[0] == sep then [""] + rest
      else [[s[0]] + rest[0]] + rest[1..]
  }

  /** `strings.Join(rows, string(sep))`. */
  function Join(rows: seq<string>, sep: char): string
    decreases |rows|
  {
    if rows == [] then ""
    else if |rows| == 1 then rows[0]
    else rows[0] + [sep] + Join(rows[1..], sep)
  }

  /** Splitting yields one more segment than there are separators. */
  lemma {:induction false} SplitCount(s: string, sep: char)
    ensures |Split(s, sep)| == Occurrences(s, sep) + 1
    decreases |s|
  {
    if s != [] {
      SplitCount(s[1..], sep);
    }
  }

  /** No segment contains the separator. */
  lemma {:induction false} SplitSegmentsFree(s: string, sep: char)
    ensures forall row :: row in Split(s, sep) ==> sep !in row
    decreases |s|
  {
    if s != [] {
      SplitSegmentsFree(s[1..], sep);
      var rest := Split(s[1..], sep);
      if s[0] != sep {
        assert rest[0] in rest;
        assert forall row :: row in rest[1..] ==> row in rest;
      }
    }
  }

  /** Joining the segments back with the separator restores the input. */
  lemma {:induction false} JoinSplit(s: string, sep: char)
    ensures Join(Split(s, sep), sep) == s
    decreases |s|
  {
    if s != [] {
      var rest := Split(s[1..], sep);
      JoinSplit(s[1..], sep);
      if s[0] == sep {
        assert [s[0]] + s[1..] == s;
      } else if |rest| == 1 {
        assert [s[0]] + s[1..] == s;
      } else {
        var rows := [[s[0]] + rest[0]] + rest[1..];
        assert rows[1..] == rest[1..];
        assert Join(rest, sep) == rest[0] + [sep] + Join(rest[1..], sep);
        assert [s[0]] + s[1..] == s;
      }
    }
  }

  /** Splitting a join of separator-free segments gives the segments back. */
  lemma {:induction false} SplitJoin(rows: seq<string>, sep: char)
    requires |rows| >= 1
    requires forall row :: row in rows ==> sep !in row
    ensures Split(Join(rows, sep), sep) == rows
    decreases |rows|, if |rows| > 0 then |rows[0]| else 0
  {
    if |rows[0]| > 0 {
      // peel the first character off the first segment
      var head := rows[0];
      var shorter := [head[1..]] + rows[1..];
      assert rows[0] in rows;
      assert [head[0]] + head[1..] == head;
      forall row | row in shorter ensures sep !in row {
        if row != head[1..] {
          assert row in rows;
        }
      }
      SplitJoin(shorter, sep);
      assert shorter[1..] == rows[1..];
      if |rows| == 1 {
        assert Join(rows, sep) == [head[0]] + Join(shorter, sep);
      } else {
        assert Join(rows, sep) == [head[0]] + Join(shorter, sep);
      }
      assert [[head[0]] + head[1..]] + rows[1..] == rows;
    } else if |rows| > 1 {
      assert rows[1] in rows;
      forall row | row in rows[1..] ensures sep !in row {
        assert row in rows;
      }
      SplitJoin(rows[1..], sep);
      assert Join(rows, sep) == [sep] + Join(rows[1..], sep);
      assert [""] + rows[1..] == rows;
    }
  }

  predicate IsDigit(ch: char)
  {
    '0' <= ch <= '9'
  }

  function DigitChar(d: nat): (ch: char)
    requires d < 10
    ensures IsDigit(ch)
  {
    ['0', '1', '2', '3', '4', '5', '6', '7', '8', '9'][d]
  }

  /** The `%d` rendering of a count: decimal digits, most significant first. */
  function Decimal(n: nat): (s: string)
    ensures |s| >= 1
    ensures forall k :: 0 <= k < |s| ==> IsDigit(s[k])
    ensures |s| > 1 ==> s[0] != '0'
    decreases n
  {
    if n < 10 then [DigitChar(n)]
    else Decimal(n / 10) + [DigitChar(n % 10)]
  }

  /** The number a string of decimal digits denotes. */
  function DecimalValue(s: string): nat
    requires forall k :: 0 <= k < |s| ==> IsDigit(s[k])
    decreases |s|
  {
    if s == [] then 0
    else
      assert IsDigit(s[|s| - 1]);
      DecimalValue(s[..|s| - 1]) * 10 + (s[|s| - 1] as int - '0' as int)
  }

  /** Reading a rendered count gives the count back. */
  lemma {:induction false} DecimalRoundTrip(n: nat)
    ensures DecimalValue(Decimal(n)) == n
    decreases n
  {
    if n >= 10 {
      DecimalRoundTrip(n / 10);
      var s := Decimal(n);
      assert s[..|s| - 1] == Decimal(n / 10);
    }
  }
}
