/** The string operations the modelled code leans on: `strings.Cut` and the pair
    `strings.Join` / `strings.Split`, for a one-character separator, and decimal
    notation. */
module Text {

  /** `strings.Cut`: the text before and after the first separator; all of it and
      nothing when there is none. */
  function Cut(s: string, sep: char): (r: (string, string))
    ensures sep !in r.0
    ensures s == r.0 + [sep] + r.1 || (sep !in s && r == (s, ""))
  {
    if s == "" then ("", "")
    else if s[0] == sep then assert s == "" + [sep] + s[1..]; ("", s[1..])
    else
      var (before, after) := Cut(s[1..], sep);
      assert s == [s[0]] + s[1..];
      assert s[1..] == before + [sep] + after ==> s == ([s[0]] + before) + [sep] + after;
      ([s[0]] + before, after)
  }

  /** Cutting undoes gluing exactly when the first part has no separator. */
  lemma {:induction false} CutUndoesGlue(before: string, after: string, sep: char)
    ensures Cut(before + [sep] + after, sep) == (before, after) <==> sep !in before
  {
    if before != "" && before[0] != sep {
      CutUndoesGlue(before[1..], after, sep);
      assert before + [sep] + after == [before[0]] + (before[1..] + [sep] + after);
      assert before == [before[0]] + before[1..];
    } else {
      assert before == "" ==> before + [sep] + after == [sep] + after;
    }
  }

  function Join(parts: seq<string>, sep: char): string {
    if |parts| == 0 then ""
    else if |parts| == 1 then parts[0]
    else parts[0] + [sep] + Join(parts[1..], sep)
  }

  /** `strings.Split`: never empty, `Split("")` is one empty part. */
  function Split(s: string, sep: char): (parts: seq<string>)
    ensures |parts| > 0
    ensures forall p :: p in parts ==> sep !in p
    decreases |s|
  {
    if sep !in s then [s]
    else
      var (before, after) := Cut(s, sep);
      [before] + Split(after, sep)
  }

  /** Splitting undoes joining whenever there is a part and none contains the separator. */
  lemma {:induction false} SplitUndoesJoin(parts: seq<string>, sep: char)
    requires |parts| > 0
    requires forall p :: p in parts ==> sep !in p
    ensures Split(Join(parts, sep), sep) == parts
  {
    if |parts| == 1 {
      assert parts == [parts[0]];
    } else {
      var rest := Join(parts[1..], sep);
      SplitUndoesJoin(parts[1..], sep);
      CutUndoesGlue(parts[0], rest, sep);
      assert Join(parts, sep) == parts[0] + [sep] + rest;
      assert sep in Join(parts, sep) by {
        assert Join(parts, sep)[|parts[0]|] == sep;
      }
      assert parts == [parts[0]] + parts[1..];
    }
  }

  function Digit(d: nat): char
    requires d < 10
  {
    '0' + d as char
  }

  /** `strconv.Itoa` and `%d`, for non-negative numbers. */
  function Decimal(n: nat): (s: string)
    ensures |s| > 0 && forall i :: 0 <= i < |s| ==> '0' <= s[i] <= '9'
  {
    if n < 10 then [Digit(n)] else Decimal(n / 10) + [Digit(n % 10)]
  }

  function Value(s: string): nat
    requires forall i :: 0 <= i < |s| ==> '0' <= s[i] <= '9'
  {
    if s == [] then 0 else 10 * Value(s[..|s| - 1]) + (s[|s| - 1] - '0') as nat
  }

  lemma {:induction false} DecimalValue(n: nat)
    ensures Value(Decimal(n)) == n
  {
    if n >= 10 {
      DecimalValue(n / 10);
      assert Decimal(n)[..|Decimal(n)| - 1] == Decimal(n / 10);
    }
  }
}
