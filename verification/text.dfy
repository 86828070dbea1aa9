/**
 * String helpers with the meaning of the JavaScript built-ins the server and
 * the client use: `Array.prototype.join`, `String.prototype.split` on a single
 * character, and `String.prototype.toUpperCase` on ASCII text.
 */
module Text {

  /** `a` ends `b`. */
  predicate EndsWith(b: string, a: string)
  {
    |a| <= |b| && b[|b| - |a|..] == a
  }

  /** `a` occurs in `b` starting at index `k`. */
  predicate OccursAt(a: string, b: string, k: int)
  {
    0 <= k && k + |a| <= |b| && b[k..k + |a|] == a
  }

  /** The middle piece of a concatenation occurs right after the first. */
  lemma OccursInConcat(a: string, b: string, c: string)
    ensures OccursAt(b, a + b + c, |a|)
  {
    assert (a + b + c)[|a|..|a| + |b|] == b;
  }

  /** An occurrence inside an occurrence is an occurrence at the summed offset. */
  lemma OccursWithin(x: string, y: string, z: string, i: int, j: int)
    requires OccursAt(x, y, i) && OccursAt(y, z, j)
    ensures OccursAt(x, z, j + i)
  {
    forall k | 0 <= k < |x|
      ensures z[j + i..j + i + |x|][k] == x[k]
    {
      assert x[k] == y[i + k] == z[j + i + k];
    }
  }

  /** Where each of five consecutive pieces sits in their concatenation. */
  lemma FivePieces(a: string, b: string, c: string, d: string, e: string)
    ensures a <= a + b + c + d + e
    ensures OccursAt(b, a + b + c + d + e, |a|)
    ensures OccursAt(c, a + b + c + d + e, |a| + |b|)
    ensures OccursAt(d, a + b + c + d + e, |a| + |b| + |c|)
    ensures EndsWith(a + b + c + d + e, e)
  {
    var p := a + b + c + d + e;
    assert p == a + b + (c + d + e);
    OccursInConcat(a, b, c + d + e);
    assert p == (a + b) + c + (d + e);
    OccursInConcat(a + b, c, d + e);
    OccursInConcat(a + b + c, d, e);
  }

  /** Sum of the lengths of `parts`. */
  function TotalLength(parts: seq<string>): nat
  {
    if |parts| == 0 then 0 else |parts[0]| + TotalLength(parts[1..])
  }

  /**
   * `parts.join(sep)`: the parts in order with `sep` between neighbours, and
   * the empty string for no parts.
   */
  function Join(parts: seq<string>, sep: string): string
  {
    if |parts| == 0 then ""
    else if |parts| == 1 then parts[0]
    else parts[0] + sep + Join(parts[1..], sep)
  }

  /** Length of `n` copies of the separator. */
  function SeparatorsLength(n: nat, sep: string): nat
  {
    if n == 0 then 0 else |sep| + SeparatorsLength(n - 1, sep)
  }

  lemma {:induction false} SeparatorsLengthIsProduct(n: nat, sep: string)
    ensures SeparatorsLength(n, sep) == n * |sep|
  {
    if n > 0 {
      SeparatorsLengthIsProduct(n - 1, sep);
      assert n * |sep| == (n - 1) * |sep| + |sep|;
    }
  }

  lemma {:induction false} JoinLength(parts: seq<string>, sep: string)
    requires |parts| > 0
    ensures |Join(parts, sep)| == TotalLength(parts) + SeparatorsLength(|parts| - 1, sep)
  {
    if |parts| > 1 {
      JoinLength(parts[1..], sep);
    }
  }

  lemma JoinPrefix(parts: seq<string>, sep: string)
    requires |parts| > 0
    ensures parts[0] <= Join(parts, sep)
  {
  }

  lemma {:induction false} JoinSuffix(parts: seq<string>, sep: string)
    requires |parts| > 0
    ensures EndsWith(Join(parts, sep), parts[|parts| - 1])
  {
    if |parts| > 1 {
      var rest := parts[1..];
      JoinSuffix(rest, sep);
      var tail := Join(rest, sep);
      var r := parts[0] + sep + tail;
      assert Join(parts, sep) == r;
      assert r[|r| - |tail|..] == tail;
      assert rest[|rest| - 1] == parts[|parts| - 1];
    }
  }

  /**
   * No separator leads or trails a join: the first part begins the text, the
   * last part ends it, and the text is as long as the parts plus one separator
   * between each pair of neighbours.
   */
  lemma JoinShape(parts: seq<string>, sep: string)
    requires |parts| > 0
    ensures |Join(parts, sep)| == TotalLength(parts) + (|parts| - 1) * |sep|
    ensures parts[0] <= Join(parts, sep)
    ensures EndsWith(Join(parts, sep), parts[|parts| - 1])
  {
    JoinLength(parts, sep);
    SeparatorsLengthIsProduct(|parts| - 1, sep);
    JoinPrefix(parts, sep);
    JoinSuffix(parts, sep);
  }

  /** Appending a part appends the separator and the part: the join grows line by line. */
  lemma {:induction false} JoinAppend(parts: seq<string>, x: string, sep: string)
    requires |parts| > 0
    ensures Join(parts + [x], sep) == Join(parts, sep) + sep + x
  {
    var px := parts + [x];
    assert px[0] == parts[0];
    if |parts| == 1 {
      assert px[1..] == [x];
    } else {
      JoinAppend(parts[1..], x, sep);
      assert px[1..] == parts[1..] + [x];
    }
  }

  /**
   * `s.split(c)` for a one-character separator: the maximal pieces between
   * occurrences of `c`, so that there is always at least one piece.
   */
  function Split(s: string, c: char): (r: seq<string>)
    ensures |r| > 0
  {
    if |s| == 0 then [""]
    else
      var rest := Split(s[1..], c);
      if s[0] == c then [""] + rest
      else [[s[0]] + rest[0]] + rest[1..]
  }

  /** ASCII `toUpperCase` of one character. */
  function UpperChar(ch: char): char
  {
    if 'a' <= ch <= 'z' then (ch as int - 32) as char else ch
  }

  /** ASCII `toUpperCase`: every lower-case letter raised, everything else kept. */
  function Upper(s: string): (r: string)
    ensures |r| == |s|
    ensures forall i :: 0 <= i < |s| && 'a' <= s[i] <= 'z' ==> r[i] as int == s[i] as int - 32
    ensures forall i :: 0 <= i < |s| && !('a' <= s[i] <= 'z') ==> r[i] == s[i]
    ensures forall i :: 0 <= i < |s| ==> !('a' <= r[i] <= 'z')
  {
    seq(|s|, i requires 0 <= i < |s| => UpperChar(s[i]))
  }

  /** A piece without the separator splits to itself. */
  lemma {:induction false} SplitWithoutSeparator(a: string, c: char)
    requires c !in a
    ensures Split(a, c) == [a]
  {
    if |a| > 0 {
      assert c !in a[1..] by {
        assert forall x :: x in a[1..] ==> x in a;
      }
      SplitWithoutSeparator(a[1..], c);
      assert [a[0]] + a[1..] == a;
    }
  }

  /** Splitting at the first separator peels off the piece before it. */
  lemma {:induction false} SplitAfterPiece(a: string, b: string, c: char)
    requires c !in a
    ensures Split(a + [c] + b, c) == [a] + Split(b, c)
  {
    var s := a + [c] + b;
    if |a| == 0 {
      assert s == [c] + b;
      assert s[1..] == b;
    } else {
      assert c !in a[1..] by {
        assert forall x :: x in a[1..] ==> x in a;
      }
      SplitAfterPiece(a[1..], b, c);
      assert s[1..] == a[1..] + [c] + b;
      assert s[0] == a[0];
      assert [a[0]] + a[1..] == a;
    }
  }

  /**
   * When no part contains the separator character, splitting the joined text
   * at that character gives back exactly the parts, in order.
   */
  lemma {:induction false} SplitJoin(parts: seq<string>, c: char)
    requires |parts| > 0
    requires forall i :: 0 <= i < |parts| ==> c !in parts[i]
    ensures Split(Join(parts, [c]), c) == parts
  {
    if |parts| == 1 {
      SplitWithoutSeparator(parts[0], c);
    } else {
      var tail := parts[1..];
      SplitJoin(tail, c);
      SplitAfterPiece(parts[0], Join(tail, [c]), c);
      assert [parts[0]] + tail == parts;
    }
  }

  /** Joining with the empty separator distributes over concatenation of the part lists. */
  lemma {:induction false} JoinEmptyAppend(a: seq<string>, b: seq<string>)
    ensures Join(a + b, "") == Join(a, "") + Join(b, "")
  {
    if |a| == 0 {
      assert a + b == b;
    } else if |b| == 0 {
      assert a + b == a;
    } else {
      var ab := a + b;
      assert ab[0] == a[0];
      if |a| == 1 {
        assert ab[1..] == b;
        assert Join(ab, "") == a[0] + "" + Join(b, "");
      } else {
        JoinEmptyAppend(a[1..], b);
        assert ab[1..] == a[1..] + b;
        assert Join(ab, "") == a[0] + "" + Join(a[1..] + b, "");
        assert Join(a, "") == a[0] + "" + Join(a[1..], "");
      }
    }
  }
}
