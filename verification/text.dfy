/** String helpers the CLI relies on: joining the argument tokens into one
    command line (Go's `strings.Join`), its inverse on separator-free tokens
    (Go's `strings.Split` with a one-character separator), and substring
    containment. Strings are sequences of characters. */
module Text {

  /** `parts` joined with `sep` between neighbours; the empty list joins to "". */
  function Join(parts: seq<string>, sep: string): string
    decreases |parts|
  {
    if |parts| == 0 then ""
    else if |parts| == 1 then parts[0]
    else parts[0] + sep + Join(parts[1..], sep)
  }

  /** The pieces of `s` between occurrences of `c`, left to right. Like Go's
      `strings.Split`, the result is never empty: "" splits to [""]. */
  function Split(s: string, c: char): (r: seq<string>)
    ensures |r| >= 1
    decreases |s|
  {
    if |s| == 0 then [""]
    else
      var rest := Split(s[1..], c);
      if s[0] == c then [""] + rest
      else [[s[0]] + rest[0]] + rest[1..]
  }

  /** Sum of the lengths of `parts`. */
  function TotalLength(parts: seq<string>): nat
    decreases |parts|
  {
    if |parts| == 0 then 0 else |parts[0]| + TotalLength(parts[1..])
  }

  /** No token of `parts` contains the character `c`. */
  predicate FreeOf(parts: seq<string>, c: char) {
    forall i :: 0 <= i < |parts| ==> c !in parts[i]
  }

  /** `needle` appears in `hay` starting at index `i`. */
  predicate OccursAt(hay: string, needle: string, i: int) {
    0 <= i && i + |needle| <= |hay| && hay[i..i + |needle|] == needle
  }

  predicate Contains(hay: string, needle: string) {
    exists i :: 0 <= i <= |hay| && OccursAt(hay, needle, i)
  }

  /** Joining adds exactly one separator between each pair of neighbours and
      nothing else: no quoting, escaping or trimming of the tokens. */
  lemma {:induction false} JoinLength(parts: seq<string>, sep: string)
    requires |parts| >= 1
    ensures |Join(parts, sep)| == TotalLength(parts) + (|parts| - 1) * |sep|
    decreases |parts|
  {
    if |parts| > 1 {
      JoinLength(parts[1..], sep);
    }
  }

  /** An occurrence survives putting text in front, shifted by its length. */
  lemma OccursAfterPrefix(x: string, y: string, needle: string, i: int)
    requires OccursAt(y, needle, i)
    ensures OccursAt(x + y, needle, |x| + i)
  {
  }

  /** An occurrence inside an occurrence is an occurrence in the outer string. */
  lemma OccursWithin(hay: string, mid: string, needle: string, i: int, j: int)
    requires OccursAt(hay, mid, i)
    requires OccursAt(mid, needle, j)
    ensures OccursAt(hay, needle, i + j)
  {
    forall k | 0 <= k < |needle|
      ensures hay[i + j + k] == needle[k]
    {
      assert needle[k] == mid[j + k] == hay[i..i + |mid|][j + k];
    }
  }

  /** Every token occurs in the joined string, at the offset given by the
      tokens and separators before it. */
  lemma {:induction false} JoinContainsEach(parts: seq<string>, sep: string, k: nat)
    requires k < |parts|
    ensures OccursAt(Join(parts, sep), parts[k], TotalLength(parts[..k]) + k * |sep|)
    decreases |parts|
  {
    if |parts| == 1 {
      assert parts[..0] == [];
    } else if k == 0 {
      assert parts[..0] == [];
      assert (parts[0] + sep + Join(parts[1..], sep))[..|parts[0]|] == parts[0];
    } else {
      var tail := parts[1..];
      var off := TotalLength(tail[..k - 1]) + (k - 1) * |sep|;
      JoinContainsEach(tail, sep, k - 1);
      OccursAfterPrefix(parts[0] + sep, Join(tail, sep), tail[k - 1], off);
      assert parts[..k][1..] == tail[..k - 1];
      assert TotalLength(parts[..k]) == |parts[0]| + TotalLength(tail[..k - 1]);
      assert (k - 1) * |sep| + |sep| == k * |sep|;
    }
  }

  /** Between token `k` and token `k + 1` the join holds exactly the
      separator, at the offset of the first `k + 1` tokens and `k` separators. */
  lemma {:induction false} JoinSeparatorAt(parts: seq<string>, sep: string, k: nat)
    requires k + 1 < |parts|
    ensures OccursAt(Join(parts, sep), sep, TotalLength(parts[..k + 1]) + k * |sep|)
    decreases |parts|
  {
    var tail := parts[1..];
    if k == 0 {
      assert parts[..1] == [parts[0]];
      assert TotalLength(parts[..1]) == |parts[0]| + TotalLength(parts[..1][1..]);
      assert parts[..1][1..] == [];
      assert (parts[0] + sep + Join(tail, sep))[|parts[0]|..|parts[0]| + |sep|] == sep;
    } else {
      var off := TotalLength(tail[..k]) + (k - 1) * |sep|;
      JoinSeparatorAt(tail, sep, k - 1);
      OccursAfterPrefix(parts[0] + sep, Join(tail, sep), sep, off);
      assert parts[..k + 1][1..] == tail[..k];
      assert TotalLength(parts[..k + 1]) == |parts[0]| + TotalLength(tail[..k]);
      assert (k - 1) * |sep| + |sep| == k * |sep|;
    }
  }

  /** A string without `c` is a single piece. */
  lemma {:induction false} SplitWithoutSeparator(s: string, c: char)
    requires c !in s
    ensures Split(s, c) == [s]
    decreases |s|
  {
    if |s| > 0 {
      SplitWithoutSeparator(s[1..], c);
      assert [s[0]] + s[1..] == s;
    }
  }

  /** Splitting stops the first piece at the first separator. */
  lemma {:induction false} SplitAtFirstSeparator(a: string, b: string, c: char)
    requires c !in a
    ensures Split(a + [c] + b, c) == [a] + Split(b, c)
    decreases |a|
  {
    var s := a + [c] + b;
    if |a| == 0 {
      assert s == [c] + b;
      assert s[1..] == b;
    } else {
      assert s[1..] == a[1..] + [c] + b;
      SplitAtFirstSeparator(a[1..], b, c);
      assert [a[0]] + a[1..] == a;
    }
  }

  /** Round trip: tokens free of the separator are recovered from their join. */
  lemma {:induction false} SplitJoin(parts: seq<string>, c: char)
    requires |parts| >= 1
    requires FreeOf(parts, c)
    ensures Split(Join(parts, [c]), c) == parts
    decreases |parts|
  {
    if |parts| == 1 {
      SplitWithoutSeparator(parts[0], c);
    } else {
      assert c !in parts[0];
      SplitAtFirstSeparator(parts[0], Join(parts[1..], [c]), c);
      assert FreeOf(parts[1..], c) by {
        forall i | 0 <= i < |parts[1..]|
          ensures c !in parts[1..][i]
        {
          assert parts[1..][i] == parts[i + 1];
        }
      }
      SplitJoin(parts[1..], c);
      assert [parts[0]] + parts[1..] == parts;
    }
  }

  /** Round trip the other way: joining the pieces restores any string. */
  lemma {:induction false} JoinSplit(s: string, c: char)
    ensures Join(Split(s, c), [c]) == s
    decreases |s|
  {
    if |s| > 0 {
      var rest := Split(s[1..], c);
      JoinSplit(s[1..], c);
      if s[0] == c {
        assert ([""] + rest)[1..] == rest;
        assert s == [c] + s[1..];
      } else {
        var pieces := [[s[0]] + rest[0]] + rest[1..];
        assert pieces[1..] == rest[1..];
        if |rest| == 1 {
          assert s == [s[0]] + s[1..];
        } else {
          assert Join(rest, [c]) == rest[0] + [c] + Join(rest[1..], [c]);
          assert s == [s[0]] + s[1..];
        }
      }
    }
  }

  /** Joining forgets token boundaries once a token holds the separator:
      one token "a b" and two tokens "a", "b" give the same command line. */
  lemma JoinForgetsBoundaries(a: string, b: string)
    ensures Join([a + " " + b], " ") == Join([a, b], " ")
    ensures [a + " " + b] != [a, b]
  {
  }
}
