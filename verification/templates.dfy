/** A prompt template with two `%v` slots, as the CLI writes them in its
    `fmt.Sprintf` calls: constant head, the source label, constant middle,
    the captured output, constant tail. `%v` of a Go string prints the string
    unchanged, so filling a template is plain concatenation. */
module Templates {
  import opened Wrappers
  import opened Text

  datatype Template = Template(head: string, mid: string, tail: string)

  /** Number of characters the template adds around its two slots. */
  function ConstantLength(t: Template): nat {
    |t.head| + |t.mid| + |t.tail|
  }

  /** The template with `source` in its first slot and `body` in its second.
      Both are embedded verbatim: no truncation, quoting or escaping. */
  function Fill(t: Template, source: string, body: string): (r: string)
    ensures |r| == |source| + |body| + ConstantLength(t)
    ensures OccursAt(r, t.head, 0)
    ensures OccursAt(r, source, |t.head|)
    ensures OccursAt(r, t.mid, |t.head| + |source|)
    ensures OccursAt(r, body, |t.head| + |source| + |t.mid|)
    ensures OccursAt(r, t.tail, |r| - |t.tail|)
  {
    var r := t.head + source + t.mid + body + t.tail;
    assert r[|t.head|..|t.head| + |source|] == source;
    assert r[|t.head| + |source|..|t.head| + |source| + |t.mid|] == t.mid;
    assert r[|t.head| + |source| + |t.mid|..|t.head| + |source| + |t.mid| + |body|] == body;
    r
  }

  /** Reads a filled prompt back: given the length of the source, recovers
      the source and the body, or `None` when `s` is not an instance of `t`. */
  function Unfill(t: Template, s: string, sourceLength: nat): Option<(string, string)> {
    var midAt := |t.head| + sourceLength;
    var bodyAt := midAt + |t.mid|;
    if |s| < bodyAt + |t.tail| then None
    else if s[..|t.head|] != t.head then None
    else if s[midAt..bodyAt] != t.mid then None
    else if s[|s| - |t.tail|..] != t.tail then None
    else Some((s[|t.head|..midAt], s[bodyAt..|s| - |t.tail|]))
  }

  /** Round trip: source and body come back out of the prompt unchanged. */
  lemma UnfillFill(t: Template, source: string, body: string)
    ensures Unfill(t, Fill(t, source, body), |source|) == Some((source, body))
  {
  }

  /** Round trip the other way: whatever `Unfill` accepts is exactly the
      template filled with what it returns. */
  lemma FillUnfill(t: Template, s: string, sourceLength: nat)
    requires Unfill(t, s, sourceLength).Some?
    ensures Fill(t, Unfill(t, s, sourceLength).value.0, Unfill(t, s, sourceLength).value.1) == s
    ensures |Unfill(t, s, sourceLength).value.0| == sourceLength
  {
  }
}
