/** Slicing of IRIs into the short names used to build pipeline, step and
    knowledge-base identifiers. */
module Iri {
  import opened Text
  import opened PyData

  /** Index of the first occurrence of `c` in `s`. */
  function FirstIndex(s: string, c: char): (r: Option<nat>)
    ensures r.None? <==> c !in s
    ensures r.Some? ==> r.value < |s| && s[r.value] == c && c !in s[..r.value]
  {
    if s == [] then None
    else if s[0] == c then Some(0)
    else match FirstIndex(s[1..], c)
      case None => None
      case Some(i) =>
        assert s[..i + 1] == [s[0]] + s[1..][..i];
        Some(i + 1)
  }

  /** Index of the last occurrence of `c` in `s`. */
  function LastIndex(s: string, c: char): (r: Option<nat>)
    ensures r.None? <==> c !in s
    ensures r.Some? ==> r.value < |s| && s[r.value] == c && c !in s[r.value + 1..]
    decreases |s|
  {
    if s == [] then None
    else if s[|s| - 1] == c then Some(|s| - 1)
    else
      var init := s[..|s| - 1];
      match LastIndex(init, c)
      case None =>
        assert s == init + [s[|s| - 1]];
        None
      case Some(i) =>
        assert s[i + 1..] == init[i + 1..] + [s[|s| - 1]];
        Some(i)
  }

  /** `s.split(c, 1)[-1]` when `c` occurs in `s`: the text after its first
      occurrence. */
  function AfterFirst(s: string, c: char): (r: string)
    requires c in s
    ensures |r| < |s| && s == s[..|s| - |r| - 1] + [c] + r && c !in s[..|s| - |r| - 1]
  {
    var i := FirstIndex(s, c).value;
    assert s == s[..i] + [c] + s[i + 1..];
    s[i + 1..]
  }

  /** `s.rsplit(c, 1)[-1]`: the text after the last occurrence of `c`, or all
      of `s` when `c` does not occur. */
  function AfterLast(s: string, c: char): (r: string)
    ensures c !in r
    ensures s == r || (|r| < |s| && s == s[..|s| - |r| - 1] + [c] + r)
    ensures c !in s ==> r == s
  {
    match LastIndex(s, c)
    case None => s
    case Some(i) =>
      assert s == s[..i] + [c] + s[i + 1..];
      s[i + 1..]
  }

  /** `Node.suffix` and the name suffix of `generate_pipeline`: the text after
      the first `#` if the IRI has one, otherwise the text after the last `/`. */
  function Suffix(iri: string): (r: string)
    ensures |r| <= |iri| && iri[|iri| - |r|..] == r
    ensures '#' in iri ==>
              |r| < |iri| && iri[|iri| - |r| - 1] == '#' && '#' !in iri[..|iri| - |r| - 1]
    ensures '#' !in iri ==>
              '/' !in r && (r == iri || iri[|iri| - |r| - 1] == '/')
  {
    if '#' in iri then
      var r := AfterFirst(iri, '#');
      assert iri[|iri| - |r|..] == r;
      r
    else
      var r := AfterLast(iri, '/');
      assert r != iri ==> iri[|iri| - |r|..] == r;
      r
  }

  /** `Node.kb_suffix`: the text after the last `/`, with every `#` written as
      `:` (the compact `prefix:name` form the knowledge base uses). */
  function KbSuffix(iri: string): string
  {
    ReplaceChar(AfterLast(iri, '/'), '#', ':')
  }

  /** The knowledge-base name is the text after the last `/`, character by
      character, with every `#` written as `:`; it holds neither `#` nor
      `/`. */
  lemma KbSuffixShape(iri: string)
    ensures var tail := AfterLast(iri, '/'); var r := KbSuffix(iri);
            && |r| == |tail|
            && (forall i :: 0 <= i < |tail| ==> r[i] == (if tail[i] == '#' then ':' else tail[i]))
            && '#' !in r && '/' !in r
  {
    var tail := AfterLast(iri, '/');
    ReplaceCharAt(tail, '#', ':');
    var r := KbSuffix(iri);
    assert forall x :: x in r ==> exists i :: 0 <= i < |r| && r[i] == x;
  }
}
