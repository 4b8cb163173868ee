/** String helpers with the semantics of the Python built-ins the workflow
    compiler relies on: `str(n)` for a natural number, `str.split()` with no
    separator, `str.replace` of one character, and `sep.join(xs)`. */
module Text {

  // ---------------------------------------------------------------------
  // Decimal rendering of natural numbers (Python's `str(n)` / f-strings)
  // ---------------------------------------------------------------------

  predicate IsDigit(c: char) { '0' <= c <= '9' }

  function DigitChar(d: nat): (c: char)
    requires d < 10
    ensures IsDigit(c) && c as int - '0' as int == d
  {
    ('0' as int + d) as char
  }

  /** The decimal representation of `n`, without sign or leading zeros. */
  function NatToString(n: nat): (s: string)
    ensures 1 <= |s|
    ensures forall i :: 0 <= i < |s| ==> IsDigit(s[i])
    ensures n < 10 <==> |s| == 1
    decreases n
  {
    if n < 10 then [DigitChar(n)] else NatToString(n / 10) + [DigitChar(n % 10)]
  }

  /** Distinct numbers have distinct decimal renderings. */
  lemma {:induction false} NatToStringInjective(a: nat, b: nat)
    requires NatToString(a) == NatToString(b)
    ensures a == b
    decreases a
  {
    var s := NatToString(a);
    if a >= 10 && b >= 10 {
      var sa, sb := NatToString(a / 10), NatToString(b / 10);
      assert s == sa + [DigitChar(a % 10)];
      assert s == sb + [DigitChar(b % 10)];
      assert sa == s[..|s| - 1] == sb;
      NatToStringInjective(a / 10, b / 10);
      assert DigitChar(a % 10) == s[|s| - 1] == DigitChar(b % 10);
    }
  }

  /** `prefix + str(a) + sep + x` determines `a` and `x` when `sep` is not a
      digit: the digits end exactly where the separator starts. */
  lemma NumberedNameInjective(prefix: string, a: nat, b: nat, sep: char, x: string, y: string)
    requires !IsDigit(sep)
    requires prefix + NatToString(a) + [sep] + x == prefix + NatToString(b) + [sep] + y
    ensures a == b && x == y
  {
    var sa, sb := NatToString(a), NatToString(b);
    var u, v := sa + [sep] + x, sb + [sep] + y;
    assert prefix + u == prefix + NatToString(a) + [sep] + x;
    assert prefix + v == prefix + NatToString(b) + [sep] + y;
    assert u == (prefix + u)[|prefix|..] == (prefix + v)[|prefix|..] == v;
    assert forall i :: 0 <= i < |sa| ==> IsDigit(u[i]);
    assert forall i :: 0 <= i < |sb| ==> IsDigit(v[i]);
    assert !IsDigit(u[|sa|]) && !IsDigit(v[|sb|]);
    assert |sa| == |sb|;
    assert sa == u[..|sa|] == v[..|sb|] == sb;
    NatToStringInjective(a, b);
    assert x == u[|sa| + 1..] == v[|sb| + 1..] == y;
  }

  /** `prefix + str(a) + suffix` determines `a` when `suffix` does not start
      with a digit. */
  lemma NumberedInjective(prefix: string, a: nat, b: nat, suffix: string)
    requires suffix == [] || !IsDigit(suffix[0])
    requires prefix + NatToString(a) + suffix == prefix + NatToString(b) + suffix
    ensures a == b
  {
    var sa, sb := NatToString(a), NatToString(b);
    var u, v := sa + suffix, sb + suffix;
    assert prefix + u == prefix + NatToString(a) + suffix;
    assert prefix + v == prefix + NatToString(b) + suffix;
    assert u == (prefix + u)[|prefix|..] == (prefix + v)[|prefix|..] == v;
    assert forall i :: 0 <= i < |sa| ==> IsDigit(u[i]);
    assert forall i :: 0 <= i < |sb| ==> IsDigit(v[i]);
    assert |u| > |sa| ==> !IsDigit(u[|sa|]);
    assert |v| > |sb| ==> !IsDigit(v[|sb|]);
    assert |sa| == |sb|;
    assert sa == u[..|sa|] == v[..|sb|] == sb;
    NatToStringInjective(a, b);
  }

  // ---------------------------------------------------------------------
  // Character replacement (`s.replace(c, d)` for single characters)
  // ---------------------------------------------------------------------

  /** `s.replace(c, "")`: every occurrence of `c` dropped, order kept. */
  function RemoveChar(s: string, c: char): (r: string)
    ensures c !in r
    ensures |r| <= |s|
    ensures c !in s ==> r == s
  {
    if s == [] then []
    else if s[0] == c then RemoveChar(s[1..], c)
    else [s[0]] + RemoveChar(s[1..], c)
  }

  /** Removing `c` drops each of its occurrences and keeps every other
      character exactly as often as it occurs. */
  lemma {:induction false} RemoveCharCounts(s: string, c: char)
    ensures multiset(RemoveChar(s, c)) == multiset(s)[c := 0]
  {
    if s != [] {
      RemoveCharCounts(s[1..], c);
      assert s == [s[0]] + s[1..];
    }
  }

  /** Removal works piece by piece, so the kept characters stay in order. */
  lemma {:induction false} RemoveCharAppend(s: string, t: string, c: char)
    ensures RemoveChar(s + t, c) == RemoveChar(s, c) + RemoveChar(t, c)
  {
    if s != [] {
      assert (s + t)[0] == s[0] && (s + t)[1..] == s[1..] + t;
      RemoveCharAppend(s[1..], t, c);
      if s[0] != c {
        assert RemoveChar(s + t, c) == [s[0]] + (RemoveChar(s[1..], c) + RemoveChar(t, c));
      }
    } else {
      assert s + t == t;
    }
  }

  /** `s.replace(c, d)`: every occurrence of `c` becomes `d`. */
  function ReplaceChar(s: string, c: char, d: char): (r: string)
    ensures |r| == |s|
  {
    if s == [] then []
    else [if s[0] == c then d else s[0]] + ReplaceChar(s[1..], c, d)
  }

  /** Each character of `s.replace(c, d)` is that of `s`, with `c` turned
      into `d`. */
  lemma {:induction false} ReplaceCharAt(s: string, c: char, d: char)
    ensures forall i :: 0 <= i < |s| ==> ReplaceChar(s, c, d)[i] == (if s[i] == c then d else s[i])
  {
    if s != [] {
      ReplaceCharAt(s[1..], c, d);
      assert forall i :: 1 <= i < |s| ==> s[i] == s[1..][i - 1];
    }
  }

  // ---------------------------------------------------------------------
  // Whitespace splitting (`s.split()` with no separator)
  // ---------------------------------------------------------------------

  /** The characters `str.isspace()` accepts. */
  predicate IsSpace(c: char)
  {
    c == ' ' || c == '\t' || c == '\n' || c == '\r' || c == '\U{000B}' || c == '\U{000C}'
    || ('\U{001C}' <= c <= '\U{001F}') || c == '\U{0085}' || c == '\U{00A0}' || c == '\U{1680}'
    || ('\U{2000}' <= c <= '\U{200A}') || c == '\U{2028}' || c == '\U{2029}'
    || c == '\U{202F}' || c == '\U{205F}' || c == '\U{3000}'
  }

  /** Length of the leading run of non-space characters of `s`. */
  function WordLength(s: string): (n: nat)
    ensures n <= |s|
    ensures forall i :: 0 <= i < n ==> !IsSpace(s[i])
    ensures n < |s| ==> IsSpace(s[n])
  {
    if s == [] || IsSpace(s[0]) then 0 else 1 + WordLength(s[1..])
  }

  /** `s.split()`: the maximal runs of non-space characters, in order. */
  function Split(s: string): (r: seq<string>)
    ensures forall w :: w in r ==> w != [] && forall c :: c in w ==> !IsSpace(c)
    decreases |s|
  {
    if s == [] then []
    else if IsSpace(s[0]) then Split(s[1..])
    else
      var n := WordLength(s);
      [s[..n]] + Split(s[n..])
  }

  function Concat(ws: seq<string>): string
  {
    if ws == [] then [] else ws[0] + Concat(ws[1..])
  }

  /** `s` without its whitespace. */
  function NonSpace(s: string): string
  {
    if s == [] then [] else (if IsSpace(s[0]) then [] else [s[0]]) + NonSpace(s[1..])
  }

  lemma {:induction false} NonSpaceAppend(a: string, b: string)
    ensures NonSpace(a + b) == NonSpace(a) + NonSpace(b)
  {
    if a == [] {
      assert a + b == b;
    } else {
      assert (a + b)[0] == a[0] && (a + b)[1..] == a[1..] + b;
      NonSpaceAppend(a[1..], b);
      calc {
        NonSpace(a + b);
        (if IsSpace(a[0]) then [] else [a[0]]) + NonSpace(a[1..] + b);
        (if IsSpace(a[0]) then [] else [a[0]]) + (NonSpace(a[1..]) + NonSpace(b));
        NonSpace(a) + NonSpace(b);
      }
    }
  }

  lemma {:induction false} NonSpaceOfWord(w: string)
    requires forall i :: 0 <= i < |w| ==> !IsSpace(w[i])
    ensures NonSpace(w) == w
  {
    if w != [] {
      NonSpaceOfWord(w[1..]);
    }
  }

  /** The words of `s.split()` are exactly the non-space characters of `s`,
      in order: splitting loses only whitespace. */
  lemma {:induction false} SplitKeepsNonSpace(s: string)
    ensures Concat(Split(s)) == NonSpace(s)
    decreases |s|
  {
    if s == [] {
    } else if IsSpace(s[0]) {
      SplitKeepsNonSpace(s[1..]);
    } else {
      var n := WordLength(s);
      assert s == s[..n] + s[n..];
      NonSpaceAppend(s[..n], s[n..]);
      NonSpaceOfWord(s[..n]);
      SplitKeepsNonSpace(s[n..]);
    }
  }

  /** A character that is absent from `s` is absent from every word. */
  lemma {:induction false} SplitAvoids(s: string, c: char)
    requires c !in s
    ensures forall w :: w in Split(s) ==> c !in w
    decreases |s|
  {
    if s == [] {
    } else if IsSpace(s[0]) {
      SplitAvoids(s[1..], c);
    } else {
      var n := WordLength(s);
      assert forall i :: n <= i < |s| ==> s[n..][i - n] == s[i];
      SplitAvoids(s[n..], c);
    }
  }

  // ---------------------------------------------------------------------
  // Joining (`sep.join(xs)`)
  // ---------------------------------------------------------------------

  function Join(sep: string, xs: seq<string>): string
  {
    if xs == [] then []
    else if |xs| == 1 then xs[0]
    else xs[0] + sep + Join(sep, xs[1..])
  }

  /** Joining a concatenation puts one separator between the two joins. */
  lemma {:induction false} JoinConcat(sep: string, xs: seq<string>, ys: seq<string>)
    requires xs != [] && ys != []
    ensures Join(sep, xs + ys) == Join(sep, xs) + sep + Join(sep, ys)
    decreases |xs|
  {
    if |xs| == 1 {
      assert (xs + ys)[1..] == ys;
    } else {
      assert (xs + ys)[1..] == xs[1..] + ys;
      JoinConcat(sep, xs[1..], ys);
    }
  }
}
