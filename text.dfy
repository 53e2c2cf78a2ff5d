/** The few .NET string operations the chat application relies on. */
module Text {

  /** Char.IsWhiteSpace: the space, line and paragraph separators of Unicode
      (categories Zs, Zl, Zp) together with the controls U+0009..U+000D and U+0085. */
  predicate IsWhiteSpace(c: char) {
    || ('\t' <= c <= '\r')
    || c == ' '
    || c == '\U{0085}'
    || c == '\U{00A0}'
    || c == '\U{1680}'
    || ('\U{2000}' <= c <= '\U{200A}')
    || c == '\U{2028}'
    || c == '\U{2029}'
    || c == '\U{202F}'
    || c == '\U{205F}'
    || c == '\U{3000}'
  }

  /** string.TrimStart() without arguments: removes the longest prefix of white space. */
  function TrimStart(s: string): (r: string)
    ensures |r| <= |s| && r == s[|s| - |r|..]
    ensures forall i :: 0 <= i < |s| - |r| ==> IsWhiteSpace(s[i])
    ensures r != [] ==> !IsWhiteSpace(r[0])
  {
    if s != [] && IsWhiteSpace(s[0]) then TrimStart(s[1..]) else s
  }

  /** Any split of a string into a white-space prefix and a rest that does not start
      with white space is the split TrimStart makes. */
  lemma TrimStartUnique(w: string, t: string)
    requires forall i :: 0 <= i < |w| ==> IsWhiteSpace(w[i])
    requires t != [] ==> !IsWhiteSpace(t[0])
    ensures TrimStart(w + t) == t
  {
    var s := w + t;
    assert s[|w|..] == t;
  }

  /** Trimming twice removes nothing more. */
  lemma TrimStartIdempotent(s: string)
    ensures TrimStart(TrimStart(s)) == TrimStart(s)
  {
    TrimStartUnique([], TrimStart(s));
  }

  /** Lower-casing of one character, for the characters enum names are made of. */
  function LowerChar(c: char): char {
    if 'A' <= c <= 'Z' then (c as int - 'A' as int + 'a' as int) as char else c
  }

  /** string.ToLower() on ASCII text: every capital letter becomes its small letter,
      every other character is kept. */
  function ToLower(s: string): (r: string)
    ensures |r| == |s|
    ensures forall i :: 0 <= i < |s| ==> r[i] == LowerChar(s[i])
    ensures forall i :: 0 <= i < |r| ==> !('A' <= r[i] <= 'Z')
  {
    seq(|s|, i requires 0 <= i < |s| => LowerChar(s[i]))
  }

  /** Concatenation is associative; stated once so that proofs over long string
      templates can use it without unfolding them. */
  lemma AppendAssoc<T>(a: seq<T>, b: seq<T>, c: seq<T>)
    ensures (a + b) + c == a + (b + c)
  {
  }

  /** A sequence is the part before position i, the element at i and the part after. */
  lemma SplitAt<T>(s: seq<T>, i: nat)
    requires i < |s|
    ensures s == (s[..i] + [s[i]]) + s[i + 1..]
    ensures (s[..i] + [s[i]])[..i] == s[..i]
  {
  }

  /** The concatenation of a sequence of strings, in order (string.Concat). */
  function Concat(parts: seq<string>): string {
    if parts == [] then [] else Concat(parts[..|parts| - 1]) + parts[|parts| - 1]
  }

  lemma ConcatTwo(a: string, b: string)
    ensures Concat([a]) == a
    ensures Concat([a, b]) == a + b
  {
    assert [a][..0] == [];
    assert [a, b][..1] == [a];
  }

  lemma {:induction false} ConcatAppend(a: seq<string>, b: seq<string>)
    ensures Concat(a + b) == Concat(a) + Concat(b)
    decreases |b|
  {
    if b != [] {
      var b' := b[..|b| - 1];
      assert (a + b)[..|a + b| - 1] == a + b';
      ConcatAppend(a, b');
      AppendAssoc(Concat(a), Concat(b'), b[|b| - 1]);
    } else {
      assert a + b == a;
    }
  }

  /** A common head keeps the prefix order. */
  lemma PrefixAfterHead<T>(a: seq<T>, x: seq<T>, y: seq<T>)
    requires x <= y
    ensures a + x <= a + y
  {
    assert (a + y)[..|a + x|] == a + x;
  }

  /** Concatenating a prefix of the parts gives a prefix of the whole concatenation. */
  lemma ConcatPrefix(parts: seq<string>, i: nat)
    requires i <= |parts|
    ensures Concat(parts[..i]) <= Concat(parts)
  {
    assert parts == parts[..i] + parts[i..];
    ConcatAppend(parts[..i], parts[i..]);
  }
}
