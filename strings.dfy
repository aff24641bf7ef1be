/** The few Python `str` operations the bridge relies on, on `seq<char>`. */
module PyStrings {
  import opened Wrappers

  /** Python's `str.isspace()` for one character: the Unicode White_Space
      characters together with the separators U+001C..U+001F. */
  predicate IsSpace(c: char) {
    || ('\t' <= c <= '\r')
    || ('\U{1C}' <= c <= ' ')
    || c == '\U{85}' || c == '\U{A0}' || c == '\U{1680}'
    || ('\U{2000}' <= c <= '\U{200A}')
    || c == '\U{2028}' || c == '\U{2029}' || c == '\U{202F}' || c == '\U{205F}' || c == '\U{3000}'
  }

  /** `s.lstrip()`: the suffix of `s` left after dropping leading whitespace. */
  function TrimStart(s: string): (r: string)
    ensures |r| <= |s| && r == s[|s| - |r|..]
    ensures r == [] || !IsSpace(r[0])
    ensures forall i :: 0 <= i < |s| - |r| ==> IsSpace(s[i])
  {
    if s != [] && IsSpace(s[0]) then TrimStart(s[1..]) else s
  }

  /** `s.rstrip()`: the prefix of `s` left after dropping trailing whitespace. */
  function TrimEnd(s: string): (r: string)
    ensures |r| <= |s| && r == s[..|r|]
    ensures r == [] || !IsSpace(r[|r| - 1])
    ensures forall i :: |r| <= i < |s| ==> IsSpace(s[i])
  {
    if s != [] && IsSpace(s[|s| - 1]) then TrimEnd(s[..|s| - 1]) else s
  }

  /** `s.strip()`. It is empty exactly when `s` is blank, which is what
      Python's `not s.strip()` tests. */
  function Strip(s: string): (r: string)
    ensures |r| <= |s|
    ensures r == [] || (!IsSpace(r[0]) && !IsSpace(r[|r| - 1]))
    ensures r == [] <==> forall i :: 0 <= i < |s| ==> IsSpace(s[i])
  {
    var t := TrimStart(s);
    var r := TrimEnd(t);
    assert r != [] ==> r[0] == t[0];
    assert t == [] ==> r == [];
    r
  }

  /** Stripping twice strips nothing more. */
  lemma StripIdempotent(s: string)
    ensures Strip(Strip(s)) == Strip(s)
  {
    var r := Strip(s);
    if r != [] {
      assert TrimStart(r) == r;
      assert TrimEnd(r) == r;
    }
  }

  /** `pat` occurs in `s` starting at index `i`. */
  predicate OccursAt(s: string, pat: string, i: int) {
    0 <= i && i + |pat| <= |s| && s[i..i + |pat|] == pat
  }

  /** `s.find(pat, i)`: the first index at or after `i` where `pat` occurs. */
  function FindFrom(s: string, pat: string, i: nat): (r: Option<nat>)
    requires i <= |s|
    ensures r.Some? ==> i <= r.value && OccursAt(s, pat, r.value)
    ensures r.Some? ==> forall j :: i <= j < r.value ==> !OccursAt(s, pat, j)
    ensures r.None? ==> forall j :: i <= j ==> !OccursAt(s, pat, j)
    decreases |s| - i
  {
    if i + |pat| > |s| then None
    else if s[i..i + |pat|] == pat then Some(i)
    else FindFrom(s, pat, i + 1)
  }

  /** Python's `pat in s`. */
  predicate Contains(s: string, pat: string) {
    FindFrom(s, pat, 0).Some?
  }

  /** A pattern whose first character does not occur in `s` is not in `s`. */
  lemma AbsentFirstCharNotContained(s: string, pat: string)
    requires pat != [] && pat[0] !in s
    ensures !Contains(s, pat)
  {
    forall j | 0 <= j < |s| ensures !OccursAt(s, pat, j) {
      if j + |pat| <= |s| {
        assert s[j..j + |pat|][0] == s[j];
      }
    }
  }

  /** `parts[0]` and `parts[1]` of `s.split(sep)` when `sep` occurs in `s`:
      the text before the first occurrence and the text between the first
      and the second occurrence (or the end of `s`). `None` when `sep` does
      not occur, where `split` gives the single part `[s]`. */
  function SplitFirstTwo(s: string, sep: string): (r: Option<(string, string)>)
    requires sep != []
    ensures r.None? <==> forall j :: !OccursAt(s, sep, j)
    ensures r.Some? ==>
      var (a, b) := r.value;
      && |a| + |sep| + |b| <= |s|
      && s[..|a|] == a && OccursAt(s, sep, |a|)
      && (forall j :: 0 <= j < |a| ==> !OccursAt(s, sep, j))
      && s[|a| + |sep|..|a| + |sep| + |b|] == b
      && (forall j :: |a| + |sep| <= j < |a| + |sep| + |b| ==> !OccursAt(s, sep, j))
      && (|a| + |sep| + |b| == |s| || OccursAt(s, sep, |a| + |sep| + |b|))
  {
    match FindFrom(s, sep, 0)
    case None => None
    case Some(i) =>
      var rest := i + |sep|;
      var b := match FindFrom(s, sep, rest)
        case None => s[rest..]
        case Some(k) => s[rest..k];
      Some((s[..i], b))
  }

  /** The number of times `c` occurs in `s` (`s.count(c)`). */
  function Count(s: string, c: char): (n: nat)
    ensures n <= |s|
    ensures n == 0 <==> c !in s
  {
    if s == [] then 0 else (if s[0] == c then 1 else 0) + Count(s[1..], c)
  }

  /** `s.replace(c, rep)` for a one-character pattern `c`: every occurrence
      of `c` is replaced by `rep`, scanning left to right. */
  function ReplaceChar(s: string, c: char, rep: string): (r: string)
    ensures c !in rep ==> c !in r
    ensures forall d :: d in r ==> d in rep || (d in s && d != c)
  {
    if s == [] then []
    else (if s[0] == c then rep else [s[0]]) + ReplaceChar(s[1..], c, rep)
  }

  /** Replacing distributes over concatenation. */
  lemma {:induction false} ReplaceCharAppend(a: string, b: string, c: char, rep: string)
    ensures ReplaceChar(a + b, c, rep) == ReplaceChar(a, c, rep) + ReplaceChar(b, c, rep)
  {
    if a == [] {
      assert a + b == b;
    } else {
      assert (a + b)[1..] == a[1..] + b;
      ReplaceCharAppend(a[1..], b, c, rep);
    }
  }

  /** Replacing a character that does not occur changes nothing. */
  lemma {:induction false} ReplaceCharAbsent(s: string, c: char, rep: string)
    requires c !in s
    ensures ReplaceChar(s, c, rep) == s
  {
    if s != [] {
      assert c !in s[1..];
      ReplaceCharAbsent(s[1..], c, rep);
    }
  }
}
