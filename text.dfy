/** The Python string operations the scraper uses, over `string`: a sequence
    of Unicode scalar values, where a Python `str` is a sequence of code
    points that may also hold lone surrogates. Substring test,
    `strip()`, deleting a character class with `re.sub`, `replace`, and taking
    the last piece of `split`. */
module Text {

  /** `sub` occurs in `s` starting at index i. */
  predicate OccursAt(s: string, sub: string, i: nat) {
    i + |sub| <= |s| && s[i..i + |sub|] == sub
  }

  /** Whether `sub` occurs in `s` at index k or later. */
  function ContainsFrom(s: string, sub: string, k: nat): (b: bool)
    ensures b <==> exists i :: k <= i && OccursAt(s, sub, i)
    decreases |s| - k
  {
    if k + |sub| > |s| then false
    else if OccursAt(s, sub, k) then true
    else ContainsFrom(s, sub, k + 1)
  }

  /** Python's `sub in s`. */
  function Contains(s: string, sub: string): (b: bool)
    ensures b <==> exists i :: OccursAt(s, sub, i)
  {
    ContainsFrom(s, sub, 0)
  }

  /** Python's `str.isspace` for one character: the characters `strip()`
      removes when called without arguments. */
  predicate IsSpace(c: char) {
    || c == ' '
    || ('\t' <= c <= '\r')
    || ('\U{1C}' <= c <= '\U{1F}')
    || c == '\U{85}' || c == '\U{A0}' || c == '\U{1680}'
    || ('\U{2000}' <= c <= '\U{200A}')
    || c == '\U{2028}' || c == '\U{2029}' || c == '\U{202F}' || c == '\U{205F}'
    || c == '\U{3000}'
  }

  /** `s.lstrip()`: the suffix of s left after dropping leading whitespace. */
  function StripStart(s: string): (r: string)
    ensures |r| <= |s| && r == s[|s| - |r|..]
    ensures forall i :: 0 <= i < |s| - |r| ==> IsSpace(s[i])
    ensures r == [] || !IsSpace(r[0])
    decreases |s|
  {
    if s != [] && IsSpace(s[0]) then StripStart(s[1..]) else s
  }

  /** `s.rstrip()`: the prefix of s left after dropping trailing whitespace. */
  function StripEnd(s: string): (r: string)
    ensures |r| <= |s| && r == s[..|r|]
    ensures forall i :: |r| <= i < |s| ==> IsSpace(s[i])
    ensures r == [] || !IsSpace(r[|r| - 1])
    decreases |s|
  {
    if s != [] && IsSpace(s[|s| - 1]) then StripEnd(s[..|s| - 1]) else s
  }

  /** A prefix of a suffix of s is a slice of s. */
  lemma PrefixOfSuffix(s: string, t: string, r: string)
    requires |t| <= |s| && t == s[|s| - |t|..]
    requires |r| <= |t| && r == t[..|r|]
    ensures OccursAt(s, r, |s| - |t|)
  {
    assert s[|s| - |t|..|s| - |t| + |r|] == s[|s| - |t|..][..|r|];
  }

  /** What follows the prefix r of the suffix t is what follows it in s. */
  lemma TrailingSpaces(s: string, t: string, r: string)
    requires |t| <= |s| && t == s[|s| - |t|..]
    requires |r| <= |t| && forall i :: |r| <= i < |t| ==> IsSpace(t[i])
    ensures forall j :: |s| - |t| + |r| <= j < |s| ==> IsSpace(s[j])
  {
    forall j | |s| - |t| + |r| <= j < |s| ensures IsSpace(s[j]) {
      assert s[j] == t[j - (|s| - |t|)];
    }
  }

  /** `s.strip()`: the longest slice of s between runs of whitespace at
      either end. */
  function Strip(s: string): (r: string)
    ensures exists i: nat :: OccursAt(s, r, i) &&
                        (forall j :: 0 <= j < i ==> IsSpace(s[j])) &&
                        (forall j :: i + |r| <= j < |s| ==> IsSpace(s[j]))
    ensures r == [] || (!IsSpace(r[0]) && !IsSpace(r[|r| - 1]))
    ensures forall c :: c in r ==> c in s
  {
    var t := StripStart(s);
    var r := StripEnd(t);
    PrefixOfSuffix(s, t, r);
    TrailingSpaces(s, t, r);
    SliceChars(s, r, |s| - |t|);
    r
  }

  /** Every character of a slice occurs in the whole. */
  lemma SliceChars(s: string, r: string, i: nat)
    requires OccursAt(s, r, i)
    ensures forall c :: c in r ==> c in s
  {
    forall c | c in r ensures c in s {
      var j :| 0 <= j < |r| && r[j] == c;
      assert s[i + j] == c;
    }
  }

  /** Stripping a string that neither starts nor ends with whitespace
      leaves it as it is. */
  lemma StripTrimmed(s: string)
    requires s == [] || (!IsSpace(s[0]) && !IsSpace(s[|s| - 1]))
    ensures Strip(s) == s
  {
  }

  /** The nine characters file names may not hold: backslash, slash,
      asterisk, question mark, colon, double quote, less-than, greater-than
      and vertical bar. */
  predicate IsForbidden(c: char) {
    c == '\\' || c == '/' || c == '*' || c == '?' || c == ':' || c == '"' || c == '<' || c == '>' || c == '|'
  }

  /** s with every forbidden character deleted and every other character
      kept, in order. */
  function DropForbidden(s: string): (r: string)
    ensures forall c :: IsForbidden(c) ==> c !in r
    ensures forall c :: !IsForbidden(c) ==> multiset(r)[c] == multiset(s)[c]
    ensures (forall i :: 0 <= i < |s| ==> !IsForbidden(s[i])) ==> r == s
    decreases |s|
  {
    if s == [] then []
    else
      assert s == [s[0]] + s[1..];
      (if IsForbidden(s[0]) then [] else [s[0]]) + DropForbidden(s[1..])
  }

  /** What the deletion keeps of one character. */
  function KeptChar(c: char): string {
    if IsForbidden(c) then [] else [c]
  }

  lemma DropForbiddenCons(s: string)
    requires s != []
    ensures DropForbidden(s) == KeptChar(s[0]) + DropForbidden(s[1..])
  {
  }

  /** Deleting characters keeps the order of the rest: the result for a
      concatenation is the concatenation of the results. */
  lemma {:induction false} DropForbiddenAppend(a: string, b: string)
    ensures DropForbidden(a + b) == DropForbidden(a) + DropForbidden(b)
    decreases |a|
  {
    if a == [] {
      assert a + b == b;
    } else {
      ConsAppend(a, b);
      DropForbiddenCons(a + b);
      DropForbiddenCons(a);
      DropForbiddenAppend(a[1..], b);
      Associative(KeptChar(a[0]), DropForbidden(a[1..]), DropForbidden(b));
    }
  }

  lemma ConsAppend(a: string, b: string)
    requires a != []
    ensures (a + b)[0] == a[0] && (a + b)[1..] == a[1..] + b
  {
  }

  lemma Associative(x: string, y: string, z: string)
    ensures x + (y + z) == (x + y) + z
  {
  }

  /** `s.replace(" ", "_")`. */
  function SpacesToUnderscores(s: string): (r: string)
    ensures |r| == |s|
    ensures forall i :: 0 <= i < |s| ==> r[i] == (if s[i] == ' ' then '_' else s[i])
    decreases |s|
  {
    if s == [] then [] else [if s[0] == ' ' then '_' else s[0]] + SpacesToUnderscores(s[1..])
  }

  /** A file-name-safe string: no forbidden character, no space, and no
      whitespace at either end. */
  predicate IsClean(s: string) {
    && (forall i :: 0 <= i < |s| ==> !IsForbidden(s[i]) && s[i] != ' ')
    && (s == [] || (!IsSpace(s[0]) && !IsSpace(s[|s| - 1])))
  }

  /** The sanitiser the scraper applies to page titles and product names:
      delete the forbidden characters, strip, then turn spaces into
      underscores. */
  function Sanitize(s: string): (r: string)
    ensures IsClean(r)
    ensures |r| <= |s|
  {
    var d := DropForbidden(s);
    var t := Strip(d);
    UnderscoredIsClean(t);
    DropForbiddenShrinks(s);
    SpacesToUnderscores(t)
  }

  /** A trimmed string without forbidden characters is clean once its spaces
      become underscores. */
  lemma UnderscoredIsClean(t: string)
    requires forall c :: IsForbidden(c) ==> c !in t
    requires t == [] || (!IsSpace(t[0]) && !IsSpace(t[|t| - 1]))
    ensures IsClean(SpacesToUnderscores(t))
  {
    var r := SpacesToUnderscores(t);
    forall i | 0 <= i < |r| ensures !IsForbidden(r[i]) && r[i] != ' ' {
      assert t[i] in t;
    }
  }

  lemma {:induction false} DropForbiddenShrinks(s: string)
    ensures |DropForbidden(s)| <= |s|
    decreases |s|
  {
    if s != [] { DropForbiddenShrinks(s[1..]); }
  }

  /** A clean string passes through the sanitiser unchanged. */
  lemma SanitizeKeepsClean(s: string)
    requires IsClean(s)
    ensures Sanitize(s) == s
  {
    assert DropForbidden(s) == s;
    StripTrimmed(s);
    var r := SpacesToUnderscores(s);
    assert r == s;
  }

  /** Sanitising twice is sanitising once. */
  lemma SanitizeIdempotent(s: string)
    ensures Sanitize(Sanitize(s)) == Sanitize(s)
  {
    SanitizeKeepsClean(Sanitize(s));
  }

  /** `s[k..].replace(pat, "")`: occurrences of pat are deleted left to right
      without overlapping, and the text left behind is not searched again. */
  function RemoveFrom(s: string, pat: string, k: nat): (r: string)
    requires k <= |s|
    ensures |r| <= |s| - k
    decreases |s| - k
  {
    if |pat| == 0 || k + |pat| > |s| then s[k..]
    else if OccursAt(s, pat, k) then RemoveFrom(s, pat, k + |pat|)
    else
      assert s[k..] == [s[k]] + s[k + 1..];
      [s[k]] + RemoveFrom(s, pat, k + 1)
  }

  /** Python's `s.replace(pat, "")`. */
  function RemoveAll(s: string, pat: string): (r: string)
    ensures |r| <= |s|
    ensures !Contains(s, pat) ==> r == s
  {
    if !Contains(s, pat) then
      RemoveFromNoOccurrence(s, pat, 0);
      RemoveFrom(s, pat, 0)
    else RemoveFrom(s, pat, 0)
  }

  /** With no occurrence of pat at k or later, the scan keeps the rest of s. */
  lemma {:induction false} RemoveFromNoOccurrence(s: string, pat: string, k: nat)
    requires k <= |s|
    requires forall i :: k <= i ==> !OccursAt(s, pat, i)
    ensures RemoveFrom(s, pat, k) == s[k..]
    decreases |s| - k
  {
    if |pat| > 0 && k + |pat| <= |s| {
      RemoveFromNoOccurrence(s, pat, k + 1);
      SliceCons(s, k);
    }
  }

  lemma SliceCons(a: string, k: nat)
    requires k < |a|
    ensures a[k..] == [a[k]] + a[k + 1..]
  {
  }

  /** pat occurs in a + pat + b right after a. */
  lemma OccursAfter(a: string, pat: string, b: string)
    ensures OccursAt(a + pat + b, pat, |a|)
  {
    assert (a + pat + b)[|a|..|a| + |pat|] == pat;
  }

  /** An occurrence in a + pat + b that starts inside a lies within a + pat. */
  lemma OccursInPrefix(a: string, pat: string, b: string, k: nat)
    requires k < |a|
    ensures OccursAt(a + pat + b, pat, k) <==> OccursAt(a + pat, pat, k)
    ensures (a + pat + b)[k] == a[k]
  {
    if k + |pat| <= |a + pat| {
      assert (a + pat + b)[k..k + |pat|] == (a + pat)[k..k + |pat|];
    }
  }

  /** Indices into b are shifted by |c| in c + b. */
  lemma ShiftSuffix(c: string, b: string, k: nat)
    requires k <= |b|
    ensures (c + b)[|c| + k..] == b[k..]
  {
  }

  lemma ShiftOccurs(c: string, b: string, pat: string, k: nat)
    requires k <= |b|
    ensures OccursAt(c + b, pat, |c| + k) <==> OccursAt(b, pat, k)
  {
    if k + |pat| <= |b| {
      assert (c + b)[|c| + k..|c| + k + |pat|] == b[k..k + |pat|];
    }
  }

  /** Scanning s = a + pat + b from index k at most |a|, with no occurrence
      of pat starting before |a|: the characters of a are kept and the scan
      skips the occurrence at |a|. */
  lemma {:induction false} RemoveFromUpTo(a: string, pat: string, b: string, k: nat)
    requires |pat| > 0 && k <= |a|
    requires forall i :: k <= i < |a| ==> !OccursAt(a + pat, pat, i)
    ensures RemoveFrom(a + pat + b, pat, k) == a[k..] + RemoveFrom(a + pat + b, pat, |a| + |pat|)
    decreases |a| - k
  {
    var s := a + pat + b;
    if k == |a| {
      OccursAfter(a, pat, b);
      assert a[k..] == [];
    } else {
      OccursInPrefix(a, pat, b, k);
      RemoveFromUpTo(a, pat, b, k + 1);
      SliceCons(a, k);
      Associative([a[k]], a[k + 1..], RemoveFrom(s, pat, |a| + |pat|));
    }
  }

  /** Scanning c + b from |c| + k is scanning b from k. */
  lemma {:induction false} RemoveFromShift(c: string, b: string, pat: string, k: nat)
    requires k <= |b|
    ensures RemoveFrom(c + b, pat, |c| + k) == RemoveFrom(b, pat, k)
    decreases |b| - k
  {
    if |pat| > 0 && k + |pat| <= |b| {
      if OccursAt(b, pat, k) {
        RemoveFromShift(c, b, pat, k + |pat|);
        ShiftSkip(c, b, pat, k);
      } else {
        RemoveFromShift(c, b, pat, k + 1);
        ShiftKeep(c, b, pat, k);
      }
    } else {
      ShiftEnd(c, b, pat, k);
    }
  }

  /** Both scans stop where too little text is left for pat. */
  lemma ShiftEnd(c: string, b: string, pat: string, k: nat)
    requires k <= |b| && (|pat| == 0 || k + |pat| > |b|)
    ensures RemoveFrom(c + b, pat, |c| + k) == RemoveFrom(b, pat, k)
  {
    ShiftSuffix(c, b, k);
    RemoveFromStep(c + b, pat, |c| + k);
    RemoveFromStep(b, pat, k);
  }

  /** The scan over c + b skips an occurrence inside b as the scan over b does. */
  lemma ShiftSkip(c: string, b: string, pat: string, k: nat)
    requires |pat| > 0 && k + |pat| <= |b| && OccursAt(b, pat, k)
    requires RemoveFrom(c + b, pat, |c| + (k + |pat|)) == RemoveFrom(b, pat, k + |pat|)
    ensures RemoveFrom(c + b, pat, |c| + k) == RemoveFrom(b, pat, k)
  {
    ShiftOccurs(c, b, pat, k);
    RemoveFromStep(c + b, pat, |c| + k);
    RemoveFromStep(b, pat, k);
    assert |c| + k + |pat| == |c| + (k + |pat|);
  }

  /** The scan over c + b keeps a character of b as the scan over b does. */
  lemma ShiftKeep(c: string, b: string, pat: string, k: nat)
    requires |pat| > 0 && k + |pat| <= |b| && !OccursAt(b, pat, k)
    requires RemoveFrom(c + b, pat, |c| + (k + 1)) == RemoveFrom(b, pat, k + 1)
    ensures RemoveFrom(c + b, pat, |c| + k) == RemoveFrom(b, pat, k)
  {
    ShiftOccurs(c, b, pat, k);
    RemoveFromStep(c + b, pat, |c| + k);
    RemoveFromStep(b, pat, k);
    assert (c + b)[|c| + k] == b[k];
    assert |c| + k + 1 == |c| + (k + 1);
  }

  /** One step of the scan. */
  lemma RemoveFromStep(s: string, pat: string, k: nat)
    requires k <= |s|
    ensures |pat| == 0 || k + |pat| > |s| ==> RemoveFrom(s, pat, k) == s[k..]
    ensures |pat| > 0 && k + |pat| <= |s| && OccursAt(s, pat, k) ==>
              RemoveFrom(s, pat, k) == RemoveFrom(s, pat, k + |pat|)
    ensures |pat| > 0 && k + |pat| <= |s| && !OccursAt(s, pat, k) ==>
              RemoveFrom(s, pat, k) == [s[k]] + RemoveFrom(s, pat, k + 1)
  {
  }

  /** `replace(pat, "")` deletes the first occurrence of pat and goes on
      after it: the text before it is kept as it is, and the rest is
      treated the same way. */
  lemma RemoveAllIsScan(s: string, pat: string)
    ensures RemoveAll(s, pat) == RemoveFrom(s, pat, 0)
  {
  }

  lemma RemoveAllFirstOccurrence(a: string, pat: string, b: string)
    requires |pat| > 0
    requires forall i :: 0 <= i < |a| ==> !OccursAt(a + pat, pat, i)
    ensures RemoveAll(a + pat + b, pat) == a + RemoveAll(b, pat)
  {
    var c := a + pat;
    var s := c + b;
    RemoveFromUpTo(a, pat, b, 0);
    assert RemoveFrom(s, pat, 0) == a + RemoveFrom(s, pat, |c|) by {
      assert a[0..] == a;
      assert |a| + |pat| == |c|;
    }
    RemoveFromShift(c, b, pat, 0);
    RemoveAllIsScan(s, pat);
    RemoveAllIsScan(b, pat);
  }

  /** A leading pat is removed, and the rest is treated as on its own. */
  lemma RemoveAllLeading(pat: string, rest: string)
    requires |pat| > 0
    ensures RemoveAll(pat + rest, pat) == RemoveAll(rest, pat)
  {
    var empty: string := [];
    assert empty + pat + rest == pat + rest;
    RemoveAllFirstOccurrence(empty, pat, rest);
  }

  /** `s.split(sep)[-1]`: what follows the last sep, or all of s when sep
      does not occur. */
  function LastPiece(s: string, sep: char): (r: string)
    ensures sep !in r
    ensures |r| <= |s| && r == s[|s| - |r|..]
    ensures |r| < |s| ==> s[|s| - |r| - 1] == sep
    decreases |s|
  {
    if s == [] || s[|s| - 1] == sep then []
    else
      assert s[..|s| - 1] + [s[|s| - 1]] == s;
      LastPiece(s[..|s| - 1], sep) + [s[|s| - 1]]
  }

  /** The last piece of p + [sep] + t is t when t has no sep. */
  lemma {:induction false} LastPieceAfter(p: string, sep: char, t: string)
    requires sep !in t
    ensures LastPiece(p + [sep] + t, sep) == t
    decreases |t|
  {
    var s := p + [sep] + t;
    if t != [] {
      var t' := t[..|t| - 1];
      assert s[..|s| - 1] == p + [sep] + t';
      assert s[|s| - 1] == t[|t| - 1];
      LastPieceAfter(p, sep, t');
      assert t' + [t[|t| - 1]] == t;
    }
  }
}
