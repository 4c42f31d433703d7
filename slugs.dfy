/** Slug derivation: the normaliser shared by `ContentUnit.slugify` and both
    adapters' `generateSlug`, and the candidate sequence `base`, `base-1`,
    `base-2`, ... that `generateSlug` probes. */
module Slugs {
  import opened Common

  /** `\s` in a JavaScript regular expression, which is also what `trim`
      removes: ASCII whitespace and the Unicode space separators. */
  predicate IsWhitespace(c: char) {
    var u := c as int;
    (0x09 <= u <= 0x0D) || u == 0x20 ||
    u == 0xA0 || u == 0x1680 || (0x2000 <= u <= 0x200A) || u == 0x2028 ||
    u == 0x2029 || u == 0x202F || u == 0x205F || u == 0x3000 || u == 0xFEFF
  }

  /** `\w`: ASCII letters, digits and underscore. */
  predicate IsWordChar(c: char) {
    ('a' <= c <= 'z') || ('A' <= c <= 'Z') || ('0' <= c <= '9') || c == '_'
  }

  /** The characters `[\s_-]+` collapses into one hyphen. */
  predicate IsSeparator(c: char) {
    IsWhitespace(c) || c == '_' || c == '-'
  }

  predicate IsSlugChar(c: char) {
    ('a' <= c <= 'z') || ('0' <= c <= '9') || c == '-'
  }

  predicate SlugChars(s: string) {
    forall i :: 0 <= i < |s| ==> IsSlugChar(s[i])
  }

  /** No two neighbouring hyphens. */
  ghost predicate NoDoubleHyphen(s: string) {
    forall i, j :: 0 <= i < j < |s| && j == i + 1 ==> !(s[i] == '-' && s[j] == '-')
  }

  /** The shape every slugify result has: `^[a-z0-9]+(-[a-z0-9]+)*$` or empty. */
  ghost predicate IsSlug(s: string) {
    && SlugChars(s)
    && (|s| > 0 ==> s[0] != '-' && s[|s| - 1] != '-')
    && NoDoubleHyphen(s)
  }

  // ---------------------------------------------------------------------------
  // The five steps of slugify, in the order the source chains them

  function LowerChar(c: char): char {
    if 'A' <= c <= 'Z' then (c as int + 32) as char else c
  }

  /** Step 1, `toLowerCase()`, on the ASCII letters. */
  function ToLower(s: string): (r: string)
    ensures |r| == |s|
    ensures forall i :: 0 <= i < |s| ==> r[i] == LowerChar(s[i])
    ensures NoUpper(r)
  {
    if |s| == 0 then "" else [LowerChar(s[0])] + ToLower(s[1..])
  }

  function TrimStart(s: string): (r: string)
    ensures |r| <= |s| && r == s[|s| - |r|..]
  {
    if |s| > 0 && IsWhitespace(s[0]) then TrimStart(s[1..]) else s
  }

  function TrimEnd(s: string): (r: string)
    ensures |r| <= |s| && r == s[..|r|]
  {
    if |s| > 0 && IsWhitespace(s[|s| - 1]) then TrimEnd(s[..|s| - 1]) else s
  }

  /** Step 2, `trim()`. */
  function Trim(s: string): string {
    TrimEnd(TrimStart(s))
  }

  /** Step 3, `replace(/[^\w\s-]/g, '')`. */
  function StripInvalid(s: string): (r: string)
    ensures forall i :: 0 <= i < |r| ==> IsWordChar(r[i]) || IsSeparator(r[i])
  {
    if |s| == 0 then ""
    else if IsWordChar(s[0]) || IsWhitespace(s[0]) || s[0] == '-' then [s[0]] + StripInvalid(s[1..])
    else StripInvalid(s[1..])
  }

  function DropSeparators(s: string): (r: string)
    ensures |r| <= |s|
    ensures |r| > 0 ==> !IsSeparator(r[0])
    ensures r == s[|s| - |r|..]
  {
    if |s| > 0 && IsSeparator(s[0]) then DropSeparators(s[1..]) else s
  }

  /** Step 4, `replace(/[\s_-]+/g, '-')`. */
  function Collapse(s: string): (r: string)
    ensures |s| > 0 <==> |r| > 0
    ensures |r| > 0 ==> (r[0] == '-' <==> IsSeparator(s[0]))
    decreases |s|
  {
    if |s| == 0 then ""
    else if IsSeparator(s[0]) then "-" + Collapse(DropSeparators(s[1..]))
    else [s[0]] + Collapse(s[1..])
  }

  /** Over slug characters and separators, collapsing leaves slug characters
      and no two hyphens in a row. */
  lemma {:induction false} CollapseShape(s: string)
    requires forall i :: 0 <= i < |s| ==> IsSlugChar(s[i]) || IsSeparator(s[i])
    ensures SlugChars(Collapse(s)) && NoDoubleHyphen(Collapse(s))
    decreases |s|
  {
    if |s| > 0 {
      var rest := if IsSeparator(s[0]) then DropSeparators(s[1..]) else s[1..];
      assert forall i :: 0 <= i < |rest| ==> rest[i] == s[|s| - |rest| + i];
      CollapseShape(rest);
      var head := if IsSeparator(s[0]) then '-' else s[0];
      assert Collapse(s) == [head] + Collapse(rest);
      ConsKeepsShape(head, Collapse(rest));
    }
  }

  /** Putting a slug character in front keeps the shape, unless it makes
      two hyphens in a row. */
  lemma ConsKeepsShape(h: char, c: string)
    requires IsSlugChar(h) && SlugChars(c) && NoDoubleHyphen(c)
    requires |c| > 0 && h == '-' ==> c[0] != '-'
    ensures SlugChars([h] + c) && NoDoubleHyphen([h] + c)
  {
    assert forall i :: 1 <= i < |c| + 1 ==> ([h] + c)[i] == c[i - 1];
  }

  function DropLeadingHyphens(s: string): (r: string)
    ensures |r| <= |s| && r == s[|s| - |r|..]
    ensures |r| > 0 ==> r[0] != '-'
  {
    if |s| > 0 && s[0] == '-' then DropLeadingHyphens(s[1..]) else s
  }

  function DropTrailingHyphens(s: string): (r: string)
    ensures |r| <= |s| && r == s[..|r|]
    ensures |r| > 0 ==> r[|r| - 1] != '-'
  {
    if |s| > 0 && s[|s| - 1] == '-' then DropTrailingHyphens(s[..|s| - 1]) else s
  }

  /** Step 5, `replace(/^-+|-+$/g, '')`. */
  function TrimHyphens(s: string): string {
    DropTrailingHyphens(DropLeadingHyphens(s))
  }

  /** `slugify(text)`. Non-ASCII letters are left to step 3, which removes
      them; the Unicode case mapping of `toLowerCase` is not modelled. */
  function Slugify(text: string): string {
    TrimHyphens(Collapse(StripInvalid(Trim(ToLower(text)))))
  }

  // ---------------------------------------------------------------------------
  // What slugify promises

  lemma {:induction false} StripAfterLowerHasNoUpper(s: string)
    requires NoUpper(s)
    ensures forall i :: 0 <= i < |StripInvalid(s)| ==>
              IsSlugChar(StripInvalid(s)[i]) || IsSeparator(StripInvalid(s)[i])
  {
    if |s| > 0 {
      StripAfterLowerHasNoUpper(s[1..]);
    }
  }

  /** A substring of a hyphen-free-pairs string over slug characters keeps both
      properties. */
  lemma SliceKeepsShape(s: string, a: int, b: int)
    requires 0 <= a <= b <= |s|
    requires SlugChars(s) && NoDoubleHyphen(s)
    ensures SlugChars(s[a..b]) && NoDoubleHyphen(s[a..b])
  {
    assert forall i :: 0 <= i < b - a ==> s[a..b][i] == s[a + i];
  }

  predicate NoUpper(s: string) {
    forall i :: 0 <= i < |s| ==> !('A' <= s[i] <= 'Z')
  }

  lemma NoUpperSlice(s: string, a: int, b: int)
    requires 0 <= a <= b <= |s| && NoUpper(s)
    ensures NoUpper(s[a..b])
  {
    assert forall i :: 0 <= i < b - a ==> s[a..b][i] == s[a + i];
  }

  lemma LoweredTrimmedHasNoUpper(text: string)
    ensures NoUpper(Trim(ToLower(text)))
  {
    var lowered := ToLower(text);
    var t1 := TrimStart(lowered);
    NoUpperSlice(lowered, |lowered| - |t1|, |lowered|);
    var trimmed := TrimEnd(t1);
    NoUpperSlice(t1, 0, |trimmed|);
  }

  lemma TrimHyphensIsSlug(s: string)
    requires SlugChars(s) && NoDoubleHyphen(s)
    ensures IsSlug(TrimHyphens(s))
  {
    var lead := DropLeadingHyphens(s);
    SliceKeepsShape(s, |s| - |lead|, |s|);
    var r := DropTrailingHyphens(lead);
    SliceKeepsShape(lead, 0, |r|);
    if |r| > 0 {
      assert r[0] == lead[0];
    }
  }

  /** Every slugify result is a slug: only `[a-z0-9-]`, no leading or trailing
      hyphen, no two hyphens in a row. */
  lemma SlugifyIsSlug(text: string)
    ensures IsSlug(Slugify(text))
  {
    var trimmed := Trim(ToLower(text));
    LoweredTrimmedHasNoUpper(text);
    StripAfterLowerHasNoUpper(trimmed);
    CollapseShape(StripInvalid(trimmed));
    TrimHyphensIsSlug(Collapse(StripInvalid(trimmed)));
  }

  /** On a slug, every step is the identity. */
  lemma {:induction false} ToLowerFixesSlug(s: string)
    requires IsSlug(s)
    ensures ToLower(s) == s
  {
    assert forall i :: 0 <= i < |s| ==> LowerChar(s[i]) == s[i];
  }

  lemma {:induction false} StripFixesSlugChars(s: string)
    requires forall i :: 0 <= i < |s| ==> IsSlugChar(s[i])
    ensures StripInvalid(s) == s
  {
    if |s| > 0 {
      StripFixesSlugChars(s[1..]);
    }
  }

  lemma {:induction false} CollapseFixes(s: string)
    requires SlugChars(s) && NoDoubleHyphen(s)
    ensures Collapse(s) == s
    decreases |s|
  {
    if |s| > 0 {
      var tail := s[1..];
      SliceKeepsShape(s, 1, |s|);
      CollapseFixes(tail);
      SlugCharIsNoSpace(s[0]);
      if s[0] == '-' {
        if |tail| > 0 {
          assert tail[0] == s[1] && s[1] != '-';
          SlugCharIsNoSpace(tail[0]);
        }
        assert DropSeparators(tail) == tail;
      }
      assert Collapse(s) == [s[0]] + Collapse(tail);
      assert s == [s[0]] + tail;
    }
  }

  /** Among slug characters only the hyphen is a separator, and none is
      whitespace. */
  lemma SlugCharIsNoSpace(c: char)
    requires IsSlugChar(c)
    ensures !IsWhitespace(c) && (IsSeparator(c) <==> c == '-')
  {
  }

  lemma TrimFixesSlug(s: string)
    requires IsSlug(s)
    ensures Trim(s) == s
  {
    if |s| > 0 {
      SlugCharIsNoSpace(s[0]);
      SlugCharIsNoSpace(s[|s| - 1]);
      assert TrimStart(s) == s;
    }
  }

  lemma TrimHyphensFixesSlug(s: string)
    requires IsSlug(s)
    ensures TrimHyphens(s) == s
  {
  }

  lemma SlugifyFixesSlugs(s: string)
    requires IsSlug(s)
    ensures Slugify(s) == s
  {
    ToLowerFixesSlug(s);
    TrimFixesSlug(s);
    StripFixesSlugChars(s);
    CollapseFixes(s);
    TrimHyphensFixesSlug(s);
  }

  /** `slugify(slugify(x)) == slugify(x)`. */
  lemma SlugifyIdempotent(text: string)
    ensures Slugify(Slugify(text)) == Slugify(text)
  {
    SlugifyIsSlug(text);
    SlugifyFixesSlugs(Slugify(text));
  }

  // ---------------------------------------------------------------------------
  // Collision resolution

  /** The k-th slug `generateSlug` probes: `base`, then `base-k` for k >= 1. */
  function Candidate(base: string, k: nat): string {
    if k == 0 then base else base + "-" + NatToDecimal(k)
  }

  lemma CandidateInjective(base: string, j: nat, k: nat)
    requires Candidate(base, j) == Candidate(base, k)
    ensures j == k
  {
    if j != 0 && k != 0 {
      var cj := Candidate(base, j);
      assert cj[|base| + 1..] == NatToDecimal(j);
      assert Candidate(base, k)[|base| + 1..] == NatToDecimal(k);
      NatToDecimalInjective(j, k);
    } else {
      assert |Candidate(base, j)| == |Candidate(base, k)|;
    }
  }

  /** `slug` is what the probe loop returns: the first free candidate. */
  ghost predicate IsFirstFree(slug: string, base: string, taken: set<string>) {
    exists k: nat :: slug == Candidate(base, k) && slug !in taken &&
                     forall j: nat :: j < k ==> Candidate(base, j) in taken
  }

  /** The set of the first n candidates. */
  ghost function Candidates(base: string, n: nat): (c: set<string>)
    ensures forall j: nat :: j < n ==> Candidate(base, j) in c
    ensures forall x :: x in c ==> exists j: nat :: j < n && Candidate(base, j) == x
    ensures |c| == n
  {
    if n == 0 then {}
    else
      var prev := Candidates(base, n - 1);
      assert Candidate(base, n - 1) !in prev by {
        if Candidate(base, n - 1) in prev {
          var j: nat :| j < n - 1 && Candidate(base, j) == Candidate(base, n - 1);
          CandidateInjective(base, j, n - 1);
        }
      }
      prev + {Candidate(base, n - 1)}
  }

  /** The probe loop ends: n occupied candidates need n occupied slugs. */
  lemma OccupiedCandidatesBound(base: string, n: nat, taken: set<string>)
    requires forall j: nat :: j < n ==> Candidate(base, j) in taken
    ensures n <= |taken|
  {
    var c := Candidates(base, n);
    assert c <= taken by {
      forall x | x in c ensures x in taken {
        var j: nat :| j < n && Candidate(base, j) == x;
      }
    }
    var rest := taken - c;
    assert taken == c + rest;
    assert c * rest == {};
  }

  /** Allocating twice from the same text in one namespace gives `base` and
      then `base-1`. */
  lemma SecondAllocationGetsSuffix(base: string, slug: string)
    requires IsFirstFree(slug, base, {base})
    ensures slug == base + "-1"
  {
    var k: nat :| slug == Candidate(base, k) && slug !in {base} &&
                  forall j: nat :: j < k ==> Candidate(base, j) in {base};
    if k >= 2 {
      assert Candidate(base, 1) in {base};
      CandidateInjective(base, 0, 1);
    }
    assert NatToDecimal(1) == "1";
  }
}
