/** The Kotlin string operations the core relies on: case-insensitive
    character comparison, `contains(…, ignoreCase = true)`, `replace(" ", "_")`
    and `lowercase()`. Unicode case mapping is not modelled: the per-character
    `uppercaseChar`/`lowercaseChar` tables are parameters (`CaseMap`). */
module KotlinText {

  /** The platform's per-character case mapping. */
  datatype CaseMap = CaseMap(upper: char -> char, lower: char -> char)

  /** Kotlin `Char.equals(other, ignoreCase = true)`: equal as written, equal
      once upper-cased, or equal once upper-cased and then lower-cased. */
  predicate EqualsIgnoreCase(a: char, b: char, cm: CaseMap) {
    a == b || cm.upper(a) == cm.upper(b) || cm.lower(cm.upper(a)) == cm.lower(cm.upper(b))
  }

  /** The fold key that decides `EqualsIgnoreCase`. */
  function FoldKey(c: char, cm: CaseMap): char {
    cm.lower(cm.upper(c))
  }

  /** Ignore-case equality of characters is exactly equality of fold keys, so
      it is an equivalence relation. */
  lemma EqualsIgnoreCaseIsFoldEquality(a: char, b: char, cm: CaseMap)
    ensures EqualsIgnoreCase(a, b, cm) <==> FoldKey(a, cm) == FoldKey(b, cm)
  {
  }

  /** `q` occurs in `text` at position `i`, ignoring case. */
  predicate MatchesAt(text: string, q: string, i: nat, cm: CaseMap) {
    i + |q| <= |text| && forall j :: 0 <= j < |q| ==> EqualsIgnoreCase(text[i + j], q[j], cm)
  }

  /** `text` begins with `q`, ignoring case (Kotlin `regionMatches` at offset 0). */
  function StartsWithIgnoreCase(text: string, q: string, cm: CaseMap): (r: bool)
    ensures r <==> MatchesAt(text, q, 0, cm)
    decreases |q|
  {
    if |q| == 0 then true
    else if |text| == 0 then false
    else EqualsIgnoreCase(text[0], q[0], cm) && StartsWithIgnoreCase(text[1..], q[1..], cm)
  }

  /** Kotlin `text.contains(q, ignoreCase = true)`: scans the start offsets
      from left to right for an ignore-case match; the empty query matches. */
  function ContainsIgnoreCase(text: string, q: string, cm: CaseMap): (r: bool)
    ensures r <==> exists i: nat :: MatchesAt(text, q, i, cm)
    decreases |text|
  {
    if |q| > |text| then false
    else if StartsWithIgnoreCase(text, q, cm) then true
    else
      var rest := ContainsIgnoreCase(text[1..], q, cm);
      assert forall i: nat :: MatchesAt(text[1..], q, i, cm) <==> MatchesAt(text, q, i + 1, cm);
      assert forall i: nat :: MatchesAt(text, q, i, cm) ==> i == 0 || MatchesAt(text[1..], q, i - 1, cm);
      rest
  }

  /** Every string contains the empty query. */
  lemma ContainsEmpty(text: string, cm: CaseMap)
    ensures ContainsIgnoreCase(text, "", cm)
  {
    assert MatchesAt(text, "", 0, cm);
  }

  /** A string with every character replaced by its fold key. */
  function Fold(s: string, cm: CaseMap): (r: string)
    ensures |r| == |s|
    ensures forall i :: 0 <= i < |s| ==> r[i] == FoldKey(s[i], cm)
  {
    seq(|s|, i requires 0 <= i < |s| => FoldKey(s[i], cm))
  }

  /** `pat` occurs verbatim in `s` at position `i`. */
  predicate OccursAt(s: string, pat: string, i: nat) {
    i + |pat| <= |s| && s[i..i + |pat|] == pat
  }

  /** Ignore-case containment is plain containment of the case-folded query
      in the case-folded text. */
  lemma ContainsIgnoreCaseIsFoldedContainment(text: string, q: string, cm: CaseMap)
    ensures ContainsIgnoreCase(text, q, cm) <==> exists i: nat :: OccursAt(Fold(text, cm), Fold(q, cm), i)
  {
    var ft, fq := Fold(text, cm), Fold(q, cm);
    forall i: nat
      ensures MatchesAt(text, q, i, cm) <==> OccursAt(ft, fq, i)
    {
      if i + |q| <= |text| {
        if MatchesAt(text, q, i, cm) {
          forall j | 0 <= j < |q|
            ensures ft[i..i + |q|][j] == fq[j]
          {
            EqualsIgnoreCaseIsFoldEquality(text[i + j], q[j], cm);
          }
        }
        if OccursAt(ft, fq, i) {
          forall j | 0 <= j < |q|
            ensures EqualsIgnoreCase(text[i + j], q[j], cm)
          {
            assert ft[i..i + |q|][j] == fq[j];
            EqualsIgnoreCaseIsFoldEquality(text[i + j], q[j], cm);
          }
        }
      }
    }
  }

  /** Kotlin `s.replace(target, replacement)` (case-sensitive): scans left to right and
      replaces each non-overlapping occurrence of `target`. An empty `target` occurs
      before every character and at the end, so `replacement` is inserted there. */
  function ReplaceAll(s: string, target: string, replacement: string): string
    decreases |s|
  {
    if |target| == 0 then
      if |s| == 0 then replacement else replacement + [s[0]] + ReplaceAll(s[1..], target, replacement)
    else if |s| < |target| then s
    else if s[..|target|] == target then replacement + ReplaceAll(s[|target|..], target, replacement)
    else [s[0]] + ReplaceAll(s[1..], target, replacement)
  }

  /** Each space becomes an underscore; every other character stays. */
  function SpacesToUnderscores(s: string): (r: string)
    ensures |r| == |s|
    ensures forall i :: 0 <= i < |s| ==> r[i] == (if s[i] == ' ' then '_' else s[i])
  {
    seq(|s|, i requires 0 <= i < |s| => if s[i] == ' ' then '_' else s[i])
  }

  /** Replacing the one-character string " " by "_" is the per-character map
      from spaces to underscores. */
  lemma {:induction false} ReplaceSpacesIsCharMap(s: string)
    ensures ReplaceAll(s, " ", "_") == SpacesToUnderscores(s)
    decreases |s|
  {
    if |s| > 0 {
      ReplaceSpacesIsCharMap(s[1..]);
      assert s[..1] == [s[0]];
      assert SpacesToUnderscores(s) == SpacesToUnderscores(s[..1]) + SpacesToUnderscores(s[1..]);
    }
  }

  /** Kotlin `s.lowercase()`, one character at a time. */
  function Lowercase(s: string, cm: CaseMap): (r: string)
    ensures |r| == |s|
    ensures forall i :: 0 <= i < |s| ==> r[i] == cm.lower(s[i])
  {
    seq(|s|, i requires 0 <= i < |s| => cm.lower(s[i]))
  }

  /** The identifier fragment derived from a card title:
      `title.replace(" ", "_").lowercase()`. */
  function Slug(title: string, cm: CaseMap): string {
    Lowercase(ReplaceAll(title, " ", "_"), cm)
  }

  /** Two titles that differ at a position where neither holds a space, and
      whose characters there lower-case differently, get different slugs. */
  lemma SlugsDiffer(s: string, t: string, p: nat, cm: CaseMap)
    requires p < |s| && p < |t|
    requires s[p] != ' ' && t[p] != ' ' && cm.lower(s[p]) != cm.lower(t[p])
    ensures Slug(s, cm) != Slug(t, cm)
  {
    ReplaceSpacesIsCharMap(s);
    ReplaceSpacesIsCharMap(t);
    assert Slug(s, cm)[p] == cm.lower(s[p]);
  }

  /** Lower-casing keeps apart any two different characters of `cs`. */
  ghost predicate LowerSeparates(cm: CaseMap, cs: string) {
    forall a, b :: 0 <= a < |cs| && 0 <= b < |cs| && cs[a] != cs[b] ==> cm.lower(cs[a]) != cm.lower(cs[b])
  }
}
