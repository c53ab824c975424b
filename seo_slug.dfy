/**
  `generateSlug` of lib/seo-utils.ts: five passes over the lower-cased
  text, each a regular-expression replacement.
*/
module Slug {
  import opened Text

  /** What the second pass keeps: `\w`, `\s` and `-`. */
  predicate Kept(c: char) { IsWordChar(c) || IsJsSpace(c) || c == '-' }

  /** A character a slug may hold: `a-z`, `0-9`, `_` or `-`. */
  predicate SlugChar(c: char) { IsAsciiLower(c) || IsDigit(c) || c == '_' || c == '-' }

  predicate NoDoubleHyphen(s: string) {
    forall i :: 0 <= i < |s| - 1 ==> !(s[i] == '-' && s[i + 1] == '-')
  }

  predicate NoUpper(s: string) {
    forall i :: 0 <= i < |s| ==> !IsAsciiUpper(s[i])
  }

  /** Every character is kept by the second pass and none is an upper-case letter. */
  predicate Lowered(s: string) {
    forall i :: 0 <= i < |s| ==> Kept(s[i]) && !IsAsciiUpper(s[i])
  }

  predicate NoSpace(s: string) {
    forall i :: 0 <= i < |s| ==> !IsJsSpace(s[i])
  }

  /** `.replace(/[^\w\s-]/g, '')`. */
  function RemoveSpecial(s: string): (r: string)
    ensures |r| <= |s|
    ensures forall i :: 0 <= i < |r| ==> Kept(r[i])
    ensures NoUpper(s) ==> NoUpper(r)
    ensures (forall i :: 0 <= i < |s| ==> Kept(s[i])) ==> r == s
  {
    if |s| == 0 then ""
    else if Kept(s[0]) then [s[0]] + RemoveSpecial(s[1..])
    else RemoveSpecial(s[1..])
  }

  /** The two character classes whose runs the slug passes collapse: `\s` and `-`. */
  datatype RunClass = Spaces | Hyphens

  predicate InClass(k: RunClass, c: char) {
    if k == Spaces then IsJsSpace(c) else c == '-'
  }

  /** Drops the run of characters of class `k` at the front of `s`. */
  function SkipRun(s: string, k: RunClass): (r: string)
    ensures |r| <= |s| && r == s[|s| - |r|..]
    ensures |r| > 0 ==> !InClass(k, r[0])
    ensures forall i :: 0 <= i < |s| - |r| ==> InClass(k, s[i])
  {
    if |s| > 0 && InClass(k, s[0]) then SkipRun(s[1..], k) else s
  }

  /** `.replace(/\s+/g, '-')` or `.replace(/-+/g, '-')`: each maximal run of the class becomes one hyphen. */
  function CollapseRuns(s: string, k: RunClass): (r: string)
    ensures forall i :: 0 <= i < |r| ==> r[i] == '-' || !InClass(k, r[i])
    ensures Lowered(s) ==> Lowered(r)
    ensures NoSpace(s) ==> NoSpace(r)
    ensures |s| > 0 && !InClass(k, s[0]) ==> |r| > 0 && r[0] == s[0]
    decreases |s|
  {
    if |s| == 0 then ""
    else if InClass(k, s[0]) then "-" + CollapseRuns(SkipRun(s, k), k)
    else [s[0]] + CollapseRuns(s[1..], k)
  }

  /**
    The replacement as a left-to-right scan: a character outside the class
    is copied, a character of the class gives `-` when it starts a run
    (`inRun` is false) and nothing when it continues one.
  */
  function Scan(s: string, k: RunClass, inRun: bool): string
    decreases |s|
  {
    if |s| == 0 then ""
    else (if !InClass(k, s[0]) then [s[0]] else if inRun then "" else "-") + Scan(s[1..], k, InClass(k, s[0]))
  }

  /** Inside a run, the scan gives what it gives from the end of the run on. */
  lemma {:induction false} ScanInRun(s: string, k: RunClass)
    ensures Scan(s, k, true) == Scan(SkipRun(s, k), k, false)
    decreases |s|
  {
    if |s| > 0 {
      if InClass(k, s[0]) {
        ScanInRun(s[1..], k);
        assert Scan(s, k, true) == "" + Scan(s[1..], k, true);
      } else {
        assert Scan(s, k, true) == [s[0]] + Scan(s[1..], k, false) == Scan(s, k, false);
      }
    }
  }

  /** Collapsing the runs is the scan: every maximal run of the class becomes exactly one `-`, and every other character is kept, in order. */
  lemma {:induction false} CollapseRunsScan(s: string, k: RunClass)
    ensures CollapseRuns(s, k) == Scan(s, k, false)
    decreases |s|
  {
    if |s| > 0 {
      if InClass(k, s[0]) {
        CollapseRunsScan(SkipRun(s, k), k);
        ScanInRun(s[1..], k);
        assert SkipRun(s, k) == SkipRun(s[1..], k);
        assert Scan(s, k, false) == "-" + Scan(s[1..], k, true);
      } else {
        CollapseRunsScan(s[1..], k);
        assert Scan(s, k, false) == [s[0]] + Scan(s[1..], k, false);
      }
    }
  }

  /** `.replace(/^-+|-+$/g, '')`. */
  function StripHyphens(s: string): (r: string)
    ensures |r| <= |s|
    ensures |r| > 0 ==> r[0] != '-' && r[|r| - 1] != '-'
    ensures Lowered(s) ==> Lowered(r)
    ensures NoSpace(s) ==> NoSpace(r)
    ensures NoDoubleHyphen(s) ==> NoDoubleHyphen(r)
    ensures |s| > 0 && s[0] != '-' && s[|s| - 1] != '-' ==> r == s
  {
    StripEnds(s, SkipRun(s, Hyphens), DropTrailingHyphens(SkipRun(s, Hyphens)));
    DropTrailingHyphens(SkipRun(s, Hyphens))
  }

  /** The facts `StripHyphens` states, for the run-free suffix `front` of `s` and its prefix `r`. */
  lemma StripEnds(s: string, front: string, r: string)
    requires |front| <= |s| && front == s[|s| - |front|..]
    requires |front| > 0 ==> front[0] != '-'
    requires |s| > 0 && s[0] != '-' ==> front == s
    requires |r| <= |front| && r == front[..|r|]
    requires |r| > 0 ==> r[|r| - 1] != '-'
    requires |front| > 0 && front[0] != '-' ==> |r| > 0 && r[0] != '-'
    requires |front| > 0 && front[|front| - 1] != '-' ==> r == front
    ensures |r| > 0 ==> r[0] != '-'
    ensures Lowered(s) ==> Lowered(r)
    ensures NoSpace(s) ==> NoSpace(r)
    ensures NoDoubleHyphen(s) ==> NoDoubleHyphen(r)
    ensures |s| > 0 && s[0] != '-' && s[|s| - 1] != '-' ==> r == s
  {
    assert r == s[|s| - |front|..|s| - |front| + |r|];
    SlicePreserves(s, |s| - |front|, r);
    if |r| > 0 {
      assert r[0] == front[0];
    }
  }

  /** A contiguous piece of a string keeps the properties the passes establish. */
  lemma SlicePreserves(s: string, off: nat, r: string)
    requires off + |r| <= |s| && r == s[off..off + |r|]
    ensures Lowered(s) ==> Lowered(r)
    ensures NoSpace(s) ==> NoSpace(r)
    ensures NoDoubleHyphen(s) ==> NoDoubleHyphen(r)
  {
    assert forall i :: 0 <= i < |r| ==> r[i] == s[off + i];
  }

  function DropTrailingHyphens(s: string): (r: string)
    ensures |r| <= |s| && r == s[..|r|]
    ensures |r| > 0 ==> r[|r| - 1] != '-'
    ensures |s| > 0 && s[0] != '-' ==> |r| > 0 && r[0] != '-'
    ensures |s| > 0 && s[|s| - 1] != '-' ==> r == s
  {
    if |s| > 0 && s[|s| - 1] == '-' then DropTrailingHyphens(s[..|s| - 1]) else s
  }

  /** A character that survives every pass is a slug character. */
  lemma SlugChars(s: string)
    requires Lowered(s) && NoSpace(s)
    ensures forall i :: 0 <= i < |s| ==> SlugChar(s[i])
  {
  }

  /** The first four passes: lower-casing, removing special characters and collapsing space and hyphen runs. */
  function Squeezed(text: string): (r: string)
    ensures Lowered(r) && NoSpace(r) && NoDoubleHyphen(r)
  {
    var kept := RemoveSpecial(ToLower(text));
    assert Lowered(kept);
    var spaced := CollapseRuns(kept, Spaces);
    assert NoSpace(spaced);
    CollapseHyphensNoDouble(spaced);
    CollapseRuns(spaced, Hyphens)
  }

  /** `generateSlug(text)`: the trim pass finds no whitespace left, and the last pass strips edge hyphens. */
  function GenerateSlug(text: string): (r: string)
    ensures forall i :: 0 <= i < |r| ==> SlugChar(r[i])
    ensures NoDoubleHyphen(r)
    ensures |r| > 0 ==> r[0] != '-' && r[|r| - 1] != '-'
  {
    var squeezed := Squeezed(text);
    TrimNoSpace(squeezed);
    SlugChars(StripHyphens(squeezed));
    StripHyphens(Trim(squeezed))
  }

  /** After hyphen runs are collapsed no two hyphens are adjacent. */
  lemma {:induction false} CollapseHyphensNoDouble(s: string)
    ensures NoDoubleHyphen(CollapseRuns(s, Hyphens))
    decreases |s|
  {
    if |s| > 0 {
      if s[0] == '-' {
        var t := SkipRun(s, Hyphens);
        CollapseHyphensNoDouble(t);
        var rt := CollapseRuns(t, Hyphens);
        assert CollapseRuns(s, Hyphens) == "-" + rt;
        if |t| > 0 {
          assert rt[0] == t[0] != '-';
        }
      } else {
        CollapseHyphensNoDouble(s[1..]);
        assert CollapseRuns(s, Hyphens) == [s[0]] + CollapseRuns(s[1..], Hyphens);
      }
    }
  }

  /** A string with no character of the class is left as it is. */
  lemma {:induction false} CollapseRunsAbsent(s: string, k: RunClass)
    requires forall i :: 0 <= i < |s| ==> !InClass(k, s[i])
    ensures CollapseRuns(s, k) == s
    decreases |s|
  {
    if |s| > 0 {
      CollapseRunsAbsent(s[1..], k);
      assert s == [s[0]] + s[1..];
    }
  }

  /** Hyphens that already stand alone are left as they are. */
  lemma {:induction false} CollapseSingleHyphens(s: string)
    requires NoDoubleHyphen(s)
    ensures CollapseRuns(s, Hyphens) == s
    decreases |s|
  {
    if |s| > 0 {
      CollapseSingleHyphens(s[1..]);
      if s[0] == '-' {
        assert SkipRun(s, Hyphens) == SkipRun(s[1..], Hyphens);
        assert |s| == 1 || s[1] != '-';
        assert SkipRun(s[1..], Hyphens) == s[1..];
      }
      assert s == [s[0]] + s[1..];
    }
  }

  lemma ToLowerOfLower(s: string)
    requires forall i :: 0 <= i < |s| ==> !IsAsciiUpper(s[i])
    ensures ToLower(s) == s
  {
  }

  /** What `GenerateSlug` produces: slug characters, no doubled hyphen, no hyphen at either end. */
  predicate IsSlug(y: string) {
    && (forall i :: 0 <= i < |y| ==> SlugChar(y[i]))
    && NoDoubleHyphen(y)
    && (|y| > 0 ==> y[0] != '-' && y[|y| - 1] != '-')
  }

  /** Every pass leaves a slug as it is. */
  lemma SlugFixed(y: string)
    requires IsSlug(y)
    ensures GenerateSlug(y) == y
  {
    assert forall i :: 0 <= i < |y| ==> Kept(y[i]) && !IsAsciiUpper(y[i]) && !IsJsSpace(y[i]);
    ToLowerOfLower(y);
    assert ToLower(y) == y;
    assert RemoveSpecial(y) == y;
    CollapseRunsAbsent(y, Spaces);
    assert CollapseRuns(y, Spaces) == y;
    CollapseSingleHyphens(y);
    assert CollapseRuns(y, Hyphens) == y;
    assert Squeezed(y) == y;
    TrimNoSpace(y);
    assert Trim(y) == y;
    assert StripHyphens(y) == y;
  }

  /** A slug is its own slug. */
  lemma SlugIdempotent(text: string)
    ensures GenerateSlug(GenerateSlug(text)) == GenerateSlug(text)
  {
    SlugFixed(GenerateSlug(text));
  }
}
