/**
 The last-character skip search of folly: qfind in folly/Range.h, for any equality, and
 basic_fbstring::find in folly/FBString.h.
 */
module Search {
  import opened Options

  /** `needle` is at position `i`, character by character. */
  ghost predicate Match<T>(h: seq<T>, needle: seq<T>, eq: (T, T) -> bool, i: nat) {
    i + |needle| <= |h| && forall j :: 0 <= j < |needle| ==> eq(h[i + j], needle[j])
  }

  /** The least match from `from` on, if there is any. */
  ghost predicate IsLeast<T>(h: seq<T>, needle: seq<T>, eq: (T, T) -> bool, from: nat, r: Option<nat>) {
    match r
    case Some(i) => from <= i && Match(h, needle, eq, i) && forall k: nat :: from <= k < i ==> !Match(h, needle, eq, k)
    case None => forall k: nat :: from <= k ==> !Match(h, needle, eq, k)
  }

  /** Things equal to the same thing are equal to each other. */
  ghost predicate Euclidean<T(!new)>(eq: (T, T) -> bool) {
    forall x, a, b :: eq(x, a) && eq(x, b) ==> eq(a, b)
  }

  // ---------------------------------------------------------------- the search as a function

  /** How far the last character of the needle is from the one before it that equals it: at least `s`. */
  function SkipFrom<T>(needle: seq<T>, eq: (T, T) -> bool, s: nat): (r: nat)
    requires 1 <= s <= |needle|
    ensures s <= r <= |needle|
    ensures forall k :: |needle| - r <= k < |needle| - s ==> !eq(needle[k], needle[|needle| - 1])
    decreases |needle| - s
  {
    if s <= |needle| - 1 && !eq(needle[|needle| - 1 - s], needle[|needle| - 1]) then SkipFrom(needle, eq, s + 1) else s
  }

  predicate Matches<T>(h: seq<T>, needle: seq<T>, eq: (T, T) -> bool, i: nat, j: nat)
    requires i + |needle| <= |h| && j <= |needle|
    decreases |needle| - j
  {
    j == |needle| || (eq(h[i + j], needle[j]) && Matches(h, needle, eq, i, j + 1))
  }

  /** Try position `i`; skip when the last character matches and the rest does not. */
  function Find<T>(h: seq<T>, needle: seq<T>, eq: (T, T) -> bool, i: nat): (r: Option<nat>)
    requires needle != []
    decreases |h| - i
  {
    if i + |needle| > |h| then None
    else if !eq(h[i + |needle| - 1], needle[|needle| - 1]) then Find(h, needle, eq, i + 1)
    else if Matches(h, needle, eq, i, 0) then Some(i)
    else Find(h, needle, eq, i + SkipFrom(needle, eq, 1))
  }

  function QFindSpec<T>(h: seq<T>, needle: seq<T>, eq: (T, T) -> bool): (r: Option<nat>) {
    if |h| < |needle| then None else if needle == [] then Some(0) else Find(h, needle, eq, 0)
  }

  lemma {:induction false} MatchesIsMatch<T>(h: seq<T>, needle: seq<T>, eq: (T, T) -> bool, i: nat, j: nat)
    requires i + |needle| <= |h| && j <= |needle|
    ensures Matches(h, needle, eq, i, j) <==> forall k :: j <= k < |needle| ==> eq(h[i + k], needle[k])
    decreases |needle| - j
  {
    if j < |needle| {
      MatchesIsMatch(h, needle, eq, i, j + 1);
      assert (forall k :: j <= k < |needle| ==> eq(h[i + k], needle[k])) <==>
        eq(h[i + j], needle[j]) && forall k :: j + 1 <= k < |needle| ==> eq(h[i + k], needle[k]);
    }
  }

  // ---------------------------------------------------------------- when it is right

  /** Nothing is skipped: a match in between would make two unequal needle characters equal to one haystack character. */
  lemma SkipIsSafe<T(!new)>(h: seq<T>, needle: seq<T>, eq: (T, T) -> bool, i: nat, k: nat)
    requires Euclidean(eq) && needle != [] && i + |needle| <= |h| && eq(h[i + |needle| - 1], needle[|needle| - 1])
    requires i < k < i + SkipFrom(needle, eq, 1)
    ensures !Match(h, needle, eq, k)
  {
    var n := |needle| - 1;
    var d := k - i;
    assert !eq(needle[n - d], needle[n]);
    assert k + (n - d) == i + n;
    assert !eq(h[k + (n - d)], needle[n - d]);
  }

  lemma {:induction false} FindIsLeast<T(!new)>(h: seq<T>, needle: seq<T>, eq: (T, T) -> bool, i: nat)
    requires Euclidean(eq) && needle != []
    ensures IsLeast(h, needle, eq, i, Find(h, needle, eq, i))
    decreases |h| - i
  {
    if i + |needle| <= |h| {
      var n := |needle| - 1;
      MatchesIsMatch(h, needle, eq, i, 0);
      if !eq(h[i + n], needle[n]) {
        assert !Match(h, needle, eq, i);
        FindIsLeast(h, needle, eq, i + 1);
        LeastFromEarlier(h, needle, eq, i, i + 1, Find(h, needle, eq, i + 1));
      } else if !Matches(h, needle, eq, i, 0) {
        var s := SkipFrom(needle, eq, 1);
        FindIsLeast(h, needle, eq, i + s);
        forall k: nat | i <= k < i + s ensures !Match(h, needle, eq, k) {
          if k > i { SkipIsSafe(h, needle, eq, i, k); }
        }
        LeastFromEarlier(h, needle, eq, i, i + s, Find(h, needle, eq, i + s));
      }
    }
  }

  lemma LeastFromEarlier<T>(h: seq<T>, needle: seq<T>, eq: (T, T) -> bool, i: nat, j: nat, r: Option<nat>)
    requires i <= j && IsLeast(h, needle, eq, j, r) && forall k: nat :: i <= k < j ==> !Match(h, needle, eq, k)
    ensures IsLeast(h, needle, eq, i, r)
  {
  }

  /** A haystack where the search misses its needle. */
  lemma MissedMatch<T(!new)>(eq: (T, T) -> bool, x: T, a: T, b: T)
    requires eq(x, a) && eq(x, b) && !eq(a, b)
    ensures Match([a, x, x, x], [b, a, b], eq, 1) && QFindSpec([a, x, x, x], [b, a, b], eq) == None
  {
    var h, needle := [a, x, x, x], [b, a, b];
    assert !Matches(h, needle, eq, 0, 0);
    assert SkipFrom(needle, eq, 1) == SkipFrom(needle, eq, 2) >= 2;
    assert Find(h, needle, eq, 0) == Find(h, needle, eq, SkipFrom(needle, eq, 1));
  }

  /** `qfind` finds the least match in every haystack exactly for the Euclidean equalities, and so for every equivalence. */
  lemma QFindIsRightIffEuclidean<T(!new)>(eq: (T, T) -> bool)
    ensures (forall h, needle :: IsLeast(h, needle, eq, 0, QFindSpec(h, needle, eq))) <==> Euclidean(eq)
  {
    if Euclidean(eq) {
      forall h, needle ensures IsLeast(h, needle, eq, 0, QFindSpec(h, needle, eq)) {
        if |h| >= |needle| > 0 { FindIsLeast(h, needle, eq, 0); }
      }
    } else {
      var x, a, b :| eq(x, a) && eq(x, b) && !eq(a, b);
      MissedMatch(eq, x, a, b);
      assert !IsLeast([a, x, x, x], [b, a, b], eq, 0, QFindSpec([a, x, x, x], [b, a, b], eq));
    }
  }

  // ---------------------------------------------------------------- the loops

  /** The search from `pos` on: last character first, then one by one, with a skip computed when it is first needed. */
  method FindLoop<T>(h: seq<T>, needle: seq<T>, eq: (T, T) -> bool, pos: nat) returns (r: Option<nat>)
    requires needle != [] && pos + |needle| <= |h|
    ensures r == Find(h, needle, eq, pos)
  {
    var n := |needle| - 1;
    var last := needle[n];
    var skip := 0;
    var i, iEnd := pos, |h| - n;
    while i < iEnd
      invariant pos <= i && Find(h, needle, eq, pos) == Find(h, needle, eq, i)
      invariant skip == 0 || skip == SkipFrom(needle, eq, 1)
      decreases |h| - i
    {
      while !eq(h[i + n], last)
        invariant pos <= i < iEnd && Find(h, needle, eq, pos) == Find(h, needle, eq, i)
        decreases iEnd - i
      {
        i := i + 1;
        if i == iEnd { return None; }
      }
      var j := Mismatch(h, needle, eq, i);
      if j == |needle| { return Some(i); }
      if skip == 0 { skip := ComputeSkip(needle, eq); }
      i := i + skip;
    }
    return None;
  }

  /** Pedestrian mode: the first position that differs. */
  method Mismatch<T>(h: seq<T>, needle: seq<T>, eq: (T, T) -> bool, i: nat) returns (j: nat)
    requires needle != [] && i + |needle| <= |h|
    ensures j <= |needle| && (j == |needle| <==> Matches(h, needle, eq, i, 0))
  {
    j := 0;
    while true
      invariant j < |needle| && (Matches(h, needle, eq, i, 0) <==> Matches(h, needle, eq, i, j))
      decreases |needle| - j
    {
      if !eq(h[i + j], needle[j]) { return; }
      j := j + 1;
      if j == |needle| { return; }
    }
  }

  method ComputeSkip<T>(needle: seq<T>, eq: (T, T) -> bool) returns (skip: nat)
    requires needle != []
    ensures skip == SkipFrom(needle, eq, 1)
  {
    var n := |needle| - 1;
    skip := 1;
    while skip <= n && !eq(needle[n - skip], needle[n])
      invariant 1 <= skip <= |needle| && SkipFrom(needle, eq, 1) == SkipFrom(needle, eq, skip)
    {
      skip := skip + 1;
    }
  }

  method QFind<T>(h: seq<T>, needle: seq<T>, eq: (T, T) -> bool) returns (r: Option<nat>)
    ensures r == QFindSpec(h, needle, eq)
  {
    if |h| < |needle| { return None; }
    if |needle| == 0 { return Some(0); }
    r := FindLoop(h, needle, eq, 0);
  }

  // ---------------------------------------------------------------- fbstring::find

  const NPOS: nat := 0xFFFF_FFFF_FFFF_FFFF

  function Same(): (r: (char, char) -> bool) { (a, b) => a == b }

  /** What a returned position says. */
  function Found(r: nat): (o: Option<nat>) { if r == NPOS then None else Some(r) }

  /** basic_fbstring::find(needle, pos, nsize); positions and sizes are 64 bits, and their sum may wrap. */
  method FBFind(h: string, needle: string, pos: nat) returns (r: nat)
    requires |h| < NPOS && |needle| < NPOS && pos <= NPOS
    ensures needle != "" ==> IsLeast(h, needle, Same(), pos, Found(r))
    ensures needle == "" ==> r == pos && (IsLeast(h, needle, Same(), pos, Found(r)) <==> pos <= |h| || pos == NPOS)
  {
    if |needle| == 0 { return pos; }
    var sum := (|needle| + pos) % (NPOS + 1);
    if sum > |h| || sum < pos { return NPOS; }
    var at := FindLoop(h, needle, Same(), pos);
    FindIsLeast(h, needle, Same(), pos);
    return if at.None? then NPOS else at.value;
  }

  /** An empty needle beyond the end: position 1 is returned, but is no position of an empty string. */
  method EmptyNeedleBeyondEnd() returns (r: nat)
    ensures r == 1 && !IsLeast("", "", Same(), 1, Found(r)) && IsLeast("", "", Same(), 1, None)
  {
    r := FBFind("", "", 1);
  }
}
