/** Which characters of a text are still there once patches have been spliced into it. */
module Survival {
  import opened Splicing

  datatype Origin = FromText(pos: int) | FromPatch

  function Untouched(n: nat): seq<Origin> {
    if n == 0 then [] else Untouched(n - 1) + [FromText(n - 1)]
  }

  function Fill(n: nat): seq<Origin> {
    if n == 0 then [] else Fill(n - 1) + [FromPatch]
  }

  /** Where each character comes from once the patches have been spliced into a text of n characters. */
  function Origins(n: nat, patches: seq<Patch>): seq<Origin> {
    if patches == [] then Untouched(n)
    else
      var before, last := Origins(n, patches[..|patches| - 1]), patches[|patches| - 1];
      Take(before, last.start) + Fill(|last.replacement|) + Drop(before, last.end)
  }

  lemma {:induction false} UntouchedAt(n: nat, i: nat)
    ensures |Untouched(n)| == n && (i < n ==> Untouched(n)[i] == FromText(i))
  {
    if n > 0 {
      UntouchedAt(n - 1, i);
    }
  }

  lemma {:induction false} FillAt(n: nat, i: nat)
    ensures |Fill(n)| == n && (i < n ==> Fill(n)[i] == FromPatch)
  {
    if n > 0 {
      FillAt(n - 1, i);
    }
  }

  predicate True(text: string, origin: Origin, c: char) {
    origin.FromText? ==> 0 <= origin.pos < |text| && c == text[origin.pos]
  }

  /** The origins are those of the characters of r. */
  predicate Truthful(text: string, origins: seq<Origin>, r: string) {
    |origins| == |r| && forall i | 0 <= i < |r| :: True(text, origins[i], r[i])
  }

  lemma SplicedTruthfully(text: string, origins: seq<Origin>, r: string, patch: Patch)
    requires Truthful(text, origins, r)
    ensures Truthful(text, Take(origins, patch.start) + Fill(|patch.replacement|) + Drop(origins, patch.end),
                     Splice(r, patch))
  {
    var n := |patch.replacement|;
    FillAt(n, 0);
    forall i | 0 <= i < n
      ensures True(text, Fill(n)[i], patch.replacement[i])
    {
      FillAt(n, i);
    }
    TruthfulConcat(text, Take(origins, patch.start), Take(r, patch.start), Fill(n), patch.replacement);
    TruthfulConcat(text, Take(origins, patch.start) + Fill(n), Take(r, patch.start) + patch.replacement,
                   Drop(origins, patch.end), Drop(r, patch.end));
  }

  lemma TruthfulConcat(text: string, a: seq<Origin>, r: string, b: seq<Origin>, s: string)
    requires Truthful(text, a, r) && Truthful(text, b, s)
    ensures Truthful(text, a + b, r + s)
  {
  }

  /** Origins tells the truth: each character of the result is the one of the text it names. */
  lemma {:induction false} OriginsAreTrue(text: string, patches: seq<Patch>)
    ensures Truthful(text, Origins(|text|, patches), SpliceAll(text, patches))
  {
    if patches == [] {
      UntouchedAt(|text|, 0);
      forall i | 0 <= i < |text|
        ensures True(text, Untouched(|text|)[i], text[i])
      {
        UntouchedAt(|text|, i);
      }
    } else {
      var before, last := patches[..|patches| - 1], patches[|patches| - 1];
      OriginsAreTrue(text, before);
      SplicedTruthfully(text, Origins(|text|, before), SpliceAll(text, before), last);
    }
  }

  /** By how much the patches that start at or before q, together, lengthen the text. */
  function Growth(patches: seq<Patch>, q: int): int {
    if patches == [] then 0
    else
      var last := patches[|patches| - 1];
      Growth(patches[..|patches| - 1], q)
        + (if last.start <= q then |last.replacement| - (last.end - last.start) else 0)
  }

  /** Position q gets past the patch that follows the earlier ones. */
  predicate GetsPast(earlier: seq<Patch>, patch: Patch, q: int) {
    patch.start <= q ==> patch.end <= q + Growth(earlier, q)
  }

  /** No patch reaches q where the earlier ones have moved it. */
  predicate Spared(patches: seq<Patch>, q: int) {
    forall i | 0 <= i < |patches| :: GetsPast(patches[..i], patches[i], q)
  }

  lemma SparedOneMore(patches: seq<Patch>, patch: Patch, q: int)
    ensures Spared(patches + [patch], q) <==> Spared(patches, q) && GetsPast(patches, patch, q)
  {
    var all := patches + [patch];
    assert all[..|patches|] == patches;
    assert forall i | 0 <= i < |patches| :: all[..i] == patches[..i] && all[i] == patches[i];
    if Spared(all, q) {
      forall i | 0 <= i < |patches|
        ensures GetsPast(patches[..i], patches[i], q)
      {
        assert GetsPast(all[..i], all[i], q);
      }
      assert GetsPast(all[..|patches|], all[|patches|], q);
    }
  }

  lemma {:induction false} NoGrowthBefore(patches: seq<Patch>, q: int)
    requires forall i | 0 <= i < |patches| :: q < patches[i].start
    ensures Growth(patches, q) == 0 && Spared(patches, q)
  {
    if patches != [] {
      NoGrowthBefore(patches[..|patches| - 1], q);
    }
  }

  /** Position q of the text is at index i of the result. */
  ghost predicate LandsAt(n: nat, patches: seq<Patch>, q: int, i: int) {
    0 <= i < |Origins(n, patches)| && Origins(n, patches)[i] == FromText(q)
  }

  ghost predicate ShouldLandAt(n: nat, patches: seq<Patch>, q: int, i: int) {
    0 <= q < n && Spared(patches, q) && i == q + Growth(patches, q)
  }

  lemma NothingMoved(n: nat, q: int, i: int)
    ensures |Origins(n, [])| == n && (LandsAt(n, [], q, i) <==> ShouldLandAt(n, [], q, i))
  {
    UntouchedAt(n, if 0 <= i then i else 0);
  }

  ghost predicate Landed(text: string, patches: seq<Patch>) {
    && Front(text, patches) <= |Origins(|text|, patches)|
    && forall q: int, i: int :: LandsAt(|text|, patches, q, i) <==> ShouldLandAt(|text|, patches, q, i)
  }

  lemma {:induction false} LandingPlaces(text: string, patches: seq<Patch>)
    requires InText(text, patches) && Descending(patches)
    ensures Landed(text, patches)
  {
    if patches == [] {
      forall q: int, i: int
        ensures LandsAt(|text|, [], q, i) <==> ShouldLandAt(|text|, [], q, i)
      {
        NothingMoved(|text|, q, i);
      }
      UntouchedAt(|text|, 0);
    } else {
      var before, patch := patches[..|patches| - 1], patches[|patches| - 1];
      assert patches == before + [patch];
      FrontBound(text, before, patch);
      LandingPlaces(text, before);
      OneMoreLands(text, before, patch);
    }
  }

  lemma OneMoreLands(text: string, before: seq<Patch>, patch: Patch)
    requires InText(text, before + [patch]) && Descending(before + [patch]) && Landed(text, before)
    ensures Landed(text, before + [patch])
  {
    var n, all := |text|, before + [patch];
    assert all[|before|] == patch;
    FrontBound(text, before, patch);
    var lands, lands' := (q, i) => LandsAt(n, before, q, i), (q, i) => LandsAt(n, all, q, i);
    var should, should' := (q, i) => ShouldLandAt(n, before, q, i), (q, i) => ShouldLandAt(n, all, q, i);
    forall q: int, i: int
      ensures lands'(q, i) <==> Moved(lands, patch, q, i)
      ensures should'(q, i) <==> ShouldMove(should, n, patch, q, i)
      ensures q < patch.start ==> (should(q, i) <==> 0 <= q < n && i == q)
    {
      DoesMove(n, before, patch, q, i);
      MustMove(n, before, patch, q, i);
    }
    MovedAlike(lands, should, lands', should', n, patch);
    forall q: int, i: int
      ensures LandsAt(n, all, q, i) <==> ShouldLandAt(n, all, q, i)
    {
      assert lands'(q, i) <==> should'(q, i);
    }
    DoesMove(n, before, patch, 0, 0);
  }

  lemma SplicedAt(s: seq<Origin>, patch: Patch, i: int)
    requires patch.start <= |s| && patch.start <= patch.end
    ensures var r := Take(s, patch.start) + Fill(|patch.replacement|) + Drop(s, patch.end);
            var j := i - patch.start - |patch.replacement| + patch.end;
            && patch.start <= |r|
            && (0 <= i < patch.start ==> r[i] == s[i])
            && (patch.start <= i < |r| && j < patch.end ==> r[i] == FromPatch)
            && (j >= patch.end ==> (i < |r| <==> j < |s|) && (i < |r| ==> r[i] == s[j]))
  {
    FillAt(|patch.replacement|, if patch.start <= i then i - patch.start else 0);
  }

  /** Where things land once one more patch, to the left of the others, has been spliced in. */
  predicate Moved(lands: (int, int) -> bool, patch: Patch, q: int, i: int) {
    if i < patch.start then lands(q, i)
    else i >= patch.start + |patch.replacement| && lands(q, i - patch.start - |patch.replacement| + patch.end)
  }

  predicate ShouldMove(should: (int, int) -> bool, n: nat, patch: Patch, q: int, i: int) {
    if q < patch.start then 0 <= q < n && i == q
    else i >= patch.start + |patch.replacement| && should(q, i - patch.start - |patch.replacement| + patch.end)
  }

  lemma MovedAlike(lands: (int, int) -> bool, should: (int, int) -> bool,
                   lands': (int, int) -> bool, should': (int, int) -> bool, n: nat, patch: Patch)
    requires patch.start < patch.end <= n
    requires forall q, i :: lands(q, i) <==> should(q, i)
    requires forall q, i :: lands(q, i) ==> 0 <= i
    requires forall q, p, i :: lands(q, i) && lands(p, i) ==> q == p
    requires forall q, i | q < patch.start :: should(q, i) <==> 0 <= q < n && i == q
    requires forall q, i :: lands'(q, i) <==> Moved(lands, patch, q, i)
    requires forall q, i :: should'(q, i) <==> ShouldMove(should, n, patch, q, i)
    ensures forall q, i :: lands'(q, i) <==> should'(q, i)
  {
    forall q, i
      ensures Moved(lands, patch, q, i) <==> ShouldMove(should, n, patch, q, i)
    {
      if 0 <= i < patch.start {
        assert should(i, i) && lands(i, i);
      }
    }
  }

  lemma MustMove(n: nat, before: seq<Patch>, patch: Patch, q: int, i: int)
    requires forall k | 0 <= k < |before| :: patch.start <= before[k].start
    ensures ShouldLandAt(n, before + [patch], q, i) <==>
              ShouldMove((q, i) => ShouldLandAt(n, before, q, i), n, patch, q, i)
    ensures q < patch.start ==> (ShouldLandAt(n, before, q, i) <==> 0 <= q < n && i == q)
  {
    var all := before + [patch];
    assert all[..|before|] == before && all[|before|] == patch;
    SparedOneMore(before, patch, q);
    if q < patch.start {
      NoGrowthBefore(before, q);
    }
  }

  lemma DoesMove(n: nat, before: seq<Patch>, patch: Patch, q: int, i: int)
    requires patch.start <= |Origins(n, before)| && patch.start <= patch.end
    ensures patch.start <= |Origins(n, before + [patch])|
    ensures LandsAt(n, before + [patch], q, i) <==> Moved((q, i) => LandsAt(n, before, q, i), patch, q, i)
  {
    var all := before + [patch];
    assert all[..|before|] == before && all[|before|] == patch;
    SplicedAt(Origins(n, before), patch, i);
  }

  ghost predicate Survives(n: nat, patches: seq<Patch>, q: nat) {
    exists i :: LandsAt(n, patches, q, i)
  }

  /** For every list of patches in the text, in any order: the character at q is still in the result
      exactly when no patch that starts at or before it reaches to where the patches spliced earlier, those
      further right, have moved it. */
  lemma SurvivesExactly(text: string, patches: seq<Patch>, q: nat)
    requires InText(text, patches) && q < |text|
    ensures Survives(|text|, Sorted(patches), q) <==> Spared(Sorted(patches), q)
  {
    var sorted := Sorted(patches);
    SortingKeepsPatches(patches);
    SortingSorts(patches);
    SameMembers(text, patches, sorted);
    LandingPlaces(text, sorted);
    if Survives(|text|, sorted, q) {
      var i :| LandsAt(|text|, sorted, q, i);
      assert ShouldLandAt(|text|, sorted, q, i);
    }
    if Spared(sorted, q) {
      assert LandsAt(|text|, sorted, q, q + Growth(sorted, q));
    }
  }

  /** What the patches cover is gone. */
  ghost predicate HidesCovered(text: string, patches: seq<Patch>) {
    forall q: nat | q < |text| && Covered(patches, q) :: !Survives(|text|, Sorted(patches), q)
  }

  lemma {:induction false} NeverGrows(patches: seq<Patch>, q: int)
    requires forall i | 0 <= i < |patches| :: |patches[i].replacement| <= patches[i].end - patches[i].start
    ensures Growth(patches, q) <= 0
  {
    if patches != [] {
      NeverGrows(patches[..|patches| - 1], q);
    }
  }

  lemma {:induction false} NothingBetween(patches: seq<Patch>, k: nat, q: int)
    requires k < |patches| && Descending(patches) && Disjoint(patches)
    requires forall i | 0 <= i < |patches| :: patches[i].start < patches[i].end
    requires patches[k].start <= q < patches[k].end
    ensures Growth(patches[..k], q) == 0
  {
    forall i | 0 <= i < k
      ensures q < patches[i].start
    {
      assert Apart(patches[i], patches[k]);
    }
    NoGrowthBefore(patches[..k], q);
  }

  /** Covered text is hidden if no two patches overlap, and also if no replacement is longer than what it
      replaces. */
  lemma HiddenWhen(text: string, patches: seq<Patch>)
    requires InText(text, patches)
    requires Disjoint(patches) ||
             forall i | 0 <= i < |patches| :: |patches[i].replacement| <= patches[i].end - patches[i].start
    ensures HidesCovered(text, patches)
  {
    var sorted := Sorted(patches);
    SortingKeepsPatches(patches);
    SortingSorts(patches);
    SortingKeepsDisjointness(patches);
    SameMembers(text, patches, sorted);
    forall q: nat | q < |text| && Covered(patches, q)
      ensures !Survives(|text|, sorted, q)
    {
      SurvivesExactly(text, patches, q);
      SortingKeepsCover(patches, q);
      CoveredByOne(sorted, q);
      var k :| 0 <= k < |sorted| && Covers(sorted[k], q);
      ReachedBy(patches, sorted, k, q);
    }
  }

  lemma ReachedBy(patches: seq<Patch>, sorted: seq<Patch>, k: nat, q: nat)
    requires multiset(sorted) == multiset(patches) && Descending(sorted) && k < |sorted| && Covers(sorted[k], q)
    requires forall i | 0 <= i < |sorted| :: sorted[i].start < sorted[i].end
    requires Disjoint(sorted) ||
             forall i | 0 <= i < |patches| :: |patches[i].replacement| <= patches[i].end - patches[i].start
    ensures !Spared(sorted, q)
  {
    if Disjoint(sorted) {
      NothingBetween(sorted, k, q);
    } else {
      forall i | 0 <= i < k
        ensures |sorted[i].replacement| <= sorted[i].end - sorted[i].start
      {
        assert sorted[i] in multiset(sorted);
        assert sorted[i] in patches;
      }
      NeverGrows(sorted[..k], q);
    }
    assert !GetsPast(sorted[..k], sorted[k], q);
  }
}
