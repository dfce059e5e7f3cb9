/** PII detection and redaction. The entity patterns are abstract: each gives the stretches it finds. */
module Pii {
  import opened Wrappers
  import opened Splicing
  import opened Survival
  import Luhn

  datatype Span = Span(start: nat, end: nat)

  datatype PiiHit = PiiHit(entity: string, found: string, start: nat, end: nat)

  function UpperOf(c: char): char {
    if 'a' <= c <= 'z' then ((c as int) - 32) as char else c
  }

  function Upper(s: string): string {
    if s == [] then [] else [UpperOf(s[0])] + Upper(s[1..])
  }

  function Placeholder(hit: PiiHit): string {
    "[REDACTED_" + Upper(hit.entity) + "]"
  }

  lemma {:induction false} UpperAt(s: string, i: nat)
    requires i < |s|
    ensures |Upper(s)| == |s| && Upper(s)[i] == UpperOf(s[i])
  {
    if i > 0 {
      UpperAt(s[1..], i - 1);
    } else {
      UpperLength(s);
    }
  }

  lemma {:induction false} UpperLength(s: string)
    ensures |Upper(s)| == |s|
  {
    if s != [] {
      UpperLength(s[1..]);
    }
  }

  /** A placeholder is the entity's name in capitals between fixed ends. */
  lemma PlaceholderSpelled(hit: PiiHit, i: nat)
    ensures |Placeholder(hit)| == 11 + |hit.entity|
    ensures "[REDACTED_" <= Placeholder(hit) && Placeholder(hit)[10 + |hit.entity|] == ']'
    ensures i < |hit.entity| ==>
              var lower, written := hit.entity[i], Placeholder(hit)[10 + i];
              if 'a' <= lower <= 'z'
              then 'A' <= written <= 'Z' && written as int - 'A' as int == lower as int - 'a' as int
              else written == lower
  {
    UpperLength(hit.entity);
    if i < |hit.entity| {
      UpperAt(hit.entity, i);
    }
  }

  // ---------- redact ----------

  function AsPatch(hit: PiiHit): Patch {
    Patch(hit.start, hit.end, Placeholder(hit))
  }

  function AsPatches(hits: seq<PiiHit>): seq<Patch> {
    if hits == [] then [] else [AsPatch(hits[0])] + AsPatches(hits[1..])
  }

  lemma {:induction false} PatchAt(hits: seq<PiiHit>)
    ensures |AsPatches(hits)| == |hits|
    ensures forall i | 0 <= i < |hits| :: AsPatches(hits)[i] == AsPatch(hits[i])
  {
    if hits != [] {
      PatchAt(hits[1..]);
    }
  }

  /** Nonempty stretches of the text: what the patterns produce. */
  predicate HitsInText(text: string, hits: seq<PiiHit>) {
    forall i | 0 <= i < |hits| :: hits[i].start < hits[i].end <= |text|
  }

  predicate NoOverlap(hits: seq<PiiHit>) {
    forall i, j | 0 <= i < j < |hits| :: hits[i].end <= hits[j].start || hits[j].end <= hits[i].start
  }

  /** One pass from the left: each hit becomes its placeholder, every other character stays, in order. */
  function Substituted(text: string, hits: seq<PiiHit>): string {
    Scan(text, AsPatches(hits))
  }

  /** For hits in the text, in any order: redact is the simultaneous substitution exactly when no two
      hits overlap, and then its length is exact. */
  lemma RedactionIsExactIffNoOverlap(text: string, hits: seq<PiiHit>)
    requires HitsInText(text, hits)
    ensures SpliceAll(text, Sorted(AsPatches(hits))) == Substituted(text, hits) <==> NoOverlap(hits)
    ensures NoOverlap(hits) ==>
              |SpliceAll(text, Sorted(AsPatches(hits)))|
                == |text| - Lengths(AsPatches(hits)) + Replacements(AsPatches(hits))
  {
    var patches := AsPatches(hits);
    PatchAt(hits);
    PatchesInText(text, hits);
    assert Disjoint(patches) <==> NoOverlap(hits) by {
      if Disjoint(patches) {
        assert forall i, j | 0 <= i < j < |hits| :: Apart(patches[i], patches[j]);
      }
    }
    SplicingIsSubstitutionIffDisjoint(text, patches);
  }

  /** The hits become patches before they are sorted by start, largest first; equal starts keep their
      list order. */
  method Redact(text: string, hits: seq<PiiHit>) returns (result: string)
    ensures result == SpliceAll(text, Sorted(AsPatches(hits)))
    ensures HitsInText(text, hits) ==> (result == Substituted(text, hits) <==> NoOverlap(hits))
  {
    result := text;
    var patches := Sorted(AsPatches(hits));
    for i := 0 to |patches|
      invariant result == SpliceAll(text, patches[..i])
    {
      var patch := patches[i];
      result := Take(result, patch.start) + patch.replacement + Drop(result, patch.end);
      assert patches[..i + 1][..i] == patches[..i];
    }
    assert patches[..|patches|] == patches;
    if HitsInText(text, hits) {
      RedactionIsExactIffNoOverlap(text, hits);
    }
  }

  // ---------- Does redaction hide what was hit? ----------

  predicate Hit(hits: seq<PiiHit>, q: int) {
    exists i :: 0 <= i < |hits| && hits[i].start <= q < hits[i].end
  }

  lemma PatchesInText(text: string, hits: seq<PiiHit>)
    requires HitsInText(text, hits)
    ensures InText(text, AsPatches(hits))
  {
    PatchAt(hits);
    forall i | 0 <= i < |hits|
      ensures AsPatches(hits)[i].replacement != []
    {
      assert |Placeholder(hits[i])| > 0;
    }
  }

  lemma HitIsCovered(hits: seq<PiiHit>, q: nat)
    ensures Hit(hits, q) <==> Covered(AsPatches(hits), q)
  {
    PatchAt(hits);
    CoveredByOne(AsPatches(hits), q);
    if Hit(hits, q) {
      var i :| 0 <= i < |hits| && hits[i].start <= q < hits[i].end;
      assert Covers(AsPatches(hits)[i], q);
    }
  }

  /** A character inside a hit reaches the provider. */
  ghost predicate Leaks(text: string, hits: seq<PiiHit>, q: nat) {
    q < |text| && Hit(hits, q) && Survives(|text|, Sorted(AsPatches(hits)), q)
  }

  /** Exactly when: no hit that starts at or before the character reaches to where the hits redacted
      earlier, those further right, have moved it. What then stands in the result is that character. */
  lemma LeaksExactly(text: string, hits: seq<PiiHit>, q: nat)
    requires HitsInText(text, hits) && q < |text|
    ensures Leaks(text, hits, q) <==> Hit(hits, q) && Spared(Sorted(AsPatches(hits)), q)
    ensures Truthful(text, Origins(|text|, Sorted(AsPatches(hits))), SpliceAll(text, Sorted(AsPatches(hits))))
  {
    PatchesInText(text, hits);
    SurvivesExactly(text, AsPatches(hits), q);
    OriginsAreTrue(text, Sorted(AsPatches(hits)));
  }

  /** Nothing leaks if no two hits overlap, and nothing leaks if no placeholder is longer than its hit. */
  lemma NothingLeaks(text: string, hits: seq<PiiHit>, q: nat)
    requires HitsInText(text, hits) && q < |text|
    requires NoOverlap(hits) || forall i | 0 <= i < |hits| :: |Placeholder(hits[i])| <= hits[i].end - hits[i].start
    ensures !Leaks(text, hits, q)
  {
    PatchesInText(text, hits);
    PatchAt(hits);
    HitIsCovered(hits, q);
    HiddenWhen(text, AsPatches(hits));
  }

  /** For a hit inside another, the outer hit's text after the inner one leaks exactly as far as the inner
      placeholder is longer than the inner hit. */
  lemma NestedHits(text: string, inner: PiiHit, outer: PiiHit, q: nat)
    requires HitsInText(text, [inner, outer])
    requires outer.start < inner.start && inner.end <= q < outer.end
    ensures Leaks(text, [inner, outer], q) <==>
              outer.end - q <= |Placeholder(inner)| - (inner.end - inner.start)
  {
    var hits := [inner, outer];
    HitBounds(text, hits, 0);
    HitBounds(text, hits, 1);
    assert hits[0] == inner;
    assert hits[1] == outer && hits[1].start <= q < hits[1].end;
    assert Hit(hits, q);
    TwoPatches(inner, outer);
    TwoSpared(AsPatch(inner), AsPatch(outer), q);
    LeaksExactly(text, hits, q);
  }

  lemma HitBounds(text: string, hits: seq<PiiHit>, i: nat)
    requires HitsInText(text, hits) && i < |hits|
    ensures hits[i].start < hits[i].end <= |text|
  {
  }

  lemma TwoPatches(inner: PiiHit, outer: PiiHit)
    requires outer.start < inner.start
    ensures Sorted(AsPatches([inner, outer])) == [AsPatch(inner), AsPatch(outer)]
  {
    assert [inner, outer][1..] == [outer] && [outer][1..] == [];
    assert AsPatches([outer]) == [AsPatch(outer)];
    var patches := [AsPatch(inner), AsPatch(outer)];
    assert patches[1..] == [AsPatch(outer)] && [AsPatch(outer)][1..] == [];
    assert Sorted([AsPatch(outer)]) == [AsPatch(outer)];
  }

  lemma TwoSpared(inner: Patch, outer: Patch, q: int)
    ensures Spared([inner, outer], q) <==> GetsPast([], inner, q) && GetsPast([inner], outer, q)
    ensures Growth([inner], q) == if inner.start <= q then |inner.replacement| - (inner.end - inner.start) else 0
  {
    SparedOneMore([], inner, q);
    SparedOneMore([inner], outer, q);
    assert [] + [inner] == [inner] && [inner] + [outer] == [inner, outer];
    assert [inner][..0] == [];
  }

  /** So a phone number of 12 characters found inside a card number of 20, eight before its end, leaves
      the last four characters of the card: its placeholder has 16. */
  lemma PhoneInsideCardLeaks(text: string, phone: PiiHit, card: PiiHit, q: nat)
    requires phone.entity == "phone" && phone.start == 4 && phone.end == 16
    requires card.entity == CREDIT_CARD && card.start == 0 && card.end == 20
    requires |text| >= 20 && 16 <= q < 20
    ensures Leaks(text, [phone, card], q)
  {
    UpperLength("phone");
    assert |Placeholder(phone)| == 16;
    assert HitsInText(text, [phone, card]);
    NestedHits(text, phone, card, q);
  }

  // ---------- find_pii ----------

  function Stripped(s: string): string {
    Filter(s, (c: char) => c != ' ' && c != '-')
  }

  const CREDIT_CARD: string := "credit_card"

  predicate Accepted(text: string, entity: string, span: Span) {
    span.start <= span.end <= |text| &&
    (entity == CREDIT_CARD ==>
       var digits := Stripped(text[span.start..span.end]);
       Luhn.AllDigits(digits) && 13 <= |digits| <= 19 && Luhn.Passes(digits))
  }

  /** What finditer gives: nonempty stretches of the text, left to right, none overlapping the next. */
  predicate LeftToRight(text: string, spans: seq<Span>) {
    && (forall i | 0 <= i < |spans| :: spans[i].start < spans[i].end <= |text|)
    && (forall i, j | 0 <= i < j < |spans| :: spans[i].end <= spans[j].start)
  }

  /** hits are the accepted stretches of one entity, in order. */
  function HitsOf(text: string, entity: string, spans: seq<Span>): seq<PiiHit>
    requires LeftToRight(text, spans)
  {
    if spans == [] then []
    else
      var n := |spans| - 1;
      HitsOf(text, entity, spans[..n])
        + (if Accepted(text, entity, spans[n])
           then [PiiHit(entity, text[spans[n].start..spans[n].end], spans[n].start, spans[n].end)] else [])
  }

  type Patterns = map<string, string -> seq<Span>>

  ghost predicate PatternsOf(patterns: Patterns, text: string) {
    forall entity | entity in patterns :: LeftToRight(text, patterns[entity](text))
  }

  function AllHits(text: string, entities: seq<string>, patterns: Patterns): seq<PiiHit>
    requires PatternsOf(patterns, text)
  {
    if entities == [] then []
    else
      var n := |entities| - 1;
      AllHits(text, entities[..n], patterns)
        + (if entities[n] in patterns then HitsOf(text, entities[n], patterns[entities[n]](text)) else [])
  }

  /** The inner loop: one entity's stretches. */
  method FindEntity(text: string, entity: string, spans: seq<Span>) returns (hits: seq<PiiHit>)
    requires LeftToRight(text, spans)
    ensures hits == HitsOf(text, entity, spans)
  {
    hits := [];
    for i := 0 to |spans|
      invariant hits == HitsOf(text, entity, spans[..i])
    {
      var span := spans[i];
      var found := text[span.start..span.end];
      assert spans[..i + 1][..i] == spans[..i];
      if entity == CREDIT_CARD {
        var valid := Luhn.LuhnValid(Stripped(found));
        if !valid {
          continue;
        }
      }
      hits := hits + [PiiHit(entity, found, span.start, span.end)];
    }
    assert spans[..|spans|] == spans;
  }

  method FindPii(text: string, entities: seq<string>, patterns: Patterns) returns (hits: seq<PiiHit>)
    requires PatternsOf(patterns, text)
    ensures hits == AllHits(text, entities, patterns)
  {
    hits := [];
    for e := 0 to |entities|
      invariant hits == AllHits(text, entities[..e], patterns)
    {
      var entity := entities[e];
      assert entities[..e + 1][..e] == entities[..e];
      if entity !in patterns {
        continue;
      }
      var found := FindEntity(text, entity, patterns[entity](text));
      hits := hits + found;
    }
    assert entities[..|entities|] == entities;
  }

  /** A stretch is a hit unless it was looked for as a card number and does not pass the card check once
      spaces and hyphens are taken out. */
  predicate Counts(text: string, entity: string, span: Span)
    requires span.start <= span.end <= |text|
  {
    entity != "credit_card" ||
    var digits := Stripped(text[span.start..span.end]);
    Luhn.AllDigits(digits) && 13 <= |digits| <= 19 && Luhn.AnnexB(digits, 0) % 10 == 0
  }

  lemma AcceptedExactly(text: string, entity: string, span: Span)
    requires span.start <= span.end <= |text|
    ensures Accepted(text, entity, span) <==> Counts(text, entity, span)
  {
    var digits := Stripped(text[span.start..span.end]);
    if Luhn.AllDigits(digits) {
      Luhn.SumIsAnnexB(digits);
    }
  }

  /** Taking out spaces and hyphens takes out nothing else. */
  lemma StrippedKeepsTheRest(s: string, c: char)
    ensures multiset(Stripped(s))[c] == if c == ' ' || c == '-' then 0 else multiset(s)[c]
  {
    FilterMultiset(s, (c: char) => c != ' ' && c != '-');
  }

  lemma {:induction false} HitsOfExactly(text: string, entity: string, spans: seq<Span>, hit: PiiHit)
    requires LeftToRight(text, spans)
    ensures hit in HitsOf(text, entity, spans) <==>
              exists span :: span in spans && Counts(text, entity, span) && IsHit(text, entity, span, hit)
  {
    if spans != [] {
      var n := |spans| - 1;
      HitsOfExactly(text, entity, spans[..n], hit);
      AcceptedExactly(text, entity, spans[n]);
      assert spans == spans[..n] + [spans[n]];
    }
  }

  /** The hit of an entity on a stretch: the stretch's own bounds and text. */
  predicate IsHit(text: string, entity: string, span: Span, hit: PiiHit) {
    && span.start <= span.end <= |text|
    && hit.entity == entity && hit.start == span.start && hit.end == span.end
    && hit.found == text[span.start..span.end]
  }

  predicate FoundBy(text: string, entity: string, patterns: Patterns, hit: PiiHit)
    requires PatternsOf(patterns, text)
  {
    entity in patterns && hit in HitsOf(text, entity, patterns[entity](text))
  }

  lemma {:induction false} FoundBySome(text: string, entities: seq<string>, patterns: Patterns, hit: PiiHit)
    requires PatternsOf(patterns, text)
    ensures hit in AllHits(text, entities, patterns) <==>
              exists entity :: entity in entities && FoundBy(text, entity, patterns, hit)
  {
    if entities != [] {
      var n := |entities| - 1;
      FoundBySome(text, entities[..n], patterns, hit);
      assert entities == entities[..n] + [entities[n]];
      assert entities[n] in entities;
    }
  }

  /** A hit is found exactly when its entity is listed and has a pattern that gives its stretch, card numbers
      passing the check besides. */
  lemma FoundExactly(text: string, entities: seq<string>, patterns: Patterns, hit: PiiHit)
    requires PatternsOf(patterns, text)
    ensures hit in AllHits(text, entities, patterns) <==>
              && hit.entity in entities && hit.entity in patterns
              && exists span :: span in patterns[hit.entity](text) && Counts(text, hit.entity, span)
                                && IsHit(text, hit.entity, span, hit)
  {
    FoundBySome(text, entities, patterns, hit);
    forall entity | entity in patterns
      ensures FoundBy(text, entity, patterns, hit) <==>
                exists span :: span in patterns[entity](text) && Counts(text, entity, span)
                               && IsHit(text, entity, span, hit)
    {
      HitsOfExactly(text, entity, patterns[entity](text), hit);
    }
  }

  /** Hits come entity by entity, in the order of the list. */
  lemma {:induction false} HitsInListOrder(text: string, first: seq<string>, others: seq<string>, patterns: Patterns)
    requires PatternsOf(patterns, text)
    ensures AllHits(text, first + others, patterns) == AllHits(text, first, patterns) + AllHits(text, others, patterns)
  {
    if others == [] {
      assert first + others == first;
    } else {
      var n := |others| - 1;
      assert (first + others)[..|first + others| - 1] == first + others[..n];
      HitsInListOrder(text, first, others[..n], patterns);
    }
  }

  ghost predicate OfOneEntity(text: string, entity: string, hits: seq<PiiHit>) {
    && HitsInText(text, hits)
    && (forall i, j | 0 <= i < j < |hits| :: hits[i].end <= hits[j].start)
    && (forall i | 0 <= i < |hits| :: hits[i].entity == entity && hits[i].found == text[hits[i].start..hits[i].end])
  }

  predicate EndBy(hits: seq<PiiHit>, bound: nat) {
    forall i | 0 <= i < |hits| :: hits[i].end <= bound
  }

  lemma OneMoreHit(text: string, entity: string, hits: seq<PiiHit>, span: Span)
    requires OfOneEntity(text, entity, hits) && EndBy(hits, span.start) && span.start < span.end <= |text|
    ensures var more := hits + [PiiHit(entity, text[span.start..span.end], span.start, span.end)];
            OfOneEntity(text, entity, more) && EndBy(more, span.end)
  {
  }

  lemma {:induction false} HitsOfOneEntity(text: string, entity: string, spans: seq<Span>, bound: nat)
    requires LeftToRight(text, spans)
    requires spans != [] ==> spans[|spans| - 1].end <= bound
    ensures OfOneEntity(text, entity, HitsOf(text, entity, spans)) && EndBy(HitsOf(text, entity, spans), bound)
  {
    if spans != [] {
      var n := |spans| - 1;
      HitsOfOneEntity(text, entity, spans[..n], spans[n].start);
      OneMoreHit(text, entity, HitsOf(text, entity, spans[..n]), spans[n]);
    }
  }

  lemma {:induction false} AllHitsInText(text: string, entities: seq<string>, patterns: Patterns)
    requires PatternsOf(patterns, text)
    ensures HitsInText(text, AllHits(text, entities, patterns))
  {
    if entities != [] {
      var n := |entities| - 1;
      AllHitsInText(text, entities[..n], patterns);
      if entities[n] in patterns {
        HitsOfOneEntity(text, entities[n], patterns[entities[n]](text), |text|);
      }
    }
  }

  /** Redacting what find_pii found: always exact for a single entity, and for several exactly when no
      two of the hits overlap. */
  lemma {:induction false} FindThenRedact(text: string, entities: seq<string>, patterns: Patterns)
    requires PatternsOf(patterns, text)
    ensures var hits := AllHits(text, entities, patterns);
            && (SpliceAll(text, Sorted(AsPatches(hits))) == Substituted(text, hits) <==> NoOverlap(hits))
            && (|entities| <= 1 ==> NoOverlap(hits))
  {
    AllHitsInText(text, entities, patterns);
    RedactionIsExactIffNoOverlap(text, AllHits(text, entities, patterns));
    if |entities| <= 1 {
      FewEntitiesApart(text, entities, patterns);
    }
  }

  lemma {:induction false} FewEntitiesApart(text: string, entities: seq<string>, patterns: Patterns)
    requires PatternsOf(patterns, text) && |entities| <= 1
    ensures NoOverlap(AllHits(text, entities, patterns))
  {
    if |entities| == 1 {
      OneEntityApart(text, entities[0], patterns);
      assert entities == [entities[0]];
    }
  }

  lemma OneEntityHits(text: string, entity: string, patterns: Patterns)
    requires PatternsOf(patterns, text)
    ensures AllHits(text, [entity], patterns)
         == if entity in patterns then HitsOf(text, entity, patterns[entity](text)) else []
  {
    assert [entity][..0] == [];
    assert AllHits(text, [entity][..0], patterns) == [];
  }

  lemma {:induction false} OneEntityApart(text: string, entity: string, patterns: Patterns)
    requires PatternsOf(patterns, text)
    ensures NoOverlap(AllHits(text, [entity], patterns))
  {
    OneEntityHits(text, entity, patterns);
    if entity in patterns {
      HitsOfOneEntity(text, entity, patterns[entity](text), |text|);
    }
  }

  lemma TwiceOverlaps(found: seq<PiiHit>)
    requires found != [] && found[0].start < found[0].end
    ensures !NoOverlap(found + found)
  {
    var hits := found + found;
    assert hits[0] == found[0] && hits[|found|] == found[0];
  }

  /** An entity listed twice finds every hit twice, and redaction is then not the substitution. */
  lemma RepeatedEntityBreaksRedaction(text: string, entity: string, patterns: Patterns)
    requires PatternsOf(patterns, text) && entity in patterns
    requires HitsOf(text, entity, patterns[entity](text)) != []
    ensures var hits := AllHits(text, [entity, entity], patterns);
            SpliceAll(text, Sorted(AsPatches(hits))) != Substituted(text, hits)
  {
    var found := HitsOf(text, entity, patterns[entity](text));
    var hits := AllHits(text, [entity, entity], patterns);
    assert hits == found + found by {
      assert [entity, entity][..1] == [entity] && [entity][..0] == [];
      assert AllHits(text, [entity][..0], patterns) == [];
      assert AllHits(text, [entity], patterns) == found;
    }
    HitsOfOneEntity(text, entity, patterns[entity](text), |text|);
    TwiceOverlaps(found);
    AllHitsInText(text, [entity, entity], patterns);
    RedactionIsExactIffNoOverlap(text, hits);
  }
}
