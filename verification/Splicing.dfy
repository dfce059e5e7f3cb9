/** Replacing stretches of a text: right-to-left splicing against a substitution defined position by
    position. */
module Splicing {
  datatype Patch = Patch(start: nat, end: nat, replacement: string)

  // Slices with a bound beyond the end stop at the end.
  function Take<T>(s: seq<T>, n: nat): seq<T> {
    if n < |s| then s[..n] else s
  }

  function Drop<T>(s: seq<T>, n: nat): seq<T> {
    if n < |s| then s[n..] else []
  }

  // ---------- Splicing ----------

  /** The stable sort by start, largest first: equal starts stay in list order. */
  function Sorted(patches: seq<Patch>): seq<Patch> {
    if patches == [] then [] else Insert(patches[0], Sorted(patches[1..]))
  }

  function Insert(patch: Patch, sorted: seq<Patch>): seq<Patch> {
    if sorted == [] || sorted[0].start <= patch.start then [patch] + sorted
    else [sorted[0]] + Insert(patch, sorted[1..])
  }

  function Splice(text: string, patch: Patch): string {
    Take(text, patch.start) + patch.replacement + Drop(text, patch.end)
  }

  /** The patches applied one after the other, first to last. */
  function SpliceAll(text: string, patches: seq<Patch>): string {
    if patches == [] then text else Splice(SpliceAll(text, patches[..|patches| - 1]), patches[|patches| - 1])
  }

  // ---------- The reference ----------

  predicate Covers(patch: Patch, pos: nat) {
    patch.start <= pos < patch.end
  }

  predicate Covered(patches: seq<Patch>, pos: nat) {
    patches != [] && (Covers(patches[0], pos) || Covered(patches[1..], pos))
  }

  /** The replacements of the patches that start at pos, in list order. */
  function Marks(patches: seq<Patch>, pos: nat): string {
    if patches == [] then []
    else (if patches[0].start == pos then patches[0].replacement else []) + Marks(patches[1..], pos)
  }

  /** What a position contributes: the replacements that start there, and the character unless covered. */
  datatype Column = Column(marks: string, covered: bool)

  const PLAIN: Column := Column([], false)

  function ColumnAt(patches: seq<Patch>, pos: nat): Column {
    Column(Marks(patches, pos), Covered(patches, pos))
  }

  function Layout(patches: seq<Patch>, n: nat): seq<Column> {
    if n == 0 then [] else Layout(patches, n - 1) + [ColumnAt(patches, n - 1)]
  }

  function Render(text: string, columns: seq<Column>, pos: nat): string
    requires pos <= |text| == |columns|
    decreases |text| - pos
  {
    if pos == |text| then []
    else columns[pos].marks + (if columns[pos].covered then [] else [text[pos]]) + Render(text, columns, pos + 1)
  }

  lemma {:induction false} LayoutAt(patches: seq<Patch>, n: nat)
    ensures |Layout(patches, n)| == n
    ensures forall q | 0 <= q < n :: Layout(patches, n)[q] == ColumnAt(patches, q)
  {
    if n > 0 {
      LayoutAt(patches, n - 1);
    }
  }

  /** One pass from the left: each patch's replacement where it starts, each uncovered character as it is. */
  function Scan(text: string, patches: seq<Patch>): string {
    LayoutAt(patches, |text|);
    Render(text, Layout(patches, |text|), 0)
  }

  /** Every patch replaces a nonempty stretch of the text by something. */
  predicate InText(text: string, patches: seq<Patch>) {
    forall i | 0 <= i < |patches| :: patches[i].start < patches[i].end <= |text| && patches[i].replacement != []
  }

  predicate Apart(a: Patch, b: Patch) {
    a.end <= b.start || b.end <= a.start
  }

  predicate Disjoint(patches: seq<Patch>) {
    forall i, j | 0 <= i < j < |patches| :: Apart(patches[i], patches[j])
  }

  function Lengths(patches: seq<Patch>): int {
    if patches == [] then 0 else patches[0].end - patches[0].start + Lengths(patches[1..])
  }

  function Replacements(patches: seq<Patch>): nat {
    if patches == [] then 0 else |patches[0].replacement| + Replacements(patches[1..])
  }

  // ---------- Sorting changes neither the patches nor the reference ----------

  predicate Descending(patches: seq<Patch>) {
    forall i, j | 0 <= i < j < |patches| :: patches[i].start >= patches[j].start
  }

  lemma {:induction false} InsertKeepsPatches(patch: Patch, sorted: seq<Patch>)
    ensures multiset(Insert(patch, sorted)) == multiset{patch} + multiset(sorted)
    ensures Lengths(Insert(patch, sorted)) == patch.end - patch.start + Lengths(sorted)
    ensures Replacements(Insert(patch, sorted)) == |patch.replacement| + Replacements(sorted)
  {
    if sorted != [] && sorted[0].start > patch.start {
      InsertKeepsPatches(patch, sorted[1..]);
      assert sorted == [sorted[0]] + sorted[1..];
    }
  }

  lemma {:induction false} InsertKeepsOrder(patch: Patch, sorted: seq<Patch>)
    requires Descending(sorted)
    ensures Descending(Insert(patch, sorted))
    ensures |Insert(patch, sorted)| == |sorted| + 1
    ensures Insert(patch, sorted)[0].start
         <= if sorted == [] || sorted[0].start <= patch.start then patch.start else sorted[0].start
  {
    if sorted != [] && sorted[0].start > patch.start {
      InsertKeepsOrder(patch, sorted[1..]);
    }
  }

  lemma {:induction false} InsertKeepsMarks(patch: Patch, sorted: seq<Patch>, pos: nat)
    ensures Marks(Insert(patch, sorted), pos)
        == (if patch.start == pos then patch.replacement else []) + Marks(sorted, pos)
  {
    if sorted != [] && sorted[0].start > patch.start {
      InsertKeepsMarks(patch, sorted[1..], pos);
    }
  }

  predicate ApartFrom(patch: Patch, others: multiset<Patch>) {
    forall x | x in others :: Apart(patch, x)
  }

  lemma ApartFromMore(patch: Patch, other: Patch, others: multiset<Patch>)
    ensures ApartFrom(patch, multiset{other} + others) <==> Apart(patch, other) && ApartFrom(patch, others)
  {
  }

  lemma DisjointFirst(patch: Patch, rest: seq<Patch>)
    ensures Disjoint([patch] + rest) <==> Disjoint(rest) && ApartFrom(patch, multiset(rest))
  {
    var all := [patch] + rest;
    assert all[0] == patch && forall i | 0 <= i < |rest| :: all[i + 1] == rest[i];
    if Disjoint(all) {
      RestApart(patch, rest);
    }
    if ApartFrom(patch, multiset(rest)) {
      assert forall i | 0 <= i < |rest| :: rest[i] in multiset(rest);
    }
  }

  lemma RestApart(patch: Patch, rest: seq<Patch>)
    requires Disjoint([patch] + rest)
    ensures Disjoint(rest) && ApartFrom(patch, multiset(rest))
  {
    var all := [patch] + rest;
    forall i, j | 0 <= i < j < |rest|
      ensures Apart(rest[i], rest[j])
    {
      assert Apart(all[i + 1], all[j + 1]);
    }
    forall x | x in multiset(rest)
      ensures Apart(patch, x)
    {
      var i :| 0 <= i < |rest| && rest[i] == x;
      assert Apart(all[0], all[i + 1]);
    }
  }

  lemma {:induction false} InsertKeepsDisjointness(patch: Patch, sorted: seq<Patch>)
    ensures Disjoint(Insert(patch, sorted)) <==> Disjoint(sorted) && ApartFrom(patch, multiset(sorted))
  {
    if sorted == [] || sorted[0].start <= patch.start {
      DisjointFirst(patch, sorted);
    } else {
      var first, rest := sorted[0], sorted[1..];
      InsertKeepsDisjointness(patch, rest);
      InsertKeepsPatches(patch, rest);
      DisjointFirst(first, Insert(patch, rest));
      DisjointFirst(first, rest);
      ApartFromMore(first, patch, multiset(rest));
      ApartFromMore(patch, first, multiset(rest));
      assert sorted == [first] + rest;
      assert multiset(sorted) == multiset{first} + multiset(rest);
    }
  }

  lemma FirstAndRest(patches: seq<Patch>)
    requires patches != []
    ensures multiset(patches) == multiset{patches[0]} + multiset(patches[1..])
  {
    assert patches == [patches[0]] + patches[1..];
  }

  lemma {:induction false} SortingKeepsPatches(patches: seq<Patch>)
    ensures multiset(Sorted(patches)) == multiset(patches)
  {
    if patches != [] {
      var rest := patches[1..];
      SortingKeepsPatches(rest);
      InsertKeepsPatches(patches[0], Sorted(rest));
      FirstAndRest(patches);
    }
  }

  lemma {:induction false} SortingKeepsTotals(patches: seq<Patch>)
    ensures Lengths(Sorted(patches)) == Lengths(patches) && Replacements(Sorted(patches)) == Replacements(patches)
  {
    if patches != [] {
      SortingKeepsTotals(patches[1..]);
      InsertKeepsPatches(patches[0], Sorted(patches[1..]));
    }
  }

  lemma {:induction false} SortingSorts(patches: seq<Patch>)
    ensures Descending(Sorted(patches))
  {
    if patches != [] {
      SortingSorts(patches[1..]);
      InsertKeepsOrder(patches[0], Sorted(patches[1..]));
    }
  }

  lemma {:induction false} SortingKeepsDisjointness(patches: seq<Patch>)
    ensures Disjoint(Sorted(patches)) <==> Disjoint(patches)
  {
    if patches != [] {
      var rest := patches[1..];
      SortingKeepsDisjointness(rest);
      SortingKeepsPatches(rest);
      InsertKeepsDisjointness(patches[0], Sorted(rest));
      DisjointFirst(patches[0], rest);
      assert patches == [patches[0]] + rest;
    }
  }

  lemma {:induction false} SortingKeepsMarks(patches: seq<Patch>, pos: nat)
    ensures Marks(Sorted(patches), pos) == Marks(patches, pos)
  {
    if patches != [] {
      SortingKeepsMarks(patches[1..], pos);
      InsertKeepsMarks(patches[0], Sorted(patches[1..]), pos);
    }
  }

  lemma {:induction false} CoveredByOne(patches: seq<Patch>, pos: nat)
    ensures Covered(patches, pos) <==> exists i :: 0 <= i < |patches| && Covers(patches[i], pos)
  {
    if patches != [] {
      var rest := patches[1..];
      CoveredByOne(rest, pos);
      if i :| 0 <= i < |rest| && Covers(rest[i], pos) {
        assert Covers(patches[i + 1], pos);
      }
      if i :| 0 <= i < |patches| && Covers(patches[i], pos) {
        assert i > 0 ==> Covers(rest[i - 1], pos);
      }
    }
  }

  lemma {:induction false} InsertKeepsCover(patch: Patch, sorted: seq<Patch>, pos: nat)
    ensures Covered(Insert(patch, sorted), pos) <==> Covers(patch, pos) || Covered(sorted, pos)
  {
    if sorted != [] && sorted[0].start > patch.start {
      InsertKeepsCover(patch, sorted[1..], pos);
    }
  }

  lemma {:induction false} SortingKeepsCover(patches: seq<Patch>, pos: nat)
    ensures Covered(Sorted(patches), pos) <==> Covered(patches, pos)
  {
    if patches != [] {
      SortingKeepsCover(patches[1..], pos);
      InsertKeepsCover(patches[0], Sorted(patches[1..]), pos);
    }
  }

  /** The order of the list does not matter to the reference beyond ties, and sorting keeps those. */
  lemma {:induction false} LayoutOfSorted(patches: seq<Patch>, n: nat)
    ensures Layout(Sorted(patches), n) == Layout(patches, n)
  {
    if n > 0 {
      LayoutOfSorted(patches, n - 1);
      SortingKeepsMarks(patches, n - 1);
      SortingKeepsCover(patches, n - 1);
    }
  }

  lemma SameMembers(text: string, a: seq<Patch>, b: seq<Patch>)
    requires multiset(a) == multiset(b) && InText(text, a)
    ensures InText(text, b)
  {
    forall i | 0 <= i < |b|
      ensures b[i] in a
    {
      assert b[i] in multiset(b);
    }
  }

  // ---------- Facts about the reference ----------

  predicate PlainFrom(columns: seq<Column>, lo: nat, hi: nat) {
    hi <= |columns| && forall q | lo <= q < hi :: columns[q] == PLAIN
  }

  predicate HiddenFrom(columns: seq<Column>, lo: nat, hi: nat) {
    hi <= |columns| && forall q | lo <= q < hi :: columns[q] == Column([], true)
  }

  lemma {:induction false} RenderAgrees(text: string, a: seq<Column>, b: seq<Column>, pos: nat)
    requires pos <= |text| == |a| == |b| && forall q | pos <= q < |text| :: a[q] == b[q]
    ensures Render(text, a, pos) == Render(text, b, pos)
    decreases |text| - pos
  {
    if pos < |text| {
      RenderAgrees(text, a, b, pos + 1);
    }
  }

  lemma RenderPlainStep(text: string, columns: seq<Column>, pos: nat)
    requires pos < |text| == |columns| && columns[pos] == PLAIN
    ensures Render(text, columns, pos) == [text[pos]] + Render(text, columns, pos + 1)
  {
  }

  lemma RenderMarkedStep(text: string, columns: seq<Column>, pos: nat, marks: string)
    requires pos < |text| == |columns| && columns[pos] == Column(marks, true)
    ensures Render(text, columns, pos) == marks + Render(text, columns, pos + 1)
  {
  }

  lemma SliceGrows(text: string, lo: nat, hi: nat, rest: string)
    requires lo < hi <= |text|
    ensures [text[lo]] + (text[lo + 1..hi] + rest) == text[lo..hi] + rest
  {
    assert text[lo..hi] == [text[lo]] + text[lo + 1..hi];
  }

  lemma {:induction false} RenderPlain(text: string, columns: seq<Column>, lo: nat, hi: nat)
    requires lo <= hi <= |text| == |columns| && PlainFrom(columns, lo, hi)
    ensures Render(text, columns, lo) == text[lo..hi] + Render(text, columns, hi)
    decreases hi - lo
  {
    if lo < hi {
      RenderPlain(text, columns, lo + 1, hi);
      RenderPlainStep(text, columns, lo);
      SliceGrows(text, lo, hi, Render(text, columns, hi));
    } else {
      assert text[lo..hi] == [];
    }
  }

  lemma {:induction false} RenderHidden(text: string, columns: seq<Column>, lo: nat, hi: nat)
    requires lo <= hi <= |text| == |columns| && HiddenFrom(columns, lo, hi)
    ensures Render(text, columns, lo) == Render(text, columns, hi)
    decreases hi - lo
  {
    if lo < hi {
      RenderHidden(text, columns, lo + 1, hi);
    }
  }

  /** Left of every start there is nothing to mark or cover. */
  lemma {:induction false} NothingBefore(patches: seq<Patch>, pos: nat)
    requires forall i | 0 <= i < |patches| :: pos < patches[i].start
    ensures ColumnAt(patches, pos) == PLAIN
  {
    if patches != [] {
      NothingBefore(patches[1..], pos);
    }
  }

  lemma PlainLayout(patches: seq<Patch>, n: nat, front: nat)
    requires front <= n && forall i | 0 <= i < |patches| :: front <= patches[i].start
    ensures PlainFrom(Layout(patches, n), 0, front)
  {
    LayoutAt(patches, n);
    forall q | 0 <= q < front
      ensures Layout(patches, n)[q] == PLAIN
    {
      NothingBefore(patches, q);
    }
  }

  lemma {:induction false} MarksLast(patches: seq<Patch>, patch: Patch, pos: nat)
    ensures Marks(patches + [patch], pos)
        == Marks(patches, pos) + (if patch.start == pos then patch.replacement else [])
  {
    if patches == [] {
      assert patches + [patch] == [patch];
    } else {
      MarksLast(patches[1..], patch, pos);
      assert (patches + [patch])[1..] == patches[1..] + [patch];
    }
  }

  lemma {:induction false} CoveredLast(patches: seq<Patch>, patch: Patch, pos: nat)
    ensures Covered(patches + [patch], pos) <==> Covered(patches, pos) || Covers(patch, pos)
  {
    if patches == [] {
      assert patches + [patch] == [patch];
    } else {
      CoveredLast(patches[1..], patch, pos);
      assert (patches + [patch])[1..] == patches[1..] + [patch];
    }
  }

  function Over(column: Column, patch: Patch, pos: int): Column {
    Column(column.marks + (if patch.start == pos then patch.replacement else []),
           column.covered || patch.start <= pos < patch.end)
  }

  /** The columns b are the columns a with one more patch. */
  predicate Overlaid(a: seq<Column>, b: seq<Column>, patch: Patch) {
    |a| == |b| && forall q | 0 <= q < |a| :: b[q] == Over(a[q], patch, q)
  }

  lemma LayoutOneMore(patches: seq<Patch>, patch: Patch, n: nat)
    ensures Overlaid(Layout(patches, n), Layout(patches + [patch], n), patch)
  {
    LayoutAt(patches, n);
    LayoutAt(patches + [patch], n);
    forall q: nat | q < n
      ensures ColumnAt(patches + [patch], q) == Over(ColumnAt(patches, q), patch, q)
    {
      MarksLast(patches, patch, q);
      CoveredLast(patches, patch, q);
    }
  }

  lemma {:induction false} TotalsLast(patches: seq<Patch>, patch: Patch)
    ensures Lengths(patches + [patch]) == Lengths(patches) + patch.end - patch.start
    ensures Replacements(patches + [patch]) == Replacements(patches) + |patch.replacement|
  {
    if patches == [] {
      assert patches + [patch] == [patch];
    } else {
      TotalsLast(patches[1..], patch);
      assert (patches + [patch])[1..] == patches[1..] + [patch];
    }
  }

  // ---------- Disjoint patches: splicing is the substitution ----------

  /** Where the spliced part begins. */
  function Front(text: string, patches: seq<Patch>): nat {
    if patches == [] then |text| else patches[|patches| - 1].start
  }

  lemma FrontBound(text: string, patches: seq<Patch>, patch: Patch)
    requires InText(text, patches + [patch]) && Descending(patches + [patch])
    ensures InText(text, patches) && Descending(patches) && InText(text, [patch])
    ensures patch.start <= Front(text, patches) <= |text|
    ensures forall i | 0 <= i < |patches| :: Front(text, patches) <= patches[i].start
    ensures Disjoint(patches + [patch]) ==> Disjoint(patches) && patch.end <= Front(text, patches)
  {
    var all := patches + [patch];
    assert all[|patches|] == patch && forall i | 0 <= i < |patches| :: all[i] == patches[i];
    if patches != [] && Disjoint(all) {
      assert Apart(all[|patches| - 1], all[|patches|]);
    }
  }

  /** The reference with one more patch, to the left of all the others. */
  lemma RenderOneMore(text: string, a: seq<Column>, b: seq<Column>, patch: Patch, front: nat)
    requires |text| == |a| && Overlaid(a, b, patch) && PlainFrom(a, 0, front)
    requires patch.start < patch.end <= front <= |text|
    ensures Render(text, b, patch.start) == patch.replacement + (text[patch.end..front] + Render(text, a, front))
  {
    RenderPatched(text, a, b, patch, front);
    RenderPlain(text, a, patch.end, front);
  }

  lemma RenderPatched(text: string, a: seq<Column>, b: seq<Column>, patch: Patch, front: nat)
    requires |text| == |a| && Overlaid(a, b, patch) && PlainFrom(a, 0, front)
    requires patch.start < patch.end <= front <= |text|
    ensures Render(text, b, patch.start) == patch.replacement + Render(text, a, patch.end)
  {
    RenderMarkedStep(text, b, patch.start, patch.replacement);
    RenderHidden(text, b, patch.start + 1, patch.end);
    RenderAgrees(text, b, a, patch.end);
  }

  lemma {:induction false} SpliceIsScan(text: string, patches: seq<Patch>)
    requires InText(text, patches) && Descending(patches) && Disjoint(patches)
    ensures Front(text, patches) <= |text| == |Layout(patches, |text|)|
    ensures SpliceAll(text, patches)
         == text[..Front(text, patches)] + Render(text, Layout(patches, |text|), Front(text, patches))
    ensures |SpliceAll(text, patches)| == |text| - Lengths(patches) + Replacements(patches)
  {
    LayoutAt(patches, |text|);
    if patches != [] {
      var before, patch := patches[..|patches| - 1], patches[|patches| - 1];
      assert patches == before + [patch];
      FrontBound(text, before, patch);
      SpliceIsScan(text, before);
      OneMoreSplice(text, before, patch);
      TotalsLast(before, patch);
    }
  }

  lemma OneMoreSplice(text: string, before: seq<Patch>, patch: Patch)
    requires InText(text, before) && patch.start < patch.end <= Front(text, before) <= |text|
    requires forall i | 0 <= i < |before| :: Front(text, before) <= before[i].start
    requires |Layout(before, |text|)| == |Layout(before + [patch], |text|)| == |text|
    requires SpliceAll(text, before)
          == text[..Front(text, before)] + Render(text, Layout(before, |text|), Front(text, before))
    ensures Splice(SpliceAll(text, before), patch)
         == text[..patch.start] + Render(text, Layout(before + [patch], |text|), patch.start)
    ensures |Splice(SpliceAll(text, before), patch)|
         == |SpliceAll(text, before)| - (patch.end - patch.start) + |patch.replacement|
  {
    var n, front := |text|, Front(text, before);
    LayoutOneMore(before, patch, n);
    PlainLayout(before, n, front);
    RenderOneMore(text, Layout(before, n), Layout(before + [patch], n), patch, front);
    SpliceAtFront(text, Render(text, Layout(before, n), front), patch, front);
  }

  /** Splicing into a text that is still untouched left of front. */
  lemma SpliceAtFront(text: string, tail: string, patch: Patch, front: nat)
    requires patch.start < patch.end <= front <= |text|
    ensures Splice(text[..front] + tail, patch)
        == text[..patch.start] + (patch.replacement + (text[patch.end..front] + tail))
    ensures |Splice(text[..front] + tail, patch)| == front + |tail| - (patch.end - patch.start) + |patch.replacement|
  {
  }

  // ---------- Overlapping patches: splicing loses text ----------

  /** How many positions in [lo, hi) are not covered. */
  function Uncovered(columns: seq<Column>, lo: nat, hi: nat): nat
    requires hi <= |columns|
    decreases hi - lo
  {
    if lo >= hi then 0 else (if columns[lo].covered then 0 else 1) + Uncovered(columns, lo + 1, hi)
  }

  lemma {:induction false} UncoveredSplit(columns: seq<Column>, a: nat, b: nat, c: nat)
    requires a <= b <= c <= |columns|
    ensures Uncovered(columns, a, c) == Uncovered(columns, a, b) + Uncovered(columns, b, c)
    decreases b - a
  {
    if a < b {
      UncoveredSplit(columns, a + 1, b, c);
    }
  }

  lemma {:induction false} UncoveredAtMost(columns: seq<Column>, lo: nat, hi: nat, q: nat)
    requires lo <= hi <= |columns|
    ensures Uncovered(columns, lo, hi) <= hi - lo
    ensures lo <= q < hi && columns[q].covered ==> Uncovered(columns, lo, hi) < hi - lo
    decreases hi - lo
  {
    if lo < hi {
      UncoveredAtMost(columns, lo + 1, hi, q);
    }
  }

  lemma {:induction false} AllUncovered(columns: seq<Column>, lo: nat, hi: nat)
    requires lo <= hi <= |columns| && PlainFrom(columns, lo, hi)
    ensures Uncovered(columns, lo, hi) == hi - lo
    decreases hi - lo
  {
    if lo < hi {
      AllUncovered(columns, lo + 1, hi);
    }
  }

  /** What a patch newly covers from pos on. */
  function NewlyCovered(columns: seq<Column>, patch: Patch, pos: nat): nat
    requires patch.end <= |columns|
  {
    Uncovered(columns, if pos <= patch.start then patch.start else pos, patch.end)
  }

  lemma NewlyCoveredStep(columns: seq<Column>, patch: Patch, pos: nat)
    requires patch.end <= |columns| && pos < |columns|
    ensures NewlyCovered(columns, patch, pos)
         == NewlyCovered(columns, patch, pos + 1) + (if Covers(patch, pos) && !columns[pos].covered then 1 else 0)
  {
  }

  lemma RenderLengthStep(text: string, columns: seq<Column>, pos: nat)
    requires pos < |text| == |columns|
    ensures |Render(text, columns, pos)|
         == |columns[pos].marks| + (if columns[pos].covered then 0 else 1) + |Render(text, columns, pos + 1)|
  {
  }

  /** One more patch adds its replacement to the reference and takes away what it newly covers. */
  lemma {:induction false} RenderGrows(text: string, a: seq<Column>, b: seq<Column>, patch: Patch, pos: nat)
    requires pos <= |text| == |a| && Overlaid(a, b, patch) && patch.start < patch.end <= |text|
    ensures |Render(text, b, pos)|
         == |Render(text, a, pos)| + (if pos <= patch.start then |patch.replacement| else 0)
            - NewlyCovered(a, patch, pos)
    decreases |text| - pos
  {
    if pos < |text| {
      RenderGrows(text, a, b, patch, pos + 1);
      NewlyCoveredStep(a, patch, pos);
      RenderLengthStep(text, a, pos);
      RenderLengthStep(text, b, pos);
      assert b[pos] == Over(a[pos], patch, pos);
    }
  }

  lemma {:induction false} RenderAtLeast(text: string, columns: seq<Column>, pos: nat, marked: nat)
    requires pos <= |text| == |columns|
    ensures |Render(text, columns, pos)|
         >= Uncovered(columns, pos, |text|) + (if pos <= marked < |text| then |columns[marked].marks| else 0)
    decreases |text| - pos
  {
    if pos < |text| {
      RenderAtLeast(text, columns, pos + 1, marked);
    }
  }

  /** The reference always keeps the text left of all patches, and at least one replacement. */
  lemma ScanLongerThanFront(text: string, patches: seq<Patch>, start: nat, end: nat)
    requires patches != [] && InText(text, patches)
    requires start <= end <= |text| == |Layout(patches, |text|)|
    requires forall i | 0 <= i < |patches| :: start <= patches[i].start
    ensures |Render(text, Layout(patches, |text|), 0)| > start + Uncovered(Layout(patches, |text|), start, end)
  {
    var n, before, last := |text|, patches[..|patches| - 1], patches[|patches| - 1];
    var columns := Layout(patches, n);
    assert patches == before + [last];
    LayoutAt(patches, n);
    MarksLast(before, last, last.start);
    assert |columns[last.start].marks| > 0;
    RenderAtLeast(text, columns, 0, last.start);
    PlainLayout(patches, n, start);
    AllUncovered(columns, 0, start);
    UncoveredSplit(columns, 0, start, n);
    UncoveredSplit(columns, start, end, n);
  }

  lemma SpliceLength(r: string, patch: Patch)
    requires patch.start <= |r| && patch.start <= patch.end
    ensures |Splice(r, patch)| == if patch.end <= |r| then |r| - (patch.end - patch.start) + |patch.replacement|
                                  else patch.start + |patch.replacement|
  {
  }

  lemma OverlapIsCovered(before: seq<Patch>, patch: Patch, n: nat)
    requires Descending(before + [patch]) && Disjoint(before) && !Disjoint(before + [patch])
    requires forall i | 0 <= i < |before| :: before[i].start < before[i].end
    requires patch.start <= patch.end <= n == |Layout(before, n)|
    ensures Uncovered(Layout(before, n), patch.start, patch.end) < patch.end - patch.start
  {
    var q := OverlapWhere(before, patch);
    LayoutAt(before, n);
    UncoveredAtMost(Layout(before, n), patch.start, patch.end, q);
  }

  lemma OverlapWhere(before: seq<Patch>, patch: Patch) returns (q: nat)
    requires Descending(before + [patch]) && Disjoint(before) && !Disjoint(before + [patch])
    requires forall i | 0 <= i < |before| :: before[i].start < before[i].end
    ensures patch.start <= q < patch.end && Covered(before, q)
  {
    var all := before + [patch];
    var i, j :| 0 <= i < j < |all| && !Apart(all[i], all[j]);
    assert forall x, y | 0 <= x < y < |before| :: all[x] == before[x] && all[y] == before[y] && Apart(all[x], all[y]);
    assert all[i] == before[i] && all[j] == patch;
    q := before[i].start;
    CoveredByOne(before, q);
    assert Covers(before[i], q);
  }

  /** What the reference keeps besides the positions the next patch newly covers. */
  lemma RoomToTheLeft(text: string, before: seq<Patch>, patch: Patch)
    requires InText(text, before + [patch]) && Descending(before + [patch])
    requires |Layout(before, |text|)| == |text| && patch.start < patch.end <= |text|
    ensures var kept := |Render(text, Layout(before, |text|), 0)| - NewlyCovered(Layout(before, |text|), patch, 0);
            && kept >= patch.start
            && (before != [] ==> kept > patch.start)
            && (before == [] ==> kept == |text| - (patch.end - patch.start))
  {
    var n, a := |text|, Layout(before, |text|);
    FrontBound(text, before, patch);
    if before != [] {
      ScanLongerThanFront(text, before, patch.start, patch.end);
    } else {
      PlainLayout(before, n, n);
      RenderPlain(text, a, 0, n);
      AllUncovered(a, patch.start, patch.end);
    }
  }

  /** r is no longer than the reference, and shorter if two patches overlap. */
  ghost predicate Falls(text: string, patches: seq<Patch>, r: string) {
    |r| <= |Scan(text, patches)| && (!Disjoint(patches) ==> |r| < |Scan(text, patches)|)
  }

  lemma OverlapCounts(before: seq<Patch>, patch: Patch, n: nat)
    requires Descending(before + [patch]) && !Disjoint(before + [patch]) && Disjoint(before)
    requires forall i | 0 <= i < |before| :: before[i].start < before[i].end
    requires patch.start < patch.end <= n == |Layout(before, n)|
    ensures before != [] && NewlyCovered(Layout(before, n), patch, 0) < patch.end - patch.start
  {
    var q := OverlapWhere(before, patch);
    OverlapIsCovered(before, patch, n);
  }

  lemma LossStep(text: string, before: seq<Patch>, patch: Patch, r: string)
    requires InText(text, before + [patch]) && Descending(before + [patch])
    requires patch.start <= |r| && Falls(text, before, r)
    ensures Falls(text, before + [patch], Splice(r, patch))
  {
    var n, a := |text|, Layout(before, |text|);
    assert (before + [patch])[|before|] == patch;
    FrontBound(text, before, patch);
    LayoutAt(before, n);
    LayoutOneMore(before, patch, n);
    RenderGrows(text, a, Layout(before + [patch], n), patch, 0);
    RoomToTheLeft(text, before, patch);
    UncoveredAtMost(a, patch.start, patch.end, 0);
    if !Disjoint(before + [patch]) && Disjoint(before) {
      OverlapCounts(before, patch, n);
    }
    if before == [] {
      assert before + [patch] == [patch] && Disjoint([patch]);
    }
    SpliceLength(r, patch);
  }

  lemma ScanOfNothing(text: string)
    ensures |Scan(text, [])| == |text|
  {
    LayoutAt([], |text|);
    PlainLayout([], |text|, |text|);
    RenderPlain(text, Layout([], |text|), 0, |text|);
  }

  /** Splicing never gives more than the reference, and strictly less when two patches overlap. */
  lemma {:induction false} OverlapLosesText(text: string, patches: seq<Patch>)
    requires InText(text, patches) && Descending(patches)
    ensures Front(text, patches) <= |text| && Front(text, patches) <= |SpliceAll(text, patches)|
    ensures Falls(text, patches, SpliceAll(text, patches))
  {
    if patches == [] {
      ScanOfNothing(text);
    } else {
      var before, patch := patches[..|patches| - 1], patches[|patches| - 1];
      assert patches == before + [patch];
      FrontBound(text, before, patch);
      OverlapLosesText(text, before);
      LossStep(text, before, patch, SpliceAll(text, before));
      SpliceLength(SpliceAll(text, before), patch);
    }
  }

  /** For every list of patches in the text, in any order: sorted right-to-left splicing gives the
      position-by-position substitution exactly when no two patches overlap. */
  lemma SplicingIsSubstitutionIffDisjoint(text: string, patches: seq<Patch>)
    requires InText(text, patches)
    ensures SpliceAll(text, Sorted(patches)) == Scan(text, patches) <==> Disjoint(patches)
    ensures Disjoint(patches) ==>
          |SpliceAll(text, Sorted(patches))| == |text| - Lengths(patches) + Replacements(patches)
  {
    var sorted := Sorted(patches);
    SortingKeepsPatches(patches);
    SortingKeepsTotals(patches);
    SortingSorts(patches);
    SortingKeepsDisjointness(patches);
    SameMembers(text, patches, sorted);
    LayoutOfSorted(patches, |text|);
    if Disjoint(patches) {
      SpliceIsScan(text, sorted);
      PrefixUntouched(text, sorted);
    } else {
      OverlapLosesText(text, sorted);
    }
  }

  lemma PrefixUntouched(text: string, patches: seq<Patch>)
    requires InText(text, patches) && Descending(patches) && |Layout(patches, |text|)| == |text|
    ensures Front(text, patches) <= |text|
    ensures Scan(text, patches)
         == text[..Front(text, patches)] + Render(text, Layout(patches, |text|), Front(text, patches))
  {
    var front := Front(text, patches);
    PlainLayout(patches, |text|, front);
    RenderPlain(text, Layout(patches, |text|), 0, front);
    assert text[0..front] == text[..front];
  }
}
