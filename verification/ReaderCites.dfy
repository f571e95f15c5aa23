/// Cited byte ranges in canonical form, and findings that cite the same bytes
/// kept once (components/code-run-quickjs/reader_forks.js).

module ReaderCites {
  import Decimal
  import opened Sequences
  import opened Wrappers

  /** An entry of a finding's cites as it came: a pair of integers, or
      anything else. */
  datatype RawCite = Pair(lo: int, hi: int) | Other

  datatype Range = Range(lo: int, hi: int)

  predicate Before(a: Range, b: Range) {
    a.lo < b.lo || (a.lo == b.lo && a.hi <= b.hi)
  }

  ghost predicate InRange(r: Range, p: int) {
    r.lo <= p < r.hi
  }

  ghost predicate Covered(rs: seq<Range>, p: int) {
    exists k :: 0 <= k < |rs| && InRange(rs[k], p)
  }

  /** Offset `p` is in some valid cite. */
  ghost predicate Cited(cites: seq<RawCite>, p: int) {
    exists k :: 0 <= k < |cites| && CitesAt(cites[k], p)
  }

  ghost predicate CitesAt(c: RawCite, p: int) {
    c.Pair? && c.lo <= p < c.hi
  }

  predicate Nonempty(rs: seq<Range>) {
    forall k :: 0 <= k < |rs| ==> rs[k].lo < rs[k].hi
  }

  /** Canonical: nonempty ranges in order, a gap between each and the next. */
  predicate Canonical(rs: seq<Range>) {
    Nonempty(rs) && forall k, m :: 0 <= k < m < |rs| ==> rs[k].hi < rs[m].lo
  }

  ghost predicate Sorted(rs: seq<Range>) {
    forall k, m :: 0 <= k < m < |rs| ==> Before(rs[k], rs[m])
  }

  lemma CoveredPush(rs: seq<Range>, r: Range, p: int)
    ensures Covered(rs + [r], p) <==> Covered(rs, p) || InRange(r, p)
  {
    var all := rs + [r];
    if Covered(rs, p) {
      var k :| 0 <= k < |rs| && InRange(rs[k], p);
      assert InRange(all[k], p);
    }
    if InRange(r, p) {
      assert InRange(all[|rs|], p);
    }
  }

  lemma CitedPush(cites: seq<RawCite>, n: nat, p: int)
    requires n < |cites|
    ensures Cited(cites[..n + 1], p) <==> Cited(cites[..n], p) || CitesAt(cites[n], p)
  {
    if Cited(cites[..n], p) {
      var k :| 0 <= k < n && CitesAt(cites[..n][k], p);
      assert CitesAt(cites[..n + 1][k], p);
    }
    if CitesAt(cites[n], p) {
      assert CitesAt(cites[..n + 1][n], p);
    }
  }

  lemma CoveredInsert(rs: seq<Range>, at: nat, r: Range, p: int)
    requires at <= |rs|
    ensures Covered(rs[..at] + [r] + rs[at..], p) <==> Covered(rs, p) || InRange(r, p)
  {
    var all := rs[..at] + [r] + rs[at..];
    forall k | 0 <= k < |rs|
      ensures rs[k] == all[if k < at then k else k + 1]
    {
    }
    if Covered(rs, p) {
      var k :| 0 <= k < |rs| && InRange(rs[k], p);
      assert InRange(all[if k < at then k else k + 1], p);
    }
    if InRange(r, p) {
      assert InRange(all[at], p);
    }
    if Covered(all, p) {
      var k :| 0 <= k < |all| && InRange(all[k], p);
      assert k < at ==> InRange(rs[k], p);
      assert k > at ==> InRange(rs[k - 1], p);
    }
  }

  lemma SortedInsert(rs: seq<Range>, at: nat, r: Range)
    requires Sorted(rs) && at <= |rs|
    requires at > 0 ==> Before(rs[at - 1], r)
    requires at < |rs| ==> Before(r, rs[at])
    ensures Sorted(rs[..at] + [r] + rs[at..])
  {
    forall k | 0 <= k < at
      ensures Before(rs[k], r)
    {
    }
    forall k | at <= k < |rs|
      ensures Before(r, rs[k])
    {
    }
  }

  /** A range put in its place: those after it move up one at a time. */
  method Insert(spans: seq<Range>, c: Range) returns (out: seq<Range>)
    requires Sorted(spans) && Nonempty(spans) && c.lo < c.hi
    ensures Sorted(out) && Nonempty(out)
    ensures forall p :: Covered(out, p) <==> Covered(spans, p) || InRange(c, p)
  {
    out := spans + [c];
    var at := |spans|;
    while at > 0 && !Before(out[at - 1], c)
      invariant 0 <= at <= |spans| && |out| == |spans| + 1
      invariant out == spans[..at] + [out[at]] + spans[at..]
      invariant at < |spans| ==> Before(c, spans[at])
    {
      out := out[at := out[at - 1]];
      at := at - 1;
    }
    out := out[at := c];
    assert out == spans[..at] + [c] + spans[at..];
    SortedInsert(spans, at, c);
    forall p
      ensures Covered(out, p) <==> Covered(spans, p) || InRange(c, p)
    {
      CoveredInsert(spans, at, c, p);
    }
  }

  ghost predicate SameCover(a: seq<Range>, b: seq<Range>) {
    forall p :: Covered(a, p) <==> Covered(b, p)
  }

  lemma CoverPush(merged: seq<Range>, spans: seq<Range>, s: Range)
    requires SameCover(merged, spans)
    ensures SameCover(merged + [s], spans + [s])
  {
    forall p
      ensures Covered(merged + [s], p) <==> Covered(spans + [s], p)
    {
      CoveredPush(merged, s, p);
      CoveredPush(spans, s, p);
    }
  }

  /** Taking a range that meets the last one into it. */
  lemma CoverExtend(front: seq<Range>, last: Range, wide: Range, spans: seq<Range>, s: Range)
    requires SameCover(front + [last], spans)
    requires last.lo <= s.lo <= last.hi && last.lo < last.hi
    requires wide == Range(last.lo, if last.hi > s.hi then last.hi else s.hi)
    ensures SameCover(front + [wide], spans + [s])
  {
    forall p
      ensures Covered(front + [wide], p) <==> Covered(spans + [s], p)
    {
      CoveredPush(front, last, p);
      CoveredPush(front, wide, p);
      CoveredPush(spans, s, p);
    }
  }

  /** Sorted ranges merged: each that meets the last is taken into it. */
  method Merge(spans: seq<Range>) returns (merged: seq<Range>)
    requires Sorted(spans) && Nonempty(spans)
    ensures Canonical(merged) && SameCover(merged, spans)
  {
    merged := [];
    for i := 0 to |spans|
      invariant Canonical(merged)
      invariant merged != [] ==> i > 0 && merged[|merged| - 1].lo <= spans[i - 1].lo
      invariant SameCover(merged, spans[..i])
    {
      var s := spans[i];
      assert spans[..i + 1] == spans[..i] + [s];
      if merged != [] && s.lo <= merged[|merged| - 1].hi {
        var front, last := merged[..|merged| - 1], merged[|merged| - 1];
        var wide := Range(last.lo, if last.hi > s.hi then last.hi else s.hi);
        assert merged == front + [last];
        assert Before(spans[i - 1], s);
        CoverExtend(front, last, wide, spans[..i], s);
        merged := front + [wide];
      } else {
        CoverPush(merged, spans[..i], s);
        merged := merged + [s];
      }
    }
    assert spans[..|spans|] == spans;
  }

  /** Cites as canonical ranges of exactly the offsets the valid ones hold. */
  method NormaliseCites(cites: Option<seq<RawCite>>) returns (merged: seq<Range>)
    ensures Canonical(merged)
    ensures cites.None? ==> merged == []
    ensures cites.Some? ==> forall p :: Covered(merged, p) <==> Cited(cites.value, p)
  {
    var spans: seq<Range> := [];
    if cites.None? {
      return spans;
    }
    var cs := cites.value;
    for i := 0 to |cs|
      invariant Sorted(spans) && Nonempty(spans)
      invariant forall p :: Covered(spans, p) <==> Cited(cs[..i], p)
    {
      ghost var was := spans;
      if cs[i].Pair? && cs[i].lo < cs[i].hi {
        spans := Insert(spans, Range(cs[i].lo, cs[i].hi));
      }
      forall p
        ensures Covered(spans, p) <==> Cited(cs[..i + 1], p)
      {
        CitedPush(cs, i, p);
      }
    }
    assert cs[..|cs|] == cs;
    merged := Merge(spans);
  }

  // The form is canonical.

  lemma FirstCovered(rs: seq<Range>, p: int)
    requires Canonical(rs) && Covered(rs, p)
    ensures rs != [] && rs[0].lo <= p
  {
  }

  lemma TailCovered(rs: seq<Range>, p: int)
    requires Canonical(rs) && rs != []
    ensures Covered(rs[1..], p) <==> Covered(rs, p) && p > rs[0].hi
  {
    if Covered(rs[1..], p) {
      var k :| 0 <= k < |rs[1..]| && InRange(rs[1..][k], p);
      assert InRange(rs[k + 1], p);
    }
    if Covered(rs, p) && p > rs[0].hi {
      var k :| 0 <= k < |rs| && InRange(rs[k], p);
      assert InRange(rs[1..][k - 1], p);
    }
  }

  lemma SameTail(a: seq<Range>, b: seq<Range>)
    requires Canonical(a) && Canonical(b) && SameCover(a, b)
    requires a != [] && b != [] && a[0] == b[0]
    ensures SameCover(a[1..], b[1..])
  {
    forall p
      ensures Covered(a[1..], p) <==> Covered(b[1..], p)
    {
      TailCovered(a, p);
      TailCovered(b, p);
    }
  }

  /** Two canonical lists that cover the same offsets are the same list. */
  lemma {:induction false} CanonicalUnique(a: seq<Range>, b: seq<Range>)
    requires Canonical(a) && Canonical(b) && SameCover(a, b)
    ensures a == b
    decreases |a|
  {
    if a == [] {
      if b != [] {
        assert InRange(b[0], b[0].lo);
        assert Covered(b, b[0].lo);
      }
    } else {
      assert InRange(a[0], a[0].lo);
      assert Covered(b, a[0].lo);
      FirstCovered(b, a[0].lo);
      assert InRange(b[0], b[0].lo);
      FirstCovered(a, b[0].lo);
      SameFirst(a, b);
      SameFirst(b, a);
      SameTail(a, b);
      CanonicalUnique(a[1..], b[1..]);
      assert a == [a[0]] + a[1..] && b == [b[0]] + b[1..];
    }
  }

  /** The first range of one ends no sooner than the other's: the offset past
      a range's end is covered by neither. */
  lemma SameFirst(a: seq<Range>, b: seq<Range>)
    requires Canonical(a) && Canonical(b) && SameCover(a, b)
    requires a != [] && b != [] && a[0].lo == b[0].lo
    ensures a[0].hi <= b[0].hi
  {
    var p := b[0].hi;
    assert !Covered(b, p);
    if a[0].hi > p {
      assert InRange(a[0], p);
    }
  }

  // Dedupe by the rendered cites.

  /** A cite list's id, as its pairs' numbers. */
  function Id(cites: seq<Range>): string {
    if cites == [] then "" else PairId(cites[0]) + Id(cites[1..])
  }

  /** One number's text with the mark that ends it. */
  function Ended(n: int, mark: char): string {
    Decimal.Numeral(n) + [mark]
  }

  lemma EndedPrefix(m: int, n: int, mark: char, restA: string, restB: string)
    requires mark !in Decimal.DIGITS
    requires Ended(m, mark) + restA == Ended(n, mark) + restB
    ensures m == n && restA == restB
  {
    var tailA, tailB := [mark] + restA, [mark] + restB;
    Assoc(Decimal.Numeral(m), [mark], restA);
    Assoc(Decimal.Numeral(n), [mark], restB);
    Decimal.NumeralPrefix(m, n, tailA, tailB);
    assert tailA[1..] == restA && tailB[1..] == restB;
  }

  function PairId(r: Range): string {
    Ended(r.lo, '-') + Ended(r.hi, ',')
  }

  lemma PairIdPrefix(a: Range, b: Range, restA: string, restB: string)
    requires PairId(a) + restA == PairId(b) + restB
    ensures a == b && restA == restB
  {
    var midA, midB := Ended(a.hi, ',') + restA, Ended(b.hi, ',') + restB;
    Assoc(Ended(a.lo, '-'), Ended(a.hi, ','), restA);
    Assoc(Ended(b.lo, '-'), Ended(b.hi, ','), restB);
    EndedPrefix(a.lo, b.lo, '-', midA, midB);
    EndedPrefix(a.hi, b.hi, ',', restA, restB);
  }

  lemma IdParts(cites: seq<Range>)
    requires cites != []
    ensures Id(cites) == PairId(cites[0]) + Id(cites[1..]) && |Id(cites)| > 0
  {
  }

  /** No two cite lists share an id. */
  lemma {:induction false} IdInjective(a: seq<Range>, b: seq<Range>)
    requires Id(a) == Id(b)
    ensures a == b
    decreases |a|
  {
    if a == [] {
      if b != [] {
        IdParts(b);
      }
    } else {
      IdParts(a);
      if b != [] {
        IdParts(b);
        var restA, restB := a[1..], b[1..];
        PairIdPrefix(a[0], b[0], Id(restA), Id(restB));
        IdInjective(restA, restB);
        assert a == [a[0]] + restA && b == [b[0]] + restB;
      }
    }
  }

  datatype Finding = Finding(ref: string, bytes: nat, cites: Option<seq<Range>>)

  datatype Item = Item(ref: string, bytes: nat)

  predicate HasCites(f: Finding) {
    f.cites.Some? && f.cites.value != []
  }

  function ItemOf(f: Finding): Item {
    Item(f.ref, f.bytes)
  }

  ghost predicate SameBytes(a: Finding, b: Finding) {
    HasCites(a) && HasCites(b) && SameCover(a.cites.value, b.cites.value)
  }

  /** Finding `i` is kept: it cites nothing, or no finding before it cites the
      same bytes. */
  ghost predicate IsKept(fs: seq<Finding>, i: nat)
    requires i < |fs|
  {
    !HasCites(fs[i]) || forall j :: 0 <= j < i ==> !SameBytes(fs[j], fs[i])
  }

  ghost function Kept(fs: seq<Finding>, n: nat): seq<Item>
    requires n <= |fs|
  {
    if n == 0 then [] else Kept(fs, n - 1) + (if IsKept(fs, n - 1) then [ItemOf(fs[n - 1])] else [])
  }

  ghost predicate AllCanonical(fs: seq<Finding>) {
    forall i :: 0 <= i < |fs| && HasCites(fs[i]) ==> Canonical(fs[i].cites.value)
  }

  /** Ids agree exactly for the same bytes. */
  lemma SameIdSameBytes(a: Finding, b: Finding)
    requires HasCites(a) && HasCites(b) && Canonical(a.cites.value) && Canonical(b.cites.value)
    ensures Id(a.cites.value) == Id(b.cites.value) <==> SameBytes(a, b)
  {
    if Id(a.cites.value) == Id(b.cites.value) {
      IdInjective(a.cites.value, b.cites.value);
    }
    if SameBytes(a, b) {
      CanonicalUnique(a.cites.value, b.cites.value);
    }
  }

  ghost predicate IdAt(fs: seq<Finding>, j: int, id: string) {
    0 <= j < |fs| && HasCites(fs[j]) && Id(fs[j].cites.value) == id
  }

  /** `id` is the id of one of the first `n` findings. */
  ghost predicate Met(fs: seq<Finding>, n: nat, id: string) {
    exists j :: 0 <= j < n && IdAt(fs, j, id)
  }

  lemma MetPush(fs: seq<Finding>, n: nat, id: string)
    requires n < |fs|
    ensures Met(fs, n + 1, id) <==> Met(fs, n, id) || IdAt(fs, n, id)
  {
    if Met(fs, n, id) {
      var j :| 0 <= j < n && IdAt(fs, j, id);
      assert 0 <= j < n + 1 && IdAt(fs, j, id);
    }
    if IdAt(fs, n, id) {
      assert 0 <= n < n + 1;
    }
  }

  ghost predicate IsSeen(fs: seq<Finding>, n: nat, seen: set<string>) {
    forall id :: id in seen <==> Met(fs, n, id)
  }

  lemma SeenPush(fs: seq<Finding>, n: nat, seen: set<string>, after: set<string>)
    requires n < |fs| && IsSeen(fs, n, seen)
    requires after == if HasCites(fs[n]) then seen + {Id(fs[n].cites.value)} else seen
    ensures IsSeen(fs, n + 1, after)
  {
    forall id
      ensures id in after <==> Met(fs, n + 1, id)
    {
      MetPush(fs, n, id);
    }
  }

  lemma KeptById(fs: seq<Finding>, i: nat, seen: set<string>)
    requires AllCanonical(fs) && i < |fs| && IsSeen(fs, i, seen)
    ensures IsKept(fs, i) <==> !HasCites(fs[i]) || Id(fs[i].cites.value) !in seen
  {
    if HasCites(fs[i]) {
      var id := Id(fs[i].cites.value);
      if id in seen {
        var j :| 0 <= j < i && IdAt(fs, j, id);
        SameIdSameBytes(fs[j], fs[i]);
      } else {
        forall j | 0 <= j < i
          ensures !SameBytes(fs[j], fs[i])
        {
          assert !IdAt(fs, j, id);
          if HasCites(fs[j]) {
            SameIdSameBytes(fs[j], fs[i]);
          }
        }
      }
    }
  }

  lemma KeptStep(fs: seq<Finding>, i: nat, seen: set<string>, anew: bool)
    requires AllCanonical(fs) && i < |fs| && IsSeen(fs, i, seen)
    requires anew == (!HasCites(fs[i]) || Id(fs[i].cites.value) !in seen)
    ensures Kept(fs, i + 1) == Kept(fs, i) + (if anew then [ItemOf(fs[i])] else [])
  {
    KeptById(fs, i, seen);
  }

  /** The findings before `i` are deduped: `kept` of them, `seen` their ids. */
  ghost predicate Deduped(fs: seq<Finding>, i: nat, seen: set<string>, kept: seq<Item>) {
    i <= |fs| && IsSeen(fs, i, seen) && kept == Kept(fs, i)
  }

  lemma DedupedNext(fs: seq<Finding>, i: nat, n: nat, f: Finding, seen: set<string>, kept: seq<Item>, anew: bool, after: set<string>,
                    more: seq<Item>)
    requires AllCanonical(fs) && i < |fs| && n == i + 1 && f == fs[i] && Deduped(fs, i, seen, kept)
    requires anew == (!HasCites(f) || Id(f.cites.value) !in seen)
    requires after == if HasCites(f) then seen + {Id(f.cites.value)} else seen
    requires more == if anew then kept + [ItemOf(f)] else kept
    ensures Deduped(fs, n, after, more)
  {
    KeptStep(fs, i, seen, anew);
    SeenPush(fs, i, seen, after);
  }

  /** The first finding of each cited set of bytes, in order, with every
      finding that cites nothing. */
  method Dedupe(findings: seq<Finding>) returns (kept: seq<Item>)
    requires AllCanonical(findings)
    ensures kept == Kept(findings, |findings|)
  {
    var seen: set<string> := {};
    kept := [];
    var i := 0;
    while i < |findings|
      invariant i <= |findings| && Deduped(findings, i, seen, kept)
    {
      var f, n := findings[i], i + 1;
      ghost var was := seen;
      var anew := true;
      if HasCites(f) {
        var id := Id(f.cites.value);
        anew := id !in seen;
        seen := seen + {id};
      }
      var more := if anew then kept + [ItemOf(f)] else kept;
      DedupedNext(findings, i, n, f, was, kept, anew, seen, more);
      kept, i := more, n;
    }
  }
}
