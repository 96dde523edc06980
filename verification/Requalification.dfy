/** Coverage of a requalification report: every required check once, every artifact present, whole and counted
    once (crates/rx-application/src/requalification.rs, `Verified::check`). The signature and the digests of
    request, policy and profiles have been compared before. */
module Requalification {
  import opened Base

  type Byte = b: int | 0 <= b <= 255

  /** The content digest of a blob. */
  datatype Digest = Digest(content: seq<Byte>)

  datatype ArtifactRef = ArtifactRef(sha256: Digest, schema: Name, size: U64)

  datatype Criterion = Criterion(id: Name, specification: ArtifactRef, evidenceSchema: Name)

  datatype Profile = Profile(
    cell: Name, configuration: ArtifactRef, envelope: ArtifactRef, definition: ArtifactRef,
    acceptancePlan: ArtifactRef, limitations: ArtifactRef, dependencies: seq<ArtifactRef>, criteria: seq<Criterion>)

  datatype Verdict = Pass | Fail | NotRun

  datatype Check = Check(cell: Name, criterion: Name, verdict: Verdict, evidence: seq<ArtifactRef>, note: string)

  datatype Refusal =
    | ExtraCheck | CheckShape | EvidenceMissing | ChecksMissing
    | ArtifactMissing | ArtifactIntegrity | SizeOverflow | ArtifactSet

  type Pair = (Name, Name)

  const MAX_ARTIFACT: nat := 8 * 1024 * 1024
  const MAX_TOTAL: nat := 32 * 1024 * 1024

  // ---------------------------------------------------------------- what a report must contain

  /** The evidence schema required for each check; a repeated pair keeps its last schema. */
  function CriteriaOf(cell: Name, criteria: seq<Criterion>): map<Pair, Name> {
    if criteria == [] then map[] else
    var last := criteria[|criteria| - 1];
    CriteriaOf(cell, criteria[..|criteria| - 1])[(cell, last.id) := last.evidenceSchema]
  }

  function Expected(cells: seq<Profile>): map<Pair, Name> {
    if cells == [] then map[] else
    var last := cells[|cells| - 1];
    Expected(cells[..|cells| - 1]) + CriteriaOf(last.cell, last.criteria)
  }

  ghost predicate Requires(cells: seq<Profile>, p: Pair) {
    exists i, j :: 0 <= i < |cells| && 0 <= j < |cells[i].criteria| && p == (cells[i].cell, cells[i].criteria[j].id)
  }

  /** A check is expected exactly when some criterion of some cell asks for it. */
  lemma {:induction false} ExpectedIsRequired(cells: seq<Profile>, p: Pair)
    ensures p in Expected(cells) <==> Requires(cells, p)
  {
    if cells != [] {
      var front, last := cells[..|cells| - 1], cells[|cells| - 1];
      ExpectedIsRequired(front, p);
      CriteriaAsk(last.cell, last.criteria, p);
      if Requires(front, p) {
        var i, j :| 0 <= i < |front| && 0 <= j < |front[i].criteria| && p == (front[i].cell, front[i].criteria[j].id);
        assert cells[i] == front[i];
      }
      if Requires(cells, p) && p !in CriteriaOf(last.cell, last.criteria) {
        var i, j :| 0 <= i < |cells| && 0 <= j < |cells[i].criteria| && p == (cells[i].cell, cells[i].criteria[j].id);
        assert front[i] == cells[i];
      }
    }
  }

  lemma {:induction false} CriteriaAsk(cell: Name, criteria: seq<Criterion>, p: Pair)
    ensures p in CriteriaOf(cell, criteria) <==> exists j :: 0 <= j < |criteria| && p == (cell, criteria[j].id)
  {
    if criteria != [] {
      var front := criteria[..|criteria| - 1];
      CriteriaAsk(cell, front, p);
      assert forall j | 0 <= j < |front| :: front[j] == criteria[j];
    }
  }

  /** Criterion `j` of cell `i` is the last one that asks for the check. */
  ghost predicate LastAsks(cells: seq<Profile>, p: Pair, i: nat, j: nat) {
    && i < |cells| && j < |cells[i].criteria| && p == (cells[i].cell, cells[i].criteria[j].id)
    && (forall n | j < n < |cells[i].criteria| :: cells[i].criteria[n].id != p.1)
    && forall m, n | i < m < |cells| && 0 <= n < |cells[m].criteria| :: p != (cells[m].cell, cells[m].criteria[n].id)
  }

  lemma OneAsksLast(cells: seq<Profile>, p: Pair, i: nat, j: nat, m: nat, n: nat)
    requires LastAsks(cells, p, i, j) && LastAsks(cells, p, m, n)
    ensures i == m && j == n
  {
  }

  /** The schema expected of a check is the evidence schema of the last criterion that asks for it. */
  lemma {:induction false} ExpectedIsLastAsked(cells: seq<Profile>, p: Pair) returns (i: nat, j: nat)
    requires p in Expected(cells)
    ensures LastAsks(cells, p, i, j) && Expected(cells)[p] == cells[i].criteria[j].evidenceSchema
    decreases |cells|
  {
    var front, last := cells[..|cells| - 1], cells[|cells| - 1];
    CriteriaAsk(last.cell, last.criteria, p);
    if p in CriteriaOf(last.cell, last.criteria) {
      i := |cells| - 1;
      j := LastOfCriteria(last.cell, last.criteria, p);
    } else {
      i, j := ExpectedIsLastAsked(front, p);
      assert forall m | 0 <= m < |front| :: cells[m] == front[m];
    }
  }

  lemma {:induction false} LastOfCriteria(cell: Name, criteria: seq<Criterion>, p: Pair) returns (j: nat)
    requires p in CriteriaOf(cell, criteria)
    ensures j < |criteria| && p == (cell, criteria[j].id) && CriteriaOf(cell, criteria)[p] == criteria[j].evidenceSchema
    ensures forall n | j < n < |criteria| :: criteria[n].id != p.1
    decreases |criteria|
  {
    CriteriaAsk(cell, criteria, p);
    var front, last := criteria[..|criteria| - 1], criteria[|criteria| - 1];
    if p == (cell, last.id) {
      j := |criteria| - 1;
    } else {
      j := LastOfCriteria(cell, front, p);
      assert forall n | 0 <= n < |front| :: criteria[n] == front[n];
    }
  }

  function ProfileReferences(p: Profile): seq<ArtifactRef> {
    [p.configuration, p.envelope, p.definition, p.acceptancePlan, p.limitations] + p.dependencies
      + seq(|p.criteria|, j requires 0 <= j < |p.criteria| => p.criteria[j].specification)
  }

  function CellReferences(cells: seq<Profile>): seq<ArtifactRef> {
    if cells == [] then [] else CellReferences(cells[..|cells| - 1]) + ProfileReferences(cells[|cells| - 1])
  }

  function EvidenceReferences(checks: seq<Check>): seq<ArtifactRef> {
    if checks == [] then [] else EvidenceReferences(checks[..|checks| - 1]) + checks[|checks| - 1].evidence
  }

  function References(cells: seq<Profile>, checks: seq<Check>): seq<ArtifactRef> {
    CellReferences(cells) + EvidenceReferences(checks)
  }

  /** Everything the report's cells and checks point to. */
  ghost predicate Refers(cells: seq<Profile>, checks: seq<Check>, r: ArtifactRef) {
    || (exists i :: 0 <= i < |cells| && InProfile(cells[i], r))
    || (exists i :: 0 <= i < |checks| && r in checks[i].evidence)
  }

  ghost predicate InProfile(p: Profile, r: ArtifactRef) {
    || r == p.configuration || r == p.envelope || r == p.definition || r == p.acceptancePlan || r == p.limitations
    || r in p.dependencies || exists j :: 0 <= j < |p.criteria| && r == p.criteria[j].specification
  }

  lemma {:induction false} ReferencesAreAll(cells: seq<Profile>, checks: seq<Check>, r: ArtifactRef)
    ensures r in References(cells, checks) <==> Refers(cells, checks, r)
  {
    CellReferencesAreAll(cells, r);
    EvidenceReferencesAreAll(checks, r);
  }

  lemma {:induction false} CellReferencesAreAll(cells: seq<Profile>, r: ArtifactRef)
    ensures r in CellReferences(cells) <==> exists i :: 0 <= i < |cells| && InProfile(cells[i], r)
  {
    hide InProfile, ProfileReferences;
    if cells != [] {
      var front, last := cells[..|cells| - 1], cells[|cells| - 1];
      CellReferencesAreAll(front, r);
      ProfileReferencesAreAll(last, r);
      assert forall i | 0 <= i < |front| :: front[i] == cells[i];
    }
  }

  lemma ProfileReferencesAreAll(p: Profile, r: ArtifactRef)
    ensures r in ProfileReferences(p) <==> InProfile(p, r)
  {
    var fixed := [p.configuration, p.envelope, p.definition, p.acceptancePlan, p.limitations];
    var specifications := seq(|p.criteria|, j requires 0 <= j < |p.criteria| => p.criteria[j].specification);
    assert r in fixed <==> r == fixed[0] || r == fixed[1] || r == fixed[2] || r == fixed[3] || r == fixed[4];
    assert forall j | 0 <= j < |p.criteria| :: specifications[j] == p.criteria[j].specification;
    assert ProfileReferences(p) == fixed + p.dependencies + specifications;
  }

  lemma {:induction false} EvidenceReferencesAreAll(checks: seq<Check>, r: ArtifactRef)
    ensures r in EvidenceReferences(checks) <==> exists i :: 0 <= i < |checks| && r in checks[i].evidence
  {
    if checks != [] {
      var front := checks[..|checks| - 1];
      EvidenceReferencesAreAll(front, r);
      assert forall i | 0 <= i < |front| :: front[i] == checks[i];
    }
  }

  predicate BlankNote(note: string) {
    forall c | c in note :: WhiteSpace(c)
  }

  /** A check of the required shape: a note, and evidence of the required schema unless it was not run. */
  predicate WellShaped(c: Check, schema: Name) {
    && |c.evidence| <= 32 && !BlankNote(c.note) && |c.note| <= 4000
    && (c.verdict != NotRun ==> c.evidence != [] && forall a | a in c.evidence :: a.schema == schema)
  }

  function PairOf(c: Check): Pair { (c.cell, c.criterion) }

  /** The checks answer the required pairs, each exactly once. */
  ghost predicate Covers(cells: seq<Profile>, checks: seq<Check>) {
    && (forall i, j | 0 <= i < j < |checks| :: PairOf(checks[i]) != PairOf(checks[j]))
    && (forall p :: Requires(cells, p) <==> exists i :: 0 <= i < |checks| && p == PairOf(checks[i]))
  }

  predicate Whole(r: ArtifactRef, blobs: map<Digest, seq<Byte>>) {
    && r.sha256 in blobs && 0 < r.size <= MAX_ARTIFACT && r.size == |blobs[r.sha256]| && Digest(blobs[r.sha256]) == r.sha256
  }

  /** The sizes of these blobs together, each counted once. */
  ghost function Total(blobs: map<Digest, seq<Byte>>, keys: set<Digest>): nat
    requires keys <= blobs.Keys
  {
    if keys == {} then 0 else
    var k :| k in keys;
    |blobs[k]| + Total(blobs, keys - {k})
  }

  lemma {:induction false} TotalAdds(blobs: map<Digest, seq<Byte>>, keys: set<Digest>, k: Digest)
    requires keys <= blobs.Keys && k in keys
    ensures Total(blobs, keys) == |blobs[k]| + Total(blobs, keys - {k})
    decreases keys
  {
    var first :| first in keys && Total(blobs, keys) == |blobs[first]| + Total(blobs, keys - {first});
    if first != k {
      TotalAdds(blobs, keys - {first}, k);
      TotalAdds(blobs, keys - {k}, first);
      assert keys - {first} - {k} == keys - {k} - {first};
    }
  }

  /** Exactly the referenced blobs are there, whole, and within the total. */
  ghost predicate ArtifactsMatch(cells: seq<Profile>, checks: seq<Check>, blobs: map<Digest, seq<Byte>>) {
    && (forall r | Refers(cells, checks, r) :: Whole(r, blobs))
    && (forall k | k in blobs :: exists r :: Refers(cells, checks, r) && r.sha256 == k)
    && Total(blobs, blobs.Keys) <= MAX_TOTAL
  }

  ghost predicate ChecksMatch(cells: seq<Profile>, checks: seq<Check>) {
    && Covers(cells, checks)
    && forall i, m: nat, n: nat | 0 <= i < |checks| && LastAsks(cells, PairOf(checks[i]), m, n) ::
         WellShaped(checks[i], cells[m].criteria[n].evidenceSchema)
  }

  /** What acceptance says about each check that was run: it was asked for, and all its evidence is of the schema that the
      last criterion asking for it names. */
  lemma AcceptedEvidence(cells: seq<Profile>, checks: seq<Check>, i: nat) returns (m: nat, n: nat)
    requires ChecksMatch(cells, checks) && i < |checks|
    ensures m < |cells| && n < |cells[m].criteria|
    ensures cells[m].cell == checks[i].cell && cells[m].criteria[n].id == checks[i].criterion
    ensures forall k | n < k < |cells[m].criteria| :: cells[m].criteria[k].id != checks[i].criterion
    ensures forall k | m < k < |cells| && cells[k].cell == checks[i].cell ::
      forall c | c in cells[k].criteria :: c.id != checks[i].criterion
    ensures checks[i].verdict != NotRun ==>
      checks[i].evidence != [] && forall a | a in checks[i].evidence :: a.schema == cells[m].criteria[n].evidenceSchema
    ensures |checks[i].evidence| <= 32 && |checks[i].note| <= 4000 && exists c :: c in checks[i].note && !WhiteSpace(c)
  {
    var p := PairOf(checks[i]);
    assert Requires(cells, p);
    ExpectedIsRequired(cells, p);
    m, n := ExpectedIsLastAsked(cells, p);
    forall k | m < k < |cells| && cells[k].cell == checks[i].cell
      ensures forall c | c in cells[k].criteria :: c.id != checks[i].criterion
    {
      forall c | c in cells[k].criteria
        ensures c.id != checks[i].criterion
      {
        var l :| 0 <= l < |cells[k].criteria| && cells[k].criteria[l] == c;
        assert p != (cells[k].cell, cells[k].criteria[l].id);
      }
    }
  }

  /** What acceptance says about the artifacts: each reference of each cell and each check points to bytes that are there,
      of the named size, within the bound and with the named digest. */
  lemma AcceptedArtifacts(cells: seq<Profile>, checks: seq<Check>, blobs: map<Digest, seq<Byte>>, r: ArtifactRef)
    requires ArtifactsMatch(cells, checks, blobs)
    requires (exists i :: 0 <= i < |checks| && r in checks[i].evidence) || (exists i :: 0 <= i < |cells| && InProfile(cells[i], r))
    ensures r.sha256 in blobs && blobs[r.sha256] == r.sha256.content && r.size == |r.sha256.content|
    ensures 1 <= r.size <= 8_388_608
  {
    hide InProfile;
    assert Refers(cells, checks, r);
  }

  // ---------------------------------------------------------------- the loops

  /** The pairs of the first `n` checks. */
  ghost predicate Answered(checks: seq<Check>, n: nat, found: set<Pair>)
    requires n <= |checks|
  {
    && (forall p :: p in found <==> exists i :: 0 <= i < n && p == PairOf(checks[i]))
    && (forall i, j | 0 <= i < j < n :: PairOf(checks[i]) != PairOf(checks[j]))
  }

  /** As many distinct expected pairs as are expected: every one of them. */
  lemma CountingCovers(cells: seq<Profile>, checks: seq<Check>, found: set<Pair>)
    requires Answered(checks, |checks|, found) && found <= Expected(cells).Keys
    ensures Covers(cells, checks) <==> |found| == |Expected(cells)|
  {
    var expected := Expected(cells);
    assert |expected| == |expected.Keys|;
    forall p
      ensures p in expected.Keys <==> Requires(cells, p)
    {
      ExpectedIsRequired(cells, p);
    }
    assert Covers(cells, checks) <==> found == expected.Keys;
    if |found| == |expected.Keys| { SameSize(found, expected.Keys); }
  }

  lemma {:induction false} SameSize(a: set<Pair>, b: set<Pair>)
    requires a <= b && |a| == |b|
    ensures a == b
  {
    var rest := b - a;
    assert b == a + rest && |b| == |a| + |rest|;
  }

  method CheckCoverage(cells: seq<Profile>, checks: seq<Check>) returns (r: Result<bool, Refusal>)
    ensures r.Ok? <==> ChecksMatch(cells, checks)
    ensures r.Ok? ==> (r.value <==> forall i | 0 <= i < |checks| :: checks[i].verdict == Pass)
  {
    hide Requires, Expected, WellShaped, Covers;
    var expected := Expected(cells);
    var found: set<Pair> := {};
    var ready := true;
    for n := 0 to |checks|
      invariant Answered(checks, n, found) && found <= expected.Keys
      invariant forall i | 0 <= i < n :: PairOf(checks[i]) in expected && WellShaped(checks[i], expected[PairOf(checks[i])])
      invariant ready <==> forall i | 0 <= i < n :: checks[i].verdict == Pass
    {
      var c := checks[n];
      if PairOf(c) !in expected {
        Extra(cells, checks, n);
        return Err(ExtraCheck);
      }
      var schema := expected[PairOf(c)];
      Shape(c, schema);
      if PairOf(c) in found || |c.evidence| > 32 || BlankNote(c.note) || |c.note| > 4000 {
        Misshapen(cells, checks, n, found, schema);
        return Err(CheckShape);
      }
      if c.verdict != NotRun && (c.evidence == [] || exists a | a in c.evidence :: a.schema != schema) {
        Misshapen(cells, checks, n, found, schema);
        return Err(EvidenceMissing);
      }
      found := found + {PairOf(c)};
      ready := ready && c.verdict == Pass;
    }
    CountingCovers(cells, checks, found);
    if |found| != |expected| { return Err(ChecksMissing); }
    ShapesDecided(cells, checks);
    r := Ok(ready);
  }

  lemma Extra(cells: seq<Profile>, checks: seq<Check>, n: nat)
    requires n < |checks| && PairOf(checks[n]) !in Expected(cells)
    ensures !ChecksMatch(cells, checks)
  {
    ExpectedIsRequired(cells, PairOf(checks[n]));
  }

  lemma Misshapen(cells: seq<Profile>, checks: seq<Check>, n: nat, found: set<Pair>, schema: Name)
    requires n < |checks| && Answered(checks, n, found)
    requires PairOf(checks[n]) in Expected(cells) && schema == Expected(cells)[PairOf(checks[n])]
    requires PairOf(checks[n]) in found || !WellShaped(checks[n], schema)
    ensures !ChecksMatch(cells, checks)
  {
    hide WellShaped, LastAsks;
    var a, b := ExpectedIsLastAsked(cells, PairOf(checks[n]));
  }

  lemma ShapesDecided(cells: seq<Profile>, checks: seq<Check>)
    requires Covers(cells, checks)
    requires forall i | 0 <= i < |checks| :: PairOf(checks[i]) in Expected(cells) && WellShaped(checks[i], Expected(cells)[PairOf(checks[i])])
    ensures ChecksMatch(cells, checks)
  {
    hide WellShaped, Expected, Requires;
    forall i, m: nat, n: nat | 0 <= i < |checks| && LastAsks(cells, PairOf(checks[i]), m, n)
      ensures WellShaped(checks[i], cells[m].criteria[n].evidenceSchema)
    {
      var a, b := ExpectedIsLastAsked(cells, PairOf(checks[i]));
      OneAsksLast(cells, PairOf(checks[i]), m, n, a, b);
    }
  }

  lemma Shape(c: Check, schema: Name)
    ensures WellShaped(c, schema) <==>
      && |c.evidence| <= 32 && !BlankNote(c.note) && |c.note| <= 4000
      && (c.verdict != NotRun ==> c.evidence != [] && forall a | a in c.evidence :: a.schema == schema)
  {
  }

  /** The digests of the first `n` references. */
  ghost predicate Collected(refs: seq<ArtifactRef>, n: nat, digests: set<Digest>)
    requires n <= |refs|
  {
    forall k :: k in digests <==> exists i :: 0 <= i < n && refs[i].sha256 == k
  }

  lemma {:induction false} TotalGrows(blobs: map<Digest, seq<Byte>>, some: set<Digest>, all: set<Digest>)
    requires some <= all <= blobs.Keys
    ensures Total(blobs, some) <= Total(blobs, all)
    decreases all
  {
    if all <= some {
      assert some == all;
    } else {
      var k :| k in all && k !in some;
      TotalGrows(blobs, some, all - {k});
      TotalAdds(blobs, all, k);
    }
  }

  lemma ArtifactsDecided(cells: seq<Profile>, checks: seq<Check>, blobs: map<Digest, seq<Byte>>, digests: set<Digest>)
    requires var refs := References(cells, checks);
      Collected(refs, |refs|, digests) && forall i | 0 <= i < |refs| :: Whole(refs[i], blobs)
    requires digests <= blobs.Keys
    ensures ArtifactsMatch(cells, checks, blobs) <==> Total(blobs, digests) <= MAX_TOTAL && digests == blobs.Keys
  {
    hide References, Refers, Whole, Total;
    var refs := References(cells, checks);
    forall r
      ensures r in refs <==> Refers(cells, checks, r)
    {
      ReferencesAreAll(cells, checks, r);
    }
    forall r | Refers(cells, checks, r)
      ensures Whole(r, blobs) && r.sha256 in digests
    {
      var i :| 0 <= i < |refs| && refs[i] == r;
    }
    forall k | k in digests
      ensures exists r :: Refers(cells, checks, r) && r.sha256 == k
    {
      var i :| 0 <= i < |refs| && refs[i].sha256 == k;
      assert refs[i] in refs && Refers(cells, checks, refs[i]);
    }
    if digests == blobs.Keys {
      assert ArtifactsMatch(cells, checks, blobs) <==> Total(blobs, digests) <= MAX_TOTAL;
    }
  }

  lemma Faulty(cells: seq<Profile>, checks: seq<Check>, blobs: map<Digest, seq<Byte>>, r: ArtifactRef)
    requires r in References(cells, checks) && !Whole(r, blobs)
    ensures !ArtifactsMatch(cells, checks, blobs)
  {
    ReferencesAreAll(cells, checks, r);
  }

  method CheckArtifacts(cells: seq<Profile>, checks: seq<Check>, blobs: map<Digest, seq<Byte>>) returns (r: Result<(), Refusal>)
    ensures r.Ok? <==> ArtifactsMatch(cells, checks, blobs)
  {
    hide References, Refers, ArtifactsMatch;
    var refs := References(cells, checks);
    var expected: set<Digest> := {};
    var total: U64 := 0;
    for n := 0 to |refs|
      invariant forall i | 0 <= i < n :: Whole(refs[i], blobs)
      invariant Collected(refs, n, expected)
      invariant expected <= blobs.Keys && total == Total(blobs, expected)
    {
      var ref := refs[n];
      if ref.sha256 !in blobs {
        Faulty(cells, checks, blobs, ref);
        return Err(ArtifactMissing);
      }
      var blob := blobs[ref.sha256];
      if ref.size == 0 || ref.size > MAX_ARTIFACT || ref.size != |blob| || Digest(blob) != ref.sha256 {
        Faulty(cells, checks, blobs, ref);
        return Err(ArtifactIntegrity);
      }
      if ref.sha256 !in expected {
        ghost var before := expected;
        expected := expected + {ref.sha256};
        TotalAdds(blobs, expected, ref.sha256);
        assert expected - {ref.sha256} == before;
        var sum := CheckedAdd(total, ref.size);
        if sum.None? {
          TooLarge(cells, checks, blobs, expected);
          return Err(SizeOverflow);
        }
        total := sum.value;
      }
    }
    ArtifactsDecided(cells, checks, blobs, expected);
    if total > MAX_TOTAL || expected != blobs.Keys { return Err(ArtifactSet); }
    r := Ok(());
  }

  lemma TooLarge(cells: seq<Profile>, checks: seq<Check>, blobs: map<Digest, seq<Byte>>, some: set<Digest>)
    requires some <= blobs.Keys && Total(blobs, some) > MAX_TOTAL
    ensures !ArtifactsMatch(cells, checks, blobs)
  {
    TotalGrows(blobs, some, blobs.Keys);
  }

  /** The part of a report's verification that follows the signature: whether it is accepted, and if so
      whether it is ready for review. */
  method CheckReport(cells: seq<Profile>, checks: seq<Check>, blobs: map<Digest, seq<Byte>>) returns (r: Result<bool, Refusal>)
    ensures r.Ok? <==> ChecksMatch(cells, checks) && ArtifactsMatch(cells, checks, blobs)
    ensures r.Ok? ==> (r.value <==> forall i | 0 <= i < |checks| :: checks[i].verdict == Pass)
  {
    var ready := CheckCoverage(cells, checks);
    if ready.Err? { return ready; }
    var whole := CheckArtifacts(cells, checks, blobs);
    if whole.Err? { return Err(whole.error); }
    r := ready;
  }
}
