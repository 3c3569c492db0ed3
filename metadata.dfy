/** The statistics the normaliser attaches to a parsed curriculum
    (generateCurriculumMetadata in src/lib/curriculumParser.ts). */
module CurriculumMetadata {
  import opened JsValue
  import opened CurriculumTypes
  import opened Collections

  /** Σ |escoMappings| over the competencies. */
  function EscoTotal(comps: seq<Competency>): nat {
    if |comps| == 0 then 0 else EscoTotal(comps[..|comps| - 1]) + |comps[|comps| - 1].escoMappings|
  }

  /** `(comp.competencyAnalysis?.digitalLevel || 0) > 2` */
  predicate IsDigital(c: Competency) {
    var d := c.analysis.digitalLevel;
    Greater(if Present(d) then d.value else JNum(0.0), 2.0)
  }

  /** The key a competency adds to the type distribution, when its type is truthy. */
  function TypeLabel(c: Competency): (r: Option<string>)
    ensures r.Some? <==> Truthy(c.competencyType)
  {
    if Truthy(c.competencyType) then Some(ToJsString(c.competencyType)) else None
  }

  /** The key a competency adds to the bloom distribution, when its bloom level is truthy. */
  function BloomLabel(c: Competency): (r: Option<string>)
    ensures r.Some? <==> Present(c.analysis.bloomLevel)
  {
    if Present(c.analysis.bloomLevel) then Some(ToJsString(c.analysis.bloomLevel.value)) else None
  }

  /** The labels of the competencies, in order. */
  function Labels(comps: seq<Competency>, tagOf: Competency -> Option<string>): (r: seq<Option<string>>)
    ensures |r| == |comps| && forall i :: 0 <= i < |comps| ==> r[i] == tagOf(comps[i])
  {
    seq(|comps|, i requires 0 <= i < |comps| => tagOf(comps[i]))
  }

  /** The statistics record: counts, the two distributions and the average
      number of competencies per field (0 without fields). */
  predicate Describes(m: Metadata, comps: seq<Competency>, fieldCount: nat) {
    && m.competencyCount == |comps|
    && m.escoMappingCount == EscoTotal(comps)
    && m.digitalCompetencyCount == CountIf(comps, IsDigital)
    && m.competencyTypeDistribution == Tally(Labels(comps, TypeLabel))
    && m.bloomLevelDistribution == Tally(Labels(comps, BloomLabel))
    && m.averageCompetenciesPerField == Average(|comps|, fieldCount)
  }

  method GenerateCurriculumMetadata(comps: seq<Competency>, fieldCount: nat) returns (m: Metadata)
    ensures Describes(m, comps, fieldCount)
  {
    var escoCount := EscoCountLoop(comps);
    var digital := DigitalCountLoop(comps);
    var types := TallyLoop(comps, TypeLabel);
    var blooms := TallyLoop(comps, BloomLabel);
    var average := Average(|comps|, fieldCount);
    m := Metadata(|comps|, escoCount, digital, average, types, blooms);
  }

  /** `fieldCount > 0 ? count / fieldCount : 0`: the quotient, which times the
      number of fields gives the count back. */
  function Average(count: nat, fieldCount: nat): (r: real)
    ensures fieldCount == 0 ==> r == 0.0
    ensures fieldCount > 0 ==> r * fieldCount as real == count as real
  {
    if fieldCount > 0 then count as real / fieldCount as real else 0.0
  }

  /** The `reduce` adding up the mapping counts. */
  method EscoCountLoop(comps: seq<Competency>) returns (n: nat)
    ensures n == EscoTotal(comps)
  {
    n := 0;
    var i := 0;
    while i < |comps|
      invariant 0 <= i <= |comps|
      invariant n == EscoTotal(comps[..i])
    {
      assert comps[..i + 1][..i] == comps[..i];
      n := n + |comps[i].escoMappings|;
      i := i + 1;
    }
    assert comps[..i] == comps;
  }

  /** The `filter(...).length` counting the digital competencies. */
  method DigitalCountLoop(comps: seq<Competency>) returns (n: nat)
    ensures n == CountIf(comps, IsDigital)
  {
    n := 0;
    var i := 0;
    assert comps[..0] == [];
    while i < |comps|
      invariant 0 <= i <= |comps|
      invariant n == CountIf(comps[..i], IsDigital)
    {
      CountIfStep(comps, i, IsDigital);
      if IsDigital(comps[i]) {
        n := n + 1;
      }
      i := i + 1;
    }
    assert comps[..i] == comps;
  }

  /** `if (key) record[key] = (record[key] || 0) + 1` over the competencies. */
  method TallyLoop(comps: seq<Competency>, tagOf: Competency -> Option<string>) returns (counts: map<string, nat>)
    ensures counts == Tally(Labels(comps, tagOf))
  {
    ghost var labels := Labels(comps, tagOf);
    counts := map[];
    var i := 0;
    while i < |comps|
      invariant 0 <= i <= |comps|
      invariant counts == Tally(labels[..i])
    {
      assert labels[..i + 1][..i] == labels[..i];
      var l := tagOf(comps[i]);
      if l.Some? {
        counts := counts[l.value := (if l.value in counts then counts[l.value] else 0) + 1];
      }
      i := i + 1;
    }
    assert labels[..i] == labels;
  }

  /** A type is a key of the distribution exactly when some competency carries
      it as a truthy type, and it maps to the number of such competencies. */
  lemma TypeDistributionCounts(comps: seq<Competency>, k: string)
    ensures var dist := Tally(Labels(comps, TypeLabel));
      (k in dist <==> exists i :: 0 <= i < |comps| && Truthy(comps[i].competencyType) && ToJsString(comps[i].competencyType) == k)
      && (k in dist ==> dist[k] == multiset(Labels(comps, TypeLabel))[Some(k)])
  {
    var labels := Labels(comps, TypeLabel);
    TallyCounts(labels, k);
    if Some(k) in labels {
      var i :| 0 <= i < |labels| && labels[i] == Some(k);
      assert Truthy(comps[i].competencyType) && ToJsString(comps[i].competencyType) == k;
    }
    if exists i :: 0 <= i < |comps| && Truthy(comps[i].competencyType) && ToJsString(comps[i].competencyType) == k {
      var i :| 0 <= i < |comps| && Truthy(comps[i].competencyType) && ToJsString(comps[i].competencyType) == k;
      assert labels[i] == Some(k);
    }
  }

  /** A competency without a truthy type or bloom level adds nothing to the distributions. */
  lemma {:induction false} UnlabelledIgnored(comps: seq<Competency>, c: Competency, tagOf: Competency -> Option<string>)
    requires tagOf(c).None?
    ensures Tally(Labels(comps + [c], tagOf)) == Tally(Labels(comps, tagOf))
  {
    assert Labels(comps + [c], tagOf)[..|comps|] == Labels(comps, tagOf);
  }

  /** The ESCO total of a concatenation is the sum of the totals. */
  lemma {:induction false} EscoTotalConcat(a: seq<Competency>, b: seq<Competency>)
    ensures EscoTotal(a + b) == EscoTotal(a) + EscoTotal(b)
    decreases |b|
  {
    if |b| == 0 {
      assert a + b == a;
    } else {
      assert (a + b)[..|a + b| - 1] == a + b[..|b| - 1];
      EscoTotalConcat(a, b[..|b| - 1]);
    }
  }
}
