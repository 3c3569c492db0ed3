/** The aggregation the statistics panel performs before drawing its charts
    (src/components/StatisticsPanel.tsx): hours per training year, the
    competency-type and learning-area tables per field code, taxonomy levels
    per learning area, and the derived sorted lists. */
module StatisticsPanel {
  import opened JsValue
  import opened CurriculumTypes
  import opened Collections
  import opened CurriculumMetadata

  // ------------------------------------------------------------ hours per year

  /** `field.hours || 0` for a numeric (or NaN) hours value. */
  function Hours(f: LearningField): real {
    if f.hours.JNum? then f.hours.n else 0.0
  }

  /** The record key `field.year || 1`. */
  function YearKey(f: LearningField): string {
    ToJsString(if Truthy(f.year) then f.year else JNum(1.0))
  }

  /** `record[k] = (record[k] || 0) + w` */
  function AddTo(m: map<string, real>, k: string, w: real): map<string, real> {
    m[k := (if k in m then m[k] else 0.0) + w]
  }

  /** The record the `forEach` over the fields builds. */
  function HoursPerYear(fields: seq<LearningField>): map<string, real> {
    if |fields| == 0 then map[]
    else
      var f := fields[|fields| - 1];
      AddTo(HoursPerYear(fields[..|fields| - 1]), YearKey(f), Hours(f))
  }

  method ComputeHoursPerYear(fields: seq<LearningField>) returns (hoursPerYear: map<string, real>)
    ensures hoursPerYear == HoursPerYear(fields)
  {
    hoursPerYear := map[];
    var i := 0;
    while i < |fields|
      invariant 0 <= i <= |fields|
      invariant hoursPerYear == HoursPerYear(fields[..i])
    {
      assert fields[..i + 1][..i] == fields[..i];
      var year := YearKey(fields[i]);
      hoursPerYear := hoursPerYear[year := (if year in hoursPerYear then hoursPerYear[year] else 0.0) + Hours(fields[i])];
      i := i + 1;
    }
    assert fields[..i] == fields;
  }

  /** The fields whose year key is y, in order. */
  function FieldsOfYear(fields: seq<LearningField>, y: string): (r: seq<LearningField>)
    ensures forall i :: 0 <= i < |r| ==> YearKey(r[i]) == y
  {
    if |fields| == 0 then []
    else
      var f := fields[|fields| - 1];
      FieldsOfYear(fields[..|fields| - 1], y) + (if YearKey(f) == y then [f] else [])
  }

  /** A year is a key exactly when some field falls in it. */
  lemma {:induction false} YearKeys(fields: seq<LearningField>, y: string)
    ensures y in HoursPerYear(fields) <==> exists i :: 0 <= i < |fields| && YearKey(fields[i]) == y
  {
    if |fields| > 0 {
      var n := |fields| - 1;
      var p := fields[..n];
      YearKeys(p, y);
      assert HoursPerYear(fields) == AddTo(HoursPerYear(p), YearKey(fields[n]), Hours(fields[n]));
      if i :| 0 <= i < |fields| && YearKey(fields[i]) == y {
        if i < n {
          assert YearKey(p[i]) == y;
        }
      }
      if i :| 0 <= i < n && YearKey(p[i]) == y {
        assert fields[i] == p[i];
      }
    }
  }

  /** Each year maps to the sum of the hours of the fields in that year. */
  lemma {:induction false} HoursOfYear(fields: seq<LearningField>, y: string)
    requires y in HoursPerYear(fields)
    ensures HoursPerYear(fields)[y] == SumBy(FieldsOfYear(fields, y), Hours)
  {
    var n := |fields| - 1;
    var p := fields[..n];
    var f := fields[n];
    var m := HoursPerYear(p);
    var kept := FieldsOfYear(p, y);
    if YearKey(f) == y {
      assert SumBy(kept + [f], Hours) == SumBy(kept, Hours) + Hours(f) by {
        assert (kept + [f])[..|kept|] == kept;
      }
      if y in m {
        HoursOfYear(p, y);
      } else {
        YearKeys(p, y);
        NoneInYear(p, y);
      }
    } else {
      assert HoursPerYear(fields) == AddTo(m, YearKey(f), Hours(f));
      assert y in m && HoursPerYear(fields)[y] == m[y];
      assert FieldsOfYear(fields, y) == kept;
      HoursOfYear(p, y);
    }
  }

  /** With no field in year y, nothing is summed for it. */
  lemma {:induction false} NoneInYear(fields: seq<LearningField>, y: string)
    requires forall i :: 0 <= i < |fields| ==> YearKey(fields[i]) != y
    ensures FieldsOfYear(fields, y) == []
  {
    if |fields| > 0 {
      NoneInYear(fields[..|fields| - 1], y);
    }
  }

  /** The distinct year keys, in order of first occurrence. */
  function Years(fields: seq<LearningField>): seq<string> {
    if |fields| == 0 then []
    else
      var ys := Years(fields[..|fields| - 1]);
      var y := YearKey(fields[|fields| - 1]);
      if y in ys then ys else ys + [y]
  }

  predicate Distinct(ks: seq<string>) {
    forall i, j :: 0 <= i < j < |ks| ==> ks[i] != ks[j]
  }

  /** Σ m[k] over the keys of the list. */
  function MapTotal(m: map<string, real>, ks: seq<string>): real {
    if |ks| == 0 then 0.0
    else MapTotal(m, ks[..|ks| - 1]) + (if ks[|ks| - 1] in m then m[ks[|ks| - 1]] else 0.0)
  }

  lemma {:induction false} MapTotalOther(m: map<string, real>, ks: seq<string>, k: string, v: real)
    requires k !in ks
    ensures MapTotal(m[k := v], ks) == MapTotal(m, ks)
  {
    if |ks| > 0 {
      MapTotalOther(m, ks[..|ks| - 1], k, v);
    }
  }

  lemma {:induction false} MapTotalAdd(m: map<string, real>, ks: seq<string>, k: string, w: real)
    requires Distinct(ks) && k in ks
    ensures MapTotal(AddTo(m, k, w), ks) == MapTotal(m, ks) + w
  {
    var n := |ks| - 1;
    var p := ks[..n];
    if ks[n] == k {
      assert k !in p;
      MapTotalOther(m, p, k, (if k in m then m[k] else 0.0) + w);
    } else {
      assert k in p;
      MapTotalAdd(m, p, k, w);
    }
  }

  /** The year keys are distinct and are exactly the keys of the record. */
  lemma {:induction false} YearsFacts(fields: seq<LearningField>)
    ensures Distinct(Years(fields))
    ensures forall y :: y in Years(fields) <==> y in HoursPerYear(fields)
  {
    if |fields| > 0 {
      YearsFacts(fields[..|fields| - 1]);
    }
  }

  /** The hours of all years add up to the hours of all fields. */
  lemma {:induction false} HoursPerYearTotal(fields: seq<LearningField>)
    ensures MapTotal(HoursPerYear(fields), Years(fields)) == SumBy(fields, Hours)
  {
    if |fields| > 0 {
      var n := |fields| - 1;
      var p := fields[..n];
      var f := fields[n];
      HoursPerYearTotal(p);
      YearsFacts(p);
      var m := HoursPerYear(p);
      var ys := Years(p);
      var k := YearKey(f);
      assert HoursPerYear(fields) == AddTo(m, k, Hours(f));
      assert Years(fields) == if k in ys then ys else ys + [k];
      assert SumBy(fields, Hours) == SumBy(p, Hours) + Hours(f);
      YearTotalStep(m, ys, k, Hours(f));
    }
  }

  /** One step of the total: adding w to key k adds w to the total over the
      keys, extended with k when it is new. */
  lemma YearTotalStep(m: map<string, real>, ys: seq<string>, k: string, w: real)
    requires Distinct(ys)
    requires forall y :: y in ys <==> y in m
    ensures MapTotal(AddTo(m, k, w), if k in ys then ys else ys + [k]) == MapTotal(m, ys) + w
  {
    if k in ys {
      MapTotalAdd(m, ys, k, w);
    } else {
      assert k !in m;
      MapTotalOther(m, ys, k, w);
      assert (ys + [k])[..|ys|] == ys;
      assert MapTotal(AddTo(m, k, w), ys + [k]) == MapTotal(AddTo(m, k, w), ys) + w;
    }
  }

  /** The displayed total: `totalHours` when truthy, else the sum of the field hours. */
  function DisplayedTotalHours(totalHours: Json, fields: seq<LearningField>): (r: Json)
    ensures Truthy(totalHours) ==> r == totalHours
    ensures !Truthy(totalHours) ==> r == JNum(MapTotal(HoursPerYear(fields), Years(fields)))
  {
    HoursPerYearTotal(fields);
    if Truthy(totalHours) then totalHours else JNum(SumBy(fields, Hours))
  }

  // --------------------------------------------------------- per-field tables

  /** The record key `field.code`. */
  function FieldKey(f: LearningField): string {
    ToJsString(f.code)
  }

  /** `comp.competencyAnalysis?.lernzielbereich || 'Nicht definiert'`, always a key. */
  function AreaTag(c: Competency): (r: Option<string>)
    ensures r.Some?
  {
    var a := c.analysis.lernzielbereich;
    Some(ToJsString(if Present(a) then a.value else JStr("Nicht definiert")))
  }

  /** The counts one field gets: a fresh record, one increment per labelled competency. */
  function FieldCounts(f: LearningField, tagOf: Competency -> Option<string>): map<string, nat> {
    Tally(Labels(f.competencies, tagOf))
  }

  /** `table[field.code] = {}` followed by the counting, for every field in order. */
  function ByField(fields: seq<LearningField>, tagOf: Competency -> Option<string>): map<string, map<string, nat>> {
    if |fields| == 0 then map[]
    else
      var f := fields[|fields| - 1];
      ByField(fields[..|fields| - 1], tagOf)[FieldKey(f) := FieldCounts(f, tagOf)]
  }

  /** A code is a key exactly when some field has it, and the last such field's
      counts are kept: a later field with the same code replaces the earlier one. */
  lemma {:induction false} ByFieldLastWins(fields: seq<LearningField>, tagOf: Competency -> Option<string>, i: nat)
    requires i < |fields|
    requires forall j :: i < j < |fields| ==> FieldKey(fields[j]) != FieldKey(fields[i])
    ensures FieldKey(fields[i]) in ByField(fields, tagOf)
    ensures ByField(fields, tagOf)[FieldKey(fields[i])] == FieldCounts(fields[i], tagOf)
  {
    var n := |fields| - 1;
    if i < n {
      ByFieldLastWins(fields[..n], tagOf, i);
    }
  }

  lemma {:induction false} ByFieldKeys(fields: seq<LearningField>, tagOf: Competency -> Option<string>, k: string)
    ensures k in ByField(fields, tagOf) <==> exists i :: 0 <= i < |fields| && FieldKey(fields[i]) == k
  {
    if |fields| > 0 {
      var n := |fields| - 1;
      ByFieldKeys(fields[..n], tagOf, k);
      assert forall i :: 0 <= i < n ==> fields[..n][i] == fields[i];
    }
  }

  /** Within a field, every competency increments exactly one area bucket: its
      area is a key, and each area counts the competencies that have it. */
  lemma AreaBuckets(f: LearningField, i: nat, k: string)
    requires i < |f.competencies|
    ensures AreaTag(f.competencies[i]).value in FieldCounts(f, AreaTag)
    ensures k in FieldCounts(f, AreaTag) ==> FieldCounts(f, AreaTag)[k] == multiset(Labels(f.competencies, AreaTag))[Some(k)]
  {
    var labels := Labels(f.competencies, AreaTag);
    TallyCounts(labels, AreaTag(f.competencies[i]).value);
    assert labels[i] == AreaTag(f.competencies[i]);
    TallyCounts(labels, k);
  }

  // ----------------------------------------------------------------- taxonomy

  /** (area, level) for every competency with a truthy bloom level, in order. */
  function TaxonomyPairs(comps: seq<Competency>): seq<(string, string)> {
    if |comps| == 0 then []
    else
      var c := comps[|comps| - 1];
      TaxonomyPairs(comps[..|comps| - 1])
      + (if Present(c.analysis.bloomLevel) then [(AreaTag(c).value, ToJsString(c.analysis.bloomLevel.value))] else [])
  }

  lemma {:induction false} TaxonomyPairsConcat(a: seq<Competency>, b: seq<Competency>)
    ensures TaxonomyPairs(a + b) == TaxonomyPairs(a) + TaxonomyPairs(b)
    decreases |b|
  {
    if |b| == 0 {
      assert a + b == a;
    } else {
      assert (a + b)[..|a + b| - 1] == a + b[..|b| - 1];
      TaxonomyPairsConcat(a, b[..|b| - 1]);
    }
  }

  /** One increment of `table[area][level]`, creating `table[area]` on first use. */
  function Nest(m: map<string, map<string, nat>>, p: (string, string)): map<string, map<string, nat>> {
    m[p.0 := Bump(if p.0 in m then m[p.0] else map[], Some(p.1))]
  }

  /** The taxonomy table after the increments of the pairs, starting from m. */
  function NestAll(m: map<string, map<string, nat>>, ps: seq<(string, string)>): map<string, map<string, nat>> {
    if |ps| == 0 then m else Nest(NestAll(m, ps[..|ps| - 1]), ps[|ps| - 1])
  }

  lemma {:induction false} NestAllConcat(m: map<string, map<string, nat>>, a: seq<(string, string)>, b: seq<(string, string)>)
    ensures NestAll(m, a + b) == NestAll(NestAll(m, a), b)
    decreases |b|
  {
    if |b| == 0 {
      assert a + b == a;
    } else {
      assert (a + b)[..|a + b| - 1] == a + b[..|b| - 1];
      NestAllConcat(m, a, b[..|b| - 1]);
    }
  }

  /** The levels of the pairs under area a, in order. */
  function LevelsOf(ps: seq<(string, string)>, a: string): seq<Option<string>> {
    if |ps| == 0 then []
    else LevelsOf(ps[..|ps| - 1], a) + (if ps[|ps| - 1].0 == a then [Some(ps[|ps| - 1].1)] else [])
  }

  /** An area is a key exactly when some pair names it, and it maps to the
      count of the levels recorded under it. */
  lemma {:induction false} TaxonomyByArea(ps: seq<(string, string)>, a: string)
    ensures a in NestAll(map[], ps) <==> exists i :: 0 <= i < |ps| && ps[i].0 == a
    ensures a in NestAll(map[], ps) ==> NestAll(map[], ps)[a] == Tally(LevelsOf(ps, a))
  {
    if |ps| > 0 {
      var n := |ps| - 1;
      var p := ps[..n];
      TaxonomyByArea(p, a);
      NamedSnoc(ps, p, a);
      var lv := LevelsOf(p, a);
      var m := NestAll(map[], p);
      assert NestAll(map[], ps) == Nest(m, ps[n]);
      assert LevelsOf(ps, a) == lv + (if ps[n].0 == a then [Some(ps[n].1)] else []);
      NestAt(m, ps[n], a);
      if ps[n].0 == a {
        TallySnoc(lv, Some(ps[n].1));
        if a !in m {
          NoLevels(p, a);
        }
      } else {
        assert lv + [] == lv;
      }
    }
  }

  /** One increment touches only the area it names. */
  lemma NestAt(m: map<string, map<string, nat>>, p: (string, string), a: string)
    ensures a in Nest(m, p) <==> a in m || p.0 == a
    ensures p.0 == a ==> Nest(m, p)[a] == Bump(if a in m then m[a] else map[], Some(p.1))
    ensures p.0 != a && a in m ==> Nest(m, p)[a] == m[a]
  {
  }

  /** Some pair names a exactly when an earlier one does or the last one does. */
  lemma NamedSnoc(ps: seq<(string, string)>, p: seq<(string, string)>, a: string)
    requires |ps| > 0 && p == ps[..|ps| - 1]
    ensures (exists i :: 0 <= i < |ps| && ps[i].0 == a)
      <==> (exists i :: 0 <= i < |p| && p[i].0 == a) || ps[|ps| - 1].0 == a
  {
    if i :| 0 <= i < |ps| && ps[i].0 == a {
      if i < |p| {
        assert p[i].0 == a;
      }
    }
    if i :| 0 <= i < |p| && p[i].0 == a {
      assert ps[i] == p[i];
    }
  }

  /** The tally of one more label. */
  lemma TallySnoc(lv: seq<Option<string>>, x: Option<string>)
    ensures Tally(lv + [x]) == Bump(Tally(lv), x)
  {
    assert (lv + [x])[..|lv|] == lv;
  }

  lemma {:induction false} NoLevels(ps: seq<(string, string)>, a: string)
    requires forall i :: 0 <= i < |ps| ==> ps[i].0 != a
    ensures LevelsOf(ps, a) == []
  {
    if |ps| > 0 {
      NoLevels(ps[..|ps| - 1], a);
    }
  }

  /** Only competencies with a truthy bloom level reach the taxonomy table. */
  lemma {:induction false} TaxonomyNeedsBloom(comps: seq<Competency>, c: Competency)
    requires !Present(c.analysis.bloomLevel)
    ensures TaxonomyPairs(comps + [c]) == TaxonomyPairs(comps)
  {
    assert (comps + [c])[..|comps|] == comps;
  }

  /** The pairs of one more competency. */
  lemma TaxonomyPairsStep(comps: seq<Competency>, j: nat)
    requires j < |comps|
    ensures Present(comps[j].analysis.bloomLevel) ==>
      TaxonomyPairs(comps[..j + 1]) == TaxonomyPairs(comps[..j]) + [(AreaTag(comps[j]).value, ToJsString(comps[j].analysis.bloomLevel.value))]
    ensures !Present(comps[j].analysis.bloomLevel) ==> TaxonomyPairs(comps[..j + 1]) == TaxonomyPairs(comps[..j])
  {
    assert comps[..j + 1][..j] == comps[..j];
  }

  /** The increments of one more pair. */
  lemma NestAllSnoc(m: map<string, map<string, nat>>, ps: seq<(string, string)>, p: (string, string))
    ensures NestAll(m, ps + [p]) == Nest(NestAll(m, ps), p)
  {
    assert (ps + [p])[..|ps|] == ps;
  }

  // ----------------------------------------------------- the combined loop

  datatype FieldTables = FieldTables(
    competencyTypesByField: map<string, map<string, nat>>,
    lernzielbereicheByField: map<string, map<string, nat>>,
    taxonomyLevelsByLernzielbereich: map<string, map<string, nat>>)

  /** The nested `forEach` over fields and their competencies. */
  method ComputeFieldTables(fields: seq<LearningField>) returns (t: FieldTables)
    ensures t.competencyTypesByField == ByField(fields, TypeLabel)
    ensures t.lernzielbereicheByField == ByField(fields, AreaTag)
    ensures t.taxonomyLevelsByLernzielbereich == NestAll(map[], TaxonomyPairs(AllCompetencies(fields)))
  {
    var types: map<string, map<string, nat>> := map[];
    var areas: map<string, map<string, nat>> := map[];
    var taxonomy: map<string, map<string, nat>> := map[];
    var i := 0;
    while i < |fields|
      invariant 0 <= i <= |fields|
      invariant types == ByField(fields[..i], TypeLabel)
      invariant areas == ByField(fields[..i], AreaTag)
      invariant taxonomy == NestAll(map[], TaxonomyPairs(AllCompetencies(fields[..i])))
    {
      ghost var before := AllCompetencies(fields[..i]);
      assert fields[..i + 1][..i] == fields[..i];
      assert AllCompetencies(fields[..i + 1]) == before + fields[i].competencies;
      TaxonomyPairsConcat(before, fields[i].competencies);
      NestAllConcat(map[], TaxonomyPairs(before), TaxonomyPairs(fields[i].competencies));
      var fieldTypes := TallyLoop(fields[i].competencies, TypeLabel);
      var fieldAreas := TallyLoop(fields[i].competencies, AreaTag);
      taxonomy := TaxonomyLoop(fields[i].competencies, taxonomy);
      types := types[FieldKey(fields[i]) := fieldTypes];
      areas := areas[FieldKey(fields[i]) := fieldAreas];
      i := i + 1;
    }
    assert fields[..i] == fields;
    t := FieldTables(types, areas, taxonomy);
  }

  /** The taxonomy increments of one field's competencies. */
  method TaxonomyLoop(comps: seq<Competency>, m: map<string, map<string, nat>>) returns (r: map<string, map<string, nat>>)
    ensures r == NestAll(m, TaxonomyPairs(comps))
  {
    r := m;
    var j := 0;
    while j < |comps|
      invariant 0 <= j <= |comps|
      invariant r == NestAll(m, TaxonomyPairs(comps[..j]))
    {
      TaxonomyPairsStep(comps, j);
      var c := comps[j];
      if Present(c.analysis.bloomLevel) {
        var area := AreaTag(c).value;
        var level := ToJsString(c.analysis.bloomLevel.value);
        var levels := if area in r then r[area] else map[];
        NestAllSnoc(m, TaxonomyPairs(comps[..j]), (area, level));
        r := r[area := levels[level := (if level in levels then levels[level] else 0) + 1]];
      }
      j := j + 1;
    }
    assert comps[..j] == comps;
  }

  // ------------------------------------------------------- the sorted lists

  /** The present labels of a list, in order. */
  function Somes(ls: seq<Option<string>>): seq<string> {
    if |ls| == 0 then []
    else Somes(ls[..|ls| - 1]) + (if ls[|ls| - 1].Some? then [ls[|ls| - 1].value] else [])
  }

  lemma {:induction false} SomesMembers(ls: seq<Option<string>>, x: string)
    ensures x in Somes(ls) <==> Some(x) in ls
  {
    if |ls| > 0 {
      var n := |ls| - 1;
      SomesMembers(ls[..n], x);
      assert ls == ls[..n] + [ls[n]];
    }
  }

  /** Is no later field filed under the same code? */
  predicate Live(fields: seq<LearningField>, i: nat)
    requires i < |fields|
  {
    forall j :: i < j < |fields| ==> FieldKey(fields[j]) != FieldKey(fields[i])
  }

  /** The labels in the tables that survive: those of the last field per code. */
  function LiveLabels(fields: seq<LearningField>, tagOf: Competency -> Option<string>): seq<string> {
    LiveLabelsFrom(fields, tagOf, 0)
  }

  function LiveLabelsFrom(fields: seq<LearningField>, tagOf: Competency -> Option<string>, i: nat): seq<string>
    requires i <= |fields|
    decreases |fields| - i
  {
    if i == |fields| then []
    else (if Live(fields, i) then Somes(Labels(fields[i].competencies, tagOf)) else []) + LiveLabelsFrom(fields, tagOf, i + 1)
  }

  /** Field j is the last with its code and carries label x. */
  predicate LiveWith(fields: seq<LearningField>, tagOf: Competency -> Option<string>, j: nat, x: string)
    requires j < |fields|
  {
    Live(fields, j) && Some(x) in Labels(fields[j].competencies, tagOf)
  }

  lemma {:induction false} LiveLabelsFromMembers(fields: seq<LearningField>, tagOf: Competency -> Option<string>, i: nat, x: string)
    requires i <= |fields|
    ensures x in LiveLabelsFrom(fields, tagOf, i) <==> exists j :: i <= j < |fields| && LiveWith(fields, tagOf, j, x)
    decreases |fields| - i
  {
    if i < |fields| {
      LiveLabelsFromMembers(fields, tagOf, i + 1, x);
      var here := Labels(fields[i].competencies, tagOf);
      SomesMembers(here, x);
      var own := if Live(fields, i) then Somes(here) else [];
      var rest := LiveLabelsFrom(fields, tagOf, i + 1);
      assert LiveLabelsFrom(fields, tagOf, i) == own + rest;
      if x in own {
        assert LiveWith(fields, tagOf, i, x);
      } else if x in rest {
        var j :| i + 1 <= j < |fields| && LiveWith(fields, tagOf, j, x);
        assert i <= j;
      }
      if exists j :: i <= j < |fields| && LiveWith(fields, tagOf, j, x) {
        var j :| i <= j < |fields| && LiveWith(fields, tagOf, j, x);
        if j == i {
          assert x in own;
        } else {
          assert x in rest;
        }
      }
    }
  }

  /** `Array.from(new Set(Object.values(table).flatMap(Object.keys))).sort()` */
  function AllLabels(fields: seq<LearningField>, tagOf: Competency -> Option<string>): seq<string> {
    SortedDistinct(LiveLabels(fields, tagOf))
  }

  /** The list is sorted, duplicate-free, and holds exactly the labels that
      occur as a key in some field's counts. */
  lemma AllLabelsFacts(fields: seq<LearningField>, tagOf: Competency -> Option<string>, x: string)
    ensures SortedStrings(AllLabels(fields, tagOf))
    ensures forall i, j :: 0 <= i < j < |AllLabels(fields, tagOf)| ==> AllLabels(fields, tagOf)[i] != AllLabels(fields, tagOf)[j]
    ensures x in AllLabels(fields, tagOf) <==>
      exists k :: k in ByField(fields, tagOf) && x in ByField(fields, tagOf)[k]
  {
    SortedDistinctFacts(LiveLabels(fields, tagOf));
    if x in LiveLabels(fields, tagOf) {
      LiveLabelInTable(fields, tagOf, x);
    }
    if exists k :: k in ByField(fields, tagOf) && x in ByField(fields, tagOf)[k] {
      var k :| k in ByField(fields, tagOf) && x in ByField(fields, tagOf)[k];
      TableLabelLive(fields, tagOf, k, x);
    }
  }

  lemma LiveLabelInTable(fields: seq<LearningField>, tagOf: Competency -> Option<string>, x: string)
    requires x in LiveLabels(fields, tagOf)
    ensures exists k :: k in ByField(fields, tagOf) && x in ByField(fields, tagOf)[k]
  {
    LiveLabelsFromMembers(fields, tagOf, 0, x);
    var j :| 0 <= j < |fields| && LiveWith(fields, tagOf, j, x);
    assert Live(fields, j);
    ByFieldLastWins(fields, tagOf, j);
    TallyCounts(Labels(fields[j].competencies, tagOf), x);
    var k := FieldKey(fields[j]);
    assert k in ByField(fields, tagOf) && x in ByField(fields, tagOf)[k];
  }

  lemma TableLabelLive(fields: seq<LearningField>, tagOf: Competency -> Option<string>, k: string, x: string)
    requires k in ByField(fields, tagOf) && x in ByField(fields, tagOf)[k]
    ensures x in LiveLabels(fields, tagOf)
  {
    ByFieldKeys(fields, tagOf, k);
    var j := LastWithKey(fields, k);
    ByFieldLastWins(fields, tagOf, j);
    TallyCounts(Labels(fields[j].competencies, tagOf), x);
    assert LiveWith(fields, tagOf, j, x);
    LiveLabelsFromMembers(fields, tagOf, 0, x);
  }

  /** The index of the last field filed under code k. */
  function LastWithKey(fields: seq<LearningField>, k: string): (j: nat)
    requires exists i :: 0 <= i < |fields| && FieldKey(fields[i]) == k
    ensures j < |fields| && FieldKey(fields[j]) == k && Live(fields, j)
  {
    var n := |fields| - 1;
    if FieldKey(fields[n]) == k then n
    else
      assert exists i :: 0 <= i < n && FieldKey(fields[..n][i]) == k;
      var j := LastWithKey(fields[..n], k);
      assert fields[..n][j] == fields[j];
      j
  }

  /** The rank of a taxonomy level: Erinnern < Verstehen < Anwenden <
      Analysieren < Bewerten < Erschaffen = Erzeugen, anything else last. */
  function TaxonomyRank(level: string): (r: nat)
    ensures 1 <= r <= 6 || r == 99
  {
    if level == "Erinnern" then 1
    else if level == "Verstehen" then 2
    else if level == "Anwenden" then 3
    else if level == "Analysieren" then 4
    else if level == "Bewerten" then 5
    else if level == "Erschaffen" || level == "Erzeugen" then 6
    else 99
  }

  function LevelRank(e: (string, nat)): real { TaxonomyRank(e.0) as real }

  /** The level entries of one area in chart order. */
  function SortLevels(entries: seq<(string, nat)>): seq<(string, nat)> {
    SortBy(entries, LevelRank)
  }

  /** The chart order is a permutation sorted by rank, with unknown levels last. */
  lemma SortLevelsOrder(entries: seq<(string, nat)>)
    ensures multiset(SortLevels(entries)) == multiset(entries)
    ensures forall i, j :: 0 <= i < j < |SortLevels(entries)| ==>
      TaxonomyRank(SortLevels(entries)[i].0) <= TaxonomyRank(SortLevels(entries)[j].0)
    ensures forall i, j :: 0 <= i < j < |SortLevels(entries)| && TaxonomyRank(SortLevels(entries)[i].0) == 99 ==>
      TaxonomyRank(SortLevels(entries)[j].0) == 99
  {
    SortBySorted(entries, LevelRank);
  }

  datatype FieldCount = FieldCount(field: Json, count: nat, code: Json)

  function NegCount(e: FieldCount): real { -(e.count as real) }

  /** competenciesPerField: one entry per field, by descending count. */
  function CompetenciesPerField(fields: seq<LearningField>): seq<FieldCount> {
    SortBy(seq(|fields|, i requires 0 <= i < |fields| => FieldCount(fields[i].title, |fields[i].competencies|, fields[i].code)), NegCount)
  }

  /** Sorted by descending count, and a permutation of the per-field entries. */
  lemma CompetenciesPerFieldOrder(fields: seq<LearningField>)
    ensures var r := CompetenciesPerField(fields);
      (forall i, j :: 0 <= i < j < |r| ==> r[i].count >= r[j].count)
      && multiset(r) == multiset(seq(|fields|, i requires 0 <= i < |fields| => FieldCount(fields[i].title, |fields[i].competencies|, fields[i].code)))
  {
    var entries := seq(|fields|, i requires 0 <= i < |fields| => FieldCount(fields[i].title, |fields[i].competencies|, fields[i].code));
    SortBySorted(entries, NegCount);
  }
}
