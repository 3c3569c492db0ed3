/** The standard dialect (parseStandardFormat in src/lib/curriculumParser.ts):
    fields under `learningFields`/`lernfelder`, each attribute read from a list
    of English and German synonyms, competency analysis from `competencyAnalysis`,
    `analyse` or `analysis`, and ESCO mappings from the first array-valued
    mapping key. The nested and any-format dialects end in this parser too. */
module StandardParser {
  import opened JsValue
  import opened CurriculumTypes
  import opened Collections
  import opened SkillMappings

  // ------------------------------------------------------------ ESCO mappings

  /** The keys a competency's mappings may sit under, in the order they are tried. */
  const MappingKeys: seq<string> := ["escoMappings", "esco", "escoMapping", "mappings", "skills"]

  /** `mapping.confidence || mapping.konfidenz || mapping.relevanz || 0`, kept unscaled. */
  function GenericConfidence(m: Json): Json {
    Chain([Lookup(m, "confidence"), Lookup(m, "konfidenz"), Lookup(m, "relevanz")], JNum(0.0))
  }

  /** One entry of a generic mapping array; `generateId()` is drawn only when the
      entry has no truthy id, and a null entry throws when its `id` is read. */
  function GenericMapping(m: Json, ids: IdSupply): (r: Result<(EscoMapping, IdSupply)>)
    ensures r.Err? <==> m.JNull?
    ensures r.Ok? ==> r.value.0.confidence == GenericConfidence(m)
    ensures r.Ok? && Present(Lookup(m, "id")) ==> r.value.0.id == Lookup(m, "id").value && r.value.1 == ids
    ensures r.Ok? && !Present(Lookup(m, "id")) ==> r.value.0.id == JStr(ids.gen(ids.next)) && r.value.1 == ids.Draw().1
  {
    if m.JNull? then Err(ReadOfNull("id"))
    else
      var (id, ids') := if Present(Lookup(m, "id")) then (Lookup(m, "id").value, ids) else ids.Draw();
      Ok((EscoMapping(
        id := id,
        uri := Chain([Lookup(m, "uri"), Lookup(m, "url"), Lookup(m, "link")], JStr("")),
        preferredLabel := Chain([Lookup(m, "preferredLabel"), Lookup(m, "label"), Lookup(m, "bezeichnung"),
                                 Lookup(m, "name"), Lookup(m, "title")], JStr("")),
        altLabels := Chain([Lookup(m, "altLabels"), Lookup(m, "alternativeLabels"), Lookup(m, "alternatives")], JArr([])),
        description := Chain([Lookup(m, "description"), Lookup(m, "beschreibung"), Lookup(m, "definition")], JStr("")),
        confidence := GenericConfidence(m)), ids'))
  }

  /** Every entry of a generic mapping array, in order, drawing identifiers as needed. */
  function GenericMappingList(ms: seq<Json>, ids: IdSupply): (r: Result<(seq<EscoMapping>, IdSupply)>)
    ensures r.Ok? <==> forall i :: 0 <= i < |ms| ==> !ms[i].JNull?
    ensures r.Ok? ==> |r.value.0| == |ms|
    ensures r.Ok? ==> forall i :: 0 <= i < |ms| ==> r.value.0[i].confidence == GenericConfidence(ms[i])
  {
    MapState(ms, ids, (m, i, st) => GenericMapping(m, st))
  }

  /** The index of the first key whose value is an array. */
  function FirstArrayKey(comp: Json, keys: seq<string>): (r: Option<nat>)
    ensures r.None? ==> forall i :: 0 <= i < |keys| ==> !IsArray(Lookup(comp, keys[i]))
    ensures r.Some? ==> r.value < |keys| && IsArray(Lookup(comp, keys[r.value]))
    ensures r.Some? ==> forall j :: 0 <= j < r.value ==> !IsArray(Lookup(comp, keys[j]))
  {
    if |keys| == 0 then None
    else if IsArray(Lookup(comp, keys[0])) then Some(0)
    else
      match FirstArrayKey(comp, keys[1..])
      case None => None
      case Some(i) => Some(i + 1)
  }

  /** A `skills` array counts as ESCO mappings only when its first entry has a uri. */
  predicate SkillsUsable(items: seq<Json>) {
    |items| > 0 && Present(Lookup(items[0], "uri"))
  }

  /** The mapping loop: the first array-valued key decides and the search stops
      there; a `skills` array without a uri on its first entry gives no mappings. */
  function EscoMappingsOf(comp: Json, ids: IdSupply): (r: Result<(seq<EscoMapping>, IdSupply)>)
    ensures FirstArrayKey(comp, MappingKeys).None? ==> r == Ok(([], ids))
    ensures var k := FirstArrayKey(comp, MappingKeys);
      k.Some? && MappingKeys[k.value] != "skills" && r.Ok? ==>
        var items := Lookup(comp, MappingKeys[k.value]).value.items;
        |r.value.0| == |items| && forall i :: 0 <= i < |items| ==> r.value.0[i].confidence == GenericConfidence(items[i])
    ensures var k := FirstArrayKey(comp, MappingKeys);
      k.Some? && MappingKeys[k.value] == "skills" && r.Ok? ==>
        var items := Lookup(comp, "skills").value.items;
        (!SkillsUsable(items) ==> r.value == ([], ids))
        && (SkillsUsable(items) ==>
              |r.value.0| == |items| && forall i :: 0 <= i < |items| ==> r.value.0[i].confidence == SkillConfidence(items[i]))
  {
    match FirstArrayKey(comp, MappingKeys)
    case None => Ok(([], ids))
    case Some(k) =>
      var items := Lookup(comp, MappingKeys[k]).value.items;
      if MappingKeys[k] != "skills" then GenericMappingList(items, ids)
      else if SkillsUsable(items) then
        var ms :- SkillMappingList(items);
        Ok((ms, ids))
      else Ok(([], ids))
  }

  // ------------------------------------------------------------- competencies

  /** The analysis read from the three alternative analysis records. */
  function StandardAnalysis(comp: Json): Analysis {
    var cA := Lookup(comp, "competencyAnalysis");
    var an := Lookup(comp, "analyse");
    var a := Lookup(comp, "analysis");
    Analysis(
      skillType := Some(Chain([Get(cA, "skillType"), Get(an, "kompetenztyp"), Get(a, "skillType"), Get(a, "kompetenztyp")], JStr(""))),
      lernzielbereich := Some(Chain([Get(cA, "lernzielbereich"), Get(an, "lernzielbereich"), Get(a, "lernzielbereich")], JStr(""))),
      keywords := Some(Chain([Get(cA, "keywords"), Get(an, "schlagworte"), Get(a, "keywords"), Get(a, "schlagworte")], JArr([]))),
      bloomLevel := Some(Chain([Get(cA, "bloomLevel"), Get(an, "bloomStufe"), Get(a, "bloomLevel"), Get(a, "bloomStufe")], JStr(""))),
      relevance := Some(Chain([Get(cA, "relevance"), Get(an, "relevanz"), Get(a, "relevance"), Get(a, "relevanz")], JNum(0.0))),
      difficulty := Some(Chain([Get(cA, "difficulty"), Get(an, "schwierigkeit"), Get(a, "difficulty"), Get(a, "schwierigkeit")], JNum(0.0))),
      digitalLevel := Some(Chain([Get(cA, "digitalLevel"), Get(an, "digitalisierungsgrad"), Get(a, "digitalLevel"),
                                  Get(a, "digitalisierungsgrad")], JNum(0.0))))
  }

  /** The competency record before its analysis override and its mappings. */
  function StandardBase(comp: Json, cIndex: nat, fieldId: Json): (c: Competency)
    ensures c.parentId == fieldId && c.escoMappings == [] && c.analysis == StandardAnalysis(comp)
  {
    Competency(
      id := Chain([Lookup(comp, "id")], JStr(ToJsString(fieldId) + "-k" + NatText(cIndex + 1))),
      code := Chain([Lookup(comp, "code"), Lookup(comp, "nummer")], Numbered("K", cIndex + 1)),
      title := Chain([Lookup(comp, "title"), Lookup(comp, "titel"), Lookup(comp, "name"), Lookup(comp, "bezeichnung")],
                     Numbered("Kompetenz ", cIndex + 1)),
      description := Chain([Lookup(comp, "description"), Lookup(comp, "beschreibung"), Lookup(comp, "text"),
                            Lookup(comp, "inhalt"), Lookup(comp, "definition")], JStr("")),
      competencyType := Chain([Lookup(comp, "competencyType"), Lookup(comp, "typ"), Lookup(comp, "art"),
                               Lookup(comp, "kompetenzart")], JStr("")),
      level := Some(Chain([Lookup(comp, "level"), Lookup(comp, "niveau"), Lookup(comp, "stufe"),
                           Lookup(comp, "schwierigkeitsgrad")], JNum(0.0))),
      parentId := fieldId,
      escoMappings := [],
      analysis := StandardAnalysis(comp))
  }

  /** One competency; a null entry throws when its `id` is read. A truthy
      `competence_analysis` replaces the analysis read from the other records. */
  function StandardCompetency(comp: Json, cIndex: nat, fieldId: Json, ids: IdSupply): (r: Result<(Competency, IdSupply)>)
    ensures comp.JNull? ==> r == Err(ReadOfNull("id"))
    ensures r.Ok? ==> r.value.0.parentId == fieldId
    ensures r.Ok? && Present(Lookup(comp, "competence_analysis")) ==>
      r.value.0.analysis == CompetenceAnalysis(Lookup(comp, "competence_analysis").value)
    ensures r.Ok? && !Present(Lookup(comp, "competence_analysis")) ==> r.value.0.analysis == StandardAnalysis(comp)
    ensures r.Ok? ==> EscoMappingsOf(comp, ids).Ok? && r.value.0.escoMappings == EscoMappingsOf(comp, ids).value.0
    ensures r.Ok? ==> r.value.0 == StandardBase(comp, cIndex, fieldId).(analysis := r.value.0.analysis,
                                                                       escoMappings := r.value.0.escoMappings)
  {
    if comp.JNull? then Err(ReadOfNull("id"))
    else
      var base := StandardBase(comp, cIndex, fieldId);
      var ca := Lookup(comp, "competence_analysis");
      var analysed := if Present(ca) then base.(analysis := CompetenceAnalysis(ca.value)) else base;
      var mapped :- EscoMappingsOf(comp, ids);
      Ok((analysed.(escoMappings := mapped.0), mapped.1))
  }

  /** c is what StandardCompetency makes of entry comp at index i, in the
      identifier supply its predecessors left. */
  ghost predicate CompetencyFrom(comp: Json, i: nat, fieldId: Json, c: Competency) {
    MadeBy(CompetencyStep(fieldId), comp, i, c)
  }

  /** The callback of the competency `map`. */
  function CompetencyStep(fieldId: Json): (Json, nat, IdSupply) -> Result<(Competency, IdSupply)> {
    (c: Json, i: nat, st: IdSupply) => StandardCompetency(c, i, fieldId, st)
  }

  /** A competency made from an entry is the entry's base record with the
      analysis the entry selects and the mappings it carries. */
  lemma CompetencyFromBase(comp: Json, i: nat, fieldId: Json, c: Competency)
    requires CompetencyFrom(comp, i, fieldId, c)
    ensures c == StandardBase(comp, i, fieldId).(analysis := c.analysis, escoMappings := c.escoMappings)
    ensures Present(Lookup(comp, "competence_analysis")) ==> c.analysis == CompetenceAnalysis(Lookup(comp, "competence_analysis").value)
    ensures !Present(Lookup(comp, "competence_analysis")) ==> c.analysis == StandardAnalysis(comp)
    ensures !comp.JNull? && c.parentId == fieldId
  {
    var st: IdSupply :| CompetencyStep(fieldId)(comp, i, st).Ok? && c == CompetencyStep(fieldId)(comp, i, st).value.0;
    assert CompetencyStep(fieldId)(comp, i, st) == StandardCompetency(comp, i, fieldId, st);
  }

  /** The competencies of one field: competency i is made from entry i, and
      the list is complete whenever no entry fails. */
  function CompetencyList(cs: seq<Json>, fieldId: Json, ids: IdSupply): (r: Result<(seq<Competency>, IdSupply)>)
    ensures r.Ok? ==> |r.value.0| == |cs|
    ensures r.Ok? ==> forall i :: 0 <= i < |cs| ==> r.value.0[i].parentId == fieldId && !cs[i].JNull?
    ensures r.Ok? ==> forall i :: 0 <= i < |cs| ==> CompetencyFrom(cs[i], i, fieldId, r.value.0[i])
    ensures (forall i, st :: 0 <= i < |cs| ==> StandardCompetency(cs[i], i, fieldId, st).Ok?) ==> r.Ok?
  {
    MapState(cs, ids, CompetencyStep(fieldId))
  }

  // ----------------------------------------------------------------- fields

  /** `v[k]` for each key, in order. */
  function Members(v: Json, keys: seq<string>): (r: seq<Option<Json>>)
    ensures |r| == |keys| && forall i :: 0 <= i < |keys| ==> r[i] == Lookup(v, keys[i])
  {
    seq(|keys|, i requires 0 <= i < |keys| => Lookup(v, keys[i]))
  }

  /** r is `v[k1] || v[k2] || … || fallback`: the first truthy member, else the fallback. */
  ghost predicate FirstTruthyMember(v: Json, keys: seq<string>, fallback: Json, r: Json) {
    var c := Members(v, keys);
    (forall k :: FirstPresent(c, k) ==> r == c[k].value) && (NonePresent(c) ==> r == fallback)
  }

  /** `v[k1] || v[k2] || … || fallback` */
  function FirstTruthy(v: Json, keys: seq<string>, fallback: Json): (r: Json)
    ensures FirstTruthyMember(v, keys, fallback, r)
  {
    Chain(Members(v, keys), fallback)
  }

  /** `parseInt(v[k1] || … || fallback, 10)` */
  function IntMember(v: Json, keys: seq<string>, fallback: nat): (r: Json)
    ensures IsNumber(r)
    ensures forall k :: FirstPresent(Members(v, keys), k) ==> r == ParseIntValue(Members(v, keys)[k])
    ensures NonePresent(Members(v, keys)) ==> r == JNum(fallback as real)
  {
    var c := Members(v, keys);
    if NonePresent(c) then
      assert ToJsString(JNum(fallback as real)) == NatText(fallback);
      ParseIntNatText(fallback);
      ParseIntValue(Some(Chain(c, JNum(fallback as real))))
    else
      ParseIntValue(Some(Chain(c, JNum(fallback as real))))
  }

  const FieldCodeKeys: seq<string> := ["code", "nummer"]
  const FieldTitleKeys: seq<string> := ["title", "name", "titel", "bezeichnung"]
  const FieldDescriptionKeys: seq<string> := ["description", "beschreibung", "text", "inhalt"]
  const HoursKeys: seq<string> := ["hours", "stunden"]
  const YearKeys: seq<string> := ["year", "jahr", "ausbildungsjahr"]

  /** The field record apart from its competencies: each attribute is the first
      truthy synonym or the default, and hours and year are parseInt of the first
      truthy synonym, of 0 and 1 without one. */
  function StandardFieldBase(field: Json, index: nat, id: Json): (f: LearningField)
    ensures f.id == id && f.competencies == []
    ensures FirstTruthyMember(field, FieldCodeKeys, Numbered("LF", index + 1), f.code)
    ensures FirstTruthyMember(field, FieldTitleKeys, Numbered("Lernfeld ", index + 1), f.title)
    ensures FirstTruthyMember(field, FieldDescriptionKeys, JStr(""), f.description)
    ensures forall k :: FirstPresent(Members(field, HoursKeys), k) ==> f.hours == ParseIntValue(Members(field, HoursKeys)[k])
    ensures NonePresent(Members(field, HoursKeys)) ==> f.hours == JNum(0.0)
    ensures forall k :: FirstPresent(Members(field, YearKeys), k) ==> f.year == ParseIntValue(Members(field, YearKeys)[k])
    ensures NonePresent(Members(field, YearKeys)) ==> f.year == JNum(1.0)
    ensures IsNumber(f.hours) && IsNumber(f.year)
  {
    LearningField(
      id := id,
      code := FirstTruthy(field, FieldCodeKeys, Numbered("LF", index + 1)),
      title := FirstTruthy(field, FieldTitleKeys, Numbered("Lernfeld ", index + 1)),
      description := FirstTruthy(field, FieldDescriptionKeys, JStr("")),
      hours := IntMember(field, HoursKeys, 0),
      year := IntMember(field, YearKeys, 1),
      schwerpunkt := Chain([Lookup(field, "schwerpunkt"), Lookup(field, "fokus"), Lookup(field, "thema")], JStr("")),
      zeitraum := Chain([Lookup(field, "zeitraum"), Lookup(field, "dauer")], JStr("")),
      competencies := [])
  }

  /** `field.id || \`lf${index + 1}\`` */
  function FieldId(field: Json, index: nat): (r: Json)
    ensures Present(Lookup(field, "id")) ==> r == Lookup(field, "id").value
    ensures !Present(Lookup(field, "id")) ==> r == JStr("lf" + NatText(index + 1))
  {
    assert Present(Lookup(field, "id")) ==> FirstPresent([Lookup(field, "id")], 0);
    Chain([Lookup(field, "id")], Numbered("lf", index + 1))
  }

  /** `field.competencies || field.kompetenzen || []` */
  function CompetencySource(field: Json): Option<Json> {
    OrChain([Lookup(field, "competencies"), Lookup(field, "kompetenzen")], Some(JArr([])))
  }

  /** One learning field; a null entry throws when its `title` is logged. The
      record is the base record under the field's id, and its competencies are
      those of the competency source when that is an array, none otherwise. */
  function StandardField(field: Json, index: nat, ids: IdSupply): (r: Result<(LearningField, IdSupply)>)
    ensures field.JNull? ==> r == Err(ReadOfNull("title"))
    ensures r.Ok? ==> ParentsSet(r.value.0)
    ensures r.Ok? ==> IsNumber(r.value.0.hours) && IsNumber(r.value.0.year)
    ensures r.Ok? ==> r.value.0.id == FieldId(field, index)
    ensures r.Ok? ==> r.value.0 == StandardFieldBase(field, index, FieldId(field, index)).(competencies := r.value.0.competencies)
    ensures !field.JNull? && !IsArray(CompetencySource(field)) ==> r.Ok? && r.value.0.competencies == [] && r.value.1 == ids
    ensures !field.JNull? && IsArray(CompetencySource(field)) ==>
      var cl := CompetencyList(CompetencySource(field).value.items, FieldId(field, index), ids);
      (r.Ok? <==> cl.Ok?) && (r.Ok? ==> r.value.0.competencies == cl.value.0 && r.value.1 == cl.value.1)
  {
    if field.JNull? then Err(ReadOfNull("title"))
    else
      var id := FieldId(field, index);
      var cs := CompetencySource(field);
      var comps :- if IsArray(cs) then CompetencyList(cs.value.items, id, ids) else Ok(([], ids));
      Ok((StandardFieldBase(field, index, id).(competencies := comps.0), comps.1))
  }

  /** lf is what StandardField makes of entry field at index i, in the
      identifier supply its predecessors left. */
  ghost predicate FieldFrom(field: Json, i: nat, lf: LearningField) {
    MadeBy(FieldStep(), field, i, lf)
  }

  /** The callback of the field `map`. */
  function FieldStep(): (Json, nat, IdSupply) -> Result<(LearningField, IdSupply)> {
    (x: Json, i: nat, st: IdSupply) => StandardField(x, i, st)
  }

  /** A field made from an entry is, apart from its competencies, the entry's
      base record under the entry's id. */
  lemma FieldFromBase(field: Json, i: nat, lf: LearningField)
    requires FieldFrom(field, i, lf)
    ensures lf == StandardFieldBase(field, i, FieldId(field, i)).(competencies := lf.competencies)
    ensures ParentsSet(lf) && !field.JNull?
  {
    var st: IdSupply :| FieldStep()(field, i, st).Ok? && lf == FieldStep()(field, i, st).value.0;
    assert FieldStep()(field, i, st) == StandardField(field, i, st);
  }

  /** The fields of the list: field i is made from entry i, so apart from its
      competencies it is entry i's base record under entry i's id; the list is
      complete whenever no entry fails. */
  function FieldList(fs: seq<Json>, ids: IdSupply): (r: Result<(seq<LearningField>, IdSupply)>)
    ensures r.Ok? ==> |r.value.0| == |fs|
    ensures r.Ok? ==> forall i :: 0 <= i < |fs| ==> ParentsSet(r.value.0[i]) && !fs[i].JNull?
    ensures r.Ok? ==> forall i :: 0 <= i < |fs| ==> FieldFrom(fs[i], i, r.value.0[i])
    ensures r.Ok? ==> forall i :: 0 <= i < |fs| ==>
      r.value.0[i] == StandardFieldBase(fs[i], i, FieldId(fs[i], i)).(competencies := r.value.0[i].competencies)
    ensures (forall i, st :: 0 <= i < |fs| ==> StandardField(fs[i], i, st).Ok?) ==> r.Ok?
  {
    var r := MapState(fs, ids, FieldStep());
    if r.Ok? then
      assert forall i :: 0 <= i < |fs| ==> FieldFrom(fs[i], i, r.value.0[i]);
      FieldsFromBase(fs, r.value.0);
      r
    else r
  }

  lemma FieldsFromBase(fs: seq<Json>, lfs: seq<LearningField>)
    requires |lfs| == |fs| && forall i :: 0 <= i < |fs| ==> FieldFrom(fs[i], i, lfs[i])
    ensures forall i :: 0 <= i < |fs| ==>
      lfs[i] == StandardFieldBase(fs[i], i, FieldId(fs[i], i)).(competencies := lfs[i].competencies)
      && ParentsSet(lfs[i]) && !fs[i].JNull?
  {
    forall i | 0 <= i < |fs|
      ensures lfs[i] == StandardFieldBase(fs[i], i, FieldId(fs[i], i)).(competencies := lfs[i].competencies)
      ensures ParentsSet(lfs[i]) && !fs[i].JNull?
    {
      FieldFromBase(fs[i], i, lfs[i]);
    }
  }

  /** `learningFields || lernfelder || []` */
  function FieldSource(root: Json): Option<Json> {
    OrChain([Lookup(root, "learningFields"), Lookup(root, "lernfelder")], Some(JArr([])))
  }

  /** parseStandardFormat: one field per entry of the source array, in order; no
      fields when the source is not a non-empty array. */
  function ParseStandardFormat(root: Json, ids: IdSupply): (r: Result<(seq<LearningField>, IdSupply)>)
    ensures !IsArray(FieldSource(root)) ==> r == Ok(([], ids))
    ensures r.Ok? && IsArray(FieldSource(root)) ==> |r.value.0| == |FieldSource(root).value.items|
    ensures r.Ok? ==> forall i :: 0 <= i < |r.value.0| ==> ParentsSet(r.value.0[i])
  {
    var src := FieldSource(root);
    if !IsArray(src) || |src.value.items| == 0 then Ok(([], ids))
    else FieldList(src.value.items, ids)
  }

  /** Field i of the standard format is made from entry i of the source
      array, so apart from its competencies it is that entry's base record
      under that entry's id; the parse succeeds whenever no entry fails. */
  lemma StandardFormatFields(root: Json, ids: IdSupply)
    requires IsArray(FieldSource(root))
    ensures var items := FieldSource(root).value.items; var r := ParseStandardFormat(root, ids);
      && (r.Ok? ==> forall i :: 0 <= i < |items| ==>
            (FieldFrom(items[i], i, r.value.0[i])
             && r.value.0[i] == StandardFieldBase(items[i], i, FieldId(items[i], i)).(competencies := r.value.0[i].competencies)))
      && ((forall i, st :: 0 <= i < |items| ==> StandardField(items[i], i, st).Ok?) ==> r.Ok?)
  {
  }

  /** `{ learningFields: fs }`, the document the nested and any-format parsers hand on. */
  function Wrap(fs: seq<Json>): Json {
    JObj([("learningFields", JArr(fs))])
  }

  lemma WrapSource(fs: seq<Json>)
    ensures FieldSource(Wrap(fs)) == Some(JArr(fs))
  {
    assert Lookup(Wrap(fs), "learningFields") == Some(JArr(fs));
    assert Present(Some(JArr(fs)));
    assert FirstPresent([Lookup(Wrap(fs), "learningFields"), Lookup(Wrap(fs), "lernfelder")], 0);
  }

  // --------------------------------------------------------------- properties

  /** An `escoMappings` array wins over a `skills` array on the same competency. */
  lemma {:induction false} EscoMappingsKeyWins(comp: Json)
    requires IsArray(Lookup(comp, "escoMappings"))
    ensures FirstArrayKey(comp, MappingKeys) == Some(0)
  {
  }

  /** Generic confidences are copied as they are: `confidence: 4` stays 4. */
  lemma GenericConfidenceUnscaled()
    ensures GenericConfidence(JObj([("confidence", JNum(4.0))])) == JNum(4.0)
  {
    var m := JObj([("confidence", JNum(4.0))]);
    assert FirstPresent([Lookup(m, "confidence"), Lookup(m, "konfidenz"), Lookup(m, "relevanz")], 0);
  }
}
