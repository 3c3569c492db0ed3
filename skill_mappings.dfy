/** The pieces both the Anlagenmechaniker and the standard parser build from a
    competency: ESCO mappings from a `skills` array and the analysis read from a
    `competence_analysis` record (src/lib/curriculumParser.ts:357-390, 460-468,
    489-496). */
module SkillMappings {
  import opened JsValue
  import opened CurriculumTypes
  import opened Collections

  /** `skill.relevance ? skill.relevance / 5 : 0.8`: a 1–5 relevance scaled to 0–1. */
  function SkillConfidence(skill: Json): (r: Json)
    ensures Present(Lookup(skill, "relevance")) ==> r == DivideBy5(Lookup(skill, "relevance").value)
    ensures !Present(Lookup(skill, "relevance")) ==> r == JNum(0.8)
  {
    var rel := Lookup(skill, "relevance");
    if Present(rel) then DivideBy5(rel.value) else JNum(0.8)
  }

  /** The mapping built from one entry of a `skills` array; a null entry throws
      when its `id` is read. */
  function SkillMapping(skill: Json, sIndex: nat): (r: Result<EscoMapping>)
    ensures r.Err? <==> skill.JNull?
    ensures r.Err? ==> r.error == ReadOfNull("id")
    ensures r.Ok? ==> r.value.confidence == SkillConfidence(skill) && r.value.altLabels == JArr([])
    ensures r.Ok? && !Present(Lookup(skill, "id")) ==> r.value.id == JStr("esco-" + NatText(sIndex))
  {
    if skill.JNull? then Err(ReadOfNull("id"))
    else
      var desc := Lookup(skill, "description");
      Ok(EscoMapping(
        id := Chain([Lookup(skill, "id")], Numbered("esco-", sIndex)),
        uri := Chain([Lookup(skill, "uri")], JStr("")),
        preferredLabel := Chain([Lookup(skill, "name")], JStr("")),
        altLabels := JArr([]),
        description := Chain([Get(desc, "literal"), desc], JStr("")),
        confidence := SkillConfidence(skill)))
  }

  /** Every skill of the array mapped in order; fails on the first null entry. */
  function SkillMappingList(skills: seq<Json>): (r: Result<seq<EscoMapping>>)
    ensures r.Ok? <==> forall i :: 0 <= i < |skills| ==> !skills[i].JNull?
    ensures r.Ok? ==> |r.value| == |skills|
    ensures r.Ok? ==> forall i :: 0 <= i < |skills| ==> r.value[i].confidence == SkillConfidence(skills[i])
  {
    var step := (s: Json, i: nat) => SkillMapping(s, i);
    MapResultFacts(skills, step);
    MapResult(skills, step)
  }

  /** The analysis taken from a truthy `competence_analysis` record. */
  function CompetenceAnalysis(ca: Json): (a: Analysis)
    ensures a.skillType == Some(Chain([Lookup(ca, "kompetenzdimension"), Lookup(ca, "lernzielbereich")], JStr("")))
    ensures a.relevance == Some(JNum(0.0)) && a.digitalLevel == Some(JNum(0.0)) && a.keywords.None?
  {
    Analysis(
      skillType := Some(Chain([Lookup(ca, "kompetenzdimension"), Lookup(ca, "lernzielbereich")], JStr(""))),
      lernzielbereich := Some(Chain([Lookup(ca, "lernzielbereich")], JStr(""))),
      keywords := None,
      bloomLevel := Some(Chain([Lookup(ca, "taxonomiestufe_bezeichnung")], JStr(""))),
      relevance := Some(JNum(0.0)),
      difficulty := Some(Chain([Lookup(ca, "taxonomiestufe")], JNum(0.0))),
      digitalLevel := Some(JNum(0.0)))
  }
}
