/** The records the normaliser produces (the interfaces of
    src/lib/curriculumTypes.ts). Attributes the parsers fill from `||` chains over
    the input keep the JavaScript value that was picked, as the source does;
    attributes the source leaves undefined are `None`. */
module CurriculumTypes {
  import opened JsValue

  datatype EscoMapping = EscoMapping(
    id: Json,
    uri: Json,
    preferredLabel: Json,
    altLabels: Json,
    description: Json,
    confidence: Json)

  datatype Analysis = Analysis(
    skillType: Option<Json>,
    lernzielbereich: Option<Json>,
    keywords: Option<Json>,
    bloomLevel: Option<Json>,
    relevance: Option<Json>,
    difficulty: Option<Json>,
    digitalLevel: Option<Json>)

  datatype Competency = Competency(
    id: Json,
    code: Json,
    title: Json,
    description: Json,
    competencyType: Json,
    level: Option<Json>,
    parentId: Json,
    escoMappings: seq<EscoMapping>,
    analysis: Analysis)

  datatype LearningField = LearningField(
    id: Json,
    code: Json,
    title: Json,
    description: Json,
    hours: Json,
    year: Json,
    schwerpunkt: Json,
    zeitraum: Json,
    competencies: seq<Competency>)

  datatype Profession = Profession(title: Json, code: Json, description: Json, duration: Json, field: Json)

  datatype Metadata = Metadata(
    competencyCount: nat,
    escoMappingCount: nat,
    digitalCompetencyCount: nat,
    averageCompetenciesPerField: real,
    competencyTypeDistribution: map<string, nat>,
    bloomLevelDistribution: map<string, nat>)

  datatype Curriculum = Curriculum(
    id: Json,
    title: Json,
    description: Json,
    profession: Profession,
    trainingYears: real,
    totalHours: Json,
    issueDate: Json,
    validFrom: Json,
    validUntil: Json,
    publisher: Json,
    learningFields: seq<LearningField>,
    competencies: seq<Competency>,
    metadata: Metadata,
    documentMetadata: Json,
    escoData: Json,
    kldbMapping: Json,
    iscoMapping: Json)

  /** The four input dialects the normaliser recognises. */
  datatype Schema = Anlagenmechaniker | Standard | Nested | Unknown

  /** `generateId()`: the random identifier source, passed in as a supply of
      strings together with the number of identifiers already drawn. */
  datatype IdSupply = IdSupply(gen: nat -> string, next: nat) {
    function Draw(): (r: (Json, IdSupply))
      ensures r.0 == JStr(gen(next)) && r.1 == IdSupply(gen, next + 1)
    {
      (JStr(gen(next)), IdSupply(gen, next + 1))
    }
  }

  /** `${prefix}${n}` for a number n. */
  function Numbered(prefix: string, n: nat): Json {
    JStr(prefix + NatText(n))
  }

  /** `${prefix}${v}` for any value v. */
  function Templated(prefix: string, v: Json): Json {
    JStr(prefix + ToJsString(v))
  }

  /** The same record with every competency's parentId replaced by its field's id. */
  function WithParent(f: LearningField): (r: LearningField)
    ensures r.id == f.id && |r.competencies| == |f.competencies|
    ensures forall i :: 0 <= i < |f.competencies| ==>
      r.competencies[i] == f.competencies[i].(parentId := f.id)
  {
    f.(competencies := seq(|f.competencies|, i requires 0 <= i < |f.competencies| => f.competencies[i].(parentId := f.id)))
  }

  /** Every competency of the field already names the field as its parent. */
  predicate ParentsSet(f: LearningField) {
    forall i :: 0 <= i < |f.competencies| ==> f.competencies[i].parentId == f.id
  }

  /** The competencies of all fields, in field order. */
  function AllCompetencies(fields: seq<LearningField>): seq<Competency> {
    if |fields| == 0 then [] else AllCompetencies(fields[..|fields| - 1]) + fields[|fields| - 1].competencies
  }
}
