/** The public entry of the normaliser (parseCurriculum in
    src/lib/curriculumParser.ts): the envelope, the dialect parser the detected
    schema selects, the flat competency list with parent ids stamped, and the
    statistics. */
module CurriculumParser {
  import opened JsValue
  import opened CurriculumTypes
  import opened Collections
  import opened SchemaDetection
  import opened Envelope
  import AnlagenmechanikerParser
  import StandardParser
  import NestedParser
  import AnyFormatParser
  import opened CurriculumMetadata

  /** The learning fields of the dialect the schema detection picks; only an
      Unknown document reaches the any-format search. */
  function Dialect(root: Json, ids: IdSupply): (r: Result<(seq<LearningField>, IdSupply)>)
    ensures r.Ok? ==> forall i :: 0 <= i < |r.value.0| ==> ParentsSet(r.value.0[i])
    ensures DetectSchemaType(root) == Anlagenmechaniker && r.Ok? ==> r.value.1 == ids
  {
    match DetectSchemaType(root)
    case Anlagenmechaniker =>
      var fs :- AnlagenmechanikerParser.ParseAnlagenmechanikerFormat(root);
      Ok((fs, ids))
    case Standard => StandardParser.ParseStandardFormat(root, ids)
    case Nested => NestedParser.NestedFormat(root, ids)
    case Unknown => AnyFormatParser.AnyFormat(root, ids)
  }

  /** The envelope attributes of a curriculum, each from its synonym chain. */
  predicate EnvelopeOf(c: Curriculum, root: Json) {
    && c.title == Extract(root, TitlePaths, JStr("Unbenannter Lehrplan"))
    && c.description == Extract(root, DescriptionPaths, JStr(""))
    && c.profession == ExtractProfession(root)
    && c.trainingYears == ExtractTrainingYears(root)
    && c.totalHours == Extract(root, TotalHoursPaths, JNum(0.0))
    && c.issueDate == Extract(root, IssueDatePaths, JStr(""))
    && c.validFrom == Extract(root, ValidFromPaths, JStr(""))
    && c.validUntil == Extract(root, ValidUntilPaths, JStr(""))
    && c.publisher == Extract(root, PublisherPaths, JStr(""))
    && c.documentMetadata == Chain([Lookup(root, "metadata"), Lookup(root, "document_metadata")], JObj([]))
    && c.escoData == Chain([Lookup(root, "esco")], JObj([]))
    && c.kldbMapping == Extract(root, KldbPaths, JStr(""))
    && c.iscoMapping == Extract(root, IscoPaths, JObj([]))
  }

  /** c (with the identifier supply left at ids') is what parseCurriculum
      returns for root: the envelope, the id drawn first, the fields of the
      dialect, their competencies in field order and the statistics over them. */
  ghost predicate ParsedFrom(c: Curriculum, ids': IdSupply, root: Json, ids: IdSupply) {
    var (id, afterId) := ExtractId(root, ids);
    var d := Dialect(root, afterId);
    && !root.JNull?
    && d.Ok?
    && c.id == id
    && EnvelopeOf(c, root)
    && c.learningFields == d.value.0
    && ids' == d.value.1
    && c.competencies == AllCompetencies(c.learningFields)
    && Describes(c.metadata, c.competencies, |c.learningFields|)
  }

  /** parseCurriculum. `Object.keys(null)` throws before anything else; a
      dialect parser that throws makes the whole parse fail with its error. */
  method ParseCurriculum(root: Json, ids: IdSupply) returns (r: Result<(Curriculum, IdSupply)>)
    ensures root.JNull? ==> r == Err(KeysOfNull)
    ensures !root.JNull? ==> (r.Ok? <==> Dialect(root, ExtractId(root, ids).1).Ok?)
    ensures !root.JNull? && r.Err? ==> r.error == Dialect(root, ExtractId(root, ids).1).error
    ensures r.Ok? ==> ParsedFrom(r.value.0, r.value.1, root, ids)
  {
    if root.JNull? {
      return Err(KeysOfNull);
    }
    var (id, afterId) := ExtractId(root, ids);
    var parsed := ParseDialect(root, afterId);
    if parsed.Err? {
      return Err(parsed.error);
    }
    var (fields, afterFields) := parsed.value;

    var learningFields, competencies := StampParents(fields);
    StampedUnchanged(fields);
    var metadata := GenerateCurriculumMetadata(competencies, |learningFields|);
    var c := Assemble(root, id, learningFields, competencies, metadata);
    r := Ok((c, afterFields));
  }

  /** The dispatch on the detected schema. */
  method ParseDialect(root: Json, ids: IdSupply) returns (parsed: Result<(seq<LearningField>, IdSupply)>)
    ensures parsed == Dialect(root, ids)
  {
    var schema := DetectSchemaType(root);
    if schema == Anlagenmechaniker {
      var a := AnlagenmechanikerParser.ParseAnlagenmechanikerFormat(root);
      parsed := if a.Ok? then Ok((a.value, ids)) else Err(a.error);
    } else if schema == Standard {
      parsed := StandardParser.ParseStandardFormat(root, ids);
    } else if schema == Nested {
      parsed := NestedParser.ParseNestedFormat(root, ids);
    } else {
      parsed := AnyFormatParser.FindLearningFieldsAnyFormat(root, ids);
    }
  }

  /** The object literal parseCurriculum returns. */
  function Assemble(root: Json, id: Json, learningFields: seq<LearningField>, competencies: seq<Competency>,
                    metadata: Metadata): (c: Curriculum)
    ensures EnvelopeOf(c, root)
    ensures c.id == id && c.learningFields == learningFields && c.competencies == competencies && c.metadata == metadata
  {
    Curriculum(
      id := id,
      title := Extract(root, TitlePaths, JStr("Unbenannter Lehrplan")),
      description := Extract(root, DescriptionPaths, JStr("")),
      profession := ExtractProfession(root),
      trainingYears := ExtractTrainingYears(root),
      totalHours := Extract(root, TotalHoursPaths, JNum(0.0)),
      issueDate := Extract(root, IssueDatePaths, JStr("")),
      validFrom := Extract(root, ValidFromPaths, JStr("")),
      validUntil := Extract(root, ValidUntilPaths, JStr("")),
      publisher := Extract(root, PublisherPaths, JStr("")),
      learningFields := learningFields,
      competencies := competencies,
      metadata := metadata,
      documentMetadata := Chain([Lookup(root, "metadata"), Lookup(root, "document_metadata")], JObj([])),
      escoData := Chain([Lookup(root, "esco")], JObj([])),
      kldbMapping := Extract(root, KldbPaths, JStr("")),
      iscoMapping := Extract(root, IscoPaths, JObj([])))
  }

  // ------------------------------------------------------ flatten and stamp

  /** The nested `forEach`: every competency gets its field's id as parentId
      (the assignment is seen through the field too, the objects being shared)
      and is appended to the flat list. */
  method StampParents(fields: seq<LearningField>) returns (stamped: seq<LearningField>, all: seq<Competency>)
    ensures |stamped| == |fields|
    ensures forall i :: 0 <= i < |fields| ==> stamped[i] == WithParent(fields[i])
    ensures all == AllCompetencies(stamped)
  {
    stamped := [];
    all := [];
    var i := 0;
    while i < |fields|
      invariant 0 <= i <= |fields|
      invariant |stamped| == i
      invariant forall k :: 0 <= k < i ==> stamped[k] == WithParent(fields[k])
      invariant all == AllCompetencies(stamped)
    {
      var field := fields[i];
      var j := 0;
      ghost var before := all;
      while j < |field.competencies|
        invariant 0 <= j <= |field.competencies|
        invariant all == before + WithParent(field).competencies[..j]
      {
        assert WithParent(field).competencies[..j + 1] == WithParent(field).competencies[..j] + [field.competencies[j].(parentId := field.id)];
        all := all + [field.competencies[j].(parentId := field.id)];
        j := j + 1;
      }
      assert WithParent(field).competencies[..j] == WithParent(field).competencies;
      assert (stamped + [WithParent(field)])[..i] == stamped;
      stamped := stamped + [WithParent(field)];
      i := i + 1;
    }
  }

  /** Stamping changes nothing when every field already names itself as the
      parent of its competencies, which every dialect parser ensures. */
  lemma StampedUnchanged(fields: seq<LearningField>)
    requires forall i :: 0 <= i < |fields| ==> ParentsSet(fields[i])
    ensures forall i :: 0 <= i < |fields| ==> WithParent(fields[i]) == fields[i]
  {
    forall i | 0 <= i < |fields| ensures WithParent(fields[i]) == fields[i] {
      assert WithParent(fields[i]).competencies == fields[i].competencies;
    }
  }

  /** The flat list of a concatenation of field lists. */
  lemma {:induction false} AllCompetenciesConcat(a: seq<LearningField>, b: seq<LearningField>)
    ensures AllCompetencies(a + b) == AllCompetencies(a) + AllCompetencies(b)
    decreases |b|
  {
    if |b| == 0 {
      assert a + b == a;
    } else {
      assert (a + b)[..|a + b| - 1] == a + b[..|b| - 1];
      AllCompetenciesConcat(a, b[..|b| - 1]);
    }
  }

  /** Competency j of field i sits in the flat list right after the
      competencies of the fields before it, and names field i as its parent. */
  lemma CompetencyOfField(fields: seq<LearningField>, i: nat, j: nat)
    requires i < |fields| && j < |fields[i].competencies|
    requires forall k :: 0 <= k < |fields| ==> ParentsSet(fields[k])
    ensures var offset := |AllCompetencies(fields[..i])|;
      offset + j < |AllCompetencies(fields)|
      && AllCompetencies(fields)[offset + j] == fields[i].competencies[j]
      && AllCompetencies(fields)[offset + j].parentId == fields[i].id
  {
    assert fields == fields[..i + 1] + fields[i + 1..];
    AllCompetenciesConcat(fields[..i + 1], fields[i + 1..]);
    assert fields[..i + 1][..i] == fields[..i];
    assert ParentsSet(fields[i]);
  }

  /** A recognised document is never handed to the any-format search: an
      empty `learningFields` array yields no fields even when other keys hold some. */
  lemma StandardEmptyNotRetried(root: Json, ids: IdSupply)
    requires DetectSchemaType(root) == Standard
    requires Lookup(root, "learningFields") == Some(JArr([]))
    ensures Dialect(root, ids) == Ok(([], ids))
  {
    assert StandardParser.FieldSource(root) == Some(JArr([]));
  }

  /** Every competency of the result names one of the result's fields as its parent. */
  lemma ParsedParents(c: Curriculum, ids': IdSupply, root: Json, ids: IdSupply, k: nat)
    requires ParsedFrom(c, ids', root, ids)
    requires k < |c.competencies|
    ensures exists i :: (0 <= i < |c.learningFields| && c.competencies[k] in c.learningFields[i].competencies
                         && c.competencies[k].parentId == c.learningFields[i].id)
  {
    var fields := c.learningFields;
    assert forall i :: 0 <= i < |fields| ==> ParentsSet(fields[i]);
    InFlatList(fields, k);
  }

  /** Position k of the flat list belongs to some field. */
  lemma {:induction false} InFlatList(fields: seq<LearningField>, k: nat)
    requires k < |AllCompetencies(fields)|
    requires forall i :: 0 <= i < |fields| ==> ParentsSet(fields[i])
    ensures exists i :: (0 <= i < |fields| && AllCompetencies(fields)[k] in fields[i].competencies
                         && AllCompetencies(fields)[k].parentId == fields[i].id)
  {
    var n := |fields| - 1;
    var init := AllCompetencies(fields[..n]);
    assert AllCompetencies(fields) == init + fields[n].competencies;
    if k < |init| {
      InFlatList(fields[..n], k);
      var i :| 0 <= i < n && init[k] in fields[..n][i].competencies && init[k].parentId == fields[..n][i].id;
      assert fields[..n][i] == fields[i];
    } else {
      var j := k - |init|;
      assert AllCompetencies(fields)[k] == fields[n].competencies[j];
      assert ParentsSet(fields[n]);
    }
  }
}
