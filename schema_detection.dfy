/** Classification of a raw document into one of the four dialects
    (detectSchemaType in src/lib/curriculumParser.ts). */
module SchemaDetection {
  import opened JsValue
  import opened CurriculumTypes

  /** `Array.isArray(d.lernfeld_ausbildungsteil) || (d.document_data && d.document_data.lernfeld_ausbildungsteil)` */
  predicate AnlagenmechanikerShape(root: Json) {
    IsArray(Lookup(root, "lernfeld_ausbildungsteil"))
    || (Present(Lookup(root, "document_data")) && Present(Get(Lookup(root, "document_data"), "lernfeld_ausbildungsteil")))
  }

  /** `Array.isArray(d.learningFields) || Array.isArray(d.lernfelder)` */
  predicate StandardShape(root: Json) {
    IsArray(Lookup(root, "learningFields")) || IsArray(Lookup(root, "lernfelder"))
  }

  /** Fields under `curriculum` or `rahmenlehrplan`, by truthiness only. */
  predicate NestedShape(root: Json) {
    var c := Lookup(root, "curriculum");
    var r := Lookup(root, "rahmenlehrplan");
    (Present(c) && (Present(Get(c, "learningFields")) || Present(Get(c, "lernfelder"))))
    || (Present(r) && (Present(Get(r, "lernfelder")) || Present(Get(r, "inhalte"))))
  }

  /** The checks are tried in a fixed order and the first that holds decides. */
  function DetectSchemaType(root: Json): (s: Schema)
    ensures s == Anlagenmechaniker <==> AnlagenmechanikerShape(root)
    ensures s == Standard <==> !AnlagenmechanikerShape(root) && StandardShape(root)
    ensures s == Nested <==> !AnlagenmechanikerShape(root) && !StandardShape(root) && NestedShape(root)
    ensures s == Unknown <==> !AnlagenmechanikerShape(root) && !StandardShape(root) && !NestedShape(root)
  {
    if AnlagenmechanikerShape(root) then Anlagenmechaniker
    else if StandardShape(root) then Standard
    else if NestedShape(root) then Nested
    else Unknown
  }

  /** Only an array counts for the Standard dialect: a truthy non-array
      `learningFields` with nothing else recognised leaves the document Unknown. */
  lemma NonArrayLearningFieldsUnknown()
    ensures DetectSchemaType(JObj([("learningFields", JStr("LF1"))])) == Unknown
  {
    var root := JObj([("learningFields", JStr("LF1"))]);
    assert Lookup(root, "lernfeld_ausbildungsteil") == None;
    assert Lookup(root, "document_data") == None;
    assert Lookup(root, "lernfelder") == None;
    assert Lookup(root, "curriculum") == None;
    assert Lookup(root, "rahmenlehrplan") == None;
  }
}
