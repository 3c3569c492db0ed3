/** The Anlagenmechaniker dialect: fields under `lernfeld_ausbildungsteil`, hours
    in `zeitwert.wert`, the training year inside a `zeitraum` text, competencies
    with ESCO `skills` (parseAnlagenmechanikerFormat in src/lib/curriculumParser.ts). */
module AnlagenmechanikerParser {
  import opened JsValue
  import opened CurriculumTypes
  import opened Collections
  import opened SkillMappings

  /** `parseInt(x, 10) || fallback`. */
  function IntOr(o: Option<Json>, fallback: real): (r: Json)
    ensures r.JNum?
    ensures ParseInt(o).Some? && ParseInt(o).value != 0 ==> r == JNum(ParseInt(o).value as real)
    ensures ParseInt(o).None? || ParseInt(o).value == 0 ==> r == JNum(fallback)
  {
    var n := ParseIntValue(o);
    if Truthy(n) then n else JNum(fallback)
  }

  /** Where the hours come from: `zeitwert.wert`, else `stunden`, else `zeitrichtwert`. */
  function HoursSource(field: Json): Option<Json> {
    var zw := Lookup(field, "zeitwert");
    if Present(zw) && Present(Get(zw, "wert")) then Get(zw, "wert")
    else if Present(Lookup(field, "stunden")) then Lookup(field, "stunden")
    else if Present(Lookup(field, "zeitrichtwert")) then Lookup(field, "zeitrichtwert")
    else None
  }

  /** The hour value: the integer parsed from the first source present; a source
      that does not parse, and the absence of all three, give 0. */
  function Hours(field: Json): (r: Json)
    ensures r.JNum? && r.n == r.n.Floor as real
    ensures ParseInt(HoursSource(field)).Some? ==> r == JNum(ParseInt(HoursSource(field)).value as real)
    ensures ParseInt(HoursSource(field)).None? ==> r == JNum(0.0)
  {
    var src := HoursSource(field);
    if src.None? then JNum(0.0) else IntOr(src, 0.0)
  }

  /** The training year: the first digit run of a non-empty `zeitraum` text (1 if
      it has none); `ausbildungsjahr` only when `zeitraum` is not such a text; 1 by default. */
  function Year(field: Json): (r: Json)
    ensures r.JNum?
  {
    var z := Lookup(field, "zeitraum");
    if Present(z) && z.value.JStr? then
      match FirstDigitRun(z.value.s)
      case Some(run) => JNum(DigitsValue(run) as real)
      case None => JNum(1.0)
    else if Present(Lookup(field, "ausbildungsjahr")) then IntOr(Lookup(field, "ausbildungsjahr"), 1.0)
    else JNum(1.0)
  }

  /** `comp.text.length > 50`, read on whatever `text` holds. */
  predicate LongerThan50(v: Json) {
    match v
    case JStr(s) => |s| > 50
    case JArr(xs) => |xs| > 50
    case JObj(_) => Lookup(v, "length").Some? && Greater(Lookup(v, "length").value, 50.0)
    case _ => false
  }

  /** A title taken from a long `text` becomes its first 50 characters and "...";
      `.substring` on a long non-string throws. */
  function TruncateTitle(c: Competency, text: Option<Json>): (r: Result<Competency>)
    ensures r.Ok? ==> r.value == c || r.value == c.(title := r.value.title)
  {
    if Present(text) && LongerThan50(text.value) then
      if text.value.JStr? then Ok(c.(title := JStr(text.value.s[..50] + "...")))
      else Err(NotAFunction("substring"))
    else Ok(c)
  }

  /** The analysis derived from the first skill when no skill type is known yet. */
  function FirstSkillAnalysis(skill: Json): Analysis {
    Analysis(
      skillType := Some(Chain([Lookup(skill, "skillType")], JStr("Fachkompetenz"))),
      lernzielbereich := None,
      keywords := None,
      bloomLevel := Some(JStr("")),
      relevance := Some(Chain([Lookup(skill, "relevance")], JNum(0.0))),
      difficulty := Some(JNum(0.0)),
      digitalLevel := Some(JNum(0.0)))
  }

  /** ESCO mappings and analysis from a `skills` array, when there is one. */
  function WithSkills(c: Competency, comp: Json): (r: Result<Competency>)
    ensures !IsArray(Lookup(comp, "skills")) ==> r == Ok(c)
    ensures r.Ok? ==> r.value.(escoMappings := c.escoMappings, analysis := c.analysis) == c
  {
    var sk := Lookup(comp, "skills");
    if !IsArray(sk) then Ok(c)
    else
      var skills := sk.value.items;
      var mappings :- SkillMappingList(skills);
      var c1 := c.(escoMappings := mappings);
      var ca := Lookup(comp, "competence_analysis");
      var c2 := if Present(ca) then c1.(analysis := CompetenceAnalysis(ca.value)) else c1;
      if !Present(c2.analysis.skillType) && |skills| > 0 then Ok(c2.(analysis := FirstSkillAnalysis(skills[0])))
      else Ok(c2)
  }

  /** One competency of a field; a null entry throws when its `id` is read. */
  function ParseCompetency(comp: Json, cIndex: nat, fieldId: Json): (r: Result<Competency>)
    ensures comp.JNull? ==> r == Err(ReadOfNull("id"))
    ensures r.Ok? ==> r.value.parentId == fieldId && r.value.level.None?
  {
    if comp.JNull? then Err(ReadOfNull("id"))
    else
      var text := Lookup(comp, "text");
      var number := Chain([Lookup(comp, "nummer")], JNum((cIndex + 1) as real));
      var base := Competency(
        id := Chain([Lookup(comp, "id")], JStr(ToJsString(fieldId) + "-k" + ToJsString(number))),
        code := Chain([Lookup(comp, "nummer")], Numbered("K", cIndex + 1)),
        title := Chain([text, Lookup(comp, "titel"), Lookup(comp, "name")], Numbered("Kompetenz ", cIndex + 1)),
        description := Chain([text, Lookup(comp, "beschreibung"), Lookup(comp, "inhalt")], JStr("")),
        competencyType := Chain([Lookup(comp, "typ"), Lookup(comp, "art")], JStr("Fachkompetenz")),
        level := None,
        parentId := fieldId,
        escoMappings := [],
        analysis := Analysis(Some(JStr("")), None, None, None, None, None, None));
      var titled :- TruncateTitle(base, text);
      WithSkills(titled, comp)
  }

  /** `field.nummer || (index + 1)`, the number used in the generated names. */
  function FieldNumber(field: Json, index: nat): Json {
    Chain([Lookup(field, "nummer")], JNum((index + 1) as real))
  }

  /** One learning field; a null entry throws when its `name` is logged. */
  function ParseField(field: Json, index: nat): (r: Result<LearningField>)
    ensures field.JNull? ==> r == Err(ReadOfNull("name"))
    ensures r.Ok? ==> ParentsSet(r.value)
    ensures r.Ok? ==> r.value.hours == Hours(field) && r.value.year == Year(field)
    ensures r.Ok? ==> r.value.code == Templated("LF", FieldNumber(field, index))
  {
    if field.JNull? then Err(ReadOfNull("name"))
    else
      var num := FieldNumber(field, index);
      var id := Chain([Lookup(field, "id")], Templated("lf", num));
      var ks := Lookup(field, "kompetenzen");
      var comps :- FieldCompetencies(ks, id);
      Ok(LearningField(
        id := id,
        code := Templated("LF", num),
        title := Chain([Lookup(field, "name"), Lookup(field, "titel"), Lookup(field, "bezeichnung")],
                       Templated("Lernfeld ", num)),
        description := Chain([Lookup(field, "beschreibung"), Lookup(field, "text"), Lookup(field, "inhalt")], JStr("")),
        hours := Hours(field),
        year := Year(field),
        schwerpunkt := Chain([Lookup(field, "schwerpunkt"), Lookup(field, "fokus")], JStr("")),
        zeitraum := Chain([Lookup(field, "zeitraum")], JStr("")),
        competencies := comps))
  }

  /** The competencies of a field: its `kompetenzen` array mapped in order, none without one. */
  function FieldCompetencies(ks: Option<Json>, fieldId: Json): (r: Result<seq<Competency>>)
    ensures r.Ok? ==> forall i :: 0 <= i < |r.value| ==> r.value[i].parentId == fieldId
  {
    if IsArray(ks) then
      var step := (c: Json, ci: nat) => ParseCompetency(c, ci, fieldId);
      MapResultFacts(ks.value.items, step);
      MapResult(ks.value.items, step)
    else Ok([])
  }

  /** `lernfeld_ausbildungsteil || document_data?.lernfeld_ausbildungsteil || []` */
  function FieldSource(root: Json): Option<Json> {
    OrChain([Lookup(root, "lernfeld_ausbildungsteil"), Get(Lookup(root, "document_data"), "lernfeld_ausbildungsteil")],
            Some(JArr([])))
  }

  /** `lernfelder.map(...)`: field i is ParseField of entry i, and the first
      entry that throws decides the error. */
  function FieldList(items: seq<Json>): (r: Result<seq<LearningField>>)
    ensures r.Ok? <==> forall i :: 0 <= i < |items| ==> ParseField(items[i], i).Ok?
    ensures r.Ok? ==> |r.value| == |items| && forall i :: 0 <= i < |items| ==> r.value[i] == ParseField(items[i], i).value
    ensures r.Err? ==> exists i :: 0 <= i < |items| && ParseField(items[i], i) == Err(r.error)
                                   && forall j :: 0 <= j < i ==> ParseField(items[j], j).Ok?
  {
    var step := (f: Json, i: nat) => ParseField(f, i);
    MapResultFacts(items, step);
    MapResult(items, step)
  }

  /** parseAnlagenmechanikerFormat: one learning field per entry of the source
      array, in order; no fields when the source is not a non-empty array. */
  function ParseAnlagenmechanikerFormat(root: Json): (r: Result<seq<LearningField>>)
    ensures !IsArray(FieldSource(root)) ==> r == Ok([])
    ensures r.Ok? && IsArray(FieldSource(root)) ==> |r.value| == |FieldSource(root).value.items|
    ensures r.Ok? ==> forall i :: 0 <= i < |r.value| ==> ParentsSet(r.value[i])
  {
    var src := FieldSource(root);
    if !IsArray(src) || |src.value.items| == 0 then Ok([])
    else FieldList(src.value.items)
  }

  /** On a source array the format succeeds exactly when every entry parses,
      field i is then ParseField of entry i, and otherwise the first entry
      that throws decides the error. */
  lemma AnlagenmechanikerFormatFields(root: Json)
    requires IsArray(FieldSource(root))
    ensures var items := FieldSource(root).value.items; var r := ParseAnlagenmechanikerFormat(root);
      && (r.Ok? <==> forall i :: 0 <= i < |items| ==> ParseField(items[i], i).Ok?)
      && (r.Ok? ==> forall i :: 0 <= i < |items| ==> r.value[i] == ParseField(items[i], i).value)
      && (r.Err? ==> exists i :: 0 <= i < |items| && ParseField(items[i], i) == Err(r.error)
                                 && forall j :: 0 <= j < i ==> ParseField(items[j], j).Ok?)
  {
  }

  // --------------------------------------------------------------- properties

  /** `zeitraum` decides the year whenever it is a non-empty text, so
      `ausbildungsjahr` is then ignored, even when the text has no digits. */
  lemma YearIgnoresAusbildungsjahr(field: Json, y: Json)
    requires field.JObj?
    requires Present(Lookup(field, "zeitraum")) && Lookup(field, "zeitraum").value.JStr?
    ensures Year(Assign(field, "ausbildungsjahr", y)) == Year(field)
  {
  }

  /** A `zeitraum` text yields the value of its first digit run, or 1 without digits. */
  lemma YearFromZeitraum(field: Json)
    requires Present(Lookup(field, "zeitraum")) && Lookup(field, "zeitraum").value.JStr?
    ensures var s := Lookup(field, "zeitraum").value.s;
      Year(field) == (if FirstDigitRun(s).Some? then JNum(DigitsValue(FirstDigitRun(s).value) as real) else JNum(1.0))
  {
  }

  /** Without a `zeitraum` text a truthy `ausbildungsjahr` is parsed, and an
      unparseable or zero one gives 1. */
  lemma YearFromAusbildungsjahr(field: Json)
    requires !(Present(Lookup(field, "zeitraum")) && Lookup(field, "zeitraum").value.JStr?)
    requires Present(Lookup(field, "ausbildungsjahr"))
    ensures var p := ParseInt(Lookup(field, "ausbildungsjahr"));
      Year(field) == (if p.Some? && p.value != 0 then JNum(p.value as real) else JNum(1.0))
  {
  }

  /** Without a `zeitraum` text and without `ausbildungsjahr` the year is 1. */
  lemma YearDefault(field: Json)
    requires !(Present(Lookup(field, "zeitraum")) && Lookup(field, "zeitraum").value.JStr?)
    requires !Present(Lookup(field, "ausbildungsjahr"))
    ensures Year(field) == JNum(1.0)
  {
  }

  /** A competency whose title comes from a text of more than 50 characters gets
      the first 50 characters followed by "..." (53 characters), and its
      description keeps the whole text. */
  lemma {:induction false} LongTextTitle(comp: Json, cIndex: nat, fieldId: Json)
    requires Lookup(comp, "text").Some? && Lookup(comp, "text").value.JStr?
    requires |Lookup(comp, "text").value.s| > 50
    requires !IsArray(Lookup(comp, "skills"))
    ensures var s := Lookup(comp, "text").value.s;
      var r := ParseCompetency(comp, cIndex, fieldId);
      r.Ok? && r.value.title == JStr(s[..50] + "...") && |r.value.title.s| == 53 && r.value.description == JStr(s)
  {
    var text := Lookup(comp, "text");
    assert comp.JObj?;
    assert Present(text);
    assert FirstPresent([text, Lookup(comp, "beschreibung"), Lookup(comp, "inhalt")], 0);
  }

  /** A text of at most 50 characters is the title unchanged. */
  lemma {:induction false} ShortTextTitle(comp: Json, cIndex: nat, fieldId: Json)
    requires Lookup(comp, "text").Some? && Lookup(comp, "text").value.JStr?
    requires 0 < |Lookup(comp, "text").value.s| <= 50
    requires !IsArray(Lookup(comp, "skills"))
    ensures var r := ParseCompetency(comp, cIndex, fieldId);
      r.Ok? && r.value.title == Lookup(comp, "text").value
  {
    var text := Lookup(comp, "text");
    assert comp.JObj?;
    assert FirstPresent([text, Lookup(comp, "titel"), Lookup(comp, "name")], 0);
  }

  /** Only a text-derived title is truncated: when `text` is absent the title
      comes from `titel` or `name` untouched, however long. */
  lemma {:induction false} TitleWithoutTextKept(comp: Json, cIndex: nat, fieldId: Json)
    requires comp.JObj? && Lookup(comp, "text").None?
    requires Present(Lookup(comp, "titel"))
    requires !IsArray(Lookup(comp, "skills"))
    ensures var r := ParseCompetency(comp, cIndex, fieldId);
      r.Ok? && r.value.title == Lookup(comp, "titel").value
  {
    assert FirstPresent([Lookup(comp, "text"), Lookup(comp, "titel"), Lookup(comp, "name")], 1);
  }

  /** An unparseable hour text gives 0 hours. */
  lemma UnparseableHours()
    ensures Hours(JObj([("stunden", JStr("ca. Std"))])) == JNum(0.0)
  {
    var f := JObj([("stunden", JStr("ca. Std"))]);
    assert Lookup(f, "zeitwert") == None;
    assert Lookup(f, "stunden") == Some(JStr("ca. Std"));
    assert LeadingSpace("ca. Std") == 0;
    assert DigitPrefix("ca. Std") == 0;
  }

  /** Skill confidences are rescaled from 1–5: relevance 4 gives 0.8. */
  lemma SkillRelevanceScaled()
    ensures SkillConfidence(JObj([("relevance", JNum(4.0))])) == JNum(0.8)
  {
  }
}
