/** The nested dialect (parseNestedFormat and extractCompetenciesFromNestedField
    in src/lib/curriculumParser.ts): fields under `curriculum` or
    `rahmenlehrplan`, possibly as `Lernfeld N` members of `rahmenlehrplan.inhalte`,
    rewritten into the standard shape and handed to the standard parser. */
module NestedParser {
  import opened JsValue
  import opened CurriculumTypes
  import opened Collections
  import opened StandardParser

  // ------------------------------------------------------------ field keys

  /** `/^lernfeld\s*\d+$/i.test(key)` */
  predicate IsLernfeldKey(k: string) {
    |k| >= 8 && LowerAsciiString(k[..8]) == "lernfeld" && SpacesThenDigits(k[8..])
  }

  /** `\s*\d+` spanning the whole text. */
  predicate SpacesThenDigits(s: string) {
    LeadingSpace(s) < |s| && AllDigits(s[LeadingSpace(s)..])
  }

  predicate InhalteKey(m: (string, Json)) {
    IsLernfeldKey(m.0)
  }

  /** The digits that end a field key. */
  function KeyDigits(k: string): (d: string)
    requires IsLernfeldKey(k)
    ensures |d| > 0 && AllDigits(d)
  {
    var t := k[8..];
    t[LeadingSpace(t)..]
  }

  /** `key.match(/\d+/)?.[0] || ''` */
  function FieldNumberOf(key: string): string {
    if FirstDigitRun(key).Some? then FirstDigitRun(key).value else ""
  }

  /** For a field key the first digit run is the run of digits that ends it. */
  lemma FieldNumberOfKey(k: string)
    requires IsLernfeldKey(k)
    ensures FieldNumberOf(k) == KeyDigits(k)
  {
    var t := k[8..];
    var n := 8 + LeadingSpace(t);
    forall j | 0 <= j < n ensures !IsDigit(k[j]) {
      if j < 8 {
        assert LowerAscii(k[j]) == LowerAsciiString(k[..8])[j] == "lernfeld"[j];
      } else {
        assert k[j] == t[j - 8];
      }
    }
    assert k[n..] == KeyDigits(k);
    assert IsDigit(k[n]);
    assert FirstDigit(k) == n;
    DigitPrefixAll(k[n..]);
    assert k[n..][..|k[n..]|] == k[n..];
  }

  /** "Lernfeld 3" and "lernfeld12" name fields; "Lernfeld 3a", "Lernfeld" and
      "LF3" do not. */
  lemma LernfeldKeyExamples()
    ensures IsLernfeldKey("Lernfeld 3") && IsLernfeldKey("lernfeld12")
    ensures !IsLernfeldKey("Lernfeld 3a") && !IsLernfeldKey("Lernfeld") && !IsLernfeldKey("LF3")
  {
    assert LowerAsciiString("Lernfeld 3"[..8]) == "lernfeld";
    assert LowerAsciiString("lernfeld12"[..8]) == "lernfeld";
    assert LeadingSpace(" 3") == 1 by { assert LeadingSpace("3") == 0; }
    assert LeadingSpace("12") == 0;
    assert " 3"[1..] == "3";
    assert LowerAsciiString("Lernfeld 3a"[..8]) == "lernfeld";
    assert LeadingSpace(" 3a") == 1 by { assert LeadingSpace("3a") == 0; }
    assert " 3a"[1..] == "3a" && !IsDigit("3a"[1]);
  }

  // ----------------------------------------------------- nested competencies

  /** `[{ key: v }]` when v is defined, `[]` when it is undefined. */
  function Member(key: string, o: Option<Json>): seq<(string, Json)> {
    if o.Some? then [(key, o.value)] else []
  }

  /** One entry of a `zielformulierungen` record. An object entry (null included,
      which then throws) is read for its title, text and type; any other entry
      the loop keeps is a string and becomes the description. */
  function ZielItem(fid: string, key: string, v: Json): (r: Result<Json>)
    ensures r.Err? <==> v.JNull?
  {
    if v.JNull? then Err(ReadOfNull("titel"))
    else if v.JArr? || v.JObj? then
      Ok(JObj([("id", JStr(fid + "-" + key)),
               ("title", Chain([Lookup(v, "titel"), Lookup(v, "bezeichnung")], JStr("Kompetenz"))),
               ("description", Chain([Lookup(v, "text"), Lookup(v, "beschreibung"), Lookup(v, "inhalt")], JStr(""))),
               ("competencyType", Chain([Lookup(v, "typ"), Lookup(v, "art")], JStr("")))]))
    else
      Ok(JObj([("id", JStr(fid + "-" + key)), ("title", JStr("Kompetenz " + key)),
               ("description", v), ("competencyType", JStr(""))]))
  }

  /** `typeof v === 'object' || typeof v === 'string'`: the entries the loop does not skip. */
  predicate ZielKept(m: (string, Json)) {
    m.1.JNull? || m.1.JArr? || m.1.JObj? || m.1.JStr?
  }

  function ZielStep(fid: string): ((string, Json), nat) -> Result<Json> {
    (m: (string, Json), i: nat) => ZielItem(fid, m.0, m.1)
  }

  /** The competencies of a `zielformulierungen` record, in member order. */
  function ZielCompetencies(z: Json, fid: string): Result<seq<Json>> {
    MapResult(Filter(ForIn(z), ZielKept), ZielStep(fid))
  }

  /** One entry of a `fertigkeiten` or `kenntnisse` array: a string becomes the
      description of a numbered competency; for anything else title and
      description are `titel || bezeichnung` and `text || beschreibung`, which
      stay undefined when both are missing. */
  function ListItem(fid: string, tag: string, kind: string, x: Json, i: nat): (r: Result<Json>)
    ensures r.Err? <==> x.JNull?
    ensures r.Ok? ==> Lookup(r.value, "competencyType") == Some(JStr(kind))
  {
    var id := ("id", JStr(fid + "-" + tag + "-" + NatText(i)));
    var typ := ("competencyType", JStr(kind));
    if x.JStr? then
      var members := [id, ("title", JStr(kind + " " + NatText(i + 1))), ("description", x), typ];
      FindAt(members, "competencyType", 3);
      Ok(JObj(members))
    else if x.JNull? then Err(ReadOfNull("titel"))
    else
      var members := [id] + Member("title", OrChain([Lookup(x, "titel")], Lookup(x, "bezeichnung")))
        + Member("description", OrChain([Lookup(x, "text")], Lookup(x, "beschreibung"))) + [typ];
      assert members[|members| - 1] == typ;
      assert forall j :: 0 <= j < |members| - 1 ==> members[j].0 != "competencyType";
      FindAt(members, "competencyType", |members| - 1);
      Ok(JObj(members))
  }

  function ListStep(fid: string, tag: string, kind: string): (Json, nat) -> Result<Json> {
    (x: Json, i: nat) => ListItem(fid, tag, kind, x, i)
  }

  /** One entry of an `inhalte` record; a null entry throws when its `titel` is read. */
  function ContentItem(fid: string, key: string, v: Json): (r: Result<Json>)
    ensures r.Err? <==> v.JNull?
    ensures r.Ok? ==> Lookup(r.value, "competencyType") == Some(JStr("Fachkompetenz"))
  {
    if v.JNull? then Err(ReadOfNull("titel"))
    else
      var members := [("id", JStr(fid + "-inhalt-" + key)),
                      ("title", Chain([Lookup(v, "titel"), Lookup(v, "thema")], JStr("Inhalt " + key))),
                      ("description", Chain([Lookup(v, "text"), Lookup(v, "beschreibung")], if v.JStr? then v else JStr(""))),
                      ("competencyType", JStr("Fachkompetenz"))];
      FindAt(members, "competencyType", 3);
      Ok(JObj(members))
  }

  function ContentStep(fid: string): ((string, Json), nat) -> Result<Json> {
    (m: (string, Json), i: nat) => ContentItem(fid, m.0, m.1)
  }

  /** The fertigkeiten (or kenntnisse) part: an array that is there, else nothing. */
  function ListCompetencies(fd: Json, key: string, fid: string, tag: string, kind: string): Result<seq<Json>> {
    var l := Lookup(fd, key);
    if Present(l) && IsArray(l) then MapResult(l.value.items, ListStep(fid, tag, kind)) else Ok([])
  }

  /** The inhalte part: a truthy object or array, else nothing. */
  function ContentCompetencies(fd: Json, fid: string): Result<seq<Json>> {
    var c := Lookup(fd, "inhalte");
    if Present(c) && IsObjectType(c) then MapResult(ForIn(c.value), ContentStep(fid)) else Ok([])
  }

  /** extractCompetenciesFromNestedField as a function of the field record. */
  function NestedCompetencies(fd: Json, fid: string): Result<seq<Json>> {
    if fd.JNull? then Err(ReadOfNull("kompetenzen"))
    else if IsArray(Lookup(fd, "kompetenzen")) then Ok(Lookup(fd, "kompetenzen").value.items)
    else if IsArray(Lookup(fd, "competencies")) then Ok(Lookup(fd, "competencies").value.items)
    else
      var z := Lookup(fd, "zielformulierungen");
      if Present(z) && IsObjectType(z) then ZielCompetencies(z.value, fid)
      else ListParts(fd, fid)
  }

  /** The fertigkeiten, then the kenntnisse, then the inhalte. */
  function ListParts(fd: Json, fid: string): Result<seq<Json>> {
    var f :- ListCompetencies(fd, "fertigkeiten", fid, "fertigkeit", "Fertigkeit");
    var k :- ListCompetencies(fd, "kenntnisse", fid, "kenntnis", "Kenntnis");
    var c :- ContentCompetencies(fd, fid);
    Ok(f + k + c)
  }

  /** The competency-extraction routine: an existing array is returned as it
      is; otherwise the `zielformulierungen` loop, or the three lists in turn. */
  method ExtractCompetenciesFromNestedField(fd: Json, fid: string) returns (r: Result<seq<Json>>)
    ensures r == NestedCompetencies(fd, fid)
  {
    if fd.JNull? {
      return Err(ReadOfNull("kompetenzen"));
    }
    if IsArray(Lookup(fd, "kompetenzen")) {
      return Ok(Lookup(fd, "kompetenzen").value.items);
    }
    if IsArray(Lookup(fd, "competencies")) {
      return Ok(Lookup(fd, "competencies").value.items);
    }
    var z := Lookup(fd, "zielformulierungen");
    if Present(z) && IsObjectType(z) {
      r := FilterMapLoop(ForIn(z.value), ZielKept, ZielStep(fid));
      return;
    }
    r := CollectListParts(fd, fid);
  }

  /** The `forEach` loop over one of the two lists. */
  method CollectList(fd: Json, key: string, fid: string, tag: string, kind: string) returns (r: Result<seq<Json>>)
    ensures r == ListCompetencies(fd, key, fid, tag, kind)
  {
    var l := Lookup(fd, key);
    if Present(l) && IsArray(l) {
      r := MapLoop(l.value.items, ListStep(fid, tag, kind));
    } else {
      r := Ok([]);
    }
  }

  /** The `for…in` loop over `inhalte`. */
  method CollectContent(fd: Json, fid: string) returns (r: Result<seq<Json>>)
    ensures r == ContentCompetencies(fd, fid)
  {
    var c := Lookup(fd, "inhalte");
    if Present(c) && IsObjectType(c) {
      r := MapLoop(ForIn(c.value), ContentStep(fid));
    } else {
      r := Ok([]);
    }
  }

  /** The three loops in turn, pushing into one list. */
  method CollectListParts(fd: Json, fid: string) returns (r: Result<seq<Json>>)
    ensures r == ListParts(fd, fid)
  {
    var f := CollectList(fd, "fertigkeiten", fid, "fertigkeit", "Fertigkeit");
    if f.Err? {
      return Err(f.error);
    }
    var k := CollectList(fd, "kenntnisse", fid, "kenntnis", "Kenntnis");
    if k.Err? {
      return Err(k.error);
    }
    var c := CollectContent(fd, fid);
    if c.Err? {
      return Err(c.error);
    }
    return Ok(f.value + k.value + c.value);
  }

  /** An existing `kompetenzen` array is taken as it is, before anything else. */
  lemma KompetenzenFirst(fd: Json, fid: string)
    requires IsArray(Lookup(fd, "kompetenzen"))
    ensures NestedCompetencies(fd, fid) == Ok(Lookup(fd, "kompetenzen").value.items)
  {
  }

  /** A truthy `zielformulierungen` record is used exclusively: the three lists
      are not consulted, whatever they hold. */
  lemma ZielformulierungenExclusive(fd: Json, fid: string, key: string, x: Json)
    requires fd.JObj? && key in {"fertigkeiten", "kenntnisse", "inhalte"}
    requires !IsArray(Lookup(fd, "kompetenzen")) && !IsArray(Lookup(fd, "competencies"))
    requires Present(Lookup(fd, "zielformulierungen")) && IsObjectType(Lookup(fd, "zielformulierungen"))
    ensures NestedCompetencies(Assign(fd, key, x), fid) == NestedCompetencies(fd, fid)
  {
    var fd' := Assign(fd, key, x);
    assert Lookup(fd', "kompetenzen") == Lookup(fd, "kompetenzen");
    assert Lookup(fd', "competencies") == Lookup(fd, "competencies");
    assert Lookup(fd', "zielformulierungen") == Lookup(fd, "zielformulierungen");
  }

  /** Without an array or a `zielformulierungen` record, the competencies are
      the fertigkeiten, then the kenntnisse, then the inhalte, each entry
      becoming exactly one competency of the matching type. */
  lemma ListsConcatenated(fd: Json, fid: string)
    requires !fd.JNull? && !IsArray(Lookup(fd, "kompetenzen")) && !IsArray(Lookup(fd, "competencies"))
    requires !(Present(Lookup(fd, "zielformulierungen")) && IsObjectType(Lookup(fd, "zielformulierungen")))
    requires NestedCompetencies(fd, fid).Ok?
    ensures var f := ListCompetencies(fd, "fertigkeiten", fid, "fertigkeit", "Fertigkeit");
      var k := ListCompetencies(fd, "kenntnisse", fid, "kenntnis", "Kenntnis");
      var c := ContentCompetencies(fd, fid);
      var r := NestedCompetencies(fd, fid).value;
      f.Ok? && k.Ok? && c.Ok? && r == f.value + k.value + c.value
      && (forall j :: 0 <= j < |f.value| ==> Lookup(r[j], "competencyType") == Some(JStr("Fertigkeit")))
      && (forall j :: |f.value| <= j < |f.value| + |k.value| ==> Lookup(r[j], "competencyType") == Some(JStr("Kenntnis")))
      && (forall j :: |f.value| + |k.value| <= j < |r| ==> Lookup(r[j], "competencyType") == Some(JStr("Fachkompetenz")))
  {
    var f := ListCompetencies(fd, "fertigkeiten", fid, "fertigkeit", "Fertigkeit");
    var k := ListCompetencies(fd, "kenntnisse", fid, "kenntnis", "Kenntnis");
    var c := ContentCompetencies(fd, fid);
    assert NestedCompetencies(fd, fid) == ListParts(fd, fid);
    var r := NestedCompetencies(fd, fid).value;
    assert r == f.value + k.value + c.value;
    ListKinds(fd, "fertigkeiten", fid, "fertigkeit", "Fertigkeit");
    ListKinds(fd, "kenntnisse", fid, "kenntnis", "Kenntnis");
    ContentKinds(fd, fid);
    KindsConcatenated(f.value, k.value, c.value);
  }

  /** The types of three concatenated parts, range by range. */
  lemma KindsConcatenated(f: seq<Json>, k: seq<Json>, c: seq<Json>)
    requires forall j :: 0 <= j < |f| ==> Lookup(f[j], "competencyType") == Some(JStr("Fertigkeit"))
    requires forall j :: 0 <= j < |k| ==> Lookup(k[j], "competencyType") == Some(JStr("Kenntnis"))
    requires forall j :: 0 <= j < |c| ==> Lookup(c[j], "competencyType") == Some(JStr("Fachkompetenz"))
    ensures var r := f + k + c;
      && (forall j :: 0 <= j < |f| ==> Lookup(r[j], "competencyType") == Some(JStr("Fertigkeit")))
      && (forall j :: |f| <= j < |f| + |k| ==> Lookup(r[j], "competencyType") == Some(JStr("Kenntnis")))
      && (forall j :: |f| + |k| <= j < |r| ==> Lookup(r[j], "competencyType") == Some(JStr("Fachkompetenz")))
  {
    var r := f + k + c;
    assert forall j :: 0 <= j < |f| ==> r[j] == f[j];
    assert forall j :: |f| <= j < |f| + |k| ==> r[j] == k[j - |f|];
    assert forall j :: |f| + |k| <= j < |r| ==> r[j] == c[j - |f| - |k|];
  }

  /** Every competency of the inhalte part is a Fachkompetenz. */
  lemma ContentKinds(fd: Json, fid: string)
    requires ContentCompetencies(fd, fid).Ok?
    ensures var v := ContentCompetencies(fd, fid).value;
      forall j :: 0 <= j < |v| ==> Lookup(v[j], "competencyType") == Some(JStr("Fachkompetenz"))
  {
    var c := Lookup(fd, "inhalte");
    if Present(c) && IsObjectType(c) {
      var v := ContentCompetencies(fd, fid).value;
      var ms := ForIn(c.value);
      MapResultFacts(ms, ContentStep(fid));
      forall j | 0 <= j < |v| ensures Lookup(v[j], "competencyType") == Some(JStr("Fachkompetenz")) {
        assert v[j] == ContentStep(fid)(ms[j], j).value;
      }
    }
  }

  /** Every competency of a list part has the part's type. */
  lemma ListKinds(fd: Json, key: string, fid: string, tag: string, kind: string)
    requires ListCompetencies(fd, key, fid, tag, kind).Ok?
    ensures var v := ListCompetencies(fd, key, fid, tag, kind).value;
      forall j :: 0 <= j < |v| ==> Lookup(v[j], "competencyType") == Some(JStr(kind))
  {
    var l := Lookup(fd, key);
    if Present(l) && IsArray(l) {
      var v := ListCompetencies(fd, key, fid, tag, kind).value;
      MapResultFacts(l.value.items, ListStep(fid, tag, kind));
      forall j | 0 <= j < |v| ensures Lookup(v[j], "competencyType") == Some(JStr(kind)) {
        assert v[j] == ListStep(fid, tag, kind)(l.value.items[j], j).value;
      }
    }
  }

  // ---------------------------------------------------------- inhalte fields

  /** The standard-shaped record pushed for one `Lernfeld N` member. */
  function InhalteRecord(num: string, fd: Json, comps: seq<Json>): (r: Json)
    ensures Lookup(r, "id") == Some(JStr("lf" + num)) && Lookup(r, "code") == Some(JStr("LF" + num))
    ensures Lookup(r, "kompetenzen") == Some(JArr(comps))
  {
    var r := JObj([("id", JStr("lf" + num)), ("code", JStr("LF" + num)),
          ("titel", Chain([Lookup(fd, "titel"), Lookup(fd, "bezeichnung"), Lookup(fd, "name")], JStr(""))),
          ("beschreibung", Chain([Lookup(fd, "beschreibung"), Lookup(fd, "inhalt")], JStr(""))),
          ("stunden", Chain([Lookup(fd, "zeitrichtwert"), Lookup(fd, "stunden")], JNum(0.0))),
          ("jahr", Chain([Lookup(fd, "ausbildungsjahr"), Lookup(fd, "jahr")], JNum(1.0))),
          ("schwerpunkt", Chain([Lookup(fd, "schwerpunkt"), Lookup(fd, "fokus")], JStr(""))),
          ("kompetenzen", JArr(comps))]);
    FindAt(r.members, "id", 0);
    FindAt(r.members, "code", 1);
    FindAt(r.members, "kompetenzen", 7);
    r
  }

  /** One `Lernfeld N` member; a null member throws when its `titel` is read. */
  function InhalteField(key: string, fd: Json): (r: Result<Json>)
    ensures r.Err? <==> fd.JNull? || NestedCompetencies(fd, "lf" + FieldNumberOf(key)).Err?
    ensures r.Ok? ==> Lookup(r.value, "id") == Some(JStr("lf" + FieldNumberOf(key)))
    ensures r.Ok? ==> Lookup(r.value, "code") == Some(JStr("LF" + FieldNumberOf(key)))
    ensures r.Ok? ==> Lookup(r.value, "kompetenzen") == Some(JArr(NestedCompetencies(fd, "lf" + FieldNumberOf(key)).value))
  {
    if fd.JNull? then Err(ReadOfNull("titel"))
    else
      var num := FieldNumberOf(key);
      var comps :- NestedCompetencies(fd, "lf" + num);
      Ok(InhalteRecord(num, fd, comps))
  }

  function InhalteStep(m: (string, Json), i: nat): Result<Json> {
    InhalteField(m.0, m.1)
  }

  /** The fields found among the members of `rahmenlehrplan.inhalte`. */
  function InhalteFields(inhalte: Json): Result<seq<Json>> {
    MapResult(Filter(ForIn(inhalte), InhalteKey), InhalteStep)
  }

  /** The body of the loop below for one field key. */
  method BuildInhalteField(key: string, fd: Json) returns (r: Result<Json>)
    ensures r == InhalteField(key, fd)
  {
    if fd.JNull? {
      return Err(ReadOfNull("titel"));
    }
    var num := FieldNumberOf(key);
    var comps := ExtractCompetenciesFromNestedField(fd, "lf" + num);
    if comps.Err? {
      return Err(comps.error);
    }
    return Ok(InhalteRecord(num, fd, comps.value));
  }

  /** The `for…in` loop over `inhalte`, pushing one record per field key. */
  method CollectInhalteFields(inhalte: Json) returns (r: Result<seq<Json>>)
    ensures r == InhalteFields(inhalte)
  {
    r := CollectInhalteMembers(ForIn(inhalte));
  }

  /** The same loop over the members it visits. */
  method CollectInhalteMembers(ms: seq<(string, Json)>) returns (r: Result<seq<Json>>)
    ensures r == MapResult(Filter(ms, InhalteKey), InhalteStep)
  {
    var fields: seq<Json> := [];
    var i := 0;
    assert Filter(ms[..0], InhalteKey) == [];
    while i < |ms|
      invariant 0 <= i <= |ms|
      invariant MapResult(Filter(ms[..i], InhalteKey), InhalteStep) == Ok(fields)
    {
      var next := VisitInhalteMember(ms, i, fields);
      if next.Err? {
        FilterMapStops(ms, i + 1, InhalteKey, InhalteStep);
        return next;
      }
      fields := next.value;
      i := i + 1;
    }
    assert ms[..i] == ms;
    return Ok(fields);
  }

  /** One pass of that loop: a field key pushes its record (or throws),
      any other member is skipped. */
  method VisitInhalteMember(ms: seq<(string, Json)>, i: nat, fields: seq<Json>) returns (next: Result<seq<Json>>)
    requires i < |ms| && MapResult(Filter(ms[..i], InhalteKey), InhalteStep) == Ok(fields)
    ensures next == MapResult(Filter(ms[..i + 1], InhalteKey), InhalteStep)
  {
    if IsLernfeldKey(ms[i].0) {
      FilterMapPush(ms, i, InhalteKey, InhalteStep, fields);
      var field := BuildInhalteField(ms[i].0, ms[i].1);
      assert field == InhalteStep(ms[i], |fields|);
      if field.Err? {
        return Err(field.error);
      }
      return Ok(fields + [field.value]);
    } else {
      FilterMapSkip(ms, i, InhalteKey, InhalteStep, fields);
      return Ok(fields);
    }
  }

  /** Only field keys become fields, one per key in member order, with id
      `lf{n}` and code `LF{n}` for the digits n that end the key. */
  lemma InhalteFieldIds(inhalte: Json)
    requires InhalteFields(inhalte).Ok?
    ensures var ks := Filter(ForIn(inhalte), InhalteKey);
      var fs := InhalteFields(inhalte).value;
      |fs| == |ks|
      && forall j :: 0 <= j < |ks| ==>
        IsLernfeldKey(ks[j].0)
        && Lookup(fs[j], "id") == Some(JStr("lf" + KeyDigits(ks[j].0)))
        && Lookup(fs[j], "code") == Some(JStr("LF" + KeyDigits(ks[j].0)))
  {
    var ks := Filter(ForIn(inhalte), InhalteKey);
    var fs := InhalteFields(inhalte).value;
    MapResultFacts(ks, InhalteStep);
    forall j | 0 <= j < |ks|
      ensures Lookup(fs[j], "id") == Some(JStr("lf" + KeyDigits(ks[j].0)))
      ensures Lookup(fs[j], "code") == Some(JStr("LF" + KeyDigits(ks[j].0)))
    {
      assert InhalteKey(ks[j]);
      InhalteFieldId(ks[j].0, ks[j].1);
      assert fs[j] == InhalteStep(ks[j], j).value;
    }
  }

  lemma InhalteFieldId(key: string, fd: Json)
    requires IsLernfeldKey(key) && InhalteField(key, fd).Ok?
    ensures Lookup(InhalteField(key, fd).value, "id") == Some(JStr("lf" + KeyDigits(key)))
    ensures Lookup(InhalteField(key, fd).value, "code") == Some(JStr("LF" + KeyDigits(key)))
  {
    FieldNumberOfKey(key);
  }

  // ------------------------------------------------------------------ fields

  /** The list the nested parser settles on, tried in a fixed order by truthiness. */
  function NestedSource(root: Json): Result<Json> {
    var c := Lookup(root, "curriculum");
    var rl := Lookup(root, "rahmenlehrplan");
    if Present(Get(c, "learningFields")) then Ok(Get(c, "learningFields").value)
    else if Present(Get(c, "lernfelder")) then Ok(Get(c, "lernfelder").value)
    else if Present(Get(rl, "lernfelder")) then Ok(Get(rl, "lernfelder").value)
    else if Present(Get(rl, "inhalte")) then
      var fs :- InhalteFields(Get(rl, "inhalte").value);
      Ok(JArr(fs))
    else Ok(JArr([]))
  }

  /** parseNestedFormat as a function of the document: no fields unless the
      source is a non-empty array, which is parsed as `{ learningFields: … }`. */
  function NestedFormat(root: Json, ids: IdSupply): Result<(seq<LearningField>, IdSupply)> {
    var src :- NestedSource(root);
    if !src.JArr? || |src.items| == 0 then Ok(([], ids))
    else ParseStandardFormat(Wrap(src.items), ids)
  }

  method ParseNestedFormat(root: Json, ids: IdSupply) returns (r: Result<(seq<LearningField>, IdSupply)>)
    ensures r == NestedFormat(root, ids)
  {
    var c := Lookup(root, "curriculum");
    var rl := Lookup(root, "rahmenlehrplan");
    var lernfelder := JArr([]);
    if Present(Get(c, "learningFields")) {
      lernfelder := Get(c, "learningFields").value;
    } else if Present(Get(c, "lernfelder")) {
      lernfelder := Get(c, "lernfelder").value;
    } else if Present(Get(rl, "lernfelder")) {
      lernfelder := Get(rl, "lernfelder").value;
    } else if Present(Get(rl, "inhalte")) {
      var fs := CollectInhalteFields(Get(rl, "inhalte").value);
      if fs.Err? {
        return Err(fs.error);
      }
      lernfelder := JArr(fs.value);
    }
    if !lernfelder.JArr? || |lernfelder.items| == 0 {
      return Ok(([], ids));
    }
    return ParseStandardFormat(Wrap(lernfelder.items), ids);
  }

  /** A non-empty source array gives one field per entry, made from that entry
      by the standard field parser, each holding competencies whose parentId
      is its id; anything else gives no fields. */
  lemma NestedFields(root: Json, ids: IdSupply)
    requires NestedFormat(root, ids).Ok? && NestedSource(root).Ok?
    ensures var src := NestedSource(root).value; var fs := NestedFormat(root, ids).value.0;
      && (src.JArr? ==> |fs| == |src.items|)
      && (!src.JArr? ==> fs == [])
      && (forall i :: 0 <= i < |fs| ==> ParentsSet(fs[i]))
      && (src.JArr? ==> forall i :: 0 <= i < |fs| ==>
            (FieldFrom(src.items[i], i, fs[i])
             && fs[i] == StandardFieldBase(src.items[i], i, FieldId(src.items[i], i)).(competencies := fs[i].competencies)))
  {
    var src := NestedSource(root).value;
    if src.JArr? && |src.items| > 0 {
      WrapSource(src.items);
      StandardFormatFields(Wrap(src.items), ids);
    }
  }
}
