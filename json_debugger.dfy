/** The diagnostics the JSON debugger view computes from a raw document
    (src/JsonDebugger.tsx): which dialect shapes the top-level keys suggest,
    where the learning fields sit, where the profession attributes were found,
    and a depth-limited summary of the document's structure. */
module JsonDebugger {
  import opened JsValue
  import opened Collections
  import opened CurriculumTypes
  import opened SchemaDetection
  import opened Envelope
  import NestedParser

  // ------------------------------------------------------- structure checks

  /** `Object.keys(jsonData)`. */
  function TopLevelKeys(root: Json): (r: seq<string>)
    ensures |r| == |ForIn(root)| && forall i :: 0 <= i < |r| ==> r[i] == ForIn(root)[i].0
  {
    seq(|ForIn(root)|, i requires 0 <= i < |ForIn(root)| => ForIn(root)[i].0)
  }

  datatype Structure = Structure(name: string, keys: seq<string>, found: bool)

  datatype StructureAnalysis = StructureAnalysis(
    topLevelKeys: seq<string>,
    possibleStructures: seq<Structure>,
    detectedStructures: seq<Structure>,
    isProbablyValid: bool)

  /** A top-level key names the standard dialect. */
  predicate StandardKeys(root: Json) {
    "learningFields" in TopLevelKeys(root) || "lernfelder" in TopLevelKeys(root)
  }

  /** A top-level key names the Anlagenmechaniker dialect. */
  predicate AnlagenmechanikerKeys(root: Json) {
    "lernfeld_ausbildungsteil" in TopLevelKeys(root)
    || ("document_data" in TopLevelKeys(root) && Present(PathGet(root, ["document_data", "lernfeld_ausbildungsteil"])))
  }

  /** A top-level `curriculum` or `rahmenlehrplan` key with truthy fields below it. */
  predicate NestedKeys(root: Json) {
    ("curriculum" in TopLevelKeys(root)
      && (Present(PathGet(root, ["curriculum", "learningFields"])) || Present(PathGet(root, ["curriculum", "lernfelder"]))))
    || ("rahmenlehrplan" in TopLevelKeys(root)
      && (Present(PathGet(root, ["rahmenlehrplan", "lernfelder"])) || Present(PathGet(root, ["rahmenlehrplan", "inhalte"]))))
  }

  predicate IsFound(s: Structure) { s.found }

  /** analyzeJsonStructure: the three checks in a fixed order, the ones that
      matched, and whether any did. */
  function AnalyzeJsonStructure(root: Json): (r: StructureAnalysis)
    ensures r.isProbablyValid <==> StandardKeys(root) || AnlagenmechanikerKeys(root) || NestedKeys(root)
    ensures r.detectedStructures == Filter(r.possibleStructures, IsFound)
    ensures |r.possibleStructures| == 3 && r.topLevelKeys == TopLevelKeys(root)
  {
    var possible := [
      Structure("Standard-Format", ["learningFields", "lernfelder"], StandardKeys(root)),
      Structure("Anlagenmechaniker-Format", ["lernfeld_ausbildungsteil", "document_data"], AnlagenmechanikerKeys(root)),
      Structure("Verschachtelt-Format", ["curriculum", "rahmenlehrplan"], NestedKeys(root))];
    var detected := Filter(possible, IsFound);
    assert possible == [possible[0]] + [possible[1]] + [possible[2]];
    FilterConcat([possible[0]] + [possible[1]], [possible[2]], IsFound);
    FilterConcat([possible[0]], [possible[1]], IsFound);
    StructureAnalysis(TopLevelKeys(root), possible, detected, |detected| > 0)
  }

  /** Every key the parser reads is a top-level key. */
  lemma LookupIsKey(root: Json, k: string)
    requires Lookup(root, k).Some?
    ensures k in TopLevelKeys(root)
  {
    var i :| 0 <= i < |root.members| && root.members[i] == (k, Lookup(root, k).value);
    assert TopLevelKeys(root)[i] == k;
  }

  /** `o?.a?.b` is the two-segment path. */
  lemma PathGetTwo(v: Json, a: string, b: string)
    ensures PathGet(v, [a, b]) == Get(Lookup(v, a), b)
  {
    assert [a, b][1..] == [b];
    if Lookup(v, a).Some? {
      PathGetOne(Lookup(v, a).value, b);
    }
  }

  /** A document the parser recognises is also reported as probably valid. */
  lemma RecognisedIsProbablyValid(root: Json)
    requires DetectSchemaType(root) != Unknown
    ensures AnalyzeJsonStructure(root).isProbablyValid
  {
    if IsArray(Lookup(root, "lernfeld_ausbildungsteil")) {
      LookupIsKey(root, "lernfeld_ausbildungsteil");
      assert AnlagenmechanikerKeys(root);
    } else if Present(Lookup(root, "document_data")) && Present(Get(Lookup(root, "document_data"), "lernfeld_ausbildungsteil")) {
      LookupIsKey(root, "document_data");
      PathGetTwo(root, "document_data", "lernfeld_ausbildungsteil");
      assert AnlagenmechanikerKeys(root);
    } else if IsArray(Lookup(root, "learningFields")) {
      LookupIsKey(root, "learningFields");
      assert StandardKeys(root);
    } else if IsArray(Lookup(root, "lernfelder")) {
      LookupIsKey(root, "lernfelder");
      assert StandardKeys(root);
    } else if Present(Lookup(root, "curriculum")) && (Present(Get(Lookup(root, "curriculum"), "learningFields")) || Present(Get(Lookup(root, "curriculum"), "lernfelder"))) {
      LookupIsKey(root, "curriculum");
      PathGetTwo(root, "curriculum", "learningFields");
      PathGetTwo(root, "curriculum", "lernfelder");
      assert NestedKeys(root);
    } else {
      assert NestedShape(root);
      LookupIsKey(root, "rahmenlehrplan");
      PathGetTwo(root, "rahmenlehrplan", "lernfelder");
      PathGetTwo(root, "rahmenlehrplan", "inhalte");
      assert NestedKeys(root);
    }
  }

  /** The converse fails: a `learningFields` key holding a string is reported as
      probably valid, while the parser leaves the document Unknown. */
  lemma ValidButUnknown()
    ensures var root := JObj([("learningFields", JStr("LF1"))]);
      AnalyzeJsonStructure(root).isProbablyValid && DetectSchemaType(root) == Unknown
  {
    var root := JObj([("learningFields", JStr("LF1"))]);
    assert TopLevelKeys(root)[0] == "learningFields";
    NonArrayLearningFieldsUnknown();
  }

  // -------------------------------------------------- learning-field location

  datatype FieldsLocation = FieldsLocation(location: string, fields: Json)

  /** The eight locations, in the order they are tried. */
  const LocationPaths: seq<seq<string>> := [
    ["learningFields"], ["lernfelder"], ["lernfeld_ausbildungsteil"],
    ["document_data", "lernfeld_ausbildungsteil"], ["curriculum", "learningFields"], ["curriculum", "lernfelder"],
    ["rahmenlehrplan", "lernfelder"], ["rahmenlehrplan", "inhalte"]]

  /** The name each location is reported under: its path, dotted. */
  const LocationNames: seq<string> := [
    "learningFields", "lernfelder", "lernfeld_ausbildungsteil",
    "document_data.lernfeld_ausbildungsteil", "curriculum.learningFields", "curriculum.lernfelder",
    "rahmenlehrplan.lernfelder", "rahmenlehrplan.inhalte"]

  /** `{ ...value, _key: key }` */
  function WithKey(m: (string, Json)): (r: Json)
    ensures r.JObj? && Lookup(r, "_key") == Some(JStr(m.0))
    ensures forall k :: k != "_key" ==> Lookup(r, k) == Find(ForIn(m.1), k)
  {
    Assign(JObj(ForIn(m.1)), "_key", JStr(m.0))
  }

  function Tagged(ms: seq<(string, Json)>): (r: seq<Json>)
    ensures |r| == |ms| && forall i :: 0 <= i < |ms| ==> r[i] == WithKey(ms[i])
  {
    seq(|ms|, i requires 0 <= i < |ms| => WithKey(ms[i]))
  }

  /** The copies the `for…in` loop over `inhalte` pushes: one per key matching
      `/^lernfeld\s*\d+$/i`, in key order. */
  function LernfeldEntries(inhalte: Json): seq<Json> {
    Tagged(Filter(ForIn(inhalte), NestedParser.InhalteKey))
  }

  /** Location i holds learning fields. The first three must be arrays, the next
      four only truthy, and `inhalte` must have a matching key. */
  predicate Matches(root: Json, i: nat)
    requires i < |LocationPaths|
  {
    var v := PathGet(root, LocationPaths[i]);
    if i < 3 then IsArray(v)
    else if i < 7 then Present(v)
    else Present(v) && |LernfeldEntries(v.value)| > 0
  }

  /** What is reported for location i. */
  function Found(root: Json, i: nat): FieldsLocation
    requires i < |LocationPaths| && Matches(root, i)
  {
    var v := PathGet(root, LocationPaths[i]).value;
    FieldsLocation(LocationNames[i], if i < 7 then v else JArr(LernfeldEntries(v)))
  }

  /** The first location from i on that holds learning fields. */
  function FirstLocation(root: Json, i: nat): Option<FieldsLocation>
    requires i <= |LocationPaths|
    decreases |LocationPaths| - i
  {
    if i == |LocationPaths| then None
    else if Matches(root, i) then Some(Found(root, i))
    else FirstLocation(root, i + 1)
  }

  /** Nothing is found exactly when no location from i on matches; otherwise
      what is found is the report for the first location that does. */
  lemma {:induction false} FirstLocationFacts(root: Json, i: nat)
    requires i <= |LocationPaths|
    ensures FirstLocation(root, i).None? <==> forall j :: i <= j < |LocationPaths| ==> !Matches(root, j)
    ensures FirstLocation(root, i).Some? ==>
      exists j :: i <= j < |LocationPaths| && Matches(root, j) && FirstLocation(root, i).value == Found(root, j)
                  && forall k :: i <= k < j ==> !Matches(root, k)
    decreases |LocationPaths| - i
  {
    if i < |LocationPaths| && !Matches(root, i) {
      FirstLocationFacts(root, i + 1);
      if FirstLocation(root, i + 1).Some? {
        var j :| i + 1 <= j < |LocationPaths| && Matches(root, j) && FirstLocation(root, i + 1).value == Found(root, j)
                  && forall k :: i + 1 <= k < j ==> !Matches(root, k);
        assert forall k :: i <= k < j ==> !Matches(root, k);
      }
    }
  }

  /** `o.key` is the one-segment path. */
  lemma PathGetOne(v: Json, key: string)
    ensures PathGet(v, [key]) == Lookup(v, key)
  {
    assert [key][1..] == [];
  }

  /** analyzeLearningFields. */
  method AnalyzeLearningFields(root: Json) returns (r: Option<FieldsLocation>)
    ensures r == FirstLocation(root, 0)
  {
    PathGetOne(root, "learningFields");
    PathGetOne(root, "lernfelder");
    PathGetOne(root, "lernfeld_ausbildungsteil");
    if IsArray(Lookup(root, "learningFields")) {
      assert Matches(root, 0);
      r := Some(FieldsLocation("learningFields", Lookup(root, "learningFields").value));
    } else if IsArray(Lookup(root, "lernfelder")) {
      assert !Matches(root, 0) && Matches(root, 1);
      r := Some(FieldsLocation("lernfelder", Lookup(root, "lernfelder").value));
    } else if IsArray(Lookup(root, "lernfeld_ausbildungsteil")) {
      assert !Matches(root, 0) && !Matches(root, 1) && Matches(root, 2);
      r := Some(FieldsLocation("lernfeld_ausbildungsteil", Lookup(root, "lernfeld_ausbildungsteil").value));
    } else {
      assert !Matches(root, 0) && !Matches(root, 1) && !Matches(root, 2);
      r := AnalyzeNestedLocations(root);
    }
  }

  /** The five locations below a top-level record. */
  method AnalyzeNestedLocations(root: Json) returns (r: Option<FieldsLocation>)
    requires !Matches(root, 0) && !Matches(root, 1) && !Matches(root, 2)
    ensures r == FirstLocation(root, 3)
  {
    var paths := LocationPaths;
    if Present(PathGet(root, paths[3])) {
      assert Matches(root, 3);
      r := Some(FieldsLocation("document_data.lernfeld_ausbildungsteil", PathGet(root, paths[3]).value));
    } else if Present(PathGet(root, paths[4])) {
      assert !Matches(root, 3) && Matches(root, 4);
      r := Some(FieldsLocation("curriculum.learningFields", PathGet(root, paths[4]).value));
    } else if Present(PathGet(root, paths[5])) {
      assert !Matches(root, 3) && !Matches(root, 4) && Matches(root, 5);
      r := Some(FieldsLocation("curriculum.lernfelder", PathGet(root, paths[5]).value));
    } else if Present(PathGet(root, paths[6])) {
      assert !Matches(root, 3) && !Matches(root, 4) && !Matches(root, 5) && Matches(root, 6);
      r := Some(FieldsLocation("rahmenlehrplan.lernfelder", PathGet(root, paths[6]).value));
    } else {
      assert !Matches(root, 3) && !Matches(root, 4) && !Matches(root, 5) && !Matches(root, 6);
      if Present(PathGet(root, paths[7])) {
        var fields := CollectLernfeldEntries(PathGet(root, paths[7]).value);
        r := if |fields| > 0 then Some(FieldsLocation("rahmenlehrplan.inhalte", JArr(fields))) else None;
      } else {
        r := None;
      }
    }
  }

  /** The `for…in` loop over `inhalte`. */
  method CollectLernfeldEntries(inhalte: Json) returns (fields: seq<Json>)
    ensures fields == LernfeldEntries(inhalte)
  {
    var ms := ForIn(inhalte);
    fields := [];
    var i := 0;
    while i < |ms|
      invariant 0 <= i <= |ms|
      invariant fields == Tagged(Filter(ms[..i], NestedParser.InhalteKey))
    {
      TaggedStep(ms, i);
      if NestedParser.IsLernfeldKey(ms[i].0) {
        fields := fields + [WithKey(ms[i])];
      }
      i := i + 1;
    }
    assert ms[..i] == ms;
  }

  /** One more visited member adds its copy exactly when its key matches. */
  lemma TaggedStep(ms: seq<(string, Json)>, i: nat)
    requires i < |ms|
    ensures Tagged(Filter(ms[..i + 1], NestedParser.InhalteKey))
         == Tagged(Filter(ms[..i], NestedParser.InhalteKey)) + (if NestedParser.InhalteKey(ms[i]) then [WithKey(ms[i])] else [])
  {
    assert ms[..i + 1] == ms[..i] + [ms[i]];
    FilterSnoc(ms[..i], ms[i], NestedParser.InhalteKey);
    var kept := Filter(ms[..i], NestedParser.InhalteKey);
    if NestedParser.InhalteKey(ms[i]) {
      assert Tagged(kept + [ms[i]]) == Tagged(kept) + [WithKey(ms[i])];
    }
  }

  /** Each `inhalte` entry is the copy of the value under a matching key, with
      `_key` naming that key and every other member unchanged. */
  lemma LernfeldEntriesKeys(inhalte: Json, i: nat)
    requires i < |LernfeldEntries(inhalte)|
    ensures exists j :: (0 <= j < |ForIn(inhalte)| && NestedParser.IsLernfeldKey(ForIn(inhalte)[j].0)
                         && Lookup(LernfeldEntries(inhalte)[i], "_key") == Some(JStr(ForIn(inhalte)[j].0))
                         && forall k :: k != "_key" ==> Lookup(LernfeldEntries(inhalte)[i], k) == Find(ForIn(ForIn(inhalte)[j].1), k))
  {
    var kept := Filter(ForIn(inhalte), NestedParser.InhalteKey);
    var m := kept[i];
    assert NestedParser.InhalteKey(m);
    FilterMembers(ForIn(inhalte), NestedParser.InhalteKey, m);
    var j :| 0 <= j < |ForIn(inhalte)| && ForIn(inhalte)[j] == m;
    assert LernfeldEntries(inhalte)[i] == WithKey(m);
  }

  // ---------------------------------------------------------- profession data

  const ProfessionTitleAt: seq<seq<string>> :=
    [["beruf"], ["profession", "title"], ["profession", "name"], ["beruf", "bezeichnung"],
     ["ausbildungsberuf", "bezeichnung"], ["rahmenlehrplan", "beruf", "bezeichnung"], ["document_data", "beruf"]]
  const ProfessionCodeAt: seq<seq<string>> :=
    [["beruf_code"], ["profession", "code"], ["beruf", "kennziffer"], ["ausbildungsberuf", "kennung"]]
  const ProfessionDescriptionAt: seq<seq<string>> :=
    [["berufsbeschreibung"], ["profession", "description"], ["beruf", "beschreibung"]]

  datatype ProfessionData = ProfessionData(title: Option<Json>, code: Option<Json>, description: Option<Json>, foundAt: seq<string>)

  /** The index of the first truthy location of the list from position i on, if any. */
  function LocateFrom(root: Json, paths: seq<seq<string>>, i: nat): (r: Option<nat>)
    requires i <= |paths|
    ensures r.None? <==> forall j :: i <= j < |paths| ==> !Present(PathGet(root, paths[j]))
    ensures r.Some? ==> i <= r.value < |paths| && Present(PathGet(root, paths[r.value]))
                        && forall j :: i <= j < r.value ==> !Present(PathGet(root, paths[j]))
    decreases |paths| - i
  {
    if i == |paths| then None
    else if Present(PathGet(root, paths[i])) then Some(i)
    else LocateFrom(root, paths, i + 1)
  }

  /** The index of the first truthy location of the list, if any. */
  function Locate(root: Json, paths: seq<seq<string>>): (r: Option<nat>)
    ensures r.None? <==> forall i :: 0 <= i < |paths| ==> !Present(PathGet(root, paths[i]))
    ensures r.Some? ==> FirstTruthyPath(root, paths, r.value)
  {
    LocateFrom(root, paths, 0)
  }

  /** The value found at the first truthy location (null when there is none). */
  function ValueAt(root: Json, paths: seq<seq<string>>): Option<Json> {
    var at := Locate(root, paths);
    if at.Some? then PathGet(root, paths[at.value]) else None
  }

  /** The dotted name of the first truthy location, as a list of zero or one names. */
  function NameAt(root: Json, paths: seq<seq<string>>): (r: seq<string>)
    ensures |r| <= 1
  {
    var at := Locate(root, paths);
    if at.Some? then [Join(paths[at.value], ".")] else []
  }

  /** One `if … else if …` chain: the value at the first truthy location and
      its name, pushed onto the list of locations found. */
  method Probe(root: Json, paths: seq<seq<string>>, foundAt: seq<string>) returns (value: Option<Json>, found: seq<string>)
    ensures value == ValueAt(root, paths) && found == foundAt + NameAt(root, paths)
  {
    var at := Locate(root, paths);
    value := None;
    found := foundAt;
    if at.Some? {
      value := PathGet(root, paths[at.value]);
      found := found + [Join(paths[at.value], ".")];
    }
  }

  /** analyzeProfessionData: one location at most per attribute, recorded in
      the order title, code, description. */
  method AnalyzeProfessionData(root: Json) returns (p: ProfessionData)
    ensures p.title == ValueAt(root, ProfessionTitleAt)
    ensures p.code == ValueAt(root, ProfessionCodeAt)
    ensures p.description == ValueAt(root, ProfessionDescriptionAt)
    ensures p.foundAt == NameAt(root, ProfessionTitleAt) + NameAt(root, ProfessionCodeAt) + NameAt(root, ProfessionDescriptionAt)
    ensures |p.foundAt| <= 3
  {
    var title, foundAt := Probe(root, ProfessionTitleAt, []);
    assert foundAt == NameAt(root, ProfessionTitleAt);
    var code, foundAt' := Probe(root, ProfessionCodeAt, foundAt);
    var description, foundAt'' := Probe(root, ProfessionDescriptionAt, foundAt');
    p := ProfessionData(title, code, description, foundAt'');
  }

  /** A truthy `beruf` decides the title, so `beruf.bezeichnung` (the fourth
      location) never does. */
  lemma BerufShadowsBezeichnung(root: Json)
    ensures Locate(root, ProfessionTitleAt) != Some(3)
  {
    if Locate(root, ProfessionTitleAt) == Some(3) {
      assert FirstTruthyPath(root, ProfessionTitleAt, 3);
      assert !Present(PathGet(root, ProfessionTitleAt[0])) && Present(PathGet(root, ProfessionTitleAt[3]));
      PathGetOne(root, "beruf");
      assert ["beruf", "bezeichnung"][1..] == ["bezeichnung"];
      match Lookup(root, "beruf")
      case None =>
      case Some(b) =>
        PathGetOne(b, "bezeichnung");
    }
  }

  // -------------------------------------------------------- structure summary

  /** A summary: a text, a list, or a record of summaries. */
  datatype Shape = Text(text: string) | List(elems: seq<Shape>) | Record(entries: seq<(string, Shape)>)

  /** `typeof v`. */
  function TypeOf(v: Json): string {
    match v
    case JNull => "object"
    case JBool(_) => "boolean"
    case JNum(_) => "number"
    case JNaN => "number"
    case JStr(_) => "string"
    case _ => "object"
  }

  /** The members of an object that are summarised: the first ten. */
  function Shown(n: nat): (k: nat)
    ensures k <= n && k <= 10 && (n <= 10 ==> k == n) && (n > 10 ==> k == 10)
  {
    if n < 10 then n else 10
  }

  /** The entry recording how many members were left out. */
  function MoreEntry(n: nat): seq<(string, Shape)> {
    if n > 10 then [("... (" + NatText(n - 10) + " more)", Text("..."))] else []
  }

  /** mapObjectStructure(v, maxDepth, depth). */
  function StructureOf(v: Json, maxDepth: int, depth: int): Shape
    decreases v
  {
    if depth >= maxDepth then
      match v
      case JArr(xs) => Text("Array(" + NatText(|xs|) + ")")
      case JObj(ms) => Text("Object{" + Join(seq(|ms|, i requires 0 <= i < |ms| => ms[i].0), ", ") + "}")
      case _ => Text(TypeOf(v))
    else
      match v
      case JArr(xs) =>
        if |xs| == 0 then Text("[]")
        else List([StructureOf(xs[0], maxDepth, depth + 1), Text("... (" + NatText(|xs|) + " items)")])
      case JObj(ms) =>
        Record(seq(Shown(|ms|), i requires 0 <= i < Shown(|ms|) => (ms[i].0, StructureOf(ms[i].1, maxDepth, depth + 1)))
               + MoreEntry(|ms|))
      case _ => Text(TypeOf(v))
  }

  /** At the cutoff a value is described by one text: `Array(n)` for an array,
      `Object{k1, k2, …}` for an object, its type name otherwise. */
  lemma CutoffSummary(v: Json, maxDepth: int, depth: int)
    requires depth >= maxDepth
    ensures StructureOf(v, maxDepth, depth).Text?
    ensures Nesting(StructureOf(v, maxDepth, depth)) == 0
    ensures v.JArr? ==> StructureOf(v, maxDepth, depth) == Text("Array(" + NatText(|v.items|) + ")")
    ensures v.JObj? ==> StructureOf(v, maxDepth, depth).text == "Object{" + Join(seq(|v.members|, i requires 0 <= i < |v.members| => v.members[i].0), ", ") + "}"
    ensures !v.JArr? && !v.JObj? ==> StructureOf(v, maxDepth, depth) == Text(TypeOf(v))
  {
  }

  /** Below the cutoff an empty array is `"[]"` and any other array the
      summary of its first element followed by the item count. */
  lemma ArraySummary(xs: seq<Json>, maxDepth: int, depth: int)
    requires depth < maxDepth
    ensures |xs| == 0 ==> StructureOf(JArr(xs), maxDepth, depth) == Text("[]")
    ensures |xs| > 0 ==> (StructureOf(JArr(xs), maxDepth, depth)
      == List([StructureOf(xs[0], maxDepth, depth + 1), Text("... (" + NatText(|xs|) + " items)")]))
  {
  }

  /** The recursive summariser; an object's summary is filled key by key. */
  method MapObjectStructure(v: Json, maxDepth: int, depth: int) returns (s: Shape)
    ensures s == StructureOf(v, maxDepth, depth)
    decreases v, 1
  {
    if depth >= maxDepth {
      match v
      case JArr(xs) => s := Text("Array(" + NatText(|xs|) + ")");
      case JObj(ms) => s := Text("Object{" + Join(seq(|ms|, i requires 0 <= i < |ms| => ms[i].0), ", ") + "}");
      case _ => s := Text(TypeOf(v));
    } else {
      match v
      case JArr(xs) =>
        if |xs| == 0 {
          s := Text("[]");
        } else {
          var first := MapObjectStructure(xs[0], maxDepth, depth + 1);
          s := List([first, Text("... (" + NatText(|xs|) + " items)")]);
        }
      case JObj(ms) =>
        var entries := SummariseMembers(v, ms, maxDepth, depth + 1);
        s := Record(entries + MoreEntry(|ms|));
      case _ => s := Text(TypeOf(v));
    }
  }

  /** The `forEach` over the first ten keys. */
  method SummariseMembers(ghost parent: Json, ms: seq<(string, Json)>, maxDepth: int, depth: int)
    returns (entries: seq<(string, Shape)>)
    requires parent == JObj(ms)
    ensures entries == seq(Shown(|ms|), i requires 0 <= i < Shown(|ms|) => (ms[i].0, StructureOf(ms[i].1, maxDepth, depth)))
    decreases parent, 0
  {
    ghost var want := seq(Shown(|ms|), i requires 0 <= i < Shown(|ms|) => (ms[i].0, StructureOf(ms[i].1, maxDepth, depth)));
    entries := [];
    var i := 0;
    while i < Shown(|ms|)
      invariant 0 <= i <= Shown(|ms|)
      invariant entries == want[..i]
    {
      var sub := MapObjectStructure(ms[i].1, maxDepth, depth);
      assert want[..i + 1] == want[..i] + [(ms[i].0, sub)];
      entries := entries + [(ms[i].0, sub)];
      i := i + 1;
    }
    assert want[..i] == want;
  }

  /** The largest of the numbers, 0 for none. */
  function MaxOf(s: seq<nat>): nat {
    if |s| == 0 then 0
    else
      var rest := MaxOf(s[1..]);
      if s[0] >= rest then s[0] else rest
  }

  /** MaxOf bounds every number and, for a non-empty list, is one of them. */
  lemma {:induction false} MaxOfFacts(s: seq<nat>)
    ensures forall i :: 0 <= i < |s| ==> s[i] <= MaxOf(s)
    ensures |s| == 0 ==> MaxOf(s) == 0
    ensures |s| > 0 ==> exists i :: 0 <= i < |s| && s[i] == MaxOf(s)
  {
    if |s| > 0 {
      MaxOfFacts(s[1..]);
      assert forall i :: 1 <= i < |s| ==> s[i] == s[1..][i - 1];
      if s[0] < MaxOf(s[1..]) {
        var k :| 0 <= k < |s[1..]| && s[1..][k] == MaxOf(s[1..]);
        assert s[k + 1] == MaxOf(s);
      }
    }
  }

  /** How deeply a summary nests lists and records. */
  function Nesting(s: Shape): nat
    decreases s
  {
    match s
    case Text(_) => 0
    case List(es) => 1 + MaxOf(seq(|es|, i requires 0 <= i < |es| => Nesting(es[i])))
    case Record(ms) => 1 + MaxOf(seq(|ms|, i requires 0 <= i < |ms| => Nesting(ms[i].1)))
  }

  lemma MaxOfAtMost(s: seq<nat>, b: int)
    requires b >= 0 && forall i :: 0 <= i < |s| ==> s[i] <= b
    ensures MaxOf(s) <= b
  {
    MaxOfFacts(s);
    if |s| > 0 {
      var k :| 0 <= k < |s| && s[k] == MaxOf(s);
    }
  }

  /** Every recursive call goes one level deeper, so the summary nests at most
      maxDepth - depth levels (two with the defaults). */
  lemma {:induction false} NestingBound(v: Json, maxDepth: int, depth: int)
    requires depth <= maxDepth
    ensures Nesting(StructureOf(v, maxDepth, depth)) <= maxDepth - depth
    decreases v, 1
  {
    if depth < maxDepth && v.JObj? {
      MembersNesting(v, v.members, maxDepth, depth + 1);
      ObjectNesting(v, maxDepth, depth);
    } else if depth < maxDepth && v.JArr? && |v.items| > 0 {
      NestingBound(v.items[0], maxDepth, depth + 1);
      ArrayNesting(v, maxDepth, depth);
    } else {
      TextNesting(v, maxDepth, depth);
    }
  }

  /** At the cutoff, for a scalar and for the empty array the summary is a text. */
  lemma TextNesting(v: Json, maxDepth: int, depth: int)
    requires depth >= maxDepth || !(v.JArr? || v.JObj?) || v == JArr([])
    ensures Nesting(StructureOf(v, maxDepth, depth)) == 0
  {
    assert StructureOf(v, maxDepth, depth).Text?;
  }

  /** The bound for each summarised member of an object. */
  lemma MembersNesting(parent: Json, ms: seq<(string, Json)>, maxDepth: int, depth: int)
    requires parent == JObj(ms) && depth <= maxDepth
    ensures forall i :: 0 <= i < Shown(|ms|) ==> Nesting(StructureOf(ms[i].1, maxDepth, depth)) <= maxDepth - depth
    decreases parent, 0
  {
    forall i | 0 <= i < Shown(|ms|)
      ensures Nesting(StructureOf(ms[i].1, maxDepth, depth)) <= maxDepth - depth
    {
      NestingBound(ms[i].1, maxDepth, depth);
    }
  }

  lemma ArrayNesting(v: Json, maxDepth: int, depth: int)
    requires depth < maxDepth && v.JArr? && |v.items| > 0
    requires Nesting(StructureOf(v.items[0], maxDepth, depth + 1)) <= maxDepth - depth - 1
    ensures Nesting(StructureOf(v, maxDepth, depth)) <= maxDepth - depth
  {
    var xs := v.items;
    var es := [StructureOf(xs[0], maxDepth, depth + 1), Text("... (" + NatText(|xs|) + " items)")];
    assert StructureOf(v, maxDepth, depth) == List(es);
    var ns := seq(|es|, i requires 0 <= i < |es| => Nesting(es[i]));
    MaxOfAtMost(ns, maxDepth - depth - 1);
  }

  lemma ObjectNesting(v: Json, maxDepth: int, depth: int)
    requires depth < maxDepth && v.JObj?
    requires forall i :: 0 <= i < Shown(|v.members|) ==> Nesting(StructureOf(v.members[i].1, maxDepth, depth + 1)) <= maxDepth - depth - 1
    ensures Nesting(StructureOf(v, maxDepth, depth)) <= maxDepth - depth
  {
    var ms := v.members;
    var shown := seq(Shown(|ms|), i requires 0 <= i < Shown(|ms|) => (ms[i].0, StructureOf(ms[i].1, maxDepth, depth + 1)));
    var entries := shown + MoreEntry(|ms|);
    assert StructureOf(v, maxDepth, depth) == Record(entries);
    var ns := seq(|entries|, i requires 0 <= i < |entries| => Nesting(entries[i].1));
    forall i | 0 <= i < |entries| ensures ns[i] <= maxDepth - depth - 1 {
      if i < |shown| {
        assert entries[i] == shown[i];
      } else {
        assert entries[i].1 == Text("...");
      }
    }
    MaxOfAtMost(ns, maxDepth - depth - 1);
  }

  /** Below the cutoff an object keeps its first ten keys in order, and gets
      the "more" entry exactly when it has more than ten. */
  lemma ObjectSummaryKeys(ms: seq<(string, Json)>, maxDepth: int, depth: int)
    requires depth < maxDepth
    ensures var s := StructureOf(JObj(ms), maxDepth, depth);
      s.Record?
      && |s.entries| == Shown(|ms|) + (if |ms| > 10 then 1 else 0)
      && (forall i :: 0 <= i < Shown(|ms|) ==> s.entries[i].0 == ms[i].0)
      && (|ms| > 10 ==> s.entries[10] == ("... (" + NatText(|ms| - 10) + " more)", Text("...")))
  {
  }
}
