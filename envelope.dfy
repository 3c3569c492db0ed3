/** The curriculum envelope: identifier, titles, profession, dates and counts,
    each read from the first truthy of a fixed list of synonym locations
    (the extract* functions of src/lib/curriculumParser.ts). */
module Envelope {
  import opened JsValue
  import opened CurriculumTypes

  /** `root?.p1?.p2…` for each path of the list, in order. */
  function Candidates(root: Json, paths: seq<seq<string>>): (r: seq<Option<Json>>)
    ensures |r| == |paths|
    ensures forall i :: 0 <= i < |paths| ==> r[i] == PathGet(root, paths[i])
  {
    seq(|paths|, i requires 0 <= i < |paths| => PathGet(root, paths[i]))
  }

  /** paths[i] is the first path holding a truthy value. */
  predicate FirstTruthyPath(root: Json, paths: seq<seq<string>>, i: int) {
    0 <= i < |paths| && Present(PathGet(root, paths[i]))
    && forall j :: 0 <= j < i ==> !Present(PathGet(root, paths[j]))
  }

  /** The value at the first path that holds a truthy value, else the default. */
  function Extract(root: Json, paths: seq<seq<string>>, fallback: Json): (r: Json)
    ensures (forall i :: 0 <= i < |paths| ==> !Present(PathGet(root, paths[i]))) ==> r == fallback
    ensures forall i :: FirstTruthyPath(root, paths, i) ==> r == PathGet(root, paths[i]).value
  {
    var c := Candidates(root, paths);
    assert forall i :: FirstTruthyPath(root, paths, i) ==> FirstPresent(c, i);
    Chain(c, fallback)
  }

  // The synonym locations, in the order the source tries them.

  const KldbPaths: seq<seq<string>> :=
    [["document_data", "kldb_mapping"], ["kldb_mapping"], ["beruf_code"], ["profession", "code"]]
  const IscoPaths: seq<seq<string>> := [["document_data", "isco_mapping"], ["isco_mapping"]]
  const IdPaths: seq<seq<string>> := [["id"], ["kennung"], ["curriculum", "id"], ["document_data", "id"]]
  const TitlePaths: seq<seq<string>> :=
    [["title"], ["titel"], ["name"], ["curriculum", "title"], ["document_data", "title"]]
  const DescriptionPaths: seq<seq<string>> :=
    [["description"], ["beschreibung"], ["curriculum", "description"], ["document_data", "description"]]
  const ProfessionTitlePaths: seq<seq<string>> :=
    [["beruf"], ["profession", "title"], ["profession", "name"], ["beruf", "bezeichnung"], ["beruf", "title"],
     ["ausbildungsberuf", "bezeichnung"], ["rahmenlehrplan", "beruf", "bezeichnung"], ["document_data", "beruf"]]
  const ProfessionCodePaths: seq<seq<string>> :=
    [["beruf_code"], ["profession", "code"], ["beruf", "kennziffer"], ["beruf", "code"],
     ["ausbildungsberuf", "kennung"], ["rahmenlehrplan", "beruf", "kennziffer"], ["document_data", "beruf_code"]]
  const ProfessionDescriptionPaths: seq<seq<string>> :=
    [["berufsbeschreibung"], ["profession", "description"], ["beruf", "beschreibung"],
     ["ausbildungsberuf", "beschreibung"], ["rahmenlehrplan", "beruf", "beschreibung"],
     ["document_data", "berufsbeschreibung"]]
  const ProfessionDurationPaths: seq<seq<string>> :=
    [["ausbildungsdauer"], ["profession", "duration"], ["beruf", "ausbildungsdauer"], ["ausbildungsberuf", "dauer"],
     ["rahmenlehrplan", "beruf", "ausbildungsdauer"], ["document_data", "ausbildungsdauer"]]
  const ProfessionFieldPaths: seq<seq<string>> :=
    [["berufsfeld"], ["profession", "field"], ["beruf", "berufsfeld"], ["ausbildungsberuf", "berufsfeld"],
     ["rahmenlehrplan", "beruf", "berufsfeld"], ["document_data", "berufsfeld"]]
  const TotalHoursPaths: seq<seq<string>> :=
    [["gesamtstunden"], ["totalHours"], ["gesamtstunden"], ["rahmenlehrplan", "gesamtstunden"],
     ["document_data", "gesamtstunden"]]
  const IssueDatePaths: seq<seq<string>> :=
    [["ausgabedatum"], ["issueDate"], ["ausgabedatum"], ["datum"], ["rahmenlehrplan", "datum"],
     ["document_data", "ausgabedatum"]]
  const ValidFromPaths: seq<seq<string>> :=
    [["gueltigAb"], ["validFrom"], ["gültigAb"], ["gueltigAb"], ["rahmenlehrplan", "gueltigAb"],
     ["document_data", "gueltigAb"]]
  const ValidUntilPaths: seq<seq<string>> :=
    [["gueltigBis"], ["validUntil"], ["gültigBis"], ["gueltigBis"], ["rahmenlehrplan", "gueltigBis"],
     ["document_data", "gueltigBis"]]
  const PublisherPaths: seq<seq<string>> :=
    [["herausgeber"], ["publisher"], ["herausgeber"], ["rahmenlehrplan", "herausgeber"],
     ["document_data", "herausgeber"]]

  /** extractId: the first truthy identifier, else a freshly generated one (the
      generator is consulted only then). */
  function ExtractId(root: Json, ids: IdSupply): (r: (Json, IdSupply))
    ensures (exists i :: 0 <= i < |IdPaths| && Present(PathGet(root, IdPaths[i]))) ==> r.1 == ids
    ensures (forall i :: 0 <= i < |IdPaths| ==> !Present(PathGet(root, IdPaths[i]))) ==> r == ids.Draw()
    ensures forall i :: FirstTruthyPath(root, IdPaths, i) ==> r.0 == PathGet(root, IdPaths[i]).value
  {
    var c := Candidates(root, IdPaths);
    var o := OrChain(c, None);
    assert forall i :: FirstTruthyPath(root, IdPaths, i) ==> FirstPresent(c, i);
    if o.Some? then (o.value, ids) else ids.Draw()
  }

  /** The profession title: the first truthy title location, else "Unbekannter Beruf". */
  function ProfessionTitle(root: Json): Json {
    Extract(root, ProfessionTitlePaths, JStr("Unbekannter Beruf"))
  }

  function ExtractProfession(root: Json): Profession {
    Profession(
      ProfessionTitle(root),
      Extract(root, ProfessionCodePaths, JStr("")),
      Extract(root, ProfessionDescriptionPaths, JStr("")),
      Extract(root, ProfessionDurationPaths, JStr("")),
      Extract(root, ProfessionFieldPaths, JStr("")))
  }

  /** A truthy `beruf` is itself the profession title, whatever it is, so the
      `beruf.bezeichnung` and `beruf.title` locations can only be reached when
      `beruf` is falsy, and then they are undefined. */
  lemma ProfessionTitleFromBeruf(root: Json)
    requires Present(Lookup(root, "beruf"))
    ensures ProfessionTitle(root) == Lookup(root, "beruf").value
    ensures Lookup(root, "beruf").value.JObj? ==> ToJsString(ProfessionTitle(root)) == "[object Object]"
  {
    assert PathGet(root, ProfessionTitlePaths[0]) == Lookup(root, "beruf") by {
      assert ProfessionTitlePaths[0][1..] == [];
    }
    assert FirstTruthyPath(root, ProfessionTitlePaths, 0);
  }

  /** The two `beruf.*` title locations never decide the title. */
  lemma BerufTitleLocationsDead(root: Json)
    requires !Present(Lookup(root, "beruf"))
    ensures !Present(PathGet(root, ProfessionTitlePaths[3])) && !Present(PathGet(root, ProfessionTitlePaths[4]))
  {
    assert ProfessionTitlePaths[3] == ["beruf", "bezeichnung"];
    assert ProfessionTitlePaths[4] == ["beruf", "title"];
    match Lookup(root, "beruf")
    case None =>
    case Some(b) =>
      assert !Truthy(b);
      assert b.JNull? || b.JBool? || b.JNum? || b.JNaN? || b.JStr?;
  }

  /** parseFloat(v) where v may be undefined (String(undefined) is "undefined"). */
  function ParseFloatOf(o: Option<Json>): (r: Json)
    ensures IsNumber(r)
    ensures o.None? ==> r == JNaN
  {
    if o.None? then JNaN else ParseFloatText(ToJsString(o.value))
  }

  /** The operands of the `||` chain in extractTrainingYears, in order. */
  function TrainingYearsOperands(root: Json): seq<Option<Json>> {
    [Lookup(root, "ausbildungsjahre"), Lookup(root, "trainingYears"), Lookup(root, "ausbildungsjahre"),
     Lookup(root, "dauer"), Some(ParseFloatOf(PathGet(root, ["profession", "duration"]))),
     PathGet(root, ["rahmenlehrplan", "ausbildungsdauer"]), PathGet(root, ["document_data", "ausbildungsjahre"])]
  }

  /** The raw value extractTrainingYears settles on before converting it. */
  function TrainingYearsCandidate(root: Json): Json {
    Chain(TrainingYearsOperands(root), JNum(3.0))
  }

  /** extractTrainingYears: a string candidate gives the value of its first digit
      run ("3 Jahre" gives 3); anything else goes through Number() and falls back
      to 3 when that is 0 or NaN. */
  function ExtractTrainingYears(root: Json): (r: real)
    ensures var y := TrainingYearsCandidate(root);
      (y.JStr? && FirstDigitRun(y.s).Some? ==> r == DigitsValue(FirstDigitRun(y.s).value) as real)
      && (!(y.JStr? && FirstDigitRun(y.s).Some?) && Truthy(ToNumber(y)) ==> r == ToNumber(y).n)
      && (!(y.JStr? && FirstDigitRun(y.s).Some?) && !Truthy(ToNumber(y)) ==> r == 3.0)
  {
    var y := TrainingYearsCandidate(root);
    if y.JStr? && FirstDigitRun(y.s).Some? then
      var run := FirstDigitRun(y.s).value;
      ParseIntOfDigits(run);
      ParseIntText(run).value as real
    else
      var n := ToNumber(y);
      if Truthy(n) then n.n else 3.0
  }

  /** With no usable candidate the training lasts 3 years. */
  lemma TrainingYearsDefault(root: Json)
    requires !Present(Lookup(root, "ausbildungsjahre")) && !Present(Lookup(root, "trainingYears"))
    requires !Present(Lookup(root, "dauer")) && PathGet(root, ["profession", "duration"]).None?
    requires !Present(PathGet(root, ["rahmenlehrplan", "ausbildungsdauer"]))
    requires !Present(PathGet(root, ["document_data", "ausbildungsjahre"]))
    ensures ExtractTrainingYears(root) == 3.0
  {
    DefaultCandidate(root);
  }

  /** With no usable candidate the fallback 3 is the candidate. */
  lemma DefaultCandidate(root: Json)
    requires !Present(Lookup(root, "ausbildungsjahre")) && !Present(Lookup(root, "trainingYears"))
    requires !Present(Lookup(root, "dauer")) && PathGet(root, ["profession", "duration"]).None?
    requires !Present(PathGet(root, ["rahmenlehrplan", "ausbildungsdauer"]))
    requires !Present(PathGet(root, ["document_data", "ausbildungsjahre"]))
    ensures TrainingYearsCandidate(root) == JNum(3.0)
  {
    var c := TrainingYearsOperands(root);
    assert c[4] == Some(JNaN);
    assert NonePresent(c);
  }

  /** A duration text such as "3 Jahre" yields the number it starts with. */
  lemma TrainingYearsFromText(root: Json, n: nat, rest: string)
    requires Lookup(root, "ausbildungsjahre") == Some(JStr(NatText(n) + rest))
    requires |rest| == 0 || !IsDigit(rest[0])
    ensures ExtractTrainingYears(root) == n as real
  {
    var s := NatText(n) + rest;
    assert TrainingYearsCandidate(root) == JStr(s) by {
      assert Present(Some(JStr(s)));
      assert FirstPresent(TrainingYearsOperands(root), 0);
    }
    assert FirstDigit(s) == 0 by { assert IsDigit(s[0]); }
    DigitPrefixOf(NatText(n), rest);
    assert s[0..][..|NatText(n)|] == NatText(n);
    NatTextValue(n);
  }

  /** The digit prefix of digits followed by a non-digit is exactly those digits. */
  lemma {:induction false} DigitPrefixOf(d: string, rest: string)
    requires AllDigits(d)
    requires |rest| == 0 || !IsDigit(rest[0])
    ensures DigitPrefix(d + rest) == |d|
  {
    if |d| > 0 {
      assert (d + rest)[1..] == d[1..] + rest;
      assert AllDigits(d[1..]) by {
        forall i | 0 <= i < |d[1..]| ensures IsDigit(d[1..][i]) { assert d[1..][i] == d[i + 1]; }
      }
      DigitPrefixOf(d[1..], rest);
    } else {
      assert d + rest == rest;
    }
  }
}
