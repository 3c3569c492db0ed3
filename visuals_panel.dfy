/** The logic behind the visualisation panel (src/components/VisualsPanel.tsx):
    the competency-type icon, the expanded-field record, the ESCO column, the
    detail panel's choice of content and the selection handlers. */
module VisualsPanel {
  import opened JsValue
  import opened CurriculumTypes
  import opened Collections

  // ------------------------------------------------------------ type icons

  /** The icons CompetencyTypeIcon chooses between. */
  datatype Icon = HelpIcon | BookIcon | CodeIcon | UsersIcon | BriefcaseIcon | ZapIcon | TargetIcon

  /** The icon of a lower-cased type name: the first of the five keywords it
      contains decides, and a name containing none gets the target icon. */
  function Classify(lower: string): (r: Icon)
    ensures r != HelpIcon
    ensures r == BookIcon <==> Includes(lower, "fach")
    ensures r == CodeIcon <==> !Includes(lower, "fach") && Includes(lower, "methoden")
    ensures r == UsersIcon <==> !Includes(lower, "fach") && !Includes(lower, "methoden") && Includes(lower, "sozial")
    ensures r == BriefcaseIcon <==>
      !Includes(lower, "fach") && !Includes(lower, "methoden") && !Includes(lower, "sozial") && Includes(lower, "personal")
    ensures r == ZapIcon <==>
      !Includes(lower, "fach") && !Includes(lower, "methoden") && !Includes(lower, "sozial") && !Includes(lower, "personal")
      && Includes(lower, "fertig")
    ensures r == TargetIcon <==>
      !Includes(lower, "fach") && !Includes(lower, "methoden") && !Includes(lower, "sozial") && !Includes(lower, "personal")
      && !Includes(lower, "fertig")
  {
    if Includes(lower, "fach") then BookIcon
    else if Includes(lower, "methoden") then CodeIcon
    else if Includes(lower, "sozial") then UsersIcon
    else if Includes(lower, "personal") then BriefcaseIcon
    else if Includes(lower, "fertig") then ZapIcon
    else TargetIcon
  }

  /** CompetencyTypeIcon: a falsy type gets the help icon; a truthy type must
      be a string, whose `toLowerCase` is classified. */
  function TypeIcon(t: Json): (r: Result<Icon>)
    ensures r == Ok(HelpIcon) <==> !Truthy(t)
    ensures Truthy(t) && t.JStr? ==> r == Ok(Classify(LowerAsciiString(t.s)))
    ensures Truthy(t) && !t.JStr? ==> r.Err?
  {
    if !Truthy(t) then Ok(HelpIcon)
    else if t.JStr? then Ok(Classify(LowerAsciiString(t.s)))
    else Err(NotAFunction("toLowerCase"))
  }

  lemma {:induction false} LowerTwice(s: string)
    ensures LowerAsciiString(LowerAsciiString(s)) == LowerAsciiString(s)
  {
    var l := LowerAsciiString(s);
    forall i | 0 <= i < |s| ensures LowerAscii(l[i]) == l[i] {
      assert l[i] == LowerAscii(s[i]);
    }
  }

  /** The classification ignores the case of ASCII letters. */
  lemma IconIgnoresCase(s: string)
    ensures TypeIcon(JStr(LowerAsciiString(s))) == TypeIcon(JStr(s))
  {
    LowerTwice(s);
  }

  /** "Fachkompetenz" is shown with the book icon, "Personale Kompetenz" with
      the briefcase, "Sozialkompetenz" with the people icon. */
  lemma IconExamples()
    ensures TypeIcon(JStr("Fachkompetenz")) == Ok(BookIcon)
    ensures TypeIcon(JStr("Sozialkompetenz")) == Ok(UsersIcon)
    ensures TypeIcon(JStr("")) == Ok(HelpIcon)
  {
    var f := LowerAsciiString("Fachkompetenz");
    assert OccursAt(f, "fach", 0);
    var z := LowerAsciiString("Sozialkompetenz");
    assert OccursAt(z, "sozial", 0);
    assert !Includes(z, "fach") by {
      forall i ensures !OccursAt(z, "fach", i) {
        if 0 <= i && i + 4 <= |z| {
          assert z[i..i + 4][0] == z[i];
        }
      }
    }
    assert !Includes(z, "methoden") by {
      forall i ensures !OccursAt(z, "methoden", i) {
        if 0 <= i && i + 8 <= |z| {
          assert z[i..i + 8][0] == z[i];
        }
      }
    }
  }

  // ------------------------------------------------------- expanded fields

  /** The property key of a field in the expanded-fields record. */
  function FieldKey(f: LearningField): string {
    ToJsString(f.id)
  }

  /** `!!expandedFields[key]`: a missing key counts as collapsed. */
  predicate Expanded(m: map<string, bool>, key: string) {
    key in m && m[key]
  }

  /** `{...prev, [fieldId]: !prev[fieldId]}` */
  function Toggled(m: map<string, bool>, fieldId: string): (r: map<string, bool>)
    ensures Expanded(r, fieldId) == !Expanded(m, fieldId)
    ensures fieldId in r
    ensures forall k :: k != fieldId ==> (k in r <==> k in m) && (k in m ==> r[k] == m[k])
  {
    m[fieldId := !Expanded(m, fieldId)]
  }

  /** Toggling twice restores every field's state. */
  lemma ToggleTwice(m: map<string, bool>, fieldId: string, k: string)
    ensures Expanded(Toggled(Toggled(m, fieldId), fieldId), k) == Expanded(m, k)
  {
  }

  /** The expanded-fields record of a tree view. */
  class FieldExpansion {
    var expanded: map<string, bool>

    constructor()
      ensures expanded == map[]
    {
      expanded := map[];
    }

    /** toggleField */
    method Toggle(fieldId: string)
      modifies this
      ensures expanded == Toggled(old(expanded), fieldId)
    {
      expanded := expanded[fieldId := !(fieldId in expanded && expanded[fieldId])];
    }

    /** The effect run on a new curriculum: its first field is expanded. */
    method ExpandFirst(fields: seq<LearningField>)
      modifies this
      ensures |fields| == 0 ==> expanded == old(expanded)
      ensures |fields| > 0 ==> expanded == old(expanded)[FieldKey(fields[0]) := true]
    {
      if |fields| > 0 {
        expanded := expanded[FieldKey(fields[0]) := true];
      }
    }
  }

  // --------------------------------------------------- visible competencies

  /** The competencies of the expanded fields, in field order. */
  function Visible(fields: seq<LearningField>, m: map<string, bool>): seq<Competency> {
    if |fields| == 0 then []
    else
      var f := fields[|fields| - 1];
      Visible(fields[..|fields| - 1], m) + (if Expanded(m, FieldKey(f)) then f.competencies else [])
  }

  /** visibleCompetencies: `competencies.push(...field.competencies)` for each expanded field. */
  method VisibleCompetencies(fields: seq<LearningField>, m: map<string, bool>) returns (competencies: seq<Competency>)
    ensures competencies == Visible(fields, m)
  {
    competencies := [];
    var i := 0;
    while i < |fields|
      invariant 0 <= i <= |fields|
      invariant competencies == Visible(fields[..i], m)
    {
      assert fields[..i + 1][..i] == fields[..i];
      if FieldKey(fields[i]) in m && m[FieldKey(fields[i])] {
        competencies := competencies + fields[i].competencies;
      }
      i := i + 1;
    }
    assert fields[..i] == fields;
  }

  /** A competency is visible exactly when a field holding it is expanded. */
  lemma {:induction false} VisibleMembers(fields: seq<LearningField>, m: map<string, bool>, c: Competency)
    ensures c in Visible(fields, m) <==>
      exists i :: 0 <= i < |fields| && Expanded(m, FieldKey(fields[i])) && c in fields[i].competencies
  {
    if |fields| > 0 {
      var n := |fields| - 1;
      VisibleMembers(fields[..n], m, c);
      assert forall i :: 0 <= i < n ==> fields[..n][i] == fields[i];
    }
  }

  /** With every field expanded, the visible list is the curriculum's flat
      competency list. */
  lemma {:induction false} AllExpandedVisible(fields: seq<LearningField>, m: map<string, bool>)
    requires forall i :: 0 <= i < |fields| ==> Expanded(m, FieldKey(fields[i]))
    ensures Visible(fields, m) == AllCompetencies(fields)
  {
    if |fields| > 0 {
      AllExpandedVisible(fields[..|fields| - 1], m);
    }
  }

  // ------------------------------------------------------------ ESCO column

  function MappingId(e: EscoMapping): Json { e.id }

  /** Every mapping of every competency, in competency-then-mapping order. */
  function MappingsOf(comps: seq<Competency>): seq<EscoMapping> {
    if |comps| == 0 then [] else MappingsOf(comps[..|comps| - 1]) + comps[|comps| - 1].escoMappings
  }

  /** allEscoMappings: the first mapping for every id. */
  function AllEscoMappings(comps: seq<Competency>): seq<EscoMapping> {
    DedupBy(MappingsOf(comps), MappingId)
  }

  /** The nested loop with its `seen` set. */
  method CollectEscoMappings(comps: seq<Competency>) returns (mappings: seq<EscoMapping>)
    ensures mappings == AllEscoMappings(comps)
  {
    mappings := [];
    var seen: set<Json> := {};
    ghost var flat: seq<EscoMapping> := [];
    var i := 0;
    while i < |comps|
      invariant 0 <= i <= |comps|
      invariant flat == MappingsOf(comps[..i])
      invariant mappings == DedupBy(flat, MappingId)
      invariant forall k :: k in seen <==> k in KeysOf(mappings, MappingId)
    {
      assert comps[..i + 1][..i] == comps[..i];
      var ms := comps[i].escoMappings;
      assert flat + ms[..0] == flat;
      var j := 0;
      while j < |ms|
        invariant 0 <= j <= |ms|
        invariant mappings == DedupBy(flat + ms[..j], MappingId)
        invariant forall k :: k in seen <==> k in KeysOf(mappings, MappingId)
      {
        assert flat + ms[..j + 1] == (flat + ms[..j]) + [ms[j]];
        DedupBySnoc(flat + ms[..j], ms[j], MappingId);
        if ms[j].id !in seen {
          KeysOfSnoc(mappings, ms[j], MappingId);
          mappings := mappings + [ms[j]];
          seen := seen + {ms[j].id};
        }
        j := j + 1;
      }
      assert ms[..j] == ms;
      flat := flat + ms;
      i := i + 1;
    }
    assert comps[..i] == comps;
  }

  lemma {:induction false} MappingsOfMember(comps: seq<Competency>, i: nat, j: nat)
    requires i < |comps| && j < |comps[i].escoMappings|
    ensures comps[i].escoMappings[j] in MappingsOf(comps)
  {
    var n := |comps| - 1;
    if i < n {
      MappingsOfMember(comps[..n], i, j);
      assert comps[..n][i] == comps[i];
    }
  }

  /** Is y the first of the flattened mappings with its id? */
  predicate FirstWithItsId(comps: seq<Competency>, y: EscoMapping) {
    var flat := MappingsOf(comps);
    exists k :: 0 <= k < |flat| && flat[k] == y && IsFirst(flat, k, MappingId)
  }

  /** The collected ids are pairwise distinct, every mapping's id is among
      them, and each collected mapping is the first one with its id. */
  lemma AllEscoMappingsFacts(comps: seq<Competency>, i: nat, j: nat)
    requires i < |comps| && j < |comps[i].escoMappings|
    ensures DistinctKeys(AllEscoMappings(comps), MappingId)
    ensures comps[i].escoMappings[j].id in KeysOf(AllEscoMappings(comps), MappingId)
    ensures forall y :: y in AllEscoMappings(comps) ==> FirstWithItsId(comps, y)
  {
    var flat := MappingsOf(comps);
    DedupByDistinctKeys(flat, MappingId);
    DedupByFirst(flat, MappingId);
    MappingIdCollected(comps, i, j);
  }

  /** The id of every mapping of every competency is among the collected ids. */
  lemma MappingIdCollected(comps: seq<Competency>, i: nat, j: nat)
    requires i < |comps| && j < |comps[i].escoMappings|
    ensures comps[i].escoMappings[j].id in KeysOf(AllEscoMappings(comps), MappingId)
  {
    var flat := MappingsOf(comps);
    DedupByKeys(flat, MappingId);
    MappingsOfMember(comps, i, j);
    var k :| 0 <= k < |flat| && flat[k] == comps[i].escoMappings[j];
    assert MappingId(flat[k]) == comps[i].escoMappings[j].id;
  }

  /** What the ESCO column shows. */
  datatype EscoView =
    | MatchedList(mappings: seq<EscoMapping>)
    | NoMappingsNote
    | Overview(shown: seq<EscoMapping>, more: Option<nat>)

  /** The matched mappings when there are any; else the note for a selected
      competency without mappings; else the first eight of all mappings, with
      "+ N weitere" for the rest. */
  function EscoColumn(matched: seq<EscoMapping>, selected: Option<Competency>, all: seq<EscoMapping>): (r: EscoView)
    ensures |matched| > 0 ==> r == MatchedList(matched)
    ensures |matched| == 0 && selected.Some? ==> r == NoMappingsNote
    ensures |matched| == 0 && selected.None? ==> r.Overview?
    ensures r.Overview? ==> |r.shown| <= 8 && r.shown <= all
    ensures r.Overview? ==> (r.more.Some? <==> |all| > 8)
    ensures r.Overview? && r.more.Some? ==> |r.shown| + r.more.value == |all|
    ensures r.Overview? && r.more.None? ==> r.shown == all
  {
    if |matched| > 0 then MatchedList(matched)
    else if selected.Some? then NoMappingsNote
    else if |all| > 8 then Overview(all[..8], Some(|all| - 8))
    else Overview(all, None)
  }

  /** The mapping view's competency selection. */
  class MappingSelection {
    var selected: Option<Competency>
    var matched: seq<EscoMapping>

    constructor()
      ensures selected == None && matched == []
    {
      selected := None;
      matched := [];
    }

    /** handleCompetencySelect: the competency's own mappings become the matched list. */
    method SelectCompetency(c: Competency)
      modifies this
      ensures selected == Some(c) && matched == c.escoMappings
      ensures EscoColumn(matched, selected, []) == (if |c.escoMappings| > 0 then MatchedList(c.escoMappings) else NoMappingsNote)
    {
      selected := Some(c);
      if |c.escoMappings| > 0 {
        matched := c.escoMappings;
      } else {
        matched := [];
      }
    }
  }

  // ------------------------------------------------------------ detail panel

  /** What the detail panel displays. */
  datatype Display =
    | ShowEsco(esco: EscoMapping)
    | ShowCompetency(competency: Competency)
    | ShowNode(kind: Option<Json>, node: Json)

  /** displayContent: an ESCO selection wins over a competency selection,
      which wins over a truthy selected node; nothing selected gives null. */
  function DisplayContent(node: Json, competency: Option<Competency>, esco: Option<EscoMapping>): (r: Option<Display>)
    ensures esco.Some? ==> r == Some(ShowEsco(esco.value))
    ensures esco.None? && competency.Some? ==> r == Some(ShowCompetency(competency.value))
    ensures esco.None? && competency.None? && Truthy(node) ==> r == Some(ShowNode(Lookup(node, "type"), node))
    ensures r.None? <==> esco.None? && competency.None? && !Truthy(node)
  {
    if esco.Some? then Some(ShowEsco(esco.value))
    else if competency.Some? then Some(ShowCompetency(competency.value))
    else if Truthy(node) then Some(ShowNode(Lookup(node, "type"), node))
    else None
  }

  /** `c.id === comp.id` on the JSON values ids are: NaN is never equal. */
  predicate SameId(a: Json, b: Json) {
    a == b && !a.JNaN?
  }

  predicate HoldsId(f: LearningField, id: Json) {
    exists c :: c in f.competencies && SameId(c.id, id)
  }

  /** `learningFields.find(...)`: the index of the first field holding a
      competency with this id. */
  function FirstFieldWith(fields: seq<LearningField>, id: Json, from: nat): (r: Option<nat>)
    requires from <= |fields|
    ensures r.Some? ==> (from <= r.value < |fields| && HoldsId(fields[r.value], id)
                         && forall j :: from <= j < r.value ==> !HoldsId(fields[j], id))
    ensures r.None? ==> forall j :: from <= j < |fields| ==> !HoldsId(fields[j], id)
    decreases |fields| - from
  {
    if from == |fields| then None
    else if HoldsId(fields[from], id) then Some(from)
    else FirstFieldWith(fields, id, from + 1)
  }

  /** The related learning field is looked up only for competency content. */
  function RelatedField(fields: seq<LearningField>, d: Display): (r: Option<LearningField>)
    ensures !d.ShowCompetency? && !(d.ShowNode? && d.kind == Some(JStr("competency"))) ==> r.None?
    ensures d.ShowCompetency? && r.Some? ==> exists i :: 0 <= i < |fields| && fields[i] == r.value && HoldsId(fields[i], d.competency.id)
  {
    if d.ShowCompetency? then
      var i := FirstFieldWith(fields, d.competency.id, 0);
      if i.Some? then Some(fields[i.value]) else None
    else if d.ShowNode? && d.kind == Some(JStr("competency")) then
      var id := Lookup(d.node, "id");
      if id.None? then None
      else
        var i := FirstFieldWith(fields, id.value, 0);
        if i.Some? then Some(fields[i.value]) else None
    else None
  }

  /** A competency of field i finds field i or an earlier one. */
  lemma RelatedNotLater(fields: seq<LearningField>, i: nat, c: Competency)
    requires i < |fields| && c in fields[i].competencies && !c.id.JNaN?
    ensures FirstFieldWith(fields, c.id, 0).Some? && FirstFieldWith(fields, c.id, 0).value <= i
    ensures RelatedField(fields, ShowCompetency(c)).Some?
  {
    assert HoldsId(fields[i], c.id);
  }

  /** The selection state of the panel. */
  class PanelSelection {
    var node: Json
    var competency: Option<Competency>
    var esco: Option<EscoMapping>

    constructor()
      ensures node == JNull && competency == None && esco == None
      ensures Display() == None
    {
      node := JNull;
      competency := None;
      esco := None;
    }

    function Display(): Option<Display>
      reads this
    {
      DisplayContent(node, competency, esco)
    }

    /** handleCompetencySelect: the ESCO selection is cleared. */
    method SelectCompetency(c: Competency)
      modifies this
      ensures competency == Some(c) && esco == None && node == old(node)
      ensures Display() == Some(ShowCompetency(c))
    {
      competency := Some(c);
      esco := None;
    }

    /** handleESCOSelect */
    method SelectEsco(e: EscoMapping)
      modifies this
      ensures esco == Some(e) && competency == old(competency) && node == old(node)
      ensures Display() == Some(ShowEsco(e))
    {
      esco := Some(e);
    }

    /** handleNodeSelect: both specific selections are cleared. */
    method SelectNode(n: Json)
      modifies this
      ensures node == n && competency == None && esco == None
      ensures Display() == if Truthy(n) then Some(ShowNode(Lookup(n, "type"), n)) else None
    {
      node := n;
      competency := None;
      esco := None;
    }
  }
}
