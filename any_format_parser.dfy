/** The last-resort parser for documents no dialect recognises
    (findLearningFieldsAnyFormat and findAllObjects in src/lib/curriculumParser.ts):
    nine candidate locations tried in order, objects with numbered keys turned
    into lists, and finally every object that looks like a field. */
module AnyFormatParser {
  import opened JsValue
  import opened CurriculumTypes
  import opened Collections
  import opened StandardParser

  /** The candidate locations, a dotted key written as its segments. */
  const AnyFormatKeys: seq<seq<string>> :=
    [["learningFields"], ["lernfelder"], ["fields"], ["felder"], ["lf"],
     ["curriculum", "learningFields"], ["curriculum", "lernfelder"],
     ["rahmenlehrplan", "lernfelder"], ["rahmenlehrplan", "inhalte"]]

  // ------------------------------------------------------------ locations

  /** The value at the path when every segment read along it is truthy. */
  function TruthyPath(v: Json, path: seq<string>): (r: Option<Json>)
    ensures r.Some? ==> Truthy(r.value) || |path| == 0
  {
    if |path| == 0 then Some(v)
    else
      var w := Lookup(v, path[0]);
      if Present(w) then TruthyPath(w.value, path[1..]) else None
  }

  /** A location is usable exactly when each read along the path gives a truthy
      value, and then it holds what `?.` would read there. */
  lemma {:induction false} TruthyPathSegments(v: Json, path: seq<string>)
    ensures TruthyPath(v, path).Some? <==> forall i :: 1 <= i <= |path| ==> Present(PathGet(v, path[..i]))
    ensures TruthyPath(v, path).Some? ==> TruthyPath(v, path) == PathGet(v, path)
    decreases |path|
  {
    if |path| > 0 {
      var w := Lookup(v, path[0]);
      var t := path[1..];
      assert PathGet(v, path[..1]) == w by { assert path[..1][1..] == []; }
      assert PathGet(v, path) == (if w.Some? then PathGet(w.value, t) else None);
      if Present(w) {
        TruthyPathSegments(w.value, t);
        forall i | 2 <= i <= |path|
          ensures PathGet(v, path[..i]) == PathGet(w.value, t[..i - 1])
        {
          assert path[..i][1..] == t[..i - 1];
        }
        if TruthyPath(w.value, t).Some? {
          forall i | 1 <= i <= |path| ensures Present(PathGet(v, path[..i])) {
            if i >= 2 {
              assert Present(PathGet(w.value, t[..i - 1]));
            }
          }
        }
        if forall i :: 1 <= i <= |path| ==> Present(PathGet(v, path[..i])) {
          forall i | 1 <= i <= |t| ensures Present(PathGet(w.value, t[..i])) {
            assert Present(PathGet(v, path[..i + 1]));
          }
        }
      }
    }
  }

  /** The segment loop of a dotted key: descend while each read is truthy. */
  method WalkPath(v: Json, path: seq<string>) returns (r: Option<Json>)
    ensures r == TruthyPath(v, path)
  {
    var current := v;
    var i := 0;
    while i < |path|
      invariant 0 <= i <= |path|
      invariant TruthyPath(v, path) == TruthyPath(current, path[i..])
    {
      assert path[i..][1..] == path[i + 1..];
      var next := Lookup(current, path[i]);
      if !Present(next) {
        return None;
      }
      current := next.value;
      i := i + 1;
    }
    return Some(current);
  }

  // ------------------------------------------------------- numbered objects

  /** `/^\d+$/.test(k) || /^lf\d+$/i.test(k)` */
  predicate IsNumberedKey(k: string) {
    (|k| > 0 && AllDigits(k)) || (|k| > 2 && LowerAsciiString(k[..2]) == "lf" && AllDigits(k[2..]))
  }

  /** `k.replace(/^lf/i, 'LF')` */
  function ReplaceLf(k: string): (r: string)
    ensures |r| == |k|
    ensures |k| >= 2 ==> r[2..] == k[2..]
    ensures |k| >= 2 && LowerAsciiString(k[..2]) == "lf" ==> r[..2] == "LF"
    ensures !(|k| >= 2 && LowerAsciiString(k[..2]) == "lf") ==> r == k
  {
    if |k| >= 2 && LowerAsciiString(k[..2]) == "lf" then "LF" + k[2..] else k
  }

  /** A numbered member whose value is an object or an array (or null, which then throws). */
  predicate NumberedKept(m: (string, Json)) {
    IsNumberedKey(m.0) && (m.1.JNull? || m.1.JArr? || m.1.JObj?)
  }

  /** One numbered member with `id` and `code` filled in from its key. An array
      value can only carry those two properties, and the standard parser reads
      nothing else from it, so it is written as the object holding them. */
  function NumberedField(key: string, v: Json): (r: Result<Json>)
    ensures r.Err? <==> v.JNull?
    ensures r.Ok? ==> r.value.JObj?
  {
    if v.JNull? then Err(ReadOfNull("id"))
    else
      var o := if v.JObj? then v else JObj([]);
      var withId := Assign(o, "id", Chain([Lookup(o, "id")], JStr(key)));
      var withCode := Assign(withId, "code", Chain([Lookup(withId, "code")], JStr(ReplaceLf(key))));
      if |key| > 0 && AllDigits(key) then
        Ok(Assign(withCode, "code", Chain([Lookup(withCode, "code")], JStr("LF" + key))))
      else Ok(withCode)
  }

  function NumberedStep(m: (string, Json), i: nat): Result<Json> {
    NumberedField(m.0, m.1)
  }

  /** The list built from an object with numbered keys. */
  function NumberedFields(data: Json): Result<seq<Json>> {
    MapResult(Filter(ForIn(data), NumberedKept), NumberedStep)
  }

  /** A missing id becomes the key and a missing code the key with `lf`
      capitalised; a purely numeric key keeps itself as code, because the
      later `LF${key}` default only applies to a code that is still falsy. */
  lemma NumberedFieldDefaults(key: string, v: Json)
    requires v.JObj? && !Present(Lookup(v, "id")) && !Present(Lookup(v, "code"))
    requires |key| > 0
    ensures NumberedField(key, v).Ok?
    ensures Lookup(NumberedField(key, v).value, "id") == Some(JStr(key))
    ensures Lookup(NumberedField(key, v).value, "code") == Some(JStr(ReplaceLf(key)))
    ensures AllDigits(key) ==> Lookup(NumberedField(key, v).value, "code") == Some(JStr(key))
  {
    var withId := Assign(v, "id", Chain([Lookup(v, "id")], JStr(key)));
    assert Lookup(withId, "id") == Some(JStr(key));
    assert Lookup(withId, "code") == Lookup(v, "code");
    var withCode := Assign(withId, "code", Chain([Lookup(withId, "code")], JStr(ReplaceLf(key))));
    assert Lookup(withCode, "code") == Some(JStr(ReplaceLf(key)));
    assert Lookup(withCode, "id") == Some(JStr(key));
    if AllDigits(key) {
      assert ReplaceLf(key) == key;
      assert Present(Lookup(withCode, "code"));
      var last := Assign(withCode, "code", Chain([Lookup(withCode, "code")], JStr("LF" + key)));
      assert Lookup(last, "code") == Lookup(withCode, "code");
      assert Lookup(last, "id") == Some(JStr(key));
      assert NumberedField(key, v) == Ok(last);
    } else {
      assert NumberedField(key, v) == Ok(withCode);
    }
  }

  /** An existing id and code are left as they are. */
  lemma NumberedFieldKeepsIds(key: string, v: Json)
    requires v.JObj? && Present(Lookup(v, "id")) && Present(Lookup(v, "code"))
    ensures NumberedField(key, v).Ok?
    ensures Lookup(NumberedField(key, v).value, "id") == Lookup(v, "id")
    ensures Lookup(NumberedField(key, v).value, "code") == Lookup(v, "code")
  {
  }

  /** The `for…in` loop over a candidate object. */
  method CollectNumbered(data: Json) returns (r: Result<seq<Json>>)
    ensures r == NumberedFields(data)
  {
    r := FilterMapLoop(ForIn(data), NumberedKept, NumberedStep);
  }

  // ------------------------------------------------------------ key scan

  /** The loop over the candidate locations: skip an unusable one, stop at the
      first array (even an empty one) or at an object with numbered members;
      anything else moves on to the next location. */
  function KeyScan(root: Json, keys: seq<seq<string>>): Result<seq<Json>> {
    if |keys| == 0 then Ok([])
    else
      match TruthyPath(root, keys[0])
      case None => KeyScan(root, keys[1..])
      case Some(data) =>
        if data.JArr? then Ok(data.items)
        else if data.JObj? then
          var fs :- NumberedFields(data);
          if |fs| > 0 then Ok(fs) else KeyScan(root, keys[1..])
        else KeyScan(root, keys[1..])
  }

  /** A location the scan moves past. */
  predicate Passed(root: Json, path: seq<string>) {
    var d := TruthyPath(root, path);
    d.None? || (!d.value.JArr? && !d.value.JObj?) || (d.value.JObj? && NumberedFields(d.value) == Ok([]))
  }

  /** The first location holding an array decides when all earlier locations
      are passed over. */
  lemma {:induction false} FirstArrayWins(root: Json, keys: seq<seq<string>>, k: nat)
    requires k < |keys| && TruthyPath(root, keys[k]).Some? && TruthyPath(root, keys[k]).value.JArr?
    requires forall j :: 0 <= j < k ==> Passed(root, keys[j])
    ensures KeyScan(root, keys) == Ok(TruthyPath(root, keys[k]).value.items)
  {
    if k > 0 {
      assert Passed(root, keys[0]);
      FirstArrayWins(root, keys[1..], k - 1);
    }
  }

  // --------------------------------------------------------- every object

  /** The objects of a value in pre-order, the value itself first; arrays are
      walked through but not listed. */
  function AllObjects(v: Json): seq<Json> {
    match v
    case JArr(xs) => Flatten(seq(|xs|, i requires 0 <= i < |xs| => AllObjects(xs[i])))
    case JObj(ms) => [v] + Flatten(seq(|ms|, i requires 0 <= i < |ms| => AllObjects(ms[i].1)))
    case _ => []
  }

  /** Only objects are listed, an object before everything below it, and a
      value that is neither object nor array lists nothing. */
  lemma {:induction false} AllObjectsAreObjects(v: Json)
    ensures forall i :: 0 <= i < |AllObjects(v)| ==> AllObjects(v)[i].JObj?
    ensures v.JObj? ==> |AllObjects(v)| > 0 && AllObjects(v)[0] == v
    ensures !v.JObj? && !v.JArr? ==> AllObjects(v) == []
  {
    match v
    case JArr(xs) =>
      var parts: seq<seq<Json>> := seq(|xs|, i requires 0 <= i < |xs| => AllObjects(xs[i]));
      forall k | 0 <= k < |xs| ensures forall i :: 0 <= i < |parts[k]| ==> parts[k][i].JObj? {
        AllObjectsAreObjects(xs[k]);
      }
      FlattenAll(parts, (o: Json) => o.JObj?);
    case JObj(ms) =>
      var parts: seq<seq<Json>> := seq(|ms|, i requires 0 <= i < |ms| => AllObjects(ms[i].1));
      forall k | 0 <= k < |ms| ensures forall i :: 0 <= i < |parts[k]| ==> parts[k][i].JObj? {
        AllObjectsAreObjects(ms[k].1);
      }
      FlattenAll(parts, (o: Json) => o.JObj?);
    case _ =>
  }

  /** `(titel || title || name || bezeichnung) && (id || code || nummer ||
      lernfeldnummer) && (competencies || … || inhalte)` */
  predicate LooksLikeField(o: Json) {
    (Present(Lookup(o, "titel")) || Present(Lookup(o, "title")) || Present(Lookup(o, "name")) || Present(Lookup(o, "bezeichnung")))
    && (Present(Lookup(o, "id")) || Present(Lookup(o, "code")) || Present(Lookup(o, "nummer")) || Present(Lookup(o, "lernfeldnummer")))
    && (Present(Lookup(o, "competencies")) || Present(Lookup(o, "kompetenzen")) || Present(Lookup(o, "skills"))
        || Present(Lookup(o, "zielformulierungen")) || Present(Lookup(o, "inhalte")))
  }

  /** findAllObjects: push the objects of v, in pre-order, onto the accumulator. */
  method FindAllObjects(v: Json, acc: seq<Json>) returns (out: seq<Json>)
    ensures out == acc + AllObjects(v)
    decreases v, 1
  {
    match v {
      case JArr(xs) =>
        out := FindAllInValues(v, xs, acc);
      case JObj(ms) =>
        var values := seq(|ms|, i requires 0 <= i < |ms| => ms[i].1);
        assert forall i :: 0 <= i < |values| ==> values[i] == ms[i].1;
        out := FindAllInValues(v, values, acc + [v]);
        assert seq(|values|, j requires 0 <= j < |values| => AllObjects(values[j]))
            == seq(|ms|, j requires 0 <= j < |ms| => AllObjects(ms[j].1));
      case _ =>
        out := acc;
    }
  }

  /** The `forEach` over the elements of an array or the values of an object. */
  method FindAllInValues(ghost parent: Json, xs: seq<Json>, acc: seq<Json>) returns (out: seq<Json>)
    requires forall i :: 0 <= i < |xs| ==> xs[i] < parent
    ensures out == acc + Flatten(seq(|xs|, j requires 0 <= j < |xs| => AllObjects(xs[j])))
    decreases parent, 0
  {
    ghost var parts := seq(|xs|, j requires 0 <= j < |xs| => AllObjects(xs[j]));
    out := acc;
    var i := 0;
    while i < |xs|
      invariant 0 <= i <= |xs|
      invariant out == acc + Flatten(parts[..i])
    {
      assert parts[..i + 1][..i] == parts[..i];
      out := FindAllObjects(xs[i], out);
      i := i + 1;
    }
    assert parts[..i] == parts;
  }

  // --------------------------------------------------------------- parser

  /** The list of raw fields the any-format parser settles on. */
  function AnyFormatSource(root: Json): Result<seq<Json>> {
    var found :- KeyScan(root, AnyFormatKeys);
    if |found| > 0 then Ok(found) else Ok(Filter(AllObjects(root), LooksLikeField))
  }

  /** findLearningFieldsAnyFormat as a function of the document. */
  function AnyFormat(root: Json, ids: IdSupply): Result<(seq<LearningField>, IdSupply)> {
    var fs :- AnyFormatSource(root);
    if |fs| == 0 then Ok(([], ids)) else ParseStandardFormat(Wrap(fs), ids)
  }

  method FindLearningFieldsAnyFormat(root: Json, ids: IdSupply) returns (r: Result<(seq<LearningField>, IdSupply)>)
    ensures r == AnyFormat(root, ids)
  {
    var scanned := ScanLocations(root, AnyFormatKeys);
    if scanned.Err? {
      return Err(scanned.error);
    }
    var learningFields := scanned.value;
    if |learningFields| == 0 {
      var allObjects := FindAllObjects(root, []);
      assert allObjects == AllObjects(root);
      learningFields := Filter(allObjects, LooksLikeField);
    }
    assert AnyFormatSource(root) == Ok(learningFields);
    if |learningFields| == 0 {
      return Ok(([], ids));
    }
    return ParseStandardFormat(Wrap(learningFields), ids);
  }

  /** The loop over the candidate locations, in order. */
  method ScanLocations(root: Json, keys: seq<seq<string>>) returns (r: Result<seq<Json>>)
    ensures r == KeyScan(root, keys)
  {
    var k := 0;
    while k < |keys|
      invariant 0 <= k <= |keys|
      invariant KeyScan(root, keys) == KeyScan(root, keys[k..])
    {
      var rest := keys[k..];
      assert rest[0] == keys[k] && rest[1..] == keys[k + 1..];
      var data := WalkPath(root, keys[k]);
      if data.Some? && data.value.JArr? {
        return Ok(data.value.items);
      }
      if data.Some? && data.value.JObj? {
        var fieldArray := CollectNumbered(data.value);
        if fieldArray.Err? {
          return Err(fieldArray.error);
        }
        if |fieldArray.value| > 0 {
          return Ok(fieldArray.value);
        }
      }
      k := k + 1;
    }
    return Ok([]);
  }

  /** Every field found by the last resort is an object that looks like a field. */
  lemma FallbackFieldsLookLikeFields(root: Json)
    requires KeyScan(root, AnyFormatKeys) == Ok([])
    ensures AnyFormatSource(root).Ok?
    ensures forall i :: 0 <= i < |AnyFormatSource(root).value| ==>
      AnyFormatSource(root).value[i].JObj? && LooksLikeField(AnyFormatSource(root).value[i])
  {
    var all := AllObjects(root);
    var fs := Filter(all, LooksLikeField);
    AllObjectsAreObjects(root);
    forall i | 0 <= i < |fs| ensures fs[i].JObj? {
      FilterMembers(all, LooksLikeField, fs[i]);
    }
  }
}
