/** The application shell's own logic (src/App.tsx): the WLO search term a
    competency yields, and what loading a curriculum document or an uploaded
    file does to the application state. */
module App {
  import opened JsValue
  import opened CurriculumTypes
  import opened Collections
  import opened CurriculumParser
  import opened Envelope

  // ------------------------------------------------------------- search term

  /** The alternatives of `/^(die|der|das|den|dem|ein|eine|einer|eines|zum)\s+/i`, in order. */
  const Articles: seq<string> := ["die", "der", "das", "den", "dem", "ein", "eine", "einer", "eines", "zum"]

  /** Does s start with article a, in any case, followed by white space? */
  predicate ArticleAt(s: string, a: string) {
    StartsWithCI(s, a) && |s| > |a| && IsJsSpace(s[|a|])
  }

  /** s without its first n characters and the white space after them. */
  function DropWithSpace(s: string, n: nat): (r: string)
    requires n <= |s|
    ensures r == s[n + LeadingSpace(s[n..])..]
    ensures |r| > 0 ==> !IsJsSpace(r[0])
  {
    s[n + LeadingSpace(s[n..])..]
  }

  /** The regular expression tries the alternatives in order; the first one
      that is followed by white space is removed with all that white space. */
  function StripFrom(s: string, arts: seq<string>, k: nat): string
    requires k <= |arts|
    decreases |arts| - k
  {
    if k == |arts| then s
    else if ArticleAt(s, arts[k]) then DropWithSpace(s, |arts[k]|)
    else StripFrom(s, arts, k + 1)
  }

  /** Alternative j is the first one, from k on, that s starts with followed by
      white space. */
  predicate FirstArticle(s: string, arts: seq<string>, k: nat, j: nat) {
    k <= j < |arts| && ArticleAt(s, arts[j]) && forall i :: k <= i < j ==> !ArticleAt(s, arts[i])
  }

  /** From alternative k on, the first alternative s starts with is removed
      with its white space, and s is left alone when it starts with none. */
  lemma {:induction false} StripFromFacts(s: string, arts: seq<string>, k: nat)
    requires k <= |arts|
    ensures forall j: nat :: FirstArticle(s, arts, k, j) ==> StripFrom(s, arts, k) == DropWithSpace(s, |arts[j]|)
    ensures (forall j :: k <= j < |arts| ==> !ArticleAt(s, arts[j])) ==> StripFrom(s, arts, k) == s
    decreases |arts| - k
  {
    if k < |arts| {
      if ArticleAt(s, arts[k]) {
        forall j: nat | FirstArticle(s, arts, k, j)
          ensures j == k
        {
        }
      } else {
        StripFromFacts(s, arts, k + 1);
        forall j: nat | FirstArticle(s, arts, k, j)
          ensures FirstArticle(s, arts, k + 1, j)
        {
        }
      }
    }
  }

  /** Some alternative from k on matches exactly when there is a first one. */
  lemma {:induction false} SomeArticleFirst(s: string, arts: seq<string>, k: nat, j: nat)
    requires k <= j < |arts| && ArticleAt(s, arts[j])
    ensures exists f: nat :: f <= j && FirstArticle(s, arts, k, f)
    decreases j
  {
    if !FirstArticle(s, arts, k, j) {
      var i :| k <= i < j && ArticleAt(s, arts[i]);
      SomeArticleFirst(s, arts, k, i);
    }
  }

  /** `searchTerm.replace(/^(die|...|zum)\s+/i, '')` */
  function StripArticle(s: string): string {
    StripFrom(s, Articles, 0)
  }

  /** Every alternative is a word of at least three letters. */
  lemma ArticlesNonEmpty()
    ensures forall j :: 0 <= j < |Articles| ==> |Articles[j]| >= 3
  {
  }

  /** The first alternative the title starts with is removed together with the
      white space after it, so a title starting with an article always
      changes; a title that starts with none is unchanged. */
  lemma StripArticleFacts(s: string)
    ensures (forall j :: 0 <= j < |Articles| ==> !ArticleAt(s, Articles[j])) ==> StripArticle(s) == s
    ensures forall j: nat :: FirstArticle(s, Articles, 0, j) ==>
      StripArticle(s) == DropWithSpace(s, |Articles[j]|) && |StripArticle(s)| < |s|
    ensures (exists j :: 0 <= j < |Articles| && ArticleAt(s, Articles[j])) ==> StripArticle(s) != s
  {
    var arts := Articles;
    StripFromFacts(s, arts, 0);
    ArticlesNonEmpty();
    if j :| 0 <= j < |arts| && ArticleAt(s, arts[j]) {
      SomeArticleFirst(s, arts, 0, j);
    }
  }

  /** A leading article is removed with the white space after it. */
  lemma StripArticleExample()
    ensures StripArticle("Die Katze") == "Katze"
  {
    var s := "Die Katze";
    assert ArticleAt(s, Articles[0]);
    assert LeadingSpace(s[3..]) == 1 by { assert s[3..][1..] == "Katze"; }
  }

  /** Only one article is removed. */
  lemma StripArticleOnce()
    ensures StripArticle("der die Katze") == "die Katze"
  {
    var s := "der die Katze";
    assert !ArticleAt(s, Articles[0]) by {
      assert LowerAsciiString(s[..3])[1] == 'e' != LowerAsciiString(Articles[0])[1];
    }
    assert ArticleAt(s, Articles[1]);
    assert LeadingSpace(s[3..]) == 1 by { assert s[3..][1..] == "die Katze"; }
  }

  /** "ein" is tried first but is not followed by white space, so "eine" is removed. */
  lemma StripArticleBacktracks()
    ensures StripArticle("Eine Aufgabe") == "Aufgabe"
  {
    var s := "Eine Aufgabe";
    assert LowerAsciiString(s[..3])[0] == 'e';
    assert !ArticleAt(s, Articles[0]) by { assert LowerAsciiString(Articles[0])[0] == 'd'; }
    assert !ArticleAt(s, Articles[1]) by { assert LowerAsciiString(Articles[1])[0] == 'd'; }
    assert !ArticleAt(s, Articles[2]) by { assert LowerAsciiString(Articles[2])[0] == 'd'; }
    assert !ArticleAt(s, Articles[3]) by { assert LowerAsciiString(Articles[3])[0] == 'd'; }
    assert !ArticleAt(s, Articles[4]) by { assert LowerAsciiString(Articles[4])[0] == 'd'; }
    assert !ArticleAt(s, Articles[5]) by { assert !IsJsSpace(s[3]); }
    assert ArticleAt(s, Articles[6]);
    assert LeadingSpace(s[4..]) == 1 by { assert s[4..][1..] == "Aufgabe"; }
  }

  /** `(m.confidence || 0)`, negated so that the ascending sort puts the most
      confident mapping first. */
  function NegConfidence(m: EscoMapping): real {
    -NumberOrZero(Some(m.confidence))
  }

  /** `x.length` as a value: undefined on numbers and booleans; reading it on null throws. */
  function LengthOf(v: Json): Result<Option<Json>> {
    match v
    case JNull => Err(ReadOfNull("length"))
    case JStr(s) => Ok(Some(JNum(|s| as real)))
    case JArr(xs) => Ok(Some(JNum(|xs| as real)))
    case JObj(_) => Ok(Lookup(v, "length"))
    case _ => Ok(None)
  }

  /** `x < 30`: undefined and NaN compare false. */
  predicate Below30(o: Option<Json>) {
    o.Some? && ToNumber(o.value).JNum? && ToNumber(o.value).n < 30.0
  }

  /** The label of the most confident mapping (the earliest on ties). */
  function BestMapping(ms: seq<EscoMapping>): EscoMapping
    requires |ms| > 0
  {
    SortBy(ms, NegConfidence)[0]
  }

  /** extractSearchTerm: the title without a leading article, followed by the
      best mapping's label when that label is shorter than 30. */
  function SearchTerm(c: Competency): (r: Result<string>)
    ensures c.title.JStr? && |c.escoMappings| == 0 ==> r == Ok(StripArticle(c.title.s))
    ensures c.title.JStr? && |c.escoMappings| > 0 && BestMapping(c.escoMappings).preferredLabel.JStr? ==>
      var preferred := BestMapping(c.escoMappings).preferredLabel.s;
      r == Ok(if |preferred| < 30 then StripArticle(c.title.s) + " " + preferred else StripArticle(c.title.s))
    ensures !c.title.JStr? ==> r.Err?
  {
    if c.title.JNull? then Err(ReadOfNull("replace"))
    else if !c.title.JStr? then Err(NotAFunction("replace"))
    else
      var stripped := StripArticle(c.title.s);
      if |c.escoMappings| == 0 then Ok(stripped)
      else
        var preferred := BestMapping(c.escoMappings).preferredLabel;
        var len :- LengthOf(preferred);
        Ok(if Below30(len) then stripped + " " + ToJsString(preferred) else stripped)
  }

  /** The statement sequence of extractSearchTerm, on a sorted copy of the mappings. */
  method ExtractSearchTerm(c: Competency) returns (r: Result<string>)
    ensures r == SearchTerm(c)
  {
    if !c.title.JStr? {
      return if c.title.JNull? then Err(ReadOfNull("replace")) else Err(NotAFunction("replace"));
    }
    var searchTerm := c.title.s;
    searchTerm := StripArticle(searchTerm);
    if |c.escoMappings| > 0 {
      var sortedMappings := SortBy(c.escoMappings, NegConfidence);
      var preferred := sortedMappings[0].preferredLabel;
      var len := LengthOf(preferred);
      if len.Err? {
        return Err(len.error);
      }
      if Below30(len.value) {
        searchTerm := searchTerm + " " + ToJsString(preferred);
      }
    }
    r := Ok(searchTerm);
  }

  /** The chosen mapping is one of the competency's own, no other mapping is
      more confident, and every earlier mapping is strictly less confident. */
  lemma BestMappingIsMostConfident(ms: seq<EscoMapping>)
    requires |ms| > 0
    ensures exists i :: (0 <= i < |ms| && BestMapping(ms) == ms[i]
                         && (forall j :: 0 <= j < |ms| ==> NumberOrZero(Some(ms[j].confidence)) <= NumberOrZero(Some(ms[i].confidence)))
                         && (forall j :: 0 <= j < i ==> NumberOrZero(Some(ms[j].confidence)) < NumberOrZero(Some(ms[i].confidence))))
  {
    SortByHead(ms, NegConfidence);
  }

  // ------------------------------------------------------------ loading

  /** Why the uploaded text was refused before the curriculum parser ran. */
  datatype UploadFailure =
    | NotJsonText        // "Die hochgeladene Datei scheint kein gültiges JSON-Format zu haben."
    | SyntaxError        // JSON.parse threw
    | NotAnObject        // "Die hochgeladene Datei hat kein gültiges JSON-Format."
    | ParseFailure(error: ParseError)

  /** The error shown after loading. */
  datatype Failure =
    | EmptyCurriculum                     // "Die geladene JSON-Datei enthält keine gültigen Lehrplandaten. ..."
    | CurriculumError(error: ParseError)  // "Fehler beim Parsen der Lehrplandaten: ..."
    | EmptyUpload                         // "Die hochgeladene JSON-Datei enthält keine gültigen Lehrplandaten ..."
    | UploadError(cause: UploadFailure)   // "Fehler beim Parsen der JSON-Datei: ..."

  /** `text.trim().startsWith('{')` */
  predicate LooksLikeObject(text: string) {
    var t := Trim(text);
    |t| > 0 && t[0] == '{'
  }

  /** The checks before parseCurriculum in handleFileUpload; None lets the
      parsed value through. */
  function UploadGate(text: string, parsed: Option<Json>): (r: Option<UploadFailure>)
    ensures !LooksLikeObject(text) ==> r == Some(NotJsonText)
    ensures LooksLikeObject(text) && parsed.None? ==> r == Some(SyntaxError)
    ensures r.None? <==> LooksLikeObject(text) && parsed.Some? && Truthy(parsed.value) && (parsed.value.JObj? || parsed.value.JArr?)
  {
    if !LooksLikeObject(text) then Some(NotJsonText)
    else if parsed.None? then Some(SyntaxError)
    else if !Truthy(parsed.value) || !(parsed.value.JObj? || parsed.value.JArr?) then Some(NotAnObject)
    else None
  }

  /** What parseCurriculum's result means to a loader: a curriculum to store,
      a parse error, or a curriculum with no learning fields. */
  datatype LoadOutcome = Loaded(curriculum: Curriculum) | Failed(error: ParseError) | NoLearningFields

  /** c, with at least one learning field, is what parsing root yields. */
  ghost predicate StoredFrom(c: Curriculum, ids': IdSupply, root: Json, ids: IdSupply) {
    |c.learningFields| > 0 && ParsedFrom(c, ids', root, ids)
  }

  /** The learning fields parsing a non-null document yields, with the
      identifier supply after them: the dialect run after the id is drawn. */
  function DocumentFields(root: Json, ids: IdSupply): Result<(seq<LearningField>, IdSupply)> {
    Dialect(root, ExtractId(root, ids).1)
  }

  /** The shared core of both loaders: parse, then refuse a curriculum
      without learning fields. A null document fails as `Object.keys` does;
      otherwise the outcome is decided by the document's fields. */
  method LoadCurriculum(root: Json, ids: IdSupply) returns (o: LoadOutcome, ids': IdSupply)
    ensures root.JNull? ==> o == Failed(KeysOfNull) && ids' == ids
    ensures !root.JNull? ==> (o.Failed? <==> DocumentFields(root, ids).Err?)
    ensures !root.JNull? && o.Failed? ==> o.error == DocumentFields(root, ids).error
    ensures !root.JNull? ==> (o.NoLearningFields? <==> DocumentFields(root, ids).Ok? && |DocumentFields(root, ids).value.0| == 0)
    ensures !root.JNull? ==> (o.Loaded? <==> DocumentFields(root, ids).Ok? && |DocumentFields(root, ids).value.0| > 0)
    ensures o.Failed? ==> ids' == ids
    ensures o.Loaded? ==> StoredFrom(o.curriculum, ids', root, ids)
  {
    var parsed := ParseCurriculum(root, ids);
    if parsed.Err? {
      return Failed(parsed.error), ids;
    }
    ids' := parsed.value.1;
    if |parsed.value.0.learningFields| == 0 {
      o := NoLearningFields;
    } else {
      o := Loaded(parsed.value.0);
    }
  }

  /** The application state the two loaders update. */
  class AppState {
    var curriculum: Option<Curriculum>
    var loadingError: Option<Failure>
    var selectedCompetency: Option<Competency>
    var showProfessionInfo: bool
    var searchResults: seq<Json>

    constructor()
      ensures curriculum == None && loadingError == None && selectedCompetency == None
      ensures !showProfessionInfo && searchResults == []
    {
      curriculum := None;
      loadingError := None;
      selectedCompetency := None;
      showProfessionInfo := false;
      searchResults := [];
    }

    /** The state updates after parseCurriculum: a failure clears the
        curriculum and sets the loader's message; a curriculum is stored and
        the selection, the profession panel and the search results are reset.
        Only the upload path clears an earlier error on success. */
    method Apply(o: LoadOutcome, upload: bool)
      modifies this
      ensures curriculum.Some? <==> o.Loaded?
      ensures o.Loaded? ==>
        (curriculum == Some(o.curriculum) && selectedCompetency == None && !showProfessionInfo && searchResults == []
         && loadingError == (if upload then None else old(loadingError)))
      ensures !o.Loaded? ==> selectedCompetency == old(selectedCompetency) && showProfessionInfo == old(showProfessionInfo) && searchResults == old(searchResults)
      ensures o.Failed? ==> loadingError == Some(if upload then UploadError(ParseFailure(o.error)) else CurriculumError(o.error))
      ensures o.NoLearningFields? ==> loadingError == Some(if upload then EmptyUpload else EmptyCurriculum)
    {
      match o
      case Failed(e) =>
        loadingError := Some(if upload then UploadError(ParseFailure(e)) else CurriculumError(e));
        curriculum := None;
      case NoLearningFields =>
        loadingError := Some(if upload then EmptyUpload else EmptyCurriculum);
        curriculum := None;
      case Loaded(c) =>
        curriculum := Some(c);
        selectedCompetency := None;
        showProfessionInfo := false;
        searchResults := [];
        if upload {
          loadingError := None;
        }
    }

    /** processJsonData. `Object.keys(jsonData)` in the log line throws on
        null before anything else happens. */
    method ProcessJsonData(root: Json, ids: IdSupply) returns (thrown: Option<ParseError>, ids': IdSupply)
      modifies this
      ensures root.JNull? ==> thrown == Some(KeysOfNull) && curriculum == old(curriculum) && loadingError == old(loadingError)
      ensures !root.JNull? ==> thrown == None
      ensures !root.JNull? && curriculum.Some? ==>
        (StoredFrom(curriculum.value, ids', root, ids)
         && selectedCompetency == None && !showProfessionInfo && searchResults == []
         && loadingError == old(loadingError))
      ensures !root.JNull? ==>
        (curriculum.Some? <==> DocumentFields(root, ids).Ok? && |DocumentFields(root, ids).value.0| > 0)
      ensures !root.JNull? && DocumentFields(root, ids).Err? ==>
        loadingError == Some(CurriculumError(DocumentFields(root, ids).error))
      ensures !root.JNull? && DocumentFields(root, ids).Ok? && |DocumentFields(root, ids).value.0| == 0 ==>
        loadingError == Some(EmptyCurriculum)
    {
      if root.JNull? {
        return Some(KeysOfNull), ids;
      }
      thrown := None;
      var o;
      o, ids' := LoadCurriculum(root, ids);
      Apply(o, false);
    }

    /** reader.onload in handleFileUpload, given the file text and what
        JSON.parse makes of it. Text that does not start with '{' is refused
        before anything is parsed, so no identifier is drawn. */
    method HandleUploadText(text: string, parsed: Option<Json>, ids: IdSupply) returns (ids': IdSupply)
      modifies this
      ensures UploadGate(text, parsed).Some? ==>
        curriculum == None && loadingError == Some(UploadError(UploadGate(text, parsed).value)) && ids' == ids
      ensures curriculum.Some? ==>
        (UploadGate(text, parsed).None? && StoredFrom(curriculum.value, ids', parsed.value, ids)
         && loadingError == None && selectedCompetency == None && !showProfessionInfo && searchResults == [])
      ensures curriculum.None? ==> loadingError.Some?
      ensures UploadGate(text, parsed).None? ==>
        var d := DocumentFields(parsed.value, ids);
        && (curriculum.Some? <==> d.Ok? && |d.value.0| > 0)
        && (d.Err? ==> loadingError == Some(UploadError(ParseFailure(d.error))))
        && (d.Ok? && |d.value.0| == 0 ==> loadingError == Some(EmptyUpload))
    {
      var gate := UploadGate(text, parsed);
      if gate.Some? {
        loadingError := Some(UploadError(gate.value));
        curriculum := None;
        return ids;
      }
      var o;
      o, ids' := LoadCurriculum(parsed.value, ids);
      Apply(o, true);
    }
  }
}
