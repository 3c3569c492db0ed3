/** The file list of the JSON selector (src/components/JsonSelector.tsx): the
    display name of a file, order-preserving de-duplication and the rule that
    assembles the final list from the probed files, the server's list and a
    built-in list. The same display-name chain is `formatFileName` in
    src/App.tsx. */
module JsonSelector {
  import opened JsValue
  import opened Collections

  /** A select option: the file name and its display caption (`label`). */
  datatype JsonOption = JsonOption(value: string, caption: string)

  // -------------------------------------------------------- display names

  /** `.replace(/\.json$/, '')`: the extension is removed only at the very end. */
  function StripJsonExtension(s: string): (r: string)
    ensures |s| >= 5 && s[|s| - 5..] == ".json" ==> r == s[..|s| - 5]
    ensures !(|s| >= 5 && s[|s| - 5..] == ".json") ==> r == s
  {
    if |s| >= 5 && s[|s| - 5..] == ".json" then s[..|s| - 5] else s
  }

  /** The first position at or after `from` where p occurs in s. */
  function FirstOccurrence(s: string, p: string, from: nat): (r: Option<nat>)
    requires from <= |s|
    ensures r.Some? ==> (from <= r.value && OccursAt(s, p, r.value)
                         && forall j :: from <= j < r.value ==> !OccursAt(s, p, j))
    ensures r.None? ==> forall j :: from <= j ==> !OccursAt(s, p, j)
    decreases |s| - from
  {
    if from + |p| > |s| then None
    else if s[from..from + |p|] == p then Some(from)
    else FirstOccurrence(s, p, from + 1)
  }

  /** `.replace(pattern, rep)` for a pattern without special characters: only
      the first occurrence is replaced. */
  function ReplaceFirst(s: string, p: string, rep: string): (r: string)
    ensures !Includes(s, p) ==> r == s
    ensures Includes(s, p) ==> exists i :: (OccursAt(s, p, i) && (forall j :: 0 <= j < i ==> !OccursAt(s, p, j))
                                           && r == s[..i] + rep + s[i + |p|..])
  {
    var at := FirstOccurrence(s, p, 0);
    if at.None? then s else s[..at.value] + rep + s[at.value + |p|..]
  }

  /** `.replace(/a/g, b)` for one character. */
  function ReplaceAll(s: string, a: char, b: char): (r: string)
    ensures |r| == |s|
    ensures forall i :: 0 <= i < |s| ==> r[i] == if s[i] == a then b else s[i]
  {
    seq(|s|, i requires 0 <= i < |s| => if s[i] == a then b else s[i])
  }

  /** formatFileName */
  function FormatFileName(fileName: string): (r: string)
    ensures '_' !in r && '-' !in r
  {
    var base := ReplaceFirst(StripJsonExtension(fileName), ".pdf_converted_", ": ");
    var spaced := ReplaceAll(base, '_', ' ');
    ReplaceAll(spaced, '-', ' ')
  }

  /** Replacing every occurrence of a character leaves none of it, and keeps
      every other character. */
  lemma ReplaceAllRemoves(s: string, a: char, b: char)
    requires a != b
    ensures a !in ReplaceAll(s, a, b)
    ensures forall i :: 0 <= i < |s| && s[i] != a ==> ReplaceAll(s, a, b)[i] == s[i]
  {
  }

  /** A worked name: the extension goes, the converter marker becomes ": ",
      and underscores and hyphens become spaces. */
  lemma FormatFileNameExample()
    ensures FormatFileName("A.pdf_converted_B_c-d.json") == "A: B c d"
  {
    ExampleStrip();
    ExampleMarker();
    ExampleSpaces();
  }

  lemma ExampleStrip()
    ensures StripJsonExtension("A.pdf_converted_B_c-d.json") == "A.pdf_converted_B_c-d"
  {
    var full := "A.pdf_converted_B_c-d.json";
    assert full[|full| - 5..] == ".json";
    assert full[..|full| - 5] == "A.pdf_converted_B_c-d";
  }

  lemma ExampleMarker()
    ensures ReplaceFirst("A.pdf_converted_B_c-d", ".pdf_converted_", ": ") == "A: B_c-d"
  {
    var s := "A.pdf_converted_B_c-d";
    assert s[0..15][0] == 'A';
    assert s[1..16] == ".pdf_converted_";
    assert FirstOccurrence(s, ".pdf_converted_", 1) == Some(1);
    assert FirstOccurrence(s, ".pdf_converted_", 0) == Some(1);
    assert s[..1] == "A" && s[16..] == "B_c-d";
  }

  lemma ExampleSpaces()
    ensures ReplaceAll(ReplaceAll("A: B_c-d", '_', ' '), '-', ' ') == "A: B c d"
  {
    var t := ReplaceAll("A: B_c-d", '_', ' ');
    assert t == "A: B c-d";
    assert ReplaceAll(t, '-', ' ') == "A: B c d";
  }

  /** Only the first converter marker is replaced; a second one keeps its dot. */
  lemma SecondMarkerKept()
    ensures ReplaceFirst(".pdf_converted_.pdf_converted_", ".pdf_converted_", ": ") == ": .pdf_converted_"
  {
    assert OccursAt(".pdf_converted_.pdf_converted_", ".pdf_converted_", 0);
  }

  // -------------------------------------------------------- de-duplication

  function OptionValue(o: JsonOption): string { o.value }

  /** removeDuplicates: the `filter` with its `uniqueValues` set. */
  method RemoveDuplicates(files: seq<JsonOption>) returns (unique: seq<JsonOption>)
    ensures unique == DedupBy(files, OptionValue)
  {
    unique := [];
    var uniqueValues: set<string> := {};
    var i := 0;
    while i < |files|
      invariant 0 <= i <= |files|
      invariant unique == DedupBy(files[..i], OptionValue)
      invariant forall v :: v in uniqueValues <==> v in KeysOf(unique, OptionValue)
    {
      assert files[..i + 1] == files[..i] + [files[i]];
      DedupBySnoc(files[..i], files[i], OptionValue);
      if files[i].value !in uniqueValues {
        KeysOfSnoc(unique, files[i], OptionValue);
        unique := unique + [files[i]];
        uniqueValues := uniqueValues + {files[i].value};
      }
      i := i + 1;
    }
    assert files[..i] == files;
  }

  /** The values kept are pairwise distinct, every input value is kept, the
      kept entries are the first of their value in input order, and removing
      duplicates again changes nothing. */
  lemma RemoveDuplicatesFacts(files: seq<JsonOption>)
    ensures DistinctKeys(DedupBy(files, OptionValue), OptionValue)
    ensures forall i :: 0 <= i < |files| ==> files[i].value in KeysOf(DedupBy(files, OptionValue), OptionValue)
    ensures forall y :: y in DedupBy(files, OptionValue) ==>
      exists i :: 0 <= i < |files| && files[i] == y && IsFirst(files, i, OptionValue)
    ensures Subsequence(DedupBy(files, OptionValue), files)
    ensures DedupBy(DedupBy(files, OptionValue), OptionValue) == DedupBy(files, OptionValue)
  {
    DedupByFacts(files, OptionValue);
    DedupByIdempotent(files, OptionValue);
  }

  // ------------------------------------------------------------ the list

  const KnownDirectories: seq<string> := ["/json/", "/public/json/"]

  const KnownFiles: seq<string> := [
    "Anlagenmechaniker-IH04-03-25-idF-18-02-23_Anlagenmechaniker_Anlagenmechanikerin.json",
    "Aenderungsschneider.pdf_converted_Änderungsschneider_Änderungsschneiderin.json",
    "Anlagenmechaniker_SHK_16-01-29-E.pdf_converted_Anlagenmechaniker_für_Sanitär-__Heizungs-_und_Klimatechnik_Anlagenmechanikerin_für_Sanitär-__Heizungs-_und_Klimatechnik.json",
    "Asphaltbauer84-02-10.pdf_converted_Asphaltbauer_Asphaltbauerin.json",
    "Aufbereitungsmechaniker92-04-29.pdf_converted_Aufbereitungsmechaniker_Aufbereitungsmechanikerin.json",
    "Augenoptiker11-03-25-E_01.pdf_converted_Augenoptiker_Augenoptikerin.json",
    "Ausbaufacharbeiter.pdf_converted_Ausbaufacharbeiter_-in.json"]

  function FileOption(file: string): (o: JsonOption)
    ensures o.value == file
  {
    JsonOption(file, FormatFileName(file))
  }

  function Options(files: seq<string>): (r: seq<JsonOption>)
    ensures |r| == |files| && forall i :: 0 <= i < |files| ==> r[i] == FileOption(files[i])
  {
    seq(|files|, i requires 0 <= i < |files| => FileOption(files[i]))
  }

  /** The files of one directory that answer the probe, in list order. */
  function ProbeDirectory(headOk: string -> bool, dir: string, files: seq<string>): seq<JsonOption> {
    if |files| == 0 then []
    else
      var f := files[|files| - 1];
      ProbeDirectory(headOk, dir, files[..|files| - 1]) + (if headOk(dir + f) then [FileOption(f)] else [])
  }

  /** The hits of all directories, directory by directory. */
  function DirectHits(headOk: string -> bool, dirs: seq<string>, files: seq<string>): seq<JsonOption> {
    if |dirs| == 0 then []
    else DirectHits(headOk, dirs[..|dirs| - 1], files) + ProbeDirectory(headOk, dirs[|dirs| - 1], files)
  }

  /** The files listed by the server, when it answered with a `files` array. */
  function ApiHits(api: Option<seq<string>>): seq<JsonOption> {
    if api.Some? then Options(api.value) else []
  }

  /** The files found, or the fallback list when none were found; de-duplicated
      in either case. */
  function FinalList(found: seq<JsonOption>, fallback: seq<string>): seq<JsonOption> {
    DedupBy(if |found| == 0 then Options(fallback) else found, OptionValue)
  }

  /** The HEAD probes of refreshJsonFiles: each directory, each file. */
  method ProbeFiles(headOk: string -> bool, dirs: seq<string>, files: seq<string>) returns (found: seq<JsonOption>)
    ensures found == DirectHits(headOk, dirs, files)
  {
    found := [];
    var d := 0;
    while d < |dirs|
      invariant 0 <= d <= |dirs|
      invariant found == DirectHits(headOk, dirs[..d], files)
    {
      assert dirs[..d + 1][..d] == dirs[..d];
      var dir := dirs[d];
      ghost var before := found;
      var f := 0;
      while f < |files|
        invariant 0 <= f <= |files|
        invariant found == before + ProbeDirectory(headOk, dir, files[..f])
      {
        assert files[..f + 1][..f] == files[..f];
        if headOk(dir + files[f]) {
          found := found + [FileOption(files[f])];
        }
        f := f + 1;
      }
      assert files[..f] == files;
      d := d + 1;
    }
    assert dirs[..d] == dirs;
  }

  /** refreshJsonFiles: the probe hits followed by the server's files, the
      built-in list when both are empty, then de-duplication. */
  method RefreshJsonFiles(headOk: string -> bool, api: Option<seq<string>>) returns (files: seq<JsonOption>)
    ensures files == FinalList(DirectHits(headOk, KnownDirectories, KnownFiles) + ApiHits(api), KnownFiles)
  {
    var foundFiles := ProbeFiles(headOk, KnownDirectories, KnownFiles);
    if api.Some? {
      var apiFiles := Options(api.value);
      foundFiles := foundFiles + apiFiles;
    } else {
      assert foundFiles + ApiHits(api) == foundFiles;
    }
    if |foundFiles| == 0 {
      foundFiles := Options(KnownFiles);
    }
    files := RemoveDuplicates(foundFiles);
  }

  /** The final list is never empty, its values are distinct, and it holds
      exactly the values found, or the fallback values when nothing was found. */
  lemma FinalListFacts(found: seq<JsonOption>, fallback: seq<string>, v: string)
    requires |fallback| > 0
    ensures |FinalList(found, fallback)| > 0
    ensures DistinctKeys(FinalList(found, fallback), OptionValue)
    ensures |found| > 0 ==> (v in KeysOf(FinalList(found, fallback), OptionValue) <==> v in KeysOf(found, OptionValue))
    ensures |found| == 0 ==> (v in KeysOf(FinalList(found, fallback), OptionValue) <==> v in fallback)
  {
    var source := if |found| == 0 then Options(fallback) else found;
    DedupByKeySet(source, OptionValue, v);
    if |found| == 0 {
      OptionsKeys(fallback, v);
    }
  }

  /** The values of the options built from a list are the list's files. */
  lemma OptionsKeys(files: seq<string>, v: string)
    ensures v in KeysOf(Options(files), OptionValue) <==> v in files
  {
    if v in files {
      var i :| 0 <= i < |files| && files[i] == v;
      assert KeysOf(Options(files), OptionValue)[i] == v;
    }
  }

  /** The built-in list is not empty, so the refreshed list never is, and the
      first file of it can always be selected. */
  lemma RefreshedNonEmpty(headOk: string -> bool, api: Option<seq<string>>)
    ensures var files := FinalList(DirectHits(headOk, KnownDirectories, KnownFiles) + ApiHits(api), KnownFiles);
      |files| > 0 && AutoSelect("", files) == Some(files[0].value)
  {
    FinalListFacts(DirectHits(headOk, KnownDirectories, KnownFiles) + ApiHits(api), KnownFiles, "");
  }

  /** The effect on a new `jsonFiles` prop: a non-empty list is de-duplicated,
      an empty one triggers the refresh (whose result is passed in). */
  function LocalFiles(jsonFiles: seq<JsonOption>, refreshed: seq<JsonOption>): (r: seq<JsonOption>)
    ensures |jsonFiles| > 0 ==> DistinctKeys(r, OptionValue)
    ensures |jsonFiles| == 0 ==> r == refreshed
  {
    if |jsonFiles| > 0 then
      DedupByFacts(jsonFiles, OptionValue);
      DedupBy(jsonFiles, OptionValue)
    else refreshed
  }

  /** After a refresh, the first file is selected when none is selected yet. */
  function AutoSelect(selectedFile: string, unique: seq<JsonOption>): (r: Option<string>)
    ensures r.Some? <==> selectedFile == "" && |unique| > 0
    ensures r.Some? ==> r.value == unique[0].value
  {
    if selectedFile == "" && |unique| > 0 then Some(unique[0].value) else None
  }
}
