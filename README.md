# curriculumexplorer, modelled in Dafny

curriculumexplorer is a browser application for German vocational training
curricula (Rahmenlehrpläne). It loads a curriculum document as JSON, in one of
several loosely defined dialects, normalises it into learning fields
(Lernfelder) and their competencies, and shows the result as a tree,
statistics charts and a visual mapping of competencies to ESCO skills. From a
competency it derives a search term and asks the WLO (WirLernenOnline)
edu-sharing service for matching learning material.

This project models the logic behind those views:

- the curriculum normaliser (`src/lib/curriculumParser.ts`): dialect
  detection, the four field parsers, the envelope's synonym chains, the
  flattening of competencies with their parent ids, and the statistics
  record (modules `SchemaDetection`, `Envelope`, `AnlagenmechanikerParser`,
  `SkillMappings`, `StandardParser`, `NestedParser`, `AnyFormatParser`,
  `CurriculumMetadata`, `CurriculumParser`, with the records in
  `CurriculumTypes`);
- the JSON debugger's diagnostics and structure summariser (`JsonDebugger`);
- the statistics panel's aggregation (`StatisticsPanel`);
- the visualisation panel's icon choice, expansion, ESCO collection and
  selection rules (`VisualsPanel`);
- the text rendering of a WLO collection hierarchy (`CollectionTree`);
- the JSON selector's file list and captions (`JsonSelector`);
- the application's loading outcome and search term (`App`);
- the request side of the WLO client and its debug listeners (`WloApi`).

`JsValue` models the JavaScript values a JSON document denotes and the
built-ins the code uses on them (truthiness, `||`, property reads,
`parseInt`, `parseFloat`, `Number`, `toLowerCase`, `trim`); `Collections`
holds the generic sequence operations (`map` and `filter` with failure,
stable sorting, counting, order-preserving de-duplication).

A raw document is a `Json` value whose objects are sequences of members in
enumeration order. A thrown `TypeError` (a property read on null,
`Object.keys(null)`, a call of a method the value does not have) is an `Err`
of a `Result`. Loops of the source are methods with loop invariants, proved
equal to a function of their inputs; the properties are proved about those
functions. State the application keeps between events is a class: the
application's state (`App.AppState`), the expansion record and the two
selection states of the visualisation panel, and the WLO debug-listener
registry.

## Model

| member | source | states |
|---|---|---|
| SchemaDetection.DetectSchemaType | src/lib/curriculumParser.ts:86-106 | each dialect is chosen exactly when its shape holds and no earlier shape holds, and Unknown exactly when no shape holds |
| SchemaDetection.NonArrayLearningFieldsUnknown | src/lib/curriculumParser.ts:93-105 | a truthy `learningFields` that is not an array does not make a document Standard |
| Envelope.Extract | src/lib/curriculumParser.ts:109-283 | an envelope attribute is the value at the first synonym path that holds a truthy value, and the default when no path does |
| Envelope.ExtractId | src/lib/curriculumParser.ts:125-131 | the identifier generator is consulted, and its next identifier used, exactly when no identifier location is truthy; otherwise the identifier is the value at the first truthy location |
| Envelope.ProfessionTitleFromBeruf | src/lib/curriculumParser.ts:153-163 | a truthy `beruf` is the profession title as it stands; an object there becomes "[object Object]" as text |
| Envelope.BerufTitleLocationsDead | src/lib/curriculumParser.ts:157-158 | the `beruf.bezeichnung` and `beruf.title` locations are reached only when `beruf` is falsy, and then they hold nothing |
| Envelope.ExtractTrainingYears | src/lib/curriculumParser.ts:211-230 | a string candidate yields the value of its first digit run; otherwise the candidate's number, or 3 when that is 0 or NaN |
| Envelope.TrainingYearsDefault | src/lib/curriculumParser.ts:211-230 | with no usable candidate the training lasts 3 years |
| Envelope.TrainingYearsFromText | src/lib/curriculumParser.ts:221-226 | a text such as "3 Jahre" yields the number it starts with |
| Envelope.ParseFloatOf | src/lib/curriculumParser.ts:216 | `parseFloat` always gives a number, and NaN (falsy, so skipped) for an undefined duration |
| CurriculumTypes.WithParent | src/lib/curriculumParser.ts:63-69 | stamping keeps a field's id and the number and order of its competencies, and sets each competency's parentId to the field's id |
| CurriculumParser.Dialect | src/lib/curriculumParser.ts:44-56 | the field list comes from the parser the detected schema selects, and every field it yields already names itself as its competencies' parent |
| CurriculumParser.ParseCurriculum | src/lib/curriculumParser.ts:3-83 | `Object.keys(null)` is an error; otherwise the parse succeeds exactly when the selected dialect parser does, fails with that parser's error, and on success yields the envelope, the first drawn id, the dialect's fields, their competencies in field order and statistics over them |
| CurriculumParser.StampParents | src/lib/curriculumParser.ts:61-71 | the nested loop yields each field stamped with its parent id and the flat list of the stamped competencies in field order |
| CurriculumParser.StampedUnchanged | src/lib/curriculumParser.ts:63-69 | stamping changes nothing when every field already names itself as parent |
| CurriculumParser.AllCompetenciesConcat | src/lib/curriculumParser.ts:62-71 | the flat list of two field lists is the concatenation of their flat lists |
| CurriculumParser.CompetencyOfField | src/lib/curriculumParser.ts:62-71 | competency j of field i sits in the flat list right after the competencies of earlier fields and names field i as parent |
| CurriculumParser.StandardEmptyNotRetried | src/lib/curriculumParser.ts:47-56 | a Standard document with an empty `learningFields` array yields no fields and is not handed to the any-format search |
| CurriculumParser.ParsedParents | src/lib/curriculumParser.ts:61-71 | every competency of a parsed curriculum belongs to one of its fields and names that field as parent |
| CurriculumParser.InFlatList | src/lib/curriculumParser.ts:62-69 | every position of the flat list holds a competency of some field that names that field as parent |
| AnlagenmechanikerParser.IntOr | src/lib/curriculumParser.ts:305-320 | `parseInt(x, 10) || d` is the parsed integer when it is a non-zero number, and d otherwise |
| AnlagenmechanikerParser.Hours | src/lib/curriculumParser.ts:303-310 | the hours are the integer parsed from the first present of `zeitwert.wert`, `stunden`, `zeitrichtwert`, and 0 when that does not parse or none is present |
| AnlagenmechanikerParser.Year | src/lib/curriculumParser.ts:312-321 | the training year is always a number |
| AnlagenmechanikerParser.TruncateTitle | src/lib/curriculumParser.ts:351-354 | truncation changes at most the title; `.substring` on a long non-string is an error |
| AnlagenmechanikerParser.WithSkills | src/lib/curriculumParser.ts:356-390 | without a `skills` array the competency is unchanged; with one only the mappings and the analysis change |
| AnlagenmechanikerParser.ParseCompetency | src/lib/curriculumParser.ts:337-393 | a null entry is an error when its `id` is read; a parsed competency names the field as parent and has no level |
| AnlagenmechanikerParser.ParseField | src/lib/curriculumParser.ts:299-397 | a null entry is an error when its `name` is read; a parsed field names itself as parent, takes its hours and year from the rules above and its code from `nummer` or its position |
| AnlagenmechanikerParser.ParseAnlagenmechanikerFormat | src/lib/curriculumParser.ts:286-398 | no fields when the source is not a non-empty array; otherwise one field per entry, each naming itself as its competencies' parent |
| AnlagenmechanikerParser.FieldList | src/lib/curriculumParser.ts:299-398 | the `map` over the entries succeeds exactly when every entry parses; field i is then the parse of entry i; otherwise the first entry that throws gives the error |
| AnlagenmechanikerParser.AnlagenmechanikerFormatFields | src/lib/curriculumParser.ts:286-398 | on a source array the format succeeds exactly when every entry parses, field i is the parse of entry i, and otherwise the error is that of the first failing entry |
| AnlagenmechanikerParser.YearIgnoresAusbildungsjahr | src/lib/curriculumParser.ts:313-321 | when `zeitraum` is a non-empty text the value of `ausbildungsjahr` has no effect, even if the text has no digits |
| AnlagenmechanikerParser.YearFromZeitraum | src/lib/curriculumParser.ts:314-318 | a `zeitraum` text yields the value of its first digit run, or 1 without digits |
| AnlagenmechanikerParser.YearDefault | src/lib/curriculumParser.ts:313-321 | without a `zeitraum` text and without `ausbildungsjahr` the year is 1 |
| AnlagenmechanikerParser.YearFromAusbildungsjahr | src/lib/curriculumParser.ts:313-320 | without a `zeitraum` text but with a truthy `ausbildungsjahr`, the year is that value through parseInt, or 1 when that gives NaN or 0 |
| AnlagenmechanikerParser.LongTextTitle | src/lib/curriculumParser.ts:341-354 | a title taken from a text longer than 50 characters becomes its first 50 characters and "..." (53 characters), and the description keeps the whole text |
| AnlagenmechanikerParser.ShortTextTitle | src/lib/curriculumParser.ts:341-354 | a text of at most 50 characters is the title unchanged |
| AnlagenmechanikerParser.TitleWithoutTextKept | src/lib/curriculumParser.ts:341-354 | without `text` the title from `titel` is kept however long it is |
| AnlagenmechanikerParser.UnparseableHours | src/lib/curriculumParser.ts:306-307 | an hour text that does not parse gives 0 hours |
| AnlagenmechanikerParser.SkillRelevanceScaled | src/lib/curriculumParser.ts:363 | relevance 4 on the 1–5 scale gives confidence 0.8 |
| SkillMappings.SkillConfidence | src/lib/curriculumParser.ts:363 | a truthy relevance is divided by 5; without one the confidence is 0.8 |
| SkillMappings.SkillMapping | src/lib/curriculumParser.ts:358-365 | a mapping is built exactly when the skill is not null; it carries the scaled confidence, empty alternative labels and `esco-<index>` when the skill has no id |
| SkillMappings.SkillMappingList | src/lib/curriculumParser.ts:357-366 | the list succeeds exactly when no skill is null, and then has one mapping per skill with that skill's confidence |
| SkillMappings.CompetenceAnalysis | src/lib/curriculumParser.ts:368-377 | the skill type is `kompetenzdimension`, else `lernzielbereich`, else empty; relevance and digital level are 0 |
| StandardParser.GenericMapping | src/lib/curriculumParser.ts:477-485 | an entry is mapped exactly when it is not null; its confidence is copied unscaled; an identifier is drawn exactly when the entry has no truthy id |
| StandardParser.GenericMappingList | src/lib/curriculumParser.ts:477-485 | the list succeeds exactly when no entry is null, with one mapping per entry in order |
| StandardParser.FirstArrayKey | src/lib/curriculumParser.ts:472-474 | the first mapping key whose value is an array, and none when no key holds one |
| StandardParser.EscoMappingsOf | src/lib/curriculumParser.ts:471-500 | the first array-valued key decides and the search stops there; a generic array gives one mapping per entry; a `skills` array gives scaled mappings only when its first entry has a uri, and none otherwise |
| StandardParser.StandardBase | src/lib/curriculumParser.ts:432-457 | the competency names its field as parent, has no mappings yet and takes its analysis from the three analysis records |
| StandardParser.StandardCompetency | src/lib/curriculumParser.ts:431-503 | a null entry is an error; apart from its analysis and mappings the competency is the base record of the entry; a truthy `competence_analysis` replaces the analysis, otherwise the records' analysis stays; the mappings are those of the mapping loop |
| StandardParser.CompetencyList | src/lib/curriculumParser.ts:428-504 | one competency per entry, competency i made from entry i and naming the field as parent; the list is complete whenever no entry fails |
| StandardParser.CompetencyFromBase | src/lib/curriculumParser.ts:431-503 | a competency made from an entry is that entry's base record apart from analysis and mappings, takes its analysis from a truthy `competence_analysis` and otherwise from the records, comes from a non-null entry and names the field as parent |
| StandardParser.StandardFieldBase | src/lib/curriculumParser.ts:415-425 | the record carries the given id and no competencies; code, title and description are the first truthy member of their synonym chains, else `LF<n>`, `Lernfeld <n>` and the empty text; hours and year are parseInt of the first truthy member of theirs, else 0 and 1, so they are numbers (NaN included) |
| StandardParser.FirstTruthy | src/lib/curriculumParser.ts:417-422 | an `or` chain over the members `v[k1]`, `v[k2]`, … and a fallback is the value of the first truthy member, else the fallback |
| StandardParser.IntMember | src/lib/curriculumParser.ts:420-421 | parseInt of such a chain with the natural fallback n is a number: parseInt of the first truthy member, else n itself |
| StandardParser.FieldId | src/lib/curriculumParser.ts:416 | a truthy `id` is kept, otherwise the field is called `lf<index+1>` |
| StandardParser.StandardField | src/lib/curriculumParser.ts:412-507 | a null entry is an error when its `title` is logged; otherwise the field is the base record under FieldId, names itself as parent, and has the competencies of its competency source when that is an array (failing exactly when that list fails) and none otherwise |
| StandardParser.FieldList | src/lib/curriculumParser.ts:412-507 | one field per entry, field i made from entry i, so apart from its competencies it is entry i's base record under entry i's id and names itself as parent; the list is complete whenever no entry fails |
| StandardParser.FieldFromBase | src/lib/curriculumParser.ts:412-507 | a field made from an entry is that entry's base record under its id apart from competencies, names itself as parent and comes from a non-null entry |
| StandardParser.FieldsFromBase | src/lib/curriculumParser.ts:412-507 | the same for every field of a list made entry by entry |
| StandardParser.ParseStandardFormat | src/lib/curriculumParser.ts:401-508 | no fields when the source is not a non-empty array; otherwise one field per entry |
| StandardParser.StandardFormatFields | src/lib/curriculumParser.ts:401-508 | on a source array, field i is made from entry i and is its base record apart from competencies; the parse succeeds whenever no entry fails |
| StandardParser.WrapSource | src/lib/curriculumParser.ts:405 | a wrapped field list is read back as the field source |
| StandardParser.EscoMappingsKeyWins | src/lib/curriculumParser.ts:472-499 | an `escoMappings` array wins over every later key, `skills` included |
| StandardParser.GenericConfidenceUnscaled | src/lib/curriculumParser.ts:484 | a generic confidence of 4 stays 4, unlike a skill relevance |
| NestedParser.KeyDigits | src/lib/curriculumParser.ts:529 | the digits that end a field key are a non-empty run of digits |
| NestedParser.FieldNumberOfKey | src/lib/curriculumParser.ts:529-531 | for a key that passes the field-key test, the first digit run is exactly the digits that end it |
| NestedParser.LernfeldKeyExamples | src/lib/curriculumParser.ts:529 | "Lernfeld 3" and "lernfeld12" are field keys; "Lernfeld 3a", "Lernfeld" and "LF3" are not |
| NestedParser.ZielItem | src/lib/curriculumParser.ts:572-588 | a `zielformulierungen` entry fails exactly when it is null |
| NestedParser.ListItem | src/lib/curriculumParser.ts:598-623 | a list entry fails exactly when it is null, and otherwise has the list's competency type |
| NestedParser.ContentItem | src/lib/curriculumParser.ts:626-636 | an `inhalte` entry fails exactly when it is null, and otherwise has type Fachkompetenz |
| NestedParser.ExtractCompetenciesFromNestedField | src/lib/curriculumParser.ts:558-639 | the early returns and loops compute the nested competencies of the field record |
| NestedParser.CollectList | src/lib/curriculumParser.ts:598-623 | the `forEach` loop yields the competencies of one list |
| NestedParser.CollectContent | src/lib/curriculumParser.ts:626-636 | the `for…in` loop yields the competencies of `inhalte` |
| NestedParser.CollectListParts | src/lib/curriculumParser.ts:594-638 | the three loops push fertigkeiten, then kenntnisse, then inhalte into one list |
| NestedParser.KompetenzenFirst | src/lib/curriculumParser.ts:560-562 | an existing `kompetenzen` array is returned as it is, before anything else |
| NestedParser.ZielformulierungenExclusive | src/lib/curriculumParser.ts:568-592 | a truthy `zielformulierungen` record is used alone: whatever the three lists hold has no effect |
| NestedParser.ListsConcatenated | src/lib/curriculumParser.ts:594-638 | otherwise the competencies are the fertigkeiten, then the kenntnisse, then the inhalte, each of the matching type |
| NestedParser.ListKinds | src/lib/curriculumParser.ts:598-623 | every competency of a list part has that part's type |
| NestedParser.ContentKinds | src/lib/curriculumParser.ts:625-636 | every competency of the inhalte part has type Fachkompetenz |
| NestedParser.InhalteRecord | src/lib/curriculumParser.ts:533-544 | the pushed record has id `lf<n>`, code `LF<n>` and the extracted competencies |
| NestedParser.InhalteField | src/lib/curriculumParser.ts:528-545 | a field member fails exactly when it is null or its competencies fail, and otherwise is named after its key's digits |
| NestedParser.BuildInhalteField | src/lib/curriculumParser.ts:529-543 | one `Lernfeld N` member yields the record with id `lfN`, code `LFN` and its nested competencies, or the error a null member or its competencies raise |
| NestedParser.CollectInhalteFields | src/lib/curriculumParser.ts:525-546 | the `for…in` loop yields one record per field key, in member order, stopping at the first error |
| NestedParser.VisitInhalteMember | src/lib/curriculumParser.ts:525-546 | one pass of the loop pushes the record of a field key, or throws its error, and skips any other member |
| NestedParser.InhalteFieldIds | src/lib/curriculumParser.ts:528-545 | only field keys become fields, one per key in member order, with id and code taken from the digits that end the key |
| NestedParser.InhalteFieldId | src/lib/curriculumParser.ts:531-535 | a field member's id and code carry the digits that end its key |
| NestedParser.ParseNestedFormat | src/lib/curriculumParser.ts:511-555 | the branch chain and the final hand-over to the standard parser compute the nested dialect's fields |
| NestedParser.NestedFields | src/lib/curriculumParser.ts:549-554 | a non-empty source array is parsed as the standard format: field i is made from entry i, is its base record apart from competencies and names itself as parent; anything that is not an array gives no fields |
| AnyFormatParser.TruthyPath | src/lib/curriculumParser.ts:658-676 | a dotted location yields a value only when every read along it was truthy |
| AnyFormatParser.TruthyPathSegments | src/lib/curriculumParser.ts:663-670 | a location is usable exactly when every prefix of its path reads a truthy value, and then it yields the value at the full path |
| AnyFormatParser.WalkPath | src/lib/curriculumParser.ts:659-676 | the segment loop with its `break` computes the truthy-path value |
| AnyFormatParser.ReplaceLf | src/lib/curriculumParser.ts:704 | a leading `lf` in any case becomes `LF`; the rest of the key is kept and a key without the prefix is unchanged |
| AnyFormatParser.NumberedField | src/lib/curriculumParser.ts:699-708 | a numbered member fails exactly when its value is null, and otherwise becomes an object |
| AnyFormatParser.NumberedFieldDefaults | src/lib/curriculumParser.ts:703-707 | a missing id becomes the key and a missing code the key with its `lf` prefix rewritten; for a purely numeric key the code is the key itself, so the `LF<n>` branch never applies |
| AnyFormatParser.NumberedFieldKeepsIds | src/lib/curriculumParser.ts:703-704 | an existing id and code are kept |
| AnyFormatParser.CollectNumbered | src/lib/curriculumParser.ts:692-711 | the `for…in` loop builds the list of numbered fields, failing at the first null member |
| AnyFormatParser.FirstArrayWins | src/lib/curriculumParser.ts:654-688 | when every earlier location is passed over, the first location holding an array supplies the fields |
| AnyFormatParser.AllObjectsAreObjects | src/lib/curriculumParser.ts:748-758 | the collected values are all objects, an object comes before everything inside it, and a scalar contributes nothing |
| AnyFormatParser.FindAllObjects | src/lib/curriculumParser.ts:748-758 | the recursive walk appends the objects of the value, in pre-order, to the accumulator |
| AnyFormatParser.FindAllInValues | src/lib/curriculumParser.ts:751-754 | the `forEach` over elements or values appends the objects of each in turn |
| AnyFormatParser.FindLearningFieldsAnyFormat | src/lib/curriculumParser.ts:642-745 | the location loop, the property fallback and the hand-over to the standard parser compute the any-format fields |
| AnyFormatParser.FallbackFieldsLookLikeFields | src/lib/curriculumParser.ts:722-735 | when no location yields fields, every field of the fallback is an object with a name, an identifier and a competency list |
| CurriculumMetadata.TypeLabel | src/lib/curriculumParser.ts:772-775 | a competency counts in the type distribution exactly when its type is truthy |
| CurriculumMetadata.BloomLabel | src/lib/curriculumParser.ts:780-783 | a competency counts in the bloom distribution exactly when its bloom level is truthy |
| CurriculumMetadata.Labels | src/lib/curriculumParser.ts:771-784 | one label per competency, in order |
| CurriculumMetadata.GenerateCurriculumMetadata | src/lib/curriculumParser.ts:761-796 | the record holds the competency count, the ESCO total, the number with digital level above 2, both distributions, and the average of the competencies over the fields |
| CurriculumMetadata.Average | src/lib/curriculumParser.ts:790-792 | the average is 0 without fields, and otherwise times the field count gives the competency count |
| CurriculumMetadata.EscoCountLoop | src/lib/curriculumParser.ts:764-765 | the `reduce` computes the total number of ESCO mappings |
| CurriculumMetadata.DigitalCountLoop | src/lib/curriculumParser.ts:767-768 | the `filter` counts the competencies whose digital level is above 2 |
| CurriculumMetadata.TallyLoop | src/lib/curriculumParser.ts:770-784 | the `forEach` builds the tally of the labels |
| CurriculumMetadata.TypeDistributionCounts | src/lib/curriculumParser.ts:770-776 | a type is a key of the distribution exactly when some competency has it as a truthy type, and its count is the number of such competencies |
| CurriculumMetadata.UnlabelledIgnored | src/lib/curriculumParser.ts:772 | a competency without the label leaves the distribution unchanged |
| CurriculumMetadata.EscoTotalConcat | src/lib/curriculumParser.ts:764-765 | the ESCO total of two lists together is the sum of their totals |
| JsonDebugger.TopLevelKeys | src/JsonDebugger.tsx:29 | the keys of the document, in member order |
| JsonDebugger.AnalyzeJsonStructure | src/JsonDebugger.tsx:28-60 | the document is probably valid exactly when one of the three key checks holds; the detected structures are the found ones among the three |
| JsonDebugger.LookupIsKey | src/JsonDebugger.tsx:29-34 | any key the parser can read is among the top-level keys |
| JsonDebugger.RecognisedIsProbablyValid | src/JsonDebugger.tsx:28-60 | a document the parser assigns a dialect is reported as probably valid |
| JsonDebugger.ValidButUnknown | src/JsonDebugger.tsx:31-35 | the converse fails: a string under `learningFields` is reported valid while the parser leaves the document unknown |
| JsonDebugger.WithKey | src/JsonDebugger.tsx:107-110 | the copy has `_key` set to the key and every other member of the original |
| JsonDebugger.Tagged | src/JsonDebugger.tsx:105-112 | one copy per member, in order |
| JsonDebugger.FirstLocationFacts | src/JsonDebugger.tsx:67-120 | nothing is reported exactly when no location holds fields; otherwise the report is for a location that does |
| JsonDebugger.PathGetOne | src/JsonDebugger.tsx:67 | a one-segment path reads the member itself |
| JsonDebugger.AnalyzeLearningFields | src/JsonDebugger.tsx:63-123 | the `if … else if` chain reports the first location that holds fields |
| JsonDebugger.AnalyzeNestedLocations | src/JsonDebugger.tsx:82-120 | the last five branches report the first of those locations that holds fields |
| JsonDebugger.CollectLernfeldEntries | src/JsonDebugger.tsx:104-112 | the `for…in` loop pushes the tagged copies of the field-key members |
| JsonDebugger.TaggedStep | src/JsonDebugger.tsx:105-111 | one more member adds its copy exactly when its key is a field key |
| JsonDebugger.LernfeldEntriesKeys | src/JsonDebugger.tsx:105-111 | each entry is the tagged copy of the value under a field key |
| JsonDebugger.LocateFrom | src/JsonDebugger.tsx:135-156 | the first truthy location from a position on, or none when there is none |
| JsonDebugger.Locate | src/JsonDebugger.tsx:135-156 | the first truthy location of a chain, or none exactly when all are falsy |
| JsonDebugger.NameAt | src/JsonDebugger.tsx:137-155 | at most one name is recorded per chain |
| JsonDebugger.Probe | src/JsonDebugger.tsx:135-156 | one chain sets its value from the first truthy location and appends that location's name |
| JsonDebugger.AnalyzeProfessionData | src/JsonDebugger.tsx:126-186 | title, code and description each come from the first truthy location of their chain, and at most three names are recorded, in chain order |
| JsonDebugger.BerufShadowsBezeichnung | src/JsonDebugger.tsx:135-146 | the `beruf.bezeichnung` branch is never the one taken |
| JsonDebugger.Shown | src/JsonDebugger.tsx:432 | at most the first ten members are summarised |
| JsonDebugger.MapObjectStructure | src/JsonDebugger.tsx:414-445 | the recursive summariser computes the summary of the value |
| JsonDebugger.SummariseMembers | src/JsonDebugger.tsx:432-434 | the `forEach` summarises the first ten members, in order |
| JsonDebugger.MaxOfFacts | src/JsonDebugger.tsx:414-445 | the largest of the numbers, 0 for none |
| JsonDebugger.NestingBound | src/JsonDebugger.tsx:414-445 | the summary nests at most `maxDepth - currentDepth` levels |
| JsonDebugger.ObjectSummaryKeys | src/JsonDebugger.tsx:430-441 | below the cutoff an object keeps its first ten keys in order and gets the "more" entry exactly when it has more than ten |
| JsonDebugger.CutoffSummary | src/JsonDebugger.tsx:415-423 | at the cutoff the summary is one flat text: `Array(n)`, `Object{k1, k2, …}` or the type name |
| JsonDebugger.ArraySummary | src/JsonDebugger.tsx:425-428 | below the cutoff an empty array is `"[]"` and any other the summary of its first element followed by `... (n items)` |
| StatisticsPanel.ComputeHoursPerYear | src/components/StatisticsPanel.tsx:35-39 | the `forEach` builds the hours-per-year record |
| StatisticsPanel.FieldsOfYear | src/components/StatisticsPanel.tsx:37 | the fields listed for a year all fall in that year |
| StatisticsPanel.YearKeys | src/components/StatisticsPanel.tsx:35-39 | a year is a key of the record exactly when some field falls in it (`year || 1`) |
| StatisticsPanel.HoursOfYear | src/components/StatisticsPanel.tsx:38 | each year maps to the sum of `hours || 0` over its fields |
| StatisticsPanel.NoneInYear | src/components/StatisticsPanel.tsx:37 | a year no field falls in has no fields summed |
| StatisticsPanel.MapTotalOther | src/components/StatisticsPanel.tsx:38 | updating a key that is not summed leaves the sum unchanged |
| StatisticsPanel.MapTotalAdd | src/components/StatisticsPanel.tsx:38 | adding an amount to one summed key adds it to the sum |
| StatisticsPanel.YearsFacts | src/components/StatisticsPanel.tsx:35-39 | the year list has no duplicates and holds exactly the keys of the record |
| StatisticsPanel.HoursPerYearTotal | src/components/StatisticsPanel.tsx:35-39 | the hours of all years add up to the hours of all fields |
| StatisticsPanel.YearTotalStep | src/components/StatisticsPanel.tsx:38 | one step of the loop adds the field's hours to the total over the years |
| StatisticsPanel.DisplayedTotalHours | src/components/StatisticsPanel.tsx:295 | a truthy `totalHours` is shown as it is; otherwise the total shown equals the total of the per-year chart |
| StatisticsPanel.AreaTag | src/components/StatisticsPanel.tsx:60-61 | every competency has a learning area, `Nicht definiert` when none is given |
| StatisticsPanel.ByFieldLastWins | src/components/StatisticsPanel.tsx:48-52 | the table under a code holds the counts of the last field with that code, the earlier ones being reset |
| StatisticsPanel.ByFieldKeys | src/components/StatisticsPanel.tsx:48-50 | a code is a key exactly when some field has it |
| StatisticsPanel.AreaBuckets | src/components/StatisticsPanel.tsx:59-63 | every competency lands in the bucket of its area, and each bucket counts the competencies of that area |
| StatisticsPanel.TaxonomyPairsConcat | src/components/StatisticsPanel.tsx:48-76 | the taxonomy increments of two field lists are those of the first followed by those of the second |
| StatisticsPanel.NestAllConcat | src/components/StatisticsPanel.tsx:66-73 | applying two runs of increments is applying the first, then the second |
| StatisticsPanel.TaxonomyByArea | src/components/StatisticsPanel.tsx:66-73 | an area is a key of the taxonomy table exactly when some competency with a bloom level has it, and its levels are tallied |
| StatisticsPanel.NoLevels | src/components/StatisticsPanel.tsx:67-69 | an area no competency names has no levels |
| StatisticsPanel.TaxonomyNeedsBloom | src/components/StatisticsPanel.tsx:66 | a competency without a truthy bloom level adds nothing to the taxonomy table |
| StatisticsPanel.ComputeFieldTables | src/components/StatisticsPanel.tsx:42-76 | the nested loops fill the type table, the area table and the taxonomy table |
| StatisticsPanel.TaxonomyLoop | src/components/StatisticsPanel.tsx:52-75 | the inner loop applies the taxonomy increments of one field's competencies |
| StatisticsPanel.SomesMembers | src/components/StatisticsPanel.tsx:81-82 | a label is listed exactly when it is present |
| StatisticsPanel.LiveLabelsFromMembers | src/components/StatisticsPanel.tsx:79-91 | a label survives exactly when the last field with some code has it |
| StatisticsPanel.AllLabelsFacts | src/components/StatisticsPanel.tsx:79-91 | the chart labels are sorted, without duplicates, and exactly the keys of some field's counts |
| StatisticsPanel.LastWithKey | src/components/StatisticsPanel.tsx:48-50 | the last field with a given code is not followed by another with that code |
| StatisticsPanel.TaxonomyRank | src/components/StatisticsPanel.tsx:174-183 | a level's rank is between 1 and 6, or 99 for an unknown level |
| StatisticsPanel.SortLevelsOrder | src/components/StatisticsPanel.tsx:173-184 | the levels are a permutation of the entries, sorted by rank, with unknown levels last |
| StatisticsPanel.CompetenciesPerFieldOrder | src/components/StatisticsPanel.tsx:140-144 | the per-field counts are a permutation of one entry per field, by descending count |
| VisualsPanel.Classify | src/components/VisualsPanel.tsx:18-32 | the icon is chosen by the first of `fach`, `methoden`, `sozial`, `personal`, `fertig` the lower-cased type contains, the target icon when it contains none |
| VisualsPanel.TypeIcon | src/components/VisualsPanel.tsx:15-33 | a falsy type gets the help icon and only a falsy type does; a string is classified after lower-casing; any other truthy value fails at `toLowerCase` |
| VisualsPanel.LowerTwice | src/components/VisualsPanel.tsx:18 | lower-casing twice is lower-casing once |
| VisualsPanel.IconIgnoresCase | src/components/VisualsPanel.tsx:18-32 | a type and its lower-cased form get the same icon |
| VisualsPanel.IconExamples | src/components/VisualsPanel.tsx:16-25 | "Fachkompetenz" gets the book icon, "Sozialkompetenz" the users icon, the empty string the help icon |
| VisualsPanel.Toggled | src/components/VisualsPanel.tsx:54-59 | the toggled field flips between expanded and collapsed (a missing key counts as collapsed); every other entry is kept |
| VisualsPanel.ToggleTwice | src/components/VisualsPanel.tsx:54-59 | toggling a field twice restores the expansion state of every field |
| VisualsPanel.FieldExpansion.constructor | src/components/VisualsPanel.tsx:42 | no field starts expanded |
| VisualsPanel.FieldExpansion.Toggle | src/components/VisualsPanel.tsx:208-213 | toggleField replaces the record by its toggled form |
| VisualsPanel.FieldExpansion.ExpandFirst | src/components/VisualsPanel.tsx:199-206 | a new curriculum with fields marks its first field expanded and keeps the rest; one without fields changes nothing |
| VisualsPanel.VisibleCompetencies | src/components/VisualsPanel.tsx:290-300 | the loop collects the competencies of the expanded fields, in field order |
| VisualsPanel.VisibleMembers | src/components/VisualsPanel.tsx:293-297 | a competency is visible exactly when some expanded field holds it |
| VisualsPanel.AllExpandedVisible | src/components/VisualsPanel.tsx:290-300 | with every field expanded, the visible list is all competencies in field order |
| VisualsPanel.CollectEscoMappings | src/components/VisualsPanel.tsx:271-287 | the nested loop with its `seen` set keeps the first mapping for every id |
| VisualsPanel.MappingsOfMember | src/components/VisualsPanel.tsx:275-282 | every mapping of every competency is visited |
| VisualsPanel.AllEscoMappingsFacts | src/components/VisualsPanel.tsx:271-287 | the collected ids are pairwise distinct, every mapping's id is among them, and each collected mapping is the first one with its id |
| VisualsPanel.EscoColumn | src/components/VisualsPanel.tsx:422-495 | the matched mappings when there are any; the no-mappings note for a selected competency without any; otherwise the first eight of all mappings and, when there are more than eight, the number left out |
| VisualsPanel.MappingSelection.constructor | src/components/VisualsPanel.tsx:181-183 | nothing is selected or matched at first |
| VisualsPanel.MappingSelection.SelectCompetency | src/components/VisualsPanel.tsx:216-227 | the competency is selected and its own mappings become the matched list, so the column shows them or the no-mappings note |
| VisualsPanel.DisplayContent | src/components/VisualsPanel.tsx:519-522 | an ESCO selection wins over a competency selection, which wins over a truthy node; nothing is displayed exactly when none of the three is set |
| VisualsPanel.FirstFieldWith | src/components/VisualsPanel.tsx:540-542 | the index found is the first field holding a competency with the id, and no field holds one when none is found |
| VisualsPanel.RelatedField | src/components/VisualsPanel.tsx:535-543 | a related field is looked up only for competency content, and is a field holding a competency with that id |
| VisualsPanel.RelatedNotLater | src/components/VisualsPanel.tsx:540-542 | a competency of a field finds that field or an earlier one |
| VisualsPanel.PanelSelection.constructor | src/components/VisualsPanel.tsx:747-749 | at first nothing is selected and nothing is displayed |
| VisualsPanel.PanelSelection.SelectCompetency | src/components/VisualsPanel.tsx:752-755 | the competency is selected, the ESCO selection cleared, and the competency displayed |
| VisualsPanel.PanelSelection.SelectEsco | src/components/VisualsPanel.tsx:757-759 | the mapping is selected and displayed, the competency selection kept |
| VisualsPanel.PanelSelection.SelectNode | src/components/VisualsPanel.tsx:761-767 | the node is selected, both specific selections cleared, and the node displayed when truthy |
| CollectionTree.ParentKey | src/components/CollectionTree.tsx:16 | the group key of a collection is never empty: a missing or empty parent id files it under `root` |
| CollectionTree.GroupCollections | src/components/CollectionTree.tsx:11-26 | the `forEach` builds the group record and the list of roots |
| CollectionTree.GroupFacts | src/components/CollectionTree.tsx:15-21 | a key has a group exactly when some collection is filed under it, and the group lists those collections in input order |
| CollectionTree.NoChildren | src/components/CollectionTree.tsx:29 | a key no collection is filed under has no children |
| CollectionTree.ChildrenMembers | src/components/CollectionTree.tsx:15-21 | the children under a key are exactly the collections filed under it |
| CollectionTree.RootsMembers | src/components/CollectionTree.tsx:22-25 | the roots are exactly the collections without a parent id |
| CollectionTree.NoRefNoChildren | src/components/CollectionTree.tsx:16-29 | the empty key read for a collection without a `refId` never has a group |
| CollectionTree.SuffixCases | src/components/CollectionTree.tsx:36-48 | the bracket holds the subject, then ` \| `, then the joined contexts, each part only when set, and is empty exactly when both are |
| CollectionTree.SplitJoin | src/components/CollectionTree.tsx:52 | splitting gives at least one line, joining the lines with newlines gives the text back, and no line holds a newline |
| CollectionTree.DescriptionLinesSnoc | src/components/CollectionTree.tsx:53-57 | a blank line adds nothing; any other line adds exactly its own prefixed line |
| CollectionTree.RenderDescription | src/components/CollectionTree.tsx:51-58 | the loop emits the description block |
| CollectionTree.RenderBranch | src/components/CollectionTree.tsx:28-73 | renderBranch emits the collection's lines, then each child's branch |
| CollectionTree.RenderLinesOf | src/components/CollectionTree.tsx:30-66 | the lines a branch emits before its children: the header, the description block, the keywords line and the URL line |
| CollectionTree.SiblingsFromLater | src/components/CollectionTree.tsx:68-70 | a run of siblings that is drawn from one position is drawn from every later one |
| CollectionTree.RenderSiblings | src/components/CollectionTree.tsx:68-70 | the loop appends each child's branch, the last drawn as the last sibling |
| CollectionTree.ThenAssoc | src/components/CollectionTree.tsx:68-70 | appending text piece by piece equals appending it at once |
| CollectionTree.BuildTree | src/components/CollectionTree.tsx:10-76 | buildTree joins the branches of the roots, the last root drawn as the last sibling |
| CollectionTree.BranchStarts | src/components/CollectionTree.tsx:30-33 | every branch starts with its prefix, the symbol for its position and the title |
| CollectionTree.VisitedParents | src/components/CollectionTree.tsx:28-70 | every collection a branch draws is its own collection or a child of one it draws |
| CollectionTree.VisitedFromParents | src/components/CollectionTree.tsx:68-70 | whatever the children's branches draw is a child of something the parent's branch draws |
| CollectionTree.SuffixOfVisited | src/components/CollectionTree.tsx:68-70 | what a later sibling draws is drawn by the run of siblings from an earlier one |
| CollectionTree.DrawnOnlyBelowItsParent | src/components/CollectionTree.tsx:10-76 | a collection is drawn only as a root or beneath a drawn collection whose `refId` is its parent key |
| CollectionTree.KeywordsLine | src/components/CollectionTree.tsx:60-62 | the keywords line is emitted exactly when there are keywords |
| CollectionTree.UrlLine | src/components/CollectionTree.tsx:64-66 | the URL line is emitted exactly when the URL is set |
| CollectionTree.SiblingStarts | src/components/CollectionTree.tsx:28-70 | each child's branch starts with the children's prefix and `└── ` for the last child, `├── ` for the others |
| JsonSelector.StripJsonExtension | src/components/JsonSelector.tsx:168 | a trailing `.json` is removed, and only a trailing one |
| JsonSelector.FirstOccurrence | src/components/JsonSelector.tsx:169 | the position found is the first occurrence from the start position on; none is found exactly when there is no occurrence |
| JsonSelector.ReplaceFirst | src/components/JsonSelector.tsx:169 | a text without the marker is unchanged; otherwise only the first occurrence is replaced |
| JsonSelector.ReplaceAll | src/components/JsonSelector.tsx:170-171 | every occurrence of the character is replaced, and nothing else changes |
| JsonSelector.FormatFileName | src/components/JsonSelector.tsx:166-172 | the caption holds no underscore and no hyphen; src/App.tsx:424-430 holds the same chain of replacements, so it is modelled by this one function |
| JsonSelector.ReplaceAllRemoves | src/components/JsonSelector.tsx:170-171 | after replacing a character none of it is left and every other character is kept |
| JsonSelector.FormatFileNameExample | src/components/JsonSelector.tsx:166-172 | `A.pdf_converted_B_c-d.json` is shown as `A: B c d` |
| JsonSelector.ExampleStrip | src/components/JsonSelector.tsx:168 | the example loses its `.json` |
| JsonSelector.ExampleMarker | src/components/JsonSelector.tsx:169 | the example's converter marker becomes `: ` |
| JsonSelector.ExampleSpaces | src/components/JsonSelector.tsx:170-171 | the example's underscores and hyphens become spaces |
| JsonSelector.SecondMarkerKept | src/components/JsonSelector.tsx:169 | a second converter marker is left as it is |
| JsonSelector.RemoveDuplicates | src/components/JsonSelector.tsx:32-41 | the `filter` with its `uniqueValues` set keeps the first option for every value |
| JsonSelector.RemoveDuplicatesFacts | src/components/JsonSelector.tsx:32-41 | the values kept are distinct, every input value is kept, each kept option is the first with its value, the result is a subsequence of the input, and removing duplicates again changes nothing |
| JsonSelector.FileOption | src/components/JsonSelector.tsx:82-85 | the option's value is the file name |
| JsonSelector.Options | src/components/JsonSelector.tsx:108-111 | one option per file, in order |
| JsonSelector.ProbeFiles | src/components/JsonSelector.tsx:69-91 | the nested loop collects, directory by directory, the files whose probe succeeds |
| JsonSelector.RefreshJsonFiles | src/components/JsonSelector.tsx:44-137 | the list is the probe hits followed by the server's files, or the built-in list when both are empty, without duplicates |
| JsonSelector.FinalListFacts | src/components/JsonSelector.tsx:126-136 | the final list is non-empty with distinct values; it holds exactly the values found, or the fallback values when nothing was found |
| JsonSelector.RefreshedNonEmpty | src/components/JsonSelector.tsx:126-142 | the refreshed list is never empty, so with no file selected its first file is selected |
| JsonSelector.LocalFiles | src/components/JsonSelector.tsx:21-29 | a non-empty file list is shown without duplicates; an empty one is replaced by the refreshed list |
| JsonSelector.AutoSelect | src/components/JsonSelector.tsx:140-142 | a file is selected exactly when none was and the list is non-empty, and it is the first of the list |
| App.DropWithSpace | src/App.tsx:366 | the result is the text after the article and all the white space that follows it, and does not start with white space |
| App.StripFromFacts | src/App.tsx:366 | from alternative k on, the first alternative the title starts with is removed together with the white space after it; with none, the title is unchanged |
| App.StripArticleFacts | src/App.tsx:366 | a title starting with no article is unchanged; otherwise the first article it starts with is removed with its white space, so the title changes and gets shorter |
| App.SomeArticleFirst | src/App.tsx:366 | when the title starts with some alternative, there is a first one it starts with |
| App.StripArticleExample | src/App.tsx:366 | "Die Katze" becomes "Katze" |
| App.StripArticleOnce | src/App.tsx:366 | only one article is removed: "der die Katze" becomes "die Katze" |
| App.StripArticleBacktracks | src/App.tsx:366 | "Eine Aufgabe" becomes "Aufgabe", since "ein" is not followed by white space |
| App.SearchTerm | src/App.tsx:361-381 | with no mappings the search term is the stripped title; otherwise the best label is appended when it is shorter than 30 characters; a null title fails reading `replace` and any other non-string title fails calling it |
| App.ExtractSearchTerm | src/App.tsx:361-381 | the statements of extractSearchTerm compute the search term |
| App.BestMappingIsMostConfident | src/App.tsx:369-373 | the mapping chosen is one of the competency's mappings, none is more confident, and every earlier one is strictly less confident |
| App.UploadGate | src/App.tsx:236-247 | text that does not start with `{` after trimming is rejected; an unparsable one is a syntax error; the upload passes exactly when it parses to a truthy object or array |
| App.LoadCurriculum | src/App.tsx:201-222 | a null document fails on `Object.keys`; otherwise the outcome is Failed exactly when the parser throws (with its error), NoLearningFields exactly when it returns no fields, and Loaded exactly when it returns some, storing what it built; a failure leaves the id supply untouched |
| App.AppState.constructor | src/App.tsx:18-27 | the application starts with no curriculum, no error, no selection, the profession panel closed and no search results |
| App.AppState.Apply | src/App.tsx:201-228 | a curriculum is stored exactly when it was loaded, and then the selection, the panel and the search results are reset; a failure clears the curriculum, records the matching error and keeps the selection, the panel and the search results |
| App.AppState.ProcessJsonData | src/App.tsx:201-228 | a null document throws and changes nothing; otherwise a curriculum is stored exactly when the parser returns fields, the parser's error is recorded when it throws, and the empty-curriculum error when it returns none |
| App.AppState.HandleUploadText | src/App.tsx:234-265 | a rejected text sets its error and no curriculum; an accepted one stores a curriculum exactly when the parser returns fields from it, records the parse failure when it throws and the empty-upload error when it returns none |
| WloApi.MapProperty | src/lib/wloApi.ts:44-48 | `ccm:taxonid` is sent as `virtual:taxonid`, and every other property as it is |
| WloApi.TitleCriterion | src/lib/wloApi.ts:36-41 | the search-word criterion is added exactly when the title property is among the properties and the first value is truthy, and carries that value |
| WloApi.QualifyingIndices | src/lib/wloApi.ts:51-58 | the indices that contribute a criterion lie below the bound |
| WloApi.BuildCriteria | src/lib/wloApi.ts:33-58 | the statements that fill `criteria` compute the search-word criterion followed by one criterion per qualifying property |
| WloApi.RestCriteriaByIndex | src/lib/wloApi.ts:51-58 | an index contributes exactly when its property is not the title and its value is truthy; the indices are increasing, and criterion k carries the mapped property and value of the k-th such index |
| WloApi.TitleComesFirst | src/lib/wloApi.ts:36-58 | with the title property anywhere and a truthy first value, the first criterion is the search word with that value, and the title's own index adds no criterion |
| WloApi.SearchQuery | src/lib/wloApi.ts:60-65 | the query holds `contentType`, `maxItems`, `skipCount` and `propertyFilter` in that order, a given parameter sent as given |
| WloApi.SearchQueryDefaults | src/lib/wloApi.ts:22-30 | left undefined, the parameters are 5, 0 and `-all-` |
| WloApi.RemoveFirstFacts | src/lib/wloApi.ts:12-15 | unsubscribing a listener not registered changes nothing; otherwise exactly one registration of it is removed |
| WloApi.RemoveFirstAt | src/lib/wloApi.ts:12-15 | the removal splices out the first registration |
| WloApi.SubscribeUnsubscribe | src/lib/wloApi.ts:8-16 | subscribing a new listener and then unsubscribing it restores the registry |
| WloApi.DebugListeners.constructor | src/lib/wloApi.ts:6 | the registry starts empty |
| WloApi.DebugListeners.OnDebugInfo | src/lib/wloApi.ts:8-9 | the listener is appended |
| WloApi.DebugListeners.Unsubscribe | src/lib/wloApi.ts:10-15 | the `indexOf` loop and `splice` remove the first registration of the listener |
| WloApi.DebugListeners.Emit | src/lib/wloApi.ts:18-20 | each registration is called once with the message, in registration order |

## Left out

- Network and file access: the HTTP calls of `searchWLO`, `getCollectionContents` and `fetchCollectionHierarchy`, the file list and file loading in `src/App.tsx`, the HEAD probes of the JSON selector, `FileReader` and `AbortController`. The probe outcome (`headOk`), the server's file list and the uploaded text are parameters; `getCollectionContents` and `fetchCollectionHierarchy` are not modelled at all, being network calls only.
- `JSON.parse`: its result is a parameter of `App.AppState.HandleUploadText`, `None` standing for a syntax error.
- The loading and abort flags, the retry counter and the API error state of the application.
- The outer `catch` of `refreshJsonFiles` and its three-file fallback list: that path is reached only when the network code throws, and the network is not modelled.
- `generateId`: identifiers come from an `IdSupply`, a generator function and a counter, because `Math.random` is not modelled. The supply is drawn from in the source's call order.
- Console logging, the messages of thrown errors (only their cause is kept), and the German user messages (kept as comments beside the `Failure` constructors).
- React rendering, JSX, hooks and CSS; Chart.js configuration and `generateColors`; `MappingPanel.tsx`, `CurriculumTree.tsx` and `DocumentMetadataPanel.tsx`; the DOM geometry and timers of the connection lines in `src/components/VisualsPanel.tsx`.
- `server.js`, `src/server.js` and `src/vite.config.ts`.
- IEEE floating point: numbers are `real`, with NaN a separate value. `relevance / 5`, the averages, and the hour and confidence sums are therefore exact.
- `parseFloat` reads a decimal prefix without an exponent, and `Number` of a string accepts only decimal notation: exponents, hexadecimal, binary and octal literals and `Infinity` are not modelled.
- The engine's key order: object members are taken in the order the document gives them. Integer-like keys, which engines list first, are not reordered.
- Object identity: objects are values, so aliasing disappears. `findLearningFieldsAnyFormat` writes `id` and `code` into copies of the candidate objects, not into the input.
- Keys inherited from `Object.prototype` are not record keys (`propertyMapping["constructor"]` is not a function here).
- StatisticsPanel.HoursOfYear: a non-numeric `hours` value counts as 0. The parsers always store a number there, while a string would be concatenated by `+` in the source.
- `toLowerCase` is modelled on ASCII letters only; other case mappings are not.
- StatisticsPanel.AllLabels: the default `sort()` compares UTF-16 code units, while the model orders characters (Collections.StrLeq); the orders differ only for strings with characters outside the Basic Multilingual Plane.
- AnlagenmechanikerParser.TruncateTitle: the 50-character limit and the `substring` count characters of the Dafny string, not UTF-16 code units; the same holds for the length tests of AnlagenmechanikerParser.LongTextTitle.
- Duplicate keys: an object is a sequence of members that may repeat a key. Lookup takes the first member with the key, while `JSON.parse` keeps the last, so the model agrees with the source on documents whose objects have distinct keys.
- App.SearchTerm: the 30-character bound counts characters of the Dafny string, not UTF-16 code units, so it differs from `.length` for characters outside the Basic Multilingual Plane.
- App.BestMappingIsMostConfident: a non-numeric confidence makes the source's comparator return NaN, which gives an engine-dependent order; the model ranks such a mapping like confidence 0 under a stable sort.
- WloApi.SearchQuery: `maxItems` and `skipCount` are modelled as numbers only; a caller passing another type would have it converted by `toString`.
- The `combineMode` and `signal` parameters of `searchWLO`, which the request builder does not use.
- WloApi.DebugListeners.Emit: a listener that unsubscribes while the listeners are being called changes the array under `forEach`; the model reads the registry once.
- CollectionTree.BuildTree: on a cycle of parent links the source recurses without end; the model bounds the nesting by the number of collections plus one and returns `None` beyond it.
