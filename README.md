# A verified model of the ATS backend's deterministic core

The ATS backend is an HTTP gateway to hosted language models. Its services
analyse a resume against a job description, score a batch of resumes,
generate a resume, and prepare group-discussion notes. What the gateway
decides for itself happens around each model call. It carves a JSON text out
of the model's free-text reply, fills missing fields with defaults, turns
failures into error reports or status codes, collects and ranks the records
of a batch, and projects them onto spreadsheet rows. This project models that
logic in Dafny and proves what it promises.

The model has one module per source file, plus two shared modules:

- `Json` (json.dfy) covers JavaScript values as the gateway sees them:
  - a JSON value type, with `undefined` as `None`;
  - property reads, truthiness and the `||` default idiom;
  - assignment into an object;
  - `JSON.stringify`;
  - the outcome of one chat-completion call, as the `Completion` datatype.

  `JSON.parse` is a parameter `parse: string -> Option<Json>`. A lemma that
  needs it to read back what `JSON.stringify` wrote requires `Lawful(parse)`.
- `Text` (text.dfy) writes out, as index scans, the string operations the
  regular expressions perform:
  - JavaScript's `\s` and `trim`;
  - `indexOf` and `lastIndexOf`;
  - the lazy `{…}` span and the greedy `{…}` span;
  - the two code-fence patterns.
- `OpenAiService`, `AtsScore`, `GroupDiscussion` and `CreateResume` each model
  one service. The model client's answer is an input value, and the service
  runs from there.
- `AnalyzeController` holds the single-resume endpoint and the batch endpoint:
  - The batch is imperative, like the source. A loop builds one record per
    upload, and the records are then insertion-sorted in place in an array.
  - The batch is generic over a `Scorer`, which gives the outcome of scoring
    one resume (a score, or the message of the error thrown).
  - `AtsScorer(parse)` is the scorer the endpoint uses: `atsScore` as modelled
    in `AtsScore`.
- `ExcelServices`, `CommController`, `AudioUtils` and `ErrorHandler` are pure
  projections and classifications.

## Model

| member | source | states |
|---|---|---|
| Json.Lookup | middleware/services/atsscore.js:82-85 | a property read finds a value exactly when some member has that key, and the value is bound to it |
| Json.LookupDistinct | middleware/services/excelServices.js:10-19 | in an object without repeated keys, every key reads back its own value |
| Json.Get | middleware/services/atsscore.js:82-85 | only objects have properties; on an object the read is the member lookup |
| Json.FalsyValues | middleware/services/atsscore.js:82-85 | the falsy values are exactly `undefined`, `null`, `false`, 0 and ""; every array and object is truthy |
| Json.Or | middleware/services/atsscore.js:82-85 | a truthy value is kept and a falsy or missing one is replaced by the default |
| Json.Assign | middleware/services/createResume.js:41-43 | `obj[key] = v` makes `key` read `v`, leaves every other key as it was, and appends a key that was absent |
| Json.LookupFirst | middleware/services/createResume.js:41-43 | a lookup reads the first member, then the rest |
| Json.Keys | middleware/services/excelServices.js:22-33 | an object's keys, in insertion order |
| Json.NatToString | middleware/services/excelServices.js:53 | a decimal numeral: non-empty, digits only, no leading zero |
| Json.DecimalValueOfNatToString | middleware/services/excelServices.js:53 | reading back a written numeral gives the number |
| Json.FieldWellFormed | middleware/services/atsscore.js:82-85 | a field read from a value a program can hold is one too |
| Json.NoIndexKeysInOrder | middleware/services/atsscore.js:87 | an object with no array-index key is in JavaScript's property order whatever its key order |
| Json.Stringify | middleware/services/atsscore.js:87 | serialisation is never empty, and an object serialises between braces |
| Text.FindFirst | services/openAiService.js:209-212 | `indexOf`: the result is an occurrence, none occurs before it, and there is none when it fails |
| Text.ContainsPrefix | middleware/utils/audioUtils.js:26-29 | a text contains its own beginning |
| Text.FenceAtIsStartsAt | services/openAiService.js:191 | a "```" occurrence is three backticks at that index |
| Text.IndexOfChar | services/openAiService.js:200-201 | the first index of a character at or after a start, or none |
| Text.LastIndexOf | services/openAiService.js:215 | `lastIndexOf`: that character occurs there and nowhere after, or nowhere at all |
| Text.SkipSpace | services/openAiService.js:191 | a greedy `\s*` stops at the first non-space character or at the end |
| Text.SpaceRunStart | services/openAiService.js:191 | the start of the whitespace run that ends at a given index |
| Text.Trim | services/openAiService.js:196 | `trim` never lengthens a text and leaves no whitespace at either end |
| Text.TrimKeepsNonSpace | services/groupdiscussion.js:66 | a text with a non-space character does not trim to "" |
| Text.SkipSpaceStops | services/openAiService.js:191 | the whitespace run from `i` ends exactly at the first non-space character |
| Text.SpaceRunStartStops | services/openAiService.js:191 | the trailing whitespace run starts right after the last non-space character |
| Text.TrimmedInterior | services/openAiService.js:196 | trimming a slice keeps exactly the part between its leading and trailing whitespace |
| Text.TrimmedGap | services/openAiService.js:191-196 | `trim` of a gap is the text between its whitespace runs, and trimming that again changes nothing |
| Text.TrimmedCore | services/openAiService.js:196 | a text without surrounding whitespace is its own trim |
| Text.FirstBraceSpan | services/openAiService.js:200-201 | `/{[\s\S]*?}/`: from the first `{` to the first `}` after it, or none exactly when no `{` precedes a `}` |
| Text.GreedyBraceSpan | middleware/services/createResume.js:10 | `/{.*}/s`: from the first `{` to the last `}`, or none exactly when no `{` precedes a `}` |
| Text.ClosingFenceAt | services/openAiService.js:191 | the lazy group of the "```json" fence pattern stops at the first index from which optional whitespace and "```" follow |
| Text.ClosingFenceAtFirst | services/openAiService.js:191 | that stopping point is the first one |
| Text.ClosingFenceAtRunStart | services/openAiService.js:191 | the group stops where the whitespace before the next "```" begins |
| Text.FirstFence | services/openAiService.js:191 | what finding the next "```" says about every index before it |
| Text.JsonFenceBody | services/openAiService.js:191-196 | the ```json fence yields something only when the text has a "```json", and then a non-empty text with no whitespace at either end |
| Text.JsonFenceBodyUnclosed | services/openAiService.js:191-194 | without a "```" after the first "```json", the fence strategy finds nothing |
| Text.JsonFenceBodyIsTrimmedInterior | services/openAiService.js:191-196 | the fence strategy yields the trimmed text between the first "```json" and the next "```", and nothing when that text is blank |
| Text.FenceGap | services/openAiService.js:191-196 | between the opener and the next "```", the group's end is where the trailing whitespace starts, and the group is the trim of the gap |
| Text.JsonFenceBodyAt | services/openAiService.js:191-196 | the fence body is the trimmed group once its bounds are known, and nothing when the group is empty |
| Text.BodyEnd | services/groupdiscussion.js:78 | the lazy `{…}` group ends at a `}` followed by optional whitespace and "```" |
| Text.BodyEndIsFirst | services/groupdiscussion.js:78 | it is the first such `}`, and there is none when it finds none |
| Text.FencedBraceBody | services/groupdiscussion.js:78 | the group starting at `a` opens with the `{` there and ends at the first `}` followed by optional whitespace and "```"; it is absent exactly when there is no `{` at `a` or no such `}` after it |
| Text.LabelledBody | services/groupdiscussion.js:78 | with the "json" label after the fence, the group starts where the whitespace after "```json" ends and ends at the first closing `}`; absent when the label is missing or no group starts there |
| Text.FenceMatchAt | services/groupdiscussion.js:78 | a match at `p` starts with "```" and captures a `{…}` group that a fence closes |
| Text.FenceMatchAtReading | services/groupdiscussion.js:78 | the labelled reading is taken whenever it matches, else the unlabelled one (the group starts after "```" and its whitespace); the group ends at the first closing `}`, and there is no match only when neither reading matches |
| Text.NoFenceNearEnd | services/groupdiscussion.js:78 | no match starts within three characters of the end |
| Text.FirstFenceMatch | services/groupdiscussion.js:78 | the match position found lies inside the text |
| Text.FirstFenceMatchIsLeftmost | services/groupdiscussion.js:78 | the match found is a match, no match starts before it, and there is none when it finds none |
| Text.FenceBraceSpan | services/groupdiscussion.js:78 | the result is the group of the match at the first position where the pattern matches, and is absent exactly when it matches nowhere |
| Text.FenceBraceSpanIsFencedBody | services/groupdiscussion.js:78 | end to end: the match starts at a "```" before which the pattern matches nowhere; the group starts after that fence (and after "json" when the labelled reading matches) and its whitespace, and ends at the first `}` followed by optional whitespace and "```" |
| OpenAiService.Prefix | services/openAiService.js:16-17 | `substring(0, n)` keeps the first min(length, n) characters, and the dropped rest completes it |
| OpenAiService.AnalysisPromptInputs | services/openAiService.js:15-23 | the prompt gets exactly the first min(length, 15000) characters of the resume and the first min(length, 3000) of the job description |
| OpenAiService.ErrorResponse | services/openAiService.js:159-183 | the error report has exactly its fourteen keys, in order |
| OpenAiService.ErrorResponseWellFormed | services/openAiService.js:159-183 | the error report is a value a program can hold: no key is repeated and no key is an array index |
| OpenAiService.ErrorKeysPlain | services/openAiService.js:159-183 | no key of the report is an array index |
| OpenAiService.ErrorResponseIdentifies | services/openAiService.js:160-164 | the report reads `error: true` and `"Job Title Match": "Error"` |
| OpenAiService.ErrorResponseCarriesMessage | services/openAiService.js:159-163 | the report carries the given message and details ("" when none is passed) |
| OpenAiService.ErrorResponseScoresZero | services/openAiService.js:180-181 | `JScore` and `GScore` are 0 |
| OpenAiService.ErrorResponseListsNothing | services/openAiService.js:169-174 | the suggested skills and the three project lists are empty |
| OpenAiService.ErrorResponseSkillsEmpty | services/openAiService.js:165-168 | both skill maps are empty |
| OpenAiService.ErrorResponseTipsEmpty | services/openAiService.js:175-179 | the recruiter tips are fixed and name no words to avoid |
| OpenAiService.ErrorKeysDistinct | services/openAiService.js:159-183 | no two keys of the report are equal |
| OpenAiService.ErrorMembersDistinct | services/openAiService.js:159-183 | the report's members have distinct keys |
| OpenAiService.FencedStrategy | services/openAiService.js:191-196 | the first strategy yields something only when there is a "```json", and then a non-empty trimmed text |
| OpenAiService.DirectStrategy | services/openAiService.js:199-206 | the direct strategy yields the text of the first `{…}` span: it starts with `{`, ends with `}`, holds no other `}`, and is absent exactly when no `{` precedes a `}` |
| OpenAiService.MarkerStrategy | services/openAiService.js:208-222 | the marker slice starts one character before `"Job Title Match"` (at 0 when the marker opens the text) and always ends in `}`: it runs to the last `}` of the rest, or has `}` appended when the rest has none |
| OpenAiService.ExtractRelevantJson | services/openAiService.js:186-231 | the strategies are tried in order (fence, direct span, marker, serialised error report), and a later one counts only when all earlier ones found nothing |
| OpenAiService.AnalyzeResume | services/openAiService.js:130-156 | the analysis never fails: a client error gives "AI service error" with its message, no content gives "No content in AI response", and unparsable carved text gives "JSON parsing failed" with that text as details |
| OpenAiService.NoJsonReplyYieldsErrorReport | services/openAiService.js:224-225 | with a lawful `JSON.parse`, a reply with no JSON yields the "No JSON found in response" report itself |
| AtsScore.ScoreFields | middleware/services/atsscore.js:80-87 | the trimmed object has exactly the keys name, email, jScore and gScore, and is well formed when its input is |
| AtsScore.ScoreFieldsDefaults | middleware/services/atsscore.js:82-85 | each field is copied when truthy and becomes "Unknown", "Unknown", 0 or 0 otherwise |
| AtsScore.DefaultScoreWellFormed | middleware/services/atsscore.js:90-95 | the defaults are a value a program can hold |
| AtsScore.ExtractRelevantJson | middleware/services/atsscore.js:78-97 | the whole reply is parsed: the trimmed object serialised, or the serialised defaults when it does not parse |
| AtsScore.AtsScore | middleware/services/atsscore.js:55-74 | a client error becomes "Groq API error", no content gives the defaults, and otherwise the score is what the carved text parses to, failing only with "Groq API error" when it does not parse |
| AtsScore.ScoreFieldsIdempotent | middleware/services/atsscore.js:80-87 | trimming a trimmed object changes nothing |
| AtsScore.AnsweredReplyIsScored | middleware/services/atsscore.js:56-61 | with a lawful `JSON.parse`, every non-empty reply is scored: the trimmed reply, or the defaults |
| AtsScore.ExtractIdempotent | middleware/services/atsscore.js:78-97 | carving the carved text again gives the same text |
| AtsScore.NullReplyScoresDefaults | middleware/services/atsscore.js:80-95 | a reply that parses to `null` scores the defaults |
| AtsScore.ScoresAreNotValidated | middleware/services/atsscore.js:84-85 | a jScore of 150 and a gScore of "85" pass through unchanged |
| GroupDiscussion.UsableIsTruthy | services/groupdiscussion.js:66 | a usable text is truthy |
| GroupDiscussion.ValidateInputs | services/groupdiscussion.js:65-72 | the check passes exactly when notes and topic are strings that are not blank; the notes are checked first |
| GroupDiscussion.AnalysisFields | services/groupdiscussion.js:96-102 | the trimmed object has exactly the three fields, and is well formed when its input is |
| GroupDiscussion.DefaultAnalysisWellFormed | services/groupdiscussion.js:108-112 | the defaults are a value a program can hold |
| GroupDiscussion.AnalysisFieldsDefaults | services/groupdiscussion.js:97-101 | the notes and the outline are copied when truthy and defaulted otherwise; the expected responses are kept only when they form an array |
| GroupDiscussion.ExtractRelevantJson | services/groupdiscussion.js:75-114 | a fenced block is parsed and trimmed (the defaults when it does not parse); without one, the first `{…}` span verbatim; the defaults when there is none |
| GroupDiscussion.ProcessGroupDiscussion | services/groupdiscussion.js:44-62 | a client error becomes "OpenAI API error", no content gives the defaults, and otherwise the analysis is what the carved text parses to, failing only with "OpenAI API error" when it does not parse |
| GroupDiscussion.FencedReplyHasAllFields | services/groupdiscussion.js:78-104 | with a lawful `JSON.parse`, a fenced reply always yields exactly the three fields |
| GroupDiscussion.UnfencedReplyIsNotDefaulted | services/groupdiscussion.js:80-86 | an unfenced reply is what its first span parses to, with no field defaulted, and an error when it does not parse |
| GroupDiscussion.ReplyWithoutObjectYieldsDefaults | services/groupdiscussion.js:82-85 | with a lawful `JSON.parse`, a reply with no `{…}` yields the defaults |
| GroupDiscussion.NoBraceNoFence | services/groupdiscussion.js:78-83 | a reply without a `{…}` span has no fenced block |
| GroupDiscussion.AnalysisFieldsOfNothing | services/groupdiscussion.js:93-112 | a parsed `null` is trimmed to the defaults |
| CreateResume.ValidKeysDistinct | middleware/services/createResume.js:27-35 | the seven section keys are distinct |
| CreateResume.ExtractValidJson | middleware/services/createResume.js:7-19 | "No valid JSON found in the response" exactly when there is no greedy span; otherwise the result succeeds exactly when the span parses, and is what it parses to |
| CreateResume.SectionOf | middleware/services/createResume.js:40-44 | a section is copied when truthy and is "Empty" otherwise, so it is always truthy |
| CreateResume.SectionsUpTo | middleware/services/createResume.js:39-45 | the first `n` sections, in whitelist order |
| CreateResume.TrimmedResume | middleware/services/createResume.js:38-47 | the trimmed resume has exactly the seven keys, in order |
| CreateResume.TrimmedResult | middleware/services/createResume.js:22-52 | the result is `{}` exactly when extraction fails or gives `null`; otherwise it has exactly the seven section keys and is the trimmed resume of the extracted value |
| CreateResume.TrimResumeData | middleware/services/createResume.js:22-52 | the `forEach` assigning into an empty object yields the trimmed resume, or `{}` when extraction fails or the value is `null` |
| CreateResume.SectionsStep | middleware/services/createResume.js:39-45 | each assignment appends the next section, as its key is not yet present |
| CreateResume.GenerateResume | middleware/services/createResume.js:162-173 | an unanswered call becomes "Groq API error", null content gives `{}`, and content is trimmed |
| CreateResume.TrimmedSectionsAreTruthy | middleware/services/createResume.js:27-45 | every whitelisted section is truthy, and no other key is present |
| CreateResume.CertificationsAreDropped | middleware/services/createResume.js:27-35 | "certifications" never appears |
| CreateResume.TrimmedSectionValue | middleware/services/createResume.js:39-45 | each section is the parsed value when truthy and "Empty" otherwise |
| CreateResume.TrimIdempotent | middleware/services/createResume.js:39-45 | trimming a trimmed resume changes nothing |
| AnalyzeController.AnalyzeSingleResume | controllers/analyzeController.js:6-33 | the file is checked before the job description (both 400); unreadable text gives 500; otherwise 200 with the analysis unchanged |
| AnalyzeController.FailedRecord | controllers/analyzeController.js:85-94 | a failed record keeps the file name and processing time, carries its message, reads "Error" as name and email, and scores 0 on both scores |
| AnalyzeController.CompletedRecord | controllers/analyzeController.js:67-75 | a completed record keeps the file name and processing time and has no error; its name and email are the analysis's when truthy and "Unknown" otherwise, and each score is the analysis's when truthy and 0 otherwise |
| AnalyzeController.AtsScorer | controllers/analyzeController.js:63 | the batch scores each resume with `atsScore` |
| AnalyzeController.RecordFor | controllers/analyzeController.js:52-95 | an upload's record: failed with "PDF parsing error: …" for unreadable text, failed with the scorer's message, failed when the score is `null`, otherwise completed from the score |
| AnalyzeController.Records | controllers/analyzeController.js:46-99 | one record per upload, in upload order |
| AnalyzeController.SortByJScoreDescending | controllers/analyzeController.js:104 | the in-place sort leaves the array in descending JD-score order and a permutation of what it held |
| AnalyzeController.Swapped | controllers/analyzeController.js:104 | exchanging two neighbours keeps the same records |
| AnalyzeController.InsertingStep | controllers/analyzeController.js:104 | moving a record left past a lower score keeps the insertion invariant |
| AnalyzeController.InsertingDone | controllers/analyzeController.js:104 | once the record stops, one more prefix is sorted |
| AnalyzeController.InsertLeft | controllers/analyzeController.js:104 | one insertion step extends the sorted prefix by one and keeps the records |
| AnalyzeController.ProcessUpload | controllers/analyzeController.js:52-95 | the body of the per-file `try` computes that upload's record |
| AnalyzeController.AnalyzeMultipleResumes | controllers/analyzeController.js:35-127 | no files gives 400 before a missing job description does; otherwise the report is a permutation of the per-upload records, sorted by descending JD score |
| AnalyzeController.ProcessUploads | controllers/analyzeController.js:46-99 | the loop pushes exactly one record per file, in upload order, and counts every file |
| AnalyzeController.RecordsAppend | controllers/analyzeController.js:77-94 | one more upload appends its own record and changes no earlier one |
| AnalyzeController.Ranked | controllers/analyzeController.js:104 | ranking is a permutation in descending JD-score order |
| AnalyzeController.FailuresRankBelowPositiveScores | controllers/analyzeController.js:89-104 | after ranking, every record with a positive JD score precedes every failed record |
| AnalyzeController.AnsweredUploadCompletes | controllers/analyzeController.js:58-77 | with a lawful `JSON.parse`, a readable resume with an answer always completes |
| AnalyzeController.ClientErrorFailsRecord | controllers/analyzeController.js:83-95 | a client failure fails only its own record, with "Groq API error" |
| ExcelServices.ErrorText | middleware/services/excelServices.js:18 | the error column holds the error when it is non-empty, and "None" otherwise |
| ExcelServices.FormatRow | middleware/services/excelServices.js:10-19 | a row's keys are exactly the eight headings, in order |
| ExcelServices.FormattedResults | middleware/services/excelServices.js:10-19 | one row per record, in the same order, each row the projection of its record |
| ExcelServices.RowReadsRecord | middleware/services/excelServices.js:11-18 | each column holds its record's field, and the error column holds "None" exactly when there is no error message |
| ExcelServices.HeaderDistinct | middleware/services/excelServices.js:23-32 | no heading is repeated |
| ExcelServices.RowKeysDistinct | middleware/services/excelServices.js:10-19 | a row repeats no key |
| ExcelServices.ColumnsHaveWidths | middleware/services/excelServices.js:36-45 | there is one positive width per heading |
| ExcelServices.ReportFileName | middleware/services/excelServices.js:53 | the name is `resume_analysis_<digits>.xlsx` |
| ExcelServices.ReportFileNameStamp | middleware/services/excelServices.js:53 | the time stamp reads back from the name |
| ExcelServices.ReportFileNamesDiffer | middleware/services/excelServices.js:53 | reports written at different milliseconds have different names |
| CommController.TopicOf | controllers/commController.js:5 | the topic defaults to "General Discussion" only when it is absent |
| CommController.HandleComm | controllers/commController.js:3-43 | a falsy text gives 400 "No text provided", and a validation failure gives 400 with its message; 200 with the text, topic and analysis exactly when the inputs are usable and the analysis succeeds; otherwise 500 with the error's message, or "Error processing text" when that is empty |
| CommController.CommEndpoint | controllers/commController.js:3-43 | end to end, the answer is 200, 400 or 500; a 500 always carries the service's "OpenAI API error"; a 200 carries the text, the topic and the service's analysis |
| CommController.RejectionIgnoresReply | controllers/commController.js:9-23 | a 400 answer does not depend on the model's reply: the service is not consulted |
| CommController.MissingTopicUsesDefault | controllers/commController.js:5-35 | a request without a topic is analysed under "General Discussion" |
| CommController.ClientFailureIsServerError | controllers/commController.js:36-42 | a failing model call answers 500 with the service's message |
| CommController.DefaultTopicIsUsable | controllers/commController.js:5 | the default topic passes validation |
| AudioUtils.ValidateAudio | middleware/utils/audioUtils.js:9-21 | a file passes exactly when present with one of the five types; a missing file is reported first |
| AudioUtils.HandleAudioError | middleware/utils/audioUtils.js:23-40 | 400 with the message exactly when it names either validation failure, otherwise 500 "Error processing audio file" |
| AudioUtils.ValidationErrorsAreClientErrors | middleware/utils/audioUtils.js:10-34 | every validation error is answered 400 with its own message |
| ErrorHandler.HandleMulterError | middleware/utils/errorHandler.js:2-12 | the two limit codes give their 400 messages, and anything else gives 500 "File upload error" |

## Left out

- The hosted-model clients (Azure OpenAI and Groq) and their prompts are not modelled. Each call is its outcome: a `Completion` value, or a `ResumeReply` for resume generation. Only the truncation of the two texts interpolated into the analysis prompt is modelled.
- `JSON.parse` is not defined. It is a parameter. Properties that need it to read back `JSON.stringify` require `Lawful(parse)`: it yields only values a program can hold, and reads back any such value. A value a program can hold has safe integers only, no repeated key, and its keys in JavaScript's property order (array indices first, ascending), which is the order `JSON.parse` produces and `JSON.stringify` writes.
- AtsScore.ExtractRelevantJson: it does not state that prose or a code fence around the JSON forces the defaults. Whether such a text parses is up to `JSON.parse`, which is a parameter.
- Numbers are integers. Floating-point scores, `NaN` and number formatting beyond integers are not modelled.
- Strings are sequences of code points. UTF-16 surrogates are not modelled, and neither are `JSON.stringify`'s escapes for lone surrogates.
- middleware/services/pdfService.js: reading the file and `pdf-parse` are not part of this model. Extraction is an outcome per upload (`TextExtraction`). Its failure message keeps the "PDF parsing error: " prefix of pdfService.js:11.
- Dates are inputs. `new Date().toISOString()` is a string on each upload, and `Date.now()` is a parameter of `ReportFileName`.
- Workbook building (including the sheet name "Resume Analysis"), `writeFile`, directory creation, `cleanup` and `res.download` are file I/O and are not modelled. So are the 500 answers "Error sending file" and "Error processing resumes" that only those can cause.
- The one-second pause between files, async scheduling and all logging are not modelled. `processedCount` is kept as a counter, since it only feeds a log line.
- AnalyzeController.SortByJScoreDescending: the sort key of a non-numeric JD score is 0. JavaScript would coerce a numeric string such as "85" and compare `NaN` inconsistently. The order among equal keys is not stated.
- AnalyzeController.AnalyzeSingleResume: a 500 arises only from unreadable text. The analysis never rejects, and the other calls in the `try` do not throw.
- AnalyzeController.NullReadMessage is the TypeError message of current Node.js versions for reading `name` from `null`. The exact wording is up to the engine.
- The `catch` of `extractRelevantJSON` in services/openAiService.js:227-230 is not modelled. Nothing in its `try` can throw on a string reply.
- app.js, the route files and the thin wrappers middleware/controllers/createResume.js and controllers/jobDescriptionController.js are wiring and are not part of this model.
