/**
  The resume analysis endpoints (controllers/analyzeController.js): one
  uploaded resume analysed in depth, and a batch of resumes scored one by
  one, each failure isolated in its own record, then ranked by JD score.
*/
module AnalyzeController {
  import opened Json
  import OpenAiService
  import AtsScore

  /** The text of an uploaded PDF, or the message of the error that stopped
      its extraction. */
  datatype TextExtraction = Extracted(text: string) | Unreadable(message: string)

  /** One uploaded resume of a batch: its original file name, its text, the
      client's answer to the scoring prompt built from that text, and the
      time its record was made (ISO 8601). */
  datatype Upload = Upload(originalName: string, text: TextExtraction, reply: Completion, processedAt: string)

  datatype Status = Completed | Failed

  /** One row of the batch report. `error` is present on failed rows only. */
  datatype BatchRecord = BatchRecord(
    fileName: string,
    name: Json,
    email: Json,
    jScore: Json,
    gScore: Json,
    status: Status,
    error: Option<string>,
    processingTime: string)

  /** `{ error: message }`. */
  function ErrorBody(message: string): Json
  {
    JObj([("error", JStr(message))])
  }

  /** A multipart form field is present and not empty. */
  predicate Given(field: Option<string>)
  {
    field.Some? && field.value != ""
  }

  // ---------------------------------------------------------------- one resume

  /** The uploaded file of a single analysis: its text and the client's
      answer to the analysis prompt built from it. */
  datatype SingleUpload = SingleUpload(text: TextExtraction, reply: Completion)

  /** `analyzeSingleResume`: the file is checked first, then the job
      description; a file whose text cannot be read answers 500; otherwise
      the analysis itself, which never fails, with status 200. */
  function AnalyzeSingleResume(file: Option<SingleUpload>, jobDescription: Option<string>,
                               parse: string -> Option<Json>): (r: Response)
    ensures file.None? ==> r == Response(400, ErrorBody("No file uploaded"))
    ensures file.Some? && !Given(jobDescription) ==> r == Response(400, ErrorBody("Job description is required"))
    ensures file.Some? && Given(jobDescription) && file.value.text.Unreadable? ==>
              r == Response(500, ErrorBody("Error analyzing resume"))
    ensures r.status == 200 <==> file.Some? && Given(jobDescription) && file.value.text.Extracted?
    ensures r.status == 200 ==> r.body == OpenAiService.AnalyzeResume(file.value.reply, parse)
  {
    if file.None? then Response(400, ErrorBody("No file uploaded"))
    else if !Given(jobDescription) then Response(400, ErrorBody("Job description is required"))
    else
      match file.value.text
      case Unreadable(_) => Response(500, ErrorBody("Error analyzing resume"))
      case Extracted(_) => Response(200, OpenAiService.AnalyzeResume(file.value.reply, parse))
  }

  // ---------------------------------------------------------------- a batch

  /** The message of the TypeError thrown when the scored value is `null`. */
  const NullReadMessage := "Cannot read properties of null (reading 'name')"

  function FailedRecord(u: Upload, message: string): (r: BatchRecord)
    ensures r.status == Failed && r.error == Some(message)
    ensures r.fileName == u.originalName && r.processingTime == u.processedAt
    ensures r.name == JStr("Error") && r.email == JStr("Error")
    ensures r.jScore == JNum(0) && r.gScore == JNum(0)
  {
    BatchRecord(u.originalName, JStr("Error"), JStr("Error"), JNum(0), JNum(0), Failed, Some(message), u.processedAt)
  }

  function CompletedRecord(u: Upload, analysis: Json): (r: BatchRecord)
    ensures r.status == Completed && r.error.None?
    ensures r.fileName == u.originalName && r.processingTime == u.processedAt
    ensures Truthy(Some(r.name)) && Truthy(Some(r.email))
    ensures Truthy(Get(analysis, "name")) ==> Some(r.name) == Get(analysis, "name")
    ensures !Truthy(Get(analysis, "name")) ==> r.name == JStr("Unknown")
    ensures Truthy(Get(analysis, "email")) ==> Some(r.email) == Get(analysis, "email")
    ensures !Truthy(Get(analysis, "email")) ==> r.email == JStr("Unknown")
    ensures Truthy(Get(analysis, "jScore")) ==> Some(r.jScore) == Get(analysis, "jScore")
    ensures !Truthy(Get(analysis, "jScore")) ==> r.jScore == JNum(0)
    ensures Truthy(Get(analysis, "gScore")) ==> Some(r.gScore) == Get(analysis, "gScore")
    ensures !Truthy(Get(analysis, "gScore")) ==> r.gScore == JNum(0)
  {
    BatchRecord(u.originalName,
                Or(Get(analysis, "name"), JStr("Unknown")),
                Or(Get(analysis, "email"), JStr("Unknown")),
                Or(Get(analysis, "jScore"), JNum(0)),
                Or(Get(analysis, "gScore"), JNum(0)),
                Completed, None, u.processedAt)
  }

  /** What scoring one resume's text settles to, given the client's answer
      to the scoring prompt: the score, or the message of the error thrown. */
  type Scorer = Completion -> Result<Json, string>

  /** The scorer the batch endpoint uses: `atsScore`. */
  function AtsScorer(parse: string -> Option<Json>): (score: Scorer)
    ensures forall c :: score(c) == AtsScore.AtsScore(c, parse)
  {
    c => AtsScore.AtsScore(c, parse)
  }

  /** The record one upload contributes: a failure when its text cannot be
      read ("PDF parsing error: …"), when scoring throws, or when the score
      is `null`; otherwise the score's fields with their defaults. */
  function RecordFor(u: Upload, score: Scorer): (r: BatchRecord)
    ensures r.fileName == u.originalName && r.processingTime == u.processedAt
    ensures r.status == Failed <==> r.error.Some?
    ensures r.status == Failed ==> r.jScore == JNum(0)
    ensures u.text.Unreadable? ==> r.status == Failed && r.error == Some("PDF parsing error: " + u.text.message)
    ensures u.text.Extracted? && score(u.reply).Err? ==> r == FailedRecord(u, score(u.reply).error)
    ensures u.text.Extracted? && score(u.reply) == Ok(JNull) ==> r == FailedRecord(u, NullReadMessage)
    ensures u.text.Extracted? && score(u.reply).Ok? && score(u.reply).value != JNull ==>
              r == CompletedRecord(u, score(u.reply).value)
  {
    match u.text
    case Unreadable(message) => FailedRecord(u, "PDF parsing error: " + message)
    case Extracted(_) =>
      match score(u.reply)
      case Err(message) => FailedRecord(u, message)
      case Ok(JNull) => FailedRecord(u, NullReadMessage)
      case Ok(analysis) => CompletedRecord(u, analysis)
  }

  /** The records of a batch, in upload order. */
  function Records(uploads: seq<Upload>, score: Scorer): (rs: seq<BatchRecord>)
    ensures |rs| == |uploads|
    ensures forall i :: 0 <= i < |uploads| ==> rs[i] == RecordFor(uploads[i], score)
  {
    seq(|uploads|, i requires 0 <= i < |uploads| => RecordFor(uploads[i], score))
  }

  /** The number `b.jScore - a.jScore` compares: a numeric score, else 0. */
  function SortKey(r: BatchRecord): int
  {
    if r.jScore.JNum? then r.jScore.n else 0
  }

  predicate SortedByJScore(rs: seq<BatchRecord>)
  {
    forall x, y :: 0 <= x < y < |rs| ==> SortKey(rs[x]) >= SortKey(rs[y])
  }

  /** The first `n` records are in descending JD-score order. */
  predicate SortedUpTo(rs: seq<BatchRecord>, n: int)
    requires n <= |rs|
  {
    forall x, y :: 0 <= x < y < n ==> SortKey(rs[x]) >= SortKey(rs[y])
  }

  /** `results.sort((a, b) => b.jScore - a.jScore)`: in place, highest JD
      score first. */
  method SortByJScoreDescending(a: array<BatchRecord>)
    modifies a
    ensures SortedByJScore(a[..])
    ensures multiset(a[..]) == multiset(old(a[..]))
  {
    var i := 0;
    while i < a.Length
      invariant 0 <= i <= a.Length
      invariant SortedUpTo(a[..], i)
      invariant multiset(a[..]) == multiset(old(a[..]))
    {
      InsertLeft(a, i);
      i := i + 1;
    }
  }

  /** While `a[i]` moves left to `j`: the records up to `i` other than the
      moving one are in order, and the moving one outranks every record
      it has passed. */
  predicate Inserting(rs: seq<BatchRecord>, j: int, i: int)
  {
    && 0 <= j <= i < |rs|
    && (forall x, y :: 0 <= x < y <= i && x != j && y != j ==> SortKey(rs[x]) >= SortKey(rs[y]))
    && (forall y :: j < y <= i ==> SortKey(rs[j]) > SortKey(rs[y]))
  }

  /** `rs` with its records at `j - 1` and `j` exchanged. */
  function Swapped(rs: seq<BatchRecord>, j: int): (r: seq<BatchRecord>)
    requires 0 < j < |rs|
    ensures |r| == |rs| && multiset(r) == multiset(rs)
    ensures r[j - 1] == rs[j] && r[j] == rs[j - 1]
    ensures forall k :: 0 <= k < |rs| && k != j - 1 && k != j ==> r[k] == rs[k]
  {
    rs[j - 1 := rs[j]][j := rs[j - 1]]
  }

  /** Moving the record one place left past a lower score keeps Inserting. */
  lemma InsertingStep(rs: seq<BatchRecord>, j: int, i: int)
    requires Inserting(rs, j, i) && 0 < j && SortKey(rs[j - 1]) < SortKey(rs[j])
    ensures Inserting(Swapped(rs, j), j - 1, i)
  {
  }

  /** The moving record stops below a score at least its own: the first
      `i + 1` records are in order. */
  lemma InsertingDone(rs: seq<BatchRecord>, j: int, i: int)
    requires Inserting(rs, j, i) && (j == 0 || SortKey(rs[j - 1]) >= SortKey(rs[j]))
    ensures SortedUpTo(rs, i + 1)
  {
  }

  /** One insertion step: `a[i]` moves left past every record with a lower
      JD score. */
  method InsertLeft(a: array<BatchRecord>, i: int)
    requires 0 <= i < a.Length && SortedUpTo(a[..], i)
    modifies a
    ensures SortedUpTo(a[..], i + 1)
    ensures multiset(a[..]) == multiset(old(a[..]))
  {
    var j := i;
    while j > 0 && SortKey(a[j - 1]) < SortKey(a[j])
      invariant Inserting(a[..], j, i)
      invariant multiset(a[..]) == multiset(old(a[..]))
    {
      ghost var before := a[..];
      InsertingStep(before, j, i);
      a[j - 1], a[j] := a[j], a[j - 1];
      assert a[..] == Swapped(before, j);
      j := j - 1;
    }
    InsertingDone(a[..], j, i);
  }

  /** The body of the per-file `try`: a failure record when the text cannot
      be read, when scoring throws or when the score is `null`, otherwise
      the score's fields with their defaults. */
  method ProcessUpload(file: Upload, score: Scorer) returns (record: BatchRecord)
    ensures record == RecordFor(file, score)
  {
    match file.text {
      case Unreadable(message) =>
        record := FailedRecord(file, "PDF parsing error: " + message);
      case Extracted(_) =>
        var analysis := score(file.reply);
        if analysis.Err? {
          record := FailedRecord(file, analysis.error);
        } else if analysis.value == JNull {
          record := FailedRecord(file, NullReadMessage);
        } else {
          record := CompletedRecord(file, analysis.value);
        }
    }
  }

  /** What a batch request comes to: an error answer, or the ranked records
      written to the spreadsheet that is sent back. */
  datatype BatchOutcome = Rejected(response: Response) | Report(records: seq<BatchRecord>)

  /** `analyzeMultipleResumes`: the files are checked first, then the job
      description; every file then contributes exactly one record, in
      upload order, and the records are ranked by JD score. */
  method AnalyzeMultipleResumes(files: Option<seq<Upload>>, jobDescription: Option<string>,
                                score: Scorer) returns (out: BatchOutcome)
    ensures files.None? || files.value == [] ==> out == Rejected(Response(400, ErrorBody("No files uploaded")))
    ensures files.Some? && files.value != [] && !Given(jobDescription) ==>
              out == Rejected(Response(400, ErrorBody("Job description is required")))
    ensures out.Report? <==> files.Some? && files.value != [] && Given(jobDescription)
    ensures out.Report? ==> multiset(out.records) == multiset(Records(files.value, score))
    ensures out.Report? ==> SortedByJScore(out.records)
  {
    if files.None? || |files.value| == 0 {
      return Rejected(Response(400, ErrorBody("No files uploaded")));
    }
    if !Given(jobDescription) {
      return Rejected(Response(400, ErrorBody("Job description is required")));
    }
    var results, _ := ProcessUploads(files.value, score);
    var ranked := Ranked(results);
    return Report(ranked);
  }

  /** The sequential `for … of req.files` loop: one record per file, pushed
      in upload order. `processedCount` is the 1-based number of the file
      being processed; once the loop ends it is the number of files. */
  method ProcessUploads(uploads: seq<Upload>, score: Scorer) returns (results: seq<BatchRecord>, processedCount: nat)
    ensures results == Records(uploads, score)
    ensures processedCount == |uploads|
  {
    results := [];
    processedCount := 0;
    for i := 0 to |uploads|
      invariant results == Records(uploads[..i], score)
      invariant processedCount == i
    {
      processedCount := processedCount + 1;
      var file := uploads[i];
      var record := ProcessUpload(file, score);
      assert uploads[..i + 1] == uploads[..i] + [file];
      RecordsAppend(uploads[..i], file, score);
      results := results + [record];
    }
    assert uploads[..|uploads|] == uploads;
  }

  /** One more upload adds its record at the end. */
  lemma RecordsAppend(uploads: seq<Upload>, u: Upload, score: Scorer)
    ensures Records(uploads + [u], score) == Records(uploads, score) + [RecordFor(u, score)]
  {
    var left := Records(uploads + [u], score);
    var right := Records(uploads, score) + [RecordFor(u, score)];
    forall k | 0 <= k < |left|
      ensures left[k] == right[k]
    {
      if k < |uploads| {
        assert (uploads + [u])[k] == uploads[k];
      }
    }
  }

  /** The records sorted in place by `results.sort(...)`. */
  method Ranked(results: seq<BatchRecord>) returns (ranked: seq<BatchRecord>)
    ensures multiset(ranked) == multiset(results)
    ensures SortedByJScore(ranked)
  {
    var sorted := new BatchRecord[|results|];
    forall k | 0 <= k < |results| {
      sorted[k] := results[k];
    }
    assert sorted[..] == results;
    SortByJScoreDescending(sorted);
    ranked := sorted[..];
  }

  /** In a ranked report, every record with a positive JD score comes before
      every failed record. */
  lemma FailuresRankBelowPositiveScores(rs: seq<BatchRecord>)
    requires SortedByJScore(rs)
    ensures forall f, p ::
              (0 <= f < |rs| && 0 <= p < |rs| && rs[f].status == Failed && rs[f].jScore == JNum(0) && SortKey(rs[p]) > 0)
              ==> p < f
  {
  }

  /** With a lawful JSON.parse, a resume whose text is read and whose reply
      has content is always scored: its record is Completed. */
  lemma AnsweredUploadCompletes(u: Upload, parse: string -> Option<Json>)
    requires Lawful(parse)
    requires u.text.Extracted? && u.reply.Answered?
    ensures RecordFor(u, AtsScorer(parse)).status == Completed
  {
    if u.reply.content != "" {
      AtsScore.AnsweredReplyIsScored(u.reply.content, parse);
      var content := u.reply.content;
      if parse(content).Some? {
        AtsScore.ScoreFieldsDefaults(parse(content).value);
      }
    }
  }

  /** A client failure fails only its own record, with the scorer's message. */
  lemma ClientErrorFailsRecord(u: Upload, parse: string -> Option<Json>)
    requires u.text.Extracted? && u.reply.ClientError?
    ensures RecordFor(u, AtsScorer(parse)).status == Failed
    ensures RecordFor(u, AtsScorer(parse)).error == Some("Groq API error")
  {
  }
}
