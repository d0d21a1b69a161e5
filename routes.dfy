/**
 * The Flask request handlers (routes.py) as early-return chains over their
 * inputs. The database is a map from id to row, the image files that
 * `cv2.imread` can read are a map from path to their base64 text, and the
 * image pipeline and classifier behind an upload are one opaque outcome.
 */
module Routes {

  import opened Optional
  import opened Json
  import opened Utils
  import Text

  const AllowedExtensions: set<string> := {"png", "jpg", "jpeg"}

  /** `i` is the position of the last dot in `filename`. */
  predicate LastDotAt(filename: string, i: int) {
    0 <= i < |filename| && filename[i] == '.' && '.' !in filename[i + 1..]
  }

  /** The text after position `i`, lower-cased, is an allowed extension. */
  predicate AllowedAfter(filename: string, i: int)
    requires 0 <= i < |filename|
  {
    Text.Lower(filename[i + 1..]) in AllowedExtensions
  }

  /** `allowed_file`: there is a dot, and the text after the last dot, lower-cased, is an allowed extension. */
  function AllowedFile(filename: string): (ok: bool)
    ensures ok <==> exists i :: LastDotAt(filename, i) && AllowedAfter(filename, i)
  {
    if '.' !in filename then false
    else
      var dot := Text.RFind(filename, '.');
      assert LastDotAt(filename, dot);
      assert forall i :: LastDotAt(filename, i) ==> i == dot by {
        forall i | LastDotAt(filename, i) ensures i == dot {
          Text.RFindAt(filename, '.', i);
        }
      }
      AllowedAfter(filename, dot)
  }

  /** Upper-case extensions are accepted. */
  lemma AllowedFileUpperCase()
    ensures AllowedFile("a.PNG")
  {
    Text.RFindAt("a.PNG", '.', 1);
    assert "a.PNG"[2..] == "PNG";
    assert Text.Lower("PNG") == "png";
  }

  /** Only the text after the last dot counts. */
  lemma AllowedFileLastDot()
    ensures !AllowedFile("x.png.exe")
  {
    assert "x.png.exe"[5] == '.' && "x.png.exe"[6..] == "exe";
    Text.RFindAt("x.png.exe", '.', 5);
    assert Text.Lower("exe") == "exe";
  }

  /** A bare extension without a dot is rejected. */
  lemma AllowedFileNeedsDot()
    ensures !AllowedFile("png")
  {
    assert '.' !in "png";
  }

  /** A row of the `Analysis` table (models.py); `created_at` is kept as its ISO text. */
  datatype Row = Row(
    id: nat,
    filename: string,
    originalImagePath: string,
    processedImagePath: string,
    diseaseClass: string,
    confidence: real,
    createdAt: string,
    features: Option<Value>,
    preprocessingDetails: Option<Value>)

  /** What a handler returns: a JSON body with its status code, or a file sent as an attachment. */
  datatype Reply =
    | JsonReply(body: Value, code: nat)
    | FileReply(downloadName: string, mimetype: string, report: Value)

  /** The `file` part of a multipart request. */
  datatype UploadedFile = UploadedFile(filename: string)

  /** `request.files`, keyed by part name. */
  datatype UploadRequest = UploadRequest(files: map<string, UploadedFile>)

  /**
   * What happens once the checks pass: naming or saving the file raises, the
   * saved image cannot be read, a later step raises, or a result is stored.
   */
  datatype Pipeline =
    | StoreFailed(error: string)
    | Unreadable
    | Raised(error: string)
    | Analysed(newId: nat, diseaseClass: string, confidence: real,
               originalImage: string, processedImage: string, processingDetails: Value)

  /** The reply of a failed check: status "error", no data, the message, the code. */
  function ErrorReply(message: string, code: nat): Reply
    requires message != ""
  {
    JsonReply(Envelope(Null, "error", Some(message)), code)
  }

  method Error(message: string, code: nat) returns (reply: Reply)
    requires message != ""
    ensures reply == ErrorReply(message, code)
  {
    var body := FormatJsonResponse(Null, "error", Some(message));
    reply := JsonReply(body, code);
  }

  function Join(parts: seq<string>, sep: string): string {
    if parts == [] then "" else if |parts| == 1 then parts[0] else parts[0] + sep + Join(parts[1..], sep)
  }

  /**
   * A listing of the allowed extensions in some order: Python's iteration
   * order of a set of strings depends on the hash seed of the process.
   */
  ghost predicate ListsAllowedExtensions(order: seq<string>) {
    |order| == |AllowedExtensions| && forall e :: e in AllowedExtensions <==> e in order
  }

  function NotAllowedMessage(order: seq<string>): string {
    "File type not allowed. Please upload " + Join(order, ", ")
  }

  /** The result object of a successful upload; its steps are under `processing_steps`. */
  function UploadResult(filename: string, p: Pipeline): (v: Value)
    requires p.Analysed?
    ensures KeysOf(v) == ["id", "filename", "disease_class", "confidence",
                          "original_image", "processed_image", "processing_steps"]
  {
    Obj([("id", Int(p.newId)), ("filename", Str(filename)), ("disease_class", Str(p.diseaseClass)),
         ("confidence", Real(p.confidence)), ("original_image", Str(p.originalImage)),
         ("processed_image", Str(p.processedImage)), ("processing_steps", p.processingDetails)])
  }

  /** The checks an upload passes before anything is written to disk, in the order they run. */
  predicate PassesChecks(request: UploadRequest) {
    "file" in request.files && request.files["file"].filename != "" && AllowedFile(request.files["file"].filename)
  }

  /**
   * `upload_image`. `secureName` is what `secure_filename` makes of the
   * uploaded name; `timestamp` and `uuid` are the clock and the random id;
   * `savedAs` is the name the file was saved under, if the handler got that far.
   */
  method UploadImage(request: UploadRequest, order: seq<string>, secureName: string,
                     timestamp: string, uuid: string, pipeline: Pipeline)
    returns (reply: Reply, savedAs: Option<string>)
    requires ListsAllowedExtensions(order)
    ensures "file" !in request.files ==> reply == ErrorReply("No file part", 400)
    ensures "file" in request.files && request.files["file"].filename == "" ==>
              reply == ErrorReply("No file selected", 400)
    ensures "file" in request.files && request.files["file"].filename != ""
            && !AllowedFile(request.files["file"].filename) ==>
              reply == ErrorReply(NotAllowedMessage(order), 400)
    ensures savedAs.Some? <==> PassesChecks(request) && !pipeline.StoreFailed?
    ensures !PassesChecks(request) ==>
              reply.JsonReply? && reply.code == 400
              && Field(reply.body, "status") == Some(Str("error")) && Field(reply.body, "data") == Some(Null)
    ensures savedAs.Some? ==> savedAs.value == GenerateUniqueFilename(secureName, timestamp, uuid)
    ensures PassesChecks(request) ==>
              reply == match pipeline
                       case StoreFailed(e) => ErrorReply("Error processing image: " + e, 500)
                       case Unreadable => ErrorReply("Failed to read image file", 400)
                       case Raised(e) => ErrorReply("Error processing image: " + e, 500)
                       case Analysed(_, _, _, _, _, _) =>
                         JsonReply(Envelope(UploadResult(secureName, pipeline), DefaultStatus, None), 200)
  {
    savedAs := None;
    if "file" !in request.files {
      reply := Error("No file part", 400);
      return;
    }
    var file := request.files["file"];
    if file.filename == "" {
      reply := Error("No file selected", 400);
      return;
    }
    if !AllowedFile(file.filename) {
      reply := Error(NotAllowedMessage(order), 400);
      return;
    }
    if pipeline.StoreFailed? {
      reply := Error("Error processing image: " + pipeline.error, 500);
      return;
    }
    var uniqueFilename := GenerateUniqueFilename(secureName, timestamp, uuid);
    savedAs := Some(uniqueFilename);
    match pipeline {
      case Unreadable =>
        reply := Error("Failed to read image file", 400);
      case Raised(e) =>
        reply := Error("Error processing image: " + e, 500);
      case Analysed(_, _, _, _, _, _) =>
        var body := FormatJsonResponse(UploadResult(secureName, pipeline), DefaultStatus, None);
        reply := JsonReply(body, 200);
    }
  }

  function NotFoundMessage(analysisId: nat): string {
    "Analysis with ID " + Text.DecimalString(analysisId) + " not found"
  }

  /** The not-found message names the requested id: different ids give different messages. */
  lemma {:induction false} NotFoundMessageNamesId(a: nat, b: nat)
    requires NotFoundMessage(a) == NotFoundMessage(b)
    ensures a == b
  {
    var prefix := "Analysis with ID ";
    var suffix := " not found";
    var da := Text.DecimalString(a);
    var db := Text.DecimalString(b);
    assert NotFoundMessage(a) == prefix + da + suffix;
    assert NotFoundMessage(b) == prefix + db + suffix;
    assert |da| == |db|;
    assert da == NotFoundMessage(a)[|prefix|..|prefix| + |da|];
    assert db == NotFoundMessage(b)[|prefix|..|prefix| + |db|];
    Text.ParseDecimalString(a);
    Text.ParseDecimalString(b);
  }

  /** The result object of `get_analysis`; its steps are under `processing_details`. */
  function AnalysisDetail(row: Row, original: string, processed: string): (v: Value)
    ensures KeysOf(v) == ["id", "filename", "disease_class", "confidence", "created_at",
                          "original_image", "processed_image", "processing_details"]
  {
    Obj([("id", Int(row.id)), ("filename", Str(row.filename)), ("disease_class", Str(row.diseaseClass)),
         ("confidence", Real(row.confidence)), ("created_at", Str(row.createdAt)),
         ("original_image", Str(original)), ("processed_image", Str(processed)),
         ("processing_details", row.preprocessingDetails.GetOr(Null))])
  }

  /** The two endpoints that return a full result name its steps differently. */
  lemma StepsKeyDiffers(filename: string, p: Pipeline, row: Row, original: string, processed: string)
    requires p.Analysed?
    ensures "processing_steps" in KeysOf(UploadResult(filename, p))
    ensures "processing_steps" !in KeysOf(AnalysisDetail(row, original, processed))
    ensures "processing_details" in KeysOf(AnalysisDetail(row, original, processed))
  {
  }

  /** `get_analysis(analysis_id)`; `images` maps each readable image path to its base64 text. */
  method GetAnalysis(analysisId: nat, db: map<nat, Row>, images: map<string, string>) returns (reply: Reply)
    ensures analysisId !in db ==> reply == ErrorReply(NotFoundMessage(analysisId), 404)
    ensures analysisId in db ==>
              var row := db[analysisId];
              reply == if row.originalImagePath in images && row.processedImagePath in images
                       then JsonReply(Envelope(AnalysisDetail(row, images[row.originalImagePath],
                                                              images[row.processedImagePath]),
                                               DefaultStatus, None), 200)
                       else ErrorReply("Failed to read image files", 500)
  {
    if analysisId !in db {
      reply := Error(NotFoundMessage(analysisId), 404);
      return;
    }
    var row := db[analysisId];
    if row.originalImagePath !in images || row.processedImagePath !in images {
      reply := Error("Failed to read image files", 500);
      return;
    }
    var result := AnalysisDetail(row, images[row.originalImagePath], images[row.processedImagePath]);
    var body := FormatJsonResponse(result, DefaultStatus, None);
    reply := JsonReply(body, 200);
  }

  /** One entry of the history list: exactly five fields, in this order. */
  function SummaryOf(row: Row): (v: Value)
    ensures KeysOf(v) == ["id", "filename", "disease_class", "confidence", "created_at"]
  {
    Obj([("id", Int(row.id)), ("filename", Str(row.filename)), ("disease_class", Str(row.diseaseClass)),
         ("confidence", Real(row.confidence)), ("created_at", Str(row.createdAt))])
  }

  /**
   * `get_history`: `rows` is the query result, newest first; the reply lists
   * one summary per row, in the same order.
   */
  method GetHistory(rows: seq<Row>) returns (reply: Reply, results: seq<Value>)
    ensures |results| == |rows|
    ensures forall k :: 0 <= k < |rows| ==> results[k] == SummaryOf(rows[k])
    ensures reply == JsonReply(Envelope(Arr(results), DefaultStatus, None), 200)
  {
    results := [];
    for i := 0 to |rows|
      invariant |results| == i
      invariant forall k :: 0 <= k < i ==> results[k] == SummaryOf(rows[k])
    {
      results := results + [SummaryOf(rows[i])];
    }
    var body := FormatJsonResponse(Arr(results), DefaultStatus, None);
    reply := JsonReply(body, 200);
  }

  /** The report written for a JSON download. */
  function Report(row: Row): (v: Value)
    ensures KeysOf(v) == ["id", "filename", "disease_class", "confidence", "created_at",
                          "preprocessing_details", "features"]
  {
    Obj([("id", Int(row.id)), ("filename", Str(row.filename)), ("disease_class", Str(row.diseaseClass)),
         ("confidence", Real(row.confidence)), ("created_at", Str(row.createdAt)),
         ("preprocessing_details", row.preprocessingDetails.GetOr(Null)),
         ("features", row.features.GetOr(Null))])
  }

  function ReportName(analysisId: nat): string {
    "analysis_" + Text.DecimalString(analysisId) + "_report.json"
  }

  /** The report's download name identifies the analysis it was made for. */
  lemma {:induction false} ReportNameNamesId(a: nat, b: nat)
    requires ReportName(a) == ReportName(b)
    ensures a == b
  {
    var prefix := "analysis_";
    var suffix := "_report.json";
    var da := Text.DecimalString(a);
    var db := Text.DecimalString(b);
    assert ReportName(a) == prefix + da + suffix;
    assert ReportName(b) == prefix + db + suffix;
    assert |da| == |db|;
    assert da == ReportName(a)[|prefix|..|prefix| + |da|];
    assert db == ReportName(b)[|prefix|..|prefix| + |db|];
    Text.ParseDecimalString(a);
    Text.ParseDecimalString(b);
  }

  /** `download_analysis(analysis_id)`; `args` is the query string. */
  method DownloadAnalysis(analysisId: nat, db: map<nat, Row>, args: map<string, string>) returns (reply: Reply)
    ensures analysisId !in db ==> reply == ErrorReply(NotFoundMessage(analysisId), 404)
    ensures analysisId in db ==>
              var format := if "format" in args then args["format"] else "json";
              reply == if format == "json"
                       then FileReply(ReportName(analysisId), "application/json", Report(db[analysisId]))
                       else ErrorReply("Unsupported format: " + format + ". Only 'json' is supported", 400)
  {
    if analysisId !in db {
      reply := Error(NotFoundMessage(analysisId), 404);
      return;
    }
    var row := db[analysisId];
    var reportFormat := if "format" in args then args["format"] else "json";
    if reportFormat == "json" {
      reply := FileReply(ReportName(analysisId), "application/json", Report(row));
    } else {
      reply := Error("Unsupported format: " + reportFormat + ". Only 'json' is supported", 400);
    }
  }
}
