/**
 * The application submission route (`POST /api/applications`): the parsed
 * multipart form is normalised and checked, each required document is
 * uploaded under a fresh key, and the application and its file records are
 * written in one transaction. Every temporary file recorded along the way is
 * cleaned up however the request ends.
 */
module ApplicationsApi {
  import opened Wrappers
  import opened Text
  import opened Http

  /** The applicant columns of an application, as the form names them. */
  const ApplicantFields := ["fullName", "address", "phone", "email", "profession", "maritalStatus",
                            "bank", "agency", "accountNumber", "accountType"]
  /** The fields the route requires, in the order it checks them. */
  const RequiredFields := ApplicantFields + ["offerId"]
  /** The documents the route requires, in the order it checks and uploads them. */
  const RequiredFiles := ["residenceProof", "idDocument", "taxClearance", "laborDebtsClearance", "tstCertificate"]

  const PendingAnalysis := "pending_analysis"
  const KeyFolder := "documentos/"

  const MissingFieldPrefix := "Campo obrigatório não preenchido: "
  const MissingFilePrefix := "Documento obrigatório não enviado: "
  const BucketMessage := "Erro de configuração do servidor [Bucket]."
  const InvalidFilePrefix := "Arquivo inválido ou ausente para o campo: "
  const SavedMessage := "Aplicação recebida com sucesso! Seus dados estão em análise."
  const SaveErrorPrefix := "Erro ao salvar dados: "
  const InternalErrorPrefix := "Erro interno no servidor: "

  /** A parsed form field: one value, or the list of values sent under that name. */
  datatype FieldValue = Single(text: string) | Multi(values: seq<string>)

  /** A file the multipart parser wrote to a temporary path. */
  datatype TempFile = TempFile(filepath: string, originalFilename: string, mimetype: string, size: nat)

  /** A parsed file field: one file, or the list of files sent under that name. */
  datatype FileEntry = OneFile(file: TempFile) | FileList(list: seq<TempFile>)

  /** `error.meta` of a known database error; `target` names the offending column. */
  datatype ErrorMeta = ErrorMeta(target: Option<string>)

  /** A thrown error, with the `code` and `meta` a database error carries. */
  datatype Thrown = Thrown(code: Option<string>, meta: Option<ErrorMeta>, message: string)

  /** An entry of `uploadedFilesData`: a document put in the bucket. */
  datatype FileData = FileData(fieldName: string, r2Key: string, originalFilename: string,
                               mimetype: string, size: nat)

  /** A row of the uploaded-file table. */
  datatype FileRow = FileRow(applicationId: string, fieldName: string, r2Key: string,
                             originalFilename: string, mimetype: string, size: nat)

  /** The application row the transaction creates; `data` holds the applicant columns. */
  datatype ApplicationRow = ApplicationRow(id: string, data: map<string, string>, status: string, offerId: string)

  /** What one committed transaction writes. */
  datatype Saved = Saved(application: ApplicationRow, files: seq<FileRow>)

  // ---------------------------------------------------------------------------
  // Normalisation

  /** `Array.isArray(v) ? v[0] : v`; the first element of an empty list is undefined. */
  function Normalized(v: FieldValue): (r: Option<string>)
    ensures v.Single? ==> r == Some(v.text)
    ensures v.Multi? ==> (r.Some? <==> |v.values| > 0) && (r.Some? ==> r.value == v.values[0])
  {
    match v
    case Single(text) => Some(text)
    case Multi(values) => if |values| > 0 then Some(values[0]) else None
  }

  /** `normalizedFields`: every field keeps its name and takes its normalised value. */
  function NormalizedForm(form: map<string, FieldValue>): (fields: map<string, Option<string>>)
    ensures fields.Keys == form.Keys
    ensures forall k :: k in form ==> fields[k] == Normalized(form[k])
  {
    map k | k in form :: Normalized(form[k])
  }

  /** The `for…in` loop filling `normalizedFields`, one field at a time. */
  method NormalizeFields(form: map<string, FieldValue>) returns (fields: map<string, Option<string>>)
    ensures fields == NormalizedForm(form)
  {
    fields := map[];
    var pending := form.Keys;
    while pending != {}
      invariant pending <= form.Keys
      invariant fields.Keys == form.Keys - pending
      invariant forall k :: k in fields ==> fields[k] == Normalized(form[k])
      decreases |pending|
    {
      var key :| key in pending;
      fields := fields[key := Normalized(form[key])];
      pending := pending - {key};
    }
  }

  // ---------------------------------------------------------------------------
  // Validation

  /** `!fields[field]`: absent, undefined or empty; blanks are not trimmed. */
  predicate FieldMissing(fields: map<string, Option<string>>, field: string) {
    field !in fields || fields[field].None? || fields[field].value == ""
  }

  /** `!files[fileKey]`: only an absent entry is missing. */
  predicate FileMissing(files: map<string, FileEntry>, key: string) {
    key !in files
  }

  /** The first required field from position `i` on that is missing. */
  function MissingFieldFrom(fields: map<string, Option<string>>, i: nat): (r: Option<nat>)
    ensures r.Some? ==> i <= r.value < |RequiredFields| && FieldMissing(fields, RequiredFields[r.value])
    ensures forall j :: i <= j < (if r.Some? then r.value else |RequiredFields|) ==>
              !FieldMissing(fields, RequiredFields[j])
    decreases |RequiredFields| - i
  {
    if i >= |RequiredFields| then None
    else if FieldMissing(fields, RequiredFields[i]) then Some(i)
    else MissingFieldFrom(fields, i + 1)
  }

  /** The first required document from position `i` on that is missing. */
  function MissingFileFrom(files: map<string, FileEntry>, i: nat): (r: Option<nat>)
    ensures r.Some? ==> i <= r.value < |RequiredFiles| && FileMissing(files, RequiredFiles[r.value])
    ensures forall j :: i <= j < (if r.Some? then r.value else |RequiredFiles|) ==>
              !FileMissing(files, RequiredFiles[j])
    decreases |RequiredFiles| - i
  {
    if i >= |RequiredFiles| then None
    else if FileMissing(files, RequiredFiles[i]) then Some(i)
    else MissingFileFrom(files, i + 1)
  }

  /**
   * The checks before any upload, in their order: the first missing field,
   * then the first missing document, then the bucket name. `None` lets the
   * upload start.
   */
  function Rejection(fields: map<string, Option<string>>, files: map<string, FileEntry>,
                     bucket: Option<string>): (r: Option<Response<string>>)
    ensures forall i :: 0 <= i < |RequiredFields| && FieldMissing(fields, RequiredFields[i])
                        && (forall j :: 0 <= j < i ==> !FieldMissing(fields, RequiredFields[j])) ==>
              r == Some(Response(400, [], MissingFieldPrefix + RequiredFields[i]))
    ensures (forall f :: f in RequiredFields ==> !FieldMissing(fields, f)) ==>
              forall i :: 0 <= i < |RequiredFiles| && FileMissing(files, RequiredFiles[i])
                          && (forall j :: 0 <= j < i ==> !FileMissing(files, RequiredFiles[j])) ==>
                r == Some(Response(400, [], MissingFilePrefix + RequiredFiles[i]))
    ensures (forall f :: f in RequiredFields ==> !FieldMissing(fields, f))
            && (forall k :: k in RequiredFiles ==> !FileMissing(files, k)) ==>
              r == if bucket.None? || bucket.value == "" then Some(Response(500, [], BucketMessage)) else None
    ensures r.None? ==> (forall f :: f in RequiredFields ==> !FieldMissing(fields, f))
                        && (forall k :: k in RequiredFiles ==> !FileMissing(files, k))
  {
    var missingField := MissingFieldFrom(fields, 0);
    if missingField.Some? then
      Some(Response(400, [], MissingFieldPrefix + RequiredFields[missingField.value]))
    else
      var missingFile := MissingFileFrom(files, 0);
      if missingFile.Some? then
        Some(Response(400, [], MissingFilePrefix + RequiredFiles[missingFile.value]))
      else if bucket.None? || bucket.value == "" then
        Some(Response(500, [], BucketMessage))
      else
        None
  }

  // ---------------------------------------------------------------------------
  // Uploads

  /** `fileArray[0]`: the file a document entry holds, if any. */
  function Document(files: map<string, FileEntry>, key: string): (r: Option<TempFile>)
    ensures key in files && files[key].OneFile? ==> r == Some(files[key].file)
    ensures key in files && files[key].FileList? && |files[key].list| > 0 ==> r == Some(files[key].list[0])
    ensures r.Some? <==> key in files && (files[key].OneFile? || |files[key].list| > 0)
  {
    if key !in files then None
    else match files[key]
      case OneFile(file) => Some(file)
      case FileList(list) => if |list| > 0 then Some(list[0]) else None
  }

  /** `file && file.size > 0` */
  predicate Uploadable(files: map<string, FileEntry>, key: string)
    ensures Uploadable(files, key) ==> !FileMissing(files, key)
    ensures key in files && files[key].OneFile? ==> (Uploadable(files, key) <==> files[key].file.size > 0)
  {
    Document(files, key).Some? && Document(files, key).value.size > 0
  }

  /** The bucket key of a document: `documentos/<offerId>/<token>-<originalFilename>`. */
  function ObjectKey(offerId: string, token: string, filename: string): (r: string)
    ensures StartsWith(r, KeyFolder + offerId + "/")
    ensures EndsWith(r, "-" + filename)
    ensures |r| == |KeyFolder| + |offerId| + 1 + |token| + 1 + |filename|
  {
    var r := KeyFolder + offerId + "/" + token + "-" + filename;
    assert r == (KeyFolder + offerId + "/") + (token + "-" + filename);
    assert r == (KeyFolder + offerId + "/" + token) + ("-" + filename);
    r
  }

  /**
   * Two documents of one application get different keys when their tokens
   * differ and have one length, as version-4 UUIDs do.
   */
  lemma {:induction false} ObjectKeysDiffer(offerId: string, t1: string, t2: string, n1: string, n2: string)
    requires |t1| == |t2| && t1 != t2
    ensures ObjectKey(offerId, t1, n1) != ObjectKey(offerId, t2, n2)
  {
    var p := KeyFolder + offerId + "/";
    var k1 := ObjectKey(offerId, t1, n1);
    var k2 := ObjectKey(offerId, t2, n2);
    assert k1 == p + t1 + "-" + n1 && k2 == p + t2 + "-" + n2;
    var i :| 0 <= i < |t1| && t1[i] != t2[i];
    assert k1[|p| + i] == t1[i];
    assert k2[|p| + i] == t2[i];
  }

  /** The entry the loop pushes for the `i`-th document once its upload succeeds. */
  function Uploaded(offerId: string, uuid: nat -> string, files: map<string, FileEntry>, i: nat): (r: FileData)
    requires i < |RequiredFiles| && Uploadable(files, RequiredFiles[i])
    ensures r.fieldName == RequiredFiles[i]
    ensures r.r2Key == ObjectKey(offerId, uuid(i), Document(files, RequiredFiles[i]).value.originalFilename)
  {
    var file := Document(files, RequiredFiles[i]).value;
    FileData(RequiredFiles[i], ObjectKey(offerId, uuid(i), file.originalFilename),
             file.originalFilename, file.mimetype, file.size)
  }

  /** The temporary path of the `i`-th document, recorded before its upload starts. */
  function TempPath(files: map<string, FileEntry>, i: nat): (path: string)
    requires i < |RequiredFiles|
    ensures Uploadable(files, RequiredFiles[i]) ==> path == Document(files, RequiredFiles[i]).value.filepath
  {
    match Document(files, RequiredFiles[i])
    case Some(file) => file.filepath
    case None => ""
  }

  /**
   * The position the upload loop stops at: the first document from `i` on
   * that is not uploadable or whose upload fails, else past the last one.
   */
  function StopAt(files: map<string, FileEntry>, sendFails: nat -> Option<Thrown>, i: nat): (n: nat)
    requires i <= |RequiredFiles|
    ensures i <= n <= |RequiredFiles|
    ensures forall j :: i <= j < n ==> Uploadable(files, RequiredFiles[j]) && sendFails(j).None?
    ensures n < |RequiredFiles| ==> !Uploadable(files, RequiredFiles[n]) || sendFails(n).Some?
    decreases |RequiredFiles| - i
  {
    if i == |RequiredFiles| then i
    else if !Uploadable(files, RequiredFiles[i]) || sendFails(i).Some? then i
    else StopAt(files, sendFails, i + 1)
  }

  /** The error the loop throws when it stops at `n`. */
  function UploadError(files: map<string, FileEntry>, sendFails: nat -> Option<Thrown>, n: nat): (e: Thrown)
    requires n < |RequiredFiles|
    ensures !Uploadable(files, RequiredFiles[n]) ==> e.code.None? && e.meta.None?
  {
    if !Uploadable(files, RequiredFiles[n]) then Thrown(None, None, InvalidFilePrefix + RequiredFiles[n])
    else sendFails(n).GetOr(Thrown(None, None, ""))
  }

  /** How many temporary paths the loop records when it stops at `n`. */
  function RecordedPaths(files: map<string, FileEntry>, n: nat): (count: nat)
    requires n <= |RequiredFiles|
    ensures count <= |RequiredFiles|
  {
    if n < |RequiredFiles| && Uploadable(files, RequiredFiles[n]) then n + 1 else n
  }

  /**
   * The `for…of` loop over the required documents. `uuid(i)` is the token
   * drawn for the `i`-th document and `sendFails(i)` what its upload throws,
   * if anything. The loop stops at the first document it cannot upload.
   */
  method UploadDocuments(offerId: string, files: map<string, FileEntry>, uuid: nat -> string,
                         sendFails: nat -> Option<Thrown>)
    returns (uploaded: seq<FileData>, tempPaths: seq<string>, error: Option<Thrown>)
    ensures var n := StopAt(files, sendFails, 0);
            && |uploaded| == n
            && (forall i :: 0 <= i < n ==> uploaded[i] == Uploaded(offerId, uuid, files, i))
            && (error.None? <==> n == |RequiredFiles|)
            && (error.Some? ==> error.value == UploadError(files, sendFails, n))
            && |tempPaths| == RecordedPaths(files, n)
            && (forall i :: 0 <= i < |tempPaths| ==> tempPaths[i] == TempPath(files, i))
  {
    uploaded, tempPaths, error := [], [], None;
    var i := 0;
    while i < |RequiredFiles| && error.None?
      invariant 0 <= i <= |RequiredFiles|
      invariant forall j :: 0 <= j < i ==> Uploadable(files, RequiredFiles[j]) && sendFails(j).None?
      invariant |uploaded| == i
      invariant forall j :: 0 <= j < i ==> uploaded[j] == Uploaded(offerId, uuid, files, j)
      invariant error.None? ==> |tempPaths| == i
      invariant error.Some? ==>
                  && i < |RequiredFiles| && (!Uploadable(files, RequiredFiles[i]) || sendFails(i).Some?)
                  && error.value == UploadError(files, sendFails, i)
                  && |tempPaths| == RecordedPaths(files, i)
      invariant forall j :: 0 <= j < |tempPaths| ==> tempPaths[j] == TempPath(files, j)
      decreases |RequiredFiles| - i, if error.None? then 1 else 0
    {
      var fieldName := RequiredFiles[i];
      var file := Document(files, fieldName);
      if file.Some? && file.value.size > 0 {
        tempPaths := tempPaths + [file.value.filepath];
        var uniqueKey := ObjectKey(offerId, uuid(i), file.value.originalFilename);
        if sendFails(i).Some? {
          error := sendFails(i);
        } else {
          uploaded := uploaded + [FileData(fieldName, uniqueKey, file.value.originalFilename,
                                           file.value.mimetype, file.value.size)];
          i := i + 1;
        }
      } else {
        error := Some(Thrown(None, None, InvalidFilePrefix + fieldName));
      }
    }
    assert StopAt(files, sendFails, 0) == i;
  }

  // ---------------------------------------------------------------------------
  // The transaction and the reply

  /** The applicant columns of the new row, copied from the form. */
  function ApplicantData(fields: map<string, Option<string>>): (r: map<string, string>)
    ensures forall f :: f in r <==> f in ApplicantFields
    ensures forall f :: f in r && f in fields && fields[f].Some? ==> Some(r[f]) == fields[f]
  {
    map f | f in ApplicantFields :: if f in fields then fields[f].GetOr("") else ""
  }

  /** `fields.offerId`, present once the checks have passed. */
  function OfferId(fields: map<string, Option<string>>): (r: string)
    requires forall f :: f in RequiredFields ==> !FieldMissing(fields, f)
    ensures "offerId" in fields && fields["offerId"] == Some(r) && r != ""
  {
    assert RequiredFields[10] == "offerId";
    assert "offerId" in RequiredFields && !FieldMissing(fields, "offerId");
    fields["offerId"].value
  }

  /** `uploadedFilesData.map(...)`: each uploaded document as a row of the new application. */
  function FileRows(applicationId: string, uploaded: seq<FileData>): (rows: seq<FileRow>)
    ensures |rows| == |uploaded|
    ensures forall i :: 0 <= i < |rows| ==>
              rows[i] == FileRow(applicationId, uploaded[i].fieldName, uploaded[i].r2Key,
                                 uploaded[i].originalFilename, uploaded[i].mimetype, uploaded[i].size)
  {
    seq(|uploaded|, i requires 0 <= i < |uploaded| =>
      FileRow(applicationId, uploaded[i].fieldName, uploaded[i].r2Key,
              uploaded[i].originalFilename, uploaded[i].mimetype, uploaded[i].size))
  }

  /**
   * The `catch` block: a database error carrying `code` and `meta` is the
   * client's fault (400, naming the target column or else the code); any
   * other error is the server's (500, with its message).
   */
  function Classify(e: Thrown): (res: Response<string>)
    ensures res.allow == []
    ensures res.status == 400 <==> e.code.Some? && e.code.value != "" && e.meta.Some?
    ensures res.status != 400 ==> res.status == 500 && res.body == InternalErrorPrefix + e.message
    ensures res.status == 400 && e.meta.value.target.Some? && e.meta.value.target.value != "" ==>
              res.body == SaveErrorPrefix + e.meta.value.target.value
    ensures res.status == 400 && (e.meta.value.target.None? || e.meta.value.target.value == "") ==>
              res.body == SaveErrorPrefix + e.code.value
  {
    if e.code.Some? && e.code.value != "" && e.meta.Some? then
      var target := e.meta.value.target;
      Response(400, [], SaveErrorPrefix + if target.Some? && target.value != "" then target.value else e.code.value)
    else
      Response(500, [], InternalErrorPrefix + e.message)
  }

  /**
   * What the route does once every check has passed: upload, then commit,
   * then clean up. A stop in the upload loop or a failed transaction is
   * classified, nothing is saved and the reply is not 201; otherwise the
   * new application, pending analysis and linked to the offer, is saved
   * with one file row per required document in order, each carrying the
   * application's id and its bucket key. The paths cleaned up are exactly
   * the ones the loop recorded.
   */
  ghost predicate Processed(fields: map<string, Option<string>>, files: map<string, FileEntry>,
                            uuid: nat -> string, sendFails: nat -> Option<Thrown>,
                            txError: Option<Thrown>, newId: string,
                            res: Response<string>, saved: Option<Saved>, cleaned: seq<string>)
    requires forall f :: f in RequiredFields ==> !FieldMissing(fields, f)
  {
    var n := StopAt(files, sendFails, 0);
    var offerId := OfferId(fields);
    && (saved.Some? <==> n == |RequiredFiles| && txError.None?)
    && (n < |RequiredFiles| ==> res == Classify(UploadError(files, sendFails, n)))
    && (n == |RequiredFiles| && txError.Some? ==> res == Classify(txError.value))
    && (saved.Some? ==> res == Response(201, [], SavedMessage))
    && (saved.Some? ==>
          && saved.value.application == ApplicationRow(newId, ApplicantData(fields), PendingAnalysis, offerId)
          && |saved.value.files| == |RequiredFiles|
          && forall i :: 0 <= i < |saved.value.files| ==>
               && saved.value.files[i].applicationId == newId
               && saved.value.files[i].fieldName == RequiredFiles[i]
               && Uploadable(files, RequiredFiles[i])
               && saved.value.files[i].r2Key
                  == ObjectKey(offerId, uuid(i), Document(files, RequiredFiles[i]).value.originalFilename))
    && |cleaned| == RecordedPaths(files, n)
    && forall i :: 0 <= i < |cleaned| ==> cleaned[i] == TempPath(files, i)
  }

  /** The `try`/`catch`/`finally` part of the handler. */
  method Process(fields: map<string, Option<string>>, files: map<string, FileEntry>,
                 uuid: nat -> string, sendFails: nat -> Option<Thrown>,
                 txError: Option<Thrown>, newId: string)
    returns (res: Response<string>, saved: Option<Saved>, cleaned: seq<string>)
    requires forall f :: f in RequiredFields ==> !FieldMissing(fields, f)
    ensures Processed(fields, files, uuid, sendFails, txError, newId, res, saved, cleaned)
  {
    var offerId := OfferId(fields);
    var uploaded, tempPaths, error := UploadDocuments(offerId, files, uuid, sendFails);
    saved := None;
    if error.Some? {
      res := Classify(error.value);
    } else if txError.Some? {
      res := Classify(txError.value);
    } else {
      var application := ApplicationRow(newId, ApplicantData(fields), PendingAnalysis, offerId);
      saved := Some(Saved(application, FileRows(newId, uploaded)));
      res := Response(201, [], SavedMessage);
    }
    cleaned := tempPaths;
  }

  /**
   * The route `handler` on a parsed form. `bucket` is the configured bucket
   * name; `uuid`, `sendFails` as for `UploadDocuments`; `txError` is what the
   * transaction throws, if anything; `newId` the id the database gives the
   * new application. `saved` is what the transaction commits and `cleaned`
   * the temporary paths the `finally` block removes.
   */
  method Handle(verb: string, form: map<string, FieldValue>, files: map<string, FileEntry>,
                bucket: Option<string>, uuid: nat -> string, sendFails: nat -> Option<Thrown>,
                txError: Option<Thrown>, newId: string)
    returns (res: Response<string>, saved: Option<Saved>, cleaned: seq<string>)
    ensures verb != "POST" ==> res == Response(405, ["POST"], NotAllowedMessage(verb)) && saved.None? && cleaned == []
    ensures verb == "POST" && Rejection(NormalizedForm(form), files, bucket).Some? ==>
              res == Rejection(NormalizedForm(form), files, bucket).value && saved.None? && cleaned == []
    ensures verb == "POST" && Rejection(NormalizedForm(form), files, bucket).None? ==>
              Processed(NormalizedForm(form), files, uuid, sendFails, txError, newId, res, saved, cleaned)
  {
    if verb != "POST" {
      return Response(405, ["POST"], NotAllowedMessage(verb)), None, [];
    }
    var fields := NormalizeFields(form);
    var rejection := Rejection(fields, files, bucket);
    if rejection.Some? {
      return rejection.value, None, [];
    }
    res, saved, cleaned := Process(fields, files, uuid, sendFails, txError, newId);
  }
}
