/**
 * Request and response schemas of the lawyer, answer and document
 * endpoints: the field constraints and defaults the validation layer
 * enforces. Each validator takes the request fields after JSON decoding
 * (None for a field the body leaves out) and either builds the schema
 * value or fails with 422, as the framework does before a handler runs.
 */
module Schemas {
  import opened Wrappers
  import opened Json
  import opened Http

  // ---------------------------------------------------------------- lawyer

  /** The verification status literals of a lawyer profile. */
  datatype Status = Pending | Approved | Rejected

  function StatusName(s: Status): string
  {
    match s
    case Pending => "pending"
    case Approved => "approved"
    case Rejected => "rejected"
  }

  /** The `Literal["approved", "pending", "rejected"]` check. */
  function ParseStatus(t: string): (r: Option<Status>)
    ensures r.Some? <==> t == "pending" || t == "approved" || t == "rejected"
    ensures r.Some? ==> StatusName(r.value) == t
    ensures forall s: Status :: t == StatusName(s) ==> r == Some(s)
  {
    if t == "pending" then Some(Pending)
    else if t == "approved" then Some(Approved)
    else if t == "rejected" then Some(Rejected)
    else None
  }

  /** `LawyerVerificationRequest`: both fields are required strings. */
  datatype LawyerVerificationRequest = LawyerVerificationRequest(name: string, verificationDocumentUrl: string)

  function ValidateVerificationRequest(name: Option<string>, url: Option<string>): (r: Result<LawyerVerificationRequest, HttpError>)
    ensures r.Success? <==> name.Some? && url.Some?
    ensures r.Success? ==> r.value.name == name.value && r.value.verificationDocumentUrl == url.value
    ensures r.Failure? ==> r.error.code == UnprocessableEntity
  {
    if name.None? then Failure(ValidationError("name"))
    else if url.None? then Failure(ValidationError("verification_document_url"))
    else Success(LawyerVerificationRequest(name.value, url.value))
  }

  /** `LawyerStatusUpdate`: a status literal and an optional balance reset. */
  datatype LawyerStatusUpdate = LawyerStatusUpdate(status: Status, resetBalance: Option<int>)

  /** The `ge=0` constraint on `reset_balance`. */
  predicate ValidStatusUpdate(u: LawyerStatusUpdate)
  {
    u.resetBalance.None? || u.resetBalance.value >= 0
  }

  function ValidateStatusUpdate(status: Option<string>, resetBalance: Option<int>): (r: Result<LawyerStatusUpdate, HttpError>)
    ensures r.Success? <==>
      status.Some? && ParseStatus(status.value).Some? && (resetBalance.None? || resetBalance.value >= 0)
    ensures r.Success? ==> ValidStatusUpdate(r.value)
    ensures r.Success? ==> StatusName(r.value.status) == status.value && r.value.resetBalance == resetBalance
    ensures r.Failure? ==> r.error.code == UnprocessableEntity
  {
    if status.None? then Failure(ValidationError("status"))
    else
      match ParseStatus(status.value)
      case None => Failure(ValidationError("status"))
      case Some(s) =>
        if resetBalance.Some? && resetBalance.value < 0 then Failure(ValidationError("reset_balance"))
        else Success(LawyerStatusUpdate(s, resetBalance))
  }

  /** `LawyerProfileResponse`. */
  datatype LawyerProfileResponse = LawyerProfileResponse(
    id: string, userId: string, name: string, verificationStatus: Status,
    verificationDocumentUrl: Option<string>, balance: int)

  /**
   * Validating a stored profile row as a `LawyerProfileResponse`: the balance
   * must be an integer, so a null balance fails, and a failing validation
   * inside a handler surfaces as 500.
   */
  function ProfileResponse(id: string, userId: string, name: string, status: Status,
                           url: Option<string>, balance: Option<int>): (r: Result<LawyerProfileResponse, HttpError>)
    ensures r.Success? <==> balance.Some?
    ensures r.Success? ==> r.value.balance == balance.value && r.value.verificationStatus == status
                           && r.value.userId == userId && r.value.name == name
                           && r.value.verificationDocumentUrl == url && r.value.id == id
    ensures r.Failure? ==> r.error.code == InternalServerError
  {
    match balance
    case None => Failure(InternalError())
    case Some(b) => Success(LawyerProfileResponse(id, userId, name, status, url, b))
  }

  // ---------------------------------------------------------------- answer

  const AnswerMinLength: nat := 10

  /** `AnswerCreate`: required content of at least ten characters. */
  datatype AnswerCreate = AnswerCreate(content: string)

  predicate ValidAnswerCreate(a: AnswerCreate)
  {
    |a.content| >= AnswerMinLength
  }

  function ValidateAnswerCreate(content: Option<string>): (r: Result<AnswerCreate, HttpError>)
    ensures r.Success? <==> content.Some? && |content.value| >= 10
    ensures r.Success? ==> r.value.content == content.value && ValidAnswerCreate(r.value)
    ensures r.Failure? ==> r.error.code == UnprocessableEntity
  {
    match content
    case None => Failure(ValidationError("content"))
    case Some(c) => if |c| < AnswerMinLength then Failure(ValidationError("content")) else Success(AnswerCreate(c))
  }

  /** `AnswerResponse`. */
  datatype AnswerResponse = AnswerResponse(
    id: string, questionId: string, lawyerId: string, content: string, createdAt: Option<string>)

  /** A required string field of a row, or None when absent or not a string. */
  function RequiredString(r: Record, key: string): Option<string>
  {
    if key in r && r[key].JStr? then Some(r[key].s) else None
  }

  /**
   * Validating an answer row as an `AnswerResponse`: `id`, `question_id`,
   * `lawyer_id` and `content` are required, `created_at` is optional and
   * defaults to None.
   */
  function AnswerResponseFrom(row: Record): (r: Result<AnswerResponse, HttpError>)
    ensures r.Success? <==>
      && RequiredString(row, "id").Some? && RequiredString(row, "question_id").Some?
      && RequiredString(row, "lawyer_id").Some? && RequiredString(row, "content").Some?
      && (Get(row, "created_at").JNull? || Get(row, "created_at").JStr?)
    ensures r.Success? ==>
      && r.value.id == row["id"].s && r.value.questionId == row["question_id"].s
      && r.value.lawyerId == row["lawyer_id"].s && r.value.content == row["content"].s
      && r.value.createdAt == (if Get(row, "created_at").JStr? then Some(row["created_at"].s) else None)
    ensures r.Failure? ==> r.error.code == InternalServerError
  {
    var id := RequiredString(row, "id");
    var qid := RequiredString(row, "question_id");
    var lid := RequiredString(row, "lawyer_id");
    var content := RequiredString(row, "content");
    var created := Get(row, "created_at");
    if id.None? || qid.None? || lid.None? || content.None? then Failure(InternalError())
    else if created.JNull? then Success(AnswerResponse(id.value, qid.value, lid.value, content.value, None))
    else if created.JStr? then Success(AnswerResponse(id.value, qid.value, lid.value, content.value, Some(created.s)))
    else Failure(InternalError())
  }

  // ---------------------------------------------------------------- document

  /** `DocumentCreate`. */
  datatype DocumentCreate = DocumentCreate(fileName: string, storageUrl: string, version: int, isActive: bool)

  /** The `ge=1` constraint on `version`. */
  predicate ValidDocumentCreate(d: DocumentCreate)
  {
    d.version >= 1
  }

  /** Validation with the defaults `version = 1` and `is_active = True`. */
  function ValidateDocumentCreate(fileName: Option<string>, storageUrl: Option<string>,
                                  version: Option<int>, isActive: Option<bool>): (r: Result<DocumentCreate, HttpError>)
    ensures r.Success? <==> fileName.Some? && storageUrl.Some? && (version.None? || version.value >= 1)
    ensures r.Success? ==> ValidDocumentCreate(r.value)
    ensures r.Success? ==>
      && r.value.fileName == fileName.value && r.value.storageUrl == storageUrl.value
      && r.value.version == (if version.Some? then version.value else 1)
      && r.value.isActive == (if isActive.Some? then isActive.value else true)
    ensures r.Failure? ==> r.error.code == UnprocessableEntity
  {
    if fileName.None? then Failure(ValidationError("file_name"))
    else if storageUrl.None? then Failure(ValidationError("storage_url"))
    else if version.Some? && version.value < 1 then Failure(ValidationError("version"))
    else
      Success(DocumentCreate(fileName.value, storageUrl.value,
                             if version.Some? then version.value else 1,
                             if isActive.Some? then isActive.value else true))
  }

  /** `payload.model_dump()`. */
  function DocumentDump(d: DocumentCreate): Record
  {
    map["file_name" := JStr(d.fileName), "storage_url" := JStr(d.storageUrl),
        "version" := JInt(d.version), "is_active" := JBool(d.isActive)]
  }

  /** `DocumentResponse`: every `DocumentCreate` field plus `id` and `uploaded_by`. */
  datatype DocumentResponse = DocumentResponse(document: DocumentCreate, id: string, uploadedBy: string)

  /** Validating a document row as a `DocumentResponse` (a failure inside a handler is a 500). */
  function DocumentResponseFrom(row: Record): (r: Result<DocumentResponse, HttpError>)
    ensures r.Success? <==>
      && RequiredString(row, "file_name").Some? && RequiredString(row, "storage_url").Some?
      && RequiredString(row, "id").Some? && RequiredString(row, "uploaded_by").Some?
      && ("version" in row ==> row["version"].JInt? && row["version"].i >= 1)
      && ("is_active" in row ==> row["is_active"].JBool?)
    ensures r.Success? ==>
      && r.value.document.version == (if "version" in row then row["version"].i else 1)
      && r.value.document.isActive == (if "is_active" in row then row["is_active"].b else true)
    ensures r.Success? ==> ValidDocumentCreate(r.value.document)
    ensures r.Success? ==>
      && Get(row, "file_name") == JStr(r.value.document.fileName)
      && Get(row, "storage_url") == JStr(r.value.document.storageUrl)
      && Get(row, "id") == JStr(r.value.id) && Get(row, "uploaded_by") == JStr(r.value.uploadedBy)
    ensures r.Failure? ==> r.error.code == InternalServerError
  {
    var fileName := RequiredString(row, "file_name");
    var storageUrl := RequiredString(row, "storage_url");
    var id := RequiredString(row, "id");
    var uploadedBy := RequiredString(row, "uploaded_by");
    var version := if "version" in row then row["version"] else JInt(1);
    var active := if "is_active" in row then row["is_active"] else JBool(true);
    if fileName.None? || storageUrl.None? || id.None? || uploadedBy.None? then Failure(InternalError())
    else if !version.JInt? || version.i < 1 || !active.JBool? then Failure(InternalError())
    else Success(DocumentResponse(DocumentCreate(fileName.value, storageUrl.value, version.i, active.b), id.value, uploadedBy.value))
  }

  /**
   * A stored document built from a valid `DocumentCreate` plus an uploader
   * and an id validates back to exactly those values.
   */
  lemma DocumentRoundTrip(d: DocumentCreate, uploadedBy: string, id: string)
    requires ValidDocumentCreate(d)
    ensures DocumentResponseFrom(DocumentDump(d)["uploaded_by" := JStr(uploadedBy)]["id" := JStr(id)])
            == Success(DocumentResponse(d, id, uploadedBy))
  {
  }
}
