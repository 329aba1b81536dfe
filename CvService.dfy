/** newservice/service/services/cv_service.py: `CVService`, which obtains a
    time-limited signed URL for a CV file from blob storage, records the access
    in the audit table once a URL was obtained, and builds the HTTP answer. */
module CvService {
  import opened Wrappers
  import opened Models

  const SIGNED_URL_EXPIRY: int := 900
  const CV_BUCKET := "cvs"
  const UNKNOWN_STATUS_LABEL := "desconhecido"
  const NO_FILE_DETAIL := "Caminho do ficheiro não configurado (inconsistência de dados)."
  const NO_URL_DETAIL := "Erro ao gerar URL assinada para visualização."

  datatype SignedUrlRequest = SignedUrlRequest(bucketName: string, filePath: string, expirationSeconds: int)

  /** The storage service: `answer` is what the storage backend gives for a
      request (Failure when `get_signed_url` raises); `requests` records calls. */
  class StorageService {
    var requests: seq<SignedUrlRequest>
    const answer: SignedUrlRequest -> Result<string, string>

    constructor (answer: SignedUrlRequest -> Result<string, string>)
      ensures requests == [] && this.answer == answer
    {
      requests := [];
      this.answer := answer;
    }

    method GetSignedUrl(bucketName: string, filePath: string, expirationSeconds: int) returns (r: Result<string, string>)
      modifies this
      ensures requests == old(requests) + [SignedUrlRequest(bucketName, filePath, expirationSeconds)]
      ensures r == answer(SignedUrlRequest(bucketName, filePath, expirationSeconds))
    {
      requests := requests + [SignedUrlRequest(bucketName, filePath, expirationSeconds)];
      r := answer(SignedUrlRequest(bucketName, filePath, expirationSeconds));
    }
  }

  /** A `cv_access_log` row (its id and timestamp are generated by the database). */
  datatype AccessLogRow = AccessLogRow(curriculoId: int, accessedByUserId: string, accessedByRole: int)

  /** The audit table; when `accepting` is false every insert raises. */
  class AccessLogTable {
    var rows: seq<AccessLogRow>
    const accepting: bool

    constructor (accepting: bool)
      ensures rows == [] && this.accepting == accepting
    {
      rows := [];
      this.accepting := accepting;
    }

    method Create(row: AccessLogRow) returns (ok: bool)
      modifies this
      ensures ok == accepting
      ensures rows == if ok then old(rows) + [row] else old(rows)
    {
      ok := accepting;
      if ok {
        rows := rows + [row];
      }
    }
  }

  /** `curriculo.file` is truthy. */
  predicate HasFile(file: Option<string>) {
    file.Some? && file.value != ""
  }

  /** `CV_STATUS_LABELS.get(curriculo.status, 'desconhecido')` */
  function StatusLabel(status: Option<int>): (text: string)
    ensures status.Some? && status.value in CV_STATUS_LABELS ==> text == CV_STATUS_LABELS[status.value]
    ensures status.None? || status.value !in CV_STATUS_LABELS ==> text == UNKNOWN_STATUS_LABEL
    ensures text in {"pendente", "aprovado", "rejeitado", UNKNOWN_STATUS_LABEL}
  {
    if status.Some? && status.value in CV_STATUS_LABELS then CV_STATUS_LABELS[status.value]
    else UNKNOWN_STATUS_LABEL
  }

  /** The body of a 200 answer. */
  datatype SignedUrlData = SignedUrlData(id: int, signedUrl: string, status: Option<int>, statusLabel: string,
                                         validatedDate: Option<Date>, expiresInSeconds: int)

  datatype CvResponse = ErrorResponse(httpStatus: int, detail: string) | OkResponse(httpStatus: int, data: SignedUrlData)

  /** The answer `generate_signed_url_response` builds from the CV's fields
      and the URL (None when none was obtained). */
  function SignedUrlResponse(id: int, file: Option<string>, status: Option<int>, validatedDate: Option<Date>,
                             signedUrl: Option<string>): (resp: CvResponse)
    ensures !HasFile(file) ==> resp == ErrorResponse(500, NO_FILE_DETAIL)
    ensures HasFile(file) && (signedUrl.None? || signedUrl.value == "") ==> resp == ErrorResponse(503, NO_URL_DETAIL)
    ensures resp.OkResponse? <==> HasFile(file) && signedUrl.Some? && signedUrl.value != ""
    ensures resp.OkResponse? ==>
      resp.httpStatus == 200 &&
      resp.data == SignedUrlData(id, signedUrl.value, status, StatusLabel(status), validatedDate, SIGNED_URL_EXPIRY)
  {
    if !HasFile(file) then ErrorResponse(500, NO_FILE_DETAIL)
    else if signedUrl.None? || signedUrl.value == "" then ErrorResponse(503, NO_URL_DETAIL)
    else OkResponse(200, SignedUrlData(id, signedUrl.value, status, StatusLabel(status), validatedDate, SIGNED_URL_EXPIRY))
  }

  class CVService {
    const storage: StorageService
    const bucketName: string
    const accessLog: AccessLogTable

    constructor (storage: StorageService, accessLog: AccessLogTable)
      ensures this.storage == storage && this.accessLog == accessLog && bucketName == CV_BUCKET
    {
      this.storage := storage;
      this.accessLog := accessLog;
      bucketName := CV_BUCKET;
    }

    /** The storage request made for `cv`. */
    function RequestFor(file: string): SignedUrlRequest reads this {
      SignedUrlRequest(bucketName, file, SIGNED_URL_EXPIRY)
    }

    /** `_log_cv_access`: a failing insert is swallowed. */
    method LogCvAccess(cv: Curriculo, userId: string, userRole: int)
      modifies accessLog
      ensures accessLog.rows == if accessLog.accepting then old(accessLog.rows) + [AccessLogRow(cv.id, userId, userRole)]
                                else old(accessLog.rows)
    {
      var _ := accessLog.Create(AccessLogRow(cv.id, userId, userRole));
    }

    /** `get_signed_url_for_curriculo`: None for a CV without a file (storage
        untouched) or when storage fails; the access is logged only after a URL
        was obtained. */
    method GetSignedUrlForCurriculo(cv: Curriculo, userId: string, userRole: int) returns (url: Option<string>)
      modifies storage, accessLog
      ensures !HasFile(cv.file) ==>
        url.None? && storage.requests == old(storage.requests) && accessLog.rows == old(accessLog.rows)
      ensures HasFile(cv.file) ==>
        storage.requests == old(storage.requests) + [RequestFor(cv.file.value)]
      ensures HasFile(cv.file) && storage.answer(RequestFor(cv.file.value)).Failure? ==>
        url.None? && accessLog.rows == old(accessLog.rows)
      ensures HasFile(cv.file) && storage.answer(RequestFor(cv.file.value)).Success? ==>
        && url == Some(storage.answer(RequestFor(cv.file.value)).value)
        && accessLog.rows == if accessLog.accepting then old(accessLog.rows) + [AccessLogRow(cv.id, userId, userRole)]
                             else old(accessLog.rows)
    {
      if !HasFile(cv.file) {
        return None;
      }
      var r := storage.GetSignedUrl(bucketName, cv.file.value, SIGNED_URL_EXPIRY);
      match r
      case Failure(_) =>
        url := None;
      case Success(signedUrl) =>
        LogCvAccess(cv, userId, userRole);
        url := Some(signedUrl);
    }

    /** `generate_signed_url_response`: 500 without a file path, 503 without a
        URL, otherwise 200 with the CV metadata. */
    method GenerateSignedUrlResponse(cv: Curriculo, userId: string, userRole: int) returns (resp: CvResponse)
      modifies storage, accessLog
      ensures !HasFile(cv.file) ==>
        resp == ErrorResponse(500, NO_FILE_DETAIL) &&
        storage.requests == old(storage.requests) && accessLog.rows == old(accessLog.rows)
      ensures HasFile(cv.file) ==>
        var answer := storage.answer(RequestFor(cv.file.value));
        && storage.requests == old(storage.requests) + [RequestFor(cv.file.value)]
        && resp == SignedUrlResponse(cv.id, cv.file, cv.status, cv.validatedDate,
                                     if answer.Success? then Some(answer.value) else None)
        && accessLog.rows == if answer.Success? && accessLog.accepting
                             then old(accessLog.rows) + [AccessLogRow(cv.id, userId, userRole)]
                             else old(accessLog.rows)
    {
      if !HasFile(cv.file) {
        return ErrorResponse(500, NO_FILE_DETAIL);
      }
      var signedUrl := GetSignedUrlForCurriculo(cv, userId, userRole);
      resp := SignedUrlResponse(cv.id, cv.file, cv.status, cv.validatedDate, signedUrl);
    }
  }
}
