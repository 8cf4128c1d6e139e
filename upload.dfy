/** The upload router of the API service (services/api/routers/upload.py):
    an allow-list check, then the file is forwarded to the knowledge
    service's `/ingest` under a freshly generated document id. The id, the
    knowledge service's replies and their transport errors are parameters. */
module Upload {
  import opened Common

  const ALLOWED_TYPES := ["application/pdf",
                          "application/vnd.openxmlformats-officedocument.wordprocessingml.document",
                          "text/plain", "text/markdown"]

  const UNSUPPORTED := HttpError(BAD_REQUEST, "Unsupported file type")
  const FORWARD_FAILED := HttpError(SERVER_ERROR, "Upload to knowledge service failed")
  const DOC_NOT_FOUND := HttpError(NOT_FOUND, "Document not found")

  /** What the framework answers when a route raises an error it does not
      catch (here: a reply body that is not JSON). */
  const INTERNAL_ERROR := HttpError(SERVER_ERROR, "Internal Server Error")

  /** The multipart form posted to `/ingest`: the file and the two fields. */
  datatype IngestForm = IngestForm(filename: string, content: seq<bv8>, contentType: string,
                                   userId: string, docId: string)

  /** The knowledge service's reply body: not JSON, or a JSON object with or
      without `status`. */
  datatype IngestBody = IngestNotJson | IngestJson(status: Option<string>)

  /** `UploadResponse`. */
  datatype UploadResponse = UploadResponse(docId: string, filename: string, status: string, message: string)

  /** `upload_document`. */
  function UploadDocument(filename: string, content: seq<bv8>, contentType: string, userId: string,
                          docId: string, forward: IngestForm -> Reply<IngestBody>): (r: Result<UploadResponse, HttpError>)
    ensures contentType !in ALLOWED_TYPES ==> r == Err(UNSUPPORTED)
    ensures contentType in ALLOWED_TYPES ==>
      var reply := forward(IngestForm(filename, content, contentType, userId, docId));
      (reply.TransportError? ==> r == Err(HttpError(SERVER_ERROR, "Failed to upload document: " + reply.message)))
      && (reply.Response? && reply.status != 200 ==> r == Err(FORWARD_FAILED))
      && (reply.Response? && reply.status == 200 && reply.body.IngestNotJson? ==> r == Err(INTERNAL_ERROR))
      && (reply.Response? && reply.status == 200 && reply.body.IngestJson? ==>
            r == Ok(UploadResponse(docId, filename, reply.body.status.GetOr("processing"),
                                   "Document uploaded successfully and queued for processing")))
  {
    if contentType !in ALLOWED_TYPES then Err(UNSUPPORTED)
    else
      var reply := forward(IngestForm(filename, content, contentType, userId, docId));
      match reply
      case TransportError(message) => Err(HttpError(SERVER_ERROR, "Failed to upload document: " + message))
      case Response(status, body) =>
        if status != 200 then Err(FORWARD_FAILED)
        else match body
          case IngestNotJson => Err(INTERNAL_ERROR)
          case IngestJson(s) =>
            Ok(UploadResponse(docId, filename, s.GetOr("processing"), "Document uploaded successfully and queued for processing"))
  }

  /** A refused content type is refused whatever the knowledge service
      would have answered: nothing is forwarded. */
  lemma RefusedBeforeForwarding(filename: string, content: seq<bv8>, contentType: string, userId: string,
                                docId: string, f1: IngestForm -> Reply<IngestBody>, f2: IngestForm -> Reply<IngestBody>)
    requires contentType !in ALLOWED_TYPES
    ensures UploadDocument(filename, content, contentType, userId, docId, f1)
         == UploadDocument(filename, content, contentType, userId, docId, f2)
  {
  }

  /** A successful upload reports the document id it forwarded, and the
      knowledge service accepted the form carrying that id and the caller. */
  lemma UploadKeepsId(filename: string, content: seq<bv8>, contentType: string, userId: string,
                      docId: string, forward: IngestForm -> Reply<IngestBody>)
    ensures var r := UploadDocument(filename, content, contentType, userId, docId, forward);
      r.Ok? ==>
        r.value.docId == docId && r.value.filename == filename
        && contentType in ALLOWED_TYPES
        && forward(IngestForm(filename, content, contentType, userId, docId)).Response?
        && forward(IngestForm(filename, content, contentType, userId, docId)).status == 200
  {
  }

  /** The status route's reply body: not JSON, or a JSON document passed
      through as it is. */
  datatype StatusBody = StatusNotJson | StatusJson(document: string)

  /** `get_upload_status`: 404 is passed on as "Document not found", a
      transport error becomes 500; any other reply's JSON is returned as it
      is, whatever its status. */
  function GetUploadStatus(docId: string, userId: string,
                           lookup: (string, string) -> Reply<StatusBody>): (r: Result<string, HttpError>)
    ensures lookup(docId, userId).TransportError? ==>
      r == Err(HttpError(SERVER_ERROR, "Failed to get status: " + lookup(docId, userId).message))
    ensures lookup(docId, userId).Response? && lookup(docId, userId).status == 404 ==> r == Err(DOC_NOT_FOUND)
    ensures lookup(docId, userId).Response? && lookup(docId, userId).status != 404 ==>
      match lookup(docId, userId).body
      case StatusNotJson => r == Err(INTERNAL_ERROR)
      case StatusJson(document) => r == Ok(document)
  {
    match lookup(docId, userId)
    case TransportError(message) => Err(HttpError(SERVER_ERROR, "Failed to get status: " + message))
    case Response(status, body) =>
      if status == 404 then Err(DOC_NOT_FOUND)
      else match body
        case StatusNotJson => Err(INTERNAL_ERROR)
        case StatusJson(document) => Ok(document)
  }
}
