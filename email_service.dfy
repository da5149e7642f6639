/**
 * The request body that `emailService.fetchEmails` (src/services/emailService.ts)
 * posts to the mail endpoint. Each property of the caller's request falls back
 * to a default under JavaScript truthiness: `folder || "INBOX"`, `limit || 25`,
 * `search_criteria || "ALL"`, and `include_body` defaults to true only when
 * it is undefined.
 */
module EmailService {
  import opened Wrappers
  import opened JsText
  import opened EmailTypes

  const DEFAULT_FOLDER: string := "INBOX"
  const DEFAULT_LIMIT: int := 25
  const DEFAULT_SEARCH_CRITERIA: string := "ALL"

  /** The body actually sent: every property present. */
  datatype FetchBody = FetchBody(folder: string, limit: int, searchCriteria: string, includeBody: bool)

  /** `limit || 25` on a number: zero is falsy. */
  function LimitOrDefault(limit: Option<int>): int {
    if limit.Some? && limit.value != 0 then limit.value else DEFAULT_LIMIT
  }

  function RequestBody(request: EmailFetchRequest): (body: FetchBody)
    // Nothing sent is falsy.
    ensures body.folder != "" && body.limit != 0 && body.searchCriteria != ""
    // A truthy value is passed through unchanged ...
    ensures request.folder.Some? && request.folder.value != "" ==> body.folder == request.folder.value
    ensures request.limit.Some? && request.limit.value != 0 ==> body.limit == request.limit.value
    ensures request.searchCriteria.Some? && request.searchCriteria.value != "" ==>
              body.searchCriteria == request.searchCriteria.value
    // ... and a falsy or absent one is replaced by the default.
    ensures request.folder.None? || request.folder.value == "" ==> body.folder == DEFAULT_FOLDER
    ensures request.limit.None? || request.limit.value == 0 ==> body.limit == DEFAULT_LIMIT
    ensures request.searchCriteria.None? || request.searchCriteria.value == "" ==>
              body.searchCriteria == DEFAULT_SEARCH_CRITERIA
    // `include_body` is tested against undefined, so an explicit false survives.
    ensures body.includeBody == false <==> request.includeBody == Some(false)
  {
    FetchBody(
      OrElse(request.folder, DEFAULT_FOLDER),
      LimitOrDefault(request.limit),
      OrElse(request.searchCriteria, DEFAULT_SEARCH_CRITERIA),
      if request.includeBody.Some? then request.includeBody.value else true)
  }

  /** The request that says every property explicitly. */
  function AsRequest(body: FetchBody): EmailFetchRequest {
    EmailFetchRequest(Some(body.folder), Some(body.limit), Some(body.searchCriteria), Some(body.includeBody))
  }

  /** Defaulting is idempotent: a body sent back through the service is sent unchanged. */
  lemma RequestBodyIdempotent(request: EmailFetchRequest)
    ensures RequestBody(AsRequest(RequestBody(request))) == RequestBody(request)
  {
  }

  /** A request with every property truthy is sent exactly as given. */
  lemma ExplicitRequestPassesThrough(body: FetchBody)
    requires body.folder != "" && body.limit != 0 && body.searchCriteria != ""
    ensures RequestBody(AsRequest(body)) == body
  {
  }

  /** `fetchEmails()` with no argument sends all four defaults. */
  lemma EmptyRequestDefaults()
    ensures RequestBody(EmailFetchRequest(None, None, None, None)) == FetchBody("INBOX", 25, "ALL", true)
  {
  }
}
