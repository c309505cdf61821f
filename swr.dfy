/** The data-fetching policy: which failed requests are retried, and the
    fixed revalidation and retry settings. */
module Swr {
  import opened Common

  const RevalidateOnFocus := false
  const RevalidateOnReconnect := true
  /** Milliseconds within which identical requests are served once. */
  const DedupingInterval := 5000
  const ErrorRetryCount := 3

  /** A failure as the retry predicate sees it: possibly an HTTP response,
      possibly carrying a status. */
  datatype HttpResponse = HttpResponse(status: Option<int>)

  datatype FetchError = FetchError(response: Option<HttpResponse>)

  /** `error?.response?.status`. */
  function StatusOf(error: Option<FetchError>): (s: Option<int>)
    ensures s.Some? ==> error.Some? && error.value.response.Some?
  {
    if error.Some? && error.value.response.Some? then error.value.response.value.status else None
  }

  /** Unauthorised and forbidden responses are final; anything else is retried. */
  function ShouldRetryOnError(error: Option<FetchError>): (retry: bool)
    ensures !retry <==> StatusOf(error) == Some(401) || StatusOf(error) == Some(403)
  {
    var status := StatusOf(error);
    !(status == Some(401) || status == Some(403))
  }

  /** In particular, a failure without a response is always retried. */
  lemma NoResponseIsRetried(error: Option<FetchError>)
    requires error.None? || error.value.response.None? || error.value.response.value.status.None?
    ensures ShouldRetryOnError(error)
  {
  }
}
