/**
 * The star-count fetcher of src/helpers/github.ts.
 *
 * The network round trip is abstracted into a `Response`: either the request
 * failed outright, or a status arrived with a body that `response.json()`
 * could not parse, that parsed but whose `stargazers_count` is not a number,
 * or that carries a number.
 */
module Github {

  /** What `response.json()` yields, seen only through `stargazers_count`. */
  datatype Body = Malformed | FieldNotNumber | Num(n: int)

  /** The outcome of `fetch`: a network failure, or a status (`response.ok`) and a body. */
  datatype Response = NetworkError | Status(ok: bool, body: Body)

  /** The reasons the `try` block throws; each is caught and logged. */
  datatype Failure = NetworkFailure | BadStatus | UnparseableBody | InvalidStructure

  /** What the `try` block ends with: the count, or the error it threw. */
  datatype Outcome = Fetched(stars: int) | Failed(reason: Failure)

  const ApiBase: string := "https://api.github.com/repos/"

  /** The request URL; `repo` ("owner/repo") is not validated. */
  function RequestUrl(repo: string): (url: string)
    ensures |url| == |ApiBase| + |repo|
    ensures url[..|ApiBase|] == ApiBase && url[|ApiBase|..] == repo
  {
    ApiBase + repo
  }

  /** Different repositories are never sent to the same URL. */
  lemma RequestUrlInjective(a: string, b: string)
    requires RequestUrl(a) == RequestUrl(b)
    ensures a == b
  {
  }

  /** The `try` block: each check in the order the source makes it. */
  function Classify(response: Response): (o: Outcome)
    ensures o.Fetched? <==> response.Status? && response.ok && response.body.Num?
    ensures o.Fetched? ==> o.stars == response.body.n
    ensures o == Failed(NetworkFailure) <==> response.NetworkError?
    ensures o == Failed(BadStatus) <==> response.Status? && !response.ok
  {
    match response
    case NetworkError => Failed(NetworkFailure)
    case Status(ok, body) =>
      if !ok then Failed(BadStatus)
      else match body
        case Malformed => Failed(UnparseableBody)
        case FieldNotNumber => Failed(InvalidStructure)
        case Num(n) => Fetched(n)
  }

  /** `fetchStars` over an abstract response: the `catch` turns every failure into 0. */
  function FetchStars(response: Response): (stars: int)
    ensures response.Status? && response.ok && response.body.Num? ==> stars == response.body.n
    ensures !(response.Status? && response.ok && response.body.Num?) ==> stars == 0
  {
    match Classify(response)
    case Fetched(n) => n
    case Failed(_) => 0
  }

  /** `fetchStars(repo)` against a network that answers each URL with a response. */
  function StarsOf(network: string -> Response, repo: string): (stars: int)
    ensures network(RequestUrl(repo)).Status? && network(RequestUrl(repo)).ok && network(RequestUrl(repo)).body.Num? ==>
              stars == network(RequestUrl(repo)).body.n
    ensures !(network(RequestUrl(repo)).Status? && network(RequestUrl(repo)).ok && network(RequestUrl(repo)).body.Num?) ==>
              stars == 0
  {
    FetchStars(network(ApiBase + repo))
  }

  /**
   * A result of 0 does not tell a failure from a repository with no stars:
   * it is 0 exactly when the lookup failed or the count really is 0.
   */
  lemma ZeroIsFailureOrNoStars(response: Response)
    ensures FetchStars(response) == 0 <==> Classify(response).Failed? || Classify(response).stars == 0
  {
  }

  /** Any nonzero result is a count the server sent with an OK status. */
  lemma NonzeroCameFromServer(response: Response)
    requires FetchStars(response) != 0
    ensures response == Status(true, Num(FetchStars(response)))
  {
  }
}
