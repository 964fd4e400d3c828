/**
 * The remote account API as seen by the account epics. The HTTP client itself is not
 * part of this model: every call is described by the request the epic issues, and its
 * outcome is an input to the model (a page of results, or a rejection).
 */
module AccountApi {
  import opened Wrappers

  /** The media-kind path segment of an account list request: 'movies' or 'tv'. */
  datatype MediaKind = Movies | Tv

  /** The account list a request asks for: 'watchlist', 'favorite' or 'rated'. */
  datatype Category = Watchlist | Favorite | Rated

  /** An error the API client rejects with. Its contents are opaque to the epics. */
  datatype ApiError = ApiError(status: int, message: string)

  /** The outcome of one API call: the resolved payload, or the rejection. */
  datatype Fetch<+T> = Fetched(value: T) | Rejected(error: ApiError)

  /**
   * One call of `getAccountMedias(accountId, sessionId, kind, category, page)`.
   * `page` is `None` where the epic leaves the argument out.
   */
  datatype MediaRequest = MediaRequest(
    accountId: int,
    sessionId: string,
    kind: MediaKind,
    category: Category,
    page: Option<int>)

  /** A paginated response of an account list; `results` is whatever the epic reads from it. */
  datatype MediaPage<+R> = MediaPage(results: R, totalPages: int, totalResults: int)

  /** The part of a rated movie or show that the rating epics read. */
  datatype RatedItem = RatedItem(id: int, rating: real)

  /** The authenticated session held in the auth slice. */
  datatype Session = Session(sessionId: string)

  /** The account detail record returned by `getAccountDetail`. */
  datatype Account = Account(id: int, gravatarHash: string, avatarUrl: Option<string>)

  /** The payload of a watchlist or favorite toggle intent, forwarded to the API as it is. */
  datatype TogglePayload = TogglePayload(mediaId: int, mediaType: string, enabled: bool)

  /** The two toggle endpoints: `addToWatchList` and `markFavorite`. */
  datatype ToggleEndpoint = AddToWatchlist | MarkFavorite

  /** One call of a toggle endpoint with the account, the session and the intent's payload. */
  datatype ToggleCall = ToggleCall(
    endpoint: ToggleEndpoint,
    accountId: int,
    sessionId: string,
    payload: TogglePayload)

  /** The empty payload a successful toggle call resolves with (the epics ignore it). */
  datatype Ack = Ack
}
