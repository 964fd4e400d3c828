/**
 * The account epics: each reacts to one intent, given the latest application state and
 * the outcomes of the API calls it makes, with the requests it issues and what it emits.
 * An error that the epic catches becomes a failure event; one that it does not catch
 * (an unchecked cast of a missing session or account, a rejected call outside
 * `catchError`, `reduce` on an empty array) ends the epic's stream, modelled as
 * `Terminate`.
 */
module AccountEpics {
  import opened Wrappers
  import opened AccountApi
  import opened MediaDecoration
  import opened RatingMath

  /** Lengths of the account slice's lists, one per `${category}Movies` / `${category}Shows` key. */
  datatype AccountLists = AccountLists(
    watchlistMovies: nat, favoriteMovies: nat, ratedMovies: nat,
    watchlistShows: nat, favoriteShows: nat, ratedShows: nat)

  /** The snapshot of the application state an epic reads with `withLatestFrom(state$)`. */
  datatype AppState = AppState(
    session: Option<Session>,
    account: Option<Account>,
    lists: AccountLists,
    configuration: Configuration)

  /** Why an epic's stream ends with an uncaught error. */
  datatype Crash = MissingAccount | MissingSession | Uncaught(error: ApiError) | EmptyReduce

  /** The follow-up actions the account epics dispatch. */
  datatype Event =
    | AccountDetailSuccess(account: Account)
    | AccountDetailFailed(error: ApiError)
    | AccountMediaSuccess(kind: MediaKind, category: Category, items: seq<MediaRecord>)
    | AccountMediaFailed(kind: MediaKind)
    | MediaCountSuccess(watchlist: int, favorites: int, ratings: int)
    | MediaCountFailed
    | AverageRatingSuccess(kind: MediaKind, average: real)
    | AverageRatingFailed(kind: MediaKind)
    | FetchMovieAccountStates(mediaId: int)
    | FetchShowAccountStates(mediaId: int)

  /**
   * What an epic does with one intent: dispatch one event, or error out. `Stopped` is
   * the lack of any reaction once an earlier uncaught error has ended the stream.
   */
  datatype Emission = Emit(event: Event) | Terminate(crash: Crash) | Stopped

  /** The API requests an epic issues for one intent, in order, and its emission. */
  datatype Reaction<Req> = Reaction(requests: seq<Req>, out: Emission)

  /** The account id and session id every account call is made with. */
  datatype Credentials = Credentials(accountId: int, sessionId: string)

  /**
   * `(state.accountState.account as Account).id` followed by
   * `(state.authState.session as Session).session_id`: the first missing one throws.
   */
  function ReadCredentials(state: AppState): (cred: Result<Credentials, Crash>)
    ensures cred.Success? <==> state.account.Some? && state.session.Some?
    ensures cred.Success? ==> cred.value == Credentials(state.account.value.id, state.session.value.sessionId)
    ensures state.account.None? ==> cred == Failure(MissingAccount)
    ensures state.account.Some? && state.session.None? ==> cred == Failure(MissingSession)
  {
    match state.account
    case None => Failure(MissingAccount)
    case Some(account) =>
      match state.session
      case None => Failure(MissingSession)
      case Some(session) => Success(Credentials(account.id, session.sessionId))
  }

  // ---------------------------------------------------------------------------------
  // Account detail

  const AvatarPrefix: string := "https://www.gravatar.com/avatar/"
  const AvatarSuffix: string := ".jpg?s=200"

  /** The gravatar URL built from the account's avatar hash: prefix, hash, size suffix. */
  function AvatarUrl(hash: string): (url: string)
    ensures |url| == |AvatarPrefix| + |hash| + |AvatarSuffix|
    ensures url[..|AvatarPrefix|] == AvatarPrefix
    ensures url[|AvatarPrefix|..|url| - |AvatarSuffix|] == hash
    ensures url[|url| - |AvatarSuffix|..] == AvatarSuffix
  {
    AvatarPrefix + hash + AvatarSuffix
  }

  /** Reads the hash back out of a gravatar URL of the shape `AvatarUrl` builds. */
  function HashOfAvatarUrl(url: string): (hash: Option<string>)
    ensures hash.Some? ==> AvatarUrl(hash.value) == url
  {
    if |AvatarPrefix| + |AvatarSuffix| <= |url| && AvatarPrefix <= url
       && url[|url| - |AvatarSuffix|..] == AvatarSuffix
    then
      var hash := url[|AvatarPrefix|..|url| - |AvatarSuffix|];
      assert url == url[..|AvatarPrefix|] + hash + url[|url| - |AvatarSuffix|..];
      Some(hash)
    else None
  }

  /** The avatar URL determines the hash it was built from. */
  lemma AvatarUrlRoundTrip(hash: string)
    ensures HashOfAvatarUrl(AvatarUrl(hash)) == Some(hash)
  {
  }

  /** `getAccountDetailEpic`: fetch the account, then attach the avatar URL to it. */
  function AccountDetailEpic(state: AppState, response: Fetch<Account>): (r: Reaction<string>)
    ensures state.session.None? ==> r == Reaction([], Terminate(MissingSession))
    ensures state.session.Some? ==> r.requests == [state.session.value.sessionId]
    ensures state.session.Some? && response.Rejected? ==> r.out == Emit(AccountDetailFailed(response.error))
    ensures state.session.Some? && response.Fetched? ==>
              && r.out.Emit? && r.out.event.AccountDetailSuccess?
              && r.out.event.account.id == response.value.id
              && r.out.event.account.gravatarHash == response.value.gravatarHash
              && r.out.event.account.avatarUrl.Some?
              && HashOfAvatarUrl(r.out.event.account.avatarUrl.value) == Some(response.value.gravatarHash)
  {
    match state.session
    case None => Reaction([], Terminate(MissingSession))
    case Some(session) =>
      match response
      case Rejected(e) => Reaction([session.sessionId], Emit(AccountDetailFailed(e)))
      case Fetched(account) =>
        AvatarUrlRoundTrip(account.gravatarHash);
        var decorated := account.(avatarUrl := Some(AvatarUrl(account.gravatarHash)));
        Reaction([session.sessionId], Emit(AccountDetailSuccess(decorated)))
  }

  // ---------------------------------------------------------------------------------
  // Account movies and shows

  /** The payload of `getAccountMovies` / `getAccountShows`. */
  datatype MediaIntent = MediaIntent(category: Category, page: int)

  /** `(state.accountState as any)[`${type}Movies`].length`, and the same for `Shows`. */
  function CachedLength(lists: AccountLists, kind: MediaKind, category: Category): nat
  {
    match (kind, category)
    case (Movies, Watchlist) => lists.watchlistMovies
    case (Movies, Favorite) => lists.favoriteMovies
    case (Movies, Rated) => lists.ratedMovies
    case (Tv, Watchlist) => lists.watchlistShows
    case (Tv, Favorite) => lists.favoriteShows
    case (Tv, Rated) => lists.ratedShows
  }

  /** What the media epic decides before any call is made. */
  datatype MediaPlan = Abort(crash: Crash) | ServeCached | FetchPage(request: MediaRequest)

  /**
   * The decision of the movies and shows epics: first page of a list already in the
   * state means no fetch; anything else fetches the requested page of that list.
   */
  function PlanMediaFetch(kind: MediaKind, state: AppState, intent: MediaIntent): (plan: MediaPlan)
    ensures plan.Abort? <==> ReadCredentials(state).Failure?
    ensures plan.Abort? ==> plan.crash == ReadCredentials(state).error
    ensures plan.ServeCached? <==>
              ReadCredentials(state).Success? && intent.page == 1
              && CachedLength(state.lists, kind, intent.category) > 0
    ensures plan.FetchPage? ==>
              && plan.request.accountId == ReadCredentials(state).value.accountId
              && plan.request.sessionId == ReadCredentials(state).value.sessionId
              && plan.request.kind == kind
              && plan.request.category == intent.category
              && plan.request.page == Some(intent.page)
  {
    match ReadCredentials(state)
    case Failure(crash) => Abort(crash)
    case Success(cred) =>
      if intent.page == 1 && CachedLength(state.lists, kind, intent.category) > 0 then ServeCached
      else FetchPage(MediaRequest(cred.accountId, cred.sessionId, kind, intent.category, Some(intent.page)))
  }

  /**
   * `getAccountMoviesEpic` (kind `Movies`) and `getAccountShowsEpic` (kind `Tv`): follow
   * the plan; a fetched page has its records decorated in place and is dispatched.
   * `response` is the outcome of the page request, read only if that request is made.
   */
  method FetchAccountMedia(
    kind: MediaKind, state: AppState, intent: MediaIntent,
    response: Fetch<MediaPage<array<MediaRecord>>>)
    returns (reaction: Reaction<MediaRequest>)
    requires response.Fetched? ==> Distinct(response.value.results)
    modifies if response.Fetched? then Elements(response.value.results) else {}
    ensures var plan := PlanMediaFetch(kind, state, intent);
            && (plan.Abort? ==> reaction == Reaction([], Terminate(plan.crash)))
            && (plan.ServeCached? ==> reaction == Reaction([], Emit(AccountMediaSuccess(kind, intent.category, []))))
            && (plan.FetchPage? ==> reaction.requests == [plan.request])
            && (plan.FetchPage? && response.Rejected? ==> reaction.out == Emit(AccountMediaFailed(kind)))
    ensures response.Fetched? ==>
              var plan := PlanMediaFetch(kind, state, intent);
              var page := response.value.results;
              if plan.FetchPage? then
                && reaction.out == Emit(AccountMediaSuccess(kind, intent.category, page[..]))
                && forall i :: 0 <= i < page.Length ==>
                     page[i].View() == Decorated(state.configuration, old(page[i].View()))
              else
                forall i :: 0 <= i < page.Length ==> page[i].View() == old(page[i].View())
  {
    var plan := PlanMediaFetch(kind, state, intent);
    match plan
    case Abort(crash) =>
      reaction := Reaction([], Terminate(crash));
    case ServeCached =>
      reaction := Reaction([], Emit(AccountMediaSuccess(kind, intent.category, [])));
    case FetchPage(request) =>
      match response
      case Rejected(_) =>
        reaction := Reaction([request], Emit(AccountMediaFailed(kind)));
      case Fetched(page) =>
        var results := DecorateMedia(state.configuration, page.results);
        reaction := Reaction([request], Emit(AccountMediaSuccess(kind, intent.category, results[..])));
  }

  // ---------------------------------------------------------------------------------
  // Media count

  /** The total a list request reports (`pluck('total_results')`), or its rejection. */
  function Total(totals: MediaRequest -> Fetch<int>, cred: Credentials, kind: MediaKind, category: Category): Fetch<int>
  {
    totals(MediaRequest(cred.accountId, cred.sessionId, kind, category, None))
  }

  /** The six list requests of the count epic, in the order the source lists them. */
  function MediaCountRequests(cred: Credentials): (reqs: seq<MediaRequest>)
    ensures |reqs| == 6
    ensures forall k :: 0 <= k < 6 ==>
              reqs[k].accountId == cred.accountId && reqs[k].sessionId == cred.sessionId && reqs[k].page.None?
    ensures forall k :: 0 <= k < 6 ==> reqs[k].kind == if k < 3 then Tv else Movies
    ensures forall k :: 0 <= k < 6 ==> reqs[k].category == [Watchlist, Favorite, Rated][k % 3]
  {
    var (a, s) := (cred.accountId, cred.sessionId);
    [MediaRequest(a, s, Tv, Watchlist, None), MediaRequest(a, s, Tv, Favorite, None),
     MediaRequest(a, s, Tv, Rated, None), MediaRequest(a, s, Movies, Watchlist, None),
     MediaRequest(a, s, Movies, Favorite, None), MediaRequest(a, s, Movies, Rated, None)]
  }

  /** The six totals the count epic reads are all of the (kind, category) totals. */
  lemma SixTotalsCoverAll(totals: MediaRequest -> Fetch<int>, cred: Credentials)
    requires && Total(totals, cred, Tv, Watchlist).Fetched? && Total(totals, cred, Tv, Favorite).Fetched?
             && Total(totals, cred, Tv, Rated).Fetched? && Total(totals, cred, Movies, Watchlist).Fetched?
             && Total(totals, cred, Movies, Favorite).Fetched? && Total(totals, cred, Movies, Rated).Fetched?
    ensures forall kind, category :: Total(totals, cred, kind, category).Fetched?
  {
    forall kind: MediaKind, category: Category
      ensures Total(totals, cred, kind, category).Fetched?
    {
      match (kind, category)
      case (Tv, Watchlist) =>
      case (Tv, Favorite) =>
      case (Tv, Rated) =>
      case (Movies, Watchlist) =>
      case (Movies, Favorite) =>
      case (Movies, Rated) =>
    }
  }

  /**
   * `getAccountMediaCount`: six totals joined, summed pairwise over the two media kinds;
   * any rejected request gives the single failure event and no partial success.
   */
  function MediaCountEpic(state: AppState, totals: MediaRequest -> Fetch<int>): (r: Reaction<MediaRequest>)
    ensures ReadCredentials(state).Failure? ==> r == Reaction([], Terminate(ReadCredentials(state).error))
    ensures ReadCredentials(state).Success? ==>
              var cred := ReadCredentials(state).value;
              && r.requests == MediaCountRequests(cred)
              && (r.out == Emit(MediaCountFailed) <==>
                    exists kind, category :: Total(totals, cred, kind, category).Rejected?)
              && ((forall kind, category :: Total(totals, cred, kind, category).Fetched?) ==>
                    r.out == Emit(MediaCountSuccess(
                      Total(totals, cred, Tv, Watchlist).value + Total(totals, cred, Movies, Watchlist).value,
                      Total(totals, cred, Tv, Favorite).value + Total(totals, cred, Movies, Favorite).value,
                      Total(totals, cred, Tv, Rated).value + Total(totals, cred, Movies, Rated).value)))
  {
    match ReadCredentials(state)
    case Failure(crash) => Reaction([], Terminate(crash))
    case Success(cred) =>
      var reqs := MediaCountRequests(cred);
      var (watchlistTv, favTv, ratedTv) := (totals(reqs[0]), totals(reqs[1]), totals(reqs[2]));
      var (watchlistMovies, favMovies, ratedMovies) := (totals(reqs[3]), totals(reqs[4]), totals(reqs[5]));
      if && watchlistTv.Fetched? && favTv.Fetched? && ratedTv.Fetched?
         && watchlistMovies.Fetched? && favMovies.Fetched? && ratedMovies.Fetched?
      then
        SixTotalsCoverAll(totals, cred);
        Reaction(reqs, Emit(MediaCountSuccess(
          watchlistTv.value + watchlistMovies.value,
          favTv.value + favMovies.value,
          ratedTv.value + ratedMovies.value)))
      else
        Reaction(reqs, Emit(MediaCountFailed))
  }

  // ---------------------------------------------------------------------------------
  // Average rating

  /** `results.map(r => r.rating)`. */
  function RatingsOf(items: seq<RatedItem>): (rs: seq<real>)
    ensures |rs| == |items|
    ensures forall i :: 0 <= i < |items| ==> rs[i] == items[i].rating
  {
    if items == [] then [] else [items[0].rating] + RatingsOf(items[1..])
  }

  /** The first request: page 1 (argument left out) of the rated list of the epic's kind. */
  function FirstRatingRequest(kind: MediaKind, cred: Credentials): MediaRequest
  {
    MediaRequest(cred.accountId, cred.sessionId, kind, Rated, None)
  }

  /** A later page request. Both rating epics ask for the 'movies' kind here. */
  function LaterPageRequest(cred: Credentials, page: int): MediaRequest
  {
    MediaRequest(cred.accountId, cred.sessionId, Movies, Rated, Some(page))
  }

  /** The requests for pages 2 to `totalPages`, in page order. */
  function LaterPageRequests(cred: Credentials, totalPages: int): (reqs: seq<MediaRequest>)
    ensures |reqs| == if totalPages < 2 then 0 else totalPages - 1
    ensures forall k :: 0 <= k < |reqs| ==> reqs[k] == LaterPageRequest(cred, k + 2)
    decreases totalPages
  {
    if totalPages < 2 then [] else LaterPageRequests(cred, totalPages - 1) + [LaterPageRequest(cred, totalPages)]
  }

  /** The `for (let i = 2; i <= pages; i++)` loop that builds the later page requests. */
  method BuildLaterPageRequests(cred: Credentials, totalPages: int) returns (reqs: seq<MediaRequest>)
    ensures reqs == LaterPageRequests(cred, totalPages)
  {
    reqs := [];
    var i := 2;
    while i <= totalPages
      invariant 2 <= i <= if totalPages < 2 then 2 else totalPages + 1
      invariant reqs == LaterPageRequests(cred, i - 1)
    {
      reqs := reqs + [LaterPageRequest(cred, i)];
      i := i + 1;
    }
  }

  /** `[].concat(...pages)`: the pages' ratings one after another. */
  function Concat(pages: seq<seq<real>>): seq<real>
  {
    if pages == [] then [] else pages[0] + Concat(pages[1..])
  }

  /** The ratings of the page a request fetched (none for a rejected request). */
  function PageRatings(api: MediaRequest -> Fetch<MediaPage<seq<RatedItem>>>, req: MediaRequest): seq<real>
  {
    match api(req)
    case Fetched(page) => RatingsOf(page.results)
    case Rejected(_) => []
  }

  /** The ratings of each requested page, in request order. */
  function PagesOf(api: MediaRequest -> Fetch<MediaPage<seq<RatedItem>>>, reqs: seq<MediaRequest>)
    : seq<seq<real>>
  {
    seq(|reqs|, k requires 0 <= k < |reqs| => PageRatings(api, reqs[k]))
  }

  /**
   * `forkJoin` over the later page requests followed by `concat`: the ratings of every
   * page in request order, or nothing if any request is rejected.
   */
  function JoinRatings(api: MediaRequest -> Fetch<MediaPage<seq<RatedItem>>>, reqs: seq<MediaRequest>)
    : (joined: Option<seq<real>>)
    ensures joined.Some? <==> forall k :: 0 <= k < |reqs| ==> api(reqs[k]).Fetched?
    ensures joined.Some? ==> joined.value == Concat(PagesOf(api, reqs))
  {
    if reqs == [] then Some([])
    else
      assert PagesOf(api, reqs) == [PageRatings(api, reqs[0])] + PagesOf(api, reqs[1..]);
      match (api(reqs[0]), JoinRatings(api, reqs[1..]))
      case (Fetched(page), Some(rest)) => Some(RatingsOf(page.results) + rest)
      case _ => None
  }

  /** Joining two runs of requests concatenates their ratings in order. */
  lemma {:induction false} JoinRatingsAppend(
    api: MediaRequest -> Fetch<MediaPage<seq<RatedItem>>>, a: seq<MediaRequest>, b: seq<MediaRequest>)
    ensures JoinRatings(api, a + b)
            == if JoinRatings(api, a).Some? && JoinRatings(api, b).Some?
               then Some(JoinRatings(api, a).value + JoinRatings(api, b).value)
               else None
  {
    if a == [] {
      assert a + b == b;
      assert JoinRatings(api, a) == Some([]);
      if JoinRatings(api, b).Some? {
        assert [] + JoinRatings(api, b).value == JoinRatings(api, b).value;
      }
    } else {
      assert (a + b)[0] == a[0];
      assert (a + b)[1..] == a[1..] + b;
      JoinRatingsAppend(api, a[1..], b);
      match api(a[0])
      case Rejected(_) =>
      case Fetched(page) =>
        var (rest, tail) := (JoinRatings(api, a[1..]), JoinRatings(api, b));
        if rest.Some? && tail.Some? {
          assert RatingsOf(page.results) + (rest.value + tail.value)
              == (RatingsOf(page.results) + rest.value) + tail.value;
        }
    }
  }

  /** The accumulated ratings after an intent, and the epic's reaction to it. */
  datatype RatingStep = RatingStep(ratings: seq<real>, reaction: Reaction<MediaRequest>)

  /**
   * One intent of `getAverageMoviesRatingEpic` (kind `Movies`) or
   * `getAverageShowsRatingEpic` (kind `Tv`), starting from the ratings `acc` the epic
   * has accumulated so far.
   */
  function AverageRatingStep(
    kind: MediaKind, acc: seq<real>, state: AppState,
    api: MediaRequest -> Fetch<MediaPage<seq<RatedItem>>>)
    : (step: RatingStep)
    ensures acc <= step.ratings
    // A missing account or session throws before any request.
    ensures ReadCredentials(state).Failure? ==>
              step == RatingStep(acc, Reaction([], Terminate(ReadCredentials(state).error)))
    // A rejected first page is not caught.
    ensures ReadCredentials(state).Success? ==>
              var first := FirstRatingRequest(kind, ReadCredentials(state).value);
              api(first).Rejected? ==>
                step == RatingStep(acc, Reaction([first], Terminate(Uncaught(api(first).error))))
    // Fewer than two pages: average the accumulated and page-1 ratings; `reduce` on none is not caught.
    ensures ReadCredentials(state).Success? ==>
              var first := FirstRatingRequest(kind, ReadCredentials(state).value);
              api(first).Fetched? && api(first).value.totalPages < 2 ==>
                && step.ratings == acc + RatingsOf(api(first).value.results)
                && step.reaction.requests == [first]
                && (step.ratings == [] ==> step.reaction.out == Terminate(EmptyReduce))
                && (step.ratings != [] ==>
                      step.reaction.out == Emit(AverageRatingSuccess(kind, Average(step.ratings).value)))
    // Several pages: join pages 2..N; a rejection or no ratings at all gives the failure.
    ensures ReadCredentials(state).Success? ==>
              var cred := ReadCredentials(state).value;
              var first := FirstRatingRequest(kind, cred);
              api(first).Fetched? && api(first).value.totalPages >= 2 ==>
                var later := LaterPageRequests(cred, api(first).value.totalPages);
                var collected := acc + RatingsOf(api(first).value.results);
                var rejected := exists k :: 0 <= k < |later| && api(later[k]).Rejected?;
                && step.reaction.requests == [first] + later
                && (rejected ==> step.ratings == collected)
                && (!rejected ==> step.ratings == collected + Concat(PagesOf(api, later)))
                && (step.reaction.out == Emit(AverageRatingFailed(kind)) <==> rejected || step.ratings == [])
                && (step.reaction.out != Emit(AverageRatingFailed(kind)) ==>
                      step.reaction.out == Emit(AverageRatingSuccess(kind, Average(step.ratings).value)))
  {
    match ReadCredentials(state)
    case Failure(crash) => RatingStep(acc, Reaction([], Terminate(crash)))
    case Success(cred) =>
      var first := FirstRatingRequest(kind, cred);
      match api(first)
      case Rejected(e) => RatingStep(acc, Reaction([first], Terminate(Uncaught(e))))
      case Fetched(page) =>
        var collected := acc + RatingsOf(page.results);
        if page.totalPages < 2 then
          var out := match Average(collected)
            case Some(avg) => Emit(AverageRatingSuccess(kind, avg))
            case None => Terminate(EmptyReduce);
          RatingStep(collected, Reaction([first], out))
        else
          var later := LaterPageRequests(cred, page.totalPages);
          match JoinRatings(api, later)
          case None => RatingStep(collected, Reaction([first] + later, Emit(AverageRatingFailed(kind))))
          case Some(more) =>
            var all := collected + more;
            var out := match Average(all)
              case Some(avg) => Emit(AverageRatingSuccess(kind, avg))
              case None => Emit(AverageRatingFailed(kind));
            RatingStep(all, Reaction([first] + later, out))
  }

  /**
   * The requests of one rating intent: page 1 of the epic's own kind, then, only when the
   * first page reports two or more pages, exactly pages 2 to `totalPages` in order, all of
   * them of the 'movies' kind, whatever the epic's kind.
   */
  lemma RatingRequestsExact(
    kind: MediaKind, acc: seq<real>, state: AppState,
    api: MediaRequest -> Fetch<MediaPage<seq<RatedItem>>>)
    requires ReadCredentials(state).Success?
    requires api(FirstRatingRequest(kind, ReadCredentials(state).value)).Fetched?
    ensures var cred := ReadCredentials(state).value;
            var pages := api(FirstRatingRequest(kind, cred)).value.totalPages;
            var reqs := AverageRatingStep(kind, acc, state, api).reaction.requests;
            && |reqs| == (if pages < 2 then 1 else pages)
            && reqs[0] == MediaRequest(cred.accountId, cred.sessionId, kind, Rated, None)
            && forall k :: 1 <= k < |reqs| ==>
                 reqs[k] == MediaRequest(cred.accountId, cred.sessionId, Movies, Rated, Some(k + 1))
  {
  }

  /**
   * The accumulator is never cleared: an intent appends what it collects to the ratings of
   * all earlier intents, and averages over all of them. The requests do not depend on it.
   */
  lemma AccumulatorCarriesOver(
    kind: MediaKind, acc: seq<real>, state: AppState,
    api: MediaRequest -> Fetch<MediaPage<seq<RatedItem>>>)
    ensures AverageRatingStep(kind, acc, state, api).ratings
            == acc + AverageRatingStep(kind, [], state, api).ratings
    ensures AverageRatingStep(kind, acc, state, api).reaction.requests
            == AverageRatingStep(kind, [], state, api).reaction.requests
  {
  }

  /**
   * Repeating the first intent of a fresh epic (an empty accumulator) against unchanged
   * data reports the same thing, although the accumulator now holds every rating twice.
   * An intent that errors out ends the epic's stream, so only an intent that dispatched an
   * event can be repeated. From a non-empty accumulator a repeat can report differently
   * (`StaleRatingsExample`).
   */
  lemma {:induction false} RepeatedIntentReportsSame(
    kind: MediaKind, state: AppState, api: MediaRequest -> Fetch<MediaPage<seq<RatedItem>>>)
    requires AverageRatingStep(kind, [], state, api).reaction.out.Emit?
    ensures var first := AverageRatingStep(kind, [], state, api);
            var second := AverageRatingStep(kind, first.ratings, state, api);
            second.ratings == first.ratings + first.ratings && second.reaction == first.reaction
  {
    var first := AverageRatingStep(kind, [], state, api);
    AccumulatorCarriesOver(kind, first.ratings, state, api);
    AverageOfRepeat(first.ratings);
    match ReadCredentials(state)
    case Failure(_) =>
    case Success(cred) =>
      match api(FirstRatingRequest(kind, cred))
      case Rejected(_) =>
      case Fetched(page) =>
        var gathered := RatingsOf(page.results);
        if page.totalPages >= 2 {
          match JoinRatings(api, LaterPageRequests(cred, page.totalPages))
          case None =>
          case Some(more) =>
            assert (first.ratings + gathered) + more == first.ratings + (gathered + more);
        }
  }

  /**
   * Ratings from an earlier intent leak into a later one: one rating of 2 on the first
   * intent and one rating of 4 on the second make the second report 3, not 4.
   */
  lemma StaleRatingsExample(kind: MediaKind, state: AppState)
    requires state.account.Some? && state.session.Some?
    ensures var first := AverageRatingStep(kind, [], state, _ => Fetched(MediaPage([RatedItem(1, 2.0)], 1, 1)));
            var second := AverageRatingStep(kind, first.ratings, state, _ => Fetched(MediaPage([RatedItem(2, 4.0)], 1, 1)));
            && first.reaction.out == Emit(AverageRatingSuccess(kind, 2.0))
            && second.reaction.out == Emit(AverageRatingSuccess(kind, 3.0))
  {
    var api1: MediaRequest -> Fetch<MediaPage<seq<RatedItem>>> := _ => Fetched(MediaPage([RatedItem(1, 2.0)], 1, 1));
    var api2: MediaRequest -> Fetch<MediaPage<seq<RatedItem>>> := _ => Fetched(MediaPage([RatedItem(2, 4.0)], 1, 1));
    assert RatingsOf([RatedItem(1, 2.0)]) == [2.0];
    assert RatingsOf([RatedItem(2, 4.0)]) == [4.0];
    assert Sum([2.0]) == 2.0 by { assert [2.0][..0] == []; }
    assert Sum([2.0, 4.0]) == 6.0 by { assert [2.0, 4.0][..1] == [2.0]; }
    assert AverageRatingStep(kind, [], state, api1).ratings == [2.0];
    assert [2.0] + [4.0] == [2.0, 4.0];
  }

  /**
   * The rating epic's closure: `flattenRatings` is created once per epic, pushed to and
   * concatenated onto by every intent, and never cleared. An uncaught error ends the
   * epic's stream for good: `ended` records it, and no later intent is reacted to.
   */
  class AverageRatingEpic {
    const kind: MediaKind
    var flattenRatings: seq<real>
    var ended: bool

    constructor (kind: MediaKind)
      ensures this.kind == kind && flattenRatings == [] && !ended
    {
      this.kind := kind;
      flattenRatings := [];
      ended := false;
    }

    /** Reacts to one `getAverageMoviesRating` / `getAverageShowsRating` intent. */
    method OnIntent(state: AppState, api: MediaRequest -> Fetch<MediaPage<seq<RatedItem>>>)
      returns (reaction: Reaction<MediaRequest>)
      modifies this
      ensures old(ended) ==> reaction == Reaction([], Stopped) && flattenRatings == old(flattenRatings)
      ensures !old(ended) ==>
                RatingStep(flattenRatings, reaction) == AverageRatingStep(kind, old(flattenRatings), state, api)
      ensures ended <==> old(ended) || reaction.out.Terminate?
    {
      if ended {
        reaction := Reaction([], Stopped);
        return;
      }
      match ReadCredentials(state) {
        case Failure(crash) =>
          reaction := Reaction([], Terminate(crash));
        case Success(cred) =>
          var first := FirstRatingRequest(kind, cred);
          match api(first)
          case Rejected(e) =>
            reaction := Reaction([first], Terminate(Uncaught(e)));
          case Fetched(page) =>
            flattenRatings := flattenRatings + RatingsOf(page.results);
            if page.totalPages < 2 {
              var average := Average(flattenRatings);
              reaction := Reaction([first],
                if average.Some? then Emit(AverageRatingSuccess(kind, average.value)) else Terminate(EmptyReduce));
            } else {
              var later := BuildLaterPageRequests(cred, page.totalPages);
              var joined := JoinRatings(api, later);
              if joined.Some? {
                flattenRatings := flattenRatings + joined.value;
                var average := Average(flattenRatings);
                reaction := Reaction([first] + later,
                  if average.Some? then Emit(AverageRatingSuccess(kind, average.value)) else Emit(AverageRatingFailed(kind)));
              } else {
                reaction := Reaction([first] + later, Emit(AverageRatingFailed(kind)));
              }
            }
      }
      ended := reaction.out.Terminate?;
    }
  }

  // ---------------------------------------------------------------------------------
  // Watchlist and favorite toggles

  /** The follow-up of a successful toggle, routed by media type. */
  function ToggleFollowUp(payload: TogglePayload): (event: Event)
    ensures event.FetchMovieAccountStates? <==> payload.mediaType == "movie"
    ensures event.FetchMovieAccountStates? || event.FetchShowAccountStates?
    ensures event.mediaId == payload.mediaId
  {
    if payload.mediaType == "movie" then FetchMovieAccountStates(payload.mediaId)
    else FetchShowAccountStates(payload.mediaId)
  }

  /**
   * `toggleWatchlistEpic` (endpoint `AddToWatchlist`) and `toggleFavoriteEpic` (endpoint
   * `MarkFavorite`): one call with the intent's payload, then the routed follow-up. A
   * rejected call is not caught.
   */
  function ToggleEpic(endpoint: ToggleEndpoint, state: AppState, payload: TogglePayload, response: Fetch<Ack>)
    : (r: Reaction<ToggleCall>)
    ensures ReadCredentials(state).Failure? ==> r == Reaction([], Terminate(ReadCredentials(state).error))
    ensures ReadCredentials(state).Success? ==>
              r.requests == [ToggleCall(endpoint, ReadCredentials(state).value.accountId,
                                        ReadCredentials(state).value.sessionId, payload)]
    ensures ReadCredentials(state).Success? && response.Rejected? ==> r.out == Terminate(Uncaught(response.error))
    ensures r.out == Emit(FetchMovieAccountStates(payload.mediaId)) <==>
              ReadCredentials(state).Success? && response.Fetched? && payload.mediaType == "movie"
    ensures r.out == Emit(FetchShowAccountStates(payload.mediaId)) <==>
              ReadCredentials(state).Success? && response.Fetched? && payload.mediaType != "movie"
  {
    match ReadCredentials(state)
    case Failure(crash) => Reaction([], Terminate(crash))
    case Success(cred) =>
      var call := ToggleCall(endpoint, cred.accountId, cred.sessionId, payload);
      match response
      case Rejected(e) => Reaction([call], Terminate(Uncaught(e)))
      case Fetched(_) => Reaction([call], Emit(ToggleFollowUp(payload)))
  }
}
