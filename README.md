# Account epics of rn-movies, modelled in Dafny

rn-movies is a React Native client for a TMDB-style movie and TV catalogue. Its account
"epics" (redux-observable handlers in `src/store/Account/accountEpics.ts`) react to user
intents: they read the latest application state, call the account API, transform or
aggregate the responses, and dispatch follow-up actions. This project models the rules
inside those epics:

- **Media decoration** (`mapConfigurationToMovies`, `mapConfigurationToShows`). An index loop
  overwrites three fields of every fetched record in place: the genre names looked up in
  the configuration's movie genre table, and the backdrop and poster paths prefixed with
  the configured base URLs. Records are objects of class `MediaRecord`, and the loop is the
  method `DecorateMedia` over an `array<MediaRecord>`.
- **Movies and shows pages**. Page 1 of a list that the state already holds is answered
  with an empty success and no request. Any other page is fetched, decorated and
  dispatched, and a rejected fetch gives the failure action.
- **Media count**. Six list totals (tv and movies × watchlist, favorite, rated) are joined
  and summed pairwise. Any rejection gives one failure and no partial success.
- **Average rating**. Page 1 of the rated list is fetched. If it reports two or more
  pages, exactly pages 2..N are requested. All ratings are concatenated in order and
  averaged. The ratings accumulator belongs to the epic, not to the intent: it is the
  field `flattenRatings` of class `AverageRatingEpic`, and no intent ever clears it.
- **Toggles**. After a successful watchlist or favorite call, a `'movie'` media type
  leads to a movie account-state refresh. Any other media type leads to a show
  account-state refresh.
- **Account detail**. The gravatar avatar URL is built from the account's hash.

Each epic body is a function or method. Its inputs are the state snapshot, the intent,
and the outcome of each API call. A single call's outcome is a `Fetch` value (the payload
or a rejection). Fan-out calls are an oracle from request to outcome. Each epic returns a
`Reaction`: the requests it issued, in order, and what it emits. What it emits is one
event (`Emit`) or an uncaught error that ends the epic's stream (`Terminate`); once the
rating epic's stream has ended it no longer reacts at all (`Stopped`). Uncaught errors are:
- a missing account or session behind the unchecked `as Account` / `as Session` casts;
- a rejected call outside `catchError`;
- `reduce` on an empty array outside `catchError`.

Files: `wrappers.dfy` (Option, Result), `api.dfy` (the API's requests and outcomes),
`media_decoration.dfy`, `rating_math.dfy` (sum and average), `account_epics.dfy`.

Behaviour of the code worth noting:
- Paths are joined by plain string concatenation, so base `https://img/` and path
  `/x.jpg` give `https://img//x.jpg`, not `https://img/x.jpg`, and a `null` path is
  rendered by the template literal as the text `null` (`DecorationExample`).
- A rejected request for the first rating page is not caught. It ends the epic's stream
  instead of dispatching the failure action. Only rejections of pages 2..N give
  `AverageRatingFailed`.
- An empty rating list has no single policy. With fewer than two pages, `reduce` throws
  outside `catchError` and the stream ends (`Terminate(EmptyReduce)`). With two or more
  pages, the throw is caught and gives `AverageRatingFailed`.
- The shows rating epic asks for pages 2..N of the `'movies'` kind, as the code does.
  The ratings accumulator is never cleared, as the code does.

## Model

| member | source | states |
|---|---|---|
| `MediaDecoration.GenreNames` | src/store/Account/accountEpics.ts:61 | one name per genre id, in the same order; a known id gives the genre table's name, an unknown id gives an absent name |
| `MediaDecoration.DecorateMedia` | src/store/Account/accountEpics.ts:58-67 | returns the same array with the same records in the same order, and every record afterwards equals its old fields decorated once (genre names from `movieGenres`, both paths prefixed); `mapConfigurationToShows` (lines 94-103) is the same loop with the same movie genre table |
| `MediaDecoration.Decorated` | src/store/Account/accountEpics.ts:59-64 | one pass of the loop keeps id, rating and genre ids, fills one genre name per genre id (the table's name, or absent), and only prefixes the rendered paths: stripping the base URLs gives back the fetched path, or `null` for a null path |
| `MediaDecoration.DecorateTwice` | src/store/Account/accountEpics.ts:62-63 | decorating twice prefixes each base URL twice; it equals decorating once if and only if both base URLs are empty |
| `MediaDecoration.DecorationExample` | src/store/Account/accountEpics.ts:61-63 | a concrete record decorated: known and unknown genre ids, a double slash from plain concatenation, and a `null` poster path rendered as `null` after the base URL |
| `RatingMath.Sum` | src/store/Account/accountEpics.ts:161 | the left fold of `+` over the ratings, as `reduce` computes it; its properties are the lemmas below |
| `RatingMath.Average` | src/store/Account/accountEpics.ts:161 | the average is absent exactly for no ratings (where `reduce` throws), and otherwise times the count equals the left-fold sum |
| `RatingMath.SumAppend` | src/store/Account/accountEpics.ts:179 | the sum of concatenated ratings is the sum of the parts |
| `RatingMath.SumPermutation` | src/store/Account/accountEpics.ts:161 | sequences with the same ratings in any order have the same sum |
| `RatingMath.AverageBounds` | src/store/Account/accountEpics.ts:161 | if every rating lies in [lo, hi], the average does too |
| `RatingMath.AverageIgnoresOrder` | src/store/Account/accountEpics.ts:177-180 | the average does not depend on the order in which pages or ratings were collected |
| `RatingMath.AverageOfConcat` | src/store/Account/accountEpics.ts:179-180 | the average of two concatenated non-empty runs is their length-weighted average |
| `RatingMath.AverageOfRepeat` | src/store/Account/accountEpics.ts:179-180 | holding every rating twice leaves the average unchanged |
| `AccountEpics.ReadCredentials` | src/store/Account/accountEpics.ts:41-42 | credentials exist if and only if both account and session are present; a missing account is reported before a missing session |
| `AccountEpics.AvatarUrl` | src/store/Account/accountEpics.ts:25 | the URL is the gravatar prefix, then exactly the hash, then the `.jpg?s=200` suffix |
| `AccountEpics.AvatarUrlRoundTrip` | src/store/Account/accountEpics.ts:25 | the avatar URL gives back exactly the hash it was built from, so it determines the hash |
| `AccountEpics.AccountDetailEpic` | src/store/Account/accountEpics.ts:22-29 | no session ends the stream with no request; otherwise one request with the session id, a rejection gives the failure carrying the error, and a success carries the same account with an avatar URL built from its hash |
| `AccountEpics.CachedLength` | src/store/Account/accountEpics.ts:44 | the length of the state's list for the asked kind and category: `${type}Movies` here, `${type}Shows` for the shows epic at line 80 |
| `AccountEpics.PlanMediaFetch` | src/store/Account/accountEpics.ts:40-48 | missing credentials abort; the page is served from the state if and only if it is page 1 and that list in the state is non-empty; otherwise the request is for the asked kind, category and page |
| `AccountEpics.FetchAccountMedia` | src/store/Account/accountEpics.ts:39-54 | served from state: no request and an empty success; fetched: exactly one request, a rejection gives the failure, a page gives success with its records, each decorated once in place; when no page is decorated, no record changes; shows (lines 75-90) are the same with kind `Tv` |
| `AccountEpics.MediaCountRequests` | src/store/Account/accountEpics.ts:114-121 | six requests without a page: tv watchlist, favorite and rated, then movies watchlist, favorite and rated |
| `AccountEpics.MediaCountEpic` | src/store/Account/accountEpics.ts:111-135 | the failure is emitted if and only if some total is rejected; when all six succeed, success carries watchlist, favorites and ratings as tv plus movies totals |
| `AccountEpics.RatingsOf` | src/store/Account/accountEpics.ts:154 | one rating per result, in order |
| `AccountEpics.LaterPageRequests` | src/store/Account/accountEpics.ts:168-175 | for N total pages, N - 1 requests (none below 2 pages); request k asks for page k + 2 of the rated 'movies' list |
| `AccountEpics.BuildLaterPageRequests` | src/store/Account/accountEpics.ts:168-175 | the `for` loop builds exactly the later page requests |
| `AccountEpics.JoinRatings` | src/store/Account/accountEpics.ts:177-179 | the joined ratings exist if and only if every page request succeeds, and then they are the ratings of every page concatenated in request order |
| `AccountEpics.JoinRatingsAppend` | src/store/Account/accountEpics.ts:179 | joining two runs of requests concatenates their ratings in request order, and fails if either run fails |
| `AccountEpics.AverageRatingStep` | src/store/Account/accountEpics.ts:149-185 | the old ratings stay a prefix; missing credentials or a rejected page 1 end the stream with the ratings unchanged; with fewer than two pages, the page-1 ratings are appended and averaged, and no ratings at all end the stream; with N >= 2 pages, pages 2..N are requested, the failure is emitted if and only if one of them is rejected or there are no ratings at all, otherwise every page's ratings are appended in order and their average is emitted for the epic's kind |
| `AccountEpics.RatingRequestsExact` | src/store/Account/accountEpics.ts:209-225 | after a fetched first page: page 1 of the epic's own kind, then exactly pages 2..N in order, all of the 'movies' kind even for the shows epic |
| `AccountEpics.AccumulatorCarriesOver` | src/store/Account/accountEpics.ts:145-179 | an intent appends what it collects after the ratings of all earlier intents; its requests do not depend on them |
| `AccountEpics.RepeatedIntentReportsSame` | src/store/Account/accountEpics.ts:154-180 | from an empty accumulator (a fresh epic), repeating an intent that dispatched an event, against unchanged data, doubles the accumulator and reports the same outcome; from a non-empty accumulator it need not (`StaleRatingsExample`) |
| `AccountEpics.StaleRatingsExample` | src/store/Account/accountEpics.ts:195-230 | a rating of 2 in a first intent and a rating of 4 in a second make the second report 3: earlier ratings leak into later averages |
| `AccountEpics.AverageRatingEpic.constructor` | src/store/Account/accountEpics.ts:145 | a new epic starts with no accumulated ratings and a live stream |
| `AccountEpics.AverageRatingEpic.OnIntent` | src/store/Account/accountEpics.ts:149-185 | on a live stream, the new accumulator and the reaction are those of `AverageRatingStep` from the old accumulator, and the stream ends exactly when the reaction is an uncaught error; once ended, no request, no event and no change to the accumulator |
| `AccountEpics.ToggleFollowUp` | src/store/Account/accountEpics.ts:250-256 | the follow-up is a movie account-state refresh if and only if the media type is `'movie'`, and otherwise a show refresh, for the same media id |
| `AccountEpics.ToggleEpic` | src/store/Account/accountEpics.ts:245-257 | one call with the intent's payload; the movie refresh is emitted if and only if the call succeeds and the type is `'movie'`, the show refresh if and only if it succeeds and the type is anything else; a rejection ends the stream; the favorite epic (lines 267-279) is the same with the other endpoint |

## Left out

- Stream machinery is not modelled. This covers `filter`/`isActionOf`, `withLatestFrom`, `tap` and `pluck`. Each epic is one reaction to one intent given a state snapshot.
- `switchMap` cancellation is not modelled: a newer intent superseding an older one still in flight. Intents are handled one after another.
- `forkJoin` concurrency is not modelled. A join is all outcomes at once, in request order. Which rejection arrives first does not matter, because `catchError` ignores the error.
- The API client (`@api/Account`) is not part of this model. Its calls are requests, and their outcomes are inputs.
- The media count reads each list's `total_results` directly, as a number per request.
- The shape of the state's account lists is reduced to their lengths. The epics read nothing else from them.
- AccountDetailEpic, FetchAccountMedia, MediaCountEpic, ToggleEpic: hold no state across intents, so they do not record that an uncaught error ended their stream; what that error does to the other epics depends on how the root epic combines them, which is not part of this model.
- A response that lacks `backdrop_path` or `poster_path` altogether would be rendered as the text `undefined`. Not modelled: a path is present or `null`.
- Floating-point arithmetic is not modelled: ratings and averages are exact reals.
- DecorateMedia: requires the array's records to be distinct objects. A freshly parsed response always meets this. A record occurring twice would be prefixed twice, and that aliasing is not modelled.
- AccountDetailEpic: the source writes `avatar_url` into the fetched account object. This is modelled as a record update, since nothing else refers to that object.
- The rating epics keep `accountId` and `sessionId` in closure variables. These are reassigned by every intent before use, so the model reads them afresh per intent.
- A missing `avatar`/`gravatar` object or missing `genre_ids` throws inside a caught `map` and gives the failure action; a missing `hash` is rendered as the text `undefined`. Not modelled: records always carry them.
- `src/components/Movies/Movies.tsx` (rendering) is not part of this model. Neither is `src/screens/Landing/LandingScreen.tsx` (store wiring), nor the reducers that consume the events.
