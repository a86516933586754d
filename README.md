# Watchlist reviews and rating aggregate

A Dafny model of the review handling of the watchmate REST API
(`watchlist_app/api/views.py`). It covers:

- creating a review on a watchable title (`ReviewCreate.perform_create`), which
  rejects a second review by the same user on the same title, and otherwise
  updates the title's rating aggregate and inserts the review;
- the read-side selections: the reviews of one user (`UserReview`), the
  reviews of one title, with the optional `review_user__username` and `active`
  filter fields (`ReviewList`), and the title detail lookup with its not-found
  branch (`WatchDetailAV.get`).

The rating aggregate keeps two fields on the title: `avgRating` and
`numberRating`. The first rating seeds the average. Every later rating is
blended as `(avg + rating) / 2`. That is a two-point blend, not a mean, and
the model keeps it as written. The lemmas in `rating.dfy` say how it differs
from a mean:

- it equals the running mean only when one rating preceded it, or when the
  new rating equals the current average;
- after k further ratings, the first rating weighs 1/2^k, where a mean would
  give it 1/(k+1);
- ratings 1, 1, 4 leave an average of 2.5, while their mean is 2.

Files:

- `entities.dfy`: the title, user and review records; the error results.
- `querysets.dfy`: `Review.objects.filter(...)` as a chain of ANDed lookups.
- `rating.dfy`: the aggregate update and its consequences over many ratings.
- `selections.dfy`: the listing views, the duplicate check, the title lookup.
- `store.dfy`: the store class with the create operation, and the example
  walk-through (alice rates 4, bob rates 5, alice's second review is refused).

Modelling choices:

- The store is a class with a `map` of titles and a `seq` of reviews.
  `CreateReview` updates them in one atomic step. The source makes two
  separate writes, at views.py:49 and views.py:51.
- The average is a `real`, so `(A + R) / 2` is exact.
- A user is its primary key and its username, and each review holds its
  user. The duplicate check and the one-review-per-pair invariant compare
  users by primary key, as the ORM compares `review_user`. The listing
  filters compare usernames. The store keeps one username per user id
  (`OneUsernamePerUser`, part of `Valid()`), and `CreateReview` requires the
  requesting user to agree with the stored reviews that carry its id
  (`SameUserRow`): it is the same user row they join to.
- The framework's inputs become parameters:
  - the requesting user;
  - the serializer's validated rating, description and active flag;
  - the already parsed query parameters, as `Option` values (`None` when a
    parameter is absent).
- `UserReview` passes an absent username to the ORM as `None`. That becomes
  `IS NULL` on a column that is never null, so it selects nothing. The lookup
  `ReviewUserUsernameIs(None)` models this.
- An unknown title id is handled differently by each view:
  - `WatchDetailAV.get` (views.py:102-106) catches `DoesNotExist` and answers
    not-found; `TitleDetail` models this.
  - `ReviewList.get_queryset` (views.py:60-62) does no lookup of the title, so
    an unknown id gives an empty list; `TitleReviews` models this.
  - `ReviewCreate.perform_create` (views.py:33), `WatchDetailAV.put`
    (views.py:112) and `WatchDetailAV.delete` (views.py:121) call `.get` and
    raise an uncaught `DoesNotExist`. `CreateReview` therefore requires that
    the title exists.
  - `ReviewDetail` (views.py:65-70) and `StreamPlatformVS` (views.py:73-77)
    answer an unknown id with not-found through the framework's generic
    views, which are not modelled.
- The example `InceptionScenario`: "Inception" starts unrated; alice rates it
  4 (average 4, one rating), bob rates it 5 (average 4.5, two ratings), and
  alice's second review is refused, leaving 4.5 and two.

## Model

| member | source | states |
|---|---|---|
| Querysets.Filter | watchlist_app/api/views.py:20-62 | the querysets at views.py:20, 36-37 and 62: a filtered queryset is never longer than the table it filters |
| Querysets.FilterCounts | watchlist_app/api/views.py:36-37 | a filter keeps every row that satisfies all its lookups, as many times as the table holds it, and no other row |
| Querysets.FilterAppend | watchlist_app/api/views.py:51 | inserting a review extends a filter's result by that review exactly when the review matches |
| Querysets.FilterNone | watchlist_app/api/views.py:57-62 | a filter with no lookups returns the whole queryset, as the review list does when no filter field is supplied |
| Querysets.FilterChain | watchlist_app/api/views.py:57-62 | `.filter(a).filter(b)` gives the same rows, in the same order, as one filter with the lookups of both |
| Selections.UserReviews | watchlist_app/api/views.py:18-20 | returns exactly the reviews whose user has the given username; an absent username gives the empty result, never all reviews |
| Selections.TitleReviews | watchlist_app/api/views.py:57-62 | returns exactly the reviews of title `pk` that match every supplied filter (username, active flag); absent filters do not narrow the result |
| Selections.ReviewListIsOneQuery | watchlist_app/api/views.py:57-62 | the queryset chain of the review list equals one filter with all the supplied lookups ANDed, in store order |
| Selections.AlreadyReviewed | watchlist_app/api/views.py:36-39 | the duplicate check holds exactly when some stored review has title `pk` and a user with the requesting user's primary key |
| Selections.InsertKeepsOneReviewPerPair | watchlist_app/api/views.py:36-51 | inserting a review that passed the duplicate check keeps at most one review per (title, user primary key) pair |
| Selections.InsertKeepsOneUsernamePerUser | watchlist_app/api/views.py:35-51 | inserting a review by the requesting user keeps one username per user id among the stored reviews, so username filters see all of a user's reviews |
| Selections.TitleDetail | watchlist_app/api/views.py:102-106 | an id in the store yields its title; an unknown id yields not-found rather than a value |
| Rating.Rated | watchlist_app/api/views.py:42-48 | the count grows by one. The first rating becomes the average exactly. A later average is equidistant from the old average and the rating. The new average always lies between the old average and the rating, inclusive. The other fields are unchanged |
| Rating.BlendMatchesMeanOnlyIf | watchlist_app/api/views.py:44-46 | on a rated title, the blend equals the running mean `(A*n+R)/(n+1)` if and only if n = 1 or R = A |
| Rating.Replay | watchlist_app/api/views.py:42-48 | recording k ratings in turn raises the count by exactly k and leaves the other fields unchanged |
| Rating.ReplayStaysInRange | watchlist_app/api/views.py:42-48 | if every rating lies in [lo, hi], the average remains in [lo, hi] once the title has a rating |
| Rating.DistanceHalves | watchlist_app/api/views.py:45-46 | two rated titles given the same later ratings end with averages whose difference has halved once per rating |
| Rating.FirstRatingWeight | watchlist_app/api/views.py:42-46 | two histories that differ only in their first rating end (a - b) / 2^k apart after k further ratings |
| Rating.BlendIsNotMean | watchlist_app/api/views.py:42-46 | ratings 1, 1, 4 on an unrated title give an average of 2.5, while their mean is 2 |
| ReviewStore.CreateKeepsCountsMatch | watchlist_app/api/views.py:42-51 | if every title's count equals its number of reviews, a create preserves that equality |
| ReviewStore.Store.CreateReview | watchlist_app/api/views.py:31-51 | a duplicate (title, user) pair fails and changes nothing. Otherwise only title `pk` changes, to its rated value; exactly one review is appended, attached to `pk` and the user; at most one review per pair is kept |

## Left out

- Serializers (`watchlist_app/api/serializers.py`): field selection and nested or string-related fields are framework behaviour.
- Rating validation: the model takes the serializer's already validated rating as an unbounded integer. The validation rules live on the `Review` model, which is not part of this model; a 1-5 scale is assumed, not shown, and no contract depends on it.
- Routing (`watchlist_app/api/urls.py`): pure wiring.
- Permission and throttle classes: their bodies are in files that are not part of this model, and throttling depends on a clock and a cache.
- Pagination, HTTP responses, status codes and authentication: framework plumbing. The requesting user is a parameter.
- Query-parameter parsing by the filter backend (empty strings, spellings of booleans, malformed values): the model receives parsed `Option` values.
- Transactions and concurrency: the create is one atomic step, with no race between the duplicate check and the insert.
- Floating point: the average is an exact `real`.
- Unknown ids on create: these become preconditions, because the source raises an uncaught exception there.
- `WatchListAV.get`/`post`, `WatchDetailAV.put`/`delete`, `StreamPlatformVS` and `ReviewDetail`: these map directly onto framework generic views and serializer saves. No logic of their own is modelled.
- Review primary keys, and the database's row order: listings keep the store's insertion order.
- Commented-out code in the source files.
- Username changes: the user table is not modelled separately. Each review holds its user, and the store keeps one username per user id. A rename, after which the ORM would join every review of that user to the new username, is not modelled.
- ReviewStore.Store.CreateReview: does not state in its own contract that rating counts stay equal to review counts. `ReviewStore.CreateKeepsCountsMatch` states this over the method's new state. The equality is not a store invariant, because title updates and review deletion (not modelled) can break it.
