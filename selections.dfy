/** The read side of the review and title views in
    watchlist_app/api/views.py: which reviews a listing returns and what a
    title lookup yields. */
module Selections {
  import opened Entities
  import opened Querysets

  /** `UserReview.get_queryset`: the reviews whose user has the username
      given as query parameter; an absent parameter selects nothing. */
  function UserReviews(reviews: seq<Review>, username: Option<string>): (r: seq<Review>)
    ensures forall x :: multiset(r)[x]
              == if username == Some(x.user.username) then multiset(reviews)[x] else 0
    ensures username.None? ==> r == []
  {
    var lookups := [ReviewUserUsernameIs(username)];
    assert forall x :: MatchesAll(x, lookups) <==> Matches(x, lookups[0]);
    FilterCounts(reviews, lookups);
    Filter(reviews, lookups)
  }

  /** `ReviewList`: the reviews of title `pk` (its `get_queryset`), narrowed
      by the `review_user__username` and `active` filter fields when they
      are supplied, every supplied filter applying. */
  function TitleReviews(reviews: seq<Review>, pk: TitleId,
                        username: Option<string>, active: Option<bool>): (r: seq<Review>)
    ensures forall x :: multiset(r)[x]
              == if ListMatches(x, pk, username, active) then multiset(reviews)[x] else 0
  {
    var base := FilterOne(reviews, WatchlistIs(pk));
    var byUser := if username.Some? then FilterOne(base, ReviewUserUsernameIs(username)) else base;
    if active.Some? then FilterOne(byUser, ActiveIs(active.value)) else byUser
  }

  /** `filter` with a single lookup. */
  function FilterOne(s: seq<Review>, l: Lookup): (r: seq<Review>)
    ensures r == Filter(s, [l])
    ensures forall x :: multiset(r)[x] == if Matches(x, l) then multiset(s)[x] else 0
  {
    assert forall x :: MatchesAll(x, [l]) <==> Matches(x, [l][0]);
    FilterCounts(s, [l]);
    Filter(s, [l])
  }

  /** A review belongs in the listing of `TitleReviews`. */
  predicate ListMatches(x: Review, pk: TitleId, username: Option<string>, active: Option<bool>) {
    && x.title == pk
    && (username.Some? ==> x.user.username == username.value)
    && (active.Some? ==> x.active == active.value)
  }

  /** The lookups the review list applies, as one `filter` call. */
  function ListLookups(pk: TitleId, username: Option<string>, active: Option<bool>): seq<Lookup> {
    [WatchlistIs(pk)]
      + (if username.Some? then [ReviewUserUsernameIs(username)] else [])
      + (if active.Some? then [ActiveIs(active.value)] else [])
  }

  /** The chained querysets of the review list are one query whose lookups
      are all ANDed, so the listing keeps the store's order. */
  lemma ReviewListIsOneQuery(reviews: seq<Review>, pk: TitleId,
                             username: Option<string>, active: Option<bool>)
    ensures TitleReviews(reviews, pk, username, active) == Filter(reviews, ListLookups(pk, username, active))
  {
    var a := [WatchlistIs(pk)];
    var b := if username.Some? then [ReviewUserUsernameIs(username)] else [];
    var c := if active.Some? then [ActiveIs(active.value)] else [];
    FilterNone(Filter(reviews, a));
    FilterChain(reviews, a, b);
    FilterNone(Filter(reviews, a + b));
    FilterChain(reviews, a + b, c);
    assert a + [] == a && (a + b) + [] == a + b;
  }

  /** The duplicate check of `ReviewCreate.perform_create`: whether the
      store already holds a review of title `pk` by `user`. */
  function AlreadyReviewed(reviews: seq<Review>, pk: TitleId, user: User): (b: bool)
    ensures b <==> exists i :: 0 <= i < |reviews| && reviews[i].title == pk && reviews[i].user.id == user.id
  {
    var lookups := [WatchlistIs(pk), ReviewUserIs(user)];
    var found := Filter(reviews, lookups);
    FilterCounts(reviews, lookups);
    assert forall x :: MatchesAll(x, lookups) <==> x.title == pk && x.user.id == user.id by {
      forall x ensures MatchesAll(x, lookups) <==> x.title == pk && x.user.id == user.id {
        assert Matches(x, lookups[0]) && Matches(x, lookups[1]) ==> MatchesAll(x, lookups);
      }
    }
    assert found != [] ==> found[0] in found;
    assert forall i :: 0 <= i < |reviews| ==> reviews[i] in reviews;
    found != []
  }

  /** At most one review per (title, user) pair, users compared by primary key. */
  predicate OneReviewPerPair(reviews: seq<Review>) {
    forall i, j :: 0 <= i < j < |reviews| ==>
      !(reviews[i].title == reviews[j].title && reviews[i].user.id == reviews[j].user.id)
  }

  /** Every user id carries one username across the stored reviews, as the
      reviews of one user all join to the same user row. */
  predicate OneUsernamePerUser(reviews: seq<Review>) {
    forall i, j :: 0 <= i < |reviews| && 0 <= j < |reviews| && reviews[i].user.id == reviews[j].user.id
      ==> reviews[i].user.username == reviews[j].user.username
  }

  /** `user` is the same user row as every stored review with its id. */
  predicate SameUserRow(reviews: seq<Review>, user: User) {
    forall i :: 0 <= i < |reviews| && reviews[i].user.id == user.id ==> reviews[i].user == user
  }

  /** Inserting a review by a user that agrees with the stored user rows
      keeps one username per user id. */
  lemma InsertKeepsOneUsernamePerUser(reviews: seq<Review>, x: Review)
    requires OneUsernamePerUser(reviews)
    requires SameUserRow(reviews, x.user)
    ensures OneUsernamePerUser(reviews + [x])
  {
  }

  /** Inserting a review whose (title, user) pair the duplicate check let
      through keeps at most one review per pair. */
  lemma InsertKeepsOneReviewPerPair(reviews: seq<Review>, x: Review)
    requires OneReviewPerPair(reviews)
    requires !AlreadyReviewed(reviews, x.title, x.user)
    ensures OneReviewPerPair(reviews + [x])
  {
  }

  /** `WatchDetailAV.get`: the title with id `pk`, or not-found. */
  function TitleDetail(titles: map<TitleId, Title>, pk: TitleId): (r: Result<Title>)
    ensures r.Ok? <==> pk in titles
    ensures r.Ok? ==> r.value == titles[pk]
    ensures r.Err? ==> r.error == NotFound
  {
    if pk in titles then Ok(titles[pk]) else Err(NotFound)
  }
}
