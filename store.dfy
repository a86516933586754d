/** The review store that `ReviewCreate.perform_create` in
    watchlist_app/api/views.py reads and writes: the titles with their
    rating aggregates and the reviews. Creating a review is one atomic step. */
module ReviewStore {
  import opened Entities
  import opened Querysets
  import opened Rating
  import opened Selections

  /** Every title's rating count equals the number of its reviews, as it
      does when reviews are only ever added through `CreateReview`. */
  ghost predicate CountsMatch(titles: map<TitleId, Title>, reviews: seq<Review>) {
    forall pk :: pk in titles ==> titles[pk].numberRating == |FilterOne(reviews, WatchlistIs(pk))|
  }

  /** Recording review `x` on its title and inserting it keeps every
      title's rating count equal to its number of reviews. */
  lemma CreateKeepsCountsMatch(titles: map<TitleId, Title>, reviews: seq<Review>, x: Review)
    requires x.title in titles
    requires CountsMatch(titles, reviews)
    ensures CountsMatch(titles[x.title := Rated(titles[x.title], x.rating)], reviews + [x])
  {
    var titles' := titles[x.title := Rated(titles[x.title], x.rating)];
    forall pk | pk in titles'
      ensures titles'[pk].numberRating == |FilterOne(reviews + [x], WatchlistIs(pk))|
    {
      FilterAppend(reviews, x, [WatchlistIs(pk)]);
      assert MatchesAll(x, [WatchlistIs(pk)]) <==> Matches(x, [WatchlistIs(pk)][0]);
    }
  }

  class Store {
    var titles: map<TitleId, Title>
    var reviews: seq<Review>

    ghost predicate Valid()
      reads this
    {
      OneReviewPerPair(reviews) && OneUsernamePerUser(reviews)
    }

    constructor (titles: map<TitleId, Title>, reviews: seq<Review>)
      requires OneReviewPerPair(reviews) && OneUsernamePerUser(reviews)
      ensures Valid() && this.titles == titles && this.reviews == reviews
    {
      this.titles := titles;
      this.reviews := reviews;
    }

    /** `ReviewCreate.perform_create` for title `pk` and the requesting
        `user`, with the serializer's validated fields. Title `pk` must
        exist: the source looks it up with no handler for a missing id.
        `user` is the user row itself, so it agrees with the stored reviews
        that carry its id. */
    method CreateReview(pk: TitleId, user: User, rating: int, description: string, active: bool)
      returns (res: Result<Review>)
      requires Valid()
      requires pk in titles
      requires SameUserRow(reviews, user)
      modifies this
      ensures Valid()
      ensures res.Err? <==> AlreadyReviewed(old(reviews), pk, user)
      ensures res.Err? ==>
                && res.error == DuplicateReview
                && titles == old(titles)
                && reviews == old(reviews)
      ensures res.Ok? ==>
                && res.value == Review(pk, user, rating, description, active)
                && titles == old(titles)[pk := Rated(old(titles)[pk], rating)]
                && reviews == old(reviews) + [res.value]
    {
      var watchlist := titles[pk];
      if AlreadyReviewed(reviews, pk, user) {
        return Err(DuplicateReview);
      }
      var avg: real;
      if watchlist.numberRating == 0 {
        avg := rating as real;
      } else {
        avg := (watchlist.avgRating + rating as real) / 2.0;
      }
      watchlist := watchlist.(avgRating := avg, numberRating := watchlist.numberRating + 1);
      titles := titles[pk := watchlist];

      var review := Review(pk, user, rating, description, active);
      InsertKeepsOneReviewPerPair(reviews, review);
      InsertKeepsOneUsernamePerUser(reviews, review);
      reviews := reviews + [review];
      res := Ok(review);
    }
  }

  /** Example: "Inception" starts unrated; alice rates it 4, bob 5, and
      alice's second review is refused. */
  method InceptionScenario() {
    var alice, bob := User(1, "alice"), User(2, "bob");
    var store := new Store(map[7 := Title("Inception", "", true, 0.0, 0)], []);

    var r1 := store.CreateReview(7, alice, 4, "good", true);
    assert r1.Ok?;
    assert store.titles[7].avgRating == 4.0 && store.titles[7].numberRating == 1;

    var r2 := store.CreateReview(7, bob, 5, "great", true);
    assert store.reviews[0].user.id != bob.id;
    assert r2.Ok?;
    assert store.titles[7].avgRating == 4.5 && store.titles[7].numberRating == 2;

    var r3 := store.CreateReview(7, alice, 1, "again", true);
    assert store.reviews[0].title == 7 && store.reviews[0].user.id == alice.id;
    assert r3 == Err(DuplicateReview);
    assert store.titles[7].avgRating == 4.5 && store.titles[7].numberRating == 2;
  }
}
