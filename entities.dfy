/** The stored entities that the review views read and write: watchable
    titles (the `WatchList` model) and user reviews (the `Review` model),
    plus the error results the views can produce. */
module Entities {

  /** Primary key of a title, as taken from the `<int:pk>` route segment. */
  type TitleId = nat

  /** An authenticated Django user: its primary key and its username.
      Users are compared by primary key, as the ORM compares `review_user`. */
  datatype User = User(id: nat, username: string)

  /** A watchable title together with its rating aggregate.
      `avgRating` is exact here, where the source stores a float. */
  datatype Title = Title(
    name: string,
    storyline: string,
    active: bool,
    avgRating: real,
    numberRating: nat)

  /** One user's review of one title. */
  datatype Review = Review(
    title: TitleId,
    user: User,
    rating: int,
    description: string,
    active: bool)

  /** The failures a view reports instead of a value. */
  datatype Error =
    | NotFound          // unknown title id on the detail view
    | DuplicateReview   // second review by the same user on the same title

  datatype Result<T> = Ok(value: T) | Err(error: Error)

  datatype Option<T> = None | Some(value: T)
}
