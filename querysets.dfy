/** Django querysets over the review table, reduced to what the views use:
    `Review.objects.filter(...)` with a chain of field lookups, each lookup
    keeping the reviews that match it (the lookups of one call are ANDed). */
module Querysets {
  import opened Entities

  /** One field lookup of a `filter(...)` call. */
  datatype Lookup =
    | WatchlistIs(pk: TitleId)                       // watchlist=pk
    | ReviewUserIs(user: User)                       // review_user=user (by primary key)
    | ReviewUserUsernameIs(username: Option<string>) // review_user__username=...
    | ActiveIs(flag: bool)                           // active=...

  /** Whether review `x` satisfies lookup `l`. A username lookup against
      `None` is SQL `IS NULL` on a non-null column and so matches nothing. */
  predicate Matches(x: Review, l: Lookup) {
    match l
    case WatchlistIs(pk) => x.title == pk
    case ReviewUserIs(u) => x.user.id == u.id
    case ReviewUserUsernameIs(n) => n == Some(x.user.username)
    case ActiveIs(b) => x.active == b
  }

  predicate MatchesAll(x: Review, lookups: seq<Lookup>) {
    forall i :: 0 <= i < |lookups| ==> Matches(x, lookups[i])
  }

  /** `filter(*lookups)` over `s`, keeping the store's order. */
  function Filter(s: seq<Review>, lookups: seq<Lookup>): (r: seq<Review>)
    ensures |r| <= |s|
  {
    if s == [] then []
    else (if MatchesAll(s[0], lookups) then [s[0]] else []) + Filter(s[1..], lookups)
  }

  /** A filter keeps every matching row as often as the table holds it and
      drops every other row. */
  lemma {:induction false} FilterCounts(s: seq<Review>, lookups: seq<Lookup>)
    ensures forall x :: multiset(Filter(s, lookups))[x]
              == if MatchesAll(x, lookups) then multiset(s)[x] else 0
  {
    if s != [] {
      FilterCounts(s[1..], lookups);
      assert s == [s[0]] + s[1..];
    }
  }

  /** Inserting a row at the end of the table extends a filter's result by
      that row exactly when it matches. */
  lemma {:induction false} FilterAppend(s: seq<Review>, x: Review, lookups: seq<Lookup>)
    ensures Filter(s + [x], lookups)
         == Filter(s, lookups) + (if MatchesAll(x, lookups) then [x] else [])
  {
    var tail := if MatchesAll(x, lookups) then [x] else [];
    if s == [] {
      assert [] + [x] == [x];
      assert Filter([x], lookups) == tail + Filter([], lookups);
    } else {
      var head := if MatchesAll(s[0], lookups) then [s[0]] else [];
      calc {
        Filter(s + [x], lookups);
        { assert (s + [x])[0] == s[0]; assert (s + [x])[1..] == s[1..] + [x]; }
        head + Filter(s[1..] + [x], lookups);
        { FilterAppend(s[1..], x, lookups); }
        head + (Filter(s[1..], lookups) + tail);
        (head + Filter(s[1..], lookups)) + tail;
        Filter(s, lookups) + tail;
      }
    }
  }

  lemma MatchesAllConcat(x: Review, a: seq<Lookup>, b: seq<Lookup>)
    ensures MatchesAll(x, a + b) <==> MatchesAll(x, a) && MatchesAll(x, b)
  {
    if MatchesAll(x, a) && MatchesAll(x, b) {
      forall i | 0 <= i < |a + b| ensures Matches(x, (a + b)[i]) {
        if i < |a| { assert (a + b)[i] == a[i]; } else { assert (a + b)[i] == b[i - |a|]; }
      }
    }
    if MatchesAll(x, a + b) {
      forall i | 0 <= i < |a| ensures Matches(x, a[i]) { assert (a + b)[i] == a[i]; }
      forall i | 0 <= i < |b| ensures Matches(x, b[i]) { assert (a + b)[|a| + i] == b[i]; }
    }
  }

  /** A filter with no lookups returns the whole queryset. */
  lemma {:induction false} FilterNone(s: seq<Review>)
    ensures Filter(s, []) == s
  {
    if s != [] {
      FilterNone(s[1..]);
      assert s == [s[0]] + s[1..];
    }
  }

  /** Chaining `.filter(a).filter(b)` is the same queryset as one
      `filter` with the lookups of both. */
  lemma {:induction false} FilterChain(s: seq<Review>, a: seq<Lookup>, b: seq<Lookup>)
    ensures Filter(Filter(s, a), b) == Filter(s, a + b)
  {
    if s != [] {
      MatchesAllConcat(s[0], a, b);
      FilterChain(s[1..], a, b);
      if MatchesAll(s[0], a) {
        assert Filter(s, a) == [s[0]] + Filter(s[1..], a);
        assert Filter(s, a)[0] == s[0];
        assert Filter(s, a)[1..] == Filter(s[1..], a);
      } else {
        assert Filter(s, a) == Filter(s[1..], a);
      }
    }
  }
}
