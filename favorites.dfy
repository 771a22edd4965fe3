/**
 * The list operations behind a user's favourite jobs: the Mongoose array's
 * `indexOf`, which compares ids by their string form; `MongooseArray.remove`
 * (an alias of `pull`, which drops EVERY element equal to its argument); and
 * the two updates the user model builds from them.
 */
module Favorites {

  /** A job's ObjectId, compared by its `toString()` as `isFavorite` and `indexOf` do. */
  type JobId = string

  /** The first index of x in s, or -1 when x does not occur. */
  function IndexOf(s: seq<JobId>, x: JobId): (i: int)
    ensures -1 <= i < |s|
    ensures i == -1 <==> x !in s
    ensures 0 <= i ==> s[i] == x
    ensures forall k :: 0 <= k < i ==> s[k] != x
  {
    if s == [] then -1
    else if s[0] == x then 0
    else
      var j := IndexOf(s[1..], x);
      if j == -1 then -1 else j + 1
  }

  /** `pull(x)`: s with every occurrence of x taken out. */
  function Pull(s: seq<JobId>, x: JobId): (r: seq<JobId>)
    ensures x !in r
    ensures forall y :: y != x ==> multiset(r)[y] == multiset(s)[y]
  {
    if s == [] then []
    else
      assert s == [s[0]] + s[1..];
      if s[0] == x then Pull(s[1..], x) else [s[0]] + Pull(s[1..], x)
  }

  /** Pulling works element by element, so it keeps the relative order of what stays. */
  lemma {:induction false} PullDistributes(a: seq<JobId>, b: seq<JobId>, x: JobId)
    ensures Pull(a + b, x) == Pull(a, x) + Pull(b, x)
  {
    if a != [] {
      assert (a + b)[0] == a[0] && (a + b)[1..] == a[1..] + b;
      PullDistributes(a[1..], b, x);
    } else {
      assert a + b == b;
    }
  }

  /** Pulling an absent value changes nothing. */
  lemma {:induction false} PullAbsent(s: seq<JobId>, x: JobId)
    requires x !in s
    ensures Pull(s, x) == s
  {
    if s != [] {
      PullAbsent(s[1..], x);
    }
  }

  /** Pulling a value that occurs shortens the list by its number of occurrences. */
  lemma {:induction false} PullLength(s: seq<JobId>, x: JobId)
    ensures |Pull(s, x)| == |s| - multiset(s)[x]
  {
    if s != [] {
      assert s == [s[0]] + s[1..];
      PullLength(s[1..], x);
    }
  }

  /** No value occurs twice. */
  predicate NoDuplicates(s: seq<JobId>) {
    forall i, j :: 0 <= i < j < |s| ==> s[i] != s[j]
  }

  /**
   * The favourite list after `favorite(x)`: x is a favourite afterwards, and
   * everything that was one still is, in the same place.
   */
  function AddFavorite(s: seq<JobId>, x: JobId): (r: seq<JobId>)
    ensures x in r
    ensures x in s ==> r == s
    ensures x !in s ==> r == s + [x]
  {
    if IndexOf(s, x) == -1 then s + [x] else s
  }

  /**
   * The favourite list after `unfavorite(x)`: x is no longer a favourite,
   * every other job keeps its number of occurrences, and the result is what
   * `pull` leaves, whether or not x was there.
   */
  function RemoveFavorite(s: seq<JobId>, x: JobId): (r: seq<JobId>)
    ensures x !in r
    ensures forall y :: y != x ==> multiset(r)[y] == multiset(s)[y]
    ensures r == Pull(s, x)
  {
    if IndexOf(s, x) != -1 then Pull(s, x)
    else
      PullAbsent(s, x);
      s
  }

  /** Favouriting twice is the same as favouriting once. */
  lemma AddFavoriteIdempotent(s: seq<JobId>, x: JobId)
    ensures AddFavorite(AddFavorite(s, x), x) == AddFavorite(s, x)
  {
  }

  /** `favorite` never introduces a duplicate. */
  lemma AddFavoriteKeepsNoDuplicates(s: seq<JobId>, x: JobId)
    requires NoDuplicates(s)
    ensures NoDuplicates(AddFavorite(s, x))
  {
  }

  /** Favouriting a new job twice leaves exactly one entry for it. */
  lemma AddFavoriteTwiceOnce(s: seq<JobId>, x: JobId)
    requires x !in s
    ensures multiset(AddFavorite(AddFavorite(s, x), x))[x] == 1
  {
    assert multiset(s)[x] == 0;
  }

  /** `unfavorite` of a job that is not a favourite leaves the list as it was. */
  lemma RemoveFavoriteAbsent(s: seq<JobId>, x: JobId)
    requires x !in s
    ensures RemoveFavorite(s, x) == s
  {
  }

  /** `unfavorite` removes exactly the occurrences of x. */
  lemma RemoveFavoriteLength(s: seq<JobId>, x: JobId)
    ensures |RemoveFavorite(s, x)| == |s| - multiset(s)[x]
  {
    PullLength(s, x);
    if x !in s {
      assert multiset(s)[x] == 0;
    }
  }

  /** `unfavorite` undoes a `favorite` of a job that was not a favourite. */
  lemma RemoveUndoesAdd(s: seq<JobId>, x: JobId)
    requires x !in s
    ensures RemoveFavorite(AddFavorite(s, x), x) == s
  {
    PullDistributes(s, [x], x);
    PullAbsent(s, x);
    assert Pull([x], x) == [];
  }
}
