/**
 * The public itineraries page: the public filter applied after fetching,
 * the title/destination search, the three sort orders and the like update.
 */
module ItinerariesList {
  import opened Optional
  import opened Lists
  import opened Strings

  /**
   * An itinerary as listed. `createdAt` is the creation time in milliseconds
   * since the epoch; `durationDays` is absent when the server left it out.
   */
  datatype Itinerary = Itinerary(
    id: string,
    title: Option<string>,
    destination: Option<string>,
    isPublic: bool,
    likes: Option<seq<string>>,
    durationDays: Option<int>,
    createdAt: Option<int>)

  predicate IsPublic(it: Itinerary) {
    it.isPublic
  }

  /** The list kept after a fetch: public itineraries only, in the server's order. */
  function PublicOnly(fetched: seq<Itinerary>): (r: seq<Itinerary>)
    ensures forall it :: it in r <==> it in fetched && it.isPublic
  {
    Filter(fetched, IsPublic)
  }

  /** `field?.toLowerCase().includes(query.toLowerCase())`, an absent field being falsy. */
  predicate FieldMatches(field: Option<string>, query: string) {
    field.Some? && Contains(Lower(field.value), Lower(query))
  }

  predicate Matches(query: string, it: Itinerary) {
    FieldMatches(it.title, query) || FieldMatches(it.destination, query)
  }

  /** The search filter: itineraries whose title or destination contains the query, ignoring case. */
  function Searched(its: seq<Itinerary>, query: string): (r: seq<Itinerary>)
    ensures forall it :: it in r <==> it in its && Matches(query, it)
    ensures |r| <= |its|
  {
    Filter(its, it => Matches(query, it))
  }

  /**
   * An empty query keeps exactly the itineraries that have a title or a
   * destination: with both absent, the optional chain yields `undefined`.
   */
  lemma EmptyQueryKeepsNamed(its: seq<Itinerary>, it: Itinerary)
    requires it in its
    ensures it in Searched(its, "") <==> it.title.Some? || it.destination.Some?
  {
    if it.title.Some? {
      ContainsEmpty(Lower(it.title.value));
    }
    if it.destination.Some? {
      ContainsEmpty(Lower(it.destination.value));
    }
  }

  /** `x || 0` for an optional number: absent and 0 both give 0. */
  function OrZero(n: Option<int>): int {
    if n.Some? then n.value else 0
  }

  function LikeCount(it: Itinerary): int {
    if it.likes.Some? then |it.likes.value| else 0
  }

  function DurationKey(it: Itinerary): int {
    OrZero(it.durationDays)
  }

  function CreatedKey(it: Itinerary): int {
    OrZero(it.createdAt)
  }

  /** The number the comparator subtracts for each sort choice; anything but 'popular' and 'duration' sorts by date. */
  function SortKey(sortBy: string): Itinerary -> int {
    if sortBy == "popular" then LikeCount
    else if sortBy == "duration" then DurationKey
    else CreatedKey
  }

  /** Largest key first. */
  predicate NonIncreasing(xs: seq<Itinerary>, key: Itinerary -> int) {
    forall i, j :: 0 <= i < j < |xs| ==> key(xs[i]) >= key(xs[j])
  }

  /** Puts `x` before the first element whose key is not above its own. */
  function Insert(x: Itinerary, ys: seq<Itinerary>, key: Itinerary -> int): (r: seq<Itinerary>)
    ensures multiset(r) == multiset(ys) + multiset{x}
  {
    if |ys| == 0 || key(x) >= key(ys[0]) then
      [x] + ys
    else
      assert ys == [ys[0]] + ys[1..];
      [ys[0]] + Insert(x, ys[1..], key)
  }

  lemma {:induction false} InsertKeepsOrder(x: Itinerary, ys: seq<Itinerary>, key: Itinerary -> int)
    requires NonIncreasing(ys, key)
    ensures NonIncreasing(Insert(x, ys, key), key)
  {
    if |ys| > 0 && key(x) < key(ys[0]) {
      var rest := Insert(x, ys[1..], key);
      InsertKeepsOrder(x, ys[1..], key);
      KeysBounded(rest, ys[1..], x, key, key(ys[0]));
      ConsKeepsOrder(ys[0], rest, key);
    }
  }

  /** A rearrangement of `ys` plus `x` stays under any bound that `x` and every element of `ys` stay under. */
  lemma KeysBounded(rest: seq<Itinerary>, ys: seq<Itinerary>, x: Itinerary, key: Itinerary -> int, bound: int)
    requires multiset(rest) == multiset(ys) + multiset{x}
    requires key(x) <= bound && forall k :: 0 <= k < |ys| ==> key(ys[k]) <= bound
    ensures forall j :: 0 <= j < |rest| ==> key(rest[j]) <= bound
  {
    forall j | 0 <= j < |rest|
      ensures key(rest[j]) <= bound
    {
      assert rest[j] in multiset(rest);
      if rest[j] != x {
        assert rest[j] in multiset(ys);
        var k :| 0 <= k < |ys| && ys[k] == rest[j];
      }
    }
  }

  /** Putting an element with the largest key in front keeps the order. */
  lemma ConsKeepsOrder(y: Itinerary, rest: seq<Itinerary>, key: Itinerary -> int)
    requires NonIncreasing(rest, key)
    requires forall j :: 0 <= j < |rest| ==> key(rest[j]) <= key(y)
    ensures NonIncreasing([y] + rest, key)
  {
    var r := [y] + rest;
    forall i, j | 0 <= i < j < |r|
      ensures key(r[i]) >= key(r[j])
    {
      assert r[j] == rest[j - 1];
      if i > 0 {
        assert r[i] == rest[i - 1];
      }
    }
  }

  /** `sort` with the descending comparator `key(b) - key(a)`. */
  function Sorted(xs: seq<Itinerary>, key: Itinerary -> int): (r: seq<Itinerary>)
    ensures multiset(r) == multiset(xs)
    ensures NonIncreasing(r, key)
  {
    if |xs| == 0 then []
    else
      assert xs == [xs[0]] + xs[1..];
      var rest := Sorted(xs[1..], key);
      InsertKeepsOrder(xs[0], rest, key);
      Insert(xs[0], rest, key)
  }

  /** The list on screen: the search result sorted by the chosen key. */
  function Displayed(its: seq<Itinerary>, query: string, sortBy: string): (r: seq<Itinerary>)
    ensures multiset(r) == multiset(Searched(its, query))
    ensures NonIncreasing(r, SortKey(sortBy))
  {
    Sorted(Searched(its, query), SortKey(sortBy))
  }

  /** Every itinerary shown passes the search, and every one that passes is shown. */
  lemma DisplayedAreMatches(its: seq<Itinerary>, query: string, sortBy: string, it: Itinerary)
    ensures it in Displayed(its, query, sortBy) <==> it in its && Matches(query, it)
  {
    var shown := Displayed(its, query, sortBy);
    assert it in shown <==> it in multiset(shown);
  }

  function Self(s: string): string {
    s
  }

  /** The likes after the server answers: the user appended when liked, every copy of the user removed otherwise. */
  function NewLikes(likes: Option<seq<string>>, liked: bool, userId: string): (r: seq<string>)
    ensures liked ==> r == likes.GetOr([]) + [userId]
    ensures !liked ==> userId !in r && forall x :: x in r <==> x in likes.GetOr([]) && x != userId
  {
    if liked then likes.GetOr([]) + [userId] else RemoveKey(likes.GetOr([]), Self, userId)
  }

  /** `handleLike`'s update: only the itinerary with that id changes, and only its likes. */
  function WithLike(its: seq<Itinerary>, itineraryId: string, liked: bool, userId: string): (r: seq<Itinerary>)
    ensures |r| == |its|
    ensures forall i :: 0 <= i < |its| && its[i].id != itineraryId ==> r[i] == its[i]
    ensures forall i :: 0 <= i < |its| && its[i].id == itineraryId ==>
      r[i] == its[i].(likes := Some(NewLikes(its[i].likes, liked, userId)))
  {
    seq(|its|, i requires 0 <= i < |its| =>
      if its[i].id == itineraryId then its[i].(likes := Some(NewLikes(its[i].likes, liked, userId))) else its[i])
  }

  /** Liking and then unliking gives back the likes a user was not yet part of. */
  lemma {:induction false} UnlikeUndoesLike(likes: seq<string>, userId: string)
    requires userId !in likes
    ensures NewLikes(Some(NewLikes(Some(likes), true, userId)), false, userId) == likes
  {
    RemoveKeyAppend(likes, [userId], Self, userId);
    assert RemoveKey([userId], Self, userId) == [];
    RemoveKeyAbsent(likes, Self, userId);
  }

  /** A like touches no title or destination, so it never changes which itineraries the search keeps. */
  lemma LikeKeepsSearch(its: seq<Itinerary>, itineraryId: string, liked: bool, userId: string, query: string, i: int)
    requires 0 <= i < |its|
    ensures Matches(query, WithLike(its, itineraryId, liked, userId)[i]) == Matches(query, its[i])
  {
  }
}
