/**
 * The destination guide page: its quick facts, the image list behind the
 * carousel, the carousel and lightbox index steps, and the local review list
 * updates made after the review list reports a change.
 */
module GuideDetails {
  import opened Optional
  import opened Lists
  import opened Strings
  import ReviewList

  datatype Location = Location(city: Option<string>, country: Option<string>)

  /** An attraction; only its image matters here. */
  datatype Attraction = Attraction(name: string, image: Option<string>)

  /** The fields of a guide the page computes with; absent fields are `None`. */
  datatype Guide = Guide(
    title: string,
    location: Option<Location>,
    category: Option<string>,
    attractions: Option<seq<Attraction>>,
    interestingFacts: Option<seq<string>>,
    images: Option<seq<string>>,
    reviews: seq<ReviewList.Review>)

  /** One quick-facts row; the category row shows `guide.category`, which may be absent. */
  datatype Fact = Fact(heading: string, value: Option<string>)

  /**
   * A template literal prints a missing key as "undefined". `None` stands for
   * a missing key only; a stored null would print "null" and is not modelled.
   */
  function Shown(o: Option<string>): string {
    o.GetOr("undefined")
  }

  function LocationText(location: Option<Location>): (r: string)
    ensures location.Some? ==> r == Shown(location.value.city) + ", " + Shown(location.value.country)
    ensures location == None ==> r == "undefined, undefined"
  {
    match location
    case None => "undefined, undefined"
    case Some(l) => Shown(l.city) + ", " + Shown(l.country)
  }

  /** `guide.attractions?.length || 0`. */
  function AttractionCount(guide: Guide): nat {
    if guide.attractions.Some? then |guide.attractions.value| else 0
  }

  /** `guide.interestingFacts`, an absent list reading as empty. */
  function FunFacts(guide: Guide): seq<string> {
    guide.interestingFacts.GetOr([])
  }

  /** A numbered label such as "Fun Fact 2" or "Tip 3". */
  function Numbered(prefix: string, n: nat): string {
    prefix + DecimalString(n)
  }

  const AdventureTips := ["Best time to visit: Spring and Fall", "Average trip duration: 5-7 days", "Popular for outdoor activities"]
  const CulturalTips := ["Rich in historical landmarks", "Known for local festivals", "Traditional cuisine must-try"]
  const NatureTips := ["Best for wildlife watching", "Eco-friendly travel recommended", "Stunning natural landscapes"]
  const UrbanTips := ["Vibrant nightlife scene", "World-class museums and galleries", "Excellent public transportation"]
  const LeisureTips := ["Perfect for relaxation", "Luxury resorts available", "Spa and wellness options"]

  const KnownCategories := {"Adventure", "Cultural", "Nature", "Urban", "Leisure"}

  /** `defaultFacts[guide.category] || defaultFacts.Adventure`. */
  function CategoryTips(category: Option<string>): (tips: seq<string>)
    ensures |tips| == 3
    ensures (category == None || category.value !in KnownCategories) ==> tips == AdventureTips
  {
    match category
    case Some("Cultural") => CulturalTips
    case Some("Nature") => NatureTips
    case Some("Urban") => UrbanTips
    case Some("Leisure") => LeisureTips
    case _ => AdventureTips
  }

  /**
   * `items.forEach((x, i) => facts.push(...))`: each item is appended in
   * order under `name` numbered from 1, after the facts already there.
   */
  method PushNumbered(facts: seq<Fact>, name: string, items: seq<string>) returns (r: seq<Fact>)
    ensures |r| == |facts| + |items|
    ensures forall k :: 0 <= k < |facts| ==> r[k] == facts[k]
    ensures forall k :: 0 <= k < |items| ==> r[|facts| + k] == Fact(Numbered(name, k + 1), Some(items[k]))
  {
    r := facts;
    var i := 0;
    while i < |items|
      invariant 0 <= i <= |items|
      invariant |r| == |facts| + i
      invariant forall k :: 0 <= k < |facts| ==> r[k] == facts[k]
      invariant forall k :: 0 <= k < i ==> r[|facts| + k] == Fact(Numbered(name, k + 1), Some(items[k]))
    {
      r := r + [Fact(Numbered(name, i + 1), Some(items[i]))];
      i := i + 1;
    }
  }

  /**
   * `getQuickFacts`: Location, Category and Attractions first; then up to
   * three of the guide's interesting facts labelled "Fun Fact 1".., or, when
   * it has none, the three tips of its category labelled "Tip 1"..
   */
  method QuickFacts(guide: Guide) returns (facts: seq<Fact>)
    ensures |facts| >= 3
    ensures facts[0] == Fact("Location", Some(LocationText(guide.location)))
    ensures facts[1] == Fact("Category", guide.category)
    ensures facts[2] == Fact("Attractions", Some(DecimalString(AttractionCount(guide)) + " places to visit"))
    ensures |FunFacts(guide)| > 0 ==>
      && |facts| == 3 + (if |FunFacts(guide)| < 3 then |FunFacts(guide)| else 3)
      && forall i :: 3 <= i < |facts| ==> facts[i] == Fact(Numbered("Fun Fact ", i - 2), Some(FunFacts(guide)[i - 3]))
    ensures |FunFacts(guide)| == 0 ==>
      && |facts| == 6
      && forall i :: 3 <= i < |facts| ==> facts[i] == Fact(Numbered("Tip ", i - 2), Some(CategoryTips(guide.category)[i - 3]))
  {
    var header := [
      Fact("Location", Some(LocationText(guide.location))),
      Fact("Category", guide.category),
      Fact("Attractions", Some(DecimalString(AttractionCount(guide)) + " places to visit"))
    ];
    var funFacts := FunFacts(guide);
    if |funFacts| > 0 {
      var shown := if |funFacts| < 3 then funFacts else funFacts[..3];
      facts := PushNumbered(header, "Fun Fact ", shown);
      assert forall i :: 3 <= i < |facts| ==> facts[i] == facts[3 + (i - 3)];
    } else {
      var tips := CategoryTips(guide.category);
      facts := PushNumbered(header, "Tip ", tips);
      assert forall i :: 3 <= i < |facts| ==> facts[i] == facts[3 + (i - 3)];
    }
  }

  /** `attractions.map(a => a.image)`, an absent image read as the equally falsy "". */
  function ImageTexts(attractions: seq<Attraction>): (r: seq<string>)
    ensures |r| == |attractions|
  {
    seq(|attractions|, i requires 0 <= i < |attractions| => attractions[i].image.GetOr(""))
  }

  /**
   * `a.image` for each attraction, with absent and empty images dropped:
   * the mapped images filtered by truthiness, so order and repeats are kept.
   */
  function AttractionImages(attractions: seq<Attraction>): (r: seq<string>)
    ensures r == Filter(ImageTexts(attractions), Truthy)
    ensures forall x :: x in r <==> x != "" && exists i :: 0 <= i < |attractions| && attractions[i].image == Some(x)
    ensures forall i :: 0 <= i < |r| ==> Truthy(r[i])
  {
    if |attractions| == 0 then []
    else
      var rest := AttractionImages(attractions[1..]);
      assert ImageTexts(attractions)[1..] == ImageTexts(attractions[1..]);
      var img := attractions[0].image;
      var r := if img.Some? && img.value != "" then [img.value] + rest else rest;
      ImagesFromAttractions(attractions, r);
      r
  }

  /** The truthy mapped images are exactly the non-empty images some attraction has. */
  lemma ImagesFromAttractions(attractions: seq<Attraction>, r: seq<string>)
    requires r == Filter(ImageTexts(attractions), Truthy)
    ensures forall x :: x in r <==> x != "" && exists i :: 0 <= i < |attractions| && attractions[i].image == Some(x)
  {
    var texts := ImageTexts(attractions);
    forall x
      ensures x in r <==> x != "" && exists i :: 0 <= i < |attractions| && attractions[i].image == Some(x)
    {
      if x in r {
        var i :| 0 <= i < |texts| && texts[i] == x;
        assert attractions[i].image == Some(x);
      }
      if x != "" && exists i :: 0 <= i < |attractions| && attractions[i].image == Some(x) {
        var i :| 0 <= i < |attractions| && attractions[i].image == Some(x);
        assert texts[i] == x;
      }
    }
  }

  /** The images of two runs of attractions are the images of the first run, then those of the second. */
  lemma AttractionImagesAppend(a: seq<Attraction>, b: seq<Attraction>)
    ensures AttractionImages(a + b) == AttractionImages(a) + AttractionImages(b)
  {
    assert ImageTexts(a + b) == ImageTexts(a) + ImageTexts(b);
    FilterAppend(ImageTexts(a), ImageTexts(b), Truthy);
  }

  /** The guide's own images followed by its attractions' images, falsy entries dropped. */
  function CombinedImages(guide: Guide): (r: seq<string>)
    ensures r == Filter(guide.images.GetOr([]), Truthy) + AttractionImages(guide.attractions.GetOr([]))
  {
    var own := guide.images.GetOr([]);
    var fromAttractions := AttractionImages(guide.attractions.GetOr([]));
    FilterAppend(own, fromAttractions, Truthy);
    FilterAllKept(fromAttractions, Truthy);
    Filter(own + fromAttractions, Truthy)
  }

  const DefaultImage := "https://images.unsplash.com/photo-1488646953014-85cb44e25828?w=1200"

  /**
   * `allImages`: empty while there is no guide; otherwise the combined
   * images, or the default picture pushed when none remain.
   */
  method AllImages(guide: Option<Guide>) returns (images: seq<string>)
    ensures guide == None ==> images == []
    ensures guide.Some? ==> |images| >= 1 && forall i :: 0 <= i < |images| ==> Truthy(images[i])
    ensures guide.Some? && CombinedImages(guide.value) != [] ==> images == CombinedImages(guide.value)
    ensures guide.Some? && CombinedImages(guide.value) == [] ==> images == [DefaultImage]
  {
    if guide == None {
      return [];
    }
    images := CombinedImages(guide.value);
    if |images| == 0 {
      images := images + [DefaultImage];
    }
  }

  /** Every image the carousel shows is non-empty and comes from the guide or one of its attractions. */
  lemma AllImagesFromGuide(guide: Guide, x: string)
    requires x in CombinedImages(guide)
    ensures x != ""
    ensures x in guide.images.GetOr([]) || exists i :: 0 <= i < |guide.attractions.GetOr([])| && guide.attractions.GetOr([])[i].image == Some(x)
  {
    var own := Filter(guide.images.GetOr([]), Truthy);
    if x !in own {
      assert x in AttractionImages(guide.attractions.GetOr([]));
    }
  }

  /**
   * The next button and the five-second auto-advance: `(prev + 1) % n`. The
   * index may be left over from a guide with more pictures; the result is in
   * range all the same.
   */
  function Next(index: nat, n: nat): (r: nat)
    requires n > 0
    ensures r < n
    ensures index + 1 < n ==> r == index + 1
    ensures index + 1 == n ==> r == 0
  {
    (index + 1) % n
  }

  /** The previous button: the first picture steps back to the last. */
  function Prev(index: nat, n: nat): (r: nat)
    requires n > 0
    ensures index <= n ==> r < n
    ensures index > 0 ==> r == index - 1
    ensures index == 0 ==> r == n - 1
  {
    if index == 0 then n - 1 else index - 1
  }

  /** Previous undoes next and next undoes previous, for the carousel and the lightbox alike. */
  lemma NextPrevInverse(index: nat, n: nat)
    requires index < n
    ensures Prev(Next(index, n), n) == index
    ensures Next(Prev(index, n), n) == index
  {
  }

  function IdOf(review: ReviewList.Review): string {
    review.id
  }

  /** `handleReviewAdded`: the new review goes first. */
  function WithReviewAdded(reviews: seq<ReviewList.Review>, added: ReviewList.Review): (r: seq<ReviewList.Review>)
    ensures |r| == |reviews| + 1 && r[0] == added && r[1..] == reviews
  {
    [added] + reviews
  }

  /** `handleReviewUpdated`: every review with the updated one's id is replaced by it, the others stay put. */
  function WithReviewUpdated(reviews: seq<ReviewList.Review>, updated: ReviewList.Review): (r: seq<ReviewList.Review>)
    ensures |r| == |reviews|
    ensures forall i :: 0 <= i < |r| ==> r[i] == (if reviews[i].id == updated.id then updated else reviews[i])
  {
    if |reviews| == 0 then []
    else [if reviews[0].id == updated.id then updated else reviews[0]] + WithReviewUpdated(reviews[1..], updated)
  }

  /** `handleReviewDeleted`: the reviews with that id go, the rest keep their order. */
  function WithReviewDeleted(reviews: seq<ReviewList.Review>, reviewId: string): (r: seq<ReviewList.Review>)
    ensures forall x :: x in r <==> x in reviews && x.id != reviewId
    ensures |r| <= |reviews|
  {
    RemoveKey(reviews, IdOf, reviewId)
  }

  /** Deleting a review just added, whose id was new, restores the list. */
  lemma DeleteUndoesAdd(reviews: seq<ReviewList.Review>, added: ReviewList.Review)
    requires forall i :: 0 <= i < |reviews| ==> reviews[i].id != added.id
    ensures WithReviewDeleted(WithReviewAdded(reviews, added), added.id) == reviews
  {
    RemoveKeyUndoesPrepend(added, reviews, IdOf);
  }

  /** An update leaves no trace once the review is deleted. */
  lemma {:induction false} DeleteAfterUpdate(reviews: seq<ReviewList.Review>, updated: ReviewList.Review)
    ensures WithReviewDeleted(WithReviewUpdated(reviews, updated), updated.id) == WithReviewDeleted(reviews, updated.id)
  {
    if |reviews| > 0 {
      DeleteAfterUpdate(reviews[1..], updated);
      var u := WithReviewUpdated(reviews, updated);
      assert u[1..] == WithReviewUpdated(reviews[1..], updated);
    }
  }

  /** Updating twice with the same review is the same as updating once. */
  lemma {:induction false} UpdateIdempotent(reviews: seq<ReviewList.Review>, updated: ReviewList.Review)
    ensures WithReviewUpdated(WithReviewUpdated(reviews, updated), updated) == WithReviewUpdated(reviews, updated)
  {
    var once := WithReviewUpdated(reviews, updated);
    var twice := WithReviewUpdated(once, updated);
    assert forall i :: 0 <= i < |twice| ==> twice[i] == once[i];
  }
}
