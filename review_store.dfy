/** The `reviews` array that the `product` component owns and hands, by
    reference, to `product-tabs`. The product appends to it when a review
    is submitted; the tabs mark one entry's comment as saved. Entries are
    modelled as values: only these two operations ever change the list. */
module ReviewStore {
  import opened JsValues
  import ReviewForm

  /** One entry of the list. `comment` is `undefined` on an entry that
      came from the form (the emitted record has no such property) and
      `isSaved` is false there too, since the absent property reads as
      `undefined`, which is falsy. */
  datatype Review = Review(
    name: JsText, rating: JsNumber, review: JsText, recommend: JsText,
    comment: JsText, isSaved: bool)

  /** The entry the list holds after the form's record is pushed. */
  function FromSubmission(s: ReviewForm.Submission): (r: Review)
    ensures r.name == s.name && r.review == s.review
    ensures r.rating == s.rating && r.recommend == s.recommend
    ensures !r.isSaved && r.comment == Undefined
  {
    Review(s.name, s.rating, s.review, s.recommend, Undefined, false)
  }

  /** The list after `saveComment(i)`: entry `i` is marked saved, its
      comment kept, and every other entry left as it was. */
  function Saved(items: seq<Review>, i: nat): (r: seq<Review>)
    requires i < |items|
    ensures |r| == |items|
    ensures r[i] == items[i].(isSaved := true)
    ensures forall j :: 0 <= j < |items| && j != i ==> r[j] == items[j]
  {
    items[i := items[i].(isSaved := true)]
  }

  /** Saving twice is the same as saving once. */
  lemma SavedIdempotent(items: seq<Review>, i: nat)
    requires i < |items|
    ensures Saved(Saved(items, i), i) == Saved(items, i)
  {
  }

  /** Saves of two entries do not interfere: their order does not matter. */
  lemma SavedCommutes(items: seq<Review>, i: nat, j: nat)
    requires i < |items| && j < |items|
    ensures Saved(Saved(items, i), j) == Saved(Saved(items, j), i)
  {
  }

  /** Saving is irreversible: an entry saved before stays saved, and the
      saved entry's name, rating, text and comment do not change. */
  lemma SavedKeepsEarlierSaves(items: seq<Review>, i: nat, j: nat)
    requires i < |items| && j < |items|
    ensures items[j].isSaved ==> Saved(items, i)[j].isSaved
    ensures Saved(items, i)[j].(isSaved := items[j].isSaved) == items[j]
  {
  }

  class ReviewList {
    var items: seq<Review>

    constructor (initial: seq<Review>)
      ensures items == initial
    {
      items := initial;
    }

    /** `reviews.push(review)`. */
    method Push(r: Review)
      modifies this
      ensures items == old(items) + [r]
    {
      items := items + [r];
    }

    /** `review.isSaved = true` on entry `i`. */
    method MarkSaved(i: nat)
      requires i < |items|
      modifies this
      ensures items == Saved(old(items), i)
    {
      items := items[i := items[i].(isSaved := true)];
    }
  }
}
