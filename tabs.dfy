/** The `product-tabs` component: four named panels, the name of the one
    shown, and the review list it receives from the product. Clicking a
    tab selects it; saving a comment marks that review as saved and
    writes its comment to the browser's local storage. */
module Tabs {
  import opened JsValues
  import opened ReviewStore

  const TabNames: seq<string> := ["Reviews", "Make a Review", "Shipping", "Details"]

  const CommentKeyPrefix: string := "comment-"

  /** The local-storage key `comment-${index}` under which a review's
      comment is saved: the prefix followed by the index in decimal. */
  function CommentKey(index: nat): (key: string)
    ensures |key| > |CommentKeyPrefix|
    ensures key[..|CommentKeyPrefix|] == CommentKeyPrefix
    ensures key[|CommentKeyPrefix|..] == Decimal(index)
  {
    CommentKeyPrefix + Decimal(index)
  }

  /** Different reviews are saved under different keys, so one review's
      saved comment never overwrites another's. */
  lemma CommentKeysDistinct(i: nat, j: nat)
    requires i != j
    ensures CommentKey(i) != CommentKey(j)
  {
    if CommentKey(i) == CommentKey(j) {
      DecimalInjective(i, j);
    }
  }

  class ProductTabs {
    const tabs: seq<string>
    var selectedTab: string
    const reviews: ReviewList
    /** Every `localStorage.setItem` call made so far, as (key, value). */
    ghost var storageWrites: seq<(string, JsText)>

    /** The tab shown is always one of the tabs. */
    ghost predicate Valid()
      reads this
    {
      selectedTab in tabs
    }

    /** The component's initial data: the "Reviews" tab is shown; the
        review list is the product's, passed by reference. */
    constructor (reviews: ReviewList)
      ensures Valid()
      ensures tabs == TabNames && selectedTab == "Reviews"
      ensures this.reviews == reviews && storageWrites == []
    {
      tabs := TabNames;
      selectedTab := "Reviews";
      this.reviews := reviews;
      storageWrites := [];
    }

    /** The click handler `selectedTab = tab` of each tab in `tabs`. */
    method SelectTab(tab: string)
      requires Valid()
      requires tab in tabs
      modifies this
      ensures Valid() && selectedTab == tab
      ensures storageWrites == old(storageWrites)
    {
      selectedTab := tab;
    }

    /** `saveComment(index)`: writes review `index`'s comment under its
        key, then marks that review saved; its comment and every other
        review stay as they were, and the tab shown does not change. */
    method SaveComment(index: nat)
      requires Valid()
      requires index < |reviews.items|
      modifies this, reviews
      ensures Valid() && selectedTab == old(selectedTab)
      ensures reviews.items == Saved(old(reviews.items), index)
      ensures storageWrites == old(storageWrites) + [(CommentKey(index), old(reviews.items[index].comment))]
    {
      var review := reviews.items[index];
      storageWrites := storageWrites + [(CommentKey(index), review.comment)];
      reviews.MarkSaved(index);
    }
  }
}
