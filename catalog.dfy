/** The `product` component: a fixed list of variants, the index of the
    selected one, and the facts it computes from them (title, image, sale
    flag, stock and shipping). Hovering over a colour box selects a
    variant; the two cart buttons emit the selected variant's id; the
    review list grows when the review form submits. */
module Catalog {
  import opened JsValues
  import opened ReviewStore
  import ReviewForm

  datatype Variant = Variant(
    variantId: int, variantColor: string, variantImage: string,
    variantQuantity: int, onSale: bool)

  /** The shipping the product shows: the string "Free", or the number
      2.99, kept here as a whole number of cents. */
  datatype ShippingCost = Free | Charged(cents: nat)

  const StandardShippingCents: nat := 299

  /** Shipping is free exactly for premium customers, and otherwise the
      standard 2.99. */
  function ShippingFor(premium: bool): (s: ShippingCost)
    ensures s == Free <==> premium
    ensures !premium ==> s == Charged(StandardShippingCents)
  {
    if premium then Free else Charged(StandardShippingCents)
  }

  /** The two variants the component starts with. */
  const SockVariants: seq<Variant> := [
    Variant(2234, "green", "./assets/vmSocks-green-onWhite.jpg", 10, true),
    Variant(2235, "blue", "./assets/vmSocks-blue-onWhite.jpg", 0, false)
  ]

  /** The review the list starts with. It has no `recommend` property. */
  const SeedReview: Review :=
    Review(Str("John Doe"), Num(4), Str("Great product!"), Undefined, Str(""), false)

  class Product {
    const premium: bool
    const brand: string
    const product: string
    const variants: seq<Variant>
    var selectedVariant: int
    const reviews: ReviewList

    /** The selected index always names a variant. */
    ghost predicate Valid()
      reads this
    {
      0 <= selectedVariant < |variants|
    }

    /** The component's initial data; `premium` is its required prop. */
    constructor (premium: bool)
      ensures Valid() && fresh(reviews)
      ensures this.premium == premium
      ensures brand == "Vue Mastery" && product == "Socks"
      ensures variants == SockVariants && selectedVariant == 0
      ensures reviews.items == [SeedReview]
    {
      this.premium := premium;
      brand := "Vue Mastery";
      product := "Socks";
      variants := SockVariants;
      selectedVariant := 0;
      reviews := new ReviewList([SeedReview]);
    }

    /** `title`: the brand, one space, then the product name. */
    function Title(): (t: string)
      reads this
      ensures |t| == |brand| + 1 + |product|
      ensures t[..|brand|] == brand && t[|brand|] == ' ' && t[|brand| + 1..] == product
    {
      brand + " " + product
    }

    /** `image`, `sale` and `inStock` read the selected variant. `inStock`
        returns the quantity itself, which templates test for truthiness. */
    function Image(): string
      reads this
      requires Valid()
    {
      variants[selectedVariant].variantImage
    }

    function Sale(): bool
      reads this
      requires Valid()
    {
      variants[selectedVariant].onSale
    }

    function InStock(): int
      reads this
      requires Valid()
    {
      variants[selectedVariant].variantQuantity
    }

    function Shipping(): (s: ShippingCost)
      reads this
      ensures s == Free <==> premium
      ensures !premium ==> s == Charged(StandardShippingCents)
    {
      ShippingFor(premium)
    }

    /** `addToCart`: emits the selected variant's id and changes nothing. */
    method AddToCart() returns (id: int)
      requires Valid()
      ensures id == variants[selectedVariant].variantId
    {
      id := variants[selectedVariant].variantId;
    }

    /** `deleteFromCart`: emits the selected variant's id and changes nothing. */
    method DeleteFromCart() returns (id: int)
      requires Valid()
      ensures id == variants[selectedVariant].variantId
    {
      id := variants[selectedVariant].variantId;
    }

    /** `updateProduct(index)`: selects variant `index`; from then on the
        image, sale flag, stock and cart ids are that variant's, and the
        title and shipping do not change. */
    method UpdateProduct(index: int)
      requires Valid()
      requires 0 <= index < |variants|
      modifies this
      ensures Valid() && selectedVariant == index
      ensures Image() == variants[index].variantImage
      ensures Sale() == variants[index].onSale
      ensures InStock() != 0 <==> variants[index].variantQuantity != 0
      ensures variants[selectedVariant].variantId == variants[index].variantId
      ensures Title() == old(Title()) && Shipping() == old(Shipping())
    {
      selectedVariant := index;
    }

    /** The `review-submitted` handler: appends the record at the end and
        leaves the earlier entries as they were. */
    method OnReviewSubmitted(s: ReviewForm.Submission)
      modifies reviews
      ensures reviews.items == old(reviews.items) + [FromSubmission(s)]
      ensures reviews.items[..|old(reviews.items)|] == old(reviews.items)
    {
      reviews.Push(FromSubmission(s));
    }
  }

  /** One submit of the review form, delivered to the product the way
      the shared event channel delivers it: synchronously, and only when
      the form emitted a record. The list grows by that one record
      exactly when the form was complete. */
  method SubmitReview(form: ReviewForm.ProductReview, product: Product)
    modifies form, product.reviews
    ensures form.State() == ReviewForm.Submit(old(form.State())).form
    ensures ReviewForm.Complete(old(form.State())) ==>
      product.reviews.items == old(product.reviews.items)
        + [FromSubmission(ReviewForm.Submission(old(form.name), old(form.review), old(form.rating), old(form.recommend)))]
    ensures !ReviewForm.Complete(old(form.State())) ==> product.reviews.items == old(product.reviews.items)
  {
    var emitted := form.OnSubmit();
    if emitted.Some? {
      product.OnReviewSubmitted(emitted.value);
    }
  }
}
