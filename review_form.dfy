/** The `product-review` component: a form with four fields and an error
    list. Submitting either emits a review record (and clears three of
    the fields) or fills the error list with one message per missing
    field, in a fixed order. `Submit` is the specification of one submit;
    the class `ProductReview` performs it by updating its fields in place
    as the component does. */
module ReviewForm {
  import opened JsValues

  const NameRequired: string := "Name required."
  const ReviewRequired: string := "Review required."
  const RatingRequired: string := "Rating required."
  const RecommendationRequired: string := "Recommendation required."

  /** Every message the form can show, in the order it checks the fields. */
  const Messages: seq<string> :=
    [NameRequired, ReviewRequired, RatingRequired, RecommendationRequired]

  /** The record the form emits: its four fields, copied as they are. */
  datatype Submission = Submission(name: JsText, review: JsText, rating: JsNumber, recommend: JsText)

  /** The component's data: the four bound fields and the error list. */
  datatype FormState = FormState(name: JsText, review: JsText, rating: JsNumber, recommend: JsText, errors: seq<string>)

  /** What one submit leaves behind: the new form and what it emitted. */
  datatype SubmitOutcome = SubmitOutcome(form: FormState, emitted: Option<Submission>)

  /** The four presence tests of the submit guard. */
  predicate Complete(f: FormState) {
    TextTruthy(f.name) && TextTruthy(f.review) && NumberTruthy(f.rating) && TextTruthy(f.recommend)
  }

  /** For each field, in `Messages` order, whether it is missing. */
  function MissingFlags(f: FormState): (flags: seq<bool>)
    ensures |flags| == |Messages|
  {
    [!TextTruthy(f.name), !TextTruthy(f.review), !NumberTruthy(f.rating), !TextTruthy(f.recommend)]
  }

  /** The elements of `xs` whose flag is set, in their order in `xs`. */
  function Select<T>(xs: seq<T>, keep: seq<bool>): (r: seq<T>)
    requires |keep| == |xs|
    ensures |r| <= |xs|
    decreases |xs|
  {
    if xs == [] then []
    else (if keep[0] then [xs[0]] else []) + Select(xs[1..], keep[1..])
  }

  /** The number of set flags. */
  function CountTrue(keep: seq<bool>): nat
    decreases |keep|
  {
    if keep == [] then 0 else (if keep[0] then 1 else 0) + CountTrue(keep[1..])
  }

  /** The messages the failing branch pushes, one `if` after another. */
  function MissingErrors(f: FormState): seq<string> {
    (if !TextTruthy(f.name) then [NameRequired] else [])
    + (if !TextTruthy(f.review) then [ReviewRequired] else [])
    + (if !NumberTruthy(f.rating) then [RatingRequired] else [])
    + (if !TextTruthy(f.recommend) then [RecommendationRequired] else [])
  }

  /** One submit. The record is emitted exactly when all four fields are
      present, and `recommend` is never cleared. */
  function Submit(f: FormState): (o: SubmitOutcome)
    ensures o.emitted.Some? <==> Complete(f)
    ensures o.form.recommend == f.recommend
  {
    if Complete(f) then
      SubmitOutcome(
        FormState(Null, Null, NullNumber, f.recommend, []),
        Some(Submission(f.name, f.review, f.rating, f.recommend)))
    else
      SubmitOutcome(f.(errors := MissingErrors(f)), None)
  }

  /** A complete form emits one record equal to its four fields, shows no
      errors, clears name, review and rating, and keeps recommend. */
  lemma ValidSubmit(f: FormState)
    requires Complete(f)
    ensures Submit(f).emitted == Some(Submission(f.name, f.review, f.rating, f.recommend))
    ensures Submit(f).form.errors == []
    ensures Submit(f).form.name == Null && Submit(f).form.review == Null
    ensures Submit(f).form.rating == NullNumber
    ensures Submit(f).form.recommend == f.recommend
  {
  }

  /** An incomplete form emits nothing, changes none of its four fields,
      and shows exactly the messages of the missing fields in the fixed
      order. */
  lemma InvalidSubmit(f: FormState)
    requires !Complete(f)
    ensures Submit(f).emitted == None
    ensures Submit(f).form.name == f.name && Submit(f).form.review == f.review
    ensures Submit(f).form.rating == f.rating && Submit(f).form.recommend == f.recommend
    ensures Submit(f).form.errors == Select(Messages, MissingFlags(f))
  {
    MissingErrorsSelected(f);
  }

  /** The pushed messages are exactly `Messages` filtered by the missing
      fields. */
  lemma MissingErrorsSelected(f: FormState)
    ensures MissingErrors(f) == Select(Messages, MissingFlags(f))
  {
    var k := MissingFlags(f);
    SelectFour(NameRequired, ReviewRequired, RatingRequired, RecommendationRequired, k[0], k[1], k[2], k[3]);
    assert k == [k[0], k[1], k[2], k[3]];
  }

  lemma SelectFour<T>(a: T, b: T, c: T, d: T, p: bool, q: bool, r: bool, s: bool)
    ensures Select([a, b, c, d], [p, q, r, s])
      == (if p then [a] else []) + (if q then [b] else []) + (if r then [c] else []) + (if s then [d] else [])
  {
    assert [a, b, c, d][1..] == [b, c, d] && [p, q, r, s][1..] == [q, r, s];
    assert [b, c, d][1..] == [c, d] && [q, r, s][1..] == [r, s];
    assert [c, d][1..] == [d] && [r, s][1..] == [s];
    assert [d][1..] == [] && [s][1..] == [];
    var sd := Select([d], [s]);
    assert sd == (if s then [d] else []) + Select([], []);
    var scd := Select([c, d], [r, s]);
    assert scd == (if r then [c] else []) + sd;
    var sbcd := Select([b, c, d], [q, r, s]);
    assert sbcd == (if q then [b] else []) + scd;
    assert Select([a, b, c, d], [p, q, r, s]) == (if p then [a] else []) + sbcd;
  }

  /** Filtering keeps one element per set flag. */
  lemma {:induction false} SelectLength<T>(xs: seq<T>, keep: seq<bool>)
    requires |keep| == |xs|
    ensures |Select(xs, keep)| == CountTrue(keep)
    decreases |xs|
  {
    if xs != [] {
      SelectLength(xs[1..], keep[1..]);
    }
  }

  /** The error list is empty exactly when the submit is valid, and holds
      between one and four messages otherwise. */
  lemma ErrorBounds(f: FormState)
    ensures Submit(f).form.errors == [] <==> Complete(f)
    ensures !Complete(f) ==> 1 <= |Submit(f).form.errors| <= |Messages|
    ensures |Submit(f).form.errors| == if Complete(f) then 0 else CountTrue(MissingFlags(f))
  {
    if !Complete(f) {
      MissingErrorsSelected(f);
      SelectLength(Messages, MissingFlags(f));
    }
  }

  /** Each message appears exactly when its field is missing and the
      submit fails. */
  lemma ErrorForEachMissingField(f: FormState)
    ensures NameRequired in Submit(f).form.errors <==> !Complete(f) && !TextTruthy(f.name)
    ensures ReviewRequired in Submit(f).form.errors <==> !Complete(f) && !TextTruthy(f.review)
    ensures RatingRequired in Submit(f).form.errors <==> !Complete(f) && !NumberTruthy(f.rating)
    ensures RecommendationRequired in Submit(f).form.errors
      <==> !Complete(f) && !TextTruthy(f.recommend)
  {
  }

  /** The error list is reset at the start of every submit: what it held
      before has no influence on the outcome. */
  lemma ErrorsForgetEarlierSubmits(f: FormState, earlier: seq<string>)
    ensures Submit(f.(errors := earlier)) == Submit(f)
  {
  }

  /** Submitting again right after a valid submit emits nothing: the
      cleared fields are reported as missing, and recommend, kept from
      the first submit, is not. */
  lemma ResubmitAfterValid(f: FormState)
    requires Complete(f)
    ensures Submit(Submit(f).form).emitted == None
    ensures Submit(Submit(f).form).form.errors == [NameRequired, ReviewRequired, RatingRequired]
  {
  }

  /** The `product-review` component's data. */
  class ProductReview {
    var name: JsText
    var review: JsText
    var rating: JsNumber
    var errors: seq<string>
    var recommend: JsText

    function State(): FormState
      reads this
    {
      FormState(name, review, rating, recommend, errors)
    }

    /** The component's initial data: every field null, no errors. */
    constructor ()
      ensures State() == FormState(Null, Null, NullNumber, Null, [])
    {
      name, review, rating, errors, recommend := Null, Null, NullNumber, [], Null;
    }

    /** `onSubmit`: resets the errors, then either emits the record and
        clears three fields, or pushes one message per missing field. */
    method OnSubmit() returns (emitted: Option<Submission>)
      modifies this
      ensures State() == Submit(old(State())).form
      ensures emitted == Submit(old(State())).emitted
    {
      errors := [];
      if TextTruthy(name) && TextTruthy(review) && NumberTruthy(rating) && TextTruthy(recommend) {
        emitted := Some(Submission(name, review, rating, recommend));
        name := Null;
        review := Null;
        rating := NullNumber;
      } else {
        emitted := None;
        if !TextTruthy(name) { errors := errors + [NameRequired]; }
        if !TextTruthy(review) { errors := errors + [ReviewRequired]; }
        if !NumberTruthy(rating) { errors := errors + [RatingRequired]; }
        if !TextTruthy(recommend) { errors := errors + [RecommendationRequired]; }
      }
    }
  }
}
