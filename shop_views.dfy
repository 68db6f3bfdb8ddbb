/** The catalogue views of core/shop/views.py that change state:
    rate_product (a chain of checks, then the rating upsert and the
    recomputation of the product's aggregates) and product_detail (the view
    counter, the rating percentage and the visitor's own score). */
module ShopViews {
  import opened Common
  import opened ShopModels
  import opened AccountModels

  // ---------------------------------------------------------------------------
  // rate_product
  // ---------------------------------------------------------------------------

  /** A decoded JSON document: an object, or any other JSON value (a list,
      a number, a string, null), none of which has a .get method. */
  datatype Json = JObject(fields: map<string, PyValue>) | JOther

  /** The request body: JSON when the content type says so (None when
      json.loads fails), form-encoded POST data otherwise. */
  datatype Payload = JsonBody(parsed: Option<Json>) | FormBody(post: map<string, string>)

  /** The early returns of rate_product, in the order they are tried. */
  datatype RateFailure =
    | MethodNotAllowed405
    | NotFound404
    | LoginRequired401
    | InvalidJson400
    | InvalidScore400
    | InvalidScoreRange400
    | RateCrash(error: PyError)

  datatype RateResponse = Refused(failure: RateFailure) | Rated(average: real, count: nat, userScore: int)

  /** data.get('score'): a missing key gives None. A JSON document that is
      not an object has no .get, which raises AttributeError. */
  function ScoreField(payload: Payload): Result<PyValue, RateFailure> {
    match payload
    case JsonBody(None) => Err(InvalidJson400)
    case JsonBody(Some(JOther)) => Err(RateCrash(AttributeError))
    case JsonBody(Some(JObject(m))) => Ok(if "score" in m then m["score"] else PyNone)
    case FormBody(post) => Ok(if "score" in post then PyStr(post["score"]) else PyNone)
  }

  /** The checks of rate_product up to the upsert: require_POST, the product
      lookup, the login test, the body, int(score) and the range 1..5. The
      first that fails decides the response; Ok carries the score to store.
      The except around int() catches TypeError and ValueError only, so the
      OverflowError of an infinite score escapes. */
  function ValidateRating(isPost: bool, found: bool, authenticated: bool, payload: Payload): (r: Result<int, RateFailure>)
    ensures r == Err(MethodNotAllowed405) <==> !isPost
    ensures r == Err(NotFound404) <==> isPost && !found
    ensures r == Err(LoginRequired401) <==> isPost && found && !authenticated
    ensures r.Ok? ==> isPost && found && authenticated && 1 <= r.value <= 5
  {
    if !isPost then Err(MethodNotAllowed405)
    else if !found then Err(NotFound404)
    else if !authenticated then Err(LoginRequired401)
    else
      match ScoreField(payload)
      case Err(e) => Err(e)
      case Ok(v) =>
        match IntOf(v)
        case Err(OverflowError) => Err(RateCrash(OverflowError))
        case Err(_) => Err(InvalidScore400)
        case Ok(n) => if n < 1 || n > 5 then Err(InvalidScoreRange400) else Ok(n)
  }

  /** Once the request has passed the first three checks, the score is
      accepted exactly when int() of the submitted value succeeds and lies
      between 1 and 5 inclusive; an int() that raises TypeError or ValueError
      gives invalid_score, one that raises OverflowError (an infinite score)
      escapes the view, and an integer outside the range gives
      invalid_score_range. */
  lemma AcceptedScores(payload: Payload, v: PyValue)
    requires ScoreField(payload) == Ok(v)
    ensures var r := ValidateRating(true, true, true, payload);
      && (r.Ok? <==> IntOf(v).Ok? && 1 <= IntOf(v).value <= 5)
      && (r.Ok? ==> r.value == IntOf(v).value)
      && (r == Err(InvalidScore400) <==> IntOf(v).Err? && IntOf(v).error != OverflowError)
      && (r == Err(RateCrash(OverflowError)) <==> IntOf(v) == Err(OverflowError))
      && (r == Err(InvalidScoreRange400) <==> IntOf(v).Ok? && !(1 <= IntOf(v).value <= 5))
  {
  }

  /** Some submissions and the responses they get: a bad JSON body, a
      missing score, a fractional string, an out-of-range integer, NaN and
      infinity, and the values int() coerces (True, a float, a padded string). */
  lemma RatingExamples()
    ensures ValidateRating(true, true, true, JsonBody(None)) == Err(InvalidJson400)
    ensures ValidateRating(true, true, true, FormBody(map[])) == Err(InvalidScore400)
    ensures ValidateRating(true, true, true, FormBody(map["score" := "4.5"])) == Err(InvalidScore400)
    ensures ValidateRating(true, true, true, JsonBody(Some(JObject(map["score" := PyInt(6)])))) == Err(InvalidScoreRange400)
    ensures ValidateRating(true, true, true, JsonBody(Some(JObject(map["score" := PyInt(0)])))) == Err(InvalidScoreRange400)
    ensures ValidateRating(true, true, true, JsonBody(Some(JObject(map["score" := PyBool(true)])))) == Ok(1)
    ensures ValidateRating(true, true, true, JsonBody(Some(JObject(map["score" := PyFloat(4.7)])))) == Ok(4)
    ensures ValidateRating(true, true, true, FormBody(map["score" := " 5 "])) == Ok(5)
    ensures ValidateRating(true, true, true, JsonBody(Some(JObject(map["score" := PyNonFinite(true)])))) == Err(InvalidScore400)
    ensures ValidateRating(true, true, true, JsonBody(Some(JObject(map["score" := PyNonFinite(false)])))) == Err(RateCrash(OverflowError))
  {
    assert Strip("4.5") == "4.5";
    assert !IsDigits("4.5") by {
      assert !IsAsciiDigit("4.5"[1]);
    }
    assert StripLeft(" 5 ") == "5 " by {
      assert " 5 "[1..] == "5 ";
    }
    assert Strip(" 5 ") == "5" by {
      assert "5 "[..1] == "5";
    }
    assert DigitsValue("5") == 5 by {
      assert "5"[..0] == "";
    }
  }

  /** The products a call may change: the looked-up one, if any. */
  function ProductObjects(product: Option<Product>): set<Product> {
    if product.Some? then {product.value} else {}
  }

  /** rate_product(request, pk). The product lookup is an input (None for a
      missing primary key); on success the user's rating is created or
      replaced and the product's count and average are recomputed. */
  method RateProduct(isPost: bool, product: Option<Product>, viewer: Viewer, payload: Payload, table: RatingTable)
    returns (resp: RateResponse)
    requires table.Valid()
    modifies table, ProductObjects(product)`averageRating, ProductObjects(product)`ratingCount
    ensures table.Valid()
    ensures ValidateRating(isPost, product.Some?, viewer.Authenticated?, payload).Err? ==>
      && resp == Refused(ValidateRating(isPost, product.Some?, viewer.Authenticated?, payload).error)
      && table.rows == old(table.rows)
      && forall p :: p in ProductObjects(product) ==> p.averageRating == old(p.averageRating) && p.ratingCount == old(p.ratingCount)
    ensures ValidateRating(isPost, product.Some?, viewer.Authenticated?, payload).Ok? ==>
      var score := ValidateRating(isPost, product.Some?, viewer.Authenticated?, payload).value;
      var p, u := product.value, viewer.user.pk;
      && ScoreOf(table.rows, p.id, u) == Some(score)
      && (forall q, w :: !(q == p.id && w == u) ==> ScoreOf(table.rows, q, w) == old(ScoreOf(table.rows, q, w)))
      && p.ratingCount == |ScoresFor(table.rows, p.id)|
      && p.ratingCount == |old(ScoresFor(table.rows, p.id))| + (if old(ScoreOf(table.rows, p.id, u)).None? then 1 else 0)
      && p.averageRating == Mean(ScoresFor(table.rows, p.id))
      && resp == Rated(p.averageRating, p.ratingCount, score)
    ensures old(RowsInRange(table.rows)) ==> RowsInRange(table.rows)
    ensures old(RowsInRange(table.rows)) && resp.Rated? ==> 1.0 <= resp.average <= 5.0
  {
    var v := ValidateRating(isPost, product.Some?, viewer.Authenticated?, payload);
    if v.Err? {
      return Refused(v.error);
    }
    var p := product.value;
    var rating, created := table.UpdateOrCreate(p.id, viewer.user.pk, v.value);
    RatedHasScores(table.rows, p.id, viewer.user.pk);
    p.UpdateRating(table);
    resp := Rated(p.averageRating, p.ratingCount, rating.score);
  }

  // ---------------------------------------------------------------------------
  // product_detail
  // ---------------------------------------------------------------------------

  /** rating_percent: average / 5 * 100 when the product has ratings, else 0. */
  function RatingPercent(average: real, count: nat): real {
    if count != 0 then (average / 5.0) * 100.0 else 0.0
  }

  /** An unrated product shows 0 percent, and an average within the 0..5
      scale gives a percentage within 0..100 (100 exactly for 5 stars). */
  lemma RatingPercentRange(average: real, count: nat)
    ensures count == 0 ==> RatingPercent(average, count) == 0.0
    ensures 0.0 <= average <= 5.0 ==> 0.0 <= RatingPercent(average, count) <= 100.0
    ensures count != 0 ==> RatingPercent(average, count) == average * 20.0
  {
  }

  datatype DetailResponse = DetailCrash(error: PyError) | DetailPage(ratingPercent: real, userRating: Option<int>)

  /** product_detail(request, slug). Product.objects.get raises DoesNotExist
      for an unknown slug (None here). Otherwise the view counter goes up by
      exactly one and the product is saved; the visitor's own score is shown
      to a logged-in user who has rated the product. A product whose
      discounted price the database refuses (see Product.Storable) ends the
      request in IntegrityError, and its row keeps the old count. */
  method ProductDetail(product: Option<Product>, viewer: Viewer, table: RatingTable, slugify: string -> string)
    returns (resp: DetailResponse)
    modifies ProductObjects(product)`views, ProductObjects(product)`slug, ProductObjects(product)`discountedPrice
    ensures product.None? <==> resp == DetailCrash(DoesNotExist)
    ensures product.Some? && !product.value.Storable() ==>
      var p := product.value;
      && resp == DetailCrash(IntegrityError)
      && p.views == old(p.views) && p.slug == old(p.slug) && p.discountedPrice == old(p.discountedPrice)
    ensures product.Some? && product.value.Storable() ==>
      var p := product.value;
      && p.views == old(p.views) + 1
      && resp.DetailPage?
      && resp.ratingPercent == RatingPercent(p.averageRating, p.ratingCount)
      && resp.userRating == (if viewer.Authenticated? then ScoreOf(table.rows, p.id, viewer.user.pk) else None)
      && p.slug == SavedSlug(old(p.slug), p.name, slugify)
      && p.discountedPrice == DiscountedPrice(p.originalPrice, p.DiscountValue())
  {
    if product.None? {
      return DetailCrash(DoesNotExist);
    }
    var p := product.value;
    var percent := RatingPercent(p.averageRating, p.ratingCount);
    var userRating: Option<int> := None;
    if viewer.Authenticated? {
      userRating := ScoreOf(table.rows, p.id, viewer.user.pk);
    }
    p.views := p.views + 1;
    var saved := p.Save(slugify);
    if !saved {
      p.views := p.views - 1;
      return DetailCrash(IntegrityError);
    }
    resp := DetailPage(percent, userRating);
  }
}
