/** The catalogue models of core/shop/models.py: Product with its save()
    (slug and discounted price) and update_rating() (count and mean of its
    ratings), and the Rating table, at most one row per (product, user). */
module ShopModels {
  import opened Common

  // ---------------------------------------------------------------------------
  // Prices
  // ---------------------------------------------------------------------------

  /** The discounted price Product.save stores: with a truthy discount d (not
      None and not 0) it is int(original * (100 - d) / 100), otherwise the
      original price. */
  function DiscountedPrice(original: int, discount: Option<int>): int {
    if discount.Some? && discount.value != 0 then TruncDiv(original * (100 - discount.value), 100)
    else original
  }

  /** With a discount in the range the field's validators allow, the
      discounted price is the original price scaled down and rounded down:
      the largest whole price not above original * (100 - d) / 100. */
  lemma DiscountedPriceIsFloor(original: nat, d: nat)
    requires d <= 100
    ensures var r := DiscountedPrice(original, Some(d));
      r * 100 <= original * (100 - d) < r * 100 + 100
  {
  }

  /** For a discount between 0 and 100 the discounted price lies between 0
      and the original price; a missing or zero discount keeps the price and
      a 100 percent discount makes the product free. */
  lemma DiscountedPriceBounds(original: nat, discount: Option<nat>)
    requires discount.Some? ==> discount.value <= 100
    ensures var r := DiscountedPrice(original, if discount.Some? then Some(discount.value as int) else None);
      && 0 <= r <= original
      && (discount.None? || discount.value == 0 ==> r == original)
      && (discount == Some(100) ==> r == 0)
  {
    if discount.Some? && discount.value != 0 {
      var d := discount.value;
      var r := DiscountedPrice(original, Some(d));
      DiscountedPriceIsFloor(original, d);
      assert original * (100 - d) <= original * 100;
      assert 0 <= original * (100 - d);
    }
  }

  /** A discounted price below 0 gives a discount above 100 on a positive
      price. Not every such discount does, because int() truncates toward
      zero: 1 at 101 percent comes to int(-0.01) == 0. */
  lemma NegativePriceNeedsLargeDiscount(original: nat, discount: Option<nat>)
    ensures DiscountedPrice(original, if discount.Some? then Some(discount.value as int) else None) < 0 ==>
      discount.Some? && discount.value > 100 && original > 0
  {
    if discount.None? || discount.value <= 100 {
      DiscountedPriceBounds(original, discount);
    }
  }

  lemma NegativePriceExamples()
    ensures DiscountedPrice(1000, Some(110)) == -100
    ensures DiscountedPrice(1, Some(101)) == 0
    ensures DiscountedPrice(0, Some(150)) == 0
  {
  }

  /** The slug save() leaves: an empty slug is replaced by slugify(name),
      any other slug is kept. */
  function SavedSlug(slug: string, name: string, slugify: string -> string): string {
    if slug == "" then slugify(name) else slug
  }

  /** Saving twice slugs the same as saving once. */
  lemma SavedSlugIdempotent(slug: string, name: string, slugify: string -> string)
    ensures SavedSlug(SavedSlug(slug, name, slugify), name, slugify) == SavedSlug(slug, name, slugify)
  {
  }

  /** What a save the database accepts leaves in p's slug and discounted
      price. */
  twostate predicate SavedPricing(p: Product, slugify: string -> string)
    reads p
  {
    p.slug == SavedSlug(old(p.slug), p.name, slugify) && p.discountedPrice == DiscountedPrice(p.originalPrice, p.DiscountValue())
  }

  /** p's slug and discounted price as they were. */
  twostate predicate PricingKept(p: Product)
    reads p
  {
    p.slug == old(p.slug) && p.discountedPrice == old(p.discountedPrice)
  }

  // ---------------------------------------------------------------------------
  // Ratings
  // ---------------------------------------------------------------------------

  /** A row of the Rating table; products and users are given by primary key. */
  datatype Rating = Rating(product: nat, user: nat, score: int)

  predicate SameKey(r: Rating, product: nat, user: nat) {
    r.product == product && r.user == user
  }

  /** unique_together = ('product', 'user'). */
  ghost predicate OnePerUser(rows: seq<Rating>) {
    forall i, j :: 0 <= i < j < |rows| ==> !SameKey(rows[j], rows[i].product, rows[i].user)
  }

  /** The position of the row for (product, user), if there is one. */
  function IndexOf(rows: seq<Rating>, product: nat, user: nat): (r: Option<nat>)
    ensures r.Some? ==> r.value < |rows| && SameKey(rows[r.value], product, user)
    ensures r.Some? ==> forall i :: 0 <= i < r.value ==> !SameKey(rows[i], product, user)
    ensures r.None? ==> forall i :: 0 <= i < |rows| ==> !SameKey(rows[i], product, user)
  {
    if rows == [] then None
    else if SameKey(rows[0], product, user) then Some(0)
    else
      match IndexOf(rows[1..], product, user)
      case None => None
      case Some(k) => Some(k + 1)
  }

  /** The score a user gave a product, if any. */
  function ScoreOf(rows: seq<Rating>, product: nat, user: nat): Option<int> {
    match IndexOf(rows, product, user)
    case None => None
    case Some(k) => Some(rows[k].score)
  }

  /** The scores of one product's ratings, in table order. */
  function ScoresFor(rows: seq<Rating>, product: nat): seq<int> {
    if rows == [] then []
    else (if rows[0].product == product then [rows[0].score] else []) + ScoresFor(rows[1..], product)
  }

  lemma {:induction false} ScoresForAppend(rows: seq<Rating>, x: Rating, product: nat)
    ensures ScoresFor(rows + [x], product) == ScoresFor(rows, product) + (if x.product == product then [x.score] else [])
  {
    if rows != [] {
      assert (rows + [x])[1..] == rows[1..] + [x];
      ScoresForAppend(rows[1..], x, product);
    }
  }

  /** Replacing a row by one for the same product keeps the number of that
      product's ratings and leaves every other product's scores alone. */
  lemma {:induction false} ScoresForReplace(rows: seq<Rating>, k: nat, x: Rating, product: nat)
    requires k < |rows| && rows[k].product == x.product
    ensures |ScoresFor(rows[k := x], product)| == |ScoresFor(rows, product)|
    ensures product != x.product ==> ScoresFor(rows[k := x], product) == ScoresFor(rows, product)
  {
    if k > 0 {
      assert rows[k := x][1..] == rows[1..][k - 1 := x];
      ScoresForReplace(rows[1..], k - 1, x, product);
    } else {
      assert rows[k := x][1..] == rows[1..];
    }
  }

  /** A product that some user has rated has at least one score. */
  lemma {:induction false} RatedHasScores(rows: seq<Rating>, product: nat, user: nat)
    requires ScoreOf(rows, product, user).Some?
    ensures ScoresFor(rows, product) != []
  {
    if !SameKey(rows[0], product, user) {
      RatedHasScores(rows[1..], product, user);
    }
  }

  lemma {:induction false} IndexOfAppend(rows: seq<Rating>, x: Rating, product: nat, user: nat)
    ensures IndexOf(rows + [x], product, user) ==
      if IndexOf(rows, product, user).Some? then IndexOf(rows, product, user)
      else if SameKey(x, product, user) then Some(|rows|)
      else None
  {
    if rows != [] {
      assert (rows + [x])[1..] == rows[1..] + [x];
      IndexOfAppend(rows[1..], x, product, user);
    }
  }

  lemma {:induction false} IndexOfReplace(rows: seq<Rating>, k: nat, x: Rating, product: nat, user: nat)
    requires k < |rows| && SameKey(x, rows[k].product, rows[k].user)
    ensures IndexOf(rows[k := x], product, user) == IndexOf(rows, product, user)
  {
    if k > 0 {
      assert rows[k := x][1..] == rows[1..][k - 1 := x];
      IndexOfReplace(rows[1..], k - 1, x, product, user);
    }
  }

  /** The Rating table. */
  class RatingTable {
    var rows: seq<Rating>

    ghost predicate Valid()
      reads this
    {
      OnePerUser(rows)
    }

    constructor ()
      ensures Valid() && rows == []
    {
      rows := [];
    }

    /** Rating.objects.update_or_create(product=..., user=..., defaults={'score': ...}):
        the user's existing row for the product gets the new score, or a new
        row is added when there is none. */
    method UpdateOrCreate(product: nat, user: nat, score: int) returns (rating: Rating, created: bool)
      requires Valid()
      modifies this
      ensures Valid()
      ensures rating == Rating(product, user, score)
      ensures created <==> old(ScoreOf(rows, product, user)).None?
      ensures ScoreOf(rows, product, user) == Some(score)
      ensures forall p, u :: !(p == product && u == user) ==> ScoreOf(rows, p, u) == old(ScoreOf(rows, p, u))
      ensures |ScoresFor(rows, product)| == |old(ScoresFor(rows, product))| + (if created then 1 else 0)
      ensures forall p :: p != product ==> ScoresFor(rows, p) == old(ScoresFor(rows, p))
      ensures old(RowsInRange(rows)) && 1 <= score <= 5 ==> RowsInRange(rows)
    {
      rating := Rating(product, user, score);
      var k := IndexOf(rows, product, user);
      ghost var before := rows;
      if k.Some? {
        rows := rows[k.value := rating];
        created := false;
        forall p, u ensures IndexOf(rows, p, u) == IndexOf(before, p, u) {
          IndexOfReplace(before, k.value, rating, p, u);
        }
        forall p ensures |ScoresFor(rows, p)| == |ScoresFor(before, p)|
          && (p != product ==> ScoresFor(rows, p) == ScoresFor(before, p))
        {
          ScoresForReplace(before, k.value, rating, p);
        }
      } else {
        rows := rows + [rating];
        created := true;
        forall p, u ensures IndexOf(rows, p, u) ==
          if IndexOf(before, p, u).Some? then IndexOf(before, p, u)
          else if SameKey(rating, p, u) then Some(|before|) else None
        {
          IndexOfAppend(before, rating, p, u);
        }
        forall p ensures ScoresFor(rows, p) == ScoresFor(before, p) + (if product == p then [score] else []) {
          ScoresForAppend(before, rating, p);
        }
      }
    }
  }

  // ---------------------------------------------------------------------------
  // Aggregates
  // ---------------------------------------------------------------------------

  function Sum(s: seq<int>): int {
    if s == [] then 0 else s[0] + Sum(s[1..])
  }

  /** Avg('score') as update_rating stores it: the exact mean, and 0 when the
      product has no ratings (the "or 0" for a None aggregate). */
  function Mean(s: seq<int>): real {
    if s == [] then 0.0 else Sum(s) as real / |s| as real
  }

  predicate ScoresInRange(s: seq<int>) {
    forall i :: 0 <= i < |s| ==> 1 <= s[i] <= 5
  }

  lemma {:induction false} SumBounds(s: seq<int>)
    requires ScoresInRange(s)
    ensures |s| <= Sum(s) <= 5 * |s|
  {
    if s != [] {
      assert ScoresInRange(s[1..]) by {
        forall i | 0 <= i < |s[1..]| ensures 1 <= s[1..][i] <= 5 {
          assert s[1..][i] == s[i + 1];
        }
      }
      SumBounds(s[1..]);
    }
  }

  /** With every score one of the choices 1..5, a product with ratings has an
      average between 1 and 5. */
  lemma MeanInRange(s: seq<int>)
    requires ScoresInRange(s) && s != []
    ensures 1.0 <= Mean(s) <= 5.0
  {
    SumBounds(s);
    RatioBounds(Sum(s) as real, |s| as real);
  }

  lemma RatioBounds(a: real, n: real)
    requires n > 0.0 && n <= a <= 5.0 * n
    ensures 1.0 <= a / n <= 5.0
  {
    var m := a / n;
    assert m * n == a;
    assert (m - 1.0) * n == a - n;
    assert (5.0 - m) * n == 5.0 * n - a;
    SignOfFactor(m - 1.0, n);
    SignOfFactor(5.0 - m, n);
  }

  lemma SignOfFactor(x: real, n: real)
    requires n > 0.0 && x * n >= 0.0
    ensures x >= 0.0
  {
  }

  /** Every score in the table is one of the choices 1..5. */
  ghost predicate RowsInRange(rows: seq<Rating>) {
    forall i :: 0 <= i < |rows| ==> 1 <= rows[i].score <= 5
  }

  lemma {:induction false} ScoresForInRange(rows: seq<Rating>, product: nat)
    requires RowsInRange(rows)
    ensures ScoresInRange(ScoresFor(rows, product))
  {
    if rows != [] {
      assert RowsInRange(rows[1..]) by {
        forall i | 0 <= i < |rows[1..]| ensures 1 <= rows[1..][i].score <= 5 {
          assert rows[1..][i] == rows[i + 1];
        }
      }
      ScoresForInRange(rows[1..], product);
    }
  }

  // ---------------------------------------------------------------------------
  // Product
  // ---------------------------------------------------------------------------

  class Product {
    const id: nat
    const name: string
    var slug: string
    var inventory: nat
    var weight: nat
    var originalPrice: nat
    /** Percent, or None for a blank discount; the field's validators keep it at most 100 on forms. */
    var discount: Option<nat>
    var discountedPrice: int
    /** The attribute the pre_save receiver in core/shop/signals.py assigns;
        it is not a column of the model, so nothing stores it. */
    var discountPrice: Option<int>
    var views: nat
    var soldCount: nat
    var averageRating: real
    var ratingCount: nat

    /** A product as a form builds it before its first save: the counters and
        the rating start at their field defaults. */
    constructor (id: nat, name: string, slug: string, inventory: nat, weight: nat, originalPrice: nat, discount: Option<nat>)
      ensures this.id == id && this.name == name && this.slug == slug && this.inventory == inventory
      ensures this.weight == weight && this.originalPrice == originalPrice && this.discount == discount
      ensures discountedPrice == 0 && discountPrice.None? && views == 0 && soldCount == 0
      ensures averageRating == 0.0 && ratingCount == 0
    {
      this.id, this.name, this.slug, this.inventory := id, name, slug, inventory;
      this.weight, this.originalPrice, this.discount := weight, originalPrice, discount;
      discountedPrice, discountPrice := 0, None;
      views, soldCount, averageRating, ratingCount := 0, 0, 0.0, 0;
    }

    /** The discount as Python sees it on the instance. */
    function DiscountValue(): Option<int>
      reads this
    {
      if discount.Some? then Some(discount.value as int) else None
    }

    /** discounted_price is a PositiveIntegerField, whose database check
        refuses a negative value. */
    predicate Storable()
      reads this
    {
      DiscountedPrice(originalPrice, DiscountValue()) >= 0
    }

    /** Product.save(): an empty slug is filled from slugify(name), the
        discounted price is recomputed from the original price and the
        discount, and the row is written. slugify is Django's and is passed
        in. A negative discounted price makes the write raise IntegrityError
        (saved is false); the object then stands for the row that stays. */
    method Save(slugify: string -> string) returns (saved: bool)
      modifies this`slug, this`discountedPrice
      ensures saved <==> Storable()
      ensures saved ==> slug == SavedSlug(old(slug), name, slugify) && discountedPrice == DiscountedPrice(originalPrice, DiscountValue())
      ensures !saved ==> slug == old(slug) && discountedPrice == old(discountedPrice)
      ensures discount.None? || discount.value <= 100 ==> saved && 0 <= discountedPrice <= originalPrice
    {
      var price := originalPrice as int;
      if discount.Some? && discount.value != 0 {
        price := TruncDiv(originalPrice * (100 - discount.value), 100);
      }
      if discount.None? || discount.value <= 100 {
        DiscountedPriceBounds(originalPrice, discount);
      }
      if price < 0 {
        return false;
      }
      if slug == "" {
        slug := slugify(name);
      }
      discountedPrice := price;
      saved := true;
    }

    /** Product.update_rating(): the count and the mean of this product's
        ratings, 0 and 0 when it has none. */
    method UpdateRating(table: RatingTable)
      modifies this`averageRating, this`ratingCount
      ensures ratingCount == |ScoresFor(table.rows, id)|
      ensures averageRating == Mean(ScoresFor(table.rows, id))
      ensures ratingCount == 0 ==> averageRating == 0.0
      ensures RowsInRange(table.rows) && ratingCount > 0 ==> 1.0 <= averageRating <= 5.0
    {
      var scores := ScoresFor(table.rows, id);
      averageRating := Mean(scores);
      ratingCount := |scores|;
      if RowsInRange(table.rows) && scores != [] {
        ScoresForInRange(table.rows, id);
        MeanInRange(scores);
      }
    }
  }
}
