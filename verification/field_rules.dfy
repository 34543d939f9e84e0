/** The per-field validators that `clean_fields` runs on each model
    (restaurant/models.py): length limits of CharFields, blank rules, digit
    limits of DecimalFields and the lower bound of Positive*IntegerFields.
    Foreign keys are checked against the tables in store.dfy. */
module FieldRules {
  import opened Records

  function Pow10(n: nat): (p: int)
    ensures p >= 1
  {
    if n == 0 then 1 else 10 * Pow10(n - 1)
  }

  /** A DecimalField with `max_digits` = maxDigits whose value is held scaled
      by 10^decimal_places (so it has no more fractional digits than allowed)
      passes Django's DecimalValidator exactly when it has at most maxDigits
      digits, that is, when its magnitude is below 10^maxDigits. */
  predicate DecimalFits(scaled: int, maxDigits: nat)
  {
    -Pow10(maxDigits) < scaled < Pow10(maxDigits)
  }

  /** `rating`: max_digits=3, decimal_places=2. */
  const RatingMaxDigits: nat := 3
  /** `latitude`, `longitude`: max_digits=16, decimal_places=12. */
  const CoordinateMaxDigits: nat := 16

  /** A CharField with blank=False: required, non-empty and at most maxLength long. */
  predicate RequiredCharFits(s: string, maxLength: nat)
  {
    0 < |s| <= maxLength
  }

  /** A CharField with null=True, blank=True: absent, or at most maxLength long. */
  predicate OptionalCharFits(s: Option<string>, maxLength: nat)
  {
    s.None? || |s.value| <= maxLength
  }

  /** The rating check in plain bounds: hundredths in [-999, 999], i.e. a
      rating of at most 9.99 in magnitude; 10.00 already has four digits. */
  lemma {:induction false} RatingFitsIff(rating: int)
    ensures DecimalFits(rating, RatingMaxDigits) <==> -999 <= rating <= 999
  {
    assert Pow10(0) == 1;
    assert Pow10(1) == 10;
    assert Pow10(2) == 100;
    assert Pow10(3) == 1000;
  }

  /** The restaurant fields that carry a validator other than a foreign-key check. */
  const RestaurantFields: set<Field> :=
    {NameField, BranchNameField, AddressField, FeatureField, PhoneField,
     LatitudeField, LongitudeField, RatingField, RatingCountField}

  /** Whether the value of field f of r passes that field's validators. */
  predicate RestaurantFieldOk(r: Restaurant, f: Field)
  {
    match f
    case NameField => RequiredCharFits(r.name, 100)
    case BranchNameField => OptionalCharFits(r.branchName, 100)
    case AddressField => RequiredCharFits(r.address, 255)
    case FeatureField => OptionalCharFits(r.feature, 255)
    case PhoneField => RequiredCharFits(r.phone, 16)
    case LatitudeField => DecimalFits(r.latitude, CoordinateMaxDigits)
    case LongitudeField => DecimalFits(r.longitude, CoordinateMaxDigits)
    case RatingField => DecimalFits(r.rating, RatingMaxDigits)
    case RatingCountField => r.ratingCount >= 0
    case _ => true
  }

  /** Every validated field of r passes. */
  predicate RestaurantFieldsValid(r: Restaurant)
  {
    forall f | f in RestaurantFields :: RestaurantFieldOk(r, f)
  }

  /** The fields of a restaurant that fail their own validators (foreign keys excluded). */
  function RestaurantFieldErrors(r: Restaurant): (bad: set<Field>)
    ensures bad <= RestaurantFields
    ensures bad == {} <==> RestaurantFieldsValid(r)
    ensures RatingField in bad <==> r.rating < -999 || 999 < r.rating
    ensures RatingCountField in bad <==> r.ratingCount < 0
    ensures PhoneField in bad <==> |r.phone| == 0 || 16 < |r.phone|
    ensures NameField in bad <==> |r.name| == 0 || 100 < |r.name|
    ensures AddressField in bad <==> |r.address| == 0 || 255 < |r.address|
  {
    RatingFitsIff(r.rating);
    var bad := set f | f in RestaurantFields && !RestaurantFieldOk(r, f);
    assert forall f | f in RestaurantFields :: f in bad <==> !RestaurantFieldOk(r, f);
    bad
  }

  /** An image's name fits and its order is not negative. */
  predicate ImageFieldsValid(img: Image)
  {
    OptionalCharFits(img.name, 100) && img.order >= 0
  }

  /** The fields of an image that fail their own validators (the restaurant key excluded). */
  function ImageFieldErrors(img: Image): (bad: set<Field>)
    ensures bad <= {NameField, OrderField}
    ensures bad == {} <==> ImageFieldsValid(img)
    ensures OrderField in bad <==> img.order < 0
    ensures NameField in bad <==> img.name.Some? && 100 < |img.name.value|
  {
    (if OptionalCharFits(img.name, 100) then {} else {NameField})
    + (if img.order >= 0 then {} else {OrderField})
  }

  /** A menu's name is given and fits, and its price is not negative. */
  predicate MenuFieldsValid(m: Menu)
  {
    RequiredCharFits(m.name, 100) && m.price >= 0
  }

  /** The fields of a menu that fail their own validators (the restaurant key excluded). */
  function MenuFieldErrors(m: Menu): (bad: set<Field>)
    ensures bad <= {NameField, PriceField}
    ensures bad == {} <==> MenuFieldsValid(m)
    ensures PriceField in bad <==> m.price < 0
    ensures NameField in bad <==> |m.name| == 0 || 100 < |m.name|
  {
    (if RequiredCharFits(m.name, 100) then {} else {NameField})
    + (if m.price >= 0 then {} else {PriceField})
  }

  /** The fields of a `RestaurantCategry` row that fail their own validators
      (the cuisine-type key excluded). */
  function CuisineCategoryFieldErrors(c: CuisineCategory): (bad: set<Field>)
    ensures bad <= {NameField}
    ensures bad == {} <==> RequiredCharFits(c.name, 20)
    ensures NameField in bad <==> |c.name| == 0 || 20 < |c.name|
  {
    if RequiredCharFits(c.name, 20) then {} else {NameField}
  }
}
