/** Record types of the restaurant directory's data layer (restaurant/models.py).

    Rows are values; the tables that hold them are maps from a row's id to the
    row, owned by the store (store.dfy). Decimal fields are held as integers
    scaled by 10^decimal_places: a rating of 4.25 is 425, a latitude of
    37.5 is 37_500_000_000_000. */
module Records {

  type RestaurantId = nat
  type ImageId = nat
  type MenuId = nat
  /** Id of a `RestaurantCategory` row, the target of `Restaurant.category`. */
  type CategoryId = nat
  /** Id of a region row, the target of `Restaurant.region`; the region model
      itself is not part of this model, so only its ids are kept. */
  type RegionId = nat
  type CuisineTypeId = nat
  /** Id of a `RestaurantCategry` row (the cuisine-typed category). */
  type CuisineCategoryId = nat

  datatype Option<+T> = None | Some(value: T)

  datatype Result<+R, +E> = Ok(value: R) | Err(error: E)

  /** A `Restaurant` row. `rating` is in hundredths, `latitude` and
      `longitude` in units of 10^-12 degree. */
  datatype Restaurant = Restaurant(
    name: string,
    branchName: Option<string>,
    description: Option<string>,
    address: string,
    feature: Option<string>,
    isClosed: bool,
    latitude: int,
    longitude: int,
    phone: string,
    rating: int,
    ratingCount: int,
    category: Option<CategoryId>,
    region: Option<RegionId>)

  /** A `RestrantImage` row (the binary image itself is held by the storage
      service and is not modelled). */
  datatype Image = Image(
    restaurant: RestaurantId,
    isRepresentative: bool,
    name: Option<string>,
    order: int)

  /** A `RestaurantMenu` row. */
  datatype Menu = Menu(restaurant: RestaurantId, name: string, price: int)

  /** A `RestaurantCategry` row: a named category that may point at a cuisine type. */
  datatype CuisineCategory = CuisineCategory(name: string, cuisineType: Option<CuisineTypeId>)

  /** The model fields whose validators can reject a value. */
  datatype Field =
    | NameField | BranchNameField | AddressField | FeatureField | PhoneField
    | LatitudeField | LongitudeField | RatingField | RatingCountField
    | CategoryField | RegionField
    | RestaurantField | OrderField | PriceField | CuisineTypeField

  /** A key of the error dictionary carried by the ValidationError that
      `full_clean` raises: one per failing field, and the non-field key
      under which errors raised by `clean` are filed. */
  datatype ErrorKey = FieldKey(field: Field) | NonFieldErrors

  /** What `clean` decides: accept, or raise a ValidationError with a message. */
  datatype Outcome = Pass | Fail(message: string)
}
