/** The record store behind restaurant/models.py: one table per model, the
    `full_clean` that a validated save runs before writing, and the delete
    operations with the on_delete policies of the foreign keys. */
module Store {
  import opened Records
  import opened FieldRules
  import opened Representative
  import opened OnDelete

  /** The error-dictionary keys of a set of failing fields. */
  function FieldKeys(fields: set<Field>): (keys: set<ErrorKey>)
    ensures keys == {} <==> fields == {}
    ensures forall f :: FieldKey(f) in keys <==> f in fields
    ensures NonFieldErrors !in keys
  {
    var keys := set f | f in fields :: FieldKey(f);
    assert fields != {} ==> exists f :: f in fields && FieldKey(f) in keys;
    keys
  }

  /** A restaurant row that passes `full_clean`: its fields are valid and
      its category and region, when set, name existing rows. */
  predicate RestaurantOk(categoryIds: set<CategoryId>, regionIds: set<RegionId>, r: Restaurant)
  {
    RestaurantFieldsValid(r)
    && (r.category.Some? ==> r.category.value in categoryIds)
    && (r.region.Some? ==> r.region.value in regionIds)
  }

  /** A stored image row: valid fields and an existing restaurant. */
  predicate ImageOk(restaurantIds: set<RestaurantId>, img: Image)
  {
    img.restaurant in restaurantIds && ImageFieldsValid(img)
  }

  /** A menu row that passes `full_clean`. */
  predicate MenuOk(restaurantIds: set<RestaurantId>, m: Menu)
  {
    m.restaurant in restaurantIds && MenuFieldsValid(m)
  }

  /** A `RestaurantCategry` row that passes `full_clean`. */
  predicate CuisineCategoryOk(cuisineTypeIds: set<CuisineTypeId>, c: CuisineCategory)
  {
    RequiredCharFits(c.name, 20) && (c.cuisineType.Some? ==> c.cuisineType.value in cuisineTypeIds)
  }

  /** The error keys `full_clean` reports for a restaurant: its own field
      validators, and the category and region keys, which must name existing rows. */
  function RestaurantErrors(categoryIds: set<CategoryId>, regionIds: set<RegionId>, r: Restaurant)
    : (errors: set<ErrorKey>)
    ensures errors == {} <==> RestaurantOk(categoryIds, regionIds, r)
    ensures errors == {} ==> -999 <= r.rating <= 999 && r.ratingCount >= 0 && 0 < |r.phone| <= 16
    ensures NonFieldErrors !in errors
  {
    FieldKeys(RestaurantFieldErrors(r))
    + (if r.category.None? || r.category.value in categoryIds then {} else {FieldKey(CategoryField)})
    + (if r.region.None? || r.region.value in regionIds then {} else {FieldKey(RegionField)})
  }

  /** The error keys `full_clean` reports for an image: its field validators,
      the restaurant key, and the non-field key when `clean` rejects it. When
      the restaurant does not exist `clean` cannot run (its lookup of
      `self.restaurant` fails), so only the restaurant key is reported. */
  function ImageErrors(restaurantIds: set<RestaurantId>, images: map<ImageId, Image>,
                       id: Option<ImageId>, img: Image): (errors: set<ErrorKey>)
    ensures errors == {} <==> ImageOk(restaurantIds, img) && Clean(images, id, img) == Pass
    ensures FieldKey(RestaurantField) in errors <==> img.restaurant !in restaurantIds
    ensures FieldKey(OrderField) in errors <==> img.order < 0
    ensures NonFieldErrors in errors <==> img.restaurant in restaurantIds && Clean(images, id, img).Fail?
  {
    FieldKeys(ImageFieldErrors(img))
    + (if img.restaurant in restaurantIds then {} else {FieldKey(RestaurantField)})
    + (if img.restaurant in restaurantIds && Clean(images, id, img).Fail? then {NonFieldErrors} else {})
  }

  /** The error keys `full_clean` reports for a menu. */
  function MenuErrors(restaurantIds: set<RestaurantId>, m: Menu): (errors: set<ErrorKey>)
    ensures errors == {} <==> MenuOk(restaurantIds, m)
    ensures errors == {} ==> m.price >= 0
  {
    FieldKeys(MenuFieldErrors(m))
    + (if m.restaurant in restaurantIds then {} else {FieldKey(RestaurantField)})
  }

  /** The error keys `full_clean` reports for a `RestaurantCategry` row. */
  function CuisineCategoryErrors(cuisineTypeIds: set<CuisineTypeId>, c: CuisineCategory)
    : (errors: set<ErrorKey>)
    ensures errors == {} <==> CuisineCategoryOk(cuisineTypeIds, c)
  {
    FieldKeys(CuisineCategoryFieldErrors(c))
    + (if c.cuisineType.None? || c.cuisineType.value in cuisineTypeIds then {} else {FieldKey(CuisineTypeField)})
  }

  /** The key a save writes at: the given primary key, or the next id the
      database would hand out for a row without one. */
  function KeyFor(id: Option<nat>, nextId: nat): nat
  {
    if id.Some? then id.value else nextId
  }

  /** The next free id after a row was written at key k. */
  function NextAfter(k: nat, nextId: nat): (next: nat)
    ensures k < next && nextId <= next
  {
    if k < nextId then nextId else k + 1
  }

  /** Every restaurant passes `full_clean` against the category and region tables. */
  ghost predicate RestaurantsValid(restaurants: map<RestaurantId, Restaurant>,
                                   categoryIds: set<CategoryId>, regionIds: set<RegionId>)
  {
    forall k | k in restaurants :: RestaurantOk(categoryIds, regionIds, restaurants[k])
  }

  /** At most one representative per restaurant, and every image passes its
      field validators and belongs to an existing restaurant. */
  ghost predicate ImagesValid(images: map<ImageId, Image>, restaurantIds: set<RestaurantId>)
  {
    AtMostOneRepresentative(images)
    && forall k | k in images :: ImageOk(restaurantIds, images[k])
  }

  /** Every menu passes `full_clean` against the restaurant table. */
  ghost predicate MenusValid(menus: map<MenuId, Menu>, restaurantIds: set<RestaurantId>)
  {
    forall k | k in menus :: MenuOk(restaurantIds, menus[k])
  }

  /** Every `RestaurantCategry` row passes `full_clean` against the cuisine-type table. */
  ghost predicate CuisineCategoriesValid(rows: map<CuisineCategoryId, CuisineCategory>,
                                         cuisineTypeIds: set<CuisineTypeId>)
  {
    forall k | k in rows :: CuisineCategoryOk(cuisineTypeIds, rows[k])
  }

  ghost predicate Below(ids: set<nat>, bound: nat)
  {
    forall k | k in ids :: k < bound
  }

  /** A save that passes `full_clean` keeps the image table valid: this is
      the representative rule carried over from `clean` to the table. */
  lemma SaveImageKeepsValid(images: map<ImageId, Image>, restaurantIds: set<RestaurantId>,
                            id: Option<ImageId>, img: Image, k: ImageId)
    requires ImagesValid(images, restaurantIds)
    requires WritesAt(images, id, k)
    requires ImageErrors(restaurantIds, images, id, img) == {}
    ensures ImagesValid(images[k := img], restaurantIds)
  {
    CleanIsExactGuard(images, id, img, k);
  }

  /** Deleting a restaurant with its images keeps the image table valid
      against the remaining restaurants. */
  lemma CascadeImagesKeepsValid(images: map<ImageId, Image>, restaurantIds: set<RestaurantId>, r: RestaurantId)
    requires ImagesValid(images, restaurantIds)
    ensures ImagesValid(CascadeImages(images, r), restaurantIds - {r})
  {
    var kept := CascadeImages(images, r);
    forall i, j | i in kept && j in kept
      && kept[i].isRepresentative && kept[j].isRepresentative
      && kept[i].restaurant == kept[j].restaurant
      ensures i == j
    {
      assert images[i] == kept[i] && images[j] == kept[j];
    }
  }

  /** Deleting a restaurant with its menus keeps the menu table valid
      against the remaining restaurants. */
  lemma CascadeMenusKeepsValid(menus: map<MenuId, Menu>, restaurantIds: set<RestaurantId>, r: RestaurantId)
    requires MenusValid(menus, restaurantIds)
    ensures MenusValid(CascadeMenus(menus, r), restaurantIds - {r})
  {
    var kept := CascadeMenus(menus, r);
    forall k | k in kept ensures MenuOk(restaurantIds - {r}, kept[k]) {
      assert kept[k] == menus[k] && MenuOk(restaurantIds, menus[k]);
    }
  }

  /** Deleting a cuisine type with its `RestaurantCategry` rows keeps that
      table valid against the remaining cuisine types. */
  lemma CascadeCuisineCategoriesKeepsValid(rows: map<CuisineCategoryId, CuisineCategory>,
                                           cuisineTypeIds: set<CuisineTypeId>, t: CuisineTypeId)
    requires CuisineCategoriesValid(rows, cuisineTypeIds)
    ensures CuisineCategoriesValid(CascadeCuisineCategories(rows, t), cuisineTypeIds - {t})
  {
    var kept := CascadeCuisineCategories(rows, t);
    forall k | k in kept ensures CuisineCategoryOk(cuisineTypeIds - {t}, kept[k]) {
      assert kept[k] == rows[k] && CuisineCategoryOk(cuisineTypeIds, rows[k]);
    }
  }

  /** Clearing the references to a deleted category keeps every restaurant
      valid against the remaining categories. */
  lemma ClearCategoryKeepsValid(restaurants: map<RestaurantId, Restaurant>,
                                categoryIds: set<CategoryId>, regionIds: set<RegionId>, c: CategoryId)
    requires RestaurantsValid(restaurants, categoryIds, regionIds)
    ensures RestaurantsValid(ClearCategory(restaurants, c), categoryIds - {c}, regionIds)
  {
    var after := ClearCategory(restaurants, c);
    forall k | k in after ensures RestaurantOk(categoryIds - {c}, regionIds, after[k]) {
      assert RestaurantOk(categoryIds, regionIds, restaurants[k]);
      assert forall f :: RestaurantFieldOk(after[k], f) == RestaurantFieldOk(restaurants[k], f);
    }
  }

  /** Clearing the references to a deleted region keeps every restaurant
      valid against the remaining regions. */
  lemma ClearRegionKeepsValid(restaurants: map<RestaurantId, Restaurant>,
                              categoryIds: set<CategoryId>, regionIds: set<RegionId>, g: RegionId)
    requires RestaurantsValid(restaurants, categoryIds, regionIds)
    ensures RestaurantsValid(ClearRegion(restaurants, g), categoryIds, regionIds - {g})
  {
    var after := ClearRegion(restaurants, g);
    forall k | k in after ensures RestaurantOk(categoryIds, regionIds - {g}, after[k]) {
      assert RestaurantOk(categoryIds, regionIds, restaurants[k]);
      assert forall f :: RestaurantFieldOk(after[k], f) == RestaurantFieldOk(restaurants[k], f);
    }
  }

  /** A set whose elements are all equal to one another has at most one element. */
  lemma AtMostOneElement(s: set<ImageId>)
    requires forall i, j | i in s && j in s :: i == j
    ensures |s| <= 1
  {
    if s != {} {
      var x :| x in s;
      assert s == {x};
    }
  }

  class Store {
    var restaurants: map<RestaurantId, Restaurant>
    var images: map<ImageId, Image>
    var menus: map<MenuId, Menu>
    var categories: set<CategoryId>
    var regions: set<RegionId>
    var cuisineTypes: set<CuisineTypeId>
    var cuisineCategories: map<CuisineCategoryId, CuisineCategory>
    /** Every id in use in any table is below nextId. */
    var nextId: nat

    /** The store invariant: at most one representative image per
        restaurant, every stored row passes its field validators, every
        foreign key names an existing row, and nextId is fresh. */
    ghost predicate Valid()
      reads this
    {
      RestaurantsValid(restaurants, categories, regions)
      && ImagesValid(images, restaurants.Keys)
      && MenusValid(menus, restaurants.Keys)
      && CuisineCategoriesValid(cuisineCategories, cuisineTypes)
      && Below(restaurants.Keys, nextId) && Below(images.Keys, nextId)
      && Below(menus.Keys, nextId) && Below(cuisineCategories.Keys, nextId)
      && Below(categories, nextId) && Below(regions, nextId) && Below(cuisineTypes, nextId)
    }

    /** What the invariant promises of every stored row: a rating of at
        most 9.99 in magnitude, counts, orders and prices that are not
        negative, a phone of at most 16 characters, and images and menus
        that belong to an existing restaurant. */
    lemma StoredValuesInRange()
      requires Valid()
      ensures forall k | k in restaurants ::
        -999 <= restaurants[k].rating <= 999 && restaurants[k].ratingCount >= 0
        && 0 < |restaurants[k].phone| <= 16
      ensures forall k | k in images :: images[k].order >= 0 && images[k].restaurant in restaurants
      ensures forall k | k in menus :: menus[k].price >= 0 && menus[k].restaurant in restaurants
    {
      forall k | k in restaurants
        ensures -999 <= restaurants[k].rating <= 999 && restaurants[k].ratingCount >= 0
      {
        assert RestaurantOk(categories, regions, restaurants[k]);
        RatingFitsIff(restaurants[k].rating);
        assert RestaurantFieldOk(restaurants[k], RatingField);
        assert RestaurantFieldOk(restaurants[k], RatingCountField);
      }
      forall k | k in menus ensures menus[k].price >= 0 && menus[k].restaurant in restaurants {
        assert MenuOk(restaurants.Keys, menus[k]);
      }
    }

    constructor ()
      ensures Valid()
      ensures restaurants == map[] && images == map[] && menus == map[]
      ensures categories == {} && regions == {} && cuisineTypes == {} && cuisineCategories == map[]
    {
      restaurants, images, menus := map[], map[], map[];
      categories, regions, cuisineTypes, cuisineCategories := {}, {}, {}, map[];
      nextId := 0;
    }

    /** Inserts a `RestaurantCategory` row and returns its id. */
    method AddCategory() returns (c: CategoryId)
      requires Valid()
      modifies this`categories, this`nextId
      ensures Valid()
      ensures c !in old(categories) && categories == old(categories) + {c}
    {
      c := nextId;
      categories := categories + {c};
      nextId := nextId + 1;
    }

    /** Inserts a region row and returns its id. */
    method AddRegion() returns (g: RegionId)
      requires Valid()
      modifies this`regions, this`nextId
      ensures Valid()
      ensures g !in old(regions) && regions == old(regions) + {g}
    {
      g := nextId;
      regions := regions + {g};
      nextId := nextId + 1;
    }

    /** Inserts a `CuisineType` row and returns its id. */
    method AddCuisineType() returns (t: CuisineTypeId)
      requires Valid()
      modifies this`cuisineTypes, this`nextId
      ensures Valid()
      ensures t !in old(cuisineTypes) && cuisineTypes == old(cuisineTypes) + {t}
    {
      t := nextId;
      cuisineTypes := cuisineTypes + {t};
      nextId := nextId + 1;
    }

    /** `full_clean()` then `save()` of a restaurant: id None inserts a new
        row, Some(k) writes row k (an update, or an insert under that key). */
    method SaveRestaurant(id: Option<RestaurantId>, r: Restaurant)
      returns (result: Result<RestaurantId, set<ErrorKey>>)
      requires Valid()
      modifies this`restaurants, this`nextId
      ensures Valid()
      ensures var errors := RestaurantErrors(categories, regions, r);
              var k := KeyFor(id, old(nextId));
              if errors == {} then
                result == Ok(k) && restaurants == old(restaurants)[k := r]
                && nextId == NextAfter(k, old(nextId))
              else
                result == Err(errors) && restaurants == old(restaurants) && nextId == old(nextId)
    {
      var errors := RestaurantErrors(categories, regions, r);
      if errors != {} {
        return Err(errors);
      }
      var k := KeyFor(id, nextId);
      restaurants := restaurants[k := r];
      nextId := NextAfter(k, nextId);
      result := Ok(k);
    }

    /** `full_clean()` then `save()` of an image: the field validators and
        `RestrantImage.clean` run first, and the row is written only when
        they all pass; a rejected save leaves every table unchanged. */
    method SaveImage(id: Option<ImageId>, img: Image)
      returns (result: Result<ImageId, set<ErrorKey>>)
      requires Valid()
      modifies this`images, this`nextId
      ensures Valid()
      ensures var errors := ImageErrors(restaurants.Keys, old(images), id, img);
              var k := KeyFor(id, old(nextId));
              if errors == {} then
                result == Ok(k) && images == old(images)[k := img]
                && nextId == NextAfter(k, old(nextId))
              else
                result == Err(errors) && images == old(images) && nextId == old(nextId)
    {
      var errors := ImageErrors(restaurants.Keys, images, id, img);
      if errors != {} {
        return Err(errors);
      }
      var k := KeyFor(id, nextId);
      SaveImageKeepsValid(images, restaurants.Keys, id, img, k);
      images := images[k := img];
      nextId := NextAfter(k, nextId);
      result := Ok(k);
    }

    /** `full_clean()` then `save()` of a menu. */
    method SaveMenu(id: Option<MenuId>, m: Menu)
      returns (result: Result<MenuId, set<ErrorKey>>)
      requires Valid()
      modifies this`menus, this`nextId
      ensures Valid()
      ensures var errors := MenuErrors(restaurants.Keys, m);
              var k := KeyFor(id, old(nextId));
              if errors == {} then
                result == Ok(k) && menus == old(menus)[k := m]
                && nextId == NextAfter(k, old(nextId))
              else
                result == Err(errors) && menus == old(menus) && nextId == old(nextId)
    {
      var errors := MenuErrors(restaurants.Keys, m);
      if errors != {} {
        return Err(errors);
      }
      var k := KeyFor(id, nextId);
      menus := menus[k := m];
      nextId := NextAfter(k, nextId);
      result := Ok(k);
    }

    /** `full_clean()` then `save()` of a `RestaurantCategry` row. */
    method SaveCuisineCategory(id: Option<CuisineCategoryId>, c: CuisineCategory)
      returns (result: Result<CuisineCategoryId, set<ErrorKey>>)
      requires Valid()
      modifies this`cuisineCategories, this`nextId
      ensures Valid()
      ensures var errors := CuisineCategoryErrors(cuisineTypes, c);
              var k := KeyFor(id, old(nextId));
              if errors == {} then
                result == Ok(k) && cuisineCategories == old(cuisineCategories)[k := c]
                && nextId == NextAfter(k, old(nextId))
              else
                result == Err(errors) && cuisineCategories == old(cuisineCategories) && nextId == old(nextId)
    {
      var errors := CuisineCategoryErrors(cuisineTypes, c);
      if errors != {} {
        return Err(errors);
      }
      var k := KeyFor(id, nextId);
      cuisineCategories := cuisineCategories[k := c];
      nextId := NextAfter(k, nextId);
      result := Ok(k);
    }

    /** `restaurant.restrantimage_set.filter(is_representative=True)` as a
        query on the store: the representative images of restaurant r, of
        which the invariant allows at most one. */
    method RepresentativeImages(r: RestaurantId) returns (ids: set<ImageId>)
      requires Valid()
      ensures forall k :: k in ids <==> k in images && images[k].restaurant == r && images[k].isRepresentative
      ensures |ids| <= 1
    {
      ids := RepresentativesOf(images, r);
      AtMostOneElement(ids);
    }

    /** Deletes restaurant r; its images and menus go with it (CASCADE). */
    method DeleteRestaurant(r: RestaurantId)
      requires Valid()
      modifies this`restaurants, this`images, this`menus
      ensures Valid()
      ensures restaurants == old(restaurants) - {r}
      ensures images == CascadeImages(old(images), r)
      ensures menus == CascadeMenus(old(menus), r)
    {
      CascadeImagesKeepsValid(images, restaurants.Keys, r);
      CascadeMenusKeepsValid(menus, restaurants.Keys, r);
      assert (restaurants - {r}).Keys == restaurants.Keys - {r};
      restaurants := restaurants - {r};
      images := CascadeImages(images, r);
      menus := CascadeMenus(menus, r);
    }

    /** Deletes category c; restaurants that pointed at it keep existing
        with `category` cleared (SET_NULL). */
    method DeleteCategory(c: CategoryId)
      requires Valid()
      modifies this`categories, this`restaurants
      ensures Valid()
      ensures categories == old(categories) - {c}
      ensures restaurants == ClearCategory(old(restaurants), c)
    {
      ClearCategoryKeepsValid(restaurants, categories, regions, c);
      categories := categories - {c};
      ghost var ids := restaurants.Keys;
      restaurants := ClearCategory(restaurants, c);
      assert restaurants.Keys == ids;
    }

    /** Deletes region g; restaurants that pointed at it keep existing
        with `region` cleared (SET_NULL). */
    method DeleteRegion(g: RegionId)
      requires Valid()
      modifies this`regions, this`restaurants
      ensures Valid()
      ensures regions == old(regions) - {g}
      ensures restaurants == ClearRegion(old(restaurants), g)
    {
      ClearRegionKeepsValid(restaurants, categories, regions, g);
      regions := regions - {g};
      ghost var ids := restaurants.Keys;
      restaurants := ClearRegion(restaurants, g);
      assert restaurants.Keys == ids;
    }

    /** Deletes cuisine type t; the `RestaurantCategry` rows that pointed at
        it go with it (CASCADE). */
    method DeleteCuisineType(t: CuisineTypeId)
      requires Valid()
      modifies this`cuisineTypes, this`cuisineCategories
      ensures Valid()
      ensures cuisineTypes == old(cuisineTypes) - {t}
      ensures cuisineCategories == CascadeCuisineCategories(old(cuisineCategories), t)
    {
      CascadeCuisineCategoriesKeepsValid(cuisineCategories, cuisineTypes, t);
      cuisineTypes := cuisineTypes - {t};
      cuisineCategories := CascadeCuisineCategories(cuisineCategories, t);
    }
  }

  /** A fresh store holding two valid restaurants and no image. */
  method TwoRestaurants() returns (s: Store, r1: RestaurantId, r2: RestaurantId)
    ensures fresh(s) && s.Valid()
    ensures r1 in s.restaurants && r2 in s.restaurants && r1 != r2
    ensures s.images == map[]
  {
    s := new Store();
    var saved := s.SaveRestaurant(None, Restaurant("본스테이크", Some("강남점"), None, "서울 강남구",
                                                   None, false, 0, 0, "+821012345678", 450, 2, None, None));
    assert saved.Ok?;
    r1 := saved.value;
    saved := s.SaveRestaurant(None, Restaurant("본스테이크", None, None, "서울 중구",
                                               None, false, 0, 0, "+8227771234", 0, 0, None, None));
    assert saved.Ok?;
    r2 := saved.value;
  }

  /** A client that sees only the contracts above: a second representative
      image for a restaurant is refused and the first stays the only one;
      re-saving the representative itself is accepted. */
  method SecondRepresentativeScenario()
  {
    var s, r1, r2 := TwoRestaurants();
    var first := s.SaveImage(None, Image(r1, true, None, 0));
    assert first.Ok?;
    var a := first.value;
    assert s.images == map[a := Image(r1, true, None, 0)];
    assert s.images[a].restaurant == r1 && s.images[a].isRepresentative;
    var second := s.SaveImage(None, Image(r1, true, None, 1));
    assert second.Err? && NonFieldErrors in second.error;
    var reps := s.RepresentativeImages(r1);
    assert reps == {a};
    var again := s.SaveImage(Some(a), Image(r1, true, Some("main"), 0));
    assert again == Ok(a);
  }

  /** Un-marking the representative frees the slot for another image, and
      a representative image of another restaurant is unaffected. */
  method ReleaseRepresentativeScenario()
  {
    var s, r1, r2 := TwoRestaurants();
    var first := s.SaveImage(None, Image(r1, true, None, 0));
    assert first.Ok?;
    var a := first.value;
    var unmark := s.SaveImage(Some(a), Image(r1, false, None, 0));
    assert unmark == Ok(a);
    assert s.images == map[a := Image(r1, false, None, 0)];
    var next := s.SaveImage(None, Image(r1, true, None, 1));
    assert next.Ok?;
    assert s.images == map[a := Image(r1, false, None, 0), next.value := Image(r1, true, None, 1)];
    var elsewhere := s.SaveImage(None, Image(r2, true, None, 0));
    assert elsewhere.Ok?;
  }

  /** A rating is accepted up to 9.99 in magnitude, negative ratings
      included, and refused from 10.00 on. */
  method RatingScenario()
  {
    var s := new Store();
    var steak := Restaurant("본스테이크", Some("강남점"), None, "서울 강남구", None, false,
                            0, 0, "+821012345678", 999, 0, None, None);
    var top := s.SaveRestaurant(None, steak);
    assert top.Ok?;
    var negative := s.SaveRestaurant(None, steak.(rating := -999));
    assert negative.Ok?;
    var tooHigh := s.SaveRestaurant(None, steak.(rating := 1000));
    assert tooHigh.Err? && FieldKey(RatingField) in tooHigh.error;
  }

  /** A client of the deletions: deleting a category keeps its restaurant
      with the reference cleared; deleting the restaurant takes its images
      and menus with it. */
  method DeletionScenario()
  {
    var s := new Store();
    var cat := s.AddCategory();
    var steak := Restaurant("본스테이크", Some("강남점"), None, "서울 강남구", None, false,
                            0, 0, "+821012345678", 450, 2, Some(cat), None);
    var saved := s.SaveRestaurant(None, steak);
    assert saved.Ok?;
    var r := saved.value;
    var image := s.SaveImage(None, Image(r, true, None, 0));
    assert image.Ok?;
    var menu := s.SaveMenu(None, Menu(r, "등심 스테이크", 32000));
    assert menu.Ok?;

    s.DeleteCategory(cat);
    assert s.restaurants[r] == steak.(category := None);

    s.DeleteRestaurant(r);
    assert r !in s.restaurants && image.value !in s.images && menu.value !in s.menus;
  }
}
