# Restaurant directory records: representative image and deletion policies

A Dafny model of the data layer of a restaurant-directory web application
(`restaurant/models.py`, a set of Django models). The model covers:

- the record types `Restaurant`, `RestrantImage`, `RestaurantMenu` and
  `RestaurantCategry`, with the validators of their fields (`records.dfy`,
  `field_rules.dfy`);
- `RestrantImage.clean`, the rule that no restaurant may have two
  representative images (`representative.dfy`);
- the `on_delete` policies of the foreign keys: CASCADE from a restaurant to
  its images and menus, and from a cuisine type to its `RestaurantCategry`
  rows; SET_NULL from a category or a region to the restaurants that point at
  it (`on_delete.dfy`);
- a `Store` class that holds one table per model and saves through
  `full_clean` (field validators plus `clean`) before writing, as a Django
  form or the admin does (`store.dfy`).

Tables are maps from a row's id to the row. An unsaved image has no id
(`None`), and Django's `filter(id=None)` matches no row. Decimal fields are
integers scaled by `10^decimal_places`: a rating of 4.50 is `450`.

The central results:

- `Representative.CleanIsExactGuard` starts from a table with at most one
  representative image per restaurant. On such a table, `clean` accepts a
  candidate exactly when writing the candidate at its key still leaves at
  most one representative per restaurant. `clean` is therefore neither too
  strict nor too lax.
- `Store.Store.Valid` is the store invariant, and every store method
  preserves it. It says: at most one representative image per restaurant;
  every stored row passes its validators; every foreign key names an
  existing row.

A rating is meant to lie between 0 and 9.99, but the field at
`restaurant/models.py:49-55` declares no minimum validator. This model
follows the code: ratings from -9.99 to 9.99 are accepted. The comments at lines 51-52
list 10.99 and 999.99 as examples of valid ratings. With `max_digits=3` and
`decimal_places=2`, both are refused, and the model refuses them too.
`FieldRules.RatingFitsIff` states the exact bound.

## Model

| member | source | states |
|---|---|---|
| `Representative.Clean` | restaurant/models.py:144-150 | A non-representative candidate always passes. A rejection carries the "only one representative image" message. A rejection always has an existing representative of the same restaurant that is not the candidate. An accepted representative candidate either already is a representative of that restaurant, or the restaurant has no representative. |
| `Representative.CleanIsExactGuard` | restaurant/models.py:143-150 | Assume at most one representative per restaurant, and a candidate written at its own id or at a fresh key. Then `clean` passes if and only if the table after the write still has at most one representative per restaurant. |
| `Representative.ResaveRepresentativePasses` | restaurant/models.py:149 | Re-saving the current representative of a restaurant with the flag still set passes `clean`, and writing it back unchanged leaves the table as it was (idempotent). |
| `Representative.CleanIgnoresOtherRestaurants` | restaurant/models.py:145 | Adding images of other restaurants to the table never changes the decision of `clean`. Only the candidate's own restaurant is examined. |
| `Representative.WriteWithoutClean` | restaurant/models.py:125-134 | A plain `save()` writes the row at its key and leaves every other row untouched; it runs no check. |
| `Representative.WriteWithoutCleanAdmitsSecondRepresentative` | restaurant/models.py:143-150 | Take a table with one representative image of restaurant 7. `clean` rejects a second one, but writing it without `clean` leaves restaurant 7 with two. |
| `FieldRules.RatingFitsIff` | restaurant/models.py:49-55 | A rating in hundredths passes the `max_digits=3, decimal_places=2` validator iff it lies in [-999, 999], i.e. at most 9.99 in magnitude. |
| `FieldRules.RestaurantFieldErrors` | restaurant/models.py:23-56 | The failing fields are exactly those whose validator fails. These include: rating outside [-999, 999] hundredths; a negative `rating_count`; a phone that is empty or longer than 16; a name empty or longer than 100; an address empty or longer than 255. No failing field means every field validator passes. |
| `FieldRules.ImageFieldErrors` | restaurant/models.py:129-132 | `order` fails iff it is negative. `name` fails iff it is given and longer than 100. No failing field iff both pass. |
| `FieldRules.MenuFieldErrors` | restaurant/models.py:153-155 | `price` fails iff it is negative. `name` fails iff it is empty or longer than 100. |
| `FieldRules.CuisineCategoryFieldErrors` | restaurant/models.py:110 | `name` fails iff it is empty or longer than 20. |
| `Store.RestaurantErrors` | restaurant/models.py:22-77 | `full_clean` of a restaurant reports nothing iff its fields are valid and its category and region, when set, exist. An accepted restaurant has a rating within ±9.99, a non-negative count and a phone of 1 to 16 characters. |
| `Store.ImageErrors` | restaurant/models.py:125-150 | `full_clean` of an image reports nothing iff its restaurant exists, its fields are valid and `clean` passes. The restaurant key is reported iff the restaurant is missing, the `order` key iff the order is negative, and the non-field key iff the restaurant exists and `clean` rejects. |
| `Store.MenuErrors` | restaurant/models.py:152-155 | `full_clean` of a menu reports nothing iff its restaurant exists and its fields are valid; an accepted menu has a non-negative price. |
| `Store.CuisineCategoryErrors` | restaurant/models.py:109-117 | `full_clean` of a `RestaurantCategry` row reports nothing iff its name fits and its cuisine type, when set, exists. |
| `OnDelete.CascadeImages` | restaurant/models.py:126-128 | Deleting restaurant r removes exactly the images whose restaurant is r; every other image stays, unchanged. |
| `OnDelete.CascadeMenus` | restaurant/models.py:153 | Deleting restaurant r removes exactly the menus whose restaurant is r; every other menu stays, unchanged. |
| `OnDelete.CascadeCuisineCategories` | restaurant/models.py:112-117 | Deleting cuisine type t removes exactly the `RestaurantCategry` rows pointing at t (CASCADE, as coded); the rest stay unchanged. |
| `OnDelete.ClearCategory` | restaurant/models.py:61-66 | Deleting category c keeps every restaurant, sets `category` to null on exactly those that pointed at c, and changes no other field. |
| `OnDelete.ClearRegion` | restaurant/models.py:70-77 | Deleting region g keeps every restaurant, sets `region` to null on exactly those that pointed at g, and changes no other field. |
| `Store.SaveImageKeepsValid` | restaurant/models.py:143-150 | A save that passes `full_clean` keeps the image table valid: at most one representative per restaurant, valid fields, existing restaurants. |
| `Store.CascadeImagesKeepsValid` | restaurant/models.py:126-128 | After the image cascade, the remaining images are valid against the remaining restaurants: none is left dangling, and the representative rule still holds. |
| `Store.CascadeMenusKeepsValid` | restaurant/models.py:153 | After the menu cascade, every remaining menu belongs to a remaining restaurant. |
| `Store.CascadeCuisineCategoriesKeepsValid` | restaurant/models.py:112-117 | After the cascade, no `RestaurantCategry` row points at the deleted cuisine type. |
| `Store.ClearCategoryKeepsValid` | restaurant/models.py:61-66 | After the set-null, every restaurant is still valid and none points at the deleted category. |
| `Store.ClearRegionKeepsValid` | restaurant/models.py:70-77 | After the set-null, every restaurant is still valid and none points at the deleted region. |
| `Store.Store.StoredValuesInRange` | restaurant/models.py:49-56 | In a valid store every rating lies in [-999, 999] hundredths and every `rating_count` is non-negative. The same holds for every image `order` and every menu `price`. Every image and menu belongs to an existing restaurant. |
| `Store.Store.constructor` | restaurant/models.py:22-165 | A new store is empty and valid. |
| `Store.Store.AddCategory` | restaurant/models.py:99-107 | Inserts a category under a fresh id; the invariant is kept. |
| `Store.Store.AddRegion` | restaurant/models.py:70-77 | Inserts a region under a fresh id; the invariant is kept. |
| `Store.Store.AddCuisineType` | restaurant/models.py:89-97 | Inserts a cuisine type under a fresh id; the invariant is kept. |
| `Store.Store.SaveRestaurant` | restaurant/models.py:22-77 | If `full_clean` reports nothing, the row is written at its id or at a fresh id, which is returned. Otherwise the error keys are returned and the table is unchanged. The invariant is kept. |
| `Store.Store.SaveImage` | restaurant/models.py:143-150 | Writes the image only when `full_clean`, including `clean`, reports nothing. Otherwise it returns the error keys and leaves the table unchanged. Either way, at most one representative per restaurant still holds afterwards. |
| `Store.Store.SaveMenu` | restaurant/models.py:152-155 | Writes the menu iff `full_clean` reports nothing, else returns the errors with the table unchanged; the invariant is kept. |
| `Store.Store.SaveCuisineCategory` | restaurant/models.py:109-117 | Writes the row iff `full_clean` reports nothing, else returns the errors with the table unchanged; the invariant is kept. |
| `Store.Store.RepresentativeImages` | restaurant/models.py:145 | Returns exactly the images of restaurant r that are marked representative; there is at most one of them. |
| `Store.Store.DeleteRestaurant` | restaurant/models.py:126-128 | Removes the restaurant. Its images (lines 126-128) and its menus (line 153) go with it, and every other row is unchanged. The invariant is kept. |
| `Store.Store.DeleteCategory` | restaurant/models.py:61-66 | Removes the category; no restaurant is deleted; references to it are cleared; the invariant is kept. |
| `Store.Store.DeleteRegion` | restaurant/models.py:70-77 | Removes the region; no restaurant is deleted; references to it are cleared; the invariant is kept. |
| `Store.Store.DeleteCuisineType` | restaurant/models.py:112-117 | Removes the cuisine type and the `RestaurantCategry` rows that point at it; the invariant is kept. |

The client methods `Store.SecondRepresentativeScenario`,
`Store.ReleaseRepresentativeScenario`, `Store.RatingScenario` and
`Store.DeletionScenario` replay the documented scenarios against the store
contracts:

- a second representative image for a restaurant is refused;
- re-saving the representative is accepted;
- un-marking it frees the slot;
- other restaurants are unaffected;
- a rating of 10.00 is refused;
- the category and restaurant deletions clear and cascade.

## Findings

| source | as written | input that shows it | evidently intended | confidence | as-written member | corrected member |
|---|---|---|---|---|---|---|
| restaurant/models.py:143-150 | The representative check lives in `clean()`, which Django runs only from `full_clean()` (forms, admin); `Model.save()` and `objects.create()` do not call it | an image of restaurant 7 marked representative exists; `RestrantImage(restaurant=7, is_representative=True).save()` | the comment at line 143 says two representative images must not be stored, on every save | medium (depends on how callers save; not executed) | `Representative.WriteWithoutCleanAdmitsSecondRepresentative` | `Store.Store.SaveImage` |

## Left out

- The storage of image binaries (`ImageField`, `upload_to`) and `Article.preview_image` are left out, because they are a storage service.
- `Article` is left out: it has no validation or relationship that interacts with the rest.
- Timestamps (`created_at`, `modified_at`, `updateed_at`, `auto_now`, `auto_now_add`) are left out, because they depend on the clock.
- The opening-hours fields (`start_time`, `end_time`, `last_order_time`) are left out. They are optional and carry no behaviour.
- `Restaurant.tags` (many-to-many to `Tag`) is left out, because the `Tag` model is not part of this model. The same holds for the rows of its join table, which a restaurant deletion would remove.
- The region model is not part of this model (it is only named at line 71); regions are opaque ids.
- `CuisineType` and `RestaurantCategory` are kept as id sets only. Their `name` fields and all verbose names, `Meta` labels and `db_index` options are left out.
- The `__str__` methods are left out. Those at lines 84-85, 96-97, 106-107, 122-123 and 164-165 sit inside `class Meta` and are never bound. `Article.str` at lines 18-19 is not `__str__`.
- `RestaurantMenu` lines 156-158 are not valid Python and are left out; only `restaurant`, `name` and `price` are modelled.
- The phone "E.164" format is only help text; only `max_length=16` is checked.
- Upper bounds of `PositiveIntegerField` and `PositiveBigIntegerField` are left out: they come from the database backend, not from this file. Only the lower bound 0 is checked.
- Field defaults are left out: every save is given all field values.
- Two concurrent saves can both pass `clean` before either writes (a race). Only sequential saves are modelled.
- Store.ImageErrors: when the image's restaurant does not exist, Django's `clean` fails with a lookup exception rather than a ValidationError. The model reports only the `restaurant` key and writes nothing.
- Id allocation is the database's; the model draws every new id from one counter above all ids in use. A save with an explicit id raises that counter past it.
- Delete by id of a single image, menu or other row is left out: no policy beyond removing the row applies.
