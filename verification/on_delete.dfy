/** The deletion policies declared on the foreign keys of restaurant/models.py:
    CASCADE removes the rows that point at the deleted row, SET_NULL clears
    the pointing field and keeps the row. Each is a function from the table
    before the delete to the table after it. */
module OnDelete {
  import opened Records

  /** `RestrantImage.restaurant` (on_delete=CASCADE): deleting restaurant r
      removes exactly its images and keeps every other image as it was. */
  function CascadeImages(images: map<ImageId, Image>, r: RestaurantId): (kept: map<ImageId, Image>)
    ensures forall k :: k in kept <==> k in images && images[k].restaurant != r
    ensures forall k | k in kept :: kept[k] == images[k]
  {
    map k | k in images && images[k].restaurant != r :: images[k]
  }

  /** `RestaurantMenu.restaurant` (on_delete=CASCADE): deleting restaurant r
      removes exactly its menus and keeps every other menu as it was. */
  function CascadeMenus(menus: map<MenuId, Menu>, r: RestaurantId): (kept: map<MenuId, Menu>)
    ensures forall k :: k in kept <==> k in menus && menus[k].restaurant != r
    ensures forall k | k in kept :: kept[k] == menus[k]
  {
    map k | k in menus && menus[k].restaurant != r :: menus[k]
  }

  /** `RestaurantCategry.CuisineType` (on_delete=CASCADE, although the comment
      beside it speaks of null): deleting cuisine type t removes exactly the
      rows that point at t. */
  function CascadeCuisineCategories(rows: map<CuisineCategoryId, CuisineCategory>, t: CuisineTypeId)
    : (kept: map<CuisineCategoryId, CuisineCategory>)
    ensures forall k :: k in kept <==> k in rows && rows[k].cuisineType != Some(t)
    ensures forall k | k in kept :: kept[k] == rows[k]
  {
    map k | k in rows && rows[k].cuisineType != Some(t) :: rows[k]
  }

  /** `Restaurant.category` (on_delete=SET_NULL): deleting category c keeps
      every restaurant, clears `category` on exactly those that pointed at c
      and changes no other field. */
  function ClearCategory(restaurants: map<RestaurantId, Restaurant>, c: CategoryId)
    : (after: map<RestaurantId, Restaurant>)
    ensures after.Keys == restaurants.Keys
    ensures forall k | k in after ::
      after[k].category == (if restaurants[k].category == Some(c) then None else restaurants[k].category)
    ensures forall k | k in after :: after[k] == restaurants[k].(category := after[k].category)
  {
    map k | k in restaurants ::
      if restaurants[k].category == Some(c) then restaurants[k].(category := None) else restaurants[k]
  }

  /** `Restaurant.region` (on_delete=SET_NULL): deleting region g keeps every
      restaurant, clears `region` on exactly those that pointed at g and
      changes no other field. */
  function ClearRegion(restaurants: map<RestaurantId, Restaurant>, g: RegionId)
    : (after: map<RestaurantId, Restaurant>)
    ensures after.Keys == restaurants.Keys
    ensures forall k | k in after ::
      after[k].region == (if restaurants[k].region == Some(g) then None else restaurants[k].region)
    ensures forall k | k in after :: after[k] == restaurants[k].(region := after[k].region)
  {
    map k | k in restaurants ::
      if restaurants[k].region == Some(g) then restaurants[k].(region := None) else restaurants[k]
  }
}
