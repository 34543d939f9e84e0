/** The representative-image rule of `RestrantImage.clean`
    (restaurant/models.py:143-150): no restaurant may have two images marked
    representative. The image table is a map from image id to row. */
module Representative {
  import opened Records

  /** The message of the ValidationError that `clean` raises
      ("only one representative image may be set"). */
  const OnlyOneRepresentativeMessage: string := "대표이미지는 하나만 설정할 수 있습니다."

  /** `restaurant.restrantimage_set.filter(is_representative=True)`: the ids
      of the images of restaurant r that are marked representative. */
  function RepresentativesOf(images: map<ImageId, Image>, r: RestaurantId): set<ImageId>
  {
    set k | k in images && images[k].restaurant == r && images[k].isRepresentative
  }

  /** The table invariant: within each restaurant at most one image is representative. */
  ghost predicate AtMostOneRepresentative(images: map<ImageId, Image>)
  {
    forall i, j | i in images && j in images ::
      (images[i].isRepresentative && images[j].isRepresentative
       && images[i].restaurant == images[j].restaurant) ==> i == j
  }

  /** `RestrantImage.clean`. `id` is the candidate's primary key: None for an
      image not saved yet, whose `filter(id=None)` matches no row. */
  function Clean(images: map<ImageId, Image>, id: Option<ImageId>, img: Image): (outcome: Outcome)
    ensures !img.isRepresentative ==> outcome == Pass
    ensures outcome.Fail? ==> outcome.message == OnlyOneRepresentativeMessage
    // a rejection always has an existing representative of the same restaurant
    // that is not the candidate
    ensures outcome.Fail? ==>
      exists j :: j in images && images[j].restaurant == img.restaurant
                  && images[j].isRepresentative && id != Some(j)
    // an accepted representative candidate either is itself a representative of
    // its restaurant already, or its restaurant has none
    ensures outcome == Pass && img.isRepresentative ==>
      (id.Some? && id.value in images && images[id.value].restaurant == img.restaurant
       && images[id.value].isRepresentative)
      || !(exists j :: j in images && images[j].restaurant == img.restaurant
                       && images[j].isRepresentative)
  {
    var reps := RepresentativesOf(images, img.restaurant);
    assert forall j | j in images && images[j].restaurant == img.restaurant
                      && images[j].isRepresentative :: j in reps;
    if img.isRepresentative && reps != {} && !(id.Some? && id.value in reps) then
      Fail(OnlyOneRepresentativeMessage)
    else
      Pass
  }

  /** The key a save writes at: the candidate's own id, or for an unsaved
      candidate a key not in the table. */
  predicate WritesAt(images: map<ImageId, Image>, id: Option<ImageId>, k: ImageId)
  {
    id == Some(k) || (id.None? && k !in images)
  }

  /** `clean` is exactly the guard the invariant needs: on a table with at
      most one representative per restaurant, it accepts the candidate if and
      only if writing the candidate at its key leaves at most one
      representative per restaurant. */
  lemma CleanIsExactGuard(images: map<ImageId, Image>, id: Option<ImageId>, img: Image, k: ImageId)
    requires AtMostOneRepresentative(images)
    requires WritesAt(images, id, k)
    ensures Clean(images, id, img) == Pass <==> AtMostOneRepresentative(images[k := img])
  {
    var after := images[k := img];
    if Clean(images, id, img) == Pass {
      forall i, j | i in after && j in after
        && after[i].isRepresentative && after[j].isRepresentative
        && after[i].restaurant == after[j].restaurant
        ensures i == j
      {
        if i != k && j != k {
          assert images[i] == after[i] && images[j] == after[j];
        }
      }
    } else {
      var j :| j in images && images[j].restaurant == img.restaurant
               && images[j].isRepresentative && id != Some(j);
      assert j != k;
      assert after[j] == images[j] && after[k] == img;
    }
  }

  /** Writing over the current representative of a restaurant with a row
      that is still representative for the same restaurant passes `clean`;
      re-saving it unchanged leaves the table as it was. */
  lemma ResaveRepresentativePasses(images: map<ImageId, Image>, k: ImageId, img: Image)
    requires k in images && images[k].isRepresentative
    requires img.restaurant == images[k].restaurant
    ensures Clean(images, Some(k), img) == Pass
    ensures images[k := images[k]] == images
  {
    assert k in RepresentativesOf(images, img.restaurant);
  }

  /** `clean` looks only at the candidate's own restaurant: adding rows of
      other restaurants to the table never changes its decision. */
  lemma CleanIgnoresOtherRestaurants(images: map<ImageId, Image>, others: map<ImageId, Image>,
                                     id: Option<ImageId>, img: Image)
    requires images.Keys !! others.Keys
    requires forall j | j in others :: others[j].restaurant != img.restaurant
    ensures Clean(images + others, id, img) == Clean(images, id, img)
  {
    assert RepresentativesOf(images + others, img.restaurant)
        == RepresentativesOf(images, img.restaurant);
  }

  /** Model.save() on its own does not call `clean`: writing a row straight
      into the table, the way `save()` or `objects.create()` does. */
  function WriteWithoutClean(images: map<ImageId, Image>, k: ImageId, img: Image): (after: map<ImageId, Image>)
    ensures k in after && after[k] == img
    ensures forall j | j in images && j != k :: j in after && after[j] == images[j]
    ensures after.Keys == images.Keys + {k}
  {
    images[k := img]
  }

  /** A second representative image written without `clean` breaks the invariant. */
  lemma WriteWithoutCleanAdmitsSecondRepresentative()
    ensures var images := map[1 := Image(7, true, None, 0)];
            AtMostOneRepresentative(images)
            && Clean(images, None, Image(7, true, None, 1)).Fail?
            && !AtMostOneRepresentative(WriteWithoutClean(images, 2, Image(7, true, None, 1)))
  {
    var images := map[1 := Image(7, true, None, 0)];
    var after := WriteWithoutClean(images, 2, Image(7, true, None, 1));
    assert 1 in RepresentativesOf(images, 7);
    assert after[1].isRepresentative && after[2].isRepresentative;
  }
}
