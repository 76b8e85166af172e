/** The "List Your Property" form: the photo list edited by camera capture,
    gallery selection and removal by position, the property-type choice, and
    the submit check (fields first, then photos). Submitting sends nothing to
    the backend: the screen only announces success. */
module AddListing {
  import opened JsRuntime

  /** The ids of the four property-type cards, in display order. */
  const PropertyTypeIds: seq<string> := ["apartment", "house", "villa", "cabin"]

  /** `images.filter((_, i) => i !== index)`: keep every element whose
      position differs from `index`, in order. */
  function WithoutIndex<T>(s: seq<T>, index: int): (r: seq<T>)
    ensures |r| == if 0 <= index < |s| then |s| - 1 else |s|
  {
    if s == [] then []
    else WithoutIndex(s[..|s| - 1], index) + (if |s| - 1 == index then [] else [s[|s| - 1]])
  }

  /** Removing an in-range position drops exactly that element and keeps the
      others in their order; any other index leaves the list as it was. */
  lemma {:induction false} WithoutIndexDropsOnlyThatPosition<T>(s: seq<T>, index: int)
    ensures 0 <= index < |s| ==> WithoutIndex(s, index) == s[..index] + s[index + 1..]
    ensures !(0 <= index < |s|) ==> WithoutIndex(s, index) == s
  {
    if s != [] {
      var init, last := s[..|s| - 1], s[|s| - 1];
      WithoutIndexDropsOnlyThatPosition(init, index);
      if |s| - 1 == index {
        assert init == s[..index] + s[index + 1..];
      } else if 0 <= index < |s| - 1 {
        assert s[..index] + s[index + 1..] == init[..index] + init[index + 1..] + [last];
      } else {
        assert s == init + [last];
      }
    }
  }

  /** The outcome of `handleSubmit`. */
  datatype ListingCheck =
    | MissingFields  // "Please fill in all fields"
    | NoPhotos       // "Please add at least one photo"
    | Ready          // the success alert; nothing is sent anywhere

  /** The guard chain of `handleSubmit`. A field is filled when it is truthy,
      that is non-empty: a field of spaces passes. */
  function CheckListing(title: string, description: string, price: string, location: string,
                        photoCount: nat): (r: ListingCheck)
    ensures r == MissingFields <==> title == "" || description == "" || price == "" || location == ""
    ensures r == NoPhotos <==>
      title != "" && description != "" && price != "" && location != "" && photoCount == 0
    ensures r == Ready <==>
      title != "" && description != "" && price != "" && location != "" && photoCount > 0
  {
    if title == "" || description == "" || price == "" || location == "" then MissingFields
    else if photoCount == 0 then NoPhotos
    else Ready
  }

  /** The field check comes before the photo check: an empty form with no
      photos reports the missing fields. */
  lemma FieldsAreCheckedFirst(photoCount: nat)
    ensures CheckListing("", "", "", "", photoCount) == MissingFields
  {
  }

  /** The four text inputs of the form. */
  datatype TextField = Title | Description | Price | Location

  class ListingForm {
    var title: string
    var description: string
    var price: string
    var location: string
    var propertyType: string
    var images: seq<string>

    /** The selected type is always one of the four card ids. */
    ghost predicate Valid()
      reads this
    {
      propertyType in PropertyTypeIds
    }

    constructor ()
      ensures Valid()
      ensures title == "" && description == "" && price == "" && location == ""
      ensures propertyType == "apartment" && images == []
    {
      title, description, price, location := "", "", "", "";
      propertyType := "apartment";
      images := [];
    }

    /** Tapping the card at position `k`. */
    method SelectPropertyType(k: nat)
      requires Valid() && k < |PropertyTypeIds|
      modifies this`propertyType
      ensures Valid() && propertyType == PropertyTypeIds[k]
    {
      propertyType := PropertyTypeIds[k];
    }

    /** `onChangeText` of one input. */
    method SetText(field: TextField, value: string)
      requires Valid()
      modifies this`title, this`description, this`price, this`location
      ensures Valid()
      ensures title == (if field == Title then value else old(title))
      ensures description == (if field == Description then value else old(description))
      ensures price == (if field == Price then value else old(price))
      ensures location == (if field == Location then value else old(location))
    {
      match field
      case Title => title := value;
      case Description => description := value;
      case Price => price := value;
      case Location => location := value;
    }

    /** `takePhoto`: with camera permission and a capture that was not
      cancelled (`captured` is Some), its URI is appended. */
    method TakePhoto(permissionGranted: bool, captured: Option<string>)
      requires Valid()
      modifies this`images
      ensures Valid()
      ensures images == if permissionGranted && captured.Some? then old(images) + [captured.value] else old(images)
    {
      if !permissionGranted {
        return;
      }
      if captured.Some? {
        images := images + [captured.value];
      }
    }

    /** `pickImage`: with gallery permission and a selection that was not
      cancelled, every selected URI is appended in selection order. */
    method PickImage(permissionGranted: bool, picked: Option<seq<string>>)
      requires Valid()
      modifies this`images
      ensures Valid()
      ensures images == if permissionGranted && picked.Some? then old(images) + picked.value else old(images)
    {
      if !permissionGranted {
        return;
      }
      if picked.Some? {
        images := images + picked.value;
      }
    }

    /** `removeImage`: the ✕ on the preview at position `index`. */
    method RemoveImage(index: int)
      requires Valid()
      modifies this`images
      ensures Valid()
      ensures 0 <= index < |old(images)| ==> images == old(images)[..index] + old(images)[index + 1..]
      ensures !(0 <= index < |old(images)|) ==> images == old(images)
    {
      WithoutIndexDropsOnlyThatPosition(images, index);
      images := WithoutIndex(images, index);
    }

    /** `handleSubmit`: reads the form and changes nothing. */
    method HandleSubmit() returns (r: ListingCheck)
      ensures r == CheckListing(title, description, price, location, |images|)
      ensures r == Ready <==>
        title != "" && description != "" && price != "" && location != "" && images != []
      ensures r == NoPhotos ==> images == []
      ensures r == MissingFields ==> title == "" || description == "" || price == "" || location == ""
    {
      r := CheckListing(title, description, price, location, |images|);
    }
  }
}
