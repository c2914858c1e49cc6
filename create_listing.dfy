/**
 * The create-listing form: its state, the image-upload guard, removing an
 * image, the field change handler and the checks made before the listing is
 * sent. Number inputs start as numbers and hold the typed string once edited,
 * as the change handler stores `e.target.value` unconverted.
 */
module CreateListing {
  import opened Wrappers
  import opened Text
  import opened Seqs
  import opened ListingRecord

  /** A number field: the initial number, or the string the input reported. */
  datatype NumField = Num(n: int) | Typed(s: string)

  datatype FormData = FormData(
    imageUrls: seq<string>,
    name: string,
    description: string,
    address: string,
    listingType: string,
    bedrooms: NumField,
    bathrooms: NumField,
    regularPrice: NumField,
    discountPrice: NumField,
    offer: bool,
    parking: bool,
    furnished: bool)

  /** The inputs of the form, by their `id`. */
  datatype InputId = Sale | Rent | Parking | Furnished | Offer
                   | Name | Description | Address | Bedrooms | Bathrooms | RegularPrice | DiscountPrice

  /** The `type` each input is rendered with. */
  function InputTypeOf(id: InputId): (t: string)
    ensures t == "checkbox" <==> id in {Sale, Rent, Parking, Furnished, Offer}
    ensures t == "number" <==> id in {Bedrooms, Bathrooms, RegularPrice, DiscountPrice}
  {
    match id
    case Sale | Rent | Parking | Furnished | Offer => "checkbox"
    case Name | Address => "text"
    case Description => "textarea"
    case Bedrooms | Bathrooms | RegularPrice | DiscountPrice => "number"
  }

  /** The `id` string of a listing-type checkbox, which is the value stored as the type. */
  function TypeName(id: InputId): string
    requires id == Sale || id == Rent
  {
    if id == Sale then "sale" else "rent"
  }

  /** The fields of the form data. */
  datatype FieldName = ImagesField | NameField | DescriptionField | AddressField | TypeField
                     | BedroomsField | BathroomsField | RegularPriceField | DiscountPriceField
                     | OfferField | ParkingField | FurnishedField

  /** A field's value, whatever its type. */
  datatype Value = Text(s: string) | Number(v: NumField) | Flag(b: bool) | Images(urls: seq<string>)

  function FieldOf(f: FormData, field: FieldName): Value {
    match field
    case ImagesField => Images(f.imageUrls)
    case NameField => Text(f.name)
    case DescriptionField => Text(f.description)
    case AddressField => Text(f.address)
    case TypeField => Text(f.listingType)
    case BedroomsField => Number(f.bedrooms)
    case BathroomsField => Number(f.bathrooms)
    case RegularPriceField => Number(f.regularPrice)
    case DiscountPriceField => Number(f.discountPrice)
    case OfferField => Flag(f.offer)
    case ParkingField => Flag(f.parking)
    case FurnishedField => Flag(f.furnished)
  }

  /** The field an input edits; both listing-type checkboxes edit the type. */
  function TargetField(id: InputId): FieldName {
    match id
    case Sale | Rent => TypeField
    case Parking => ParkingField
    case Furnished => FurnishedField
    case Offer => OfferField
    case Name => NameField
    case Description => DescriptionField
    case Address => AddressField
    case Bedrooms => BedroomsField
    case Bathrooms => BathroomsField
    case RegularPrice => RegularPriceField
    case DiscountPrice => DiscountPriceField
  }

  /** `formData[id] = value` for a text, textarea or number input. */
  function SetValue(f: FormData, id: InputId, value: string): FormData
    requires InputTypeOf(id) != "checkbox"
  {
    match id
    case Name => f.(name := value)
    case Description => f.(description := value)
    case Address => f.(address := value)
    case Bedrooms => f.(bedrooms := Typed(value))
    case Bathrooms => f.(bathrooms := Typed(value))
    case RegularPrice => f.(regularPrice := Typed(value))
    case DiscountPrice => f.(discountPrice := Typed(value))
  }

  /** `formData[id] = checked` for a feature checkbox. */
  function SetFlag(f: FormData, id: InputId, checked: bool): FormData
    requires id in {Parking, Furnished, Offer}
  {
    match id
    case Parking => f.(parking := checked)
    case Furnished => f.(furnished := checked)
    case Offer => f.(offer := checked)
  }

  /** What a change stores in the edited field: the type name, the checked state, or the typed string. */
  function ChangedValue(id: InputId, value: string, checked: bool): Value {
    match id
    case Sale => Text("sale")
    case Rent => Text("rent")
    case Parking | Furnished | Offer => Flag(checked)
    case Name | Description | Address => Text(value)
    case Bedrooms | Bathrooms | RegularPrice | DiscountPrice => Number(Typed(value))
  }

  /**
   * The state `handleChange` leaves. Its three checks each replace the state
   * built from the same captured form data, so the last one that applies wins:
   * the input's own field takes the changed value and every other field stays.
   */
  function ApplyChange(f: FormData, id: InputId, value: string, checked: bool): (r: FormData)
    ensures FieldOf(r, TargetField(id)) == ChangedValue(id, value, checked)
    ensures forall field :: field != TargetField(id) ==> FieldOf(r, field) == FieldOf(f, field)
  {
    if InputTypeOf(id) in {"number", "text", "textarea"} then SetValue(f, id, value)
    else if id in {Parking, Furnished, Offer} then SetFlag(f, id, checked)
    else if id in {Sale, Rent} then f.(listingType := TypeName(id))
    else f
  }

  // ---------------------------------------------------------------------------
  // Submit validation
  // ---------------------------------------------------------------------------

  /**
   * Unary `+` on a field: a number is itself, the empty string is 0, a run of
   * digits with an optional leading minus is its integer value, and any other
   * string is not a number (`None`, for NaN).
   */
  function ToNumber(v: NumField): (r: Option<int>)
    ensures v.Num? ==> r == Some(v.n)
    ensures v == Typed("") ==> r == Some(0)
    ensures v.Typed? && v.s != "" && (forall i :: 0 <= i < |v.s| ==> IsDigit(v.s[i])) ==> r.Some? && r.value >= 0
    ensures v.Typed? && |v.s| > 1 && v.s[0] == '-' && (forall i :: 1 <= i < |v.s| ==> IsDigit(v.s[i])) ==> r.Some? && r.value <= 0
    ensures v.Typed? && v.s != "" && !IsDigit(v.s[0]) && v.s[0] != '-' ==> r.None?
  {
    match v
    case Num(n) => Some(n)
    case Typed(s) =>
      if s == "" then Some(0)
      else if forall i :: 0 <= i < |s| ==> IsDigit(s[i]) then Some(DecimalValue(s))
      else if s[0] == '-' && |s| > 1 && forall i :: 1 <= i < |s| ==> IsDigit(s[i]) then
        var magnitude: int := DecimalValue(s[1..]);
        Some(-magnitude)
      else None
  }

  /** `<` on two numbers; any comparison with NaN is false. */
  predicate Less(a: Option<int>, b: Option<int>) {
    a.Some? && b.Some? && a.value < b.value
  }

  const NoImagesError := "You must upload at least one image"
  const DiscountError := "Discount price must be lower than regular price"

  /** The checks `handleSubmit` makes before sending. */
  function SubmitCheck(f: FormData): (r: Result<(), string>)
    ensures r.Ok? <==> |f.imageUrls| >= 1 && !Less(ToNumber(f.regularPrice), ToNumber(f.discountPrice))
    ensures f.imageUrls == [] ==> r == Err(NoImagesError)
    ensures f.imageUrls != [] && r.Err? ==> r.error == DiscountError
  {
    if |f.imageUrls| < 1 then Err(NoImagesError)
    else if Less(ToNumber(f.regularPrice), ToNumber(f.discountPrice)) then Err(DiscountError)
    else Ok(())
  }

  /** A discount equal to the regular price passes. */
  lemma EqualPricesPass(f: FormData)
    requires f.imageUrls != [] && ToNumber(f.regularPrice) == ToNumber(f.discountPrice)
    ensures SubmitCheck(f).Ok?
  {
  }

  /** The price check runs whether or not the listing is on offer. */
  lemma CheckIgnoresOffer(f: FormData, offer: bool)
    ensures SubmitCheck(f.(offer := offer)) == SubmitCheck(f)
  {
  }

  /** A typed natural number reads as its own value. */
  lemma TypedNaturalValue(n: nat)
    ensures ToNumber(Typed(NatToString(n))) == Some(n)
  {
    DecimalOfNatToString(n);
  }

  /** A minus sign before a typed natural number reads as its negation. */
  lemma TypedNegativeValue(n: nat)
    ensures ToNumber(Typed("-" + NatToString(n))) == Some(-(n as int))
  {
    var s := "-" + NatToString(n);
    assert s[1..] == NatToString(n);
    assert s[0] == '-' && !IsDigit(s[0]);
    assert forall i :: 1 <= i < |s| ==> IsDigit(s[i]) by {
      forall i | 1 <= i < |s| ensures IsDigit(s[i]) {
        assert s[i] == NatToString(n)[i - 1];
      }
    }
    DecimalOfNatToString(n);
  }

  /**
   * Typed prices are compared by value, not as strings: with natural numbers
   * typed into both fields, the form passes iff the discount is at most the
   * regular price (so "10" against a regular "9" is refused).
   */
  lemma PricesComparedAsNumbers(f: FormData, regular: nat, discount: nat)
    requires f.imageUrls != []
    requires f.regularPrice == Typed(NatToString(regular)) && f.discountPrice == Typed(NatToString(discount))
    ensures SubmitCheck(f).Ok? <==> discount <= regular
    ensures regular < discount ==> SubmitCheck(f) == Err(DiscountError)
  {
    TypedNaturalValue(regular);
    TypedNaturalValue(discount);
  }

  /** The body sent to create the listing: the form data and the owner. */
  datatype Submission = Submission(form: FormData, userRef: UserId)

  /** What the create request answered: the new listing's id, or `success: false` and a message. */
  datatype CreateReply = CreateReply(success: Option<bool>, message: Option<string>, id: Option<ListingId>)

  const MaxImagesError := "You can only upload 6 images per listing"
  const ImageUploadFailed := "Image upload failed (2 mb max per image)"

  /** An upload may start when some files are chosen and the total stays below seven. */
  predicate UploadAllowed(selected: nat, existing: nat) {
    selected > 0 && selected + existing < 7
  }

  /** The page's state. */
  class ListingForm {
    var form: FormData
    var imageUploadError: Option<string>
    var uploading: bool
    var error: Option<string>
    var loading: bool

    /** The page never holds more than six images. */
    predicate AtMostSixImages()
      reads this
    {
      |form.imageUrls| <= 6
    }

    /** The empty form: a rental, one bedroom and one bathroom, regular price 50, no discount, no flags, no images. */
    constructor ()
      ensures form.imageUrls == [] && form.name == "" && form.description == "" && form.address == ""
      ensures form.listingType == "rent"
      ensures form.bedrooms == Num(1) && form.bathrooms == Num(1)
      ensures form.regularPrice == Num(50) && form.discountPrice == Num(0)
      ensures !form.offer && !form.parking && !form.furnished
      ensures imageUploadError.None? && !uploading && error.None? && !loading
      ensures AtMostSixImages()
    {
      form := FormData([], "", "", "", "rent", Num(1), Num(1), Num(50), Num(0), false, false, false);
      imageUploadError := None;
      uploading := false;
      error := None;
      loading := false;
    }

    /**
     * `handleImageSubmit`: when allowed, one upload is started per selected file,
     * in order (`started`); `outcome` is what all of them together produced, the
     * URLs in file order or a failure. The URLs are appended after the existing ones.
     */
    method ImageSubmit(files: seq<string>, outcome: Result<seq<string>, string>) returns (started: seq<string>)
      requires outcome.Ok? ==> |outcome.value| == |files|
      modifies this
      ensures old(AtMostSixImages()) ==> AtMostSixImages()
      ensures !uploading
      ensures error == old(error) && loading == old(loading)
      ensures !UploadAllowed(|files|, |old(form.imageUrls)|) ==>
        started == [] && imageUploadError == Some(MaxImagesError) && form == old(form)
      ensures UploadAllowed(|files|, |old(form.imageUrls)|) ==> started == files
      ensures UploadAllowed(|files|, |old(form.imageUrls)|) && outcome.Ok? ==>
        form == old(form).(imageUrls := old(form.imageUrls) + outcome.value) && imageUploadError.None?
      ensures UploadAllowed(|files|, |old(form.imageUrls)|) && outcome.Err? ==>
        form == old(form) && imageUploadError == Some(ImageUploadFailed)
      ensures |form.imageUrls| <= 6 || form == old(form)
    {
      started := [];
      if UploadAllowed(|files|, |form.imageUrls|) {
        uploading := true;
        imageUploadError := None;
        var i := 0;
        while i < |files|
          invariant 0 <= i <= |files|
          invariant started == files[..i]
        {
          started := started + [files[i]];
          i := i + 1;
        }
        match outcome {
          case Ok(urls) =>
            form := form.(imageUrls := form.imageUrls + urls);
            imageUploadError := None;
          case Err(_) =>
            imageUploadError := Some(ImageUploadFailed);
        }
        uploading := false;
      } else {
        imageUploadError := Some(MaxImagesError);
        uploading := false;
      }
    }

    /** `handleRemoveImage`: drops the image at `index`; the others keep their order. */
    method RemoveImage(index: int)
      modifies this
      ensures old(AtMostSixImages()) ==> AtMostSixImages()
      ensures 0 <= index < |old(form.imageUrls)| ==>
        form.imageUrls == old(form.imageUrls)[..index] + old(form.imageUrls)[index + 1..]
      ensures !(0 <= index < |old(form.imageUrls)|) ==> form.imageUrls == old(form.imageUrls)
      ensures form == old(form).(imageUrls := form.imageUrls)
      ensures imageUploadError == old(imageUploadError) && uploading == old(uploading)
      ensures error == old(error) && loading == old(loading)
    {
      DropIndexSplices(form.imageUrls, index);
      form := form.(imageUrls := DropIndex(form.imageUrls, index));
    }

    /** `handleChange`, for an event from input `id` carrying `value` and `checked`. */
    method Change(id: InputId, value: string, checked: bool)
      modifies this
      ensures old(AtMostSixImages()) ==> AtMostSixImages()
      ensures form == ApplyChange(old(form), id, value, checked)
      ensures imageUploadError == old(imageUploadError) && uploading == old(uploading)
      ensures error == old(error) && loading == old(loading)
    {
      var captured := form;
      if id == Sale || id == Rent {
        form := captured.(listingType := TypeName(id));
      }
      if id == Parking || id == Furnished || id == Offer {
        form := SetFlag(captured, id, checked);
      }
      var inputType := InputTypeOf(id);
      if inputType == "number" || inputType == "text" || inputType == "textarea" {
        form := SetValue(captured, id, value);
      }
    }

    /**
     * `handleSubmit`: refuses with a message when a check fails, otherwise sends
     * the form with the signed-in user as owner and reads the reply (`outcome`,
     * or the message of the exception raised). Returns what was sent and where
     * the page navigates.
     */
    method Submit(userId: UserId, outcome: Result<CreateReply, string>)
      returns (sent: Option<Submission>, navigateTo: Option<string>)
      modifies this
      ensures old(AtMostSixImages()) ==> AtMostSixImages()
      ensures form == old(form) && imageUploadError == old(imageUploadError) && uploading == old(uploading)
      ensures SubmitCheck(old(form)).Err? ==>
        sent.None? && navigateTo.None? && error == Some(SubmitCheck(old(form)).error) && loading == old(loading)
      ensures SubmitCheck(old(form)).Ok? ==> sent == Some(Submission(old(form), userId)) && !loading
      ensures SubmitCheck(old(form)).Ok? && outcome.Err? ==> error == Some(outcome.error) && navigateTo.None?
      ensures SubmitCheck(old(form)).Ok? && outcome.Ok? ==>
        navigateTo == Some("/listing/" + outcome.value.id.GetOr("undefined"))
      ensures SubmitCheck(old(form)).Ok? && outcome.Ok? && outcome.value.success == Some(false) ==>
        error == outcome.value.message
      ensures SubmitCheck(old(form)).Ok? && outcome.Ok? && outcome.value.success != Some(false) ==> error.None?
    {
      var check := SubmitCheck(form);
      if check.Err? {
        error := Some(check.error);
        return None, None;
      }
      loading := true;
      error := None;
      sent := Some(Submission(form, userId));
      match outcome {
        case Err(message) =>
          error := Some(message);
          loading := false;
          navigateTo := None;
        case Ok(reply) =>
          loading := false;
          if reply.success == Some(false) {
            error := reply.message;
          }
          navigateTo := Some("/listing/" + reply.id.GetOr("undefined"));
      }
    }
  }
}
