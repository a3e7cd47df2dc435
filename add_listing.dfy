/** The add-listing form (app/add-listing/page.tsx): the form's state, the
    handlers that edit it, the three cascade effects that keep the dependent
    option lists in step with the chosen brand, city and district, the image
    list, and the submit handler that builds a listing and prepends it to the
    stored collection.

    React runs an effect after a render in which one of its dependencies
    changed; here each handler performs its update and then, as one
    synchronous step, every effect whose dependency value it changed. */
module AddListing {
  import opened SeqUtil
  import opened Types
  import opened LocationData
  import opened Storage

  /** A brand of the vehicle table (lib/vehicle-data is not part of this
      model; its brands are given to the form). */
  datatype Brand = Brand(id: string, name: string, models: seq<string>)

  /** The form's general fields, all text except the featured flag. */
  datatype FormData = FormData(
    title: string,
    description: string,
    price: string,
    category: string,
    location: string,
    userName: string,
    userPhone: string,
    isFeatured: bool)

  const EmptyForm: FormData := FormData("", "", "", "", "", "", "", false)
  const EmptyVehicle: VehicleData := VehicleData("", "", "", "", "", "", "", "", "")
  const EmptyProperty: PropertyData := PropertyData("", "", "", "", "", "", "", "", "")

  // ---------------------------------------------------------------------------
  // Field updates: `{ ...prev, [field]: value }`

  datatype FormField = TitleField | DescriptionField | PriceField | CategoryField
                     | LocationField | UserNameField | UserPhoneField

  function GetForm(f: FormData, k: FormField): string
  {
    match k
    case TitleField => f.title
    case DescriptionField => f.description
    case PriceField => f.price
    case CategoryField => f.category
    case LocationField => f.location
    case UserNameField => f.userName
    case UserPhoneField => f.userPhone
  }

  function SetForm(f: FormData, k: FormField, v: string): (r: FormData)
    ensures GetForm(r, k) == v && r.isFeatured == f.isFeatured
    ensures forall k' :: k' != k ==> GetForm(r, k') == GetForm(f, k')
  {
    match k
    case TitleField => f.(title := v)
    case DescriptionField => f.(description := v)
    case PriceField => f.(price := v)
    case CategoryField => f.(category := v)
    case LocationField => f.(location := v)
    case UserNameField => f.(userName := v)
    case UserPhoneField => f.(userPhone := v)
  }

  datatype VehicleField = VehicleTypeField | BrandField | ModelField | YearField | EngineSizeField
                        | EngineTypeField | TransmissionField | ColorField | MileageField

  function GetVehicle(d: VehicleData, k: VehicleField): string
  {
    match k
    case VehicleTypeField => d.vehicleType
    case BrandField => d.brand
    case ModelField => d.model
    case YearField => d.year
    case EngineSizeField => d.engineSize
    case EngineTypeField => d.engineType
    case TransmissionField => d.transmission
    case ColorField => d.color
    case MileageField => d.mileage
  }

  function SetVehicle(d: VehicleData, k: VehicleField, v: string): (r: VehicleData)
    ensures GetVehicle(r, k) == v
    ensures forall k' :: k' != k ==> GetVehicle(r, k') == GetVehicle(d, k')
  {
    match k
    case VehicleTypeField => d.(vehicleType := v)
    case BrandField => d.(brand := v)
    case ModelField => d.(model := v)
    case YearField => d.(year := v)
    case EngineSizeField => d.(engineSize := v)
    case EngineTypeField => d.(engineType := v)
    case TransmissionField => d.(transmission := v)
    case ColorField => d.(color := v)
    case MileageField => d.(mileage := v)
  }

  datatype PropertyField = PropertyTypeField | CityField | DistrictField | NeighborhoodField
                         | RoomCountField | SquareMetersField | BuildingAgeField | FloorField | HeatingTypeField

  function GetProperty(d: PropertyData, k: PropertyField): string
  {
    match k
    case PropertyTypeField => d.propertyType
    case CityField => d.city
    case DistrictField => d.district
    case NeighborhoodField => d.neighborhood
    case RoomCountField => d.roomCount
    case SquareMetersField => d.squareMeters
    case BuildingAgeField => d.buildingAge
    case FloorField => d.floor
    case HeatingTypeField => d.heatingType
  }

  function SetProperty(d: PropertyData, k: PropertyField, v: string): (r: PropertyData)
    ensures GetProperty(r, k) == v
    ensures forall k' :: k' != k ==> GetProperty(r, k') == GetProperty(d, k')
  {
    match k
    case PropertyTypeField => d.(propertyType := v)
    case CityField => d.(city := v)
    case DistrictField => d.(district := v)
    case NeighborhoodField => d.(neighborhood := v)
    case RoomCountField => d.(roomCount := v)
    case SquareMetersField => d.(squareMeters := v)
    case BuildingAgeField => d.(buildingAge := v)
    case FloorField => d.(floor := v)
    case HeatingTypeField => d.(heatingType := v)
  }

  // ---------------------------------------------------------------------------
  // Lookups the effects make

  function BrandIs(id: string): Brand -> bool { (b: Brand) => b.id == id }

  /** `vehicleBrands.find((b) => b.id === id)?.models || []`: the models of
      the first brand with that id, or none. */
  function ModelsOf(brands: seq<Brand>, id: string): (r: seq<string>)
    ensures forall i :: 0 <= i < |brands| && brands[i].id == id && (forall j :: 0 <= j < i ==> brands[j].id != id) ==>
              r == brands[i].models
    ensures (forall i :: 0 <= i < |brands| ==> brands[i].id != id) ==> r == []
  {
    match FindIndex(brands, BrandIs(id))
    case Some(k) => brands[k].models
    case None => []
  }

  // ---------------------------------------------------------------------------
  // Images

  /** The most images the add control lets the form hold. */
  const MaxImages := 6

  /** The placeholder URL `handleImageAdd` appends, queried by the title or,
      when the title is empty, by "listing". */
  function PlaceholderImage(title: string): (url: string)
    ensures StartsWith(url, "/placeholder.svg?height=400&width=600&query=")
    ensures url[|"/placeholder.svg?height=400&width=600&query="|..] == if title != "" then title else "listing"
  {
    "/placeholder.svg?height=400&width=600&query=" + (if title != "" then title else "listing")
  }

  /** `images.filter((_, i) => i !== index)`: every element except the one at
      position `index`; an index outside the list removes nothing. */
  function RemoveAt<T>(s: seq<T>, index: int): (r: seq<T>)
    ensures 0 <= index < |s| ==> |r| == |s| - 1
    ensures !(0 <= index < |s|) ==> r == s
    ensures forall j :: 0 <= j < index && j < |s| ==> r[j] == s[j]
    ensures forall j :: 0 <= index <= j < |r| ==> r[j] == s[j + 1]
    decreases |s|
  {
    if s == [] then []
    else (if index == 0 then [] else [s[0]]) + RemoveAt(s[1..], index - 1)
  }

  /** Removing position `index` takes away exactly one occurrence of the
      element stored there. */
  lemma {:induction false} RemoveAtMultiset<T>(s: seq<T>, index: int)
    requires 0 <= index < |s|
    ensures multiset(RemoveAt(s, index)) + multiset{s[index]} == multiset(s)
  {
    var r := RemoveAt(s, index);
    assert s == s[..index] + [s[index]] + s[index + 1..];
    assert r == s[..index] + s[index + 1..];
  }

  // ---------------------------------------------------------------------------
  // Building the record

  const DefaultImage := "/real-estate-listing-modern.png"
  const DefaultUserName := "Anonim Kullanıcı"
  const DefaultUserPhone := "Belirtilmemiş"
  const SubmitterId := "current-user"

  /** The price text denotes a whole number ("1500", "1.5e3"). */
  predicate WholePrice(text: string)
  {
    ParseNumber(text).Some? && ParseNumber(text).value.Floor as real == ParseNumber(text).value
  }

  /** The five fields the submit handler insists on. */
  predicate RequiredPresent(f: FormData)
  {
    f.title != "" && f.description != "" && f.price != "" && f.category != "" && f.location != ""
  }

  /** The category-specific fields the record carries: the vehicle fields
      for "vehicles", the property fields for "real-estate", none otherwise. */
  function ExtensionFor(category: string, v: VehicleData, p: PropertyData): (e: Extension)
    ensures e.Vehicle? <==> category == "vehicles"
    ensures e.Property? <==> category == "real-estate"
    ensures e.Vehicle? ==> e.vehicle == v
    ensures e.Property? ==> e.property == p
  {
    if category == "vehicles" then Vehicle(v)
    else if category == "real-estate" then Property(p)
    else NoExtension
  }

  /** The record `handleSubmit` builds. The handler reads the clock twice:
      the id is the decimal text of the first reading, `idTime`
      (milliseconds), and `createdAt` is the second. `price` is the parsed
      price text. */
  function BuildListing(f: FormData, images: seq<string>, v: VehicleData, p: PropertyData,
                        price: int, idTime: int, createdAt: int): (l: Listing)
    ensures ParseNumber(l.id) == Some(idTime as real) && l.createdAt == createdAt
    ensures l.views == 0 && l.price == price && l.isFeatured == Some(f.isFeatured)
    ensures l.title == f.title && l.description == f.description
    ensures l.category == f.category && l.location == f.location && l.userId == SubmitterId
    ensures images != [] ==> l.images == images
    ensures images == [] ==> l.images == [DefaultImage]
    ensures l.userName != "" && (f.userName != "" ==> l.userName == f.userName)
    ensures l.userPhone != "" && (f.userPhone != "" ==> l.userPhone == f.userPhone)
    ensures l.extension == ExtensionFor(f.category, v, p)
  {
    ParseShowRoundTrip(idTime);
    Listing(
      ShowNumber(idTime),
      f.title,
      f.description,
      price,
      f.category,
      None,
      f.location,
      if |images| > 0 then images else [DefaultImage],
      SubmitterId,
      if f.userName != "" then f.userName else DefaultUserName,
      if f.userPhone != "" then f.userPhone else DefaultUserPhone,
      createdAt,
      0,
      Some(f.isFeatured),
      ExtensionFor(f.category, v, p))
  }

  /** A record built under "vehicles" reads as a VehicleListing carrying the
      form's vehicle fields and as a PropertyListing with no property field;
      under "real-estate" the other way round. */
  lemma BuiltListingIsTyped(f: FormData, images: seq<string>, v: VehicleData, p: PropertyData,
                            price: int, idTime: int, createdAt: int)
    ensures var l := BuildListing(f, images, v, p, price, idTime, createdAt);
      && (f.category == "vehicles" ==>
            && AsVehicleListing(l).brand == Some(v.brand) && AsVehicleListing(l).model == Some(v.model)
            && AsVehicleListing(l).year == Some(v.year) && AsPropertyListing(l).city.None?)
      && (f.category == "real-estate" ==>
            && AsPropertyListing(l).city == Some(p.city) && AsPropertyListing(l).district == Some(p.district)
            && AsPropertyListing(l).neighborhood == Some(p.neighborhood) && AsVehicleListing(l).brand.None?)
  {
  }

  /** What a submit led to. */
  datatype SubmitOutcome =
    | MissingFields              // a required field is empty; nothing is stored
    | PriceNotInteger            // NaN or a fraction, which the model does not store; nothing is stored
    | Saved(listing: Listing)    // the record was prepended to the stored collection

  // ---------------------------------------------------------------------------
  // The form

  class AddListingForm {
    const brands: seq<Brand>
    var formData: FormData
    var images: seq<string>
    var vehicleData: VehicleData
    var propertyData: PropertyData
    var availableModels: seq<string>
    var availableDistricts: seq<District>
    var availableNeighborhoods: seq<string>

    /** The add control is offered only below the cap, so the list never
        grows past it. */
    ghost predicate Valid()
      reads this
    {
      |images| <= MaxImages
    }

    constructor (brands: seq<Brand>)
      ensures Valid()
      ensures this.brands == brands && formData == EmptyForm && images == []
      ensures vehicleData == EmptyVehicle && propertyData == EmptyProperty
      ensures availableModels == [] && availableDistricts == [] && availableNeighborhoods == []
    {
      this.brands := brands;
      formData := EmptyForm;
      images := [];
      vehicleData := EmptyVehicle;
      propertyData := EmptyProperty;
      availableModels := [];
      availableDistricts := [];
      availableNeighborhoods := [];
    }

    /** The brand effect: with a brand chosen, offer its models and clear the
        model. With the brand empty it does nothing. */
    method BrandEffect()
      modifies this
      ensures vehicleData.brand != "" ==>
        availableModels == ModelsOf(brands, vehicleData.brand) && vehicleData == old(vehicleData).(model := "")
      ensures vehicleData.brand == "" ==> availableModels == old(availableModels) && vehicleData == old(vehicleData)
      ensures formData == old(formData) && images == old(images) && propertyData == old(propertyData)
      ensures availableDistricts == old(availableDistricts) && availableNeighborhoods == old(availableNeighborhoods)
    {
      if vehicleData.brand != "" {
        availableModels := ModelsOf(brands, vehicleData.brand);
        vehicleData := vehicleData.(model := "");
      }
    }

    /** The city effect: with a city chosen, offer its districts (none for an
        unknown city) and clear both district and neighborhood. */
    method CityEffect()
      modifies this
      ensures propertyData.city != "" ==>
        availableDistricts == DistrictsOf(propertyData.city)
        && propertyData == old(propertyData).(district := "", neighborhood := "")
      ensures propertyData.city == "" ==> availableDistricts == old(availableDistricts) && propertyData == old(propertyData)
      ensures formData == old(formData) && images == old(images) && vehicleData == old(vehicleData)
      ensures availableModels == old(availableModels) && availableNeighborhoods == old(availableNeighborhoods)
    {
      if propertyData.city != "" {
        availableDistricts := DistrictsOf(propertyData.city);
        propertyData := propertyData.(district := "", neighborhood := "");
      }
    }

    /** The district effect: with a district chosen, offer its neighborhoods
        from the districts currently on offer and clear only the
        neighborhood. */
    method DistrictEffect()
      modifies this
      ensures propertyData.district != "" ==>
        availableNeighborhoods == NeighborhoodsOf(availableDistricts, propertyData.district)
        && propertyData == old(propertyData).(neighborhood := "")
      ensures propertyData.district == "" ==>
        availableNeighborhoods == old(availableNeighborhoods) && propertyData == old(propertyData)
      ensures formData == old(formData) && images == old(images) && vehicleData == old(vehicleData)
      ensures availableModels == old(availableModels) && availableDistricts == old(availableDistricts)
    {
      if propertyData.district != "" {
        availableNeighborhoods := NeighborhoodsOf(availableDistricts, propertyData.district);
        propertyData := propertyData.(neighborhood := "");
      }
    }

    /** `handleInputChange` for a text field. */
    method HandleInputChange(field: FormField, value: string)
      modifies this
      ensures formData == SetForm(old(formData), field, value)
      ensures images == old(images) && vehicleData == old(vehicleData) && propertyData == old(propertyData)
      ensures availableModels == old(availableModels) && availableDistricts == old(availableDistricts)
      ensures availableNeighborhoods == old(availableNeighborhoods)
    {
      formData := SetForm(formData, field, value);
    }

    /** `handleInputChange("isFeatured", checked)`. */
    method HandleFeaturedChange(checked: bool)
      modifies this
      ensures formData == old(formData).(isFeatured := checked)
      ensures images == old(images) && vehicleData == old(vehicleData) && propertyData == old(propertyData)
      ensures availableModels == old(availableModels) && availableDistricts == old(availableDistricts)
      ensures availableNeighborhoods == old(availableNeighborhoods)
    {
      formData := formData.(isFeatured := checked);
    }

    /** `handleVehicleChange`, followed by the brand effect when the brand
        changed: a new non-empty brand offers its models and clears the model;
        clearing the brand changes nothing else. */
    method HandleVehicleChange(field: VehicleField, value: string)
      modifies this
      ensures var upd := SetVehicle(old(vehicleData), field, value);
        if field == BrandField && value != old(vehicleData.brand) && value != "" then
          vehicleData == upd.(model := "") && availableModels == ModelsOf(brands, value)
        else
          vehicleData == upd && availableModels == old(availableModels)
      ensures formData == old(formData) && images == old(images) && propertyData == old(propertyData)
      ensures availableDistricts == old(availableDistricts) && availableNeighborhoods == old(availableNeighborhoods)
    {
      var before := vehicleData.brand;
      vehicleData := SetVehicle(vehicleData, field, value);
      if vehicleData.brand != before {
        BrandEffect();
      }
    }

    /** `handlePropertyChange`, followed by the effects whose dependencies it
        changed. A new non-empty city offers its districts and clears district
        and neighborhood; the district effect then runs on the cleared district
        and does nothing, so the neighborhood options stay as they were. A new
        non-empty district offers its neighborhoods, looked up in the districts
        on offer, and clears only the neighborhood. */
    method HandlePropertyChange(field: PropertyField, value: string)
      modifies this
      ensures var upd := SetProperty(old(propertyData), field, value);
        if field == CityField && value != old(propertyData.city) && value != "" then
          && propertyData == upd.(district := "", neighborhood := "")
          && availableDistricts == DistrictsOf(value)
          && availableNeighborhoods == old(availableNeighborhoods)
        else if field == DistrictField && value != old(propertyData.district) && value != "" then
          && propertyData == upd.(neighborhood := "")
          && availableDistricts == old(availableDistricts)
          && availableNeighborhoods == NeighborhoodsOf(old(availableDistricts), value)
        else
          && propertyData == upd
          && availableDistricts == old(availableDistricts)
          && availableNeighborhoods == old(availableNeighborhoods)
      ensures formData == old(formData) && images == old(images) && vehicleData == old(vehicleData)
      ensures availableModels == old(availableModels)
    {
      var city, district, districts := propertyData.city, propertyData.district, availableDistricts;
      propertyData := SetProperty(propertyData, field, value);
      if propertyData.city != city {
        CityEffect();
      }
      if propertyData.district != district || availableDistricts != districts {
        DistrictEffect();
      }
    }

    /** `handleImageAdd`, reachable only while the add control is shown:
        appends one placeholder at the end. */
    method HandleImageAdd()
      requires Valid() && |images| < MaxImages
      modifies this
      ensures Valid()
      ensures images == old(images) + [PlaceholderImage(formData.title)]
      ensures formData == old(formData) && vehicleData == old(vehicleData) && propertyData == old(propertyData)
      ensures availableModels == old(availableModels) && availableDistricts == old(availableDistricts)
      ensures availableNeighborhoods == old(availableNeighborhoods)
    {
      images := images + [PlaceholderImage(formData.title)];
    }

    /** `handleImageRemove`: drops the image at `index`, keeping the others
        in order. */
    method HandleImageRemove(index: int)
      requires Valid()
      modifies this
      ensures Valid()
      ensures images == RemoveAt(old(images), index)
      ensures formData == old(formData) && vehicleData == old(vehicleData) && propertyData == old(propertyData)
      ensures availableModels == old(availableModels) && availableDistricts == old(availableDistricts)
      ensures availableNeighborhoods == old(availableNeighborhoods)
    {
      images := RemoveAt(images, index);
    }

    /** `handleSubmit`, whose two clock readings are `idTime` and
        `createdAt`. With a required field empty nothing is stored. Otherwise
        the built record goes in front of the stored collection, which
        follows unchanged and in order; no other key of the store is
        written. */
    method HandleSubmit(store: Store, idTime: int, createdAt: int) returns (outcome: SubmitOutcome)
      requires store.Valid()
      modifies store
      ensures store.Valid()
      ensures !RequiredPresent(formData) ==> outcome == MissingFields && store.entries == old(store.entries)
      ensures RequiredPresent(formData) && !WholePrice(formData.price) ==>
        outcome == PriceNotInteger && store.entries == old(store.entries)
      ensures RequiredPresent(formData) && WholePrice(formData.price) ==>
        && outcome == Saved(BuildListing(formData, images, vehicleData, propertyData,
                                         ParseNumber(formData.price).value.Floor, idTime, createdAt))
        && outcome.listing.price as real == ParseNumber(formData.price).value
        && (store.inBrowser ==>
              store.entries == old(store.entries)[ListingsKey := ListingsEntry([outcome.listing] + old(store.StoredListings()))])
        && (!store.inBrowser ==> store.entries == old(store.entries))
    {
      if !RequiredPresent(formData) {
        return MissingFields;
      }
      var price := ParseNumber(formData.price);
      if price.None? || price.value.Floor as real != price.value {
        return PriceNotInteger;
      }
      var l := BuildListing(formData, images, vehicleData, propertyData, price.value.Floor, idTime, createdAt);
      var listings := store.GetListings();
      store.SetListings([l] + listings);
      outcome := Saved(l);
    }
  }

  // ---------------------------------------------------------------------------
  // Worked cases

  /** Choosing Istanbul and then Kadıköy offers Kadıköy's neighborhoods,
      Moda among them; choosing Ankara next clears the district and the
      neighborhood and offers Ankara's five districts. */
  method CascadeExample()
  {
    var form := new AddListingForm([]);
    KnownEntries();
    form.HandlePropertyChange(CityField, "istanbul");
    assert form.availableDistricts == DistrictsOf("istanbul");
    form.HandlePropertyChange(DistrictField, "kadikoy");
    assert form.availableNeighborhoods == NeighborhoodsOf(DistrictsOf("istanbul"), "kadikoy");
    assert "Moda" in form.availableNeighborhoods;
    form.HandlePropertyChange(NeighborhoodField, "Moda");
    assert form.propertyData.neighborhood == "Moda";
    form.HandlePropertyChange(CityField, "ankara");
    assert form.propertyData.district == "" && form.propertyData.neighborhood == "";
    assert |form.availableDistricts| == 5;
  }

  /** With the six images the add control allows, the list is full; removing
      the third one leaves five, the others in order. */
  method ImagesExample()
  {
    var form := new AddListingForm([]);
    var n := 0;
    while n < MaxImages
      invariant 0 <= n <= MaxImages && |form.images| == n && form.Valid()
      invariant form.formData == EmptyForm
    {
      form.HandleImageAdd();
      n := n + 1;
    }
    assert |form.images| == MaxImages;
    var before := form.images;
    form.HandleImageRemove(2);
    assert |form.images| == 5;
    assert form.images == before[..2] + before[3..];
  }
}
