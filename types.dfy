/** The marketplace's records: listings, users, categories and the
    category-specific extensions a listing may carry (lib/types.ts). */
module Types {
  import opened SeqUtil

  /** The vehicle fields the add-listing form collects; a listing in the
      "vehicles" category stores them as entered, as text. */
  datatype VehicleData = VehicleData(
    vehicleType: string,
    brand: string,
    model: string,
    year: string,
    engineSize: string,
    engineType: string,
    transmission: string,
    color: string,
    mileage: string)

  /** The property fields the add-listing form collects for "real-estate". */
  datatype PropertyData = PropertyData(
    propertyType: string,
    city: string,
    district: string,
    neighborhood: string,
    roomCount: string,
    squareMeters: string,
    buildingAge: string,
    floor: string,
    heatingType: string)

  /** What is merged onto the base record: nothing, the vehicle fields or
      the property fields. */
  datatype Extension = NoExtension | Vehicle(vehicle: VehicleData) | Property(property: PropertyData)

  /** A marketplace post. `createdAt` is the creation time as a timestamp
      (milliseconds); `isFeatured` and `subcategory` may be absent. */
  datatype Listing = Listing(
    id: string,
    title: string,
    description: string,
    price: int,
    category: string,
    subcategory: Option<string>,
    location: string,
    images: seq<string>,
    userId: string,
    userName: string,
    userPhone: string,
    createdAt: int,
    views: int,
    isFeatured: Option<bool>,
    extension: Extension)

  /** An account; `favorites` is an ordered sequence of listing ids. */
  datatype User = User(
    id: string,
    name: string,
    email: string,
    phone: string,
    password: string,
    createdAt: string,
    favorites: seq<string>)

  datatype Subcategory = Subcategory(id: string, name: string, count: int)

  datatype Category = Category(
    id: string,
    name: string,
    icon: string,
    count: int,
    subcategories: Option<seq<Subcategory>>)

  // ---------------------------------------------------------------------------
  // The typed extensions of lib/types.ts

  /** A VehicleListing: a listing plus optional vehicle fields. */
  datatype VehicleListing = VehicleListing(
    base: Listing,
    vehicleType: Option<string>,
    brand: Option<string>,
    model: Option<string>,
    year: Option<string>,
    engineSize: Option<string>,
    engineType: Option<string>,
    transmission: Option<string>,
    fuelType: Option<string>,
    mileage: Option<int>,
    color: Option<string>)

  /** A PropertyListing: a listing plus optional property fields. */
  datatype PropertyListing = PropertyListing(
    base: Listing,
    propertyType: Option<string>,
    city: Option<string>,
    district: Option<string>,
    neighborhood: Option<string>,
    roomCount: Option<string>,
    squareMeters: Option<int>,
    buildingAge: Option<string>,
    floor: Option<string>,
    heatingType: Option<string>)

  /** A listing read as a VehicleListing: the vehicle fields merged in by
      the add-listing form are present, as entered, and absent for any other
      listing. `mileage` is declared a number but the form merges its text,
      so the typed view leaves it absent; `fuelType` is never collected. */
  function AsVehicleListing(l: Listing): (v: VehicleListing)
    ensures v.base == l
    ensures v.fuelType.None? && v.mileage.None?
    ensures l.extension.Vehicle? ==>
      var d := l.extension.vehicle;
      && v.vehicleType == Some(d.vehicleType) && v.brand == Some(d.brand) && v.model == Some(d.model)
      && v.year == Some(d.year) && v.engineSize == Some(d.engineSize) && v.engineType == Some(d.engineType)
      && v.transmission == Some(d.transmission) && v.color == Some(d.color)
    ensures !l.extension.Vehicle? ==>
      && v.vehicleType.None? && v.brand.None? && v.model.None? && v.year.None?
      && v.engineSize.None? && v.engineType.None? && v.transmission.None? && v.color.None?
  {
    match l.extension
    case Vehicle(d) =>
      VehicleListing(l, Some(d.vehicleType), Some(d.brand), Some(d.model), Some(d.year), Some(d.engineSize),
                     Some(d.engineType), Some(d.transmission), None, None, Some(d.color))
    case _ => VehicleListing(l, None, None, None, None, None, None, None, None, None, None)
  }

  /** A listing read as a PropertyListing: the property fields merged in by
      the add-listing form are present, as entered, and absent for any other
      listing. `squareMeters` is declared a number but the form merges its
      text, so the typed view leaves it absent. */
  function AsPropertyListing(l: Listing): (p: PropertyListing)
    ensures p.base == l
    ensures p.squareMeters.None?
    ensures l.extension.Property? ==>
      var d := l.extension.property;
      && p.propertyType == Some(d.propertyType) && p.city == Some(d.city) && p.district == Some(d.district)
      && p.neighborhood == Some(d.neighborhood) && p.roomCount == Some(d.roomCount)
      && p.buildingAge == Some(d.buildingAge) && p.floor == Some(d.floor) && p.heatingType == Some(d.heatingType)
    ensures !l.extension.Property? ==>
      && p.propertyType.None? && p.city.None? && p.district.None? && p.neighborhood.None?
      && p.roomCount.None? && p.buildingAge.None? && p.floor.None? && p.heatingType.None?
  {
    match l.extension
    case Property(d) =>
      PropertyListing(l, Some(d.propertyType), Some(d.city), Some(d.district), Some(d.neighborhood),
                      Some(d.roomCount), None, Some(d.buildingAge), Some(d.floor), Some(d.heatingType))
    case _ => PropertyListing(l, None, None, None, None, None, None, None, None, None)
  }

  // ---------------------------------------------------------------------------
  // GamingItem and its closed enumerations

  datatype ItemType = Skin | Weapon | Character | Currency | Account | Other
  datatype Rarity = Common | Uncommon | Rare | Epic | Legendary | Mythic
  datatype Condition = FactoryNew | MinimalWear | FieldTested | WellWorn | BattleScarred

  datatype GamingItem = GamingItem(
    base: Listing,
    game: string,
    itemType: ItemType,
    rarity: Option<Rarity>,
    condition: Option<Condition>,
    floatValue: Option<real>,
    tradeLink: Option<string>,
    steamId: Option<string>)

  function ItemTypeName(t: ItemType): string
  {
    match t
    case Skin => "skin"
    case Weapon => "weapon"
    case Character => "character"
    case Currency => "currency"
    case Account => "account"
    case Other => "other"
  }

  /** The item type a stored text denotes; None for any text outside the union. */
  function ParseItemType(s: string): Option<ItemType>
  {
    if s == "skin" then Some(Skin)
    else if s == "weapon" then Some(Weapon)
    else if s == "character" then Some(Character)
    else if s == "currency" then Some(Currency)
    else if s == "account" then Some(Account)
    else if s == "other" then Some(Other)
    else None
  }

  function RarityName(r: Rarity): string
  {
    match r
    case Common => "common"
    case Uncommon => "uncommon"
    case Rare => "rare"
    case Epic => "epic"
    case Legendary => "legendary"
    case Mythic => "mythic"
  }

  function ParseRarity(s: string): Option<Rarity>
  {
    if s == "common" then Some(Common)
    else if s == "uncommon" then Some(Uncommon)
    else if s == "rare" then Some(Rare)
    else if s == "epic" then Some(Epic)
    else if s == "legendary" then Some(Legendary)
    else if s == "mythic" then Some(Mythic)
    else None
  }

  function ConditionName(c: Condition): string
  {
    match c
    case FactoryNew => "factory-new"
    case MinimalWear => "minimal-wear"
    case FieldTested => "field-tested"
    case WellWorn => "well-worn"
    case BattleScarred => "battle-scarred"
  }

  function ParseCondition(s: string): Option<Condition>
  {
    if s == "factory-new" then Some(FactoryNew)
    else if s == "minimal-wear" then Some(MinimalWear)
    else if s == "field-tested" then Some(FieldTested)
    else if s == "well-worn" then Some(WellWorn)
    else if s == "battle-scarred" then Some(BattleScarred)
    else None
  }

  const ItemTypeNames: seq<string> := ["skin", "weapon", "character", "currency", "account", "other"]
  const RarityNames: seq<string> := ["common", "uncommon", "rare", "epic", "legendary", "mythic"]
  const ConditionNames: seq<string> :=
    ["factory-new", "minimal-wear", "field-tested", "well-worn", "battle-scarred"]

  /** The item-type union is closed: exactly the six listed texts parse, and
      each parses back to the value it names. */
  lemma ItemTypeClosed(s: string, t: ItemType)
    ensures |ItemTypeNames| == 6
    ensures ParseItemType(ItemTypeName(t)) == Some(t) && ItemTypeName(t) in ItemTypeNames
    ensures ParseItemType(s).Some? <==> s in ItemTypeNames
    ensures ParseItemType(s) == Some(t) ==> s == ItemTypeName(t)
  {
  }

  /** The rarity union is closed: six texts, each naming one value. */
  lemma RarityClosed(s: string, r: Rarity)
    ensures |RarityNames| == 6
    ensures ParseRarity(RarityName(r)) == Some(r) && RarityName(r) in RarityNames
    ensures ParseRarity(s).Some? <==> s in RarityNames
    ensures ParseRarity(s) == Some(r) ==> s == RarityName(r)
  {
  }

  /** The condition union is closed: five texts, each naming one value. */
  lemma ConditionClosed(s: string, c: Condition)
    ensures |ConditionNames| == 5
    ensures ParseCondition(ConditionName(c)) == Some(c) && ConditionName(c) in ConditionNames
    ensures ParseCondition(s).Some? <==> s in ConditionNames
    ensures ParseCondition(s) == Some(c) ==> s == ConditionName(c)
  {
  }
}
