/** The reference tables of lib/location-data.ts: the city -> district ->
    neighborhood table the add-listing form's cascade resolves against, and
    the small option lists of the property form. */
module LocationData {
  import opened SeqUtil

  datatype District = District(id: string, name: string, neighborhoods: seq<string>)
  datatype City = City(id: string, name: string, districts: seq<District>)

  const Kadikoy: District := District("kadikoy", "Kadıköy", [
    "Acıbadem", "Bostancı", "Caddebostan", "Erenköy", "Fenerbahçe", "Göztepe", "Kozyatağı", "Moda", "Suadiye", "Feneryolu"])
  const Besiktas: District := District("besiktas", "Beşiktaş", [
    "Arnavutköy", "Bebek", "Etiler", "Levent", "Nişantaşı", "Ortaköy", "Ulus", "Yıldız"])
  const Sisli: District := District("sisli", "Şişli", [
    "Bomonti", "Esentepe", "Fulya", "Gayrettepe", "Mecidiyeköy", "Osmanbey", "Şişli Merkez"])
  const Uskudar: District := District("uskudar", "Üsküdar", [
    "Acıbadem", "Altunizade", "Beylerbeyi", "Çengelköy", "Kısıklı", "Kuzguncuk", "Validebağ"])
  const Bakirkoy: District :=
    District("bakirkoy", "Bakırköy", ["Ataköy", "Bahçelievler", "Florya", "Yeşilköy", "Yeşilyurt"])
  const Sariyer: District := District("sariyer", "Sarıyer", [
    "Emirgan", "İstinye", "Rumeli Kavağı", "Tarabya", "Yeniköy", "Zekeriyaköy"])
  const Maltepe: District :=
    District("maltepe", "Maltepe", ["Altayçeşme", "Bağlarbaşı", "Cevizli", "Fındıklı", "İdealtepe"])
  const Kartal: District :=
    District("kartal", "Kartal", ["Cevizli", "Esentepe", "Kordonboyu", "Soğanlık", "Yakacık"])
  const Istanbul: City :=
    City("istanbul", "İstanbul", [Kadikoy, Besiktas, Sisli, Uskudar, Bakirkoy, Sariyer, Maltepe, Kartal])

  const Cankaya: District := District("cankaya", "Çankaya", [
    "Bahçelievler", "Balgat", "Çayyolu", "Kavaklıdere", "Kızılay", "Oran", "Ümitköy"])
  const Kecioren: District :=
    District("kecioren", "Keçiören", ["Aktepe", "Bağlum", "Etlik", "Kalaba", "Ovacık"])
  const Yenimahalle: District :=
    District("yenimahalle", "Yenimahalle", ["Batıkent", "Demetevler", "Ergazi", "Ostim", "Şentepe"])
  const Mamak: District := District("mamak", "Mamak", ["Akdere", "Ege", "Şafak", "Tuzluçayır"])
  const Etimesgut: District :=
    District("etimesgut", "Etimesgut", ["Eryaman", "Güzelkent", "Şehit Osman Avcı", "Tunahan"])
  const Ankara: City :=
    City("ankara", "Ankara", [Cankaya, Kecioren, Yenimahalle, Mamak, Etimesgut])

  const Konak: District :=
    District("konak", "Konak", ["Alsancak", "Basmane", "Göztepe", "Hatay", "Kahramanlar", "Konak Merkez"])
  const Bornova: District :=
    District("bornova", "Bornova", ["Erzene", "Evka", "Kazımdirik", "Merkez", "Yamanlar"])
  const Karsiyaka: District :=
    District("karsiyaka", "Karşıyaka", ["Bostanlı", "Çarşı", "Mavişehir", "Nergiz", "Yamanlar"])
  const Buca: District := District("buca", "Buca", ["Adatepe", "Kozağaç", "Kuruçeşme", "Merkez", "Yaylacık"])
  const Balcova: District :=
    District("balcova", "Balçova", ["Ege Mahallesi", "Onur Mahallesi", "Teleferik", "Yeşiltepe"])
  const Izmir: City :=
    City("izmir", "İzmir", [Konak, Bornova, Karsiyaka, Buca, Balcova])

  const Muratpasa: District :=
    District("muratpasa", "Muratpaşa", ["Fener", "Güzeloba", "Kılınçarslan", "Lara", "Meltem", "Sinan"])
  const Kepez: District := District("kepez", "Kepez", ["Düden", "Emek", "Gündoğdu", "Kepez Merkez", "Varsak"])
  const Konyaalti: District :=
    District("konyaalti", "Konyaaltı", ["Arapsuyu", "Hurma", "Liman", "Sarısu", "Uncalı"])
  const Alanya: District := District("alanya", "Alanya", ["Cikcilli", "Mahmutlar", "Oba", "Saray", "Tosmur"])
  const Antalya: City :=
    City("antalya", "Antalya", [Muratpasa, Kepez, Konyaalti, Alanya])

  const Nilufer: District :=
    District("nilufer", "Nilüfer", ["Ataevler", "Beşevler", "Ertuğrul", "Görükle", "Özlüce"])
  const Osmangazi: District :=
    District("osmangazi", "Osmangazi", ["Demirtaş", "Hürriyet", "Panayır", "Soğanlı", "Yunuseli"])
  const Yildirim: District :=
    District("yildirim", "Yıldırım", ["Arabayatağı", "Esenevler", "Millet", "Yıldırım Merkez"])
  const Bursa: City :=
    City("bursa", "Bursa", [Nilufer, Osmangazi, Yildirim])

  const Seyhan: District :=
    District("seyhan", "Seyhan", ["Çınarlı", "Döşeme", "Güzelyalı", "Reşatbey", "Ziyapaşa"])
  const Yuregir: District := District("yuregir", "Yüreğir", ["Köprülü", "Sarıçam", "Yüreğir Merkez"])
  const Cukurova: District := District("cukurova", "Çukurova", ["Balcalı", "Çukurova Merkez", "Yurt"])
  const Adana: City :=
    City("adana", "Adana", [Seyhan, Yuregir, Cukurova])

  const Sahinbey: District :=
    District("sahinbey", "Şahinbey", ["Bey", "Güneykent", "İbrahimli", "Karataş", "Şahinbey Merkez"])
  const Sehitkamil: District :=
    District("sehitkamil", "Şehitkamil", ["Akdere", "Güneşli", "Karacaahmet", "Şehitkamil Merkez"])
  const Gaziantep: City :=
    City("gaziantep", "Gaziantep", [Sahinbey, Sehitkamil])

  const Selcuklu: District :=
    District("selcuklu", "Selçuklu", ["Binkonut", "Buhara", "Horozluhan", "Sancak", "Yazır"])
  const Meram: District :=
    District("meram", "Meram", ["Aydınlıkevler", "Durunday", "Lalebahçe", "Meram Merkez"])
  const Karatay: District := District("karatay", "Karatay", ["Alaaddin", "Karatay Merkez", "Parsana"])
  const Konya: City :=
    City("konya", "Konya", [Selcuklu, Meram, Karatay])

  /** The city table, in the order the source lists it. */
  const TurkeyLocations: seq<City> :=
    [Istanbul, Ankara, Izmir, Antalya, Bursa, Adana, Gaziantep, Konya]

  datatype PropertyType = PropertyType(id: string, name: string)

  const PropertyTypes: seq<PropertyType> := [
    PropertyType("apartment", "Daire"),
    PropertyType("villa", "Villa"),
    PropertyType("residence", "Rezidans"),
    PropertyType("office", "İşyeri"),
    PropertyType("land", "Arsa"),
    PropertyType("building", "Bina"),
    PropertyType("farm", "Çiftlik"),
    PropertyType("commercial", "Ticari")
  ]

  const RoomCounts: seq<string> :=
    ["1+0", "1+1", "2+1", "3+1", "4+1", "5+1", "6+1", "7+1", "8+1", "9+1", "10+"]

  const BuildingAges: seq<string> :=
    ["0 (Yeni)", "1-5", "6-10", "11-15", "16-20", "21-25", "26-30", "31+"]

  const HeatingTypes: seq<string> := [
    "Doğalgaz (Kombi)",
    "Merkezi",
    "Klima",
    "Soba",
    "Yerden Isıtma",
    "Elektrikli Radyatör",
    "Güneş Enerjisi"
  ]

  // ---------------------------------------------------------------------------
  // Lookups, as the form's `find` calls perform them

  function CityIs(id: string): City -> bool { (c: City) => c.id == id }
  function DistrictIs(id: string): District -> bool { (d: District) => d.id == id }

  /** `turkeyLocations.find((c) => c.id === id)`. */
  function FindCity(id: string): Option<City>
  {
    Find(TurkeyLocations, CityIs(id))
  }

  /** `districts.find((d) => d.id === id)`. */
  function FindDistrict(districts: seq<District>, id: string): Option<District>
  {
    Find(districts, DistrictIs(id))
  }

  /** The districts offered for a city: its list, or [] for an unknown city. */
  function DistrictsOf(cityId: string): seq<District>
  {
    match FindCity(cityId)
    case Some(c) => c.districts
    case None => []
  }

  /** The neighborhoods offered for a district of the given list, or []. */
  function NeighborhoodsOf(districts: seq<District>, districtId: string): seq<string>
  {
    match FindDistrict(districts, districtId)
    case Some(d) => d.neighborhoods
    case None => []
  }

  // ---------------------------------------------------------------------------
  // Facts about the table

  predicate DistinctCityIds(cs: seq<City>)
  {
    forall i, j :: 0 <= i < j < |cs| ==> cs[i].id != cs[j].id
  }

  predicate DistinctDistrictIds(ds: seq<District>)
  {
    forall i, j :: 0 <= i < j < |ds| ==> ds[i].id != ds[j].id
  }

  /** The ids of a list of records, in order. */
  function Ids<T>(xs: seq<T>, id: T -> string): (ids: seq<string>)
    ensures |ids| == |xs| && forall i :: 0 <= i < |xs| ==> ids[i] == id(xs[i])
  {
    seq(|xs|, i requires 0 <= i < |xs| => id(xs[i]))
  }

  function CityId(): City -> string { (c: City) => c.id }

  function DistrictId(): District -> string { (d: District) => d.id }

  /** No two cities share an id. */
  lemma CityIdsDistinct()
    ensures DistinctCityIds(TurkeyLocations)
  {
    var ids := ["istanbul", "ankara", "izmir", "antalya", "bursa", "adana", "gaziantep", "konya"];
    assert Ids(TurkeyLocations, CityId()) == ids;
  }

  function NeighborhoodCounts(ds: seq<District>): (counts: seq<nat>)
    ensures |counts| == |ds| && forall i :: 0 <= i < |ds| ==> counts[i] == |ds[i].neighborhoods|
  {
    seq(|ds|, i requires 0 <= i < |ds| => |ds[i].neighborhoods|)
  }

  lemma IstanbulWellFormed()
    ensures DistinctDistrictIds(Istanbul.districts)
    ensures forall d :: d in Istanbul.districts ==> |d.neighborhoods| >= 3
  {
    var ids := ["kadikoy", "besiktas", "sisli", "uskudar", "bakirkoy", "sariyer", "maltepe", "kartal"];
    assert Ids(Istanbul.districts, DistrictId()) == ids;
    assert NeighborhoodCounts(Istanbul.districts) == [10, 8, 7, 7, 5, 6, 5, 5];
  }

  lemma AnkaraWellFormed()
    ensures DistinctDistrictIds(Ankara.districts)
    ensures forall d :: d in Ankara.districts ==> |d.neighborhoods| >= 3
  {
    var ids := ["cankaya", "kecioren", "yenimahalle", "mamak", "etimesgut"];
    assert Ids(Ankara.districts, DistrictId()) == ids;
    assert NeighborhoodCounts(Ankara.districts) == [7, 5, 5, 4, 4];
  }

  lemma IzmirWellFormed()
    ensures DistinctDistrictIds(Izmir.districts)
    ensures forall d :: d in Izmir.districts ==> |d.neighborhoods| >= 3
  {
    var ids := ["konak", "bornova", "karsiyaka", "buca", "balcova"];
    assert Ids(Izmir.districts, DistrictId()) == ids;
    assert NeighborhoodCounts(Izmir.districts) == [6, 5, 5, 5, 4];
  }

  lemma AntalyaWellFormed()
    ensures DistinctDistrictIds(Antalya.districts)
    ensures forall d :: d in Antalya.districts ==> |d.neighborhoods| >= 3
  {
    var ids := ["muratpasa", "kepez", "konyaalti", "alanya"];
    assert Ids(Antalya.districts, DistrictId()) == ids;
    assert NeighborhoodCounts(Antalya.districts) == [6, 5, 5, 5];
  }

  lemma BursaWellFormed()
    ensures DistinctDistrictIds(Bursa.districts)
    ensures forall d :: d in Bursa.districts ==> |d.neighborhoods| >= 3
  {
    var ids := ["nilufer", "osmangazi", "yildirim"];
    assert Ids(Bursa.districts, DistrictId()) == ids;
    assert NeighborhoodCounts(Bursa.districts) == [5, 5, 4];
  }

  lemma AdanaWellFormed()
    ensures DistinctDistrictIds(Adana.districts)
    ensures forall d :: d in Adana.districts ==> |d.neighborhoods| >= 3
  {
    var ids := ["seyhan", "yuregir", "cukurova"];
    assert Ids(Adana.districts, DistrictId()) == ids;
    assert NeighborhoodCounts(Adana.districts) == [5, 3, 3];
  }

  lemma GaziantepWellFormed()
    ensures DistinctDistrictIds(Gaziantep.districts)
    ensures forall d :: d in Gaziantep.districts ==> |d.neighborhoods| >= 3
  {
    var ids := ["sahinbey", "sehitkamil"];
    assert Ids(Gaziantep.districts, DistrictId()) == ids;
    assert NeighborhoodCounts(Gaziantep.districts) == [5, 4];
  }

  lemma KonyaWellFormed()
    ensures DistinctDistrictIds(Konya.districts)
    ensures forall d :: d in Konya.districts ==> |d.neighborhoods| >= 3
  {
    var ids := ["selcuklu", "meram", "karatay"];
    assert Ids(Konya.districts, DistrictId()) == ids;
    assert NeighborhoodCounts(Konya.districts) == [5, 4, 3];
  }

  /** Within each city no two districts share an id, and every district
      offers at least three neighborhoods. */
  lemma DistrictsWellFormed()
    ensures forall c :: c in TurkeyLocations ==> DistinctDistrictIds(c.districts)
    ensures forall c, d :: c in TurkeyLocations && d in c.districts ==> |d.neighborhoods| >= 3
  {
    IstanbulWellFormed();
    AnkaraWellFormed();
    IzmirWellFormed();
    AntalyaWellFormed();
    BursaWellFormed();
    AdanaWellFormed();
    GaziantepWellFormed();
    KonyaWellFormed();
  }

  lemma TableIdsDistinct()
    ensures DistinctCityIds(TurkeyLocations)
    ensures forall c :: c in TurkeyLocations ==> DistinctDistrictIds(c.districts)
  {
    CityIdsDistinct();
    DistrictsWellFormed();
  }

  /** Because the ids are distinct, a lookup finds the one city with that id,
      whatever the order of the table. */
  lemma {:induction false} FindCityUnique(c: City)
    requires c in TurkeyLocations
    ensures FindCity(c.id) == Some(c)
  {
    TableIdsDistinct();
    FindUniqueCity(TurkeyLocations, c);
  }

  lemma {:induction false} FindUniqueCity(cs: seq<City>, c: City)
    requires DistinctCityIds(cs) && c in cs
    ensures Find(cs, CityIs(c.id)) == Some(c)
  {
    var r := Find(cs, CityIs(c.id));
    var i := FindIndex(cs, CityIs(c.id)).value;
    var k :| 0 <= k < |cs| && cs[k] == c;
    assert CityIs(c.id)(cs[k]);
    assert i <= k;
    assert cs[i].id == c.id;
    assert i == k;
  }

  /** Within a city, a lookup finds the one district with that id. */
  lemma {:induction false} FindDistrictUnique(ds: seq<District>, d: District)
    requires DistinctDistrictIds(ds) && d in ds
    ensures FindDistrict(ds, d.id) == Some(d)
  {
    var i := FindIndex(ds, DistrictIs(d.id)).value;
    var k :| 0 <= k < |ds| && ds[k] == d;
    assert DistrictIs(d.id)(ds[k]);
    assert i <= k;
    assert ds[i].id == d.id;
    assert i == k;
  }

  /** "istanbul" -> "kadikoy" offers "Moda"; Ankara has exactly five districts. */
  lemma KnownEntries()
    ensures "Moda" in NeighborhoodsOf(DistrictsOf("istanbul"), "kadikoy")
    ensures |DistrictsOf("ankara")| == 5
  {
    FindCityUnique(TurkeyLocations[0]);
    FindCityUnique(TurkeyLocations[1]);
    FindDistrictUnique(TurkeyLocations[0].districts, TurkeyLocations[0].districts[0]);
  }

  /** Neighborhood names are not unique across districts: "Acıbadem" is in
      both Kadıköy and Üsküdar, so a neighborhood does not determine its
      district. */
  lemma NeighborhoodNotUnique()
    ensures "Acıbadem" in NeighborhoodsOf(DistrictsOf("istanbul"), "kadikoy")
    ensures "Acıbadem" in NeighborhoodsOf(DistrictsOf("istanbul"), "uskudar")
  {
    FindCityUnique(Istanbul);
    TableIdsDistinct();
    FindDistrictUnique(Istanbul.districts, Kadikoy);
    FindDistrictUnique(Istanbul.districts, Uskudar);
    assert Kadikoy.neighborhoods[0] == "Acıbadem" && Uskudar.neighborhoods[0] == "Acıbadem";
  }

  /** The option lists have 11 room counts and 8 building ages. */
  lemma OptionListSizes()
    ensures |RoomCounts| == 11 && |BuildingAges| == 8
    ensures |PropertyTypes| == 8 && |HeatingTypes| == 7
  {
  }
}
