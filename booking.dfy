/** The booking form: the two-tier service catalogue, the tiered deposit
    rule, hourly time slots filtered against the session's booked slots,
    the required-field check, field-by-field form updates and the step
    machine booking form -> payment -> confirmed -> booking form. */
module Booking {
  import opened Text

  // ---------------------------------------------------------------- catalogue

  /** A core service: its price depends on the vehicle type. */
  datatype CoreService = CoreService(id: string, name: string, prices: map<string, int>, duration: string)

  /** A premium service: one flat price for every vehicle. */
  datatype PremiumService = PremiumService(id: string, name: string, price: int, duration: string)

  /** An entry of a fixed choice list: the id stored in the form, the name shown. */
  datatype Choice = Choice(id: string, name: string)

  const VehicleTypes: seq<Choice> :=
    [Choice("small", "Small Car"), Choice("medium", "Medium Car"),
     Choice("large", "Large Car"), Choice("van", "Van")]

  const CoreServices: seq<CoreService> := [
    CoreService("car-wash", "Car Wash",
      map["small" := 7, "medium" := 9, "large" := 12, "van" := 14], "30 mins"),
    CoreService("mini-valet", "Mini Valet",
      map["small" := 14, "medium" := 16, "large" := 18, "van" := 20], "1 hour"),
    CoreService("full-valet", "Full Valet",
      map["small" := 45, "medium" := 55, "large" := 65, "van" := 70], "2-3 hours")
  ]

  const PremiumServices: seq<PremiumService> := [
    PremiumService("interior-detailing", "Interior Detailing", 120, "2-3 hours"),
    PremiumService("exterior-detailing", "Exterior Detailing", 200, "4-5 hours"),
    PremiumService("full-detailing", "Full Detailing", 300, "6-8 hours"),
    PremiumService("stage1-polishing", "Stage 1 Polishing", 400, "3-4 hours"),
    PremiumService("stage2-polishing", "Stage 2 Polishing", 550, "6+ hours")
  ]

  const ServiceLocations: seq<Choice> :=
    [Choice("mobile", "Mobile Service"), Choice("unit", "Visit Our Unit")]

  /** `services.find(s => s.id === id)`: the first entry whose id, read by
      `idOf`, is the one asked for. */
  function Find<T>(services: seq<T>, idOf: T -> string, id: string): (r: Option<T>)
    ensures r.Some? ==> r.value in services && idOf(r.value) == id
    ensures r.None? ==> forall k :: 0 <= k < |services| ==> idOf(services[k]) != id
  {
    if services == [] then None
    else if idOf(services[0]) == id then Some(services[0])
    else Find(services[1..], idOf, id)
  }

  function CoreId(s: CoreService): string { s.id }

  function PremiumId(s: PremiumService): string { s.id }

  /** `services.core.find(...)` and `services.premium.find(...)` by id. */
  function FindCore(id: string): Option<CoreService>
  {
    Find(CoreServices, CoreId, id)
  }

  function FindPremium(id: string): Option<PremiumService>
  {
    Find(PremiumServices, PremiumId, id)
  }

  /** The base price in whole pounds: the core price for the vehicle when the
      service is a core one, else the premium flat price, else 0. */
  function BasePrice(vehicleType: string, service: string): int
  {
    match FindCore(service)
    case Some(c) => if vehicleType in c.prices then c.prices[vehicleType] else 0
    case None =>
      match FindPremium(service)
      case Some(p) => p.price
      case None => 0
  }

  /** Service ids are unique across both tiers. */
  lemma CatalogueIdsDistinct()
    ensures forall j, l :: 0 <= j < l < |CoreServices| ==> CoreServices[j].id != CoreServices[l].id
    ensures forall j, l :: 0 <= j < l < |PremiumServices| ==> PremiumServices[j].id != PremiumServices[l].id
    ensures forall j, l :: 0 <= j < |CoreServices| && 0 <= l < |PremiumServices| ==>
      CoreServices[j].id != PremiumServices[l].id
  {
  }

  /** Looking a service up finds the catalogue's own entry: a core service
      priced for the vehicle, a premium service at its flat price whatever
      the vehicle, and 0 for an id in neither list. */
  lemma BasePriceLookup(vehicleType: string, service: string)
    ensures forall k :: 0 <= k < |CoreServices| && CoreServices[k].id == service ==>
      BasePrice(vehicleType, service)
        == (if vehicleType in CoreServices[k].prices then CoreServices[k].prices[vehicleType] else 0)
    ensures forall k :: 0 <= k < |PremiumServices| && PremiumServices[k].id == service ==>
      BasePrice(vehicleType, service) == PremiumServices[k].price
    ensures (forall k :: 0 <= k < |CoreServices| ==> CoreServices[k].id != service) &&
            (forall k :: 0 <= k < |PremiumServices| ==> PremiumServices[k].id != service) ==>
      BasePrice(vehicleType, service) == 0
  {
    CatalogueIdsDistinct();
  }

  // ---------------------------------------------------------------- deposit

  /** Price and deposit for the chosen vehicle and service. The deposit is
      kept in pence so that half of an odd price stays exact. */
  datatype Pricing = Pricing(basePrice: int, depositPence: int, depositPercentage: int)

  const NoPricing := Pricing(0, 0, 0)

  /** `pct` is `partPence` as a percentage of `wholePounds` pounds, rounded to
      the nearest integer with halves rounded up (`Math.round`). */
  ghost predicate IsRoundedPercentage(partPence: int, wholePounds: int, pct: int)
  {
    wholePounds * (2 * pct - 1) <= 2 * partPence < wholePounds * (2 * pct + 1)
  }

  /** The three-tier deposit rule. */
  function DepositFor(basePrice: int): (r: Pricing)
    ensures r.basePrice == basePrice
    ensures basePrice >= 500 ==> 2 * r.depositPence == 100 * basePrice && r.depositPercentage == 50
    ensures 200 <= basePrice < 500 ==>
      r.depositPence == 7000 && IsRoundedPercentage(7000, basePrice, r.depositPercentage)
    ensures basePrice < 200 ==> r.depositPence == 0 && r.depositPercentage == 0
  {
    if basePrice >= 500 then Pricing(basePrice, basePrice * 50, 50)
    else if basePrice >= 200 then
      var pct := (14000 + basePrice) / (2 * basePrice);
      RoundedShare(basePrice, pct);
      Pricing(basePrice, 7000, pct)
    else Pricing(basePrice, 0, 0)
  }

  /** Integer division gives `Math.round(70 / p * 100)` for the middle tier. */
  lemma RoundedShare(p: int, pct: int)
    requires 200 <= p < 500 && pct == (14000 + p) / (2 * p)
    ensures IsRoundedPercentage(7000, p, pct)
  {
    var q := 14000 + p;
    assert 2 * p * pct <= q < 2 * p * pct + 2 * p;
  }

  /** Whenever a deposit is taken it is positive, at most half the price,
      and the percentage shown is its share of the price rounded half up. */
  lemma DepositIsRoundedShare(basePrice: int)
    requires basePrice >= 200
    ensures var r := DepositFor(basePrice);
      0 < r.depositPence && 2 * r.depositPence <= 100 * basePrice &&
      IsRoundedPercentage(r.depositPence, basePrice, r.depositPercentage) &&
      1 <= r.depositPercentage <= 50
  {
    var r := DepositFor(basePrice);
    if basePrice < 500 {
      assert r.depositPercentage * basePrice * 2 <= 14000 + basePrice;
      assert r.depositPercentage * basePrice * 2 > 14000 - basePrice;
    }
  }

  /** The pricing effect's result for a vehicle type and a service. */
  function ComputePricing(vehicleType: string, service: string): Pricing
  {
    DepositFor(BasePrice(vehicleType, service))
  }

  /** A medium full valet costs 55 pounds and takes no deposit. */
  lemma FullValetExample()
    ensures ComputePricing("medium", "full-valet") == Pricing(55, 0, 0)
  {
    assert FindCore("full-valet") == Some(CoreServices[2]);
  }

  /** Full detailing (300 pounds) takes the fixed 70 pounds, shown as 23%. */
  lemma FullDetailingExample()
    ensures ComputePricing("medium", "full-detailing") == Pricing(300, 7000, 23)
  {
    assert FindCore("full-detailing") == None;
    assert FindPremium("full-detailing") == Some(PremiumServices[2]);
  }

  /** Stage 1 polishing (400 pounds): 70/400 is exactly 17.5%, rounded up to 18%. */
  lemma Stage1PolishingExample()
    ensures ComputePricing("van", "stage1-polishing") == Pricing(400, 7000, 18)
  {
    assert FindCore("stage1-polishing") == None;
    assert FindPremium("stage1-polishing") == Some(PremiumServices[3]);
  }

  /** Stage 2 polishing (550 pounds) takes half: 275 pounds, 50%. */
  lemma Stage2PolishingExample()
    ensures ComputePricing("small", "stage2-polishing") == Pricing(550, 27500, 50)
  {
    assert FindCore("stage2-polishing") == None;
    assert FindPremium("stage2-polishing") == Some(PremiumServices[4]);
  }

  /** No core service, for any vehicle, is dear enough to need a deposit. */
  lemma CoreServicesTakeNoDeposit(vehicleType: string, k: nat)
    requires k < |CoreServices|
    ensures ComputePricing(vehicleType, CoreServices[k].id).depositPence == 0
  {
    BasePriceLookup(vehicleType, CoreServices[k].id);
    var prices := CoreServices[k].prices;
    assert forall v :: v in prices ==> prices[v] < 200;
  }

  // ---------------------------------------------------------------- time slots

  function DigitChar(d: nat): char
    requires d < 10
  {
    ('0' as int + d) as char
  }

  /** The slot starting at `hour`, written `hour.toString().padStart(2, '0') + ":00"`. */
  function SlotLabel(hour: nat): string
    requires hour < 100
  {
    [DigitChar(hour / 10), DigitChar(hour % 10)] + ":00"
  }

  /** The key recording that `slot` on `date` is taken. */
  function SlotKey(date: string, slot: string): string
  {
    date + "-" + slot
  }

  /** The free slots among the hours `lo` .. `hi - 1`, in hour order. */
  function FreeSlotsBetween(date: string, booked: seq<string>, lo: nat, hi: nat): seq<string>
    requires hi < 100
    decreases hi
  {
    if hi <= lo then []
    else
      FreeSlotsBetween(date, booked, lo, hi - 1)
      + (if SlotKey(date, SlotLabel(hi - 1)) in booked then [] else [SlotLabel(hi - 1)])
  }

  const FirstHour: nat := 8
  const LastHour: nat := 18

  /** The time slots offered for `date`. */
  function AvailableSlots(date: string, booked: seq<string>): seq<string>
  {
    FreeSlotsBetween(date, booked, FirstHour, LastHour + 1)
  }

  /** The eleven slots of a day, earliest first. */
  const AllSlots: seq<string> :=
    ["08:00", "09:00", "10:00", "11:00", "12:00", "13:00", "14:00", "15:00", "16:00", "17:00", "18:00"]

  /** The generated labels are the zero-padded hours 08 to 18. */
  lemma AllSlotsAreLabels()
    ensures |AllSlots| == LastHour + 1 - FirstHour
    ensures forall i :: 0 <= i < |AllSlots| ==> AllSlots[i] == SlotLabel(FirstHour + i)
  {
    forall i | 0 <= i < |AllSlots|
      ensures AllSlots[i] == SlotLabel(FirstHour + i)
    {
      var h := FirstHour + i;
      assert SlotLabel(h) == [DigitChar(h / 10), DigitChar(h % 10), ':', '0', '0'];
      assert h / 10 == 0 || h / 10 == 1;
    }
  }

  /** `a` sorts before `b` under JavaScript's string comparison. */
  predicate LexLess(a: string, b: string)
  {
    (a != [] || b != []) &&
    (a == [] || (b != [] && (a[0] < b[0] || (a[0] == b[0] && LexLess(a[1..], b[1..])))))
  }

  /** Zero padding makes string order agree with hour order. */
  lemma SlotLabelOrder(a: nat, b: nat)
    requires a < b < 100
    ensures LexLess(SlotLabel(a), SlotLabel(b))
  {
    var la, lb := SlotLabel(a), SlotLabel(b);
    if a / 10 == b / 10 {
      assert la[1..][0] == DigitChar(a % 10) && lb[1..][0] == DigitChar(b % 10);
      assert LexLess(la[1..], lb[1..]);
    }
  }

  /** What a free-slot list holds: exactly the labels of the free hours. */
  lemma {:induction false} FreeSlotsMembership(date: string, booked: seq<string>, lo: nat, hi: nat, s: string)
    requires hi < 100
    ensures s in FreeSlotsBetween(date, booked, lo, hi) <==>
      exists h :: lo <= h < hi && s == SlotLabel(h) && SlotKey(date, SlotLabel(h)) !in booked
    decreases hi
  {
    if hi > lo {
      FreeSlotsMembership(date, booked, lo, hi - 1, s);
    }
  }

  /** Free-slot lists are in ascending string order. */
  lemma {:induction false} FreeSlotsAscending(date: string, booked: seq<string>, lo: nat, hi: nat)
    requires hi < 100
    ensures var r := FreeSlotsBetween(date, booked, lo, hi);
      forall i, j :: 0 <= i < j < |r| ==> LexLess(r[i], r[j])
    decreases hi
  {
    if hi > lo {
      FreeSlotsAscending(date, booked, lo, hi - 1);
      var prefix := FreeSlotsBetween(date, booked, lo, hi - 1);
      forall i | 0 <= i < |prefix|
        ensures LexLess(prefix[i], SlotLabel(hi - 1))
      {
        FreeSlotsMembership(date, booked, lo, hi - 1, prefix[i]);
        var h :| lo <= h < hi - 1 && prefix[i] == SlotLabel(h) && SlotKey(date, SlotLabel(h)) !in booked;
        SlotLabelOrder(h, hi - 1);
      }
    }
  }

  lemma {:induction false} FreeSlotsLength(date: string, booked: seq<string>, lo: nat, hi: nat)
    requires hi < 100
    ensures |FreeSlotsBetween(date, booked, lo, hi)| <= if hi <= lo then 0 else hi - lo
    decreases hi
  {
    if hi > lo {
      FreeSlotsLength(date, booked, lo, hi - 1);
    }
  }

  /** The slots offered for `date` are exactly the day's slots whose key is
      not booked, in ascending order, and at most eleven of them. */
  lemma AvailableSlotsSpec(date: string, booked: seq<string>)
    ensures var r := AvailableSlots(date, booked);
      |r| <= 11 &&
      (forall i, j :: 0 <= i < j < |r| ==> LexLess(r[i], r[j])) &&
      (forall s :: s in r <==> s in AllSlots && SlotKey(date, s) !in booked)
  {
    FreeSlotsLength(date, booked, FirstHour, LastHour + 1);
    FreeSlotsAscending(date, booked, FirstHour, LastHour + 1);
    AllSlotsAreLabels();
    forall s ensures s in AvailableSlots(date, booked) <==> s in AllSlots && SlotKey(date, s) !in booked {
      FreeSlotsMembership(date, booked, FirstHour, LastHour + 1, s);
      if s in AllSlots {
        var i :| 0 <= i < |AllSlots| && AllSlots[i] == s;
        assert s == SlotLabel(FirstHour + i);
      }
      if exists h :: FirstHour <= h < LastHour + 1 && s == SlotLabel(h) && SlotKey(date, SlotLabel(h)) !in booked {
        var h :| FirstHour <= h < LastHour + 1 && s == SlotLabel(h) && SlotKey(date, SlotLabel(h)) !in booked;
        assert AllSlots[h - FirstHour] == s;
      }
    }
  }

  /** Slot labels all have five characters, so a key names one date and one slot. */
  lemma SlotKeyInjective(d1: string, s1: string, d2: string, s2: string)
    requires |s1| == |s2|
    requires SlotKey(d1, s1) == SlotKey(d2, s2)
    ensures d1 == d2 && s1 == s2
  {
    var k := SlotKey(d1, s1);
    assert |d1| == |d2|;
    assert d1 == k[..|d1|] == d2;
    assert s1 == k[|d1| + 1..] == s2;
  }

  /** The offered slots depend only on which of this date's keys are booked. */
  lemma {:induction false} FreeSlotsSameKeys(date: string, b1: seq<string>, b2: seq<string>, lo: nat, hi: nat)
    requires hi < 100
    requires forall h :: lo <= h < hi ==> (SlotKey(date, SlotLabel(h)) in b1 <==> SlotKey(date, SlotLabel(h)) in b2)
    ensures FreeSlotsBetween(date, b1, lo, hi) == FreeSlotsBetween(date, b2, lo, hi)
    decreases hi
  {
    if hi > lo {
      FreeSlotsSameKeys(date, b1, b2, lo, hi - 1);
    }
  }

  /** Booking a slot on another date does not change what `date` offers. */
  lemma OtherDateUnaffected(date: string, booked: seq<string>, otherDate: string, slot: string)
    requires otherDate != date && |slot| == 5
    ensures AvailableSlots(date, booked + [SlotKey(otherDate, slot)]) == AvailableSlots(date, booked)
  {
    forall h | FirstHour <= h < LastHour + 1
      ensures SlotKey(date, SlotLabel(h)) in booked + [SlotKey(otherDate, slot)]
          <==> SlotKey(date, SlotLabel(h)) in booked
    {
      if SlotKey(date, SlotLabel(h)) == SlotKey(otherDate, slot) {
        SlotKeyInjective(date, SlotLabel(h), otherDate, slot);
      }
    }
    FreeSlotsSameKeys(date, booked + [SlotKey(otherDate, slot)], booked, FirstHour, LastHour + 1);
  }

  /** Once a slot is booked it is no longer offered for its date. */
  lemma BookedSlotNotOffered(date: string, booked: seq<string>, slot: string)
    ensures slot !in AvailableSlots(date, booked + [SlotKey(date, slot)])
  {
    AvailableSlotsSpec(date, booked + [SlotKey(date, slot)]);
  }

  // ---------------------------------------------------------------- form data

  datatype CustomerInfo = CustomerInfo(name: string, email: string, phone: string, address: string, postcode: string)

  datatype BookingData = BookingData(
    vehicleType: string, service: string, serviceLocation: string,
    date: string, time: string, customerInfo: CustomerInfo, specialRequests: string)

  const EmptyBooking := BookingData("", "", "", "", "", CustomerInfo("", "", "", "", ""), "")

  datatype CustomerField = Name | Email | Phone | Address | Postcode

  /** A form field: a top-level one, or `customerInfo.<child>`. */
  datatype Field = VehicleType | Service | ServiceLocation | Date | Time | SpecialRequests
                 | Customer(child: CustomerField)

  function Get(b: BookingData, f: Field): string
  {
    match f
    case VehicleType => b.vehicleType
    case Service => b.service
    case ServiceLocation => b.serviceLocation
    case Date => b.date
    case Time => b.time
    case SpecialRequests => b.specialRequests
    case Customer(Name) => b.customerInfo.name
    case Customer(Email) => b.customerInfo.email
    case Customer(Phone) => b.customerInfo.phone
    case Customer(Address) => b.customerInfo.address
    case Customer(Postcode) => b.customerInfo.postcode
  }

  /** `handleInputChange`'s update: the named field takes the value and every
      other field keeps its value. */
  function SetField(b: BookingData, f: Field, value: string): (r: BookingData)
    ensures Get(r, f) == value
    ensures forall g :: g != f ==> Get(r, g) == Get(b, g)
  {
    match f
    case VehicleType => b.(vehicleType := value)
    case Service => b.(service := value)
    case ServiceLocation => b.(serviceLocation := value)
    case Date => b.(date := value)
    case Time => b.(time := value)
    case SpecialRequests => b.(specialRequests := value)
    case Customer(Name) => b.(customerInfo := b.customerInfo.(name := value))
    case Customer(Email) => b.(customerInfo := b.customerInfo.(email := value))
    case Customer(Phone) => b.(customerInfo := b.customerInfo.(phone := value))
    case Customer(Address) => b.(customerInfo := b.customerInfo.(address := value))
    case Customer(Postcode) => b.(customerInfo := b.customerInfo.(postcode := value))
  }

  /** The name the form passes for a field. */
  function FieldPath(f: Field): string
  {
    match f
    case VehicleType => "vehicleType"
    case Service => "service"
    case ServiceLocation => "serviceLocation"
    case Date => "date"
    case Time => "time"
    case SpecialRequests => "specialRequests"
    case Customer(c) => "customerInfo." + CustomerFieldName(c)
  }

  function CustomerFieldName(c: CustomerField): string
  {
    match c
    case Name => "name"
    case Email => "email"
    case Phone => "phone"
    case Address => "address"
    case Postcode => "postcode"
  }

  function TopFieldNamed(name: string): Option<Field>
  {
    if name == "vehicleType" then Some(VehicleType)
    else if name == "service" then Some(Service)
    else if name == "serviceLocation" then Some(ServiceLocation)
    else if name == "date" then Some(Date)
    else if name == "time" then Some(Time)
    else if name == "specialRequests" then Some(SpecialRequests)
    else None
  }

  function CustomerFieldNamed(name: string): Option<CustomerField>
  {
    if name == "name" then Some(Name)
    else if name == "email" then Some(Email)
    else if name == "phone" then Some(Phone)
    else if name == "address" then Some(Address)
    else if name == "postcode" then Some(Postcode)
    else None
  }

  /** A path with a '.' is `parent.child` (the first two parts of the split);
      only `customerInfo` has children. None means the update writes a key
      that no part of the form reads. */
  function ParseFieldPath(path: string): Option<Field>
  {
    var i := IndexOf(path, '.');
    if i == |path| then TopFieldNamed(path)
    else if path[..i] != "customerInfo" then None
    else
      var rest := path[i + 1..];
      match CustomerFieldNamed(rest[..IndexOf(rest, '.')])
      case Some(c) => Some(Customer(c))
      case None => None
  }

  /** A child name is read back from `customerInfo.<name>`. */
  lemma CustomerPathRoundTrip(c: CustomerField)
    ensures ParseFieldPath(FieldPath(Customer(c))) == Some(Customer(c))
  {
    var name := CustomerFieldName(c);
    var path := FieldPath(Customer(c));
    assert |name| <= 8 && '.' !in name;
    assert path == "customerInfo" + ['.'] + name;
    IndexOfAt(path, '.', 12);
    assert path[..12] == "customerInfo";
    var rest := path[13..];
    assert rest == name;
    assert IndexOf(rest, '.') == |rest|;
    assert rest[..|rest|] == name;
    assert CustomerFieldNamed(name) == Some(c);
  }

  /** Every name the form passes is read back as its own field. */
  lemma ParseFieldPathRoundTrip(f: Field)
    ensures ParseFieldPath(FieldPath(f)) == Some(f)
  {
    match f
    case Customer(c) => CustomerPathRoundTrip(c);
    case _ =>
      var path := FieldPath(f);
      assert '.' !in path;
      assert IndexOf(path, '.') == |path|;
      assert TopFieldNamed(path) == Some(f);
  }

  /** `isFormValid`: the fields the submit button waits for. */
  predicate IsFormValid(b: BookingData)
  {
    b.vehicleType != "" && b.service != "" && b.serviceLocation != "" &&
    b.date != "" && b.time != "" &&
    b.customerInfo.name != "" && b.customerInfo.email != "" && b.customerInfo.phone != ""
  }

  const RequiredFields: seq<Field> :=
    [VehicleType, Service, ServiceLocation, Date, Time, Customer(Name), Customer(Email), Customer(Phone)]

  /** The form is valid exactly when every required field is non-empty;
      address, postcode and special requests never affect it. */
  lemma FormValidIff(b: BookingData, value: string)
    ensures IsFormValid(b) <==> forall k :: 0 <= k < |RequiredFields| ==> Get(b, RequiredFields[k]) != ""
    ensures IsFormValid(SetField(b, Customer(Address), value)) == IsFormValid(b)
    ensures IsFormValid(SetField(b, Customer(Postcode), value)) == IsFormValid(b)
    ensures IsFormValid(SetField(b, SpecialRequests, value)) == IsFormValid(b)
  {
    if forall k :: 0 <= k < |RequiredFields| ==> Get(b, RequiredFields[k]) != "" {
      assert Get(b, RequiredFields[0]) != "" && Get(b, RequiredFields[1]) != "";
      assert Get(b, RequiredFields[2]) != "" && Get(b, RequiredFields[3]) != "";
      assert Get(b, RequiredFields[4]) != "" && Get(b, RequiredFields[5]) != "";
      assert Get(b, RequiredFields[6]) != "" && Get(b, RequiredFields[7]) != "";
    }
    var a := SetField(b, Customer(Address), value);
    assert forall k :: 0 <= k < |RequiredFields| ==> Get(a, RequiredFields[k]) == Get(b, RequiredFields[k]);
  }

  // ---------------------------------------------------------------- submission

  /** The booking request sent to the booking API or handed to the payment step. */
  datatype PaymentData = PaymentData(
    customerName: string, customerEmail: string, customerPhone: string,
    serviceType: Option<string>, vehicleType: Option<string>,
    serviceDate: string, serviceTime: string, serviceLocation: Option<string>,
    address: string, totalAmount: int, depositPence: int, specialRequests: string)

  /** The name of the choice with this id (`choices.find(...)?.name`). */
  function ChoiceName(choices: seq<Choice>, id: string): Option<string>
  {
    if choices == [] then None
    else if choices[0].id == id then Some(choices[0].name)
    else ChoiceName(choices[1..], id)
  }

  /** The display name of a service: the core entry's, else the premium one's. */
  function ServiceName(service: string): Option<string>
  {
    match FindCore(service)
    case Some(c) => Some(c.name)
    case None =>
      match FindPremium(service)
      case Some(p) => Some(p.name)
      case None => None
  }

  /** The request built on submit: the customer's address only for a mobile
      service, otherwise "Unit Visit"; the amounts are the current pricing. */
  function PaymentDataFor(b: BookingData, pricing: Pricing): (r: PaymentData)
    ensures r.address == if b.serviceLocation == "mobile" then b.customerInfo.address else "Unit Visit"
    ensures r.totalAmount == pricing.basePrice && r.depositPence == pricing.depositPence
    ensures r.serviceDate == b.date && r.serviceTime == b.time
    ensures (r.customerName, r.customerEmail, r.customerPhone) == (b.customerInfo.name, b.customerInfo.email, b.customerInfo.phone)
  {
    PaymentData(
      b.customerInfo.name, b.customerInfo.email, b.customerInfo.phone,
      ServiceName(b.service), ChoiceName(VehicleTypes, b.vehicleType),
      b.date, b.time, ChoiceName(ServiceLocations, b.serviceLocation),
      if b.serviceLocation == "mobile" then b.customerInfo.address else "Unit Visit",
      pricing.basePrice, pricing.depositPence, b.specialRequests)
  }

  // ---------------------------------------------------------------- the component

  datatype Step = BookingStep | PaymentStep

  /** What a press of the submit button led to. */
  datatype SubmitOutcome = Blocked | AwaitingPayment | Booked | BookingFailed

  /** The pricing effect runs when the vehicle type or the service changed
      and recomputes only when both are chosen. */
  predicate PricingEffectFires(before: BookingData, after: BookingData)
  {
    (before.vehicleType != after.vehicleType || before.service != after.service) &&
    after.vehicleType != "" && after.service != ""
  }

  class BookingSystem {
    var currentStep: Step
    var bookingData: BookingData
    var pricing: Pricing
    var bookedSlots: seq<string>
    var paymentData: Option<PaymentData>
    var isBookingComplete: bool

    /** The payment step always has a request to pay for, and once both the
        vehicle and the service are chosen the pricing is theirs. */
    ghost predicate Valid()
      reads this
    {
      (currentStep == PaymentStep ==> paymentData.Some?) &&
      (bookingData.vehicleType != "" && bookingData.service != "" ==>
        pricing == ComputePricing(bookingData.vehicleType, bookingData.service))
    }

    constructor ()
      ensures Valid()
      ensures currentStep == BookingStep && bookingData == EmptyBooking && pricing == NoPricing
      ensures bookedSlots == [] && paymentData == None && !isBookingComplete
    {
      currentStep := BookingStep;
      bookingData := EmptyBooking;
      pricing := NoPricing;
      bookedSlots := [];
      paymentData := None;
      isBookingComplete := false;
    }

    /** `generateTimeSlots`: the slots offered for the chosen date. */
    method GenerateTimeSlots() returns (slots: seq<string>)
      ensures slots == AvailableSlots(bookingData.date, bookedSlots)
    {
      slots := [];
      for hour := FirstHour to LastHour + 1
        invariant slots == FreeSlotsBetween(bookingData.date, bookedSlots, FirstHour, hour)
      {
        var timeSlot := SlotLabel(hour);
        var slotKey := SlotKey(bookingData.date, timeSlot);
        if slotKey !in bookedSlots {
          slots := slots + [timeSlot];
        }
      }
    }

    /** `handleInputChange` followed by the pricing effect it may trigger. */
    method HandleInputChange(path: string, value: string)
      requires Valid()
      modifies this
      ensures Valid()
      ensures bookingData == match ParseFieldPath(path)
        case Some(f) => SetField(old(bookingData), f, value)
        case None => old(bookingData)
      ensures pricing == if PricingEffectFires(old(bookingData), bookingData)
        then ComputePricing(bookingData.vehicleType, bookingData.service) else old(pricing)
      ensures currentStep == old(currentStep) && bookedSlots == old(bookedSlots)
      ensures paymentData == old(paymentData) && isBookingComplete == old(isBookingComplete)
    {
      var before := bookingData;
      match ParseFieldPath(path) {
        case Some(f) => bookingData := SetField(bookingData, f, value);
        case None =>
      }
      if PricingEffectFires(before, bookingData) {
        pricing := ComputePricing(bookingData.vehicleType, bookingData.service);
      }
    }

    /** The submit button, disabled while the form is not valid, and
        `handleBookingSubmit`; `bookingOk` is whether the booking API answered
        with an ok status (it is consulted only when no deposit is due). */
    method SubmitForm(bookingOk: bool) returns (outcome: SubmitOutcome)
      requires Valid()
      modifies this
      ensures Valid()
      ensures !IsFormValid(old(bookingData)) ==>
        outcome == Blocked && paymentData == old(paymentData) &&
        currentStep == old(currentStep) && bookedSlots == old(bookedSlots) &&
        isBookingComplete == old(isBookingComplete)
      ensures IsFormValid(old(bookingData)) ==>
        paymentData == Some(PaymentDataFor(old(bookingData), old(pricing)))
      ensures IsFormValid(old(bookingData)) && old(pricing).depositPence > 0 ==>
        outcome == AwaitingPayment && currentStep == PaymentStep &&
        bookedSlots == old(bookedSlots) && isBookingComplete == old(isBookingComplete)
      ensures IsFormValid(old(bookingData)) && old(pricing).depositPence <= 0 ==>
        currentStep == old(currentStep) &&
        (if bookingOk
         then outcome == Booked && isBookingComplete &&
              bookedSlots == old(bookedSlots) + [SlotKey(old(bookingData).date, old(bookingData).time)]
         else outcome == BookingFailed && isBookingComplete == old(isBookingComplete) &&
              bookedSlots == old(bookedSlots))
      ensures bookingData == old(bookingData) && pricing == old(pricing)
    {
      if !IsFormValid(bookingData) {
        return Blocked;
      }
      paymentData := Some(PaymentDataFor(bookingData, pricing));
      if pricing.depositPence > 0 {
        currentStep := PaymentStep;
        outcome := AwaitingPayment;
      } else if bookingOk {
        bookedSlots := bookedSlots + [SlotKey(bookingData.date, bookingData.time)];
        isBookingComplete := true;
        outcome := Booked;
      } else {
        outcome := BookingFailed;
      }
    }

    /** `handlePaymentSuccess`: the slot is taken and the confirmation shown. */
    method PaymentSucceeded()
      requires Valid()
      modifies this
      ensures Valid()
      ensures bookedSlots == old(bookedSlots) + [SlotKey(bookingData.date, bookingData.time)]
      ensures isBookingComplete && currentStep == BookingStep
      ensures bookingData == old(bookingData) && pricing == old(pricing) && paymentData == old(paymentData)
    {
      bookedSlots := bookedSlots + [SlotKey(bookingData.date, bookingData.time)];
      isBookingComplete := true;
      currentStep := BookingStep;
    }

    /** `handlePaymentError`: only an alert; the step, the slots and the
        request stay as they are, so the customer can try again. */
    method PaymentFailed(error: string) returns (alert: string)
      ensures alert == "Payment failed: " + error + ". Please try again."
    {
      alert := "Payment failed: " + error + ". Please try again.";
    }

    /** `handleBackToBooking`: back to the form, dropping the pending request. */
    method BackToBooking()
      requires Valid()
      modifies this
      ensures Valid()
      ensures currentStep == BookingStep && paymentData == None
      ensures bookingData == old(bookingData) && pricing == old(pricing)
      ensures bookedSlots == old(bookedSlots) && isBookingComplete == old(isBookingComplete)
    {
      currentStep := BookingStep;
      paymentData := None;
    }

    /** "Book Another Service": an empty form and zero pricing, but the
        session's booked slots are kept so a slot just taken stays hidden. */
    method BookAnother()
      requires Valid()
      modifies this
      ensures Valid()
      ensures !isBookingComplete && bookingData == EmptyBooking && pricing == NoPricing
      ensures bookedSlots == old(bookedSlots)
      ensures currentStep == old(currentStep) && paymentData == old(paymentData)
    {
      isBookingComplete := false;
      bookingData := EmptyBooking;
      pricing := NoPricing;
    }
  }

}
