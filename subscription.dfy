/** The four-step subscription wizard: choose a plan, configure vehicle type
    and frequency (which prices the subscription), enter customer details,
    confirm. The list of plans is an input here rather than fetched. */
module Subscription {
  import opened Text

  /** A subscription plan as the API describes it. A missing
      `pricing_examples` object is `None`. */
  datatype Plan = Plan(
    planId: string, name: string, frequencyOptions: seq<string>,
    pricingExamples: Option<map<string, map<string, real>>>)

  datatype CustomerInfo = CustomerInfo(
    customerName: string, customerEmail: string, customerPhone: string,
    address: string, postcode: string, preferredDay: string, preferredTime: string,
    startDate: string, specialRequests: string,
    notificationEmail: bool, notificationSms: bool, notificationDaysAhead: int)

  /** The text fields of the customer form. */
  datatype InfoField = CustomerName | CustomerEmail | CustomerPhone | Address | Postcode
                     | PreferredDay | PreferredTime | StartDate | SpecialRequests

  function FieldKey(f: InfoField): string
  {
    match f
    case CustomerName => "customer_name"
    case CustomerEmail => "customer_email"
    case CustomerPhone => "customer_phone"
    case Address => "address"
    case Postcode => "postcode"
    case PreferredDay => "preferred_day"
    case PreferredTime => "preferred_time"
    case StartDate => "start_date"
    case SpecialRequests => "special_requests"
  }

  function Value(info: CustomerInfo, f: InfoField): string
  {
    match f
    case CustomerName => info.customerName
    case CustomerEmail => info.customerEmail
    case CustomerPhone => info.customerPhone
    case Address => info.address
    case Postcode => info.postcode
    case PreferredDay => info.preferredDay
    case PreferredTime => info.preferredTime
    case StartDate => info.startDate
    case SpecialRequests => info.specialRequests
  }

  /** Updating one field of the customer form leaves the others alone. */
  function SetValue(info: CustomerInfo, f: InfoField, v: string): (r: CustomerInfo)
    ensures Value(r, f) == v
    ensures forall g :: g != f ==> Value(r, g) == Value(info, g)
    ensures (r.notificationEmail, r.notificationSms, r.notificationDaysAhead)
         == (info.notificationEmail, info.notificationSms, info.notificationDaysAhead)
  {
    match f
    case CustomerName => info.(customerName := v)
    case CustomerEmail => info.(customerEmail := v)
    case CustomerPhone => info.(customerPhone := v)
    case Address => info.(address := v)
    case Postcode => info.(postcode := v)
    case PreferredDay => info.(preferredDay := v)
    case PreferredTime => info.(preferredTime := v)
    case StartDate => info.(startDate := v)
    case SpecialRequests => info.(specialRequests := v)
  }

  /** The form as first shown; the start date defaults to tomorrow, which the
      caller supplies. */
  function InitialCustomerInfo(startDate: string): CustomerInfo
  {
    CustomerInfo("", "", "", "", "", "", "", startDate, "", true, true, 2)
  }

  const RequiredFields: seq<InfoField> :=
    [CustomerName, CustomerEmail, CustomerPhone, Address, Postcode, PreferredDay, PreferredTime, StartDate]

  /** The fields of `fs` left empty, in the order of `fs`. */
  function EmptyAmong(info: CustomerInfo, fs: seq<InfoField>): (r: seq<InfoField>)
    ensures |r| <= |fs|
  {
    if fs == [] then []
    else (if Value(info, fs[0]) == "" then [fs[0]] else []) + EmptyAmong(info, fs[1..])
  }

  /** `required.filter(field => !customerInfo[field])`. */
  function MissingFields(info: CustomerInfo): seq<InfoField>
  {
    EmptyAmong(info, RequiredFields)
  }

  lemma {:induction false} EmptyAmongSpec(info: CustomerInfo, fs: seq<InfoField>)
    ensures forall f :: f in EmptyAmong(info, fs) <==> f in fs && Value(info, f) == ""
    ensures IsSubsequence(EmptyAmong(info, fs), fs)
  {
    if fs != [] {
      EmptyAmongSpec(info, fs[1..]);
      assert fs == [fs[0]] + fs[1..];
      var r := EmptyAmong(info, fs);
      if Value(info, fs[0]) == "" {
        assert r[0] == fs[0] && r[1..] == EmptyAmong(info, fs[1..]);
      } else {
        assert r == EmptyAmong(info, fs[1..]);
      }
    }
  }

  /** The missing list is exactly the empty required fields, in declared
      order; special requests are never demanded. */
  lemma MissingFieldsSpec(info: CustomerInfo)
    ensures forall f :: f in MissingFields(info) <==> f in RequiredFields && Value(info, f) == ""
    ensures IsSubsequence(MissingFields(info), RequiredFields)
    ensures SpecialRequests !in MissingFields(info)
  {
    EmptyAmongSpec(info, RequiredFields);
  }

  /** The missing list reads only the text fields: records that agree on
      them have the same missing fields, whatever their notification
      preferences. */
  lemma {:induction false} EmptyAmongSameText(a: CustomerInfo, b: CustomerInfo, fs: seq<InfoField>)
    requires forall f :: Value(a, f) == Value(b, f)
    ensures EmptyAmong(a, fs) == EmptyAmong(b, fs)
  {
    if fs != [] {
      EmptyAmongSameText(a, b, fs[1..]);
    }
  }

  function FieldKeys(fs: seq<InfoField>): (r: seq<string>)
    ensures |r| == |fs|
  {
    if fs == [] then [] else [FieldKey(fs[0])] + FieldKeys(fs[1..])
  }

  function MissingMessage(missing: seq<InfoField>): string
  {
    "Please fill in: " + Join(FieldKeys(missing), ", ")
  }

  const FrequencyOptions: seq<string> := ["weekly", "bi_weekly", "monthly"]

  /** The frequencies offered for a plan: the fixed list, in its order,
      restricted to the plan's options. */
  function OfferedFrequencies(plan: Plan): seq<string>
  {
    Filter(FrequencyOptions, (f: string) => f in plan.frequencyOptions)
  }

  lemma OfferedFrequenciesSpec(plan: Plan)
    ensures forall f :: f in OfferedFrequencies(plan) <==> f in FrequencyOptions && f in plan.frequencyOptions
    ensures IsSubsequence(OfferedFrequencies(plan), FrequencyOptions)
  {
    forall f ensures f in OfferedFrequencies(plan) <==> f in FrequencyOptions && f in plan.frequencyOptions {
      FilterMembership(FrequencyOptions, (g: string) => g in plan.frequencyOptions, f);
    }
    FilterIsSubsequence(FrequencyOptions, (g: string) => g in plan.frequencyOptions);
  }

  /** `calculatePrice`: None when the plan has no prices for the vehicle
      type (the price is then left as it was); otherwise the listed price
      for the frequency, or 0 when none is listed. */
  function PriceLookup(plan: Plan, vehicleType: string, frequency: string): (r: Option<real>)
    ensures r.Some? <==> plan.pricingExamples.Some? && vehicleType in plan.pricingExamples.value
    ensures r.Some? && frequency !in plan.pricingExamples.value[vehicleType] ==> r.value == 0.0
    ensures r.Some? && frequency in plan.pricingExamples.value[vehicleType] ==>
      r.value == plan.pricingExamples.value[vehicleType][frequency]
  {
    match plan.pricingExamples
    case None => None
    case Some(examples) =>
      if vehicleType !in examples then None
      else
        var row := examples[vehicleType];
        Some(if frequency in row then row[frequency] else 0.0)
  }

  /** A plan, a vehicle type and a frequency are chosen and the plan lists
      prices for that vehicle type. */
  predicate PricesFor(plan: Option<Plan>, vehicleType: string, frequency: string)
  {
    plan.Some? && vehicleType != "" && frequency != "" &&
    plan.value.pricingExamples.Some? && vehicleType in plan.value.pricingExamples.value
  }

  /** The monthly price after the pricing effect, which runs only once a
      plan, a vehicle type and a frequency are all chosen. */
  function PriceAfterEffect(plan: Option<Plan>, vehicleType: string, frequency: string, price: real): (r: real)
    ensures !PricesFor(plan, vehicleType, frequency) ==> r == price
    ensures PricesFor(plan, vehicleType, frequency) ==>
      var row := plan.value.pricingExamples.value[vehicleType];
      r == if frequency in row then row[frequency] else 0.0
  {
    if plan.Some? && vehicleType != "" && frequency != "" then
      match PriceLookup(plan.value, vehicleType, frequency)
      case Some(p) => p
      case None => price
    else price
  }

  /** The services a month holds: four for weekly, two for bi-weekly and
      one for anything else. */
  function ServicesPerMonth(frequency: string): (n: int)
    ensures n in {1, 2, 4}
    ensures n == 4 <==> frequency == "weekly"
    ensures n == 2 <==> frequency == "bi_weekly"
  {
    if frequency == "weekly" then 4 else if frequency == "bi_weekly" then 2 else 1
  }

  /** The price of one service: the monthly price shared evenly over the
      services of a month. */
  function PerServicePrice(monthlyPrice: real, frequency: string): (r: real)
    ensures r * ServicesPerMonth(frequency) as real == monthlyPrice
    ensures 0.0 <= monthlyPrice ==> r <= monthlyPrice
  {
    monthlyPrice / ServicesPerMonth(frequency) as real
  }

  /** The body sent to create a subscription. */
  datatype SubscriptionRequest = SubscriptionRequest(
    planId: string, vehicleType: string, frequency: string, serviceLocation: string,
    customer: CustomerInfo)

  /** What the create-subscription call came back with. */
  datatype SubmitResponse = Created(subscriptionId: string) | Rejected(error: Option<string>) | RequestFailed

  function SubmitMessage(response: SubmitResponse): string
  {
    match response
    case Created(id) => "Subscription created successfully! Your subscription ID is: " + id
    case Rejected(error) =>
      "Failed to create subscription: " + (match error case Some(e) => (if e == "" then "Unknown error" else e) case None => "Unknown error")
    case RequestFailed => "Failed to create subscription. Please try again."
  }

  const ConfigurationMessage := "Please select vehicle type and frequency"

  class SubscriptionWizard {
    var selectedPlan: Option<Plan>
    var selectedVehicleType: string
    var selectedFrequency: string
    var calculatedPrice: real
    var customerInfo: CustomerInfo
    var message: string
    var step: int

    /** The step is always 1..4, and each step past the first has what the
        steps before it demanded. */
    ghost predicate Valid()
      reads this
    {
      1 <= step <= 4 &&
      (step >= 2 ==> selectedPlan.Some?) &&
      (step >= 3 ==> selectedVehicleType != "" && selectedFrequency != "") &&
      (step == 4 ==> MissingFields(customerInfo) == [])
    }

    constructor (startDate: string)
      ensures Valid() && step == 1 && selectedPlan == None
      ensures selectedVehicleType == "" && selectedFrequency == "" && calculatedPrice == 0.0
      ensures customerInfo == InitialCustomerInfo(startDate) && message == ""
    {
      selectedPlan := None;
      selectedVehicleType := "";
      selectedFrequency := "";
      calculatedPrice := 0.0;
      customerInfo := InitialCustomerInfo(startDate);
      message := "";
      step := 1;
    }

    /** `handlePlanSelect`: a new plan starts the configuration afresh. */
    method SelectPlan(plan: Plan)
      requires Valid()
      modifies this
      ensures Valid()
      ensures selectedPlan == Some(plan) && step == 2
      ensures selectedVehicleType == "" && selectedFrequency == "" && calculatedPrice == 0.0
      ensures customerInfo == old(customerInfo) && message == old(message)
    {
      selectedPlan := Some(plan);
      selectedVehicleType := "";
      selectedFrequency := "";
      calculatedPrice := 0.0;
      step := 2;
    }

    /** A vehicle-type button of the configuration step, then the pricing effect. */
    method ChooseVehicleType(vehicleType: string)
      requires Valid() && step == 2
      modifies this`selectedVehicleType, this`calculatedPrice
      ensures Valid()
      ensures selectedVehicleType == vehicleType
      ensures calculatedPrice ==
        if vehicleType != old(selectedVehicleType)
        then PriceAfterEffect(selectedPlan, vehicleType, selectedFrequency, old(calculatedPrice))
        else old(calculatedPrice)
    {
      var changed := vehicleType != selectedVehicleType;
      selectedVehicleType := vehicleType;
      if changed {
        calculatedPrice := PriceAfterEffect(selectedPlan, selectedVehicleType, selectedFrequency, calculatedPrice);
      }
    }

    /** A frequency button of the configuration step, then the pricing effect. */
    method ChooseFrequency(frequency: string)
      requires Valid() && step == 2
      modifies this`selectedFrequency, this`calculatedPrice
      ensures Valid()
      ensures selectedFrequency == frequency
      ensures calculatedPrice ==
        if frequency != old(selectedFrequency)
        then PriceAfterEffect(selectedPlan, selectedVehicleType, frequency, old(calculatedPrice))
        else old(calculatedPrice)
    {
      var changed := frequency != selectedFrequency;
      selectedFrequency := frequency;
      if changed {
        calculatedPrice := PriceAfterEffect(selectedPlan, selectedVehicleType, selectedFrequency, calculatedPrice);
      }
    }

    /** `handleConfigurationNext`: on to the customer step only with both
        choices made. */
    method ConfigurationNext()
      requires Valid() && step == 2
      modifies this`step, this`message
      ensures Valid()
      ensures selectedVehicleType != "" && selectedFrequency != "" ==> step == 3 && message == ""
      ensures selectedVehicleType == "" || selectedFrequency == "" ==>
        step == 2 && message == ConfigurationMessage
    {
      if selectedVehicleType == "" || selectedFrequency == "" {
        message := ConfigurationMessage;
        return;
      }
      message := "";
      step := 3;
    }

    /** Typing into a field of the customer step. */
    method UpdateCustomerInfo(f: InfoField, v: string)
      requires Valid() && step == 3
      modifies this`customerInfo
      ensures Valid()
      ensures customerInfo == SetValue(old(customerInfo), f, v)
    {
      customerInfo := SetValue(customerInfo, f, v);
    }

    /** `handleCustomerInfoNext`: on to confirmation only with every required
        field filled; otherwise the message lists the empty ones. */
    method CustomerInfoNext()
      requires Valid() && step == 3
      modifies this`step, this`message
      ensures Valid()
      ensures MissingFields(customerInfo) == [] ==> step == 4 && message == ""
      ensures MissingFields(customerInfo) != [] ==>
        step == 3 && message == MissingMessage(MissingFields(customerInfo))
    {
      var missing := MissingFields(customerInfo);
      if missing != [] {
        message := MissingMessage(missing);
        return;
      }
      message := "";
      step := 4;
    }

    /** The email-notification checkbox of the customer step. */
    method SetEmailNotifications(on: bool)
      requires Valid() && step == 3
      modifies this`customerInfo
      ensures Valid()
      ensures customerInfo == old(customerInfo).(notificationEmail := on)
      ensures MissingFields(customerInfo) == MissingFields(old(customerInfo))
    {
      customerInfo := customerInfo.(notificationEmail := on);
      EmptyAmongSameText(customerInfo, old(customerInfo), RequiredFields);
    }

    /** The SMS-notification checkbox of the customer step. */
    method SetSmsNotifications(on: bool)
      requires Valid() && step == 3
      modifies this`customerInfo
      ensures Valid()
      ensures customerInfo == old(customerInfo).(notificationSms := on)
      ensures MissingFields(customerInfo) == MissingFields(old(customerInfo))
    {
      customerInfo := customerInfo.(notificationSms := on);
      EmptyAmongSameText(customerInfo, old(customerInfo), RequiredFields);
    }

    /** The "notify me" select of the customer step: the number of days
        before the service, as the chosen option's value. */
    method SetDaysAhead(days: int)
      requires Valid() && step == 3
      modifies this`customerInfo
      ensures Valid()
      ensures customerInfo == old(customerInfo).(notificationDaysAhead := days)
      ensures MissingFields(customerInfo) == MissingFields(old(customerInfo))
    {
      customerInfo := customerInfo.(notificationDaysAhead := days);
      EmptyAmongSameText(customerInfo, old(customerInfo), RequiredFields);
    }

    /** The back button of steps 2, 3 and 4. */
    method Back()
      requires Valid() && step >= 2
      modifies this`step
      ensures Valid()
      ensures step == old(step) - 1
    {
      step := step - 1;
    }

    /** The body `handleSubscriptionSubmit` sends. */
    function SubmissionPayload(): (r: SubscriptionRequest)
      reads this
      requires selectedPlan.Some?
      ensures r.planId == selectedPlan.value.planId
      ensures r.vehicleType == selectedVehicleType && r.frequency == selectedFrequency
      ensures r.serviceLocation == "Mobile Service" && r.customer == customerInfo
    {
      SubscriptionRequest(selectedPlan.value.planId, selectedVehicleType, selectedFrequency,
        "Mobile Service", customerInfo)
    }

    /** The confirm button: the message reports how the request ended. */
    method Submit(response: SubmitResponse) returns (request: SubscriptionRequest)
      requires Valid() && step == 4
      modifies this`message
      ensures Valid()
      ensures request == SubmissionPayload()
      ensures message == SubmitMessage(response)
    {
      request := SubmissionPayload();
      message := SubmitMessage(response);
    }
  }
}
