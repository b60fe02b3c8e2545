/** The driver create/edit form of the admin pages: default values and the
    fallbacks applied to an edited driver, typing that clears a field's
    error, the specialization and working-day toggles, validation, and
    submission gated by validation. */
module DriverForms {
  import opened Text

  datatype DriverData = DriverData(
    name: string, email: string, phone: string, licenseNumber: string,
    vehicleRegistration: string, vehicleModel: string, specializations: seq<string>,
    status: string, currentLocationAddress: string, availabilityStart: string,
    availabilityEnd: string, workingDays: string, emergencyContact: string, notes: string)

  /** The text inputs of the form; specializations have their own toggle. */
  datatype TextField = Name | Email | Phone | LicenseNumber | VehicleRegistration | VehicleModel
                     | Status | CurrentLocationAddress | AvailabilityStart | AvailabilityEnd
                     | WorkingDays | EmergencyContact | Notes

  function Get(d: DriverData, f: TextField): string
  {
    match f
    case Name => d.name
    case Email => d.email
    case Phone => d.phone
    case LicenseNumber => d.licenseNumber
    case VehicleRegistration => d.vehicleRegistration
    case VehicleModel => d.vehicleModel
    case Status => d.status
    case CurrentLocationAddress => d.currentLocationAddress
    case AvailabilityStart => d.availabilityStart
    case AvailabilityEnd => d.availabilityEnd
    case WorkingDays => d.workingDays
    case EmergencyContact => d.emergencyContact
    case Notes => d.notes
  }

  /** `{ ...prev, [field]: value }`: the named field changes and no other. */
  function Set(d: DriverData, f: TextField, v: string): (r: DriverData)
    ensures Get(r, f) == v
    ensures forall g :: g != f ==> Get(r, g) == Get(d, g)
    ensures r.specializations == d.specializations
  {
    match f
    case Name => d.(name := v)
    case Email => d.(email := v)
    case Phone => d.(phone := v)
    case LicenseNumber => d.(licenseNumber := v)
    case VehicleRegistration => d.(vehicleRegistration := v)
    case VehicleModel => d.(vehicleModel := v)
    case Status => d.(status := v)
    case CurrentLocationAddress => d.(currentLocationAddress := v)
    case AvailabilityStart => d.(availabilityStart := v)
    case AvailabilityEnd => d.(availabilityEnd := v)
    case WorkingDays => d.(workingDays := v)
    case EmergencyContact => d.(emergencyContact := v)
    case Notes => d.(notes := v)
  }

  const DefaultStatus := "active"
  const DefaultStart := "08:00"
  const DefaultEnd := "18:00"
  const AllWeek := "1,2,3,4,5,6,7"

  /** The form for a new driver. */
  const DefaultForm := DriverData("", "", "", "", "", "", [], DefaultStatus, "", DefaultStart, DefaultEnd, AllWeek, "", "")

  /** A driver record as the API returns it; absent properties are `None`.
      The specializations arrive already parsed from their JSON text. */
  datatype Driver = Driver(
    name: Option<string>, email: Option<string>, phone: Option<string>,
    licenseNumber: Option<string>, vehicleRegistration: Option<string>, vehicleModel: Option<string>,
    specializations: Option<seq<string>>, status: Option<string>,
    locationAddress: Option<string>, availabilityStart: Option<string>,
    availabilityEnd: Option<string>, workingDays: Option<string>,
    emergencyContact: Option<string>, notes: Option<string>)

  /** `value || fallback` for a possibly absent string. */
  function Or(v: Option<string>, fallback: string): (r: string)
    ensures v.Some? && v.value != "" ==> r == v.value
    ensures v == None || v == Some("") ==> r == fallback
  {
    if v.Some? && v.value != "" then v.value else fallback
  }

  /** The form filled from an existing driver, each field falling back to
      its new-form default when the driver leaves it empty. */
  function FromDriver(d: Driver): (r: DriverData)
    ensures r.status != "" && r.availabilityStart != "" && r.availabilityEnd != "" && r.workingDays != ""
    ensures d.status == None || d.status == Some("") ==> r.status == DefaultStatus
    ensures d.availabilityStart == None || d.availabilityStart == Some("") ==> r.availabilityStart == DefaultStart
    ensures d.availabilityEnd == None || d.availabilityEnd == Some("") ==> r.availabilityEnd == DefaultEnd
    ensures d.workingDays == None || d.workingDays == Some("") ==> r.workingDays == AllWeek
    ensures d.name.Some? ==> r.name == d.name.value
    ensures d.specializations.Some? ==> r.specializations == d.specializations.value
  {
    DriverData(
      Or(d.name, ""), Or(d.email, ""), Or(d.phone, ""), Or(d.licenseNumber, ""),
      Or(d.vehicleRegistration, ""), Or(d.vehicleModel, ""),
      if d.specializations.Some? then d.specializations.value else [],
      Or(d.status, DefaultStatus), Or(d.locationAddress, ""),
      Or(d.availabilityStart, DefaultStart), Or(d.availabilityEnd, DefaultEnd),
      Or(d.workingDays, AllWeek), Or(d.emergencyContact, ""), Or(d.notes, ""))
  }

  /** A driver with nothing filled in opens exactly the new-driver form: the
      fallbacks are the defaults. */
  lemma EmptyDriverGivesDefaults()
    ensures FromDriver(Driver(None, None, None, None, None, None, None, None, None, None, None, None, None, None))
         == DefaultForm
  {
  }

  // ----- specialization toggle -----

  /** `xs.filter(s => s !== x)`: every copy of `x` goes, every other entry
      keeps all its copies, in their order. */
  function RemoveAll(xs: seq<string>, x: string): (r: seq<string>)
    ensures x !in r
    ensures forall y :: y != x ==> (y in r <==> y in xs)
    ensures forall y :: y != x ==> multiset(r)[y] == multiset(xs)[y]
    ensures IsSubsequence(r, xs)
  {
    if xs == [] then []
    else
      assert xs == [xs[0]] + xs[1..];
      assert multiset(xs) == multiset{xs[0]} + multiset(xs[1..]);
      if xs[0] == x then RemoveAll(xs[1..], x)
      else
        var rest := RemoveAll(xs[1..], x);
        assert ([xs[0]] + rest)[1..] == rest;
        assert multiset([xs[0]] + rest) == multiset{xs[0]} + multiset(rest);
        [xs[0]] + rest
  }

  /** `handleSpecializationToggle`: remove every copy when present,
      otherwise append at the end. */
  function Toggle(xs: seq<string>, x: string): (r: seq<string>)
    ensures x in r <==> x !in xs
    ensures forall y :: y != x ==> (y in r <==> y in xs)
    ensures x !in xs ==> r == xs + [x]
  {
    if x in xs then RemoveAll(xs, x) else xs + [x]
  }

  /** Toggling twice restores membership of every entry. */
  lemma ToggleTwice(xs: seq<string>, x: string)
    ensures forall y :: y in Toggle(Toggle(xs, x), x) <==> y in xs
  {
  }

  // ----- working-day toggle -----

  /** `s.split(',').filter(d => d)`. */
  function Segments(s: string): seq<string>
  {
    RemoveAll(Split(s, ','), "")
  }

  /** No part of `Split(s, c)` holds `c`. */
  lemma {:induction false} SplitPartsFree(s: string, c: char)
    ensures forall k :: 0 <= k < |Split(s, c)| ==> c !in Split(s, c)[k]
    decreases |s|
  {
    var i := IndexOf(s, c);
    if i < |s| {
      SplitPartsFree(s[i + 1..], c);
      var parts := Split(s, c);
      assert parts == [s[..i]] + Split(s[i + 1..], c);
      forall k | 0 <= k < |parts| ensures c !in parts[k] {
        if k == 0 {
          assert forall j :: 0 <= j < |s[..i]| ==> s[..i][j] != c;
        } else {
          assert parts[k] == Split(s[i + 1..], c)[k - 1];
        }
      }
    }
  }

  /** The days held by a working-day string contain no comma. */
  lemma SegmentsFree(s: string)
    ensures forall k :: 0 <= k < |Segments(s)| ==> ',' !in Segments(s)[k] && Segments(s)[k] != ""
  {
    SplitPartsFree(s, ',');
    var parts := Split(s, ',');
    forall k | 0 <= k < |Segments(s)| ensures ',' !in Segments(s)[k] {
      assert Segments(s)[k] in parts;
    }
  }

  /** `handleWorkingDayToggle`. */
  function ToggleWorkingDay(workingDays: string, day: string): string
  {
    Join(Toggle(Segments(workingDays), day), ",")
  }

  /** Reading the toggled string back gives the toggled list of days: `day`
      flips, every other day keeps its membership, and no empty day appears. */
  lemma ToggleWorkingDaySpec(workingDays: string, day: string)
    requires day != "" && ',' !in day
    ensures Segments(ToggleWorkingDay(workingDays, day)) == Toggle(Segments(workingDays), day)
    ensures day in Segments(ToggleWorkingDay(workingDays, day)) <==> day !in Segments(workingDays)
    ensures forall d :: d != day ==>
      (d in Segments(ToggleWorkingDay(workingDays, day)) <==> d in Segments(workingDays))
    ensures ToggleWorkingDay(workingDays, day) == "" ||
      forall k :: 0 <= k < |Split(ToggleWorkingDay(workingDays, day), ',')| ==>
        Split(ToggleWorkingDay(workingDays, day), ',')[k] != ""
  {
    var days := Toggle(Segments(workingDays), day);
    SegmentsFree(workingDays);
    assert forall k :: 0 <= k < |days| ==> ',' !in days[k] && days[k] != "" by {
      forall k | 0 <= k < |days| ensures ',' !in days[k] && days[k] != "" {
        assert days[k] in days;
        if days[k] != day {
          assert days[k] in Segments(workingDays);
          var j :| 0 <= j < |Segments(workingDays)| && Segments(workingDays)[j] == days[k];
        }
      }
    }
    if days == [] {
      assert Join(days, ",") == "";
      assert Split("", ',') == [""];
    } else {
      SplitJoin(days, ',');
      NoEmptyRemoved(days);
    }
  }

  /** Removing empty strings from a list without any leaves it unchanged. */
  lemma {:induction false} NoEmptyRemoved(xs: seq<string>)
    requires forall k :: 0 <= k < |xs| ==> xs[k] != ""
    ensures RemoveAll(xs, "") == xs
  {
    if xs != [] {
      NoEmptyRemoved(xs[1..]);
    }
  }

  // ----- validation -----

  /** A character matched by `[^\s@]`. */
  predicate Plain(c: char)
  {
    !IsSpace(c) && c != '@'
  }

  predicate AllPlain(s: string)
  {
    forall i :: 0 <= i < |s| ==> Plain(s[i])
  }

  /** `s` splits as `local@domain.tld` around an '@' at `i` and a '.' at `j`,
      each of the three parts non-empty and made of `[^\s@]`. */
  predicate EmailShape(s: string, i: int, j: int)
  {
    0 < i && i + 1 < j && j + 1 < |s| && s[i] == '@' && s[j] == '.' &&
    AllPlain(s[..i]) && AllPlain(s[i + 1..j]) && AllPlain(s[j + 1..])
  }

  /** `/^[^\s@]+@[^\s@]+\.[^\s@]+$/.test(s)`, read as the regular expression
      is: there is a way to cut `s` into that shape. */
  ghost predicate EmailMatches(s: string)
  {
    exists i, j :: EmailShape(s, i, j)
  }

  /** The same test computed directly: one '@' with a non-empty plain part
      before it, and after it a plain part with a '.' neither first nor last. */
  predicate EmailOk(s: string)
  {
    var i := IndexOf(s, '@');
    0 < i < |s| && AllPlain(s[..i]) && AllPlain(s[i + 1..]) && HasInnerDot(s[i + 1..])
  }

  /** A '.' that is neither the first nor the last character. */
  predicate HasInnerDot(r: string)
  {
    exists k :: 0 < k < |r| - 1 && r[k] == '.'
  }

  /** The direct test accepts exactly the strings the regular expression matches. */
  lemma EmailOkIff(s: string)
    ensures EmailOk(s) <==> EmailMatches(s)
  {
    if EmailOk(s) {
      var i := IndexOf(s, '@');
      var r := s[i + 1..];
      var k :| 0 < k < |r| - 1 && r[k] == '.';
      var j := i + 1 + k;
      assert s[i + 1..j] == r[..k];
      assert s[j + 1..] == r[k + 1..];
      assert EmailShape(s, i, j);
    }
    if EmailMatches(s) {
      var i, j :| EmailShape(s, i, j);
      assert forall m :: 0 <= m < i ==> s[m] == s[..i][m] && s[m] != '@';
      IndexOfAt(s, '@', i);
      var r := s[i + 1..];
      forall m | 0 <= m < |r| ensures Plain(r[m]) {
        if m < j - i - 1 {
          assert r[m] == s[i + 1..j][m];
        } else if m > j - i - 1 {
          assert r[m] == s[j + 1..][m - (j - i)];
        }
      }
      assert r[j - i - 1] == '.';
    }
  }

  /** A character matched by `[\d\s\-\+\(\)]`. */
  predicate PhoneChar(c: char)
  {
    '0' <= c <= '9' || IsSpace(c) || c == '-' || c == '+' || c == '(' || c == ')'
  }

  /** `/^[\d\s\-\+\(\)]+$/.test(s)`. */
  predicate PhoneOk(s: string)
  {
    |s| > 0 && forall i :: 0 <= i < |s| ==> PhoneChar(s[i])
  }

  const NameRequired := "Name is required"
  const EmailRequired := "Email is required"
  const PhoneRequired := "Phone is required"
  const LicenseRequired := "License number is required"
  const RegistrationRequired := "Vehicle registration is required"
  const ModelRequired := "Vehicle model is required"
  const EmailInvalid := "Please enter a valid email address"
  const PhoneInvalid := "Please enter a valid phone number"

  /** `if (!value.trim()) error = message`. */
  function Required(value: string, message: string): Option<string>
  {
    if Trim(value) == "" then Some(message) else None
  }

  /** The message a field's value earns, if any: blank required fields are
      reported, and a non-empty email or phone failing its pattern gets the
      pattern's message instead. */
  function FieldError(d: DriverData, f: TextField): Option<string>
  {
    match f
    case Name => Required(d.name, NameRequired)
    case Email =>
      if d.email != "" && !EmailOk(d.email) then Some(EmailInvalid) else Required(d.email, EmailRequired)
    case Phone =>
      if d.phone != "" && !PhoneOk(d.phone) then Some(PhoneInvalid) else Required(d.phone, PhoneRequired)
    case LicenseNumber => Required(d.licenseNumber, LicenseRequired)
    case VehicleRegistration => Required(d.vehicleRegistration, RegistrationRequired)
    case VehicleModel => Required(d.vehicleModel, ModelRequired)
    case _ => None
  }

  /** The fields outside the six checked ones never carry an error. */
  lemma UncheckedFieldError(d: DriverData, f: TextField)
    requires f !in {Name, Email, Phone, LicenseNumber, VehicleRegistration, VehicleModel}
    ensures FieldError(d, f) == None
  {
  }

  /** Name, licence number, registration and model are reported exactly
      when blank. */
  lemma RequiredFieldError(d: DriverData, f: TextField)
    requires f in {Name, LicenseNumber, VehicleRegistration, VehicleModel}
    ensures FieldError(d, f).Some? <==> AllSpace(Get(d, f))
  {
    TrimEmptyIff(Get(d, f));
  }

  /** A non-empty email that does not match its pattern is reported as
      invalid, even when blank; otherwise a blank one is reported as
      missing. */
  lemma EmailError(d: DriverData)
    ensures FieldError(d, Email) == Some(EmailInvalid) <==> d.email != "" && !EmailMatches(d.email)
    ensures FieldError(d, Email) == None <==> EmailMatches(d.email)
  {
    TrimEmptyIff(d.email);
    EmailOkIff(d.email);
    if EmailOk(d.email) {
      var i := IndexOf(d.email, '@');
      assert !IsSpace(d.email[0]) by { assert d.email[0] == d.email[..i][0]; }
    }
  }

  /** A non-empty phone with a character outside the pattern is reported as
      invalid; otherwise a blank one is reported as missing. */
  lemma PhoneError(d: DriverData)
    ensures FieldError(d, Phone) == Some(PhoneInvalid) <==> d.phone != "" && !PhoneOk(d.phone)
    ensures FieldError(d, Phone) == None <==> PhoneOk(d.phone) && !AllSpace(d.phone)
  {
    TrimEmptyIff(d.phone);
  }

  /** The errors object `validateForm` builds, field by field. */
  function ValidationErrors(d: DriverData): map<TextField, string>
  {
    map f | f in {Name, Email, Phone, LicenseNumber, VehicleRegistration, VehicleModel} && FieldError(d, f).Some?
      :: FieldError(d, f).value
  }

  /** One field's entry in the errors object is that field's own error. */
  lemma ValidationErrorsAt(d: DriverData, f: TextField)
    ensures f in ValidationErrors(d) <==> FieldError(d, f).Some?
    ensures f in ValidationErrors(d) ==> ValidationErrors(d)[f] == FieldError(d, f).value
  {
  }

  /** A map that agrees with every checked field's error and holds nothing
      else is the errors object. */
  lemma SameErrors(d: DriverData, e: map<TextField, string>)
    requires forall f :: f in e ==> f in {Name, Email, Phone, LicenseNumber, VehicleRegistration, VehicleModel}
    requires Name in e <==> FieldError(d, Name).Some?
    requires Name in e ==> e[Name] == FieldError(d, Name).value
    requires Email in e <==> FieldError(d, Email).Some?
    requires Email in e ==> e[Email] == FieldError(d, Email).value
    requires Phone in e <==> FieldError(d, Phone).Some?
    requires Phone in e ==> e[Phone] == FieldError(d, Phone).value
    requires LicenseNumber in e <==> FieldError(d, LicenseNumber).Some?
    requires LicenseNumber in e ==> e[LicenseNumber] == FieldError(d, LicenseNumber).value
    requires VehicleRegistration in e <==> FieldError(d, VehicleRegistration).Some?
    requires VehicleRegistration in e ==> e[VehicleRegistration] == FieldError(d, VehicleRegistration).value
    requires VehicleModel in e <==> FieldError(d, VehicleModel).Some?
    requires VehicleModel in e ==> e[VehicleModel] == FieldError(d, VehicleModel).value
    ensures e == ValidationErrors(d)
  {
    forall f ensures (f in e <==> f in ValidationErrors(d)) && (f in e ==> e[f] == ValidationErrors(d)[f]) {
      ValidationErrorsAt(d, f);
    }
  }

  /** The errors after the six blank-field checks: a field is reported
      exactly when it is checked and blank. */
  predicate RequiredStage(d: DriverData, e: map<TextField, string>)
  {
    (forall f :: f in e ==> f in {Name, Email, Phone, LicenseNumber, VehicleRegistration, VehicleModel}) &&
    (Name in e <==> Trim(d.name) == "") && (Name in e ==> e[Name] == NameRequired) &&
    (Email in e <==> Trim(d.email) == "") && (Email in e ==> e[Email] == EmailRequired) &&
    (Phone in e <==> Trim(d.phone) == "") && (Phone in e ==> e[Phone] == PhoneRequired) &&
    (LicenseNumber in e <==> Trim(d.licenseNumber) == "") && (LicenseNumber in e ==> e[LicenseNumber] == LicenseRequired) &&
    (VehicleRegistration in e <==> Trim(d.vehicleRegistration) == "") &&
    (VehicleRegistration in e ==> e[VehicleRegistration] == RegistrationRequired) &&
    (VehicleModel in e <==> Trim(d.vehicleModel) == "") && (VehicleModel in e ==> e[VehicleModel] == ModelRequired)
  }

  /** The two pattern checks applied after the blank-field checks give the
      errors object. */
  lemma PatternStage(d: DriverData, required: map<TextField, string>, e: map<TextField, string>)
    requires RequiredStage(d, required)
    requires e == (var m := if d.email != "" && !EmailOk(d.email) then required[Email := EmailInvalid] else required;
                   if d.phone != "" && !PhoneOk(d.phone) then m[Phone := PhoneInvalid] else m)
    ensures e == ValidationErrors(d)
  {
    SameErrors(d, e);
  }

  /** The form is valid exactly when the six required fields are not blank,
      the email matches its pattern and the phone its pattern. */
  lemma ValidIff(d: DriverData)
    ensures ValidationErrors(d) == map[] <==>
      !AllSpace(d.name) && !AllSpace(d.licenseNumber) && !AllSpace(d.vehicleRegistration) &&
      !AllSpace(d.vehicleModel) && EmailMatches(d.email) && PhoneOk(d.phone) && !AllSpace(d.phone)
  {
    ValidationErrorsEmpty(d);
    RequiredFieldError(d, Name);
    EmailError(d);
    PhoneError(d);
    RequiredFieldError(d, LicenseNumber);
    RequiredFieldError(d, VehicleRegistration);
    RequiredFieldError(d, VehicleModel);
  }

  /** The errors object is empty exactly when no checked field has an error. */
  lemma ValidationErrorsEmpty(d: DriverData)
    ensures ValidationErrors(d) == map[] <==>
      FieldError(d, Name).None? && FieldError(d, Email).None? && FieldError(d, Phone).None? &&
      FieldError(d, LicenseNumber).None? && FieldError(d, VehicleRegistration).None? &&
      FieldError(d, VehicleModel).None?
  {
    var e := ValidationErrors(d);
    if e != map[] {
      var f :| f in e;
      ValidationErrorsAt(d, f);
    } else {
      assert Name !in e && Email !in e && Phone !in e && LicenseNumber !in e;
      assert VehicleRegistration !in e && VehicleModel !in e;
    }
  }

  /** A whitespace-only email is reported as invalid, not as missing: the
      pattern check comes last and overrides. */
  lemma BlankEmailIsInvalid(d: DriverData)
    requires d.email != "" && AllSpace(d.email)
    ensures Email in ValidationErrors(d) && ValidationErrors(d)[Email] == EmailInvalid
  {
    ValidationErrorsAt(d, Email);
    EmailError(d);
  }

  /** A whitespace-only phone passes the pattern and is reported as missing. */
  lemma BlankPhoneIsRequired(d: DriverData)
    requires d.phone != "" && AllSpace(d.phone)
    ensures Phone in ValidationErrors(d) && ValidationErrors(d)[Phone] == PhoneRequired
  {
    TrimEmptyIff(d.phone);
    ValidationErrorsAt(d, Phone);
  }

  /** The first half of `validateForm`: each of the six required fields
      that is blank after trimming gets its "required" message. */
  method BlankFieldErrors(d: DriverData) returns (e: map<TextField, string>)
    ensures RequiredStage(d, e)
  {
    e := map[];
    if Trim(d.name) == "" { e := e[Name := NameRequired]; }
    if Trim(d.email) == "" { e := e[Email := EmailRequired]; }
    if Trim(d.phone) == "" { e := e[Phone := PhoneRequired]; }
    if Trim(d.licenseNumber) == "" { e := e[LicenseNumber := LicenseRequired]; }
    if Trim(d.vehicleRegistration) == "" { e := e[VehicleRegistration := RegistrationRequired]; }
    if Trim(d.vehicleModel) == "" { e := e[VehicleModel := ModelRequired]; }
  }

  class DriverForm {
    var formData: DriverData
    /** Field errors; a cleared (null) error is an absent key. */
    var errors: map<TextField, string>

    /** A new driver gets the defaults; an edited one the fallbacks. */
    constructor (driver: Option<Driver>)
      ensures formData == (if driver.Some? then FromDriver(driver.value) else DefaultForm)
      ensures errors == map[]
    {
      formData := if driver.Some? then FromDriver(driver.value) else DefaultForm;
      errors := map[];
    }

    /** `handleInputChange`: the field takes the value and only its own
        error, if one is showing, is cleared. */
    method HandleInputChange(f: TextField, v: string)
      modifies this
      ensures formData == Set(old(formData), f, v)
      ensures f in old(errors) && old(errors)[f] != "" ==> errors == old(errors) - {f}
      ensures !(f in old(errors) && old(errors)[f] != "") ==> errors == old(errors)
      ensures forall g :: g != f ==> (g in errors <==> g in old(errors))
      ensures forall g :: g != f && g in errors ==> errors[g] == old(errors)[g]
    {
      formData := Set(formData, f, v);
      if f in errors && errors[f] != "" {
        errors := errors - {f};
      }
    }

    method ToggleSpecialization(service: string)
      modifies this`formData
      ensures formData == old(formData).(specializations := Toggle(old(formData).specializations, service))
    {
      formData := formData.(specializations := Toggle(formData.specializations, service));
    }

    method ToggleDay(day: string)
      modifies this`formData
      ensures formData == old(formData).(workingDays := ToggleWorkingDay(old(formData).workingDays, day))
    {
      formData := formData.(workingDays := ToggleWorkingDay(formData.workingDays, day));
    }

    /** `validateForm`: the blank-field checks, then the two pattern checks,
        whose messages overwrite the earlier ones for the same field. */
    method ValidateForm() returns (ok: bool)
      modifies this`errors
      ensures errors == ValidationErrors(formData)
      ensures ok <==> errors == map[]
    {
      var d := formData;
      var e := BlankFieldErrors(d);
      ghost var required := e;
      if d.email != "" && !EmailOk(d.email) { e := e[Email := EmailInvalid]; }
      if d.phone != "" && !PhoneOk(d.phone) { e := e[Phone := PhoneInvalid]; }
      PatternStage(d, required, e);
      errors := e;
      ok := |e| == 0;
    }

    /** `handleSubmit`: the form data is handed on only when it validates. */
    method HandleSubmit() returns (submitted: Option<DriverData>)
      modifies this`errors
      ensures errors == ValidationErrors(formData)
      ensures submitted.Some? <==> errors == map[]
      ensures submitted.Some? ==> submitted.value == formData
    {
      var ok := ValidateForm();
      if !ok {
        return None;
      }
      submitted := Some(formData);
    }
  }
}
