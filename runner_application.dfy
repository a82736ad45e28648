/** The runner-application screen (mobile-app/src/app/runner-application.tsx):
    the form's validation, the available-days toggle and the payload built on
    submit. The screen hands the payload to `submitRunnerApplication`, which
    the session store does not define; the model stops at the payload. */
module RunnerApplication {
  import opened Wrappers
  import opened Types
  import Strings
  import Seqs

  /** The vehicle picker's values: `motorcycle`, `car`, `bicycle`, `on_foot`. */
  datatype VehicleType = Motorcycle | Car | Bicycle | OnFoot

  /** The form's fields as the screen holds them. `deliveryExperienceYears` is
      the result of `parseInt` on the typed text: `None` when it is not a
      number. */
  datatype ApplicationForm = ApplicationForm(
    fullName: string,
    email: string,
    phone: string,
    dateOfBirth: string,
    address: string,
    city: City,
    vehicleType: VehicleType,
    vehicleMake: string,
    vehicleModel: string,
    vehicleYear: string,
    vehiclePlateNumber: string,
    hasDriversLicense: bool,
    driversLicenseNumber: string,
    hasVehicleRegistration: bool,
    hasDeliveryExperience: bool,
    deliveryExperienceYears: Option<int>,
    previousEmployer: string,
    selectedDays: seq<string>,
    availableHours: string,
    whyJoin: string,
    hearAboutUs: string)

  // ---------------------------------------------------------------------------
  // Validation
  // ---------------------------------------------------------------------------

  /** The messages `validateForm` returns, in the order of its checks. */
  const FullNameRequired: string := "Full name is required"
  const EmailRequired: string := "Email is required"
  const PhoneRequired: string := "Phone number is required"
  const BirthDateRequired: string := "Date of birth is required"
  const AddressRequired: string := "Address is required"
  const MotivationRequired: string := "Please tell us why you want to join"
  const DaysRequired: string := "Select at least one available day"
  const HoursRequired: string := "Please specify your available hours"
  const MakeRequired: string := "Vehicle make is required"
  const ModelRequired: string := "Vehicle model is required"

  /** Everything `validateForm` demands, stated at once. */
  predicate Acceptable(f: ApplicationForm) {
    !Strings.IsBlank(f.fullName) && !Strings.IsBlank(f.email) && !Strings.IsBlank(f.phone) &&
    !Strings.IsBlank(f.dateOfBirth) && !Strings.IsBlank(f.address) && !Strings.IsBlank(f.whyJoin) &&
    |f.selectedDays| > 0 && !Strings.IsBlank(f.availableHours) &&
    (f.vehicleType == OnFoot || (!Strings.IsBlank(f.vehicleMake) && !Strings.IsBlank(f.vehicleModel)))
  }

  /** `validateForm`: the message of the first failed check, or nothing. */
  function ValidateForm(f: ApplicationForm): (r: Option<string>)
    ensures r.None? <==> Acceptable(f)
  {
    if Strings.IsBlank(f.fullName) then Some(FullNameRequired)
    else if Strings.IsBlank(f.email) then Some(EmailRequired)
    else if Strings.IsBlank(f.phone) then Some(PhoneRequired)
    else if Strings.IsBlank(f.dateOfBirth) then Some(BirthDateRequired)
    else if Strings.IsBlank(f.address) then Some(AddressRequired)
    else if Strings.IsBlank(f.whyJoin) then Some(MotivationRequired)
    else if |f.selectedDays| == 0 then Some(DaysRequired)
    else if Strings.IsBlank(f.availableHours) then Some(HoursRequired)
    else if f.vehicleType != OnFoot && Strings.IsBlank(f.vehicleMake) then Some(MakeRequired)
    else if f.vehicleType != OnFoot && Strings.IsBlank(f.vehicleModel) then Some(ModelRequired)
    else None
  }

  /** One check of the form: whether it passes, and the message shown when it
      does not. */
  datatype Check = Check(passes: bool, message: string)

  /** The checks in the order the screen makes them, one appended after the
      other; the vehicle checks only for a vehicle. */
  function Checks(f: ApplicationForm): seq<Check> {
    var personal :=
      [Check(!Strings.IsBlank(f.fullName), FullNameRequired)] +
      [Check(!Strings.IsBlank(f.email), EmailRequired)] +
      [Check(!Strings.IsBlank(f.phone), PhoneRequired)] +
      [Check(!Strings.IsBlank(f.dateOfBirth), BirthDateRequired)] +
      [Check(!Strings.IsBlank(f.address), AddressRequired)] +
      [Check(!Strings.IsBlank(f.whyJoin), MotivationRequired)] +
      [Check(|f.selectedDays| > 0, DaysRequired)] +
      [Check(!Strings.IsBlank(f.availableHours), HoursRequired)];
    if f.vehicleType != OnFoot then
      personal + [Check(!Strings.IsBlank(f.vehicleMake), MakeRequired)] +
                 [Check(!Strings.IsBlank(f.vehicleModel), ModelRequired)]
    else personal
  }

  /** The message of the first failing check in a list. */
  function FirstFailure(checks: seq<Check>): Option<string> {
    if checks == [] then None
    else if !checks[0].passes then Some(checks[0].message)
    else FirstFailure(checks[1..])
  }

  /** `FirstFailure` reports nothing exactly when every check passes, and
      otherwise the message of a failing check that only passing checks
      precede. */
  lemma {:induction false} FirstFailureIsFirst(checks: seq<Check>)
    ensures FirstFailure(checks).None? <==> forall i :: 0 <= i < |checks| ==> checks[i].passes
    ensures FirstFailure(checks).Some? ==>
      exists i :: 0 <= i < |checks| && !checks[i].passes && checks[i].message == FirstFailure(checks).value &&
                  forall j :: 0 <= j < i ==> checks[j].passes
  {
    if checks != [] && checks[0].passes {
      var rest := checks[1..];
      FirstFailureIsFirst(rest);
      if FirstFailure(rest).Some? {
        var i :| 0 <= i < |rest| && !rest[i].passes && rest[i].message == FirstFailure(rest).value &&
                 forall j :: 0 <= j < i ==> rest[j].passes;
        assert forall j :: 0 < j < i + 1 ==> checks[j] == rest[j - 1];
        assert !checks[i + 1].passes && checks[i + 1].message == FirstFailure(checks).value;
      } else {
        assert forall i :: 0 < i < |checks| ==> checks[i] == rest[i - 1];
      }
    }
  }

  /** Appending a check only matters when every earlier check passes. */
  lemma {:induction false} FirstFailureSnoc(checks: seq<Check>, c: Check)
    ensures FirstFailure(checks + [c]) ==
            if FirstFailure(checks).Some? then FirstFailure(checks)
            else if c.passes then None else Some(c.message)
  {
    if checks == [] {
      assert checks + [c] == [c];
      assert [c][1..] == [];
    } else {
      assert (checks + [c])[1..] == checks[1..] + [c];
      FirstFailureSnoc(checks[1..], c);
    }
  }

  /** With several failures, `validateForm` reports the first in its fixed
      order. */
  lemma ValidateFormReportsFirstFailure(f: ApplicationForm)
    ensures ValidateForm(f) == FirstFailure(Checks(f))
  {
    var c0 := Check(!Strings.IsBlank(f.fullName), FullNameRequired);
    var c1 := Check(!Strings.IsBlank(f.email), EmailRequired);
    var c2 := Check(!Strings.IsBlank(f.phone), PhoneRequired);
    var c3 := Check(!Strings.IsBlank(f.dateOfBirth), BirthDateRequired);
    var c4 := Check(!Strings.IsBlank(f.address), AddressRequired);
    var c5 := Check(!Strings.IsBlank(f.whyJoin), MotivationRequired);
    var c6 := Check(|f.selectedDays| > 0, DaysRequired);
    var c7 := Check(!Strings.IsBlank(f.availableHours), HoursRequired);
    var c8 := Check(!Strings.IsBlank(f.vehicleMake), MakeRequired);
    var c9 := Check(!Strings.IsBlank(f.vehicleModel), ModelRequired);
    FirstFailureSnoc([], c0);
    assert [] + [c0] == [c0];
    FirstFailureSnoc([c0], c1);
    FirstFailureSnoc([c0] + [c1], c2);
    FirstFailureSnoc([c0] + [c1] + [c2], c3);
    FirstFailureSnoc([c0] + [c1] + [c2] + [c3], c4);
    FirstFailureSnoc([c0] + [c1] + [c2] + [c3] + [c4], c5);
    FirstFailureSnoc([c0] + [c1] + [c2] + [c3] + [c4] + [c5], c6);
    FirstFailureSnoc([c0] + [c1] + [c2] + [c3] + [c4] + [c5] + [c6], c7);
    var personal := [c0] + [c1] + [c2] + [c3] + [c4] + [c5] + [c6] + [c7];
    FirstFailureSnoc(personal, c8);
    FirstFailureSnoc(personal + [c8], c9);
  }

  // ---------------------------------------------------------------------------
  // Available days
  // ---------------------------------------------------------------------------

  /** `toggleDay`: removes every copy of the day if it is selected, appends it
      otherwise. */
  function Toggled(days: seq<string>, day: string): (r: seq<string>)
    ensures day in r <==> day !in days
    ensures forall d :: d != day ==> (d in r <==> d in days)
  {
    if day in days then Seqs.Filter(days, (d: string) => d != day) else days + [day]
  }

  /** Toggling a day that was not selected twice gives back the same list. */
  lemma ToggleTwiceRestores(days: seq<string>, day: string)
    requires day !in days
    ensures Toggled(Toggled(days, day), day) == days
  {
    var p := (d: string) => d != day;
    Seqs.FilterAppend(days, [day], p);
    Seqs.FilterAll(days, p);
  }

  /** Toggling a selected day twice keeps the selection but moves the day to
      the end of the list. */
  lemma ToggleTwiceMovesToEnd(days: seq<string>, day: string)
    requires day in days
    ensures Toggled(Toggled(days, day), day) == Seqs.Filter(days, (d: string) => d != day) + [day]
  {
  }

  /** The selected-days state of the screen. */
  class DayPicker {
    var selectedDays: seq<string>

    constructor ()
      ensures selectedDays == []
    {
      selectedDays := [];
    }

    method ToggleDay(day: string)
      modifies this
      ensures selectedDays == Toggled(old(selectedDays), day)
    {
      if day in selectedDays {
        selectedDays := Seqs.Filter(selectedDays, (d: string) => d != day);
      } else {
        selectedDays := selectedDays + [day];
      }
    }
  }

  // ---------------------------------------------------------------------------
  // Submission
  // ---------------------------------------------------------------------------

  const PendingStatus: string := "pending"

  /** The object `handleSubmit` passes on; an `undefined` field is `None`. */
  datatype ApplicationPayload = ApplicationPayload(
    userId: string,
    status: string,
    fullName: string,
    email: string,
    phone: string,
    dateOfBirth: string,
    address: string,
    city: City,
    vehicleType: VehicleType,
    vehicleMake: Option<string>,
    vehicleModel: Option<string>,
    vehicleYear: Option<string>,
    vehiclePlateNumber: Option<string>,
    hasDriversLicense: bool,
    driversLicenseNumber: Option<string>,
    hasVehicleRegistration: bool,
    hasDeliveryExperience: bool,
    deliveryExperienceYears: Option<int>,
    previousEmployer: Option<string>,
    availableDays: seq<string>,
    availableHours: string,
    whyJoin: string,
    hearAboutUs: string,
    appliedAt: Timestamp)

  /** `value` when `keep` holds, `undefined` otherwise. */
  function KeptIf<T>(keep: bool, value: T): Option<T> {
    if keep then Some(value) else None
  }

  /** `handleSubmit` up to the hand-over: the validation message when the form
      fails, the payload otherwise. `user` is the signed-in profile, `now` is
      `new Date()`. */
  function HandleSubmit(f: ApplicationForm, user: Option<User>, now: Timestamp): (r: Result<ApplicationPayload, string>)
    ensures r.Failure? <==> ValidateForm(f).Some?
    ensures r.Failure? ==> r.error == ValidateForm(f).value
    ensures r.Success? ==> Acceptable(f)
    ensures r.Success? ==> var p := r.value;
      p.status == PendingStatus && p.appliedAt == now &&
      p.userId == (if user.Some? then user.value.id else "") &&
      (p.vehicleMake.None? <==> f.vehicleType == OnFoot) &&
      (p.vehicleModel.None? <==> f.vehicleType == OnFoot) &&
      (p.vehicleYear.None? <==> f.vehicleType == OnFoot) &&
      (p.vehiclePlateNumber.None? <==> f.vehicleType == OnFoot) &&
      (f.vehicleType != OnFoot ==> p.vehicleMake == Some(f.vehicleMake) && p.vehicleModel == Some(f.vehicleModel) &&
                                   p.vehicleYear == Some(f.vehicleYear) && p.vehiclePlateNumber == Some(f.vehiclePlateNumber)) &&
      p.driversLicenseNumber == (if f.hasDriversLicense then Some(f.driversLicenseNumber) else None) &&
      p.deliveryExperienceYears == (if f.hasDeliveryExperience then Some(f.deliveryExperienceYears.GetOr(0)) else None) &&
      p.previousEmployer == (if f.hasDeliveryExperience then Some(f.previousEmployer) else None) &&
      p.fullName == f.fullName && p.email == f.email && p.phone == f.phone && p.dateOfBirth == f.dateOfBirth &&
      p.address == f.address && p.city == f.city && p.vehicleType == f.vehicleType &&
      p.hasDriversLicense == f.hasDriversLicense && p.hasVehicleRegistration == f.hasVehicleRegistration &&
      p.hasDeliveryExperience == f.hasDeliveryExperience && p.availableDays == f.selectedDays &&
      p.availableHours == f.availableHours && p.whyJoin == f.whyJoin && p.hearAboutUs == f.hearAboutUs
  {
    match ValidateForm(f)
    case Some(error) => Failure(error)
    case None =>
      var vehicle := f.vehicleType != OnFoot;
      Success(ApplicationPayload(
        if user.Some? then user.value.id else "",
        PendingStatus,
        f.fullName, f.email, f.phone, f.dateOfBirth, f.address, f.city, f.vehicleType,
        KeptIf(vehicle, f.vehicleMake), KeptIf(vehicle, f.vehicleModel),
        KeptIf(vehicle, f.vehicleYear), KeptIf(vehicle, f.vehiclePlateNumber),
        f.hasDriversLicense, KeptIf(f.hasDriversLicense, f.driversLicenseNumber),
        f.hasVehicleRegistration, f.hasDeliveryExperience,
        KeptIf(f.hasDeliveryExperience, f.deliveryExperienceYears.GetOr(0)),
        KeptIf(f.hasDeliveryExperience, f.previousEmployer),
        f.selectedDays, f.availableHours, f.whyJoin, f.hearAboutUs, now))
  }
}
