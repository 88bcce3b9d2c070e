/** The request validators of the gig API (gigs/serializers.py), with the
    field-level checks the framework derives from the model fields
    (gigs/models.py): required fields, blank and length checks of text
    columns, choices, related keys, MinValueValidator limits and the
    max_digits of each decimal column.

    Every validator answers None when it accepts and the first error it
    raises otherwise.  Hours and money are hundredths, so a column with
    max_digits d and two decimal places holds values below 10^d. */
module GigSerializers {
  import opened Wrappers
  import opened Text
  import opened GigModels
  import TutorModels

  /** The validation errors of the gig serializers. */
  datatype Invalid =
    | Required
    | BelowMinimum(limit: string)
    | TooManyDigits(maxDigits: nat)
    | TooLong(maxLength: nat)
    | TimesOutOfOrder
    | FutureDate
    | HoursNotPositive
    | HoursOver24
    | SessionGigNotActive
    | HoursOverRemaining(hours: int, remaining: int)
    | RemainingOverTotal
    | FeeUnderRemuneration
    | StartDateAfterEndDate
    | TotalBelowCompleted(value: int, completed: int)
    | TutorNotFound
    | TutorInactive
    | TutorBlocked
    | CannotSubtract(value: int, remaining: int)
    | NoSessionInContext
    | VerifyGigNotActive
    | VerifyOverRemaining(hours: int, remaining: int)
    | Blank
    | InvalidChoice(input: string)
    | InvalidEmail
    | NoSuchObject(pk: nat)

  /** str() of a signed two-place Decimal given in hundredths. */
  function SignedHundredths(x: int): string {
    if x < 0 then "-" + Hundredths(-x) else Hundredths(x)
  }

  /** The text of each error as the client receives it. */
  function Message(e: Invalid): string {
    match e
    case Required => "This field is required."
    case BelowMinimum(limit) => "Ensure this value is greater than or equal to " + limit + "."
    case TooManyDigits(d) => "Ensure that there are no more than " + Decimal(d) + " digits in total."
    case TooLong(n) => "Ensure this field has no more than " + Decimal(n) + " characters."
    case TimesOutOfOrder => "Start time must be before end time."
    case FutureDate => "Session date cannot be in the future."
    case HoursNotPositive => "Hours logged must be greater than 0."
    case HoursOver24 => "Hours logged cannot exceed 24 hours per session."
    case SessionGigNotActive => "Can only create sessions for active gigs."
    case HoursOverRemaining(h, r) =>
      "Hours logged (" + SignedHundredths(h) + ") cannot exceed remaining hours (" + SignedHundredths(r) + ")."
    case RemainingOverTotal => "Hours remaining cannot exceed total hours."
    case FeeUnderRemuneration => "Client fee cannot be less than tutor remuneration."
    case StartDateAfterEndDate => "Start date cannot be after end date."
    case TotalBelowCompleted(v, c) =>
      "Total hours (" + SignedHundredths(v) + ") cannot be less than hours already completed (" + SignedHundredths(c) + ")."
    case TutorNotFound => "Tutor not found."
    case TutorInactive => "Cannot assign gig to inactive tutor."
    case TutorBlocked => "Cannot assign gig to blocked tutor."
    case CannotSubtract(v, r) =>
      "Cannot subtract " + SignedHundredths(v) + " hours. Only " + SignedHundredths(r) + " hours remaining."
    case NoSessionInContext => "Session not found in context."
    case VerifyGigNotActive => "Can only verify sessions for active gigs."
    case VerifyOverRemaining(h, r) =>
      "Cannot verify session. Hours logged (" + SignedHundredths(h) + ") exceed remaining hours (" + SignedHundredths(r) + ")."
    case Blank => "This field may not be blank."
    case InvalidChoice(v) => "\"" + v + "\" is not a valid choice."
    case InvalidEmail => "Enter a valid email address."
    case NoSuchObject(pk) => "Invalid pk \"" + Decimal(pk) + "\" - object does not exist."
  }

  /** The errors of one input field, keyed as serializer.errors keys them. */
  datatype FieldErrors = FieldErrors(field: string, messages: seq<string>)

  /** The key under which serializer.errors files the errors of validate(). */
  const NonFieldKey := "non_field_errors"

  /** The errors dictionary of a serializer that accepted its fields and then
      ran validate(). */
  function NonField(e: Option<Invalid>): seq<FieldErrors> {
    if e.Some? then [FieldErrors(NonFieldKey, [Message(e.value)])] else []
  }

  // ------------------------------------------------------------- fields

  /** A two-place decimal column's own checks: its digits first, then its
      minimum. */
  function DecimalField(v: Option<int>, required: bool, least: int, leastText: string, bound: int, maxDigits: nat): (e: Option<Invalid>)
    requires bound > 0
    ensures e.None? <==> (v.None? ==> !required) && (v.Some? ==> -bound < v.value < bound && v.value >= least)
  {
    match v
    case None => if required then Some(Required) else None
    case Some(x) =>
      if x >= bound || x <= -bound then Some(TooManyDigits(maxDigits))
      else if x < least then Some(BelowMinimum(leastText))
      else None
  }

  /** A required field without further checks (dates and times). */
  function PresentField<T>(v: Option<T>, required: bool): (e: Option<Invalid>)
    ensures e.None? <==> (v.Some? || !required)
  {
    if v.None? && required then Some(Required) else None
  }

  /** A CharField: required on a full write; the text is trimmed, a blank one
      is refused unless blanks are allowed, and a longer one than the column
      holds is refused. */
  function CharField(raw: Option<string>, required: bool, allowBlank: bool, maxLength: nat): (e: Option<Invalid>)
    ensures e.None? <==> ((raw.None? ==> !required)
      && (raw.Some? ==> (allowBlank || Strip(raw.value) != []) && |Strip(raw.value)| <= maxLength))
  {
    match raw
    case None => if required then Some(Required) else None
    case Some(s) =>
      if Strip(s) == [] then (if allowBlank then None else Some(Blank))
      else if |Strip(s)| > maxLength then Some(TooLong(maxLength))
      else None
  }

  /** A ChoiceField over the keys of a model's choices; the input is compared
      as given, without trimming. */
  function ChoiceField(raw: Option<string>, required: bool, choices: seq<string>): (e: Option<Invalid>)
    ensures e.None? <==> (raw.None? ==> !required) && (raw.Some? ==> raw.value in choices)
  {
    match raw
    case None => if required then Some(Required) else None
    case Some(s) => if s in choices then None else Some(InvalidChoice(s))
  }

  /** The primary key a request gives for a related row, as the related
      field looks it up: the key, and whether a stored row has it. */
  datatype KeyRef = KeyRef(pk: nat, found: bool)

  /** A PrimaryKeyRelatedField: required on a full write when the column
      cannot be empty, and the key must name a stored row. */
  function RelatedField(v: Option<KeyRef>, required: bool): (e: Option<Invalid>)
    ensures e.None? <==> (v.None? ==> !required) && (v.Some? ==> v.value.found)
  {
    match v
    case None => if required then Some(Required) else None
    case Some(k) => if k.found then None else Some(NoSuchObject(k.pk))
  }

  /** The entry serializer.errors has for one field: none when it passes. */
  function Entry(field: string, e: Option<Invalid>): (errs: seq<FieldErrors>)
    ensures errs == [] <==> e.None?
  {
    if e.Some? then [FieldErrors(field, [Message(e.value)])] else []
  }

  /** The field errors collected over several fields, in field order. */
  function Collect(checks: seq<(string, Option<Invalid>)>): (errs: seq<FieldErrors>)
    ensures errs == [] <==> forall k :: 0 <= k < |checks| ==> checks[k].1.None?
    ensures |errs| <= |checks|
  {
    if checks == [] then []
    else
      var rest := Collect(checks[1..]);
      assert forall k :: 1 <= k < |checks| ==> checks[k].1 == checks[1..][k - 1].1;
      match checks[0].1
      case None => rest
      case Some(e) => [FieldErrors(checks[0].0, [Message(e)])] + rest
  }

  /** A text input as CharField(max_length, allow_blank) reads it: stripped,
      and too long when the stripped text exceeds the limit. */
  datatype TextInput = Absent | Given(text: string) | Overlong

  function ReadText(raw: Option<string>, maxLength: nat): (t: TextInput)
    ensures raw.None? <==> t.Absent?
    ensures t.Given? ==> t.text == Strip(raw.value) && |t.text| <= maxLength
    ensures t.Overlong? <==> raw.Some? && |Strip(raw.value)| > maxLength
  {
    match raw
    case None => Absent
    case Some(s) => if |Strip(s)| > maxLength then Overlong else Given(Strip(s))
  }

  /** validated_data.get(key, default). */
  function TextOr(t: TextInput, default: string): string {
    if t.Given? then t.text else default
  }

  // ----------------------------------------------------------- sessions

  /** The session fields a request may carry (None when absent); gig is the
      key of the gig the session belongs to, which the serializer lets a
      request write. */
  datatype SessionAttrs = SessionAttrs(gig: Option<KeyRef>, date: Option<int>, startTime: Option<int>,
                                       endTime: Option<int>, hours: Option<int>)

  /** The field checks of GigSessionSerializer, in field order: gig must name
      a stored gig, hours_logged has at most four digits and is at least
      0.25, and on a full write every one of these fields is required. */
  function SessionFieldErrors(a: SessionAttrs, required: bool): (errs: seq<FieldErrors>)
    ensures errs == [] <==>
      (required ==> a.gig.Some? && a.date.Some? && a.startTime.Some? && a.endTime.Some? && a.hours.Some?)
      && (a.gig.Some? ==> a.gig.value.found)
      && (a.hours.Some? ==> 25 <= a.hours.value < 10000)
  {
    var e0 := RelatedField(a.gig, required);
    var e1 := PresentField(a.date, required);
    var e2 := PresentField(a.startTime, required);
    var e3 := PresentField(a.endTime, required);
    var e4 := DecimalField(a.hours, required, 25, "0.25", 10000, 4);
    var checks := [("gig", e0),
                   ("session_date", e1),
                   ("start_time", e2),
                   ("end_time", e3),
                   ("hours_logged", e4)];
    assert checks[0].1 == e0 && checks[1].1 == e1 && checks[2].1 == e2 && checks[3].1 == e3 && checks[4].1 == e4;
    Collect(checks)
  }

  /** GigSessionSerializer.validate.  A zero amount of hours is falsy in the
      source and skips both hour checks. */
  function ValidateSession(a: SessionAttrs, today: int): (e: Option<Invalid>)
    ensures e.None? <==>
      && (a.startTime.Some? && a.endTime.Some? ==> a.startTime.value < a.endTime.value)
      && (a.date.Some? ==> a.date.value <= today)
      && (a.hours.Some? ==> 0 <= a.hours.value <= 2400)
  {
    if a.startTime.Some? && a.endTime.Some? && a.startTime.value >= a.endTime.value then Some(TimesOutOfOrder)
    else if a.date.Some? && a.date.value > today then Some(FutureDate)
    else if a.hours.Some? && a.hours.value != 0 && a.hours.value <= 0 then Some(HoursNotPositive)
    else if a.hours.Some? && a.hours.value != 0 && a.hours.value > 2400 then Some(HoursOver24)
    else None
  }

  /** The field's own minimum of 0.25 runs first, so validate() never sees
      hours that are not positive and its "greater than 0" check cannot fire. */
  lemma PositiveHoursCheckUnreachable(a: SessionAttrs, required: bool, today: int)
    requires SessionFieldErrors(a, required) == []
    ensures ValidateSession(a, today) != Some(HoursNotPositive)
  {
  }

  /** GigSessionCreateSerializer.validate: the session checks, then an active
      gig and enough remaining hours. */
  function ValidateSessionCreate(a: SessionAttrs, gig: GigRow, today: int): (e: Option<Invalid>)
    ensures e.None? <==> (ValidateSession(a, today).None? && gig.status == Active
      && (a.hours.Some? && a.hours.value != 0 ==> a.hours.value <= gig.remaining))
  {
    var e := ValidateSession(a, today);
    if e.Some? then e
    else if gig.status != Active then Some(SessionGigNotActive)
    else if a.hours.Some? && a.hours.value != 0 && a.hours.value > gig.remaining then
      Some(HoursOverRemaining(a.hours.value, gig.remaining))
    else None
  }

  /** serializer.errors of a session creation request. */
  function CreateSessionErrors(a: SessionAttrs, gig: GigRow, today: int): (errs: seq<FieldErrors>)
    ensures errs == [] <==> SessionFieldErrors(a, true) == [] && ValidateSessionCreate(a, gig, today).None?
  {
    var fe := SessionFieldErrors(a, true);
    if fe != [] then fe else NonField(ValidateSessionCreate(a, gig, today))
  }

  /** Every session the create serializer accepts fits in the gig: between
      0.25 and 24 hours, no more than remain, on or before today. */
  lemma AcceptedSessionFits(a: SessionAttrs, gig: GigRow, today: int)
    requires CreateSessionErrors(a, gig, today) == []
    ensures a.hours.Some? && 25 <= a.hours.value <= 2400 && a.hours.value <= gig.remaining
    ensures a.date.Some? && a.date.value <= today
    ensures a.startTime.Some? && a.endTime.Some? && a.startTime.value < a.endTime.value
    ensures gig.status == Active
  {
  }

  /** serializer.errors of a session edit (GigSessionSerializer): no gig
      status or remaining-hours check. */
  function EditSessionErrors(a: SessionAttrs, partial: bool, today: int): (errs: seq<FieldErrors>)
    ensures errs == [] <==> SessionFieldErrors(a, !partial) == [] && ValidateSession(a, today).None?
  {
    var fe := SessionFieldErrors(a, !partial);
    if fe != [] then fe else NonField(ValidateSession(a, today))
  }

  // --------------------------------------------------------------- gigs

  /** The numeric gig fields a request may carry. */
  datatype GigAttrs = GigAttrs(
    totalHours: Option<int>, remaining: Option<int>, clientFee: Option<int>,
    remuneration: Option<int>, startDate: Option<int>, endDate: Option<int>)

  /** The given value, or the instance's when the request leaves it out. */
  function Or(v: Option<int>, instance: Option<GigRow>, stored: int): Option<int> {
    if v.Some? then v else if instance.Some? then Some(stored) else None
  }

  /** The request's values completed from the instance, as validate() reads
      them with attrs.get(..) or instance.<field>. */
  function Filled(a: GigAttrs, instance: Option<GigRow>): (f: GigAttrs)
    ensures instance.Some? ==> (f.totalHours.Some? && f.remaining.Some? && f.clientFee.Some?
      && f.remuneration.Some? && f.startDate.Some? && f.endDate.Some?)
    ensures instance.None? ==> f == a
  {
    var g := instance.GetOr(GigRow(None, Pending, 0, 0, 0, 0, 0, 0, None, None, ""));
    GigAttrs(Or(a.totalHours, instance, g.totalHours), Or(a.remaining, instance, g.remaining),
             Or(a.clientFee, instance, g.clientFee), Or(a.remuneration, instance, g.remuneration),
             Or(a.startDate, instance, g.startDate), Or(a.endDate, instance, g.endDate))
  }

  /** Python truthiness of an optional Decimal: present and non-zero. */
  predicate Truthy(v: Option<int>) { v.Some? && v.value != 0 }

  /** GigSerializer.validate: fills missing values from the instance, then
      checks each pair only when both values are truthy (a date always is). */
  function ValidateGig(a: GigAttrs, instance: Option<GigRow>): (e: Option<Invalid>)
    ensures var g := Filled(a, instance);
      e.None? <==>
        && (Truthy(g.remaining) && Truthy(g.totalHours) ==> g.remaining.value <= g.totalHours.value)
        && (Truthy(g.clientFee) && Truthy(g.remuneration) ==> g.clientFee.value >= g.remuneration.value)
        && (g.startDate.Some? && g.endDate.Some? ==> g.startDate.value <= g.endDate.value)
  {
    var g := Filled(a, instance);
    if Truthy(g.remaining) && Truthy(g.totalHours) && g.remaining.value > g.totalHours.value then Some(RemainingOverTotal)
    else if Truthy(g.clientFee) && Truthy(g.remuneration) && g.clientFee.value < g.remuneration.value then Some(FeeUnderRemuneration)
    else if g.startDate.Some? && g.endDate.Some? && g.startDate.value > g.endDate.value then Some(StartDateAfterEndDate)
    else None
  }

  const NoGigAttrs := GigAttrs(None, None, None, None, None, None)

  /** Every row clean() accepts also passes GigSerializer.validate unchanged;
      when no compared amount is zero the two agree. */
  lemma ValidateGigAgreesWithClean(r: GigRow)
    ensures Consistent(r) ==> ValidateGig(NoGigAttrs, Some(r)).None?
    ensures r.totalHours != 0 && r.remaining != 0 && r.clientFee != 0 && r.remuneration != 0 ==>
      (ValidateGig(NoGigAttrs, Some(r)).None? <==>
        r.remaining <= r.totalHours && r.clientFee >= r.remuneration && r.startDate <= r.endDate)
  {
  }

  /** A zero client fee is falsy, so GigSerializer.validate lets through a
      fee below the remuneration that clean() then refuses. */
  lemma ZeroFeeSkipsFeeCheck()
    ensures var r := GigRow(None, Pending, 10000, 0, 1000, 1000, 0, 1, None, None, "");
      ValidateGig(NoGigAttrs, Some(r)).None? && Clean(r) == Some(FeeBelowRemuneration)
  {
  }

  /** The keys of Gig.LEVEL_CHOICES and Gig.PRIORITY_CHOICES. */
  const LevelChoices: seq<string> := ["primary", "middle", "high_school", "college_prep", "undergraduate",
                                      "graduate", "professional", "adult_education", "other"]
  const PriorityChoices: seq<string> := ["low", "medium", "high", "urgent"]

  /** The text and choice fields of a gig request as sent (None when absent);
      emailOk is the verdict of Django's EmailValidator on the trimmed client
      address.  description and notes take any text and are not listed. */
  datatype GigText = GigText(
    title: Option<string>, subject: Option<string>, level: Option<string>, priority: Option<string>,
    clientName: Option<string>, clientEmail: Option<string>, emailOk: bool, clientPhone: Option<string>)

  /** A request that gives no text or choice field. */
  const NoGigText := GigText(None, None, None, None, None, None, false, None)

  /** No text or choice field is given. */
  predicate NoText(t: GigText) {
    t.title.None? && t.subject.None? && t.level.None? && t.priority.None?
    && t.clientName.None? && t.clientEmail.None? && t.clientPhone.None?
  }

  /** An EmailField of the default 254 characters: the CharField checks, then
      the address format. */
  function EmailField(raw: Option<string>, required: bool, ok: bool): (e: Option<Invalid>)
    ensures e.None? <==> ((raw.None? ==> !required)
      && (raw.Some? ==> Strip(raw.value) != [] && |Strip(raw.value)| <= 254 && ok))
  {
    var own := CharField(raw, required, false, 254);
    if own.Some? || raw.None? then own else if ok then None else Some(InvalidEmail)
  }

  /** A present text fits: non-blank and no longer than the column. */
  predicate Fits(raw: Option<string>, maxLength: nat) {
    raw.Some? ==> Strip(raw.value) != [] && |Strip(raw.value)| <= maxLength
  }

  /** What the model's text and choice columns accept: on a full write the
      title, subject, level, client name and client e-mail address are required;
      priority and client phone may be left out, and the phone may be blank. */
  predicate TextAccepted(t: GigText, required: bool) {
    && (required ==> t.title.Some? && t.subject.Some? && t.level.Some? && t.clientName.Some? && t.clientEmail.Some?)
    && Fits(t.title, 200) && Fits(t.subject, 100) && Fits(t.clientName, 100)
    && (t.level.Some? ==> t.level.value in LevelChoices)
    && (t.priority.Some? ==> t.priority.value in PriorityChoices)
    && (t.clientEmail.Some? ==> Fits(t.clientEmail, 254) && t.emailOk)
    && (t.clientPhone.Some? ==> |Strip(t.clientPhone.value)| <= 17)
  }

  /** The fields of a gig creation request; tutor is None when absent or
      null. */
  datatype GigCreate = GigCreate(
    tutor: Option<KeyRef>, text: GigText, remuneration: Option<int>, clientFee: Option<int>,
    totalHours: Option<int>, startDate: Option<int>, endDate: Option<int>, notes: string)

  /** The field checks of GigCreateSerializer in field order (a plain
      ModelSerializer: its validate() adds no check of its own).  The tutor
      may be left out, but a given key must name a stored tutor. */
  function CreateGigErrors(a: GigCreate): (errs: seq<FieldErrors>)
    ensures errs == [] <==>
      && (a.tutor.Some? ==> a.tutor.value.found)
      && TextAccepted(a.text, true)
      && a.remuneration.Some? && 0 <= a.remuneration.value < 10000000000
      && a.clientFee.Some? && 0 <= a.clientFee.value < 10000000000
      && a.totalHours.Some? && 50 <= a.totalHours.value < 1000000
      && a.startDate.Some? && a.endDate.Some?
  {
    var t := a.text;
    var e0 := RelatedField(a.tutor, false);
    var e1 := CharField(t.title, true, false, 200);
    var e2 := CharField(t.subject, true, false, 100);
    var e3 := ChoiceField(t.level, true, LevelChoices);
    var e4 := DecimalField(a.remuneration, true, 0, "0.00", 10000000000, 10);
    var e5 := DecimalField(a.clientFee, true, 0, "0.00", 10000000000, 10);
    var e6 := DecimalField(a.totalHours, true, 50, "0.50", 1000000, 6);
    var e7 := ChoiceField(t.priority, false, PriorityChoices);
    var e8 := CharField(t.clientName, true, false, 100);
    var e9 := EmailField(t.clientEmail, true, t.emailOk);
    var e10 := CharField(t.clientPhone, false, true, 17);
    var e11 := PresentField(a.startDate, true);
    var e12 := PresentField(a.endDate, true);
    Entry("tutor", e0)
    + Entry("title", e1)
    + Entry("subject_name", e2)
    + Entry("level", e3)
    + Entry("total_tutor_remuneration", e4)
    + Entry("total_client_fee", e5)
    + Entry("total_hours", e6)
    + Entry("priority", e7)
    + Entry("client_name", e8)
    + Entry("client_email", e9)
    + Entry("client_phone", e10)
    + Entry("start_date", e11)
    + Entry("end_date", e12)
  }

  /** The row GigCreateSerializer hands to save(): remaining hours equal the
      total, the gig is pending and has not started. */
  function NewGig(a: GigCreate): (r: GigRow)
    requires CreateGigErrors(a) == []
    ensures r.remaining == r.totalHours && r.status == Pending
    ensures r.actualStart.None? && r.actualEnd.None?
    ensures r.tutor == if a.tutor.Some? then Some(a.tutor.value.pk) else None
  {
    GigRow(if a.tutor.Some? then Some(a.tutor.value.pk) else None, Pending, a.remuneration.value, a.clientFee.value, a.totalHours.value, a.totalHours.value,
           a.startDate.value, a.endDate.value, None, None, a.notes)
  }

  /** A new gig starts with its ledger balanced, and clean() accepts it exactly
      when the fee covers the remuneration and the dates are in order. */
  lemma NewGigBalanced(a: GigCreate)
    requires CreateGigErrors(a) == []
    ensures Balanced(NewGig(a), [], 0)
    ensures Clean(NewGig(a)).None? <==> a.clientFee.value >= a.remuneration.value && a.startDate.value <= a.endDate.value
  {
  }

  /** The fields of a gig update request; otherKeys records whether it names
      any other key (description, or one the serializer does not know). */
  datatype GigUpdate = GigUpdate(
    text: GigText, remuneration: Option<int>, clientFee: Option<int>, totalHours: Option<int>,
    startDate: Option<int>, endDate: Option<int>, notes: Option<string>, otherKeys: bool)

  /** GigUpdateSerializer.validate_total_hours. */
  function ValidateTotalHours(value: int, instance: GigRow): (e: Option<Invalid>)
    ensures e.None? <==> value >= HoursCompleted(instance)
  {
    if value < HoursCompleted(instance) then Some(TotalBelowCompleted(value, HoursCompleted(instance))) else None
  }

  /** The errors of total_hours: the column's checks, then validate_total_hours. */
  function TotalHoursField(v: Option<int>, required: bool, instance: GigRow): (e: Option<Invalid>)
    ensures e.None? <==> (DecimalField(v, required, 50, "0.50", 1000000, 6).None?
      && (v.Some? ==> v.value >= HoursCompleted(instance)))
  {
    var own := DecimalField(v, required, 50, "0.50", 1000000, 6);
    if own.Some? || v.None? then own else ValidateTotalHours(v.value, instance)
  }

  /** serializer.errors of GigUpdateSerializer on the given instance, in
      field order; on a full write the required fields must all be given. */
  function UpdateGigErrors(u: GigUpdate, instance: GigRow, partial: bool): (errs: seq<FieldErrors>)
    ensures errs == [] <==>
      && TextAccepted(u.text, !partial)
      && (!partial ==> u.remuneration.Some? && u.clientFee.Some? && u.totalHours.Some?
                       && u.startDate.Some? && u.endDate.Some?)
      && (u.remuneration.Some? ==> 0 <= u.remuneration.value < 10000000000)
      && (u.clientFee.Some? ==> 0 <= u.clientFee.value < 10000000000)
      && (u.totalHours.Some? ==> 50 <= u.totalHours.value < 1000000 && u.totalHours.value >= HoursCompleted(instance))
  {
    var t := u.text;
    var e0 := CharField(t.title, !partial, false, 200);
    var e1 := CharField(t.subject, !partial, false, 100);
    var e2 := ChoiceField(t.level, !partial, LevelChoices);
    var e3 := DecimalField(u.remuneration, !partial, 0, "0.00", 10000000000, 10);
    var e4 := DecimalField(u.clientFee, !partial, 0, "0.00", 10000000000, 10);
    var e5 := TotalHoursField(u.totalHours, !partial, instance);
    var e6 := ChoiceField(t.priority, false, PriorityChoices);
    var e7 := CharField(t.clientName, !partial, false, 100);
    var e8 := EmailField(t.clientEmail, !partial, t.emailOk);
    var e9 := CharField(t.clientPhone, false, true, 17);
    var e10 := PresentField(u.startDate, !partial);
    var e11 := PresentField(u.endDate, !partial);
    Entry("title", e0)
    + Entry("subject_name", e1)
    + Entry("level", e2)
    + Entry("total_tutor_remuneration", e3)
    + Entry("total_client_fee", e4)
    + Entry("total_hours", e5)
    + Entry("priority", e6)
    + Entry("client_name", e7)
    + Entry("client_email", e8)
    + Entry("client_phone", e9)
    + Entry("start_date", e10)
    + Entry("end_date", e11)
  }

  // --------------------------------------------------------- assignment

  /** GigAssignmentSerializer.validate_tutor_id, given the tutor the id
      names (None when there is none). */
  function ValidateAssignee(found: Option<TutorModels.TutorRow>): (e: Option<Invalid>)
    ensures e.None? <==> found.Some? && found.value.isActive && !found.value.isBlocked
  {
    match found
    case None => Some(TutorNotFound)
    case Some(t) =>
      if !t.isActive then Some(TutorInactive)
      else if t.isBlocked then Some(TutorBlocked)
      else None
  }

  /** block() always clears is_active and activation is refused while blocked,
      so for a tutor whose flags agree the "blocked" refusal never fires: the
      "inactive" one comes first. */
  lemma BlockedRefusalShadowed(t: TutorModels.TutorRow)
    requires t.isBlocked ==> !t.isActive
    ensures ValidateAssignee(Some(t)) != Some(TutorBlocked)
  {
  }

  /** GigHoursAdjustmentSerializer: hours_to_subtract is required, has at most
      six digits, is at least 0.25 and at most the gig's remaining hours. */
  function ValidateAdjustment(h: Option<int>, gig: GigRow): (e: Option<Invalid>)
    ensures e.None? <==> h.Some? && 25 <= h.value <= gig.remaining && h.value < 1000000
  {
    var own := DecimalField(h, true, 25, "0.25", 1000000, 6);
    if own.Some? then own
    else if h.value > gig.remaining then Some(CannotSubtract(h.value, gig.remaining))
    else None
  }

  /** SessionVerificationSerializer.validate, given the session in context. */
  function ValidateVerification(s: Option<Session>, gig: GigRow, verified: bool): (e: Option<Invalid>)
    ensures e.None? <==> s.Some? && gig.status == Active && (verified ==> s.value.hours <= gig.remaining)
  {
    if s.None? then Some(NoSessionInContext)
    else if gig.status != Active then Some(VerifyGigNotActive)
    else if verified && s.value.hours > gig.remaining then Some(VerifyOverRemaining(s.value.hours, gig.remaining))
    else None
  }

  /** A verification the serializer accepts never drives the remaining hours
      below zero, and on a consistent gig the gig's save then succeeds. */
  lemma AcceptedVerificationSaves(r: GigRow, ss: seq<Session>, i: nat, admin: nat, c: Clock)
    requires i < |ss| && !ss[i].verified && Consistent(r) && ss[i].hours >= 0
    requires SessionClean(ss[i]).None?
    requires ValidateVerification(Some(ss[i]), r, true).None?
    ensures Verify(r, ss, i, admin, c).1.err.None?
    ensures Verify(r, ss, i, admin, c).1.row.remaining == r.remaining - ss[i].hours >= 0
  {
  }
}
