/** The field validators of the tutor serializers and the username generator
    of tutor creation (tutors/serializers.py).  The rows the validators query
    are passed in as the sets of e-mail addresses, phone numbers and
    usernames already stored. */
module TutorSerializers {
  import opened Wrappers
  import opened Text
  import UserModels
  import opened TutorModels

  // ------------------------------------------------------- e-mail, phone

  /** validate_email_address of TutorSerializer and TutorUpdateSerializer:
      the address is lower-cased and stripped; the instance's own address is
      accepted, any other stored one is refused. */
  function ValidateEmail(value: string, instance: Option<string>, tutorEmails: set<string>): (c: Checked<string>)
    ensures c.Pass? ==> c.value == UserModels.NormalEmail(value)
    ensures c.Raised? <==> UserModels.NormalEmail(value) in tutorEmails && instance != Some(UserModels.NormalEmail(value))
  {
    var v := UserModels.NormalEmail(value);
    if instance == Some(v) then Pass(v)
    else if v in tutorEmails then Raised("A tutor with this email address already exists.")
    else Pass(v)
  }

  /** validate_email_address of CreateTutorSerializer: the address must be new
      to both the tutors and the users, the tutors being asked first. */
  function ValidateNewEmail(value: string, tutorEmails: set<string>, userEmails: set<string>): (c: Checked<string>)
    ensures c.Pass? <==> UserModels.NormalEmail(value) !in tutorEmails && UserModels.NormalEmail(value) !in userEmails
    ensures c.Pass? ==> c.value == UserModels.NormalEmail(value)
  {
    var v := UserModels.NormalEmail(value);
    if v in tutorEmails then Raised("A tutor with this email address already exists.")
    else if v in userEmails then Raised("A user with this email address already exists.")
    else Pass(v)
  }

  /** An address that passes either validator is in normal form: validating
      what was accepted accepts the same address again, for the tutor that
      now has it. */
  lemma AcceptedEmailIsStable(value: string, instance: Option<string>, tutorEmails: set<string>)
    requires ValidateEmail(value, instance, tutorEmails).Pass?
    ensures var v := ValidateEmail(value, instance, tutorEmails).value;
      ValidateEmail(v, Some(v), tutorEmails + {v}) == Pass(v)
  {
    LowerStripIdempotent(value);
  }

  /** Changing only the case of the stored address is not a change: it is
      accepted although the stored address is taken. */
  lemma OwnAddressInOtherCase()
    ensures ValidateEmail("Ann@X.org", Some("ann@x.org"), {"ann@x.org"}) == Pass("ann@x.org")
  {
    var l := Lower("Ann@X.org");
    assert l == "ann@x.org";
    StripUnpadded(l);
  }

  /** validate_phone_number of TutorSerializer and TutorUpdateSerializer. */
  function ValidatePhone(value: string, instance: Option<string>, tutorPhones: set<string>): (c: Checked<string>)
    ensures c.Pass? ==> c.value == value
    ensures c.Raised? <==> value in tutorPhones && instance != Some(value)
  {
    if instance == Some(value) then Pass(value)
    else if value in tutorPhones then Raised("A tutor with this phone number already exists.")
    else Pass(value)
  }

  /** validate_phone_number of CreateTutorSerializer: an empty number is not
      looked up. */
  function ValidateNewPhone(value: string, tutorPhones: set<string>): (c: Checked<string>)
    ensures c.Raised? <==> value != [] && value in tutorPhones
    ensures c.Pass? ==> c.value == value
  {
    if value != [] && value in tutorPhones then Raised("A tutor with this phone number already exists.")
    else Pass(value)
  }

  /** The creation check is the update check for a tutor without a stored
      number, except that it lets an empty number through. */
  lemma NewPhoneIsUpdateWithoutInstance(value: string, tutorPhones: set<string>)
    ensures value != [] ==> ValidateNewPhone(value, tutorPhones) == ValidatePhone(value, None, tutorPhones)
    ensures "" in tutorPhones ==> ValidateNewPhone("", tutorPhones).Pass? && ValidatePhone("", None, tutorPhones).Raised?
  {
  }

  /** phone_number of CreateTutorSerializer, a plain optional
      CharField(max_length=17): an absent number passes untouched; a sent one
      is stripped, must not be blank and then goes to validate_phone_number. */
  function CreatePhoneField(phone: Option<string>, tutorPhones: set<string>): (c: Checked<Option<string>>)
    ensures c.Pass? <==> (phone.None?
      || (Strip(phone.value) != [] && |Strip(phone.value)| <= 17 && Strip(phone.value) !in tutorPhones))
    ensures c.Pass? ==> c.value == if phone.None? then None else Some(Strip(phone.value))
  {
    if phone.None? then Pass(None)
    else
      var v := Strip(phone.value);
      if v == [] then Raised(BlankMessage)
      else if |v| > 17 then Raised("Ensure this field has no more than 17 characters.")
      else match ValidateNewPhone(v, tutorPhones)
        case Pass(w) => Pass(Some(w))
        case Raised(m) => Raised(m)
  }

  /** email_address of TutorSerializer and TutorUpdateSerializer with the
      field the framework builds from the model's unique EmailField: the
      value is stripped and must not be blank, emailOk is Django's
      EmailValidator's verdict on it, and a UniqueValidator that leaves out
      the instance's own row runs before validate_email_address. */
  function EmailAddressField(raw: string, instance: Option<string>, tutorEmails: set<string>, emailOk: bool)
    : (c: Checked<string>)
    ensures c.Pass? <==> (Strip(raw) != [] && |Strip(raw)| <= 254 && emailOk
      && !(Strip(raw) in tutorEmails && instance != Some(Strip(raw)))
      && ValidateEmail(Strip(raw), instance, tutorEmails).Pass?)
    ensures c.Pass? ==> c.value == UserModels.NormalEmail(Strip(raw))
  {
    var v := Strip(raw);
    if v == [] then Raised(BlankMessage)
    else if !emailOk then Raised("Enter a valid email address.")
    else if |v| > 254 then Raised("Ensure this field has no more than 254 characters.")
    else if v in tutorEmails && instance != Some(v) then Raised("Tutor with this email address already exists.")
    else ValidateEmail(v, instance, tutorEmails)
  }

  /** Behind the UniqueValidator, validate_email_address refuses only an
      address whose normal form differs from it and belongs to a stored
      tutor: one that differs from a stored address in case or surrounding
      space. */
  lemma OwnEmailCheckSeesOnlyVariants(raw: string, instance: Option<string>, tutorEmails: set<string>, emailOk: bool)
    requires EmailAddressField(raw, instance, tutorEmails, emailOk) == Raised("A tutor with this email address already exists.")
    ensures UserModels.NormalEmail(Strip(raw)) != Strip(raw) && UserModels.NormalEmail(Strip(raw)) in tutorEmails
  {
  }

  /** phone_number of TutorSerializer and TutorUpdateSerializer with the field
      the framework builds from the model's unique CharField(max_length=17):
      the value is stripped and must not be blank, formatOk is the verdict of
      the model's phone RegexValidator, and a UniqueValidator that leaves out
      the instance's own row runs before validate_phone_number. */
  function PhoneNumberField(raw: string, instance: Option<string>, tutorPhones: set<string>, formatOk: bool)
    : (c: Checked<string>)
    ensures c.Pass? <==> (Strip(raw) != [] && formatOk && |Strip(raw)| <= 17
      && !(Strip(raw) in tutorPhones && instance != Some(Strip(raw))))
    ensures c.Pass? ==> c.value == Strip(raw)
  {
    var v := Strip(raw);
    if v == [] then Raised(BlankMessage)
    else if !formatOk then Raised("Phone number must be entered in the format: '+999999999'. Up to 15 digits allowed.")
    else if |v| > 17 then Raised("Ensure this field has no more than 17 characters.")
    else if v in tutorPhones && instance != Some(v) then Raised("Tutor with this phone number already exists.")
    else ValidatePhone(v, instance, tutorPhones)
  }

  /** validate_phone_number repeats the UniqueValidator's test exactly, so its
      own message is never given. */
  lemma OwnPhoneCheckUnreachable(raw: string, instance: Option<string>, tutorPhones: set<string>, formatOk: bool)
    ensures PhoneNumberField(raw, instance, tutorPhones, formatOk) != Raised("A tutor with this phone number already exists.")
  {
  }

  // ------------------------------------------------------ profile values

  /** validate_hourly_rate, the rate in hundredths: none, or at least 5.00. */
  function ValidateHourlyRate(rate: Option<int>): (c: Checked<Option<int>>)
    ensures c.Pass? <==> rate.None? || rate.value >= 500
    ensures c.Pass? ==> c.value == rate
  {
    if rate.Some? && rate.value < 500 then Raised("Hourly rate must be at least $5.00.") else Pass(rate)
  }

  /** validate_years_of_experience: 0 to 50, the lower bound checked first. */
  function ValidateYears(years: int): (c: Checked<int>)
    ensures c.Pass? <==> 0 <= years <= 50
    ensures c.Pass? ==> c.value == years
    ensures years < 0 ==> c == Raised("Years of experience cannot be negative.")
  {
    if years < 0 then Raised("Years of experience cannot be negative.")
    else if years > 50 then Raised("Years of experience seems unrealistic (max 50 years).")
    else Pass(years)
  }

  /** years_of_experience with the field the framework builds from the
      PositiveIntegerField: a negative value is refused before
      validate_years_of_experience sees it, so the method's own message for
      it is never given. */
  function YearsField(years: int): (c: Checked<int>)
    ensures c.Pass? <==> 0 <= years <= 50
    ensures years < 0 ==> c == Raised(BelowZeroMessage)
    ensures c != Raised("Years of experience cannot be negative.")
  {
    if years < 0 then Raised(BelowZeroMessage) else ValidateYears(years)
  }

  // ------------------------------------------------------------ username

  /** A name of the form base + str(k), with k read back from its digits. */
  predicate NumberedBefore(name: string, base: string, bound: nat) {
    |name| > |base| && name[..|base|] == base && AllDigits(name[|base|..]) && DigitsValue(name[|base|..]) < bound
  }

  /** generate_username for a base name: the base itself when no user has it,
      otherwise base + str(k) for the smallest k >= 1 no user has. */
  method GenerateUsername(base: string, taken: set<string>) returns (username: string)
    ensures username !in taken
    ensures base !in taken ==> username == base
    ensures base in taken ==> exists k :: (k >= 1 && username == base + Decimal(k)
      && forall j :: 1 <= j < k ==> base + Decimal(j) in taken)
  {
    if base !in taken {
      return base;
    }
    var counter := 1;
    ghost var tried: set<string> := {};
    username := base + Decimal(counter);
    while username in taken
      invariant counter >= 1 && username == base + Decimal(counter)
      invariant tried <= taken && |tried| == counter - 1
      invariant forall s :: s in tried ==> NumberedBefore(s, base, counter)
      invariant forall j :: 1 <= j < counter ==> base + Decimal(j) in taken
      decreases |taken| - |tried|
    {
      assert username !in tried by {
        assert username[..|base|] == base && username[|base|..] == Decimal(counter);
        DecimalValue(counter);
      }
      SubsetSize(tried + {username}, taken);
      tried := tried + {username};
      forall s | s in tried
        ensures NumberedBefore(s, base, counter + 1)
      {
        if s == username {
          assert s[|base|..] == Decimal(counter);
          DecimalValue(counter);
        }
      }
      counter := counter + 1;
      username := base + Decimal(counter);
    }
  }

  /** The unique columns of the tutors table. */
  datatype UniqueColumn = EmailColumn | PhoneColumn

  /** What create() builds: the tutor, its user account and the username;
      or the ValidationError of Tutor.clean; or the IntegrityError of an
      INSERT that repeats a unique column.  Each failure rolls the
      transaction back, and tutors_list_create answers it with a 500. */
  datatype Created =
    | Created(tutor: TutorRow, user: UserModels.UserRow, username: string)
    | CreateFailed(err: TutorError)
    | DuplicateRow(column: UniqueColumn)

  /** The phone number create() stores: the placeholder when none was given. */
  function PhoneOr(phone: Option<string>): string {
    phone.GetOr("+1234567890")
  }

  /** The tutor row create() inserts repeats a stored e-mail address (the
      column holds it normalised) or a stored phone number. */
  predicate Collides(email: string, phone: Option<string>, tutorEmails: set<string>, tutorPhones: set<string>) {
    UserModels.NormalEmail(email) in tutorEmails || PhoneOr(phone) in tutorPhones
  }

  /** CreateTutorSerializer.create for validated data: a username is chosen
      first, then the tutor is saved (clean() may refuse it, and the INSERT
      fails on a repeated unique column), then an active tutor account that
      is neither verified nor approved.  The base username is taken as
      given; tutorEmails and tutorPhones are the stored tutors' columns. */
  method CreateTutorAccount(firstName: string, lastName: string, email: string, phone: Option<string>,
                            base: string, takenUsernames: set<string>,
                            tutorEmails: set<string>, tutorPhones: set<string>) returns (r: Created)
    ensures r.CreateFailed? <==> email == [] || PhoneOr(phone) == []
    ensures r.DuplicateRow? <==> email != [] && PhoneOr(phone) != [] && Collides(email, phone, tutorEmails, tutorPhones)
    ensures r.DuplicateRow? ==> (r.column == EmailColumn <==> UserModels.NormalEmail(email) in tutorEmails)
    ensures r.Created? ==> r.tutor == Normalised(TutorRow(firstName, lastName, PhoneOr(phone), email, true, false))
    ensures r.Created? ==> r.username !in takenUsernames
    ensures r.Created? ==> r.user.userType == UserModels.TutorUser && r.user.email == UserModels.NormalEmail(email)
    ensures r.Created? ==> r.user.isActive && !r.user.isStaff && !r.user.isSuperuser
    ensures r.Created? ==> forall now :: !UserModels.CanLogin(r.user, now)
  {
    var username := GenerateUsername(base, takenUsernames);
    var cand := TutorRow(firstName, lastName, PhoneOr(phone), email, true, false);
    var t := SaveTutor(cand, cand);
    if t.err.Some? {
      return CreateFailed(t.err.value);
    }
    if t.row.email in tutorEmails {
      return DuplicateRow(EmailColumn);
    }
    if t.row.phone in tutorPhones {
      return DuplicateRow(PhoneColumn);
    }
    var account := UserModels.UserRow(UserModels.TutorUser, email, true, false, false, false, false, None, 0, None);
    var u := UserModels.SaveAll(account, account);
    assert u.err.None?;
    r := Created(t.row, u.row, username);
  }

  /** The placeholder number is stored for the first tutor created without
      one, and the serializer never checks it, so creating a second such
      tutor fails on the unique phone column. */
  method SecondPhonelessCreateFails() returns (first: Created, second: Created)
    ensures first.Created? && first.tutor.phone == "+1234567890"
    ensures CreatePhoneField(None, {first.tutor.phone}).Pass?
    ensures second == DuplicateRow(PhoneColumn)
  {
    first := CreateTutorAccount("Ann", "Lee", "ann@x.org", None, "ann.lee", {}, {}, {});
    assert UserModels.NormalEmail("bo@x.org") != UserModels.NormalEmail("ann@x.org") by {
      assert Lower("bo@x.org")[0] == 'b' && Lower("ann@x.org")[0] == 'a';
      StripUnpadded(Lower("bo@x.org"));
      StripUnpadded(Lower("ann@x.org"));
    }
    second := CreateTutorAccount("Bo", "Ng", "bo@x.org", None, "bo.ng", {first.username},
                                 {first.tutor.email}, {first.tutor.phone});
  }

  /** The creation check as evidently intended: the number create() will
      store is checked whether it was sent or defaulted, so a taken
      placeholder is refused with the serializer's error. */
  function CreatePhoneFieldIntended(phone: Option<string>, tutorPhones: set<string>): (c: Checked<Option<string>>)
    ensures c.Pass? <==> CreatePhoneField(phone, tutorPhones).Pass? && (phone.None? ==> PhoneOr(None) !in tutorPhones)
    ensures c.Pass? ==> c.value == CreatePhoneField(phone, tutorPhones).value
  {
    if phone.None? && PhoneOr(phone) in tutorPhones then Raised("A tutor with this phone number already exists.")
    else CreatePhoneField(phone, tutorPhones)
  }

  /** With the intended check, validated data never repeats a unique column,
      so create() fails only where clean() refuses. */
  lemma IntendedCreateNeverCollides(email: string, phone: Option<string>, tutorEmails: set<string>,
                                    userEmails: set<string>, tutorPhones: set<string>)
    requires ValidateNewEmail(email, tutorEmails, userEmails).Pass?
    requires CreatePhoneFieldIntended(phone, tutorPhones).Pass?
    ensures !Collides(ValidateNewEmail(email, tutorEmails, userEmails).value,
                      CreatePhoneFieldIntended(phone, tutorPhones).value, tutorEmails, tutorPhones)
  {
    LowerStripIdempotent(email);
  }

  /** A subset has no more elements than the set holding it. */
  lemma {:induction false} SubsetSize<T>(a: set<T>, b: set<T>)
    requires a <= b
    ensures |a| <= |b|
    decreases |a|
  {
    if a != {} {
      var x :| x in a;
      SubsetSize(a - {x}, b - {x});
    }
  }
}
