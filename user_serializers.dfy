/** The login check and the field validators of the user serializers
    (users/serializers.py).  The users table is a map from stored e-mail
    address to row; whether Django's authenticate() accepts the password is
    a parameter. */
module UserSerializers {
  import opened Wrappers
  import opened Text
  import opened UserModels

  // ------------------------------------------------------------ login

  /** The ValidationErrors LoginSerializer.validate raises, by code. */
  datatype LoginError =
    | RequiredFields
    | InvalidCredentials
    | AccountLocked(until: int)
    | AccountRestricted(message: string)

  /** The outcome of validate(): the user it signs in (by address), the error
      it raises, or the Django ValidationError that clean() raises inside
      record_failed_login.  The framework's run_validation catches the
      latter as it catches its own, so the client gets a 400 with the
      message under non_field_errors and no failure is counted. */
  datatype LoginResult = SignedIn(email: string) | Refused(error: LoginError) | SaveRefused(err: UserError)

  /** The result and the users table afterwards. */
  datatype Login = Login(result: LoginResult, users: map<string, UserRow>)

  /** A value Python treats as false: missing or empty. */
  predicate Falsy(s: Option<string>) {
    s.None? || s.value == []
  }

  /** The reasons the account_restricted message lists, in its order. */
  function RestrictionReasons(r: UserRow): (reasons: seq<string>)
    ensures reasons == [] <==> r.isActive && r.isVerified && r.isApproved
    ensures |reasons| <= 3
  {
    (if !r.isActive then ["Account is inactive."] else [])
    + (if !r.isVerified then ["Email address is not verified."] else [])
    + (if !r.isApproved then ["Account is pending approval."] else [])
  }

  /** LoginSerializer.validate. */
  function LoginDecision(email: Option<string>, password: Option<string>, users: map<string, UserRow>,
                         passwordOk: bool, ip: Option<string>, now: int): (l: Login)
    ensures Falsy(email) || Falsy(password) ==> l == Login(Refused(RequiredFields), users)
    ensures l.result.SignedIn? <==> (!Falsy(email) && !Falsy(password) && NormalEmail(email.value) in users
      && CanLogin(users[NormalEmail(email.value)], now) && passwordOk)
    ensures l.result.SignedIn? ==> l.result.email == NormalEmail(email.value)
    ensures l.users.Keys == users.Keys
    ensures forall k :: k in users && (Falsy(email) || k != NormalEmail(email.value)) ==> l.users[k] == users[k]
  {
    if Falsy(email) || Falsy(password) then Login(Refused(RequiredFields), users)
    else
      var key := NormalEmail(email.value);
      if key !in users then Login(Refused(InvalidCredentials), users)
      else
        var u := users[key];
        if IsAccountLocked(u.lockedUntil, now) then Login(Refused(AccountLocked(u.lockedUntil.value)), users)
        else if !CanLogin(u, now) then Login(Refused(AccountRestricted(Join(" ", RestrictionReasons(u)))), users)
        else if !passwordOk then
          var s := FailedLogin(u, ip, now);
          if s.err.Some? then Login(SaveRefused(s.err.value), users)
          else Login(Refused(InvalidCredentials), users[key := s.row])
        else Login(SignedIn(key), users)
  }

  /** The errors of LoginSerializer's two fields, as (field, message) in field
      order, before validate() runs: both are required and may not be blank
      once trimmed, and wellFormed is Django's EmailValidator's verdict on the
      trimmed address. */
  function LoginFieldErrors(email: Option<string>, password: Option<string>, wellFormed: bool)
    : (errs: seq<(string, string)>)
    ensures errs == [] <==> (email.Some? && Strip(email.value) != [] && wellFormed
      && password.Some? && Strip(password.value) != [])
    ensures email.Some? && Strip(email.value) != [] && !wellFormed ==>
      errs[0] == ("email", "Enter a valid email address.")
  {
    var e := if email.None? then [("email", "This field is required.")]
      else if Strip(email.value) == [] then [("email", BlankMessage)]
      else if !wellFormed then [("email", "Enter a valid email address.")]
      else [];
    var p := if password.None? then [("password", "This field is required.")]
      else if Strip(password.value) == [] then [("password", BlankMessage)]
      else [];
    e + p
  }

  /** What a login request comes to: the field errors, or validate()'s
      outcome. */
  datatype LoginReply = Invalid(errors: seq<(string, string)>) | Validated(login: Login)

  /** A login request end to end: the field errors, or validate() on the
      trimmed values.  Every outcome but a sign-in reaches the client as a
      400, a SaveRefused one included. */
  function LoginRequest(email: Option<string>, password: Option<string>, wellFormed: bool,
                        users: map<string, UserRow>, passwordOk: bool, ip: Option<string>, now: int)
    : (res: LoginReply)
    ensures res.Invalid? <==> LoginFieldErrors(email, password, wellFormed) != []
    ensures res.Invalid? ==> res.errors == LoginFieldErrors(email, password, wellFormed)
    ensures res.Validated? ==>
      res.login == LoginDecision(Some(Strip(email.value)), Some(Strip(password.value)), users, passwordOk, ip, now)
    ensures res.Validated? ==> res.login.result != Refused(RequiredFields)
  {
    var errs := LoginFieldErrors(email, password, wellFormed);
    if errs != [] then Invalid(errs)
    else Validated(LoginDecision(Some(Strip(email.value)), Some(Strip(password.value)), users, passwordOk, ip, now))
  }

  /** A lock is reported before the password is looked at, and a locked
      attempt is not counted as a failure. */
  lemma LockedBeforePassword(email: string, password: string, users: map<string, UserRow>,
                             passwordOk: bool, ip: Option<string>, now: int)
    requires email != [] && password != [] && NormalEmail(email) in users
    requires IsAccountLocked(users[NormalEmail(email)].lockedUntil, now)
    ensures LoginDecision(Some(email), Some(password), users, passwordOk, ip, now)
      == Login(Refused(AccountLocked(users[NormalEmail(email)].lockedUntil.value)), users)
  {
  }

  /** An unknown address and a wrong password on an open account get the same
      answer; only the second is counted against the account. */
  lemma UnknownAddressLooksLikeWrongPassword(email: string, password: string, users: map<string, UserRow>,
                                             ip: Option<string>, now: int)
    requires email != [] && password != []
    ensures NormalEmail(email) !in users ==>
      LoginDecision(Some(email), Some(password), users, false, ip, now) == Login(Refused(InvalidCredentials), users)
    ensures (NormalEmail(email) in users && CanLogin(users[NormalEmail(email)], now)
      && UserClean(users[NormalEmail(email)]).None?) ==>
      var l := LoginDecision(Some(email), Some(password), users, false, ip, now);
      l.result == Refused(InvalidCredentials)
      && l.users[NormalEmail(email)].failedAttempts == users[NormalEmail(email)].failedAttempts + 1
  {
  }

  /** The fifth wrong password locks the account: for the next thirty
      minutes even the right password is refused with account_locked. */
  lemma FifthFailureLocksOut(email: string, password: string, users: map<string, UserRow>,
                             ip: Option<string>, now: int, later: int)
    requires email != [] && password != [] && NormalEmail(email) in users
    requires var u := users[NormalEmail(email)];
      CanLogin(u, now) && UserClean(u).None? && u.failedAttempts == LockAfterFailures - 1
    requires now <= later < now + LockSeconds
    ensures var l := LoginDecision(Some(email), Some(password), users, false, ip, now);
      LoginDecision(Some(email), Some(password), l.users, true, ip, later)
        == Login(Refused(AccountLocked(now + LockSeconds)), l.users)
  {
  }

  /** The restriction message names the missing flags in the order inactive,
      unverified, pending approval. */
  lemma RestrictedMessageOrder(email: string, password: string, users: map<string, UserRow>,
                               passwordOk: bool, ip: Option<string>, now: int)
    requires email != [] && password != [] && NormalEmail(email) in users
    requires var u := users[NormalEmail(email)];
      !IsAccountLocked(u.lockedUntil, now) && !u.isActive && u.isVerified && !u.isApproved
    ensures LoginDecision(Some(email), Some(password), users, passwordOk, ip, now).result
      == Refused(AccountRestricted("Account is inactive." + " " + "Account is pending approval."))
  {
    var u := users[NormalEmail(email)];
    var reasons := ["Account is inactive.", "Account is pending approval."];
    assert RestrictionReasons(u) == reasons;
    assert Join(" ", reasons) == reasons[0] + " " + Join(" ", reasons[1..]);
    assert reasons[1..] == ["Account is pending approval."];
    assert Join(" ", reasons[1..]) == "Account is pending approval.";
    assert !CanLogin(u, now);
  }

  /** get_client_ip: the first entry of X-Forwarded-For when it is set,
      otherwise REMOTE_ADDR. */
  function ClientIp(forwardedFor: Option<string>, remoteAddr: Option<string>): (ip: Option<string>)
    ensures !Falsy(forwardedFor) ==> ip.Some? && ',' !in ip.value
    ensures Falsy(forwardedFor) ==> ip == remoteAddr
  {
    if Falsy(forwardedFor) then remoteAddr else Some(Split(forwardedFor.value, ',')[0])
  }

  /** Behind a chain of proxies the client is the first address listed. */
  lemma ClientIpIsFirstHop(client: string, proxies: seq<string>, remoteAddr: Option<string>)
    requires client != [] && ',' !in client
    requires forall k :: 0 <= k < |proxies| ==> ',' !in proxies[k]
    ensures ClientIp(Some(Join(",", [client] + proxies)), remoteAddr) == Some(client)
  {
    var hops := [client] + proxies;
    assert forall k :: 0 <= k < |hops| ==> ',' !in hops[k];
    SplitJoin(hops, ',');
    assert |Join(",", hops)| >= |client| by {
      if |hops| > 1 {
        assert Join(",", hops) == client + "," + Join(",", hops[1..]);
      }
    }
  }

  /** The users table as rows. */
  function RowsOf(directory: map<string, User>): (rows: map<string, UserRow>)
    reads directory.Values
    ensures rows.Keys == directory.Keys && forall k :: k in directory ==> rows[k] == directory[k].Row()
  {
    map k | k in directory :: directory[k].Row()
  }

  /** validate() on the users table, recording the failed attempt on the
      user object when the password is wrong. */
  method Validate(email: Option<string>, password: Option<string>, directory: map<string, User>,
                  passwordOk: bool, ip: Option<string>, now: int) returns (result: LoginResult)
    requires forall j, k :: j in directory && k in directory && j != k ==> directory[j] != directory[k]
    modifies directory.Values
    ensures LoginDecision(email, password, old(RowsOf(directory)), passwordOk, ip, now) == Login(result, RowsOf(directory))
  {
    ghost var rows := RowsOf(directory);
    if Falsy(email) || Falsy(password) {
      return Refused(RequiredFields);
    }
    var key := NormalEmail(email.value);
    if key !in directory {
      return Refused(InvalidCredentials);
    }
    var u := directory[key];
    if IsAccountLocked(u.lockedUntil, now) {
      return Refused(AccountLocked(u.lockedUntil.value));
    }
    if !CanLogin(u.Row(), now) {
      return Refused(AccountRestricted(Join(" ", RestrictionReasons(u.Row()))));
    }
    if !passwordOk {
      var err := u.RecordFailedLogin(ip, now);
      assert forall k :: k in directory && k != key ==> directory[k] != u;
      if err.Some? {
        return SaveRefused(err.value);
      }
      assert RowsOf(directory) == rows[key := u.Row()];
      return Refused(InvalidCredentials);
    }
    return SignedIn(key);
  }

  // ------------------------------------------------------- user fields

  /** UserSerializer.validate_email: the user's own address is accepted as
      it is, any other stored one is refused.  The value is not normalised
      here; save() does that. */
  function ValidateUserEmail(value: string, instance: Option<string>, emails: set<string>): (c: Checked<string>)
    ensures c.Pass? ==> c.value == value
    ensures c.Raised? <==> value in emails && instance != Some(value)
  {
    if instance == Some(value) then Pass(value)
    else if value in emails then Raised("This email address is already in use.")
    else Pass(value)
  }

  /** validate_session_timeout: 0 to 43200 minutes (30 days). */
  function ValidateSessionTimeout(minutes: int): (c: Checked<int>)
    ensures c.Pass? <==> 0 <= minutes <= 43200
    ensures c.Pass? ==> c.value == minutes
    ensures minutes < 0 ==> c == Raised("Session timeout cannot be negative.")
    ensures minutes > 43200 ==> c == Raised("Session timeout cannot exceed 30 days.")
  {
    if minutes < 0 then Raised("Session timeout cannot be negative.")
    else if minutes > 43200 then Raised("Session timeout cannot exceed 30 days.")
    else Pass(minutes)
  }

  /** session_timeout with the field the framework builds from the
      PositiveIntegerField: a negative value is refused before
      validate_session_timeout sees it, so the method's own message for it
      is never given. */
  function SessionTimeoutField(minutes: int): (c: Checked<int>)
    ensures c.Pass? <==> 0 <= minutes <= 43200
    ensures minutes < 0 ==> c == Raised(BelowZeroMessage)
    ensures c != Raised("Session timeout cannot be negative.")
  {
    if minutes < 0 then Raised(BelowZeroMessage) else ValidateSessionTimeout(minutes)
  }

  // ----------------------------------------------------- public profile

  /** What UserBasicSerializer reads from a user. */
  datatype Profile = Profile(
    id: string, username: string, fullName: string, picture: string, userType: string,
    email: string, phone: string, showEmail: bool, showPhone: bool)

  /** UserBasicSerializer.to_representation: the five public fields, and the
      e-mail address and phone number only where the user shows them. */
  function BasicRepresentation(p: Profile): (data: map<string, string>)
    ensures data.Keys == {"id", "username", "full_name", "profile_picture", "user_type"}
      + (if p.showEmail then {"email"} else {}) + (if p.showPhone then {"phone_number"} else {})
    ensures "email" in data <==> p.showEmail
    ensures "phone_number" in data <==> p.showPhone
    ensures p.showEmail ==> data["email"] == p.email
    ensures p.showPhone ==> data["phone_number"] == p.phone
    ensures data["username"] == p.username
  {
    var data := map["id" := p.id, "username" := p.username, "full_name" := p.fullName,
                    "profile_picture" := p.picture, "user_type" := p.userType];
    var data := if p.showEmail then data["email" := p.email] else data;
    if p.showPhone then data["phone_number" := p.phone] else data
  }
}
