/** The user account and its login lockout (users/models.py).

    A row of the users table is a value of UserRow; the class User holds one
    row as the application changes it.  Instants are integers counting
    seconds.  Every save() runs clean() first and a ValidationError it raises
    leaves the stored row as it was; the record_* helpers save with
    update_fields, so only the columns they name are written. */
module UserModels {
  import opened Wrappers
  import opened Text

  datatype UserType = AdminUser | ManagerUser | TutorUser | StaffUser

  /** Failures after which the account is locked, and the lock's length. */
  const LockAfterFailures: nat := 5
  const LockSeconds: nat := 30 * 60

  /** The ValidationErrors raised by User.clean. */
  datatype UserError = EmailRequired | AdminWithoutStaff

  datatype UserRow = UserRow(
    userType: UserType,
    email: string,
    isActive: bool,
    isStaff: bool,
    isSuperuser: bool,
    isVerified: bool,
    isApproved: bool,
    lastLoginIp: Option<string>,
    failedAttempts: nat,
    lockedUntil: Option<int>)

  /** The stored row after a save, and the error clean() raised, if any. */
  datatype UserSaved = UserSaved(row: UserRow, err: Option<UserError>)

  // ------------------------------------------------------------ the roles

  predicate IsTutor(t: UserType) { t == TutorUser }
  predicate IsAdmin(t: UserType) { t == AdminUser }
  predicate IsManager(t: UserType) { t == ManagerUser }

  /** The requesting user as the views see it: the role, the is_staff flag and
      the tutor record its tutor profile links to, if any. */
  datatype Principal = Principal(userType: UserType, isStaff: bool, linkedTutor: Option<nat>)

  /** The "is_admin or is_staff" test the views use for administrative actions. */
  predicate IsAdministrator(p: Principal) {
    IsAdmin(p.userType) || p.isStaff
  }

  // --------------------------------------------------- lockout and login

  /** is_account_locked: a lock is set and has not yet run out. */
  predicate IsAccountLocked(lockedUntil: Option<int>, now: int) {
    lockedUntil.Some? && now < lockedUntil.value
  }

  /** can_login. */
  predicate CanLogin(r: UserRow, now: int) {
    r.isActive && r.isApproved && r.isVerified && !IsAccountLocked(r.lockedUntil, now)
  }

  /** The e-mail address as clean() normalises it: lower-cased, then stripped. */
  function NormalEmail(e: string): string {
    Strip(Lower(e))
  }

  /** User.clean: an e-mail address is required and an admin must be staff. */
  function UserClean(r: UserRow): (e: Option<UserError>)
    ensures e.None? <==> r.email != [] && (r.userType == AdminUser ==> r.isStaff)
  {
    if r.email == [] then Some(EmailRequired)
    else if r.userType == AdminUser && !r.isStaff then Some(AdminWithoutStaff)
    else None
  }

  /** A full save() of candidate cand over the stored row prev: clean() must
      pass, then the normalised address is written and an admin is made staff
      and superuser. */
  function SaveAll(prev: UserRow, cand: UserRow): (s: UserSaved)
    ensures s.err.Some? ==> s.row == prev
    ensures s.err.None? ==> s.row.email == NormalEmail(cand.email)
    ensures s.err.None? && cand.userType == AdminUser ==> s.row.isStaff && s.row.isSuperuser
    ensures s.err.None? ==> s.row.(email := cand.email, isStaff := cand.isStaff, isSuperuser := cand.isSuperuser) == cand
  {
    match UserClean(cand)
    case Some(e) => UserSaved(prev, Some(e))
    case None =>
      var admin := cand.userType == AdminUser;
      UserSaved(cand.(email := NormalEmail(cand.email),
                      isStaff := if admin then true else cand.isStaff,
                      isSuperuser := if admin then true else cand.isSuperuser), None)
  }

  /** On a row a save has written, the views' "is_admin or is_staff" test is
      the is_staff flag alone, because clean() refuses an admin without it;
      without is_staff, only the admin role passes it. */
  lemma AdministratorExactlyStaff(prev: UserRow, cand: UserRow, linked: Option<nat>)
    requires SaveAll(prev, cand).err.None?
    ensures var r := SaveAll(prev, cand).row;
      IsAdministrator(Principal(r.userType, r.isStaff, linked)) <==> r.isStaff
    ensures IsAdministrator(Principal(cand.userType, false, linked)) <==> cand.userType == AdminUser
  {
  }

  /** clean() already refuses an admin without staff rights, so the promotion
      in save() never changes is_staff; it can only add is_superuser. */
  lemma AdminPromotionKeepsStaff(prev: UserRow, cand: UserRow)
    requires SaveAll(prev, cand).err.None?
    ensures SaveAll(prev, cand).row.isStaff == cand.isStaff
  {
  }

  /** A saved row passes clean() again, unless the address was nothing but
      blanks (clean() accepts "  ", then strips it to ""). */
  lemma SavedRowIsClean(prev: UserRow, cand: UserRow)
    requires SaveAll(prev, cand).err.None?
    ensures NormalEmail(cand.email) != [] <==> UserClean(SaveAll(prev, cand).row).None?
  {
  }

  /** A save with update_fields: clean() runs on the whole candidate, which
      differs from the stored row only in the given columns, so on success the
      stored row takes exactly those columns. */
  function SaveFields(prev: UserRow, changed: UserRow): (s: UserSaved)
    ensures s.err == UserClean(changed)
    ensures s.err.Some? ==> s.row == prev
    ensures s.err.None? ==> s.row == changed
  {
    match UserClean(changed)
    case Some(e) => UserSaved(prev, Some(e))
    case None => UserSaved(changed, None)
  }

  /** The address a truthy ip_address replaces; a missing or empty one keeps it. */
  function NewIp(stored: Option<string>, ip: Option<string>): Option<string> {
    if ip.Some? && ip.value != [] then ip else stored
  }

  /** record_failed_login. */
  function FailedLogin(r: UserRow, ip: Option<string>, now: int): (s: UserSaved)
    ensures s.err == UserClean(r)
    ensures s.err.Some? ==> s.row == r
    ensures s.err.None? ==> s.row.failedAttempts == r.failedAttempts + 1
    ensures s.err.None? && s.row.failedAttempts >= LockAfterFailures ==>
      forall t :: IsAccountLocked(s.row.lockedUntil, t) <==> t < now + LockSeconds
    ensures s.err.None? && s.row.failedAttempts < LockAfterFailures ==> s.row.lockedUntil == r.lockedUntil
    ensures s.err.None? ==> s.row == r.(failedAttempts := s.row.failedAttempts,
      lastLoginIp := NewIp(r.lastLoginIp, ip), lockedUntil := s.row.lockedUntil)
  {
    var n := r.failedAttempts + 1;
    SaveFields(r, r.(failedAttempts := n, lastLoginIp := NewIp(r.lastLoginIp, ip),
                     lockedUntil := if n >= LockAfterFailures then Some(now + LockSeconds) else r.lockedUntil))
  }

  /** record_successful_login. */
  function SuccessfulLogin(r: UserRow, ip: Option<string>): (s: UserSaved)
    ensures s.err == UserClean(r)
    ensures s.err.Some? ==> s.row == r
    ensures s.err.None? ==> s.row.failedAttempts == 0 && forall t :: !IsAccountLocked(s.row.lockedUntil, t)
    ensures s.err.None? ==> s.row == r.(failedAttempts := 0, lockedUntil := None, lastLoginIp := NewIp(r.lastLoginIp, ip))
  {
    SaveFields(r, r.(failedAttempts := 0, lockedUntil := None, lastLoginIp := NewIp(r.lastLoginIp, ip)))
  }

  /** unlock_account. */
  function Unlock(r: UserRow): (s: UserSaved)
    ensures s.err == UserClean(r)
    ensures s.err.Some? ==> s.row == r
    ensures s.err.None? ==> s.row.failedAttempts == 0 && forall t :: !IsAccountLocked(s.row.lockedUntil, t)
    ensures s.err.None? ==> s.row == r.(failedAttempts := 0, lockedUntil := None)
  {
    SaveFields(r, r.(failedAttempts := 0, lockedUntil := None))
  }

  /** verify_email. */
  function VerifyEmail(r: UserRow): (s: UserSaved)
    ensures s.err == UserClean(r)
    ensures s.err.None? ==> s.row == r.(isVerified := true)
    ensures s.err.Some? ==> s.row == r
  {
    SaveFields(r, r.(isVerified := true))
  }

  /** approve_user. */
  function ApproveUser(r: UserRow): (s: UserSaved)
    ensures s.err == UserClean(r)
    ensures s.err.None? ==> s.row == r.(isApproved := true)
    ensures s.err.Some? ==> s.row == r
  {
    SaveFields(r, r.(isApproved := true))
  }

  /** The row after a failed login at each instant of times, in order; the
      error of the first failing save, if any, stops the run. */
  function AfterFailures(r: UserRow, ip: Option<string>, times: seq<int>): UserRow
    decreases |times|
  {
    if times == [] then r
    else
      var s := FailedLogin(r, ip, times[0]);
      if s.err.Some? then r else AfterFailures(s.row, ip, times[1..])
  }

  /** Failed logins count up one by one, and once the count reaches five the
      account stays locked for thirty minutes from the latest failure. */
  lemma {:induction false} RepeatedFailuresLock(r: UserRow, ip: Option<string>, times: seq<int>)
    requires UserClean(r).None? && times != []
    ensures AfterFailures(r, ip, times).failedAttempts == r.failedAttempts + |times|
    ensures r.failedAttempts + |times| >= LockAfterFailures ==>
      AfterFailures(r, ip, times).lockedUntil == Some(times[|times| - 1] + LockSeconds)
    ensures r.failedAttempts + |times| < LockAfterFailures ==>
      AfterFailures(r, ip, times).lockedUntil == r.lockedUntil
    ensures UserClean(AfterFailures(r, ip, times)).None?
    ensures AfterFailures(r, ip, times).(failedAttempts := r.failedAttempts, lockedUntil := r.lockedUntil,
      lastLoginIp := r.lastLoginIp) == r
    decreases |times|
  {
    var s := FailedLogin(r, ip, times[0]);
    assert s.err.None?;
    if |times| > 1 {
      RepeatedFailuresLock(s.row, ip, times[1..]);
      assert times[1..][|times| - 2] == times[|times| - 1];
    }
  }

  /** Five failures in a row from a clean slate lock the account at the time
      of the fifth, so can_login is then false. */
  lemma FiveFailuresBlockLogin(r: UserRow, ip: Option<string>, times: seq<int>)
    requires UserClean(r).None? && r.failedAttempts == 0 && |times| == LockAfterFailures
    ensures !CanLogin(AfterFailures(r, ip, times), times[4])
    ensures CanLogin(r.(failedAttempts := 0, lockedUntil := None), times[4]) ==>
      CanLogin(AfterFailures(r, ip, times), times[4] + LockSeconds)
  {
    RepeatedFailuresLock(r, ip, times);
  }

  /** An unlocked account with the three flags set can log in at any time. */
  lemma UnlockRestoresLogin(r: UserRow, now: int)
    requires UserClean(r).None? && r.isActive && r.isApproved && r.isVerified
    ensures CanLogin(Unlock(r).row, now) && CanLogin(SuccessfulLogin(r, None).row, now)
  {
  }

  // --------------------------------------------------------- the profile

  /** TutorProfile.subjects_list: the comma-separated subjects, each stripped;
      an empty field has none. */
  function SubjectsList(field: string): (subjects: seq<string>)
    ensures field == [] ==> subjects == []
    ensures field != [] ==> |subjects| == |Split(field, ',')|
    ensures forall k :: 0 <= k < |subjects| ==>
      subjects[k] == Strip(Split(field, ',')[k]) && ',' !in subjects[k]
  {
    if field == [] then []
    else
      var parts := Split(field, ',');
      seq(|parts|, k requires 0 <= k < |parts| => Strip(parts[k]))
  }

  /** Subjects stored as their comma-joined list are read back unchanged. */
  lemma SubjectsRoundTrip(subjects: seq<string>)
    requires subjects != [] && subjects[0] != []
    requires forall k :: 0 <= k < |subjects| ==> ',' !in subjects[k] && Strip(subjects[k]) == subjects[k]
    ensures SubjectsList(Join(",", subjects)) == subjects
  {
    SplitJoin(subjects, ',');
    var field := Join(",", subjects);
    assert |field| >= |subjects[0]|;
  }

  // --------------------------------------------------------------- User

  /** A user account; the fields are the stored columns. */
  class User {
    var pk: nat
    var userType: UserType
    var email: string
    var isActive: bool
    var isStaff: bool
    var isSuperuser: bool
    var isVerified: bool
    var isApproved: bool
    var lastLoginIp: Option<string>
    var failedAttempts: nat
    var lockedUntil: Option<int>

    function Row(): UserRow
      reads this
    {
      UserRow(userType, email, isActive, isStaff, isSuperuser, isVerified, isApproved,
              lastLoginIp, failedAttempts, lockedUntil)
    }

    constructor Load(pk: nat, row: UserRow)
      ensures this.pk == pk && Row() == row
    {
      this.pk := pk;
      userType, email := row.userType, row.email;
      isActive, isStaff, isSuperuser := row.isActive, row.isStaff, row.isSuperuser;
      isVerified, isApproved := row.isVerified, row.isApproved;
      lastLoginIp, failedAttempts, lockedUntil := row.lastLoginIp, row.failedAttempts, row.lockedUntil;
    }

    method Store(row: UserRow)
      modifies this
      ensures Row() == row && pk == old(pk)
    {
      userType, email := row.userType, row.email;
      isActive, isStaff, isSuperuser := row.isActive, row.isStaff, row.isSuperuser;
      isVerified, isApproved := row.isVerified, row.isApproved;
      lastLoginIp, failedAttempts, lockedUntil := row.lastLoginIp, row.failedAttempts, row.lockedUntil;
    }

    /** save() of the candidate row. */
    method Save(cand: UserRow) returns (err: Option<UserError>)
      modifies this
      ensures SaveAll(old(Row()), cand) == UserSaved(Row(), err) && pk == old(pk)
    {
      err := UserClean(cand);
      if err.None? {
        var admin := cand.userType == AdminUser;
        Store(cand.(email := NormalEmail(cand.email),
                    isStaff := cand.isStaff || admin,
                    isSuperuser := cand.isSuperuser || admin));
      }
    }

    method RecordFailedLogin(ip: Option<string>, now: int) returns (err: Option<UserError>)
      modifies this
      ensures FailedLogin(old(Row()), ip, now) == UserSaved(Row(), err) && pk == old(pk)
    {
      err := UserClean(Row());
      if err.None? {
        failedAttempts := failedAttempts + 1;
        if ip.Some? && ip.value != [] {
          lastLoginIp := ip;
        }
        if failedAttempts >= LockAfterFailures {
          lockedUntil := Some(now + LockSeconds);
        }
      }
    }

    method RecordSuccessfulLogin(ip: Option<string>) returns (err: Option<UserError>)
      modifies this
      ensures SuccessfulLogin(old(Row()), ip) == UserSaved(Row(), err) && pk == old(pk)
    {
      err := UserClean(Row());
      if err.None? {
        failedAttempts, lockedUntil := 0, None;
        if ip.Some? && ip.value != [] {
          lastLoginIp := ip;
        }
      }
    }

    method UnlockAccount() returns (err: Option<UserError>)
      modifies this
      ensures Unlock(old(Row())) == UserSaved(Row(), err) && pk == old(pk)
    {
      err := UserClean(Row());
      if err.None? {
        failedAttempts, lockedUntil := 0, None;
      }
    }

    method VerifyEmailAddress() returns (err: Option<UserError>)
      modifies this
      ensures VerifyEmail(old(Row())) == UserSaved(Row(), err) && pk == old(pk)
    {
      err := UserClean(Row());
      if err.None? {
        isVerified := true;
      }
    }

    method Approve() returns (err: Option<UserError>)
      modifies this
      ensures ApproveUser(old(Row())) == UserSaved(Row(), err) && pk == old(pk)
    {
      err := UserClean(Row());
      if err.None? {
        isApproved := true;
      }
    }
  }
}
