/** The user admin (users/admin.py): the bulk account actions, the login and
    account status columns and the identifiers it displays. */
module UserAdmin {
  import opened Wrappers
  import opened Text
  import opened UserModels
  import GigModels
  import UserSerializers

  // ----------------------------------------------- actions that loop

  /** The actions that loop over the selection, calling a model helper on
      each user that needs it. */
  datatype UserAction = VerifyAll | ApproveAll | UnlockAll

  predicate Selected(a: UserAction, r: UserRow, now: int) {
    match a
    case VerifyAll => !r.isVerified
    case ApproveAll => !r.isApproved
    case UnlockAll => IsAccountLocked(r.lockedUntil, now)
  }

  function Apply(a: UserAction, r: UserRow): (s: UserSaved)
    ensures s.err == UserClean(r)
    ensures s.err.Some? ==> s.row == r
    ensures s.err.None? ==> s.row == match a
      case VerifyAll => r.(isVerified := true)
      case ApproveAll => r.(isApproved := true)
      case UnlockAll => r.(failedAttempts := 0, lockedUntil := None)
  {
    match a
    case VerifyAll => VerifyEmail(r)
    case ApproveAll => ApproveUser(r)
    case UnlockAll => Unlock(r)
  }

  /** The rows after an action, the count it reports and the error of the
      save that aborted it. */
  datatype Bulk = Bulk(rows: seq<UserRow>, updated: nat, err: Option<UserError>)

  function CountSelected(a: UserAction, rows: seq<UserRow>, now: int): (n: nat)
    ensures n <= |rows|
  {
    if rows == [] then 0
    else CountSelected(a, rows[..|rows| - 1], now) + (if Selected(a, rows[|rows| - 1], now) then 1 else 0)
  }

  /** An action over rows, in order: only the users that need it are changed
      and counted, and when it runs to the end none of them needs it any
      more. */
  function BulkRun(a: UserAction, rows: seq<UserRow>, now: int): (b: Bulk)
    ensures |b.rows| == |rows|
  {
    if rows == [] then Bulk([], 0, None)
    else
      var n := |rows| - 1;
      var b := BulkRun(a, rows[..n], now);
      var r := rows[n];
      if b.err.Some? then Bulk(b.rows + [r], b.updated, b.err)
      else if !Selected(a, r, now) then Bulk(b.rows + [r], b.updated, None)
      else
        var s := Apply(a, r);
        Bulk(b.rows + [s.row], if s.err.None? then b.updated + 1 else b.updated, s.err)
  }

  /** Only the users that need the action are changed and counted. */
  lemma {:induction false} BulkRunEffect(a: UserAction, rows: seq<UserRow>, now: int)
    ensures forall k :: 0 <= k < |rows| && !Selected(a, rows[k], now) ==> BulkRun(a, rows, now).rows[k] == rows[k]
    ensures BulkRun(a, rows, now).err.None? ==> BulkRun(a, rows, now).updated == CountSelected(a, rows, now)
    ensures BulkRun(a, rows, now).err.None? ==> forall k :: 0 <= k < |rows| && Selected(a, rows[k], now) ==>
      Apply(a, rows[k]) == UserSaved(BulkRun(a, rows, now).rows[k], None)
  {
    if rows != [] {
      var n := |rows| - 1;
      var p, r := BulkRun(a, rows[..n], now), rows[n];
      BulkRunEffect(a, rows[..n], now);
      var last := if p.err.Some? || !Selected(a, r, now) then r else Apply(a, r).row;
      var b := BulkRun(a, rows, now);
      assert b.rows == p.rows + [last];
      forall k | 0 <= k < n
        ensures rows[..n][k] == rows[k] && b.rows[k] == p.rows[k]
      {
      }
    }
  }

  /** When the action runs to the end none of the users needs it any more. */
  lemma BulkRunLeavesNoneSelected(a: UserAction, rows: seq<UserRow>, now: int)
    requires BulkRun(a, rows, now).err.None?
    ensures forall k :: 0 <= k < |rows| ==> !Selected(a, BulkRun(a, rows, now).rows[k], now)
  {
    BulkRunEffect(a, rows, now);
  }

  /** After the unlock action nobody in the selection is refused for a lock:
      each user then fails to log in only for a missing flag. */
  lemma UnlockAllClearsLocks(rows: seq<UserRow>, now: int, k: nat)
    requires k < |rows| && BulkRun(UnlockAll, rows, now).err.None?
    ensures var r := BulkRun(UnlockAll, rows, now).rows[k];
      CanLogin(r, now) <==> r.isActive && r.isApproved && r.isVerified
  {
    BulkRunLeavesNoneSelected(UnlockAll, rows, now);
  }

  function Rows(users: seq<User>): (rs: seq<UserRow>)
    reads set u | u in users
    ensures |rs| == |users| && forall k :: 0 <= k < |users| ==> rs[k] == users[k].Row()
  {
    seq(|users|, k requires 0 <= k < |users| reads set u | u in users => users[k].Row())
  }

  method Step(a: UserAction, u: User) returns (e: Option<UserError>)
    modifies u
    ensures Apply(a, old(u.Row())) == UserSaved(u.Row(), e)
  {
    match a {
      case VerifyAll => e := u.VerifyEmailAddress();
      case ApproveAll => e := u.Approve();
      case UnlockAll => e := u.UnlockAccount();
    }
  }

  /** The admin action's loop over the selected users. */
  method RunBulk(a: UserAction, users: seq<User>, now: int) returns (updated: nat, err: Option<UserError>)
    requires forall i, j :: 0 <= i < j < |users| ==> users[i] != users[j]
    modifies set u | u in users
    ensures BulkRun(a, old(Rows(users)), now) == Bulk(Rows(users), updated, err)
  {
    ghost var rows := Rows(users);
    ghost var done: seq<UserRow> := [];
    updated, err := 0, None;
    var i := 0;
    while i < |users| && err.None?
      invariant 0 <= i <= |users| && |done| == i
      invariant forall k :: 0 <= k < i ==> users[k].Row() == done[k]
      invariant forall k :: i <= k < |users| ==> users[k].Row() == rows[k]
      invariant BulkRun(a, rows[..i], now) == Bulk(done, updated, err)
    {
      var u := users[i];
      assert forall k :: 0 <= k < |users| && k != i ==> users[k] != u;
      var selected := Selected(a, u.Row(), now);
      var e: Option<UserError> := None;
      if selected {
        e := Step(a, u);
      }
      BulkRunExtend(a, rows, i, now, u.Row(), e);
      if selected && e.None? {
        updated := updated + 1;
      }
      err := e;
      done := done + [u.Row()];
      i := i + 1;
    }
    BulkRunFinished(a, rows, i, now, done, Rows(users), updated, err);
  }

  /** Where the loop stops, the rows so far and the untouched rest are the
      whole run. */
  lemma BulkRunFinished(a: UserAction, rows: seq<UserRow>, i: nat, now: int, done: seq<UserRow>, final: seq<UserRow>,
                        updated: nat, err: Option<UserError>)
    requires i <= |rows| && |done| == i && |final| == |rows|
    requires forall k :: 0 <= k < i ==> final[k] == done[k]
    requires forall k :: i <= k < |rows| ==> final[k] == rows[k]
    requires BulkRun(a, rows[..i], now) == Bulk(done, updated, err)
    requires i == |rows| || err.Some?
    ensures BulkRun(a, rows, now) == Bulk(final, updated, err)
  {
    if i < |rows| {
      BulkRunSkipsTail(a, rows, i, now);
    } else {
      assert rows[..i] == rows;
    }
    Spliced(final, done, rows, i);
  }

  /** A sequence that agrees with done below i and with rows from i on. */
  lemma Spliced(now: seq<UserRow>, done: seq<UserRow>, rows: seq<UserRow>, i: nat)
    requires |now| == |rows| && |done| == i <= |rows|
    requires forall k :: 0 <= k < i ==> now[k] == done[k]
    requires forall k :: i <= k < |rows| ==> now[k] == rows[k]
    ensures now == done + rows[i..]
  {
  }

  lemma BulkRunExtend(a: UserAction, rows: seq<UserRow>, i: nat, now: int, row: UserRow, e: Option<UserError>)
    requires i < |rows| && BulkRun(a, rows[..i], now).err.None?
    requires if Selected(a, rows[i], now) then Apply(a, rows[i]) == UserSaved(row, e) else row == rows[i] && e.None?
    ensures var b := BulkRun(a, rows[..i], now);
      BulkRun(a, rows[..i + 1], now) == Bulk(b.rows + [row], if Selected(a, rows[i], now) && e.None? then b.updated + 1 else b.updated, e)
  {
    assert rows[..i + 1][..i] == rows[..i];
  }

  lemma {:induction false} BulkRunSkipsTail(a: UserAction, rows: seq<UserRow>, n: nat, now: int)
    requires n <= |rows| && BulkRun(a, rows[..n], now).err.Some?
    ensures BulkRun(a, rows, now) == BulkRun(a, rows[..n], now).(rows := BulkRun(a, rows[..n], now).rows + rows[n..])
    decreases |rows| - n
  {
    if n < |rows| {
      assert rows[..|rows| - 1][..n] == rows[..n];
      BulkRunSkipsTail(a, rows[..|rows| - 1], n, now);
      assert rows[n..] == rows[..|rows| - 1][n..] + [rows[|rows| - 1]];
    } else {
      assert rows[..n] == rows;
    }
  }

  // ------------------------------------------ actions that overwrite

  /** The actions that write one column set over the whole selection with
      queryset.update(), without save() and so without clean(). */
  datatype Overwrite = UnverifyAll | UnapproveAll | ActivateAll | DeactivateAll | ResetAttempts

  function Overwritten(o: Overwrite, r: UserRow): UserRow {
    match o
    case UnverifyAll => r.(isVerified := false)
    case UnapproveAll => r.(isApproved := false)
    case ActivateAll => r.(isActive := true)
    case DeactivateAll => r.(isActive := false)
    case ResetAttempts => r.(failedAttempts := 0, lockedUntil := None)
  }

  /** The rows after the update and the count it reports: every selected
      row, whether or not it had the value already. */
  function QuerysetUpdate(o: Overwrite, rows: seq<UserRow>): (res: (seq<UserRow>, nat))
    ensures |res.0| == |rows| && res.1 == |rows|
    ensures forall k :: 0 <= k < |rows| ==> res.0[k] == Overwritten(o, rows[k])
  {
    (seq(|rows|, k requires 0 <= k < |rows| => Overwritten(o, rows[k])), |rows|)
  }

  /** Resetting the attempts clears every lock in the selection, as the
      unlock action does for the locked users, but counts every user; the
      two agree on the rows whenever clean() accepts them all. */
  lemma ResetAgreesWithUnlock(rows: seq<UserRow>, now: int)
    requires forall k :: 0 <= k < |rows| ==> UserClean(rows[k]).None?
    requires forall k :: 0 <= k < |rows| ==> IsAccountLocked(rows[k].lockedUntil, now)
    ensures QuerysetUpdate(ResetAttempts, rows).0 == BulkRun(UnlockAll, rows, now).rows
    ensures QuerysetUpdate(ResetAttempts, rows).1 == |rows|
  {
    var b := BulkRun(UnlockAll, rows, now);
    assert b.err.None? by { CleanRowsNeverFail(UnlockAll, rows, now); }
  }

  /** When clean() accepts every row, the looping actions never fail. */
  lemma {:induction false} CleanRowsNeverFail(a: UserAction, rows: seq<UserRow>, now: int)
    requires forall k :: 0 <= k < |rows| ==> UserClean(rows[k]).None?
    ensures BulkRun(a, rows, now).err.None?
  {
    if rows != [] {
      CleanRowsNeverFail(a, rows[..|rows| - 1], now);
    }
  }

  // --------------------------------------------------- status columns

  /** login_status_display. */
  datatype LoginStatus = Locked | FailedAttempts(count: nat) | LoginOk

  function LoginStatusOf(r: UserRow, now: int): (s: LoginStatus)
    ensures s == Locked <==> IsAccountLocked(r.lockedUntil, now)
    ensures s.FailedAttempts? <==> !IsAccountLocked(r.lockedUntil, now) && r.failedAttempts > 0
    ensures s.FailedAttempts? ==> s.count == r.failedAttempts
  {
    if IsAccountLocked(r.lockedUntil, now) then Locked
    else if r.failedAttempts > 0 then FailedAttempts(r.failedAttempts)
    else LoginOk
  }

  /** account_status_display. */
  datatype AccountStatus = CanLoginNow | CannotLogin(reasons: seq<string>)

  function AccountStatusOf(r: UserRow, now: int): (s: AccountStatus)
    ensures s.CanLoginNow? <==> CanLogin(r, now)
    ensures s.CannotLogin? ==> s.reasons != []
    ensures s.CannotLogin? ==> ("Account locked" in s.reasons <==> IsAccountLocked(r.lockedUntil, now))
  {
    if CanLogin(r, now) then CanLoginNow
    else
      var reasons := (if !r.isActive then ["Account inactive"] else [])
        + (if !r.isVerified then ["Email not verified"] else [])
        + (if !r.isApproved then ["Not approved"] else [])
        + (if IsAccountLocked(r.lockedUntil, now) then ["Account locked"] else []);
      CannotLogin(reasons)
  }

  /** The account column lists the reasons the login check gives, in the
      same order, plus the lock, which the login check reports on its own. */
  lemma AccountStatusAgreesWithLogin(r: UserRow, now: int)
    requires !CanLogin(r, now)
    ensures var reasons := AccountStatusOf(r, now).reasons;
      |reasons| == |UserSerializers.RestrictionReasons(r)| + (if IsAccountLocked(r.lockedUntil, now) then 1 else 0)
  {
  }

  // ------------------------------------------------------ identifiers

  /** user_id_display. */
  function UserId(pk: Option<nat>): (s: string)
    ensures StartsWith(s, "USR-") && |s| >= 8
  {
    var s := "USR-" + (if pk.Some? && pk.value != 0 then Padded(pk.value, 4) else "XXXX");
    assert s[..4] == "USR-";
    s
  }

  /** profile_id_display. */
  function ProfileId(pk: Option<nat>): (s: string)
    ensures StartsWith(s, "PROF-") && |s| >= 9
  {
    var s := "PROF-" + (if pk.Some? && pk.value != 0 then Padded(pk.value, 4) else "XXXX");
    assert s[..5] == "PROF-";
    s
  }

  /** session_id_display of the login sessions: six digits, not the four of
      a gig session's identifier. */
  function UserSessionId(pk: Option<nat>): (s: string)
    ensures StartsWith(s, "SES-") && |s| >= 10
  {
    var s := "SES-" + (if pk.Some? && pk.value != 0 then Padded(pk.value, 6) else "XXXXXX");
    assert s[..4] == "SES-";
    s
  }

  /** Each identifier reads back as the key it was made from. */
  lemma IdentifiersRoundTrip(pk: nat)
    requires pk > 0
    ensures PyInt(UserId(Some(pk))[4..]) == Some(pk)
    ensures PyInt(ProfileId(Some(pk))[5..]) == Some(pk)
    ensures PyInt(UserSessionId(Some(pk))[4..]) == Some(pk)
  {
    PaddedValue(pk, 4);
    PaddedValue(pk, 6);
    assert UserId(Some(pk))[4..] == Padded(pk, 4);
    assert ProfileId(Some(pk))[5..] == Padded(pk, 4);
    assert UserSessionId(Some(pk))[4..] == Padded(pk, 6);
  }

  /** A login session and a gig session share the "SES-" prefix; for the
      same key below 100000 the widths tell them apart. */
  lemma SessionIdsDiffer(pk: nat)
    requires 0 < pk < 100000
    ensures UserSessionId(Some(pk)) != GigModels.SessionId(Some(pk))
  {
    assert Power10(5) == 100000;
    ShortNumeral(pk, 5);
    assert |UserSessionId(Some(pk))| == 10;
  }

  function Power10(n: nat): (p: nat)
    ensures p >= 1
  {
    if n == 0 then 1 else 10 * Power10(n - 1)
  }

  /** A number below 10 to the k has a numeral of at most k digits. */
  lemma {:induction false} ShortNumeral(n: nat, k: nat)
    requires k >= 1 && n < Power10(k)
    ensures |Decimal(n)| <= k
  {
    if n >= 10 {
      assert k >= 2;
      ShortNumeral(n / 10, k - 1);
    }
  }
}
