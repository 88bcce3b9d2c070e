/** The tutor endpoints that change a tutor's flags or remove the tutor
    (tutors/views.py): their guards, in the order they are checked, and the
    tutor row and linked user row persisted afterwards.

    As for the gig endpoints, each handler is a specification function and a
    method on the loaded objects proved to agree with it.  The tutor a URL
    names arrives already looked up, with the user account its tutor profile
    links to (if any) and the statuses of its gigs. */
module TutorViews {
  import opened Wrappers
  import opened Text
  import opened UrlKeys
  import opened GigModels
  import opened GigSerializers
  import opened UserModels
  import opened TutorModels

  // ----------------------------------------------------------- tutor ids

  /** The lookup of every tutor endpoint: "TUT-<n>" or the bare key. */
  function TutorKey(s: string): KeyLookup {
    InlineKey("TUT-", s)
  }

  /** Every formatted tutor id leads back to its tutor. */
  lemma TutorKeyRoundTrip(pk: nat)
    requires pk >= 1
    ensures TutorKey(TutorId(Some(pk))) == ByPk(pk)
  {
    InlineKeyRoundTrip("TUT", pk);
    assert TutorId(Some(pk)) == "TUT" + "-" + Padded(pk, 4);
  }

  /** A malformed prefixed id is answered with 400, a malformed bare id with
      the 500 of the failing lookup. */
  lemma TutorKeyErrors()
    ensures TutorKey("TUT-x") == BadFormat
    ensures TutorKey("x") == LookupCrash
  {
    var s := "TUT-x";
    assert s == "TUT" + ['-'] + "x";
    SplitAfterFirst("TUT", '-', "x");
    assert s[..4] == "TUT-";
    assert !IsDigit("x"[0]);
    assert !StartsWith("x", "TUT-");
  }

  // --------------------------------------------------------- permissions

  /** The edit permission of tutor_detail: administrators and staff, or the
      user whose tutor profile links to this tutor. */
  function CanEditTutor(p: Principal, tutorPk: nat): (b: bool)
    ensures IsAdministrator(p) ==> b
    ensures b && !IsAdministrator(p) ==> p.linkedTutor == Some(tutorPk)
  {
    IsAdministrator(p) || p.linkedTutor == Some(tutorPk)
  }

  /** For tutor accounts the edit rule and the gig access rule agree; the edit
      rule alone also admits a manager whose profile is linked to the tutor. */
  lemma EditRuleAgreesWithGigAccess(p: Principal, tutorPk: nat)
    ensures IsTutor(p.userType) ==> (CanEditTutor(p, tutorPk) <==> GigViewsCanAccess(p, tutorPk))
    ensures p.userType == ManagerUser && !p.isStaff && p.linkedTutor == Some(tutorPk) ==>
      CanEditTutor(p, tutorPk) && !GigViewsCanAccess(p, tutorPk)
  {
  }

  /** can_access_gig for a gig assigned to the tutor, as gigs/views.py states it. */
  predicate GigViewsCanAccess(p: Principal, tutorPk: nat) {
    IsAdministrator(p) || (IsTutor(p.userType) && p.linkedTutor == Some(tutorPk))
  }

  // ------------------------------------------------------------- replies

  /** The 400 refusals of the tutor endpoints. */
  datatype Refusal =
    | AlreadyBlocked
    | NotBlocked
    | AlreadyActive
    | BlockedTutor
    | AlreadyInactive
    | HasOpenGigs(count: nat)

  /** success, 403, a refusal, the reason rejected by the status serializer,
      or the 500 of a ValidationError raised by a save. */
  datatype Reply = Done | Forbidden | Refused(why: Refusal) | ReasonTooLong
                 | TutorCrash(terr: TutorError) | UserCrash(uerr: UserError)

  /** The reply with the tutor row and the linked user row afterwards. */
  datatype Outcome = Outcome(reply: Reply, tutor: TutorRow, user: Option<UserRow>)

  function TutorReply(err: Option<TutorError>): Reply {
    if err.None? then Done else TutorCrash(err.value)
  }

  /** The number of the tutor's gigs that are pending or active. */
  function OpenGigCount(statuses: seq<Status>): (n: nat)
    ensures n <= |statuses|
    ensures n == 0 <==> forall k :: 0 <= k < |statuses| ==> statuses[k] != Pending && statuses[k] != Active
  {
    if statuses == [] then 0
    else OpenGigCount(statuses[..|statuses| - 1]) + (if statuses[|statuses| - 1] in {Pending, Active} then 1 else 0)
  }

  /** The linked user after is_active is set and the user saved. */
  function UserActiveSet(linked: Option<UserRow>, active: bool): (s: Option<UserSaved>)
    ensures s.Some? <==> linked.Some?
    ensures s.Some? && s.value.err.None? ==> s.value.row.isActive == active
  {
    match linked
    case None => None
    case Some(u) => Some(SaveAll(u, u.(isActive := active)))
  }

  /** The end of block_tutor and unblock_tutor: the tutor was saved by its
      helper, then the linked user is saved. */
  function WithUser(t: TutorSaved, prev: TutorRow, linked: Option<UserRow>, active: bool): (o: Outcome)
    ensures t.err.Some? ==> o == Outcome(TutorCrash(t.err.value), prev, linked)
    ensures o.reply.Done? ==> o.tutor == t.row
    ensures o.reply.Done? && linked.Some? ==> o.user.Some? && o.user.value.isActive == active
    ensures o.user.Some? <==> linked.Some?
  {
    if t.err.Some? then Outcome(TutorCrash(t.err.value), prev, linked)
    else match UserActiveSet(linked, active)
      case None => Outcome(Done, t.row, None)
      case Some(s) => Outcome(if s.err.None? then Done else UserCrash(s.err.value), t.row, Some(s.row))
  }

  // ------------------------------------------------------------ handlers

  /** block_tutor: blocks the tutor and deactivates the linked user. */
  function BlockOutcome(p: Principal, t: TutorRow, linked: Option<UserRow>, reason: TextInput): (o: Outcome)
    ensures o.reply.Done? ==>
      IsAdministrator(p) && !t.isBlocked && o.tutor == Blocked(t).row && o.tutor.isBlocked && !o.tutor.isActive
    ensures o.reply.Done? && linked.Some? ==> o.user.Some? && !o.user.value.isActive
    ensures IsAdministrator(p) && t.isBlocked ==> o.reply == Refused(AlreadyBlocked)
    ensures o.reply.Forbidden? || o.reply.Refused? || o.reply.ReasonTooLong? || o.reply.TutorCrash? ==>
      o.tutor == t && o.user == linked
  {
    if !IsAdministrator(p) then Outcome(Forbidden, t, linked)
    else if t.isBlocked then Outcome(Refused(AlreadyBlocked), t, linked)
    else if reason.Overlong? then Outcome(ReasonTooLong, t, linked)
    else WithUser(Blocked(t), t, linked, false)
  }

  /** unblock_tutor: lifts the block and reactivates the linked user. */
  function UnblockOutcome(p: Principal, t: TutorRow, linked: Option<UserRow>, reason: TextInput): (o: Outcome)
    ensures o.reply.Done? ==> IsAdministrator(p) && t.isBlocked && o.tutor == Unblocked(t).row && !o.tutor.isBlocked
    ensures o.reply.Done? && linked.Some? ==> o.user.Some? && o.user.value.isActive
    ensures IsAdministrator(p) && !t.isBlocked ==> o.reply == Refused(NotBlocked)
    ensures o.reply.Forbidden? || o.reply.Refused? || o.reply.ReasonTooLong? || o.reply.TutorCrash? ==>
      o.tutor == t && o.user == linked
  {
    if !IsAdministrator(p) then Outcome(Forbidden, t, linked)
    else if !t.isBlocked then Outcome(Refused(NotBlocked), t, linked)
    else if reason.Overlong? then Outcome(ReasonTooLong, t, linked)
    else WithUser(Unblocked(t), t, linked, true)
  }

  /** activate_tutor: refused for an active or a blocked tutor. */
  function ActivateOutcome(p: Principal, t: TutorRow): (o: Outcome)
    ensures o.reply.Done? <==> IsAdministrator(p) && !t.isActive && !t.isBlocked && Activated(t).err.None?
    ensures o.reply.Done? ==> o.tutor == Activated(t).row && StatusLabel(o.tutor) == "Active"
    ensures !o.reply.Done? ==> o.tutor == t
    ensures o.user.None?
  {
    if !IsAdministrator(p) then Outcome(Forbidden, t, None)
    else if t.isActive then Outcome(Refused(AlreadyActive), t, None)
    else if t.isBlocked then Outcome(Refused(BlockedTutor), t, None)
    else var s := Activated(t); Outcome(TutorReply(s.err), s.row, None)
  }

  /** deactivate_tutor: refused for an inactive tutor and for one with a
      pending or active gig. */
  function DeactivateOutcome(p: Principal, t: TutorRow, gigs: seq<Status>, reason: TextInput): (o: Outcome)
    ensures o.reply.Done? ==> (IsAdministrator(p) && t.isActive && OpenGigCount(gigs) == 0
      && o.tutor == Deactivated(t).row && !o.tutor.isActive)
    ensures IsAdministrator(p) && t.isActive && OpenGigCount(gigs) > 0 ==> o.reply == Refused(HasOpenGigs(OpenGigCount(gigs)))
    ensures !o.reply.Done? ==> o.tutor == t
    ensures o.user.None?
  {
    if !IsAdministrator(p) then Outcome(Forbidden, t, None)
    else if !t.isActive then Outcome(Refused(AlreadyInactive), t, None)
    else if OpenGigCount(gigs) > 0 then Outcome(Refused(HasOpenGigs(OpenGigCount(gigs))), t, None)
    else if reason.Overlong? then Outcome(ReasonTooLong, t, None)
    else var s := Deactivated(t); Outcome(TutorReply(s.err), s.row, None)
  }

  /** DELETE on tutor_detail: administrators only, and never while a gig of
      the tutor is pending or active. */
  function DeleteTutorOutcome(p: Principal, gigs: seq<Status>): (rep: Reply)
    ensures rep.Done? <==> IsAdministrator(p) && forall k :: 0 <= k < |gigs| ==> gigs[k] !in {Pending, Active}
    ensures rep.Refused? ==> rep.why.HasOpenGigs? && rep.why.count > 0
  {
    if !IsAdministrator(p) then Forbidden
    else if OpenGigCount(gigs) > 0 then Refused(HasOpenGigs(OpenGigCount(gigs)))
    else Done
  }

  /** Blocking and then unblocking a tutor leaves the tutor inactive but its
      user account active again. */
  lemma BlockThenUnblock(p: Principal, t: TutorRow, u: UserRow, reason: TextInput, reason2: TextInput)
    requires IsAdministrator(p) && !t.isBlocked && !reason.Overlong? && !reason2.Overlong?
    requires IsNormal(t) && TutorClean(t).None?
    requires UserClean(u).None? && NormalEmail(u.email) == u.email
    ensures var o1 := BlockOutcome(p, t, Some(u), reason);
      var o2 := UnblockOutcome(p, o1.tutor, o1.user, reason2);
      o1.reply.Done? && o2.reply.Done? && StatusLabel(o2.tutor) == "Inactive"
      && o2.user.Some? && o2.user.value.isActive
  {
    FlagHelpersOnNormalRow(t);
    var b := t.(isBlocked := true, isActive := false);
    assert IsNormal(b);
    FlagHelpersOnNormalRow(b);
    SavedRowIsClean(u, u.(isActive := false));
  }

  // -------------------------------------------------------------- methods

  method BlockView(t: Tutor, u: User?, p: Principal, reason: TextInput) returns (reply: Reply)
    modifies t, u
    ensures BlockOutcome(p, old(t.Row()), if u == null then None else Some(old(u.Row())), reason)
      == Outcome(reply, t.Row(), if u == null then None else Some(u.Row()))
  {
    if !IsAdministrator(p) {
      return Forbidden;
    }
    if t.isBlocked {
      return Refused(AlreadyBlocked);
    }
    if reason.Overlong? {
      return ReasonTooLong;
    }
    var err := t.Block();
    if err.Some? {
      return TutorCrash(err.value);
    }
    reply := Done;
    if u != null {
      var uerr := u.Save(u.Row().(isActive := false));
      if uerr.Some? {
        reply := UserCrash(uerr.value);
      }
    }
  }

  method UnblockView(t: Tutor, u: User?, p: Principal, reason: TextInput) returns (reply: Reply)
    modifies t, u
    ensures UnblockOutcome(p, old(t.Row()), if u == null then None else Some(old(u.Row())), reason)
      == Outcome(reply, t.Row(), if u == null then None else Some(u.Row()))
  {
    if !IsAdministrator(p) {
      return Forbidden;
    }
    if !t.isBlocked {
      return Refused(NotBlocked);
    }
    if reason.Overlong? {
      return ReasonTooLong;
    }
    var err := t.Unblock();
    if err.Some? {
      return TutorCrash(err.value);
    }
    reply := Done;
    if u != null {
      var uerr := u.Save(u.Row().(isActive := true));
      if uerr.Some? {
        reply := UserCrash(uerr.value);
      }
    }
  }

  method ActivateView(t: Tutor, p: Principal) returns (reply: Reply)
    modifies t
    ensures ActivateOutcome(p, old(t.Row())) == Outcome(reply, t.Row(), None)
  {
    if !IsAdministrator(p) {
      return Forbidden;
    }
    if t.isActive {
      return Refused(AlreadyActive);
    }
    if t.isBlocked {
      return Refused(BlockedTutor);
    }
    var err := t.Activate();
    reply := TutorReply(err);
  }

  method DeactivateView(t: Tutor, p: Principal, gigs: seq<Status>, reason: TextInput) returns (reply: Reply)
    modifies t
    ensures DeactivateOutcome(p, old(t.Row()), gigs, reason) == Outcome(reply, t.Row(), None)
  {
    if !IsAdministrator(p) {
      return Forbidden;
    }
    if !t.isActive {
      return Refused(AlreadyInactive);
    }
    var open := OpenGigCount(gigs);
    if open > 0 {
      return Refused(HasOpenGigs(open));
    }
    if reason.Overlong? {
      return ReasonTooLong;
    }
    var err := t.Deactivate();
    reply := TutorReply(err);
  }
}
