/** The state-changing gig endpoints (gigs/views.py): the guards each handler
    checks, in the order it checks them, and the gig row and sessions that are
    persisted afterwards.

    Every handler is a specification function giving the reply and the new
    state, and a method that performs the handler on a loaded Gig and is
    proved to agree with it.  The request's values arrive already read by the
    serializer's fields (None when absent); the gig, the session and the
    tutor a request names arrive already looked up. */
module GigViews {
  import opened Wrappers
  import opened Text
  import opened UrlKeys
  import opened GigModels
  import opened GigSerializers
  import UserModels
  import TutorModels

  // -------------------------------------------------------------- gig ids

  /** parse_gig_id: "GIG-<n>" (the piece after the first dash), "GIG<n>", or
      a bare number; None stands for the ValueError it raises otherwise. */
  function ParseGigId(s: string): (r: Option<nat>)
    ensures r.Some? && !StartsWith(s, "GIG") ==> AllDigits(s) && r.value == DigitsValue(s)
  {
    if StartsWith(s, "GIG-") then
      assert s[3] == "GIG-"[3];
      PyInt(SecondPiece(s))
    else if StartsWith(s, "GIG") && |s| > 3 then PyInt(s[3..])
    else PyInt(s)
  }

  /** A digit string holds no dash and does not start with a letter. */
  lemma DigitsAreNotPrefixed(d: string)
    requires |d| >= 1 && AllDigits(d)
    ensures '-' !in d && !StartsWith(d, "GIG")
  {
    assert IsDigit(d[0]);
    assert forall i :: 0 <= i < |d| ==> d[i] != '-';
  }

  /** The three accepted forms, each read as its digits: "GIG-<d>" also when
      more dash-separated pieces follow. */
  lemma ParseGigIdForms(d: string, rest: string)
    requires |d| >= 1 && AllDigits(d)
    requires rest == [] || rest[0] == '-'
    ensures ParseGigId("GIG-" + d + rest) == Some(DigitsValue(d))
    ensures ParseGigId("GIG" + d) == Some(DigitsValue(d))
    ensures ParseGigId(d) == Some(DigitsValue(d))
  {
    DigitsAreNotPrefixed(d);
    DashedForm(d, rest);
    CompactForm(d);
  }

  lemma DashedForm(d: string, rest: string)
    requires |d| >= 1 && AllDigits(d) && '-' !in d
    requires rest == [] || rest[0] == '-'
    ensures ParseGigId("GIG-" + d + rest) == Some(DigitsValue(d))
  {
    var s := "GIG-" + d + rest;
    assert s == "GIG" + "-" + d + rest;
    SecondPieceOf("GIG", d, rest);
    assert s[..4] == "GIG-";
  }

  lemma CompactForm(d: string)
    requires |d| >= 1 && AllDigits(d)
    ensures ParseGigId("GIG" + d) == Some(DigitsValue(d))
  {
    var t := "GIG" + d;
    assert t[3] == d[0] && IsDigit(d[0]);
    assert !StartsWith(t, "GIG-");
    assert t[..3] == "GIG";
    assert t[3..] == d;
  }

  /** Only split('-')[1] is read: "GIG-12-3" names gig 12. */
  lemma ParseGigIdReadsFirstPiece()
    ensures ParseGigId("GIG-12-3") == Some(12)
  {
    var d := "12";
    assert AllDigits(d) by {
      assert IsDigit(d[0]) && IsDigit(d[1]);
    }
    assert DigitsValue(d[..1]) == 1 by {
      assert d[..1] == "1" && "1"[..0] == [];
    }
    assert DigitsValue(d) == 12;
    ParseGigIdForms(d, "-3");
    assert "GIG-" + d + "-3" == "GIG-12-3";
  }

  /** parse_gig_id reads back every formatted gig id. */
  lemma ParseGigIdRoundTrip(pk: nat)
    requires pk >= 1
    ensures ParseGigId(GigId(Some(pk))) == Some(pk)
  {
    var d := Padded(pk, 4);
    PaddedValue(pk, 4);
    ParseGigIdForms(d, []);
    assert GigId(Some(pk)) == "GIG-" + d + [];
  }

  /** On dashed ids the detail and action views resolve the same key as
      parse_gig_id. */
  lemma InlineAgreesOnDashedIds(s: string)
    requires StartsWith(s, "GIG-")
    ensures ParseGigId(s).Some? <==> InlineKey("GIG-", s).ByPk?
    ensures ParseGigId(s).Some? ==> InlineKey("GIG-", s) == ByPk(ParseGigId(s).value)
  {
  }

  /** The compact form is accepted only by the session list: the detail and
      action views hand "GIG0012" to the database as a primary key, and the
      lookup raises. */
  lemma CompactIdOnlyInSessionList()
    ensures ParseGigId("GIG0012") == Some(12)
    ensures InlineKey("GIG-", "GIG0012") == LookupCrash
  {
    ParseGigIdForms("0012", []);
    assert "GIG" + "0012" == "GIG0012";
    assert "0012"[..3] == "001" && "001"[..2] == "00" && "00"[..1] == "0";
    assert !StartsWith("GIG0012", "GIG-") by {
      assert "GIG0012"[3] != '-';
    }
    assert PyInt("GIG0012").None? by {
      assert !IsDigit("GIG0012"[0]);
    }
  }

  // ---------------------------------------------------------- permissions

  /** can_access_gig, and can_modify_gig, whose body is the same: administrators
      and staff always, otherwise only the tutor user linked to the gig's tutor. */
  function CanAccessGig(p: UserModels.Principal, gigTutor: Option<nat>): (b: bool)
    ensures UserModels.IsAdministrator(p) ==> b
    ensures b && !UserModels.IsAdministrator(p) ==>
      UserModels.IsTutor(p.userType) && gigTutor.Some? && p.linkedTutor == gigTutor
    ensures gigTutor.None? ==> (b <==> UserModels.IsAdministrator(p))
  {
    UserModels.IsAdministrator(p) || (UserModels.IsTutor(p.userType) && gigTutor.Some? && p.linkedTutor == gigTutor)
  }

  // -------------------------------------------------------------- replies

  /** The business-rule refusals the handlers answer with 400. */
  datatype Refusal =
    | AlreadyAssigned
    | NotAssigned
    | GigIsActive
    | WrongStatus(status: Status)
    | NoTutorAssigned
    | AlreadyVerified
    | NotVerified

  /** The reply of a handler: success, 403, a refusal, a serializer's errors,
      or the 500 the outer handler turns a ValidationError from save() into. */
  datatype Reply =
    | Done
    | Forbidden
    | Refused(why: Refusal)
    | Rejected(errors: seq<FieldErrors>)
    | Crashed(err: SaveError)

  /** The reply and the gig row persisted afterwards. */
  datatype Outcome = Outcome(reply: Reply, row: GigRow)

  /** The reply, the gig row and the gig's sessions afterwards. */
  datatype SessionOutcome = SessionOutcome(reply: Reply, row: GigRow, sessions: seq<Session>)

  function Saving(s: Saved): (o: Outcome)
    ensures o.row == s.row && (o.reply.Done? <==> s.err.None?)
  {
    Outcome(if s.err.None? then Done else Crashed(s.err.value), s.row)
  }

  function ReplyOf(err: Option<SaveError>): Reply {
    if err.None? then Done else Crashed(err.value)
  }

  /** The length check of an optional 500-character text field. */
  function TextCheck(t: TextInput): (e: Option<Invalid>)
    ensures e.None? <==> !t.Overlong?
  {
    if t.Overlong? then Some(TooLong(500)) else None
  }

  /** The errors of a serializer whose one field is such a text. */
  function TextErrors(field: string, t: TextInput): (errs: seq<FieldErrors>)
    ensures errs == [] <==> !t.Overlong?
  {
    if t.Overlong? then [FieldErrors(field, [Message(TooLong(500))])] else []
  }

  /** A note appended only when the text is non-empty, as `if notes:` does. */
  function NoteWhen(notes: string, stamp: string, heading: string, t: TextInput): (n: string)
    ensures StartsWith(n, notes)
  {
    var n := if t.Given? && t.text != [] then notes + NoteLine(stamp, heading + t.text) else notes;
    assert n[..|notes|] == notes;
    n
  }

  // ------------------------------------------------------------ update

  /** The request's values written over the instance by serializer.save(). */
  function Applied(r: GigRow, u: GigUpdate): GigRow {
    r.(remuneration := u.remuneration.GetOr(r.remuneration), clientFee := u.clientFee.GetOr(r.clientFee),
       totalHours := u.totalHours.GetOr(r.totalHours), startDate := u.startDate.GetOr(r.startDate),
       endDate := u.endDate.GetOr(r.endDate), notes := u.notes.GetOr(r.notes))
  }

  /** The update with the remaining hours reset from a new total: total less
      the given completed hours. */
  function Resized(r: GigRow, u: GigUpdate, completed: int): GigRow {
    var a := Applied(r, u);
    if a.totalHours != r.totalHours then a.(remaining := a.totalHours - completed) else a
  }

  /** A tutor's request may carry the notes and nothing else. */
  predicate NotesOnly(u: GigUpdate) {
    NoText(u.text) && u.remuneration.None? && u.clientFee.None? && u.totalHours.None?
    && u.startDate.None? && u.endDate.None? && !u.otherKeys
  }

  /** The reply PUT/PATCH on gig_detail gives before it saves anything, if
      any: 403 without access or when a tutor sends more than the notes, then
      the serializer's errors. */
  function UpdateRefusal(p: UserModels.Principal, r: GigRow, u: GigUpdate, partial: bool): (rep: Option<Reply>)
    ensures rep.None? <==> (CanAccessGig(p, r.tutor) && UpdateGigErrors(u, r, partial) == []
      && (UserModels.IsTutor(p.userType) && !UserModels.IsAdministrator(p) ==> NotesOnly(u)))
    ensures rep.Some? ==> rep.value == Forbidden || rep.value == Rejected(UpdateGigErrors(u, r, partial))
  {
    if !CanAccessGig(p, r.tutor) then Some(Forbidden)
    else if UserModels.IsTutor(p.userType) && !UserModels.IsAdministrator(p) && !NotesOnly(u) then Some(Forbidden)
    else
      var errs := UpdateGigErrors(u, r, partial);
      if errs != [] then Some(Rejected(errs)) else None
  }

  /** PUT/PATCH on gig_detail. */
  function UpdateOutcome(p: UserModels.Principal, r: GigRow, u: GigUpdate, partial: bool): (o: Outcome)
    ensures o.reply.Done? ==> CanAccessGig(p, r.tutor) && UpdateGigErrors(u, r, partial) == [] && Consistent(o.row)
    ensures o.reply.Done? && UserModels.IsTutor(p.userType) && !UserModels.IsAdministrator(p) ==> NotesOnly(u)
    ensures o.reply.Done? ==>
      o.row.totalHours == u.totalHours.GetOr(r.totalHours) && o.row.status == r.status && o.row.tutor == r.tutor
    ensures o.reply.Done? && o.row.totalHours != r.totalHours ==> o.row.remaining == o.row.totalHours - HoursCompleted(r)
    ensures o.reply.Done? && o.row.totalHours == r.totalHours ==> o.row.remaining == r.remaining
    ensures !o.reply.Done? ==> o.row == r
  {
    match UpdateRefusal(p, r, u, partial)
    case Some(rep) => Outcome(rep, r)
    case None => Saving(Store(r, Resized(r, u, HoursCompleted(r))))
  }

  /** Resetting the remaining hours from the hours the ledger has used keeps
      the ledger relation. */
  lemma ResizedKeepsRelation(r: GigRow, u: GigUpdate, completed: int, ss: seq<Session>, adjusted: int)
    requires Balanced(r, ss, adjusted) && completed == r.totalHours - r.remaining
    ensures Balanced(Resized(r, u, completed), ss, adjusted)
  {
  }

  /** While hours remain, a resize keeps the ledger relation. */
  lemma ResizeKeepsBalance(p: UserModels.Principal, r: GigRow, u: GigUpdate, partial: bool, ss: seq<Session>, adjusted: int)
    requires Balanced(r, ss, adjusted) && r.remaining != 0 && r.totalHours != 0
    requires UpdateOutcome(p, r, u, partial).reply.Done?
    ensures Balanced(UpdateOutcome(p, r, u, partial).row, ss, adjusted)
  {
    assert UpdateOutcome(p, r, u, partial).row == Resized(r, u, HoursCompleted(r));
    ResizedKeepsRelation(r, u, HoursCompleted(r), ss, adjusted);
  }

  /** Resizing a gig whose hours are used up forgets them: hours_completed
      reads 0, so the new total becomes the remaining hours and the ledger
      relation breaks. */
  lemma ResizeForgetsConsumedHours()
    ensures var r := GigRow(Some(1), Active, 10000, 20000, 1000, 0, 0, 10, Some(0), None, "");
      var ss := [Session(1, 0, 600, 1200, 1000, true, "", true, Some(1), Some(0))];
      var u := GigUpdate(NoGigText, None, None, Some(1200), None, None, None, false);
      var o := UpdateOutcome(UserModels.Principal(UserModels.AdminUser, true, None), r, u, true);
      Balanced(r, ss, 0) && o.reply.Done? && o.row.remaining == 1200 && !Balanced(o.row, ss, 0)
  {
    var ss := [Session(1, 0, 600, 1200, 1000, true, "", true, Some(1), Some(0))];
    assert ss[..0] == [];
    assert VerifiedHours(ss) == 1000;
  }

  /** The resize as evidently intended: the completed hours are total less
      remaining, and the new total may not fall below them. */
  function UpdateOutcomeIntended(p: UserModels.Principal, r: GigRow, u: GigUpdate, partial: bool): (o: Outcome)
    ensures !o.reply.Done? ==> o.row == r
    ensures o.reply.Done? && o.row.totalHours != r.totalHours ==>
      o.row.remaining == o.row.totalHours - HoursCompletedIntended(r) && o.row.remaining >= 0
  {
    match UpdateRefusal(p, r, u, partial)
    case Some(rep) => Outcome(rep, r)
    case None =>
      if u.totalHours.Some? && u.totalHours.value < HoursCompletedIntended(r) then
        Outcome(Rejected([FieldErrors("total_hours",
          [Message(TotalBelowCompleted(u.totalHours.value, HoursCompletedIntended(r)))])]), r)
      else Saving(Store(r, Resized(r, u, HoursCompletedIntended(r))))
  }

  /** The intended resize keeps the ledger relation on every gig. */
  lemma ResizeIntendedKeepsBalance(p: UserModels.Principal, r: GigRow, u: GigUpdate, partial: bool, ss: seq<Session>, adjusted: int)
    requires Balanced(r, ss, adjusted)
    requires UpdateOutcomeIntended(p, r, u, partial).reply.Done?
    ensures Balanced(UpdateOutcomeIntended(p, r, u, partial).row, ss, adjusted)
  {
    assert UpdateOutcomeIntended(p, r, u, partial).row == Resized(r, u, HoursCompletedIntended(r));
    ResizedKeepsRelation(r, u, HoursCompletedIntended(r), ss, adjusted);
  }

  /** DELETE on gig_detail: administrators only, and never an active gig. */
  function DeleteGigOutcome(p: UserModels.Principal, r: GigRow): (rep: Reply)
    ensures rep.Done? <==> UserModels.IsAdministrator(p) && r.status != Active
    ensures rep == Refused(GigIsActive) <==> UserModels.IsAdministrator(p) && r.status == Active
  {
    if !CanAccessGig(p, r.tutor) then Forbidden
    else if !UserModels.IsAdministrator(p) then Forbidden
    else if r.status == Active then Refused(GigIsActive)
    else Done
  }

  // -------------------------------------------------------- assignment

  /** assign_gig, given the tutor the request's tutor_id names, if any. */
  function AssignOutcome(p: UserModels.Principal, r: GigRow, tutorId: Option<nat>,
                         found: Option<TutorModels.TutorRow>, notes: TextInput, c: Clock): (o: Outcome)
    ensures o.reply.Done? ==> (UserModels.IsAdministrator(p) && r.tutor.None? && tutorId.Some?
      && found.Some? && found.value.isActive && !found.value.isBlocked)
    ensures o.reply.Done? ==> o.row == r.(tutor := tutorId, notes := o.row.notes) && StartsWith(o.row.notes, r.notes)
    ensures UserModels.IsAdministrator(p) && r.tutor.Some? ==> o.reply == Refused(AlreadyAssigned)
    ensures !o.reply.Done? ==> o.row == r
  {
    if !UserModels.IsAdministrator(p) then Outcome(Forbidden, r)
    else if r.tutor.Some? then Outcome(Refused(AlreadyAssigned), r)
    else
      var e0 := if tutorId.None? then Some(Required) else ValidateAssignee(found);
      var e1 := TextCheck(notes);
      var checks := [("tutor_id", e0), ("notes", e1)];
      assert checks[0].1 == e0 && checks[1].1 == e1;
      var errs := Collect(checks);
      if errs != [] then Outcome(Rejected(errs), r)
      else
        var n := NoteWhen(r.notes, c.stamp, "Assigned to " + TutorModels.FullName(found.value) + ": ", notes);
        Saving(Store(r, r.(tutor := tutorId, notes := n)))
  }

  /** unassign_gig; current is the row of the gig's current tutor. */
  function UnassignOutcome(p: UserModels.Principal, r: GigRow, current: TutorModels.TutorRow,
                           reason: TextInput, c: Clock): (o: Outcome)
    ensures o.reply.Done? ==> UserModels.IsAdministrator(p) && r.tutor.Some? && r.status != Active
    ensures o.reply.Done? ==> o.row == r.(tutor := None, notes := o.row.notes) && StartsWith(o.row.notes, r.notes)
    ensures UserModels.IsAdministrator(p) && r.tutor.None? ==> o.reply == Refused(NotAssigned)
    ensures UserModels.IsAdministrator(p) && r.tutor.Some? && r.status == Active ==> o.reply == Refused(GigIsActive)
    ensures !o.reply.Done? ==> o.row == r
  {
    if !UserModels.IsAdministrator(p) then Outcome(Forbidden, r)
    else if r.tutor.None? then Outcome(Refused(NotAssigned), r)
    else if r.status == Active then Outcome(Refused(GigIsActive), r)
    else if reason.Overlong? then Outcome(Rejected(TextErrors("reason", reason)), r)
    else
      var n := NoteWhen(r.notes, c.stamp, "Unassigned from " + TutorModels.FullName(current) + ": ", reason);
      Saving(Store(r, r.(tutor := None, notes := n)))
  }

  // --------------------------------------------------------- lifecycle

  /** start_gig: pending and assigned gigs only. */
  function StartOutcome(p: UserModels.Principal, r: GigRow, c: Clock): (o: Outcome)
    ensures o.reply.Done? ==> UserModels.IsAdministrator(p) && r.status == Pending && r.tutor.Some?
    ensures o.reply.Done? ==> o.row == r.(status := Active, actualStart := Some(c.today))
    ensures UserModels.IsAdministrator(p) && r.status == Pending && r.tutor.Some? && Consistent(r) && r.actualEnd.None? ==>
      o.reply.Done?
    ensures !o.reply.Done? ==> o.row == r
  {
    if !UserModels.IsAdministrator(p) then Outcome(Forbidden, r)
    else if r.status != Pending then Outcome(Refused(WrongStatus(r.status)), r)
    else if r.tutor.None? then Outcome(Refused(NoTutorAssigned), r)
    else Saving(Start(r, c))
  }

  /** complete_gig: active or on-hold gigs only. */
  function CompleteOutcome(p: UserModels.Principal, r: GigRow, c: Clock): (o: Outcome)
    ensures o.reply.Done? ==> UserModels.IsAdministrator(p) && (r.status == Active || r.status == OnHold)
    ensures o.reply.Done? ==> o.row == r.(status := Completed, actualEnd := Some(c.today), remaining := 0)
    ensures !o.reply.Done? ==> o.row == r
  {
    if !UserModels.IsAdministrator(p) then Outcome(Forbidden, r)
    else if r.status != Active && r.status != OnHold then Outcome(Refused(WrongStatus(r.status)), r)
    else Saving(Complete(r, c))
  }

  /** cancel_gig: any gig not completed or cancelled; the reason defaults to
      "Cancelled by administrator" only when the request has none. */
  function CancelOutcome(p: UserModels.Principal, r: GigRow, reason: TextInput, c: Clock): (o: Outcome)
    ensures o.reply.Done? ==> UserModels.IsAdministrator(p) && r.status != Completed && r.status != Cancelled
    ensures o.reply.Done? ==> o.row == r.(status := Cancelled, notes := o.row.notes)
    ensures o.reply.Done? && reason.Absent? ==>
      o.row.notes == r.notes + NoteLine(c.stamp, "Cancellation reason: Cancelled by administrator")
    ensures !o.reply.Done? ==> o.row == r
  {
    if !UserModels.IsAdministrator(p) then Outcome(Forbidden, r)
    else if r.status == Completed || r.status == Cancelled then Outcome(Refused(WrongStatus(r.status)), r)
    else if reason.Overlong? then Outcome(Rejected(TextErrors("reason", reason)), r)
    else Saving(Cancel(r, TextOr(reason, "Cancelled by administrator"), c))
  }

  /** hold_gig: active gigs only; the reason defaults to "Put on hold by
      administrator". */
  function HoldOutcome(p: UserModels.Principal, r: GigRow, reason: TextInput, c: Clock): (o: Outcome)
    ensures o.reply.Done? ==> UserModels.IsAdministrator(p) && r.status == Active
    ensures o.reply.Done? ==> o.row == r.(status := OnHold, notes := o.row.notes)
    ensures o.reply.Done? && reason.Absent? ==>
      o.row.notes == r.notes + NoteLine(c.stamp, "Put on hold: Put on hold by administrator")
    ensures !o.reply.Done? ==> o.row == r
  {
    if !UserModels.IsAdministrator(p) then Outcome(Forbidden, r)
    else if r.status != Active then Outcome(Refused(WrongStatus(r.status)), r)
    else if reason.Overlong? then Outcome(Rejected(TextErrors("reason", reason)), r)
    else Saving(Hold(r, TextOr(reason, "Put on hold by administrator"), c))
  }

  /** resume_gig: on-hold gigs only. */
  function ResumeOutcome(p: UserModels.Principal, r: GigRow, c: Clock): (o: Outcome)
    ensures o.reply.Done? ==> UserModels.IsAdministrator(p) && r.status == OnHold
    ensures o.reply.Done? ==> o.row == r.(status := Active, notes := r.notes + NoteLine(c.stamp, "Resumed from hold"))
    ensures !o.reply.Done? ==> o.row == r
  {
    if !UserModels.IsAdministrator(p) then Outcome(Forbidden, r)
    else if r.status != OnHold then Outcome(Refused(WrongStatus(r.status)), r)
    else Saving(Resume(r, c))
  }

  /** The status-changing views move a gig along the lifecycle and nowhere
      else: every successful call lands on the status its name says, from a
      status its guard allows. */
  lemma ViewTransitions(p: UserModels.Principal, r: GigRow, reason: TextInput, c: Clock)
    ensures StartOutcome(p, r, c).reply.Done? ==> r.status == Pending && StartOutcome(p, r, c).row.status == Active
    ensures CompleteOutcome(p, r, c).reply.Done? ==> r.status in {Active, OnHold} && CompleteOutcome(p, r, c).row.status == Completed
    ensures CancelOutcome(p, r, reason, c).reply.Done? ==> r.status !in {Completed, Cancelled}
    ensures HoldOutcome(p, r, reason, c).reply.Done? ==> r.status == Active && HoldOutcome(p, r, reason, c).row.status == OnHold
    ensures ResumeOutcome(p, r, c).reply.Done? ==> r.status == OnHold && ResumeOutcome(p, r, c).row.status == Active
  {
  }

  // -------------------------------------------------------- adjustment

  /** adjust_gig_hours: subtracts the hours and records the adjustment. */
  function AdjustOutcome(p: UserModels.Principal, r: GigRow, h: Option<int>, reason: TextInput, c: Clock): (o: Outcome)
    ensures o.reply.Done? ==> UserModels.IsAdministrator(p) && h.Some? && 25 <= h.value <= r.remaining
    ensures o.reply.Done? ==>
      o.row == r.(remaining := r.remaining - h.value, notes := o.row.notes) && StartsWith(o.row.notes, r.notes)
    ensures UserModels.IsAdministrator(p) && ValidateAdjustment(h, r).None? && !reason.Overlong? && Consistent(r) ==>
      o.reply.Done?
    ensures !o.reply.Done? ==> o.row == r
  {
    if !UserModels.IsAdministrator(p) then Outcome(Forbidden, r)
    else
      var e0 := ValidateAdjustment(h, r);
      var e1 := TextCheck(reason);
      var checks := [("hours_to_subtract", e0), ("reason", e1)];
      assert checks[0].1 == e0 && checks[1].1 == e1;
      var errs := Collect(checks);
      if errs != [] then Outcome(Rejected(errs), r)
      else
        var line := NoteLine(c.stamp, "Manual hours adjustment: -" + Hundredths(h.value) + " hours. Reason: "
          + TextOr(reason, "Manual adjustment by administrator"));
        assert (r.notes + line)[..|r.notes|] == r.notes;
        Saving(Store(r, r.(remaining := r.remaining - h.value, notes := r.notes + line)))
  }

  // ----------------------------------------------------------- sessions

  /** The session a creation request describes: unverified, its fields from
      the request. */
  function NewSession(pk: nat, a: SessionAttrs, attendance: bool, notes: string): Session
    requires a.date.Some? && a.startTime.Some? && a.endTime.Some? && a.hours.Some?
  {
    Session(pk, a.date.value, a.startTime.value, a.endTime.value, a.hours.value, attendance, notes, false, None, None)
  }

  /** The request with its gig key set to the gig in the URL, as the creation
      handler does before validating. */
  function PinnedTo(a: SessionAttrs, key: nat): (b: SessionAttrs)
    ensures b.gig == Some(KeyRef(key, true)) && !Moves(b, key)
    ensures b.date == a.date && b.startTime == a.startTime && b.endTime == a.endTime && b.hours == a.hours
  {
    a.(gig := Some(KeyRef(key, true)))
  }

  /** POST on gig_sessions_list_create for the gig with primary key key; pk is
      the key the new row receives.  Whatever gig the request names, the
      handler overwrites it with the URL's gig. */
  function CreateSessionOutcome(p: UserModels.Principal, key: nat, r: GigRow, ss: seq<Session>, a: SessionAttrs,
                                attendance: bool, notes: string, pk: nat, today: int): (o: SessionOutcome)
    ensures o.reply.Done? ==> CanAccessGig(p, r.tutor) && r.status == Active && o.row == r
    ensures o.reply.Done? ==> (a.date.Some? && a.startTime.Some? && a.endTime.Some? && a.hours.Some?
      && o.sessions == ss + [NewSession(pk, a, attendance, notes)]
      && 25 <= a.hours.value <= 2400 && a.hours.value <= r.remaining && a.date.value <= today)
    ensures !o.reply.Done? ==> o.row == r && o.sessions == ss
  {
    if !CanAccessGig(p, r.tutor) then SessionOutcome(Forbidden, r, ss)
    else
      var b := PinnedTo(a, key);
      var errs := CreateSessionErrors(b, r, today);
      if errs != [] then SessionOutcome(Rejected(errs), r, ss)
      else
        AcceptedSessionFits(b, r, today);
        var l := SessionSave(r, ss, None, NewSession(pk, b, attendance, notes));
        SessionOutcome(ReplyOf(l.err), l.row, l.sessions)
  }

  /** A new session is unverified, so creating one keeps the ledger relation. */
  lemma CreateSessionKeepsBalance(p: UserModels.Principal, key: nat, r: GigRow, ss: seq<Session>, a: SessionAttrs,
                                  attendance: bool, notes: string, pk: nat, today: int, adjusted: int)
    requires Balanced(r, ss, adjusted)
    ensures var o := CreateSessionOutcome(p, key, r, ss, a, attendance, notes, pk, today);
      Balanced(o.row, o.sessions, adjusted)
  {
    var o := CreateSessionOutcome(p, key, r, ss, a, attendance, notes, pk, today);
    if o.reply.Done? {
      VerifiedHoursAppend(ss, NewSession(pk, a, attendance, notes));
    }
  }

  /** The session's stored values with the request's values written over them;
      is_verified is read-only and keeps its value. */
  function Edited(s: Session, a: SessionAttrs, notes: Option<string>, attendance: Option<bool>): (e: Session)
    ensures e.verified == s.verified && e.pk == s.pk
  {
    s.(date := a.date.GetOr(s.date), startTime := a.startTime.GetOr(s.startTime), endTime := a.endTime.GetOr(s.endTime),
       hours := a.hours.GetOr(s.hours), notes := notes.GetOr(s.notes), attendance := attendance.GetOr(s.attendance))
  }

  /** The request gives the session a stored gig other than the URL's gig
      (with primary key key). */
  predicate Moves(a: SessionAttrs, key: nat) {
    a.gig.Some? && a.gig.value.found && a.gig.value.pk != key
  }

  /** The reply to a session edit, the URL gig's row and sessions afterwards,
      and, when the request names another gig, that gig's row and sessions
      afterwards. */
  datatype EditOutcome = EditOutcome(reply: Reply, row: GigRow, sessions: seq<Session>,
                                     target: Option<(GigRow, seq<Session>)>)

  /** PUT/PATCH on gig_session_detail for the session at position i of the
      gig with primary key key; tr and tss are the row and sessions of the gig
      the request names, which matter only when it names another one.
      Permission is checked on the URL's gig alone.  A move writes the
      session under the new gig, moves that gig's remaining hours by
      LedgerDelta against the stored session, and leaves the old gig's row
      as it was. */
  function EditSessionOutcome(p: UserModels.Principal, key: nat, r: GigRow, ss: seq<Session>, i: nat, a: SessionAttrs,
                              notes: Option<string>, attendance: Option<bool>, partial: bool, today: int,
                              tr: GigRow, tss: seq<Session>): (o: EditOutcome)
    requires i < |ss|
    ensures o.reply.Forbidden? <==> !CanAccessGig(p, r.tutor)
    ensures o.reply.Done? ==> EditSessionErrors(a, partial, today) == []
    ensures o.reply.Forbidden? || o.reply.Rejected? ==>
      o.row == r && o.sessions == ss && o.target == (if Moves(a, key) then Some((tr, tss)) else None)
    ensures o.target.Some? <==> Moves(a, key)
    ensures var e := Edited(ss[i], a, notes, attendance);
      !Moves(a, key) && o.reply.Done? ==>
        (o.sessions == ss[i := e]
         && o.row.remaining == r.remaining - (Contribution(e) - Contribution(ss[i]))
         && o.row == r.(remaining := o.row.remaining))
    ensures var e := Edited(ss[i], a, notes, attendance);
      Moves(a, key) && o.reply.Done? ==>
        (o.row == r && o.sessions == ss[..i] + ss[i + 1..]
         && o.target.value.1 == tss + [e]
         && o.target.value.0 == tr.(remaining := tr.remaining - (Contribution(e) - Contribution(ss[i]))))
  {
    if !CanAccessGig(p, r.tutor) then EditOutcome(Forbidden, r, ss, if Moves(a, key) then Some((tr, tss)) else None)
    else
      var errs := EditSessionErrors(a, partial, today);
      if errs != [] then EditOutcome(Rejected(errs), r, ss, if Moves(a, key) then Some((tr, tss)) else None)
      else
        var e := Edited(ss[i], a, notes, attendance);
        LedgerDeltaTracksContribution(Some(ss[i]), e);
        if Moves(a, key) then
          var m := MoveSave(r, ss, i, tr, tss, e);
          EditOutcome(ReplyOf(m.1.err), m.0.row, m.0.sessions, Some((m.1.row, m.1.sessions)))
        else
          var l := SessionSave(r, ss, Some(i), e);
          EditOutcome(ReplyOf(l.err), l.row, l.sessions, None)
  }

  /** is_verified cannot be edited, so an edit that keeps the session on its
      gig keeps the ledger relation. */
  lemma EditSessionKeepsBalance(p: UserModels.Principal, key: nat, r: GigRow, ss: seq<Session>, i: nat, a: SessionAttrs,
                                notes: Option<string>, attendance: Option<bool>, partial: bool, today: int,
                                tr: GigRow, tss: seq<Session>, adjusted: int)
    requires i < |ss| && Balanced(r, ss, adjusted)
    requires EditSessionOutcome(p, key, r, ss, i, a, notes, attendance, partial, today, tr, tss).reply.Done?
    ensures var o := EditSessionOutcome(p, key, r, ss, i, a, notes, attendance, partial, today, tr, tss);
      !Moves(a, key) ==> Balanced(o.row, o.sessions, adjusted)
  {
    if !Moves(a, key) {
      SaveSessionKeepsBalance(r, ss, Some(i), Edited(ss[i], a, notes, attendance), adjusted);
    }
  }

  /** Moving a verified session to another gig breaks both ledgers: the old
      gig keeps the hours the session took though the session is gone, and
      the new gig holds the session without having given up its hours. */
  lemma MovedVerifiedSessionBreaksBothLedgers(p: UserModels.Principal, key: nat, r: GigRow, ss: seq<Session>, i: nat,
                                              a: SessionAttrs, notes: Option<string>, attendance: Option<bool>,
                                              partial: bool, today: int, tr: GigRow, tss: seq<Session>,
                                              adjusted: int, targetAdjusted: int)
    requires i < |ss| && ss[i].verified && ss[i].hours != 0 && Moves(a, key)
    requires Balanced(r, ss, adjusted) && Balanced(tr, tss, targetAdjusted)
    requires EditSessionOutcome(p, key, r, ss, i, a, notes, attendance, partial, today, tr, tss).reply.Done?
    ensures var o := EditSessionOutcome(p, key, r, ss, i, a, notes, attendance, partial, today, tr, tss);
      && o.row.remaining == o.row.totalHours - VerifiedHours(o.sessions) - adjusted - ss[i].hours
      && o.target.value.0.remaining == o.target.value.0.totalHours - VerifiedHours(o.target.value.1) - targetAdjusted + ss[i].hours
      && !Balanced(o.row, o.sessions, adjusted) && !Balanced(o.target.value.0, o.target.value.1, targetAdjusted)
  {
    MoveLeavesHoursBehind(r, ss, i, tr, tss, Edited(ss[i], a, notes, attendance), adjusted, targetAdjusted);
  }

  /** Only the URL's gig is checked: the tutor of gig 1 moves a session of
      theirs into gig 2, which belongs to another tutor and which they could
      not open. */
  lemma TutorMovesSessionIntoForeignGig()
    ensures var p := UserModels.Principal(UserModels.TutorUser, false, Some(7));
      var r := GigRow(Some(7), Active, 10000, 20000, 1000, 0, 0, 10, Some(0), None, "");
      var tr := GigRow(Some(8), Active, 10000, 20000, 1000, 1000, 0, 10, Some(0), None, "");
      var ss := [Session(1, 0, 600, 1200, 1000, true, "", true, Some(1), Some(0))];
      var a := SessionAttrs(Some(KeyRef(2, true)), None, None, None, None);
      var o := EditSessionOutcome(p, 1, r, ss, 0, a, None, None, true, 0, tr, []);
      !CanAccessGig(p, tr.tutor) && o.reply.Done? && o.sessions == [] && o.row == r
      && o.target == Some((tr, [ss[0]]))
  {
    var p := UserModels.Principal(UserModels.TutorUser, false, Some(7));
    var r := GigRow(Some(7), Active, 10000, 20000, 1000, 0, 0, 10, Some(0), None, "");
    var tr := GigRow(Some(8), Active, 10000, 20000, 1000, 1000, 0, 10, Some(0), None, "");
    var ss := [Session(1, 0, 600, 1200, 1000, true, "", true, Some(1), Some(0))];
    var a := SessionAttrs(Some(KeyRef(2, true)), None, None, None, None);
    assert Edited(ss[0], a, None, None) == ss[0];
    assert EditSessionErrors(a, true, 0) == [];
    var m := MoveSave(r, ss, 0, tr, [], ss[0]);
    assert m.1 == Ledger(tr, [ss[0]], None);
    assert ss[..0] + ss[1..] == [];
  }

  /** Nothing bounds the new hours of a verified session by what remains, and
      clean() does not look at the sign: raising a verified session from 10 to
      12 hours on a gig with nothing left leaves -2 hours remaining. */
  lemma EditOverdrawsVerifiedGig()
    ensures var r := GigRow(Some(1), Active, 10000, 20000, 1000, 0, 0, 10, Some(0), None, "");
      var ss := [Session(1, 0, 600, 1200, 1000, true, "", true, Some(1), Some(0))];
      var a := SessionAttrs(None, None, None, None, Some(1200));
      var o := EditSessionOutcome(UserModels.Principal(UserModels.AdminUser, true, None), 1, r, ss, 0, a, None, None,
                                  true, 0, r, ss);
      o.reply.Done? && o.row.remaining == -200
  {
  }

  /** The edit as evidently intended: the session stays on the URL's gig, as
      on creation, and a verified session may grow by no more than the gig
      still has, as creation and verification already demand. */
  function EditSessionOutcomeIntended(p: UserModels.Principal, key: nat, r: GigRow, ss: seq<Session>, i: nat,
                                      a: SessionAttrs, notes: Option<string>, attendance: Option<bool>,
                                      partial: bool, today: int): (o: EditOutcome)
    requires i < |ss|
    ensures o.target.None?
    ensures o.reply.Done? && r.remaining >= 0 ==> o.row.remaining >= 0
    ensures !o.reply.Done? && !o.reply.Crashed? ==> o.row == r && o.sessions == ss
  {
    var b := PinnedTo(a, key);
    var e := Edited(ss[i], b, notes, attendance);
    if ss[i].verified && CanAccessGig(p, r.tutor) && EditSessionErrors(b, partial, today) == []
       && e.hours - ss[i].hours > r.remaining then
      EditOutcome(Rejected(NonField(Some(HoursOverRemaining(e.hours, r.remaining + ss[i].hours)))), r, ss, None)
    else EditSessionOutcome(p, key, r, ss, i, b, notes, attendance, partial, today, r, ss)
  }

  /** The intended edit keeps the session on its gig and so keeps the ledger
      relation. */
  lemma EditSessionIntendedKeepsBalance(p: UserModels.Principal, key: nat, r: GigRow, ss: seq<Session>, i: nat,
                                        a: SessionAttrs, notes: Option<string>, attendance: Option<bool>,
                                        partial: bool, today: int, adjusted: int)
    requires i < |ss| && Balanced(r, ss, adjusted)
    requires EditSessionOutcomeIntended(p, key, r, ss, i, a, notes, attendance, partial, today).reply.Done?
    ensures var o := EditSessionOutcomeIntended(p, key, r, ss, i, a, notes, attendance, partial, today);
      Balanced(o.row, o.sessions, adjusted)
  {
    SaveSessionKeepsBalance(r, ss, Some(i), Edited(ss[i], PinnedTo(a, key), notes, attendance), adjusted);
  }

  /** No handler performs the one save GigSession.save gets wrong: an edit
      keeps is_verified, verification and unverification keep the hours, and
      a verification note changes neither (creation has no stored version). */
  lemma NoHandlerUnverifiesWithNewHours(s: Session, a: SessionAttrs, notes: Option<string>, attendance: Option<bool>,
                                        admin: nat, c: Clock, text: string)
    ensures !UnverifiesWithNewHours(Some(s), Edited(s, a, notes, attendance))
    ensures !UnverifiesWithNewHours(Some(s), s.(verified := true, verifiedBy := Some(admin), verifiedAt := Some(c.instant)))
    ensures !UnverifiesWithNewHours(Some(s), s.(verified := false, verifiedBy := None, verifiedAt := None))
    ensures !UnverifiesWithNewHours(Some(s), s.(notes := text))
  {
  }

  /** DELETE on gig_session_detail for the session at position i: the
      session goes, then its hours are added back to the gig whether or not
      they were ever taken. */
  function DeleteSessionOutcome(p: UserModels.Principal, r: GigRow, ss: seq<Session>, i: nat): (o: SessionOutcome)
    requires i < |ss|
    ensures o.reply.Done? ==> UserModels.IsAdministrator(p) && o.row == r.(remaining := r.remaining + ss[i].hours)
    ensures o.reply.Done? || o.reply.Crashed? ==> o.sessions == ss[..i] + ss[i + 1..]
    ensures o.reply.Crashed? ==> o.row == r
    ensures o.reply.Forbidden? <==> !UserModels.IsAdministrator(p)
    ensures o.reply.Forbidden? ==> o.row == r && o.sessions == ss
  {
    if !CanAccessGig(p, r.tutor) || !UserModels.IsAdministrator(p) then SessionOutcome(Forbidden, r, ss)
    else
      var g := Store(r, r.(remaining := r.remaining + ss[i].hours));
      SessionOutcome(ReplyOf(g.err), g.row, ss[..i] + ss[i + 1..])
  }

  /** Deleting a verified session gives back exactly the hours it took. */
  lemma DeleteVerifiedSessionKeepsBalance(p: UserModels.Principal, r: GigRow, ss: seq<Session>, i: nat, adjusted: int)
    requires i < |ss| && ss[i].verified && Balanced(r, ss, adjusted)
    requires DeleteSessionOutcome(p, r, ss, i).reply.Done?
    ensures var o := DeleteSessionOutcome(p, r, ss, i); Balanced(o.row, o.sessions, adjusted)
  {
    VerifiedHoursRemove(ss, i);
  }

  /** Deleting an unverified session hands the gig hours it never lost: the
      remaining hours end up that much above what the ledger accounts for. */
  lemma DeleteUnverifiedSessionOvercredits(p: UserModels.Principal, r: GigRow, ss: seq<Session>, i: nat, adjusted: int)
    requires i < |ss| && !ss[i].verified && ss[i].hours > 0 && Balanced(r, ss, adjusted)
    requires DeleteSessionOutcome(p, r, ss, i).reply.Done?
    ensures var o := DeleteSessionOutcome(p, r, ss, i);
      o.row.remaining == o.row.totalHours - VerifiedHours(o.sessions) - adjusted + ss[i].hours
      && !Balanced(o.row, o.sessions, adjusted)
  {
    VerifiedHoursRemove(ss, i);
  }

  /** On a gig with all its hours left the overcredit trips clean(): the
      reply is a 500, and the session is gone all the same. */
  lemma DeleteUnverifiedOnFreshGigCrashes()
    ensures var r := GigRow(Some(1), Active, 10000, 20000, 1000, 1000, 0, 10, Some(0), None, "");
      var ss := [Session(1, 0, 600, 700, 100, true, "", false, None, None)];
      var o := DeleteSessionOutcome(UserModels.Principal(UserModels.AdminUser, true, None), r, ss, 0);
      o.reply == Crashed(RemainingExceedsTotal) && o.sessions == [] && o.row == r
  {
  }

  /** The delete as evidently intended: give back what the session took. */
  function DeleteSessionOutcomeIntended(p: UserModels.Principal, r: GigRow, ss: seq<Session>, i: nat): (o: SessionOutcome)
    requires i < |ss|
    ensures o.reply.Done? ==> o.row == r.(remaining := r.remaining + Contribution(ss[i]))
    ensures o.reply.Done? ==> o.sessions == ss[..i] + ss[i + 1..]
  {
    if !CanAccessGig(p, r.tutor) || !UserModels.IsAdministrator(p) then SessionOutcome(Forbidden, r, ss)
    else
      var g := Store(r, r.(remaining := r.remaining + Contribution(ss[i])));
      SessionOutcome(ReplyOf(g.err), g.row, ss[..i] + ss[i + 1..])
  }

  /** The intended delete keeps the ledger relation, and on a consistent gig
      it always succeeds. */
  lemma DeleteSessionIntendedKeepsBalance(p: UserModels.Principal, r: GigRow, ss: seq<Session>, i: nat, adjusted: int)
    requires i < |ss| && Balanced(r, ss, adjusted) && adjusted >= 0 && VerifiedHours(ss[..i] + ss[i + 1..]) >= 0
    requires Consistent(r) && UserModels.IsAdministrator(p)
    ensures var o := DeleteSessionOutcomeIntended(p, r, ss, i);
      o.reply.Done? && Balanced(o.row, o.sessions, adjusted)
  {
    VerifiedHoursRemove(ss, i);
  }

  // ------------------------------------------------------ verification

  /** The second save of verify_session: the note appended to the session
      when the request carries one. */
  function Annotated(l: Ledger, i: nat, heading: string, notes: TextInput, c: Clock): (o: SessionOutcome)
    requires i < |l.sessions| && SessionClean(l.sessions[i]).None?
    ensures o.row == l.row && |o.sessions| == |l.sessions| && o.reply.Done?
    ensures o.sessions == l.sessions[i := o.sessions[i]]
    ensures o.sessions[i] == l.sessions[i].(notes := NoteWhen(l.sessions[i].notes, c.stamp, heading, notes))
  {
    var s := l.sessions[i].(notes := NoteWhen(l.sessions[i].notes, c.stamp, heading, notes));
    if notes.Given? && notes.text != [] then
      var m := SessionSave(l.row, l.sessions, Some(i), s);
      SessionOutcome(ReplyOf(m.err), m.row, m.sessions)
    else
      assert l.sessions[i := s] == l.sessions;
      SessionOutcome(Done, l.row, l.sessions)
  }

  /** verify_session for the session at position i; admin is the acting
      user's key. */
  function VerifyOutcome(p: UserModels.Principal, r: GigRow, ss: seq<Session>, i: nat, verified: Option<bool>,
                         notes: TextInput, admin: nat, c: Clock): (o: SessionOutcome)
    requires i < |ss|
    ensures o.reply.Done? ==> (UserModels.IsAdministrator(p) && r.status == Active && verified.Some?
      && |o.sessions| == |ss| && o.sessions[i].verified == verified.value)
    ensures o.reply.Done? && verified == Some(true) ==>
      !ss[i].verified && ss[i].hours <= r.remaining && o.row.remaining == r.remaining - ss[i].hours
    ensures o.reply.Done? && verified == Some(false) ==> ss[i].verified && o.row.remaining == r.remaining + ss[i].hours
    ensures (UserModels.IsAdministrator(p) && r.status == Active && !notes.Overlong? && verified == Some(false)
      && !ss[i].verified) ==> o.reply == Refused(NotVerified) && o.row == r && o.sessions == ss
    ensures (UserModels.IsAdministrator(p) && r.status == Active && !notes.Overlong? && verified == Some(true)
      && ss[i].verified && ss[i].hours <= r.remaining) ==> o.reply == Refused(AlreadyVerified) && o.row == r && o.sessions == ss
  {
    if !UserModels.IsAdministrator(p) then SessionOutcome(Forbidden, r, ss)
    else
      var e0 := if verified.None? then Some(Required) else None;
      var e1 := TextCheck(notes);
      var checks := [("verified", e0), ("verification_notes", e1)];
      assert checks[0].1 == e0 && checks[1].1 == e1;
      var errs := Collect(checks);
      if errs != [] then SessionOutcome(Rejected(errs), r, ss)
      else if ValidateVerification(Some(ss[i]), r, verified.value).Some? then
        SessionOutcome(Rejected(NonField(ValidateVerification(Some(ss[i]), r, verified.value))), r, ss)
      else if verified.value then
        var v := Verify(r, ss, i, admin, c);
        if !v.0 then SessionOutcome(Refused(AlreadyVerified), r, ss)
        else if v.1.err.Some? then SessionOutcome(Crashed(v.1.err.value), v.1.row, v.1.sessions)
        else Annotated(v.1, i, "Verification notes: ", notes, c)
      else
        var v := Unverify(r, ss, i);
        if !v.0 then SessionOutcome(Refused(NotVerified), r, ss)
        else if v.1.err.Some? then SessionOutcome(Crashed(v.1.err.value), v.1.row, v.1.sessions)
        else Annotated(v.1, i, "Unverification notes: ", notes, c)
  }

  /** A successful verification or unverification keeps the ledger relation. */
  lemma VerifyViewKeepsBalance(p: UserModels.Principal, r: GigRow, ss: seq<Session>, i: nat, verified: Option<bool>,
                               notes: TextInput, admin: nat, c: Clock, adjusted: int)
    requires i < |ss| && Balanced(r, ss, adjusted)
    requires VerifyOutcome(p, r, ss, i, verified, notes, admin, c).reply.Done?
    ensures var o := VerifyOutcome(p, r, ss, i, verified, notes, admin, c);
      Balanced(o.row, o.sessions, adjusted)
  {
    var o := VerifyOutcome(p, r, ss, i, verified, notes, admin, c);
    var s := if verified.value then ss[i].(verified := true, verifiedBy := Some(admin), verifiedAt := Some(c.instant))
             else ss[i].(verified := false, verifiedBy := None, verifiedAt := None);
    SaveSessionKeepsBalance(r, ss, Some(i), s, adjusted);
    var l := SessionSave(r, ss, Some(i), s);
    VerifiedHoursUpdate(l.sessions, i, o.sessions[i]);
  }

  // --------------------------------------------------- error messages

  /** field.replace('_', ' ').title(). */
  function FieldLabel(field: string): (title: string)
    ensures |title| == |field|
  {
    Title(seq(|field|, k requires 0 <= k < |field| => if field[k] == '_' then ' ' else field[k]))
  }

  /** The lines one entry of serializer.errors contributes: its messages as
      they are for non_field_errors, each behind "<Field Label>: " otherwise. */
  function LinesOf(e: FieldErrors): (lines: seq<string>)
    ensures |lines| == |e.messages|
  {
    if e.field == NonFieldKey then e.messages
    else seq(|e.messages|, k requires 0 <= k < |e.messages| => FieldLabel(e.field) + ": " + e.messages[k])
  }

  function ErrorLines(errs: seq<FieldErrors>): seq<string> {
    if errs == [] then [] else ErrorLines(errs[..|errs| - 1]) + LinesOf(errs[|errs| - 1])
  }

  /** The user-friendly message of a rejected session creation. */
  function FriendlyMessage(errs: seq<FieldErrors>): string {
    var lines := ErrorLines(errs);
    if lines == [] then "Validation failed" else Join("; ", lines)
  }

  /** The loop of gig_sessions_list_create that builds the message. */
  method BuildFriendlyMessage(errs: seq<FieldErrors>) returns (msg: string)
    ensures msg == FriendlyMessage(errs)
  {
    var lines: seq<string> := [];
    var i := 0;
    while i < |errs|
      invariant 0 <= i <= |errs|
      invariant lines == ErrorLines(errs[..i])
    {
      var e := errs[i];
      if e.field == NonFieldKey {
        lines := lines + e.messages;
      } else {
        var fieldTitle := FieldLabel(e.field);
        var j := 0;
        while j < |e.messages|
          invariant 0 <= j <= |e.messages|
          invariant lines == ErrorLines(errs[..i]) + LinesOf(e)[..j]
        {
          lines := lines + [fieldTitle + ": " + e.messages[j]];
          j := j + 1;
        }
        assert LinesOf(e)[..j] == LinesOf(e);
      }
      assert errs[..i + 1][..i] == errs[..i];
      i := i + 1;
    }
    assert errs[..|errs|] == errs;
    msg := if lines == [] then "Validation failed" else Join("; ", lines);
  }

  /** A refusal of validate() reaches the client as its own text, a field's
      single error behind the field's label. */
  lemma FriendlyMessageShapes(e: Invalid, field: string, m: string)
    requires field != NonFieldKey
    ensures FriendlyMessage(NonField(Some(e))) == Message(e)
    ensures FriendlyMessage([FieldErrors(field, [m])]) == FieldLabel(field) + ": " + m
  {
    var n := NonField(Some(e));
    assert n[..0] == [];
    assert ErrorLines(n) == [Message(e)];
    var f := [FieldErrors(field, [m])];
    assert f[..0] == [];
    assert LinesOf(f[0]) == [FieldLabel(field) + ": " + m];
    assert ErrorLines(f) == [FieldLabel(field) + ": " + m];
  }

  /** Session creation on a gig that is not active is refused with exactly
      the serializer's text. */
  lemma InactiveGigSessionMessage(a: SessionAttrs, r: GigRow, today: int)
    requires SessionFieldErrors(a, true) == [] && ValidateSession(a, today).None? && r.status != Active
    ensures FriendlyMessage(CreateSessionErrors(a, r, today)) == "Can only create sessions for active gigs."
  {
    FriendlyMessageShapes(SessionGigNotActive, "session_date", "");
  }

  // ---------------------------------------------------------- handlers

  method UpdateView(g: Gig, p: UserModels.Principal, u: GigUpdate, partial: bool) returns (reply: Reply)
    modifies g
    ensures UpdateOutcome(p, old(g.Row()), u, partial) == Outcome(reply, g.Row())
    ensures g.sessions == old(g.sessions) && g.adjusted == old(g.adjusted) && g.pk == old(g.pk)
    ensures old(g.LedgerBalanced()) && old(g.remaining) != 0 && old(g.totalHours) != 0 ==> g.LedgerBalanced()
  {
    var r0 := g.Row();
    var refusal := UpdateRefusal(p, r0, u, partial);
    if refusal.Some? {
      return refusal.value;
    }
    var cand := Resized(r0, u, HoursCompleted(r0));
    if g.LedgerBalanced() && g.remaining != 0 && g.totalHours != 0 {
      ResizedKeepsRelation(r0, u, HoursCompleted(r0), g.sessions, g.adjusted);
    }
    var err := g.Save(cand);
    reply := ReplyOf(err);
    assert UpdateOutcome(p, r0, u, partial) == Saving(Store(r0, cand));
  }

  method AssignView(g: Gig, p: UserModels.Principal, tutorId: Option<nat>, found: Option<TutorModels.TutorRow>,
                    notes: TextInput, c: Clock) returns (reply: Reply)
    modifies g
    ensures AssignOutcome(p, old(g.Row()), tutorId, found, notes, c) == Outcome(reply, g.Row())
    ensures g.sessions == old(g.sessions) && g.adjusted == old(g.adjusted) && g.pk == old(g.pk)
    ensures old(g.LedgerBalanced()) ==> g.LedgerBalanced()
  {
    if !UserModels.IsAdministrator(p) {
      return Forbidden;
    }
    if g.tutor.Some? {
      return Refused(AlreadyAssigned);
    }
    var e0 := if tutorId.None? then Some(Required) else ValidateAssignee(found);
    var errs := Collect([("tutor_id", e0), ("notes", TextCheck(notes))]);
    if errs != [] {
      return Rejected(errs);
    }
    var n := g.notes;
    if notes.Given? && notes.text != [] {
      n := n + NoteLine(c.stamp, "Assigned to " + TutorModels.FullName(found.value) + ": " + notes.text);
    }
    var err := g.Save(g.Row().(tutor := tutorId, notes := n));
    reply := ReplyOf(err);
  }

  method UnassignView(g: Gig, p: UserModels.Principal, current: TutorModels.TutorRow, reason: TextInput, c: Clock)
    returns (reply: Reply)
    modifies g
    ensures UnassignOutcome(p, old(g.Row()), current, reason, c) == Outcome(reply, g.Row())
    ensures g.sessions == old(g.sessions) && g.adjusted == old(g.adjusted) && g.pk == old(g.pk)
    ensures old(g.LedgerBalanced()) ==> g.LedgerBalanced()
  {
    if !UserModels.IsAdministrator(p) {
      return Forbidden;
    }
    if g.tutor.None? {
      return Refused(NotAssigned);
    }
    if g.status == Active {
      return Refused(GigIsActive);
    }
    if reason.Overlong? {
      return Rejected(TextErrors("reason", reason));
    }
    var n := g.notes;
    if reason.Given? && reason.text != [] {
      n := n + NoteLine(c.stamp, "Unassigned from " + TutorModels.FullName(current) + ": " + reason.text);
    }
    var err := g.Save(g.Row().(tutor := None, notes := n));
    reply := ReplyOf(err);
  }

  method StartView(g: Gig, p: UserModels.Principal, c: Clock) returns (reply: Reply)
    modifies g
    ensures StartOutcome(p, old(g.Row()), c) == Outcome(reply, g.Row())
    ensures g.sessions == old(g.sessions) && g.adjusted == old(g.adjusted) && g.pk == old(g.pk)
    ensures old(g.LedgerBalanced()) ==> g.LedgerBalanced()
  {
    if !UserModels.IsAdministrator(p) {
      return Forbidden;
    }
    if g.status != Pending {
      return Refused(WrongStatus(g.status));
    }
    if g.tutor.None? {
      return Refused(NoTutorAssigned);
    }
    var err := g.StartGig(c);
    reply := ReplyOf(err);
  }

  method CompleteView(g: Gig, p: UserModels.Principal, c: Clock) returns (reply: Reply)
    modifies g
    ensures CompleteOutcome(p, old(g.Row()), c) == Outcome(reply, g.Row())
    ensures g.sessions == old(g.sessions) && g.pk == old(g.pk)
  {
    if !UserModels.IsAdministrator(p) {
      return Forbidden;
    }
    if g.status != Active && g.status != OnHold {
      return Refused(WrongStatus(g.status));
    }
    var err := g.CompleteGig(c);
    reply := ReplyOf(err);
  }

  method CancelView(g: Gig, p: UserModels.Principal, reason: TextInput, c: Clock) returns (reply: Reply)
    modifies g
    ensures CancelOutcome(p, old(g.Row()), reason, c) == Outcome(reply, g.Row())
    ensures g.sessions == old(g.sessions) && g.adjusted == old(g.adjusted) && g.pk == old(g.pk)
    ensures old(g.LedgerBalanced()) ==> g.LedgerBalanced()
  {
    if !UserModels.IsAdministrator(p) {
      return Forbidden;
    }
    if g.status == Completed || g.status == Cancelled {
      return Refused(WrongStatus(g.status));
    }
    if reason.Overlong? {
      return Rejected(TextErrors("reason", reason));
    }
    var err := g.CancelGig(TextOr(reason, "Cancelled by administrator"), c);
    reply := ReplyOf(err);
  }

  method HoldView(g: Gig, p: UserModels.Principal, reason: TextInput, c: Clock) returns (reply: Reply)
    modifies g
    ensures HoldOutcome(p, old(g.Row()), reason, c) == Outcome(reply, g.Row())
    ensures g.sessions == old(g.sessions) && g.adjusted == old(g.adjusted) && g.pk == old(g.pk)
    ensures old(g.LedgerBalanced()) ==> g.LedgerBalanced()
  {
    if !UserModels.IsAdministrator(p) {
      return Forbidden;
    }
    if g.status != Active {
      return Refused(WrongStatus(g.status));
    }
    if reason.Overlong? {
      return Rejected(TextErrors("reason", reason));
    }
    var err := g.PutOnHold(TextOr(reason, "Put on hold by administrator"), c);
    reply := ReplyOf(err);
  }

  method ResumeView(g: Gig, p: UserModels.Principal, c: Clock) returns (reply: Reply)
    modifies g
    ensures ResumeOutcome(p, old(g.Row()), c) == Outcome(reply, g.Row())
    ensures g.sessions == old(g.sessions) && g.adjusted == old(g.adjusted) && g.pk == old(g.pk)
    ensures old(g.LedgerBalanced()) ==> g.LedgerBalanced()
  {
    if !UserModels.IsAdministrator(p) {
      return Forbidden;
    }
    if g.status != OnHold {
      return Refused(WrongStatus(g.status));
    }
    var err := g.ResumeGig(c);
    reply := ReplyOf(err);
  }

  /** The subtracted hours count as an adjustment of the ledger. */
  method AdjustView(g: Gig, p: UserModels.Principal, h: Option<int>, reason: TextInput, c: Clock) returns (reply: Reply)
    modifies g
    ensures AdjustOutcome(p, old(g.Row()), h, reason, c) == Outcome(reply, g.Row())
    ensures g.sessions == old(g.sessions) && g.pk == old(g.pk)
    ensures old(g.LedgerBalanced()) ==> g.LedgerBalanced()
  {
    if !UserModels.IsAdministrator(p) {
      return Forbidden;
    }
    var errs := Collect([("hours_to_subtract", ValidateAdjustment(h, g.Row())), ("reason", TextCheck(reason))]);
    if errs != [] {
      return Rejected(errs);
    }
    var line := NoteLine(c.stamp, "Manual hours adjustment: -" + Hundredths(h.value) + " hours. Reason: "
      + TextOr(reason, "Manual adjustment by administrator"));
    var err := g.Save(g.Row().(remaining := g.remaining - h.value, notes := g.notes + line));
    if err.None? {
      g.adjusted := g.adjusted + h.value;
    }
    reply := ReplyOf(err);
  }

  method CreateSessionView(g: Gig, p: UserModels.Principal, a: SessionAttrs, attendance: bool, notes: string,
                           pk: nat, today: int) returns (reply: Reply, message: string)
    modifies g
    ensures CreateSessionOutcome(p, old(g.pk), old(g.Row()), old(g.sessions), a, attendance, notes, pk, today)
      == SessionOutcome(reply, g.Row(), g.sessions)
    ensures reply.Rejected? ==> message == FriendlyMessage(reply.errors)
    ensures g.adjusted == old(g.adjusted) && g.pk == old(g.pk)
    ensures old(g.LedgerBalanced()) ==> g.LedgerBalanced()
  {
    message := "";
    if !CanAccessGig(p, g.tutor) {
      return Forbidden, message;
    }
    var b := PinnedTo(a, g.pk);
    var errs := CreateSessionErrors(b, g.Row(), today);
    if errs != [] {
      message := BuildFriendlyMessage(errs);
      return Rejected(errs), message;
    }
    AcceptedSessionFits(b, g.Row(), today);
    ghost var r0, ss0 := g.Row(), g.sessions;
    var err := g.SaveSession(None, NewSession(pk, b, attendance, notes));
    reply := ReplyOf(err);
    if Balanced(r0, ss0, g.adjusted) {
      CreateSessionKeepsBalance(p, g.pk, r0, ss0, a, attendance, notes, pk, today, g.adjusted);
    }
  }

  /** t is the gig the request names when it names another one. */
  method EditSessionView(g: Gig, t: Gig, p: UserModels.Principal, i: nat, a: SessionAttrs, notes: Option<string>,
                         attendance: Option<bool>, partial: bool, today: int) returns (reply: Reply)
    requires i < |g.sessions|
    requires Moves(a, g.pk) ==> t != g && t.pk == a.gig.value.pk
    modifies g, t
    ensures EditSessionOutcome(p, old(g.pk), old(g.Row()), old(g.sessions), i, a, notes, attendance, partial, today,
                               old(t.Row()), old(t.sessions))
      == EditOutcome(reply, g.Row(), g.sessions, if Moves(a, old(g.pk)) then Some((t.Row(), t.sessions)) else None)
    ensures g.adjusted == old(g.adjusted) && g.pk == old(g.pk) && t.adjusted == old(t.adjusted) && t.pk == old(t.pk)
    ensures !Moves(a, old(g.pk)) && t != g ==> t.Row() == old(t.Row()) && t.sessions == old(t.sessions)
    ensures old(g.LedgerBalanced()) && reply.Done? && !Moves(a, old(g.pk)) ==> g.LedgerBalanced()
  {
    if !CanAccessGig(p, g.tutor) {
      return Forbidden;
    }
    var errs := EditSessionErrors(a, partial, today);
    if errs != [] {
      return Rejected(errs);
    }
    var prior := g.sessions[i];
    var e := Edited(prior, a, notes, attendance);
    LedgerDeltaTracksContribution(Some(prior), e);
    if Moves(a, g.pk) {
      var err := SessionClean(e);
      if err.Some? {
        return ReplyOf(err);
      }
      g.ReleaseSession(i);
      err := t.AdoptSession(prior, e);
      reply := ReplyOf(err);
    } else {
      var err := g.SaveSession(Some(i), e);
      reply := ReplyOf(err);
    }
  }

  /** DELETE on gig_session_detail on the loaded gig: the session is removed,
      then its hours are added to the remaining hours and the gig is saved.
      The ghost adjustment is not touched, so the ledger relation survives
      only when the session was verified. */
  method DeleteSessionView(g: Gig, p: UserModels.Principal, i: nat) returns (reply: Reply)
    requires i < |g.sessions|
    modifies g
    ensures DeleteSessionOutcome(p, old(g.Row()), old(g.sessions), i) == SessionOutcome(reply, g.Row(), g.sessions)
    ensures g.pk == old(g.pk)
    ensures old(g.LedgerBalanced()) && reply.Done? && old(g.sessions)[i].verified ==> g.LedgerBalanced()
  {
    if !CanAccessGig(p, g.tutor) || !UserModels.IsAdministrator(p) {
      return Forbidden;
    }
    var s := g.sessions[i];
    ghost var ss0 := g.sessions;
    g.sessions := g.sessions[..i] + g.sessions[i + 1..];
    var err := g.Save(g.Row().(remaining := g.remaining + s.hours));
    VerifiedHoursRemove(ss0, i);
    reply := ReplyOf(err);
  }

  method VerifyView(g: Gig, p: UserModels.Principal, i: nat, verified: Option<bool>, notes: TextInput,
                    admin: nat, c: Clock) returns (reply: Reply)
    requires i < |g.sessions|
    modifies g
    ensures VerifyOutcome(p, old(g.Row()), old(g.sessions), i, verified, notes, admin, c)
      == SessionOutcome(reply, g.Row(), g.sessions)
    ensures g.adjusted == old(g.adjusted) && g.pk == old(g.pk)
    ensures old(g.LedgerBalanced()) && reply.Done? ==> g.LedgerBalanced()
  {
    if !UserModels.IsAdministrator(p) {
      return Forbidden;
    }
    var errs := Collect([("verified", if verified.None? then Some(Required) else None),
                         ("verification_notes", TextCheck(notes))]);
    if errs != [] {
      return Rejected(errs);
    }
    var check := ValidateVerification(Some(g.sessions[i]), g.Row(), verified.value);
    if check.Some? {
      return Rejected(NonField(check));
    }
    ghost var r0, ss0 := g.Row(), g.sessions;
    var changed, err;
    var heading;
    if verified.value {
      changed, err := g.VerifySession(i, admin, c);
      if !changed {
        return Refused(AlreadyVerified);
      }
      heading := "Verification notes: ";
    } else {
      changed, err := g.UnverifySession(i);
      if !changed {
        return Refused(NotVerified);
      }
      heading := "Unverification notes: ";
    }
    if err.Some? {
      return Crashed(err.value);
    }
    if notes.Given? && notes.text != [] {
      var s := g.sessions[i].(notes := g.sessions[i].notes + NoteLine(c.stamp, heading + notes.text));
      err := g.SaveSession(Some(i), s);
    }
    reply := ReplyOf(err);
  }
}
