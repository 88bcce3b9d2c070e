/** The tutor record and its two status flags (tutors/models.py).

    save() runs clean(), which refuses a row without e-mail address or phone
    number and otherwise normalises the address and the names; the flag
    helpers (activate, deactivate, block, unblock) all go through save(), so
    they normalise too. */
module TutorModels {
  import opened Wrappers
  import opened Text
  import UserModels

  /** The ValidationErrors raised by Tutor.clean. */
  datatype TutorError = EmailMissing | PhoneMissing

  datatype TutorRow = TutorRow(
    firstName: string,
    lastName: string,
    phone: string,
    email: string,
    isActive: bool,
    isBlocked: bool)

  /** The stored row after a save, and the error clean() raised, if any. */
  datatype TutorSaved = TutorSaved(row: TutorRow, err: Option<TutorError>)

  /** tutor_id: "TUT-" and the primary key as four or more digits. */
  function TutorId(pk: Option<nat>): (s: string)
    ensures StartsWith(s, "TUT-") && |s| >= 8
  {
    var s := "TUT-" + (if pk.Some? && pk.value != 0 then Padded(pk.value, 4) else "XXXX");
    assert s[..4] == "TUT-";
    s
  }

  /** full_name: first and last name joined by a blank, then stripped. */
  function FullName(r: TutorRow): string {
    Strip(r.firstName + " " + r.lastName)
  }

  /** For names without surrounding blanks the full name is exactly
      "first last". */
  lemma FullNameOfStrippedNames(r: TutorRow)
    requires r.firstName != [] && r.lastName != []
    requires Strip(r.firstName) == r.firstName && Strip(r.lastName) == r.lastName
    ensures FullName(r) == r.firstName + " " + r.lastName
  {
    var s := r.firstName + " " + r.lastName;
    StripEnds(r.firstName);
    StripEnds(r.lastName);
    assert s[0] == r.firstName[0];
    assert s[|s| - 1] == r.lastName[|r.lastName| - 1];
    StripUnpadded(s);
  }

  /** status. */
  function StatusLabel(r: TutorRow): string {
    if r.isBlocked then "Blocked" else if r.isActive then "Active" else "Inactive"
  }

  /** The status names the block first: a blocked tutor is "Blocked" whatever
      is_active says. */
  lemma StatusLabelCases(r: TutorRow)
    ensures StatusLabel(r) == "Blocked" <==> r.isBlocked
    ensures StatusLabel(r) == "Active" <==> !r.isBlocked && r.isActive
    ensures StatusLabel(r) == "Inactive" <==> !r.isBlocked && !r.isActive
  {
  }

  /** A name as clean() leaves it. */
  function NormalName(s: string): string {
    Title(Strip(s))
  }

  /** The row as clean() normalises it. */
  function Normalised(r: TutorRow): TutorRow {
    r.(email := UserModels.NormalEmail(r.email),
       firstName := NormalName(r.firstName), lastName := NormalName(r.lastName))
  }

  /** Tutor.clean's checks. */
  function TutorClean(r: TutorRow): (e: Option<TutorError>)
    ensures e.None? <==> r.email != [] && r.phone != []
  {
    if r.email == [] then Some(EmailMissing)
    else if r.phone == [] then Some(PhoneMissing)
    else None
  }

  /** save() of the candidate over the stored row prev. */
  function SaveTutor(prev: TutorRow, cand: TutorRow): (s: TutorSaved)
    ensures s.err == TutorClean(cand)
    ensures s.err.Some? ==> s.row == prev
    ensures s.err.None? ==> s.row == Normalised(cand)
  {
    match TutorClean(cand)
    case Some(e) => TutorSaved(prev, Some(e))
    case None => TutorSaved(Normalised(cand), None)
  }

  /** The normal form clean() establishes. */
  predicate IsNormal(r: TutorRow) {
    Normalised(r) == r
  }

  /** Every row save() writes is in normal form, so saving it again (as each
      flag helper does) changes nothing but the flags. */
  lemma SavedTutorIsNormal(prev: TutorRow, cand: TutorRow)
    requires SaveTutor(prev, cand).err.None?
    ensures IsNormal(SaveTutor(prev, cand).row)
  {
    LowerStripIdempotent(cand.email);
    TitleStripIdempotent(cand.firstName);
    TitleStripIdempotent(cand.lastName);
  }

  /** deactivate. */
  function Deactivated(r: TutorRow): TutorSaved {
    SaveTutor(r, r.(isActive := false))
  }

  /** activate. */
  function Activated(r: TutorRow): TutorSaved {
    SaveTutor(r, r.(isActive := true))
  }

  /** block: blocked and inactive. */
  function Blocked(r: TutorRow): TutorSaved {
    SaveTutor(r, r.(isBlocked := true, isActive := false))
  }

  /** unblock: clears the block only. */
  function Unblocked(r: TutorRow): TutorSaved {
    SaveTutor(r, r.(isBlocked := false))
  }

  /** On a row in normal form each helper changes exactly its flags, and it
      fails exactly when clean() refuses the row. */
  lemma FlagHelpersOnNormalRow(r: TutorRow)
    requires IsNormal(r)
    ensures Activated(r).err == TutorClean(r) && Deactivated(r).err == TutorClean(r)
    ensures Blocked(r).err == TutorClean(r) && Unblocked(r).err == TutorClean(r)
    ensures TutorClean(r).None? ==>
      && Activated(r).row == r.(isActive := true)
      && Deactivated(r).row == r.(isActive := false)
      && Blocked(r).row == r.(isBlocked := true, isActive := false)
      && Unblocked(r).row == r.(isBlocked := false)
  {
  }

  /** Blocking then unblocking leaves the tutor "Inactive", not as it was. */
  lemma UnblockLeavesInactive(r: TutorRow)
    requires TutorClean(r).None? && UserModels.NormalEmail(r.email) != []
    ensures Blocked(r).err.None? && StatusLabel(Blocked(r).row) == "Blocked"
    ensures var u := Unblocked(Blocked(r).row);
      u.err.None? && !u.row.isActive && StatusLabel(u.row) == "Inactive"
  {
    SavedTutorIsNormal(r, r.(isBlocked := true, isActive := false));
  }

  // -------------------------------------------------------------- Tutor

  class Tutor {
    var pk: nat
    var firstName: string
    var lastName: string
    var phone: string
    var email: string
    var isActive: bool
    var isBlocked: bool

    function Row(): TutorRow
      reads this
    {
      TutorRow(firstName, lastName, phone, email, isActive, isBlocked)
    }

    constructor Load(pk: nat, row: TutorRow)
      ensures this.pk == pk && Row() == row
    {
      this.pk := pk;
      firstName, lastName, phone, email := row.firstName, row.lastName, row.phone, row.email;
      isActive, isBlocked := row.isActive, row.isBlocked;
    }

    /** save(): clean() normalises the object, then the row is written. */
    method Save(cand: TutorRow) returns (err: Option<TutorError>)
      modifies this
      ensures SaveTutor(old(Row()), cand) == TutorSaved(Row(), err) && pk == old(pk)
    {
      err := TutorClean(cand);
      if err.None? {
        var n := Normalised(cand);
        firstName, lastName, phone, email := n.firstName, n.lastName, n.phone, n.email;
        isActive, isBlocked := n.isActive, n.isBlocked;
      }
    }

    method Deactivate() returns (err: Option<TutorError>)
      modifies this
      ensures Deactivated(old(Row())) == TutorSaved(Row(), err) && pk == old(pk)
    {
      err := Save(Row().(isActive := false));
    }

    method Activate() returns (err: Option<TutorError>)
      modifies this
      ensures Activated(old(Row())) == TutorSaved(Row(), err) && pk == old(pk)
    {
      err := Save(Row().(isActive := true));
    }

    method Block() returns (err: Option<TutorError>)
      modifies this
      ensures Blocked(old(Row())) == TutorSaved(Row(), err) && pk == old(pk)
    {
      err := Save(Row().(isBlocked := true, isActive := false));
    }

    method Unblock() returns (err: Option<TutorError>)
      modifies this
      ensures Unblocked(old(Row())) == TutorSaved(Row(), err) && pk == old(pk)
    {
      err := Save(Row().(isBlocked := false));
    }
  }
}
