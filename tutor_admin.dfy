/** The tutor admin (tutors/admin.py): the four bulk status actions and the
    colour of the status column. */
module TutorAdmin {
  import opened Wrappers
  import opened TutorModels
  import GigModels
  import UserModels
  import GigSerializers
  import TutorViews

  // ------------------------------------------------------ bulk actions

  datatype TutorAction = ActivateAll | DeactivateAll | BlockAll | UnblockAll

  /** The test each action makes on a tutor before changing it. */
  predicate Selected(a: TutorAction, r: TutorRow) {
    match a
    case ActivateAll => !r.isActive && !r.isBlocked
    case DeactivateAll => r.isActive
    case BlockAll => !r.isBlocked
    case UnblockAll => r.isBlocked
  }

  /** The flag helper each action calls on a selected tutor. */
  function Apply(a: TutorAction, r: TutorRow): (s: TutorSaved)
    ensures s.err == TutorClean(match a
      case ActivateAll => r.(isActive := true)
      case DeactivateAll => r.(isActive := false)
      case BlockAll => r.(isBlocked := true, isActive := false)
      case UnblockAll => r.(isBlocked := false))
    ensures s.err.Some? ==> s.row == r
    ensures s.err.None? && Selected(a, r) ==> !Selected(a, s.row)
  {
    match a
    case ActivateAll => Activated(r)
    case DeactivateAll => Deactivated(r)
    case BlockAll => Blocked(r)
    case UnblockAll => Unblocked(r)
  }

  /** The rows after a bulk action, the count it reports and the error that
      ends it: clean() raising inside the loop aborts the action with the
      earlier tutors already saved, and no count is reported. */
  datatype Bulk = Bulk(rows: seq<TutorRow>, updated: nat, err: Option<TutorError>)

  function CountSelected(a: TutorAction, rows: seq<TutorRow>): (n: nat)
    ensures n <= |rows|
  {
    if rows == [] then 0
    else CountSelected(a, rows[..|rows| - 1]) + (if Selected(a, rows[|rows| - 1]) then 1 else 0)
  }

  /** A bulk action over rows, in order.  Unselected rows are left alone;
      when it runs to the end, every selected row has been through the flag
      helper, no row is still selected, and the count is the number of rows
      that were. */
  function BulkRun(a: TutorAction, rows: seq<TutorRow>): (b: Bulk)
    ensures |b.rows| == |rows|
  {
    if rows == [] then Bulk([], 0, None)
    else
      var n := |rows| - 1;
      var b := BulkRun(a, rows[..n]);
      var r := rows[n];
      if b.err.Some? then Bulk(b.rows + [r], b.updated, b.err)
      else if !Selected(a, r) then Bulk(b.rows + [r], b.updated, None)
      else
        var s := Apply(a, r);
        Bulk(b.rows + [s.row], if s.err.None? then b.updated + 1 else b.updated, s.err)
  }

  /** Unselected rows are left alone; when the run goes to the end, every
      selected row has been through the flag helper and the count is the
      number of rows that were selected. */
  lemma {:induction false} BulkRunEffect(a: TutorAction, rows: seq<TutorRow>)
    ensures forall k :: 0 <= k < |rows| && !Selected(a, rows[k]) ==> BulkRun(a, rows).rows[k] == rows[k]
    ensures BulkRun(a, rows).err.None? ==> BulkRun(a, rows).updated == CountSelected(a, rows)
    ensures BulkRun(a, rows).err.None? ==> forall k :: 0 <= k < |rows| && Selected(a, rows[k]) ==>
      Apply(a, rows[k]) == TutorSaved(BulkRun(a, rows).rows[k], None)
  {
    if rows != [] {
      var n := |rows| - 1;
      var p, r := BulkRun(a, rows[..n]), rows[n];
      BulkRunEffect(a, rows[..n]);
      var b := BulkRun(a, rows);
      if p.err.Some? {
        assert b == Bulk(p.rows + [r], p.updated, p.err);
      } else if !Selected(a, r) {
        assert b == Bulk(p.rows + [r], p.updated, None);
      } else {
        var s := Apply(a, r);
        assert b == Bulk(p.rows + [s.row], if s.err.None? then p.updated + 1 else p.updated, s.err);
      }
      forall k | 0 <= k < n
        ensures rows[..n][k] == rows[k] && b.rows[k] == p.rows[k]
      {
      }
    }
  }

  /** When the run goes to the end no row is still selected. */
  lemma BulkRunLeavesNoneSelected(a: TutorAction, rows: seq<TutorRow>)
    requires BulkRun(a, rows).err.None?
    ensures forall k :: 0 <= k < |rows| ==> !Selected(a, BulkRun(a, rows).rows[k])
  {
    BulkRunEffect(a, rows);
  }

  /** When clean() refuses no tutor, the action never fails. */
  lemma {:induction false} BulkRunSucceedsOnCleanRows(a: TutorAction, rows: seq<TutorRow>)
    requires forall k :: 0 <= k < |rows| ==> TutorClean(rows[k]).None?
    ensures BulkRun(a, rows).err.None?
  {
    if rows != [] {
      BulkRunSucceedsOnCleanRows(a, rows[..|rows| - 1]);
    }
  }

  /** The bulk deactivate deactivates an active tutor that still has open
      gigs, which the deactivate view refuses. */
  lemma BulkDeactivateIgnoresGigs(p: UserModels.Principal, r: TutorRow, gigs: seq<GigModels.Status>, reason: GigSerializers.TextInput)
    requires UserModels.IsAdministrator(p) && r.isActive && TutorClean(r).None?
    requires TutorViews.OpenGigCount(gigs) > 0
    ensures !BulkRun(DeactivateAll, [r]).rows[0].isActive
    ensures TutorViews.DeactivateOutcome(p, r, gigs, reason).reply == TutorViews.Refused(TutorViews.HasOpenGigs(TutorViews.OpenGigCount(gigs)))
  {
    assert [r][..0] == [];
  }

  /** The rows of a list of tutors. */
  function Rows(tutors: seq<Tutor>): (rs: seq<TutorRow>)
    reads set t | t in tutors
    ensures |rs| == |tutors| && forall k :: 0 <= k < |tutors| ==> rs[k] == tutors[k].Row()
  {
    seq(|tutors|, k requires 0 <= k < |tutors| reads set t | t in tutors => tutors[k].Row())
  }

  /** One selected tutor through the action's flag helper. */
  method Step(a: TutorAction, t: Tutor) returns (e: Option<TutorError>)
    modifies t
    ensures Apply(a, old(t.Row())) == TutorSaved(t.Row(), e)
  {
    match a {
      case ActivateAll => e := t.Activate();
      case DeactivateAll => e := t.Deactivate();
      case BlockAll => e := t.Block();
      case UnblockAll => e := t.Unblock();
    }
  }

  /** The admin action's loop over the selected tutors. */
  method RunBulk(a: TutorAction, tutors: seq<Tutor>) returns (updated: nat, err: Option<TutorError>)
    requires forall i, j :: 0 <= i < j < |tutors| ==> tutors[i] != tutors[j]
    modifies set t | t in tutors
    ensures BulkRun(a, old(Rows(tutors))) == Bulk(Rows(tutors), updated, err)
  {
    ghost var rows := Rows(tutors);
    ghost var done: seq<TutorRow> := [];
    updated, err := 0, None;
    var i := 0;
    while i < |tutors| && err.None?
      invariant 0 <= i <= |tutors| && |done| == i
      invariant forall k :: 0 <= k < i ==> tutors[k].Row() == done[k]
      invariant forall k :: i <= k < |tutors| ==> tutors[k].Row() == rows[k]
      invariant BulkRun(a, rows[..i]) == Bulk(done, updated, err)
    {
      var t := tutors[i];
      assert forall k :: 0 <= k < |tutors| && k != i ==> tutors[k] != t;
      var selected := Selected(a, t.Row());
      var e: Option<TutorError> := None;
      if selected {
        e := Step(a, t);
      }
      assert if Selected(a, rows[i]) then Apply(a, rows[i]) == TutorSaved(t.Row(), e) else t.Row() == rows[i] && e.None?;
      BulkRunExtend(a, rows, i, t.Row(), e);
      if selected && e.None? {
        updated := updated + 1;
      }
      err := e;
      done := done + [t.Row()];
      i := i + 1;
    }
    BulkRunFinished(a, rows, i, done, Rows(tutors), updated, err);
  }

  /** Where the loop stops, the rows so far and the untouched rest are the
      whole run. */
  lemma BulkRunFinished(a: TutorAction, rows: seq<TutorRow>, i: nat, done: seq<TutorRow>, final: seq<TutorRow>,
                        updated: nat, err: Option<TutorError>)
    requires i <= |rows| && |done| == i && |final| == |rows|
    requires forall k :: 0 <= k < i ==> final[k] == done[k]
    requires forall k :: i <= k < |rows| ==> final[k] == rows[k]
    requires BulkRun(a, rows[..i]) == Bulk(done, updated, err)
    requires i == |rows| || err.Some?
    ensures BulkRun(a, rows) == Bulk(final, updated, err)
  {
    if i < |rows| {
      BulkRunSkipsTail(a, rows, i);
    } else {
      assert rows[..i] == rows;
    }
    Spliced(final, done, rows, i);
  }

  /** A sequence that agrees with done below i and with rows from i on. */
  lemma Spliced(now: seq<TutorRow>, done: seq<TutorRow>, rows: seq<TutorRow>, i: nat)
    requires |now| == |rows| && |done| == i <= |rows|
    requires forall k :: 0 <= k < i ==> now[k] == done[k]
    requires forall k :: i <= k < |rows| ==> now[k] == rows[k]
    ensures now == done + rows[i..]
  {
  }

  /** One more row through a run that has not failed. */
  lemma BulkRunExtend(a: TutorAction, rows: seq<TutorRow>, i: nat, row: TutorRow, e: Option<TutorError>)
    requires i < |rows| && BulkRun(a, rows[..i]).err.None?
    requires if Selected(a, rows[i]) then Apply(a, rows[i]) == TutorSaved(row, e) else row == rows[i] && e.None?
    ensures var b := BulkRun(a, rows[..i]);
      BulkRun(a, rows[..i + 1]) == Bulk(b.rows + [row], if Selected(a, rows[i]) && e.None? then b.updated + 1 else b.updated, e)
  {
    assert rows[..i + 1][..i] == rows[..i];
  }

  /** After an error in the first n rows, the rest are carried over as they are. */
  lemma {:induction false} BulkRunSkipsTail(a: TutorAction, rows: seq<TutorRow>, n: nat)
    requires n <= |rows| && BulkRun(a, rows[..n]).err.Some?
    ensures BulkRun(a, rows) == BulkRun(a, rows[..n]).(rows := BulkRun(a, rows[..n]).rows + rows[n..])
    decreases |rows| - n
  {
    if n < |rows| {
      assert rows[..|rows| - 1][..n] == rows[..n];
      BulkRunSkipsTail(a, rows[..|rows| - 1], n);
      assert rows[n..] == rows[..|rows| - 1][n..] + [rows[|rows| - 1]];
    } else {
      assert rows[..n] == rows;
    }
  }

  // ----------------------------------------------------------- display

  datatype Colour = Green | Orange | Red

  /** status_display: green for "Active", red for "Blocked", orange for the
      rest. */
  function StatusColour(r: TutorRow): (c: Colour)
    ensures c == Red <==> r.isBlocked
    ensures c == Green <==> !r.isBlocked && r.isActive
    ensures c == Orange <==> !r.isBlocked && !r.isActive
  {
    var s := StatusLabel(r);
    StatusLabelCases(r);
    if s == "Active" then Green else if s == "Blocked" then Red else Orange
  }
}
