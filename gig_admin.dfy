/** The gig admin (gigs/admin.py): the bulk lifecycle actions and the
    decisions behind the progress and due-status columns. */
module GigAdmin {
  import opened Wrappers
  import opened GigModels

  // ------------------------------------------------------ bulk actions

  /** The five bulk lifecycle actions of the gig list. */
  datatype BulkAction = StartAll | CompleteAll | HoldAll | ResumeAll | CancelAll

  /** The status filter each action puts on the queryset it loops over. */
  predicate Selected(a: BulkAction, s: Status) {
    match a
    case StartAll => s == Pending
    case CompleteAll => s == Active
    case HoldAll => s == Active
    case ResumeAll => s == OnHold
    case CancelAll => s != Completed && s != Cancelled
  }

  /** The lifecycle call each action makes on a selected gig. */
  function Apply(a: BulkAction, r: GigRow, c: Clock): (s: Saved)
    requires Selected(a, r.status)
    ensures s.err.None? ==> s.row.status == match a
      case StartAll => Active
      case CompleteAll => Completed
      case HoldAll => OnHold
      case ResumeAll => Active
      case CancelAll => Cancelled
    ensures s.err.Some? ==> s.row == r
  {
    match a
    case StartAll => Start(r, c)
    case CompleteAll => Complete(r, c)
    case HoldAll => Hold(r, "Put on hold via admin action", c)
    case ResumeAll => Resume(r, c)
    case CancelAll => Cancel(r, "Cancelled via admin action", c)
  }

  /** The rows after a bulk action, the count it reports, and the error that
      ends it: a ValidationError from save() aborts the loop with the earlier
      gigs already saved, and no count is reported. */
  datatype Bulk = Bulk(rows: seq<GigRow>, updated: nat, err: Option<SaveError>)

  /** Number of rows the action's filter selects. */
  function CountSelected(a: BulkAction, rows: seq<GigRow>): (n: nat)
    ensures n <= |rows|
  {
    if rows == [] then 0
    else CountSelected(a, rows[..|rows| - 1]) + (if Selected(a, rows[|rows| - 1].status) then 1 else 0)
  }

  /** A bulk action over rows, in order.  Unselected rows are left alone;
      when it runs to the end, every selected row has been through the
      lifecycle call and the count is the number of rows selected. */
  function BulkRun(a: BulkAction, rows: seq<GigRow>, c: Clock): (b: Bulk)
    ensures |b.rows| == |rows|
  {
    if rows == [] then Bulk([], 0, None)
    else
      var n := |rows| - 1;
      var b := BulkRun(a, rows[..n], c);
      var r := rows[n];
      if b.err.Some? then Bulk(b.rows + [r], b.updated, b.err)
      else if !Selected(a, r.status) then Bulk(b.rows + [r], b.updated, None)
      else
        var s := Apply(a, r, c);
        Bulk(b.rows + [s.row], if s.err.None? then b.updated + 1 else b.updated, s.err)
  }

  /** Unselected rows are left alone; when the run goes to the end, every
      selected row has been through the lifecycle call and the count is the
      number of rows selected. */
  lemma {:induction false} BulkRunEffect(a: BulkAction, rows: seq<GigRow>, c: Clock)
    ensures forall k :: 0 <= k < |rows| && !Selected(a, rows[k].status) ==> BulkRun(a, rows, c).rows[k] == rows[k]
    ensures BulkRun(a, rows, c).err.None? ==> BulkRun(a, rows, c).updated == CountSelected(a, rows)
    ensures BulkRun(a, rows, c).err.None? ==> forall k :: 0 <= k < |rows| && Selected(a, rows[k].status) ==>
      Apply(a, rows[k], c) == Saved(BulkRun(a, rows, c).rows[k], None)
  {
    if rows != [] {
      var n := |rows| - 1;
      var p, r := BulkRun(a, rows[..n], c), rows[n];
      BulkRunEffect(a, rows[..n], c);
      var last := if p.err.Some? || !Selected(a, r.status) then r else Apply(a, r, c).row;
      var b := BulkRun(a, rows, c);
      assert b.rows == p.rows + [last];
      forall k | 0 <= k < n
        ensures rows[..n][k] == rows[k] && b.rows[k] == p.rows[k]
      {
      }
    }
  }

  /** Once the action fails on a row, the rows after it are untouched. */
  lemma {:induction false} BulkRunStopsAtError(a: BulkAction, rows: seq<GigRow>, c: Clock)
    ensures var b := BulkRun(a, rows, c);
      b.err.Some? ==> exists k :: (0 <= k < |rows| && Selected(a, rows[k].status)
        && Apply(a, rows[k], c).err == b.err && b.rows[k..] == rows[k..])
  {
    if rows != [] {
      var n := |rows| - 1;
      var p := BulkRun(a, rows[..n], c);
      BulkRunStopsAtError(a, rows[..n], c);
      var b := BulkRun(a, rows, c);
      if p.err.Some? {
        var k :| 0 <= k < n && Selected(a, rows[..n][k].status)
          && Apply(a, rows[..n][k], c).err == p.err && p.rows[k..] == rows[..n][k..];
        assert b.rows[k..] == p.rows[k..] + [rows[n]];
        assert rows[k..] == rows[..n][k..] + [rows[n]];
      } else if b.err.Some? {
        assert b.rows[n..] == [rows[n]];
      }
    }
  }

  /** The bulk complete leaves on-hold gigs alone, though complete_gig and
      the complete view accept them. */
  lemma BulkCompleteSkipsOnHold(rows: seq<GigRow>, c: Clock, k: nat)
    requires k < |rows| && rows[k].status == OnHold
    ensures BulkRun(CompleteAll, rows, c).rows[k] == rows[k]
    ensures Complete(rows[k], c).err.None? ==> Complete(rows[k], c).row.status == Completed
  {
    BulkRunEffect(CompleteAll, rows, c);
  }

  /** The bulk start starts a pending gig that has no tutor, which the start
      view refuses. */
  lemma BulkStartIgnoresTutor(r: GigRow, c: Clock)
    requires r.status == Pending && r.tutor.None? && Consistent(r) && r.actualEnd.None?
    ensures BulkRun(StartAll, [r], c).rows == [r.(status := Active, actualStart := Some(c.today))]
    ensures BulkRun(StartAll, [r], c).updated == 1
  {
    assert [r][..0] == [];
  }

  /** The rows of a list of gigs. */
  function Rows(gigs: seq<Gig>): (rs: seq<GigRow>)
    reads set g | g in gigs
    ensures |rs| == |gigs| && forall k :: 0 <= k < |gigs| ==> rs[k] == gigs[k].Row()
  {
    seq(|gigs|, k requires 0 <= k < |gigs| reads set g | g in gigs => gigs[k].Row())
  }

  /** One selected gig through the action's lifecycle call. */
  method Step(a: BulkAction, g: Gig, c: Clock) returns (e: Option<SaveError>)
    requires Selected(a, g.status)
    modifies g
    ensures Apply(a, old(g.Row()), c) == Saved(g.Row(), e)
  {
    match a {
      case StartAll => e := g.StartGig(c);
      case CompleteAll => e := g.CompleteGig(c);
      case HoldAll => e := g.PutOnHold("Put on hold via admin action", c);
      case ResumeAll => e := g.ResumeGig(c);
      case CancelAll => e := g.CancelGig("Cancelled via admin action", c);
    }
  }

  /** The admin action's loop over the selected gigs, counting each one it
      updates. */
  method RunBulk(a: BulkAction, gigs: seq<Gig>, c: Clock) returns (updated: nat, err: Option<SaveError>)
    requires forall i, j :: 0 <= i < j < |gigs| ==> gigs[i] != gigs[j]
    modifies set g | g in gigs
    ensures BulkRun(a, old(Rows(gigs)), c) == Bulk(Rows(gigs), updated, err)
  {
    ghost var rows := Rows(gigs);
    ghost var done: seq<GigRow> := [];
    updated, err := 0, None;
    var i := 0;
    while i < |gigs| && err.None?
      invariant 0 <= i <= |gigs| && |done| == i
      invariant forall k :: 0 <= k < i ==> gigs[k].Row() == done[k]
      invariant forall k :: i <= k < |gigs| ==> gigs[k].Row() == rows[k]
      invariant BulkRun(a, rows[..i], c) == Bulk(done, updated, err)
    {
      var g := gigs[i];
      assert forall k :: 0 <= k < |gigs| && k != i ==> gigs[k] != g;
      var selected := Selected(a, g.status);
      var e: Option<SaveError> := None;
      if selected {
        e := Step(a, g, c);
      }
      BulkRunExtend(a, rows, i, c, g.Row(), e);
      if selected && e.None? {
        updated := updated + 1;
      }
      err := e;
      done := done + [g.Row()];
      i := i + 1;
    }
    BulkRunFinished(a, rows, i, c, done, Rows(gigs), updated, err);
  }

  /** Where the loop stops, the rows so far and the untouched rest are the
      whole run. */
  lemma BulkRunFinished(a: BulkAction, rows: seq<GigRow>, i: nat, c: Clock, done: seq<GigRow>, final: seq<GigRow>,
                        updated: nat, err: Option<SaveError>)
    requires i <= |rows| && |done| == i && |final| == |rows|
    requires forall k :: 0 <= k < i ==> final[k] == done[k]
    requires forall k :: i <= k < |rows| ==> final[k] == rows[k]
    requires BulkRun(a, rows[..i], c) == Bulk(done, updated, err)
    requires i == |rows| || err.Some?
    ensures BulkRun(a, rows, c) == Bulk(final, updated, err)
  {
    if i < |rows| {
      BulkRunSkipsTail(a, rows, i, c);
    } else {
      assert rows[..i] == rows;
    }
    Spliced(final, done, rows, i);
  }

  /** A sequence that agrees with done below i and with rows from i on. */
  lemma Spliced(now: seq<GigRow>, done: seq<GigRow>, rows: seq<GigRow>, i: nat)
    requires |now| == |rows| && |done| == i <= |rows|
    requires forall k :: 0 <= k < i ==> now[k] == done[k]
    requires forall k :: i <= k < |rows| ==> now[k] == rows[k]
    ensures now == done + rows[i..]
  {
  }

  /** One more row through a run that has not failed. */
  lemma BulkRunExtend(a: BulkAction, rows: seq<GigRow>, i: nat, c: Clock, row: GigRow, e: Option<SaveError>)
    requires i < |rows| && BulkRun(a, rows[..i], c).err.None?
    requires if Selected(a, rows[i].status) then Apply(a, rows[i], c) == Saved(row, e) else row == rows[i] && e.None?
    ensures var b := BulkRun(a, rows[..i], c);
      BulkRun(a, rows[..i + 1], c) == Bulk(b.rows + [row], if Selected(a, rows[i].status) && e.None? then b.updated + 1 else b.updated, e)
  {
    assert rows[..i + 1][..i] == rows[..i];
  }

  /** After an error in the first n rows, the rest are carried over as they are. */
  lemma {:induction false} BulkRunSkipsTail(a: BulkAction, rows: seq<GigRow>, n: nat, c: Clock)
    requires n <= |rows| && BulkRun(a, rows[..n], c).err.Some?
    ensures BulkRun(a, rows, c) == BulkRun(a, rows[..n], c).(rows := BulkRun(a, rows[..n], c).rows + rows[n..])
    decreases |rows| - n
  {
    if n < |rows| {
      assert rows[..|rows| - 1][..n] == rows[..n];
      BulkRunSkipsTail(a, rows[..|rows| - 1], n, c);
      assert rows[n..] == rows[..|rows| - 1][n..] + [rows[|rows| - 1]];
    } else {
      assert rows[..n] == rows;
    }
  }

  // ---------------------------------------------------------- displays

  datatype Colour = Green | Orange | Red

  /** progress_display: the bar's colour for a completion in hundredths of
      a percent. */
  function ProgressColour(percentage: int): (c: Colour)
    ensures c == Green <==> percentage >= 8000
    ensures c == Orange <==> 5000 <= percentage < 8000
    ensures c == Red <==> percentage < 5000
  {
    if percentage >= 8000 then Green else if percentage >= 5000 then Orange else Red
  }

  function Rank(c: Colour): nat {
    match c
    case Red => 0
    case Orange => 1
    case Green => 2
  }

  /** More progress never gives a worse colour. */
  lemma ProgressColourMonotone(p: int, q: int)
    requires p <= q
    ensures Rank(ProgressColour(p)) <= Rank(ProgressColour(q))
  {
  }

  /** A gig whose hours are all used up shows a red bar, since its completion
      reads 0. */
  lemma ConsumedGigShowsRed(r: GigRow)
    requires r.totalHours > 0 && r.remaining == 0
    ensures ProgressColour(Completion(r)) == Red
  {
    ConsumedGigReportsNoProgress(r);
  }

  /** What overdue_status_display shows. */
  datatype DueStatus = Overdue | DaysLeft(days: nat, colour: Colour) | NotApplicable

  function Due(status: Status, endDate: Option<int>, today: int): (d: DueStatus)
    ensures d.Overdue? <==> IsOverdue(status, endDate, today)
    ensures d.NotApplicable? <==> endDate.None?
    ensures d.DaysLeft? ==> (DaysRemaining(endDate, today) == Some(d.days)
      && (d.colour == Orange <==> d.days <= 7) && (d.colour == Green <==> d.days > 7))
  {
    if IsOverdue(status, endDate, today) then Overdue
    else
      match DaysRemaining(endDate, today)
      case None => NotApplicable
      case Some(n) => DaysLeft(n, if n <= 7 then Orange else Green)
  }

  /** Only active gigs are reported overdue: a gig on hold past its end date
      shows 0 days remaining. */
  lemma PastEndOnHoldShowsNoDays(endDate: int, today: int)
    requires today > endDate
    ensures Due(OnHold, Some(endDate), today) == DaysLeft(0, Orange)
    ensures Due(Active, Some(endDate), today) == Overdue
  {
  }
}
