/** The gig record, its lifecycle and the hour ledger kept by its sessions
    (gigs/models.py).

    Hours and money are integers counting hundredths (2-place decimals), dates
    are day numbers and instants are plain integers.  Every lifecycle method of
    the source mutates the gig and then calls save(), which runs clean() first;
    when clean() raises, nothing reaches the database and the request ends in an
    error.  The model therefore describes each operation by the row that is
    persisted afterwards together with the error, if any. */
module GigModels {
  import opened Wrappers
  import opened Text

  datatype Status = Pending | Active | OnHold | Completed | Cancelled | Expired

  /** The readings of timezone.now() an operation uses: the current date, the
      current instant, and the instant rendered as "%Y-%m-%d %H:%M" for notes. */
  datatype Clock = Clock(today: int, instant: int, stamp: string)

  /** The ValidationErrors raised by Gig.clean and GigSession.clean. */
  datatype SaveError =
    | RemainingExceedsTotal
    | FeeBelowRemuneration
    | StartAfterEnd
    | ActualStartAfterActualEnd
    | SessionStartNotBeforeEnd

  /** The columns of a gig row that the application logic reads or writes. */
  datatype GigRow = GigRow(
    tutor: Option<nat>,
    status: Status,
    remuneration: int,
    clientFee: int,
    totalHours: int,
    remaining: int,
    startDate: int,
    endDate: int,
    actualStart: Option<int>,
    actualEnd: Option<int>,
    notes: string)

  /** A GigSession row; verifiedBy is the verifying user's primary key. */
  datatype Session = Session(
    pk: nat,
    date: int,
    startTime: int,
    endTime: int,
    hours: int,
    attendance: bool,
    notes: string,
    verified: bool,
    verifiedBy: Option<nat>,
    verifiedAt: Option<int>)

  /** The persisted row after a save, and the error clean() raised, if any. */
  datatype Saved = Saved(row: GigRow, err: Option<SaveError>)

  /** The gig row and its sessions after a session save, and the error raised. */
  datatype Ledger = Ledger(row: GigRow, sessions: seq<Session>, err: Option<SaveError>)

  // ------------------------------------------------------------------ ids

  /** gig_id: "GIG-" and the primary key as four or more digits; "GIG-XXXX"
      while the row has no key. */
  function GigId(pk: Option<nat>): (s: string)
    ensures StartsWith(s, "GIG-") && |s| >= 8
  {
    var s := "GIG-" + (if pk.Some? && pk.value != 0 then Padded(pk.value, 4) else "XXXX");
    assert s[..4] == "GIG-";
    s
  }

  /** session_id: "SES-" and the primary key as four or more digits. */
  function SessionId(pk: Option<nat>): (s: string)
    ensures StartsWith(s, "SES-") && |s| >= 8
  {
    var s := "SES-" + (if pk.Some? && pk.value != 0 then Padded(pk.value, 4) else "XXXX");
    assert s[..4] == "SES-";
    s
  }

  // -------------------------------------------------------------- metrics

  /** Python's round(n / d) for a Decimal quotient: the nearest integer, ties
      to the even neighbour. */
  function RoundHalfEven(n: int, d: int): (q: int)
    requires d > 0
    ensures -d <= 2 * (n - q * d) <= d
    ensures 2 * (n - q * d) == d || 2 * (n - q * d) == -d ==> q % 2 == 0
  {
    var q0, r := n / d, n % d;
    assert n == q0 * d + r;
    assert n - (q0 + 1) * d == r - d;
    if 2 * r > d then q0 + 1
    else if 2 * r < d then q0
    else if q0 % 2 == 0 then q0
    else q0 + 1
  }

  /** hours_completed: total minus remaining, but 0 unless both are non-zero. */
  function HoursCompleted(r: GigRow): int {
    if r.totalHours != 0 && r.remaining != 0 then r.totalHours - r.remaining else 0
  }

  /** completion_percentage, in hundredths of a percent. */
  function Completion(r: GigRow): int {
    if r.totalHours > 0 then RoundHalfEven(HoursCompleted(r) * 10000, r.totalHours) else 0
  }

  /** hourly_rate_tutor, in hundredths per hour. */
  function HourlyRateTutor(r: GigRow): int {
    if r.totalHours > 0 then RoundHalfEven(r.remuneration * 100, r.totalHours) else 0
  }

  /** hourly_rate_client, in hundredths per hour. */
  function HourlyRateClient(r: GigRow): int {
    if r.totalHours > 0 then RoundHalfEven(r.clientFee * 100, r.totalHours) else 0
  }

  /** profit_margin: fee minus remuneration, but 0 unless both are non-zero. */
  function ProfitMargin(r: GigRow): int {
    if r.clientFee != 0 && r.remuneration != 0 then r.clientFee - r.remuneration else 0
  }

  /** profit_percentage, in hundredths of a percent. */
  function ProfitPercentage(r: GigRow): int {
    if r.clientFee > 0 then RoundHalfEven(ProfitMargin(r) * 10000, r.clientFee) else 0
  }

  /** is_overdue: an active gig whose end date lies before today. */
  predicate IsOverdue(status: Status, endDate: Option<int>, today: int) {
    status == Active && endDate.Some? && today > endDate.value
  }

  /** days_remaining: days until the end date, never negative; None without an end date. */
  function DaysRemaining(endDate: Option<int>, today: int): (d: Option<nat>)
    ensures d.Some? <==> endDate.Some?
    ensures d.Some? ==> d.value == if endDate.value >= today then endDate.value - today else 0
  {
    match endDate
    case None => None
    case Some(e) => Some(if e - today >= 0 then e - today else 0)
  }

  /** The metrics that divide answer 0 when their denominator is not positive. */
  lemma MetricsZeroGuarded(r: GigRow)
    ensures r.totalHours <= 0 ==> Completion(r) == 0 && HourlyRateTutor(r) == 0 && HourlyRateClient(r) == 0
    ensures r.clientFee <= 0 ==> ProfitPercentage(r) == 0
    ensures r.remaining == 0 ==> HoursCompleted(r) == 0
  {
  }

  /** Multiplying by a non-negative factor keeps the order. */
  lemma MulMonotone(a: int, b: int, d: int)
    requires a <= b && d >= 0
    ensures a * d <= b * d
  {
    assert b * d - a * d == (b - a) * d;
  }

  /** For a gig whose remaining hours lie within its total, the completion
      lies within 0..100 %. */
  lemma CompletionWithinRange(r: GigRow)
    requires 0 <= r.remaining <= r.totalHours && r.totalHours > 0
    ensures 0 <= Completion(r) <= 10000
  {
    var c := HoursCompleted(r);
    var n, d := c * 10000, r.totalHours;
    MulMonotone(c, d, 10000);
    var q := RoundHalfEven(n, d);
    if q < 0 {
      MulMonotone(q, -1, d);
    } else if q > 10000 {
      MulMonotone(10001, q, d);
    }
  }

  /** As written, a gig whose hours are all used up reports no hours completed
      and 0 % completion, because hours_completed treats a remaining of 0 as
      "nothing to compute". */
  lemma ConsumedGigReportsNoProgress(r: GigRow)
    requires r.totalHours > 0 && r.remaining == 0
    ensures HoursCompleted(r) == 0 && Completion(r) == 0
    ensures HoursCompletedIntended(r) == r.totalHours
  {
  }

  /** hours_completed as evidently intended: total minus remaining. */
  function HoursCompletedIntended(r: GigRow): int {
    r.totalHours - r.remaining
  }

  /** completion_percentage built on the intended hours_completed. */
  function CompletionIntended(r: GigRow): int {
    if r.totalHours > 0 then RoundHalfEven(HoursCompletedIntended(r) * 10000, r.totalHours) else 0
  }

  /** The two definitions agree except on a fully used-up gig, where the intended
      one reports 100 %: in particular for every gig complete_gig has completed. */
  lemma CompletionIntendedAgrees(r: GigRow, c: Clock)
    requires r.totalHours > 0
    ensures r.remaining != 0 ==> CompletionIntended(r) == Completion(r)
    ensures r.remaining == 0 ==> CompletionIntended(r) == 10000
    ensures Complete(r, c).err.None? && r.status in {Active, OnHold} ==>
      CompletionIntended(Complete(r, c).row) == 10000
  {
    var q := RoundHalfEven(r.totalHours * 10000, r.totalHours);
    assert r.totalHours * 10000 - 10000 * r.totalHours == 0;
    if q < 10000 {
      MulMonotone(q, 9999, r.totalHours);
    } else if q > 10000 {
      MulMonotone(10001, q, r.totalHours);
    }
  }

  /** As written, profit_margin reports 0 for a gig whose tutor is paid nothing,
      although the whole fee is profit. */
  lemma UnpaidTutorReportsNoProfit()
    ensures var r := GigRow(None, Active, 0, 10000, 1000, 1000, 0, 0, None, None, "");
      ProfitMargin(r) == 0 && ProfitMarginIntended(r) == 10000
  {
  }

  /** profit_margin as evidently intended: the fee less the remuneration. */
  function ProfitMarginIntended(r: GigRow): (m: int)
    ensures Consistent(r) ==> 0 <= m
    ensures r.clientFee != 0 && r.remuneration != 0 ==> m == ProfitMargin(r)
  {
    r.clientFee - r.remuneration
  }

  // ---------------------------------------------------------------- clean

  /** The invariants Gig.clean enforces on every saved row. */
  predicate Consistent(r: GigRow) {
    && r.remaining <= r.totalHours
    && r.clientFee >= r.remuneration
    && r.startDate <= r.endDate
    && (r.actualStart.Some? && r.actualEnd.Some? ==> r.actualStart.value <= r.actualEnd.value)
  }

  /** Gig.clean: the first violated rule, checked in the source's order. */
  function Clean(r: GigRow): (e: Option<SaveError>)
    ensures e.None? <==> Consistent(r)
    ensures e == Some(RemainingExceedsTotal) <==> r.remaining > r.totalHours
  {
    if r.remaining > r.totalHours then Some(RemainingExceedsTotal)
    else if r.clientFee < r.remuneration then Some(FeeBelowRemuneration)
    else if r.startDate > r.endDate then Some(StartAfterEnd)
    else if r.actualStart.Some? && r.actualEnd.Some? && r.actualStart.value > r.actualEnd.value then
      Some(ActualStartAfterActualEnd)
    else None
  }

  /** Gig.save applied to an in-memory candidate: the candidate is written when
      clean() accepts it, otherwise the previous row stays. */
  function Store(prev: GigRow, cand: GigRow): (s: Saved)
    ensures s.err.None? ==> s.row == cand && Consistent(cand)
    ensures s.err.Some? ==> s.row == prev
  {
    var e := Clean(cand);
    Saved(if e.None? then cand else prev, e)
  }

  /** One audit line appended to a notes field. */
  function NoteLine(stamp: string, text: string): string {
    "\n[" + stamp + "] " + text
  }

  // ------------------------------------------------------------ lifecycle

  /** start_gig. */
  function Start(r: GigRow, c: Clock): (s: Saved)
    ensures r.status != Pending ==> s == Saved(r, None)
    ensures r.status == Pending && s.err.None? ==>
      s.row == r.(status := Active, actualStart := Some(c.today))
  {
    if r.status == Pending then Store(r, r.(status := Active, actualStart := Some(c.today)))
    else Saved(r, None)
  }

  /** complete_gig. */
  function Complete(r: GigRow, c: Clock): (s: Saved)
    ensures r.status !in {Active, OnHold} ==> s == Saved(r, None)
    ensures r.status in {Active, OnHold} && s.err.None? ==>
      s.row == r.(status := Completed, actualEnd := Some(c.today), remaining := 0)
  {
    if r.status == Active || r.status == OnHold then
      Store(r, r.(status := Completed, actualEnd := Some(c.today), remaining := 0))
    else Saved(r, None)
  }

  /** The notes after an optional audit line: nothing is added for an empty text. */
  function NoteIf(notes: string, stamp: string, heading: string, reason: string): string {
    if reason != [] then notes + NoteLine(stamp, heading + reason) else notes
  }

  /** cancel_gig: cancels from any status. */
  function Cancel(r: GigRow, reason: string, c: Clock): (s: Saved)
    ensures s.err.None? ==>
      s.row == r.(status := Cancelled, notes := NoteIf(r.notes, c.stamp, "Cancellation reason: ", reason))
  {
    Store(r, r.(status := Cancelled, notes := NoteIf(r.notes, c.stamp, "Cancellation reason: ", reason)))
  }

  /** put_on_hold. */
  function Hold(r: GigRow, reason: string, c: Clock): (s: Saved)
    ensures r.status != Active ==> s == Saved(r, None)
    ensures r.status == Active && s.err.None? ==>
      s.row == r.(status := OnHold, notes := NoteIf(r.notes, c.stamp, "Put on hold: ", reason))
  {
    if r.status == Active then
      Store(r, r.(status := OnHold, notes := NoteIf(r.notes, c.stamp, "Put on hold: ", reason)))
    else Saved(r, None)
  }

  /** resume_gig: always writes a note. */
  function Resume(r: GigRow, c: Clock): (s: Saved)
    ensures r.status != OnHold ==> s == Saved(r, None)
    ensures r.status == OnHold && s.err.None? ==>
      s.row == r.(status := Active, notes := r.notes + NoteLine(c.stamp, "Resumed from hold"))
  {
    if r.status == OnHold then
      Store(r, r.(status := Active, notes := r.notes + NoteLine(c.stamp, "Resumed from hold")))
    else Saved(r, None)
  }

  /** log_hours: the boolean it returns and the row persisted afterwards.  When
      the hours reach 0 it hands over to complete_gig, which saves only for an
      active or on-hold gig. */
  function Logged(r: GigRow, h: int, text: string, c: Clock): (res: (bool, Saved))
    ensures res.0 <==> 0 < h <= r.remaining
    ensures !res.0 ==> res.1 == Saved(r, None)
    ensures res.0 && h < r.remaining && res.1.err.None? ==>
      res.1.row.remaining == r.remaining - h && res.1.row.status == r.status
    ensures res.0 && h == r.remaining && r.status in {Active, OnHold} && res.1.err.None? ==>
      res.1.row.remaining == 0 && res.1.row.status == Completed
  {
    if 0 < h <= r.remaining then
      var m := r.(remaining := r.remaining - h,
                  notes := NoteIf(r.notes, c.stamp, Hundredths(h) + " hours logged: ", text));
      if m.remaining == 0 then
        if m.status == Active || m.status == OnHold then
          (true, Store(r, m.(status := Completed, actualEnd := Some(c.today), remaining := 0)))
        else (true, Saved(r, None))
      else (true, Store(r, m))
    else (false, Saved(r, None))
  }

  /** As written, hours that use up a gig which is neither active nor on hold
      are reported as logged (True) and yet never saved: complete_gig declines
      to act and nothing else calls save(). */
  lemma LoggedHoursLostOnPendingGig(c: Clock)
    ensures var r := GigRow(None, Pending, 0, 0, 400, 200, 0, 0, None, None, "");
      Logged(r, 200, "", c) == (true, Saved(r, None))
      && LoggedIntended(r, 200, "", c).1.row.remaining == 0
  {
  }

  /** log_hours as evidently intended: whenever it reports True the reduced
      remaining hours are saved, completed or not. */
  function LoggedIntended(r: GigRow, h: int, text: string, c: Clock): (res: (bool, Saved))
    ensures res.0 <==> 0 < h <= r.remaining
    ensures res.0 && res.1.err.None? ==> res.1.row.remaining == r.remaining - h
    ensures !res.0 ==> res.1 == Saved(r, None)
  {
    if 0 < h <= r.remaining then
      var m := r.(remaining := r.remaining - h,
                  notes := NoteIf(r.notes, c.stamp, Hundredths(h) + " hours logged: ", text));
      if m.remaining == 0 && (m.status == Active || m.status == OnHold) then
        (true, Store(r, m.(status := Completed, actualEnd := Some(c.today))))
      else (true, Store(r, m))
    else (false, Saved(r, None))
  }

  /** Every persisted row passes clean(): an operation that starts from a
      consistent row leaves a consistent row, whatever it does. */
  lemma LifecycleKeepsConsistency(r: GigRow, c: Clock, reason: string, h: int)
    requires Consistent(r)
    ensures Consistent(Start(r, c).row) && Consistent(Complete(r, c).row)
    ensures Consistent(Cancel(r, reason, c).row) && Consistent(Hold(r, reason, c).row)
    ensures Consistent(Resume(r, c).row) && Consistent(Logged(r, h, reason, c).1.row)
  {
  }

  // ------------------------------------------------------- session ledger

  /** GigSession.clean. */
  function SessionClean(s: Session): (e: Option<SaveError>)
    ensures e.None? <==> s.startTime < s.endTime
  {
    if s.startTime >= s.endTime then Some(SessionStartNotBeforeEnd) else None
  }

  /** The hours a session currently takes out of its gig. */
  function Contribution(s: Session): int {
    if s.verified then s.hours else 0
  }

  /** The hours taken by all verified sessions. */
  function VerifiedHours(ss: seq<Session>): int {
    if ss == [] then 0 else VerifiedHours(ss[..|ss| - 1]) + Contribution(ss[|ss| - 1])
  }

  /** The ledger relation: what remains is the total less the verified session
      hours and the hours taken by manual adjustments. */
  predicate Balanced(r: GigRow, ss: seq<Session>, adjusted: int) {
    r.remaining == r.totalHours - VerifiedHours(ss) - adjusted
  }

  /** Adding a session adds its contribution. */
  lemma VerifiedHoursAppend(ss: seq<Session>, s: Session)
    ensures VerifiedHours(ss + [s]) == VerifiedHours(ss) + Contribution(s)
  {
    assert (ss + [s])[..|ss|] == ss;
  }

  /** Replacing one session changes the total by the change in its contribution. */
  lemma {:induction false} VerifiedHoursUpdate(ss: seq<Session>, i: nat, s: Session)
    requires i < |ss|
    ensures VerifiedHours(ss[i := s]) == VerifiedHours(ss) - Contribution(ss[i]) + Contribution(s)
    decreases |ss|
  {
    var t := ss[i := s];
    var n := |ss| - 1;
    if i < n {
      assert t[..n] == ss[..n][i := s];
      VerifiedHoursUpdate(ss[..n], i, s);
    } else {
      assert t[..n] == ss[..n];
    }
  }

  /** Removing one session takes its contribution away. */
  lemma {:induction false} VerifiedHoursRemove(ss: seq<Session>, i: nat)
    requires i < |ss|
    ensures VerifiedHours(ss[..i] + ss[i + 1..]) == VerifiedHours(ss) - Contribution(ss[i])
    decreases |ss|
  {
    var n := |ss| - 1;
    var t := ss[..i] + ss[i + 1..];
    if i < n {
      var u := ss[..n];
      assert t[..|t| - 1] == u[..i] + u[i + 1..];
      assert t[|t| - 1] == ss[n];
      VerifiedHoursRemove(u, i);
    } else {
      assert t == ss[..n];
    }
  }

  /** What GigSession.save subtracts from the gig's remaining hours, given the
      stored version of the session (None for a new one); None when it leaves
      the gig alone without saving it. */
  function LedgerDelta(prior: Option<Session>, s: Session): Option<int> {
    if s.verified then
      if prior.None? then Some(s.hours)
      else if prior.value.verified && prior.value.hours != s.hours then Some(s.hours - prior.value.hours)
      else if !prior.value.verified then Some(s.hours)
      else None
    else if prior.Some? && prior.value.verified then Some(-s.hours)
    else None
  }

  /** The one change GigSession.save gets wrong: unverifying a session and
      changing its hours in the same save gives back the new hours instead of
      the ones that were taken. */
  predicate UnverifiesWithNewHours(prior: Option<Session>, s: Session) {
    prior.Some? && prior.value.verified && !s.verified && prior.value.hours != s.hours
  }

  /** Apart from that case, the save moves the ledger by exactly the change in
      the session's contribution, and it leaves it alone when nothing changes. */
  lemma LedgerDeltaTracksContribution(prior: Option<Session>, s: Session)
    requires !UnverifiesWithNewHours(prior, s)
    ensures LedgerDelta(prior, s).GetOr(0) ==
      Contribution(s) - (if prior.Some? then Contribution(prior.value) else 0)
    ensures prior.Some? && prior.value.verified == s.verified && prior.value.hours == s.hours ==>
      LedgerDelta(prior, s).None?
  {
  }

  /** The gig's half of GigSession.save once the session row is written:
      the remaining hours move by LedgerDelta against the stored version and
      the gig is saved. */
  function Settled(r: GigRow, stored: seq<Session>, prior: Option<Session>, s: Session): (o: Ledger)
    ensures o.sessions == stored
    ensures o.row == r || o.row == r.(remaining := o.row.remaining)
  {
    match LedgerDelta(prior, s)
    case None => Ledger(r, stored, None)
    case Some(d) =>
      var g := Store(r, r.(remaining := r.remaining - d));
      Ledger(g.row, stored, g.err)
  }

  /** GigSession.save as seen by the gig: the session row is written first,
      then the gig's remaining hours move and the gig is saved.  A gig whose
      clean() refuses the new remaining keeps its row while the session change
      stays, because no transaction spans the two writes. */
  function SessionSave(r: GigRow, ss: seq<Session>, at: Option<nat>, s: Session): (o: Ledger)
    requires at.Some? ==> at.value < |ss|
    ensures SessionClean(s).Some? ==> o == Ledger(r, ss, SessionClean(s))
    ensures SessionClean(s).None? ==> o.sessions == if at.Some? then ss[at.value := s] else ss + [s]
    ensures o.row == r || o.row == r.(remaining := o.row.remaining)
  {
    if SessionClean(s).Some? then Ledger(r, ss, SessionClean(s))
    else
      var prior := if at.Some? then Some(ss[at.value]) else None;
      Settled(r, if at.Some? then ss[at.value := s] else ss + [s], prior, s)
  }

  /** GigSession.save of the session at position i after the request gave it
      another gig (target, with its sessions): the row is written under the
      new gig, whose remaining hours move by LedgerDelta against the stored
      version, while the old gig is neither written nor adjusted. */
  function MoveSave(r: GigRow, ss: seq<Session>, i: nat, target: GigRow, tss: seq<Session>, s: Session): (res: (Ledger, Ledger))
    requires i < |ss|
    ensures SessionClean(s).Some? ==> res == (Ledger(r, ss, SessionClean(s)), Ledger(target, tss, SessionClean(s)))
    ensures SessionClean(s).None? ==> res.0 == Ledger(r, ss[..i] + ss[i + 1..], None) && res.1.sessions == tss + [s]
    ensures res.1.row == target || res.1.row == target.(remaining := res.1.row.remaining)
  {
    if SessionClean(s).Some? then (Ledger(r, ss, SessionClean(s)), Ledger(target, tss, SessionClean(s)))
    else (Ledger(r, ss[..i] + ss[i + 1..], None), Settled(target, tss + [s], Some(ss[i]), s))
  }

  /** A move that keeps the verification flag leaves the hours the session
      took behind on its old gig and credits them to the new one: the old gig
      is short by the session's contribution and the new gig over by it. */
  lemma MoveLeavesHoursBehind(r: GigRow, ss: seq<Session>, i: nat, target: GigRow, tss: seq<Session>, s: Session,
                              adjusted: int, targetAdjusted: int)
    requires i < |ss| && s.verified == ss[i].verified
    requires Balanced(r, ss, adjusted) && Balanced(target, tss, targetAdjusted)
    requires MoveSave(r, ss, i, target, tss, s).1.err.None?
    ensures var m := MoveSave(r, ss, i, target, tss, s);
      && m.0.row.remaining == m.0.row.totalHours - VerifiedHours(m.0.sessions) - adjusted - Contribution(ss[i])
      && m.1.row.remaining == m.1.row.totalHours - VerifiedHours(m.1.sessions) - targetAdjusted + Contribution(ss[i])
  {
    VerifiedHoursRemove(ss, i);
    VerifiedHoursAppend(tss, s);
    LedgerDeltaTracksContribution(Some(ss[i]), s);
  }

  /** Creating, verifying, unverifying or editing a session keeps the ledger
      relation whenever the save succeeds (the one exception aside). */
  lemma SaveSessionKeepsBalance(r: GigRow, ss: seq<Session>, at: Option<nat>, s: Session, adjusted: int)
    requires at.Some? ==> at.value < |ss|
    requires !UnverifiesWithNewHours(if at.Some? then Some(ss[at.value]) else None, s)
    requires Balanced(r, ss, adjusted)
    requires SessionSave(r, ss, at, s).err.None?
    ensures Balanced(SessionSave(r, ss, at, s).row, SessionSave(r, ss, at, s).sessions, adjusted)
  {
    var prior := if at.Some? then Some(ss[at.value]) else None;
    LedgerDeltaTracksContribution(prior, s);
    if at.Some? {
      VerifiedHoursUpdate(ss, at.value, s);
    } else {
      VerifiedHoursAppend(ss, s);
    }
  }

  /** GigSession.verify: the boolean it returns and the ledger afterwards. */
  function Verify(r: GigRow, ss: seq<Session>, i: nat, admin: nat, c: Clock): (res: (bool, Ledger))
    requires i < |ss|
    ensures res.0 <==> !ss[i].verified
    ensures !res.0 ==> res.1 == Ledger(r, ss, None)
  {
    if ss[i].verified then (false, Ledger(r, ss, None))
    else (true, SessionSave(r, ss, Some(i), ss[i].(verified := true, verifiedBy := Some(admin), verifiedAt := Some(c.instant))))
  }

  /** GigSession.unverify: the boolean it returns and the ledger afterwards. */
  function Unverify(r: GigRow, ss: seq<Session>, i: nat): (res: (bool, Ledger))
    requires i < |ss|
    ensures res.0 <==> ss[i].verified
    ensures !res.0 ==> res.1 == Ledger(r, ss, None)
  {
    if !ss[i].verified then (false, Ledger(r, ss, None))
    else (true, SessionSave(r, ss, Some(i), ss[i].(verified := false, verifiedBy := None, verifiedAt := None)))
  }

  /** Verifying a session and then unverifying it gives the gig back exactly
      the remaining hours it had. */
  lemma VerifyThenUnverifyRestores(r: GigRow, ss: seq<Session>, i: nat, admin: nat, c: Clock)
    requires i < |ss| && !ss[i].verified && Consistent(r)
    requires Verify(r, ss, i, admin, c).1.err.None?
    ensures var v := Verify(r, ss, i, admin, c).1;
      var u := Unverify(v.row, v.sessions, i).1;
      u.err.None? && u.row == r && |u.sessions| == |ss| && !u.sessions[i].verified
  {
    var s := ss[i];
    var v := Verify(r, ss, i, admin, c).1;
    assert SessionClean(s).None?;
    assert v.row == r.(remaining := r.remaining - s.hours);
    assert v.sessions[i].hours == s.hours;
  }

  /** Editing the hours of a verified session moves the remaining hours by
      exactly the difference between the new and the old hours. */
  lemma EditVerifiedShiftsByDifference(r: GigRow, ss: seq<Session>, i: nat, s: Session)
    requires i < |ss| && ss[i].verified && s.verified
    requires SessionSave(r, ss, Some(i), s).err.None? && SessionClean(s).None?
    ensures SessionSave(r, ss, Some(i), s).row.remaining == r.remaining - (s.hours - ss[i].hours)
  {
  }

  // ------------------------------------------------------------------ Gig

  /** A gig as the application holds it: the persisted columns, the gig's
      sessions, and (for the proofs only) the hours taken by manual
      adjustments and log_hours. */
  class Gig {
    var pk: nat
    var tutor: Option<nat>
    var status: Status
    var remuneration: int
    var clientFee: int
    var totalHours: int
    var remaining: int
    var startDate: int
    var endDate: int
    var actualStart: Option<int>
    var actualEnd: Option<int>
    var notes: string
    var sessions: seq<Session>
    ghost var adjusted: int

    function Row(): GigRow
      reads this
    {
      GigRow(tutor, status, remuneration, clientFee, totalHours, remaining,
             startDate, endDate, actualStart, actualEnd, notes)
    }

    /** The ledger relation holds for this gig. */
    ghost predicate LedgerBalanced()
      reads this
    {
      Balanced(Row(), sessions, adjusted)
    }

    /** A gig loaded with its sessions; the adjustments are whatever the stored
        numbers account for. */
    constructor Load(pk: nat, row: GigRow, sessions: seq<Session>)
      ensures this.pk == pk && Row() == row && this.sessions == sessions
      ensures LedgerBalanced()
    {
      this.pk := pk;
      tutor, status := row.tutor, row.status;
      remuneration, clientFee := row.remuneration, row.clientFee;
      totalHours, remaining := row.totalHours, row.remaining;
      startDate, endDate := row.startDate, row.endDate;
      actualStart, actualEnd := row.actualStart, row.actualEnd;
      notes := row.notes;
      this.sessions := sessions;
      adjusted := row.totalHours - row.remaining - VerifiedHours(sessions);
    }

    /** save(): run clean() on the candidate and write it when it passes. */
    method Save(cand: GigRow) returns (err: Option<SaveError>)
      modifies this
      ensures Store(old(Row()), cand) == Saved(Row(), err)
      ensures pk == old(pk) && sessions == old(sessions) && adjusted == old(adjusted)
    {
      err := Clean(cand);
      if err.None? {
        tutor, status := cand.tutor, cand.status;
        remuneration, clientFee := cand.remuneration, cand.clientFee;
        totalHours, remaining := cand.totalHours, cand.remaining;
        startDate, endDate := cand.startDate, cand.endDate;
        actualStart, actualEnd := cand.actualStart, cand.actualEnd;
        notes := cand.notes;
        assert Row() == cand;
      }
    }

    method StartGig(c: Clock) returns (err: Option<SaveError>)
      modifies this
      ensures Start(old(Row()), c) == Saved(Row(), err)
      ensures pk == old(pk) && sessions == old(sessions) && adjusted == old(adjusted)
      ensures old(LedgerBalanced()) ==> LedgerBalanced()
    {
      err := None;
      if status == Pending {
        err := Save(Row().(status := Active, actualStart := Some(c.today)));
      }
    }

    method CompleteGig(c: Clock) returns (err: Option<SaveError>)
      modifies this
      ensures Complete(old(Row()), c) == Saved(Row(), err)
      ensures pk == old(pk) && sessions == old(sessions) && adjusted == old(adjusted)
    {
      err := None;
      if status == Active || status == OnHold {
        err := Save(Row().(status := Completed, actualEnd := Some(c.today), remaining := 0));
      }
    }

    method CancelGig(reason: string, c: Clock) returns (err: Option<SaveError>)
      modifies this
      ensures Cancel(old(Row()), reason, c) == Saved(Row(), err)
      ensures pk == old(pk) && sessions == old(sessions) && adjusted == old(adjusted)
      ensures old(LedgerBalanced()) ==> LedgerBalanced()
    {
      var n := notes;
      if reason != [] {
        n := n + NoteLine(c.stamp, "Cancellation reason: " + reason);
      }
      err := Save(Row().(status := Cancelled, notes := n));
    }

    method PutOnHold(reason: string, c: Clock) returns (err: Option<SaveError>)
      modifies this
      ensures Hold(old(Row()), reason, c) == Saved(Row(), err)
      ensures pk == old(pk) && sessions == old(sessions) && adjusted == old(adjusted)
      ensures old(LedgerBalanced()) ==> LedgerBalanced()
    {
      err := None;
      if status == Active {
        var n := notes;
        if reason != [] {
          n := n + NoteLine(c.stamp, "Put on hold: " + reason);
        }
        err := Save(Row().(status := OnHold, notes := n));
      }
    }

    method ResumeGig(c: Clock) returns (err: Option<SaveError>)
      modifies this
      ensures Resume(old(Row()), c) == Saved(Row(), err)
      ensures pk == old(pk) && sessions == old(sessions) && adjusted == old(adjusted)
      ensures old(LedgerBalanced()) ==> LedgerBalanced()
    {
      err := None;
      if status == OnHold {
        err := Save(Row().(status := Active, notes := notes + NoteLine(c.stamp, "Resumed from hold")));
      }
    }

    /** log_hours; the hours it takes count as an adjustment of the ledger. */
    method LogHours(h: int, text: string, c: Clock) returns (ok: bool, err: Option<SaveError>)
      modifies this
      ensures Logged(old(Row()), h, text, c) == (ok, Saved(Row(), err))
      ensures pk == old(pk) && sessions == old(sessions)
      ensures old(LedgerBalanced()) ==> LedgerBalanced()
    {
      ok, err := false, None;
      if 0 < h <= remaining {
        var m := Row().(remaining := remaining - h);
        if text != [] {
          m := m.(notes := m.notes + NoteLine(c.stamp, Hundredths(h) + " hours logged: " + text));
        }
        if m.remaining == 0 {
          if m.status == Active || m.status == OnHold {
            err := Save(m.(status := Completed, actualEnd := Some(c.today), remaining := 0));
          }
        } else {
          err := Save(m);
        }
        if remaining != old(remaining) {
          adjusted := adjusted + h;
        }
        ok := true;
      }
    }

    /** The gig's half of GigSession.save, once the session row is stored. */
    method Settle(prior: Option<Session>, s: Session) returns (err: Option<SaveError>)
      modifies this
      ensures Settled(old(Row()), old(sessions), prior, s) == Ledger(Row(), sessions, err)
      ensures pk == old(pk) && adjusted == old(adjusted)
    {
      err := None;
      if s.verified {
        if prior.None? {
          err := Save(Row().(remaining := remaining - s.hours));
        } else if prior.value.verified && prior.value.hours != s.hours {
          err := Save(Row().(remaining := remaining - (s.hours - prior.value.hours)));
        } else if !prior.value.verified {
          err := Save(Row().(remaining := remaining - s.hours));
        }
      } else if prior.Some? && prior.value.verified {
        err := Save(Row().(remaining := remaining + s.hours));
      }
    }

    /** GigSession.save for session s: a new session when at is None, else the
        stored session at that position. */
    method SaveSession(at: Option<nat>, s: Session) returns (err: Option<SaveError>)
      requires at.Some? ==> at.value < |sessions|
      modifies this
      ensures SessionSave(old(Row()), old(sessions), at, s) == Ledger(Row(), sessions, err)
      ensures pk == old(pk) && adjusted == old(adjusted)
      ensures old(LedgerBalanced()) && err.None?
        && !UnverifiesWithNewHours(if at.Some? then Some(old(sessions)[at.value]) else None, s)
        ==> LedgerBalanced()
    {
      var prior: Option<Session> := None;
      if at.Some? {
        prior := Some(sessions[at.value]);
      }
      err := SessionClean(s);
      if err.Some? {
        return;
      }
      ghost var r0, ss0 := Row(), sessions;
      if at.Some? {
        sessions := sessions[at.value := s];
      } else {
        sessions := sessions + [s];
      }
      err := Settle(prior, s);
      if old(LedgerBalanced()) && err.None? && !UnverifiesWithNewHours(prior, s) {
        SaveSessionKeepsBalance(r0, ss0, at, s, adjusted);
      }
    }

    /** The new gig's side of a session moved to it: the session row, now
        under this gig, and the change against its stored version prior. */
    method AdoptSession(prior: Session, s: Session) returns (err: Option<SaveError>)
      requires SessionClean(s).None?
      modifies this
      ensures Settled(old(Row()), old(sessions) + [s], Some(prior), s) == Ledger(Row(), sessions, err)
      ensures pk == old(pk) && adjusted == old(adjusted)
    {
      sessions := sessions + [s];
      err := Settle(Some(prior), s);
    }

    /** The session at position i leaves this gig's sessions: its row now
        names another gig, and nothing of this gig is written. */
    method ReleaseSession(i: nat)
      requires i < |sessions|
      modifies this
      ensures sessions == old(sessions[..i] + sessions[i + 1..])
      ensures Row() == old(Row()) && pk == old(pk) && adjusted == old(adjusted)
    {
      sessions := sessions[..i] + sessions[i + 1..];
    }

    /** GigSession.verify for the session at position i. */
    method VerifySession(i: nat, admin: nat, c: Clock) returns (changed: bool, err: Option<SaveError>)
      requires i < |sessions|
      modifies this
      ensures Verify(old(Row()), old(sessions), i, admin, c) == (changed, Ledger(Row(), sessions, err))
      ensures pk == old(pk) && adjusted == old(adjusted)
      ensures old(LedgerBalanced()) && err.None? ==> LedgerBalanced()
    {
      changed, err := false, None;
      if !sessions[i].verified {
        var s := sessions[i].(verified := true, verifiedBy := Some(admin), verifiedAt := Some(c.instant));
        err := SaveSession(Some(i), s);
        changed := true;
      }
    }

    /** GigSession.unverify for the session at position i. */
    method UnverifySession(i: nat) returns (changed: bool, err: Option<SaveError>)
      requires i < |sessions|
      modifies this
      ensures Unverify(old(Row()), old(sessions), i) == (changed, Ledger(Row(), sessions, err))
      ensures pk == old(pk) && adjusted == old(adjusted)
      ensures old(LedgerBalanced()) && err.None? ==> LedgerBalanced()
    {
      changed, err := false, None;
      if sessions[i].verified {
        var s := sessions[i].(verified := false, verifiedBy := None, verifiedAt := None);
        err := SaveSession(Some(i), s);
        changed := true;
      }
    }
  }
}
