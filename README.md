# Gig hour ledger, tutor status and login lockout

A Dafny model of the back end of a tutoring agency (a Django application).
The centre of the model is the **gig**: a block of tutoring hours that moves
through a lifecycle (pending, active, on hold, completed, cancelled). Its
`total_hours_remaining` goes down as **sessions** are verified, goes back up
when they are unverified, and moves by the difference when a verified session
is re-timed. Around the gig sit three smaller state machines:

- the **tutor**'s `is_active` / `is_blocked` flags;
- the **user**'s failed-login counter and thirty-minute lock;
- the request validators (serializers) that guard each transition.

The admin bulk actions are modelled with those machines.

Conventions:

- Money and hours are integers counting hundredths, because the source uses
  two-place `Decimal`s.
- Dates are day numbers and instants are plain integers.
- The current date, the current instant and the `"%Y-%m-%d %H:%M"` stamp used
  in audit notes arrive as a `Clock` parameter.
- Text is `seq<char>`, and case mapping and whitespace are ASCII.

Every model method of the source mutates the object and then calls `save()`,
which runs `clean()` first. When `clean()` raises, nothing is written. Each
such operation is therefore modelled in two parts:

- a specification function that gives the **persisted row** together with
  the error;
- a method on a class holding the row's fields, whose `ensures` ties the new
  state to that function of the old state.

Each view handler follows the same pattern. A function gives the reply and
the new state. A method performs the handler on the loaded `Gig` or `Tutor`
object and is proved to agree with it. The admin bulk actions are `while`
loops over a list of objects. Each is proved equal to a recursive
specification over the rows, and that specification is proved to touch
exactly the selected rows.

The ledger relation `remaining == total - Σ verified hours - manual
adjustments` is the predicate `GigModels.Balanced`. The `Gig` class keeps the
adjustments as a ghost field and states the relation as `LedgerBalanced()`.
The handlers that break this relation are each shown breaking it and given a
corrected version under "## Findings": a resize of a used-up gig, the
deletion of an unverified session, and an edit that gives a session another
gig. `GigSession.save` itself gets one save wrong: unverifying a session and
changing its hours in the same save. No handler performs that save
(`GigViews.NoHandlerUnverifiesWithNewHours`).

Modules, by source file:

| module | file | models |
|---|---|---|
| `Wrappers` | — | `Option`, and `Checked` (a validator's verdict) |
| `Text` | — | Python `int()` on digit strings, `%04d`, `split`, `strip`, `lower`, `title` |
| `UrlKeys` | — | the `"<P>-<n>"` or bare-key lookup the detail views share |
| `GigModels` | gigs/models.py | `Gig`, `GigSession`, the ledger |
| `GigSerializers` | gigs/serializers.py | field checks and `validate()` methods |
| `GigViews` | gigs/views.py | handlers, `parse_gig_id`, permissions, the error-message loop |
| `GigAdmin` | gigs/admin.py | bulk actions, progress and due-status displays |
| `TutorModels` | tutors/models.py | `Tutor` |
| `TutorViews` | tutors/views.py | block, unblock, activate, deactivate, delete and edit guards |
| `TutorSerializers` | tutors/serializers.py | validators, `generate_username`, `create` |
| `TutorAdmin` | tutors/admin.py | bulk actions, status colour |
| `UserModels` | users/models.py | `User`, roles, lockout, `subjects_list` |
| `UserSerializers` | users/serializers.py | login decision, validators, basic profile |
| `UserAdmin` | users/admin.py | bulk actions, queryset updates, status displays, identifiers |

Two points where the serializers check less than one might expect:

- `SessionVerificationSerializer.validate` (gigs/serializers.py:411-430)
  refuses every gig that is not active. A session of a completed gig therefore
  cannot be verified or unverified (`GigSerializers.ValidateVerification`).
- `GigCreateSerializer` and `GigUpdateSerializer` (gigs/serializers.py:249-316)
  derive from `ModelSerializer`, not from `GigSerializer`. Their
  `super().validate()` adds no check, so `GigSerializer.validate`'s pair
  checks do not apply to creation or update. Only the model columns' own
  checks and `validate_total_hours` do.

## Model

| member | source | states |
|---|---|---|
| Text.PaddedValue | gigs/models.py:196 | `int()` reads the zero-padded numeral of n back as n |
| Text.Split | gigs/views.py:44 | `split` gives at least one piece, two or more exactly when the separator occurs, and no piece holds it |
| Text.PyInt | gigs/views.py:44 | `int()` of a digit string is its value; any other string is refused |
| Text.SplitJoin | users/models.py:277 | splitting a comma-joined list of comma-free strings gives the list back |
| Text.StripEnds | tutors/models.py:139 | the strip is the slice between the leading and trailing whitespace, and neither of its ends is whitespace |
| Text.StripIdempotent | tutors/models.py:139 | stripping twice is stripping once |
| Text.LowerStripIdempotent | tutors/models.py:139 | lower-then-strip normal form is stable under another lower-then-strip |
| Text.TitleAfterShape | tutors/models.py:142-143 | title-casing upper-cases a letter that opens a word, lower-cases one after a letter, and keeps every other character |
| Text.TitleStripIdempotent | tutors/models.py:142-143 | strip-then-title normal form is stable |
| UrlKeys.InlineKey | gigs/views.py:257-266 | a value without the prefix is a key exactly when it is a digit string; a prefixed value never reaches the failing lookup |
| UrlKeys.InlineKeyRoundTrip | tutors/views.py:152-164 | a formatted `<P>-%04d` id resolves to its key |
| UrlKeys.InlineKeyIgnoresTail | gigs/views.py:259 | only the piece after the first dash is read |
| GigModels.GigId | gigs/models.py:190-196 | starts with "GIG-" and has at least eight characters, "GIG-XXXX" without a key |
| GigModels.SessionId | gigs/models.py:420-423 | starts with "SES-", at least eight characters |
| GigModels.RoundHalfEven | gigs/models.py:210 | `round(.., 2)`: the quotient is within half a unit, ties go to the even neighbour |
| GigModels.DaysRemaining | gigs/models.py:248-254 | present exactly when there is an end date; the days left, never below 0 |
| GigModels.MetricsZeroGuarded | gigs/models.py:198-240 | completion and both hourly rates are 0 without positive total hours; the profit percentage is 0 without a positive fee; hours completed is 0 when nothing remains |
| GigModels.CompletionWithinRange | gigs/models.py:205-211 | with 0 ≤ remaining ≤ total and total > 0, the completion lies in 0..100 % |
| GigModels.ConsumedGigReportsNoProgress | gigs/models.py:198-211 | a gig with all hours used up reports 0 hours completed and 0 % (finding) |
| GigModels.CompletionIntendedAgrees | gigs/models.py:205-211 | the intended completion equals the source's whenever hours remain, and is 100 % for a used-up gig and after `complete_gig` |
| GigModels.UnpaidTutorReportsNoProfit | gigs/models.py:227-232 | a gig with zero remuneration reports a margin of 0, not the fee (finding) |
| GigModels.ProfitMarginIntended | gigs/models.py:227-232 | never negative on a row `clean()` accepts; equals the source's margin when both amounts are non-zero |
| GigModels.Clean | gigs/models.py:256-275 | accepts exactly the rows with remaining ≤ total, fee ≥ remuneration and dates in order; the remaining-hours error is raised exactly when remaining > total |
| GigModels.Store | gigs/models.py:277-280 | a successful save writes the candidate, which then satisfies `Consistent`; a refused save keeps the previous row |
| GigModels.Start | gigs/models.py:282-287 | any gig that is not pending is unchanged; a pending one becomes active, started today |
| GigModels.Complete | gigs/models.py:289-295 | only an active or on-hold gig changes; it becomes completed, ended today, with 0 remaining |
| GigModels.Cancel | gigs/models.py:297-303 | any gig becomes cancelled, with a note only for a non-empty reason |
| GigModels.Hold | gigs/models.py:305-312 | only an active gig changes; it goes on hold with an optional note |
| GigModels.Resume | gigs/models.py:314-320 | only an on-hold gig changes; it becomes active and a note is always written |
| GigModels.Logged | gigs/models.py:322-339 | returns True exactly when 0 < h ≤ remaining; on False nothing changes; h below remaining subtracts h; h equal to remaining completes the gig |
| GigModels.LoggedHoursLostOnPendingGig | gigs/models.py:322-339 | using up a pending gig's hours reports True but saves nothing (finding) |
| GigModels.LoggedIntended | gigs/models.py:322-339 | whenever it returns True the reduced remaining hours are saved |
| GigModels.LifecycleKeepsConsistency | gigs/models.py:256-339 | from a consistent row, start, complete, cancel, hold, resume and log_hours all leave a consistent row |
| GigModels.SessionClean | gigs/models.py:425-430 | accepts exactly the sessions whose start is before their end |
| GigModels.LedgerDeltaTracksContribution | gigs/models.py:446-464 | except when a session is unverified and re-timed in one save, the gig moves by the change in the hours the session takes; nothing moves when verification and hours are unchanged |
| GigModels.Settled | gigs/models.py:446-464 | the sessions are kept and only the remaining hours of the row may change |
| GigModels.SessionSave | gigs/models.py:432-464 | a session `clean()` refuses changes nothing; otherwise the session is written (appended or replaced) and only the gig's remaining hours may change |
| GigModels.MoveSave | gigs/models.py:432-464 | a session saved under another gig leaves the old gig's sessions and joins the new gig's; the old row is not written and only the new row's remaining hours may change |
| GigModels.MoveLeavesHoursBehind | gigs/models.py:446-464 | after such a move the old gig is short by the hours the session took and the new gig is over by them |
| GigModels.SaveSessionKeepsBalance | gigs/models.py:432-464 | creating, verifying, unverifying or editing a session keeps the ledger relation whenever the save succeeds, except for a save that unverifies the session and changes its hours at once |
| GigModels.Verify | gigs/models.py:466-474 | returns True exactly for an unverified session; False changes nothing |
| GigModels.Unverify | gigs/models.py:476-484 | returns True exactly for a verified session; False changes nothing |
| GigModels.VerifyThenUnverifyRestores | gigs/models.py:466-484 | verify then unverify restores the gig row exactly and leaves the session unverified |
| GigModels.EditVerifiedShiftsByDifference | gigs/models.py:452-456 | editing a verified session moves the remaining hours by old − new |
| GigModels.Gig.Load | gigs/models.py:8 | a loaded gig holds the given row and sessions, and its ledger is balanced |
| GigModels.Gig.Save | gigs/models.py:277-280 | the new row is `Store` of the old one; the sessions are unchanged |
| GigModels.Gig.StartGig | gigs/models.py:282-287 | the new row is `Start` of the old; the ledger relation is kept |
| GigModels.Gig.CompleteGig | gigs/models.py:289-295 | the new row is `Complete` of the old |
| GigModels.Gig.CancelGig | gigs/models.py:297-303 | the new row is `Cancel` of the old; the ledger relation is kept |
| GigModels.Gig.PutOnHold | gigs/models.py:305-312 | the new row is `Hold` of the old; the ledger relation is kept |
| GigModels.Gig.ResumeGig | gigs/models.py:314-320 | the new row is `Resume` of the old; the ledger relation is kept |
| GigModels.Gig.LogHours | gigs/models.py:322-339 | the result and new row are `Logged` of the old; the hours taken count as an adjustment, so the relation is kept |
| GigModels.Gig.SaveSession | gigs/models.py:432-464 | the new row and sessions are `SessionSave` of the old; the relation is kept outside the unverify-and-re-time case |
| GigModels.Gig.Settle | gigs/models.py:446-464 | the new row is `Settled` of the old; the sessions are unchanged |
| GigModels.Gig.AdoptSession | gigs/models.py:432-464 | the session joins this gig's sessions and the row is `Settled` against the stored version |
| GigModels.Gig.ReleaseSession | gigs/models.py:432-443 | the session leaves the sequence; the row is not written |
| GigModels.Gig.VerifySession | gigs/models.py:466-474 | the result and new state are `Verify` of the old; the relation is kept on success |
| GigModels.Gig.UnverifySession | gigs/models.py:476-484 | the result and new state are `Unverify` of the old; the relation is kept on success |
| GigSerializers.DecimalField | gigs/models.py:86-97 | a two-place column accepts exactly a present-or-optional value within its digits and at least its minimum |
| GigSerializers.PresentField | gigs/serializers.py:20-39 | a required field is rejected exactly when missing |
| GigSerializers.Collect | gigs/serializers.py:12-43 | no errors exactly when every field check passes |
| GigSerializers.ReadText | gigs/serializers.py:343-349 | a text field is absent, trimmed and at most its length, or over-long exactly when its trimmed text is too long |
| GigSerializers.SessionFieldErrors | gigs/serializers.py:20-43 | the gig key, when given, names a stored gig; hours_logged lies in 0.25..99.99; on a full write the gig and every other field are required |
| GigSerializers.ValidateSession | gigs/serializers.py:61-83 | passes exactly when start < end, the date is not after today, and the hours lie in 0..24 |
| GigSerializers.PositiveHoursCheckUnreachable | gigs/serializers.py:61-83 | once the 0.25 minimum has passed, the "greater than 0" error cannot occur |
| GigSerializers.ValidateSessionCreate | gigs/serializers.py:91-108 | adds an active gig and hours no more than remain |
| GigSerializers.CreateSessionErrors | gigs/serializers.py:86-108 | no errors exactly when the field checks and the create validate pass |
| GigSerializers.AcceptedSessionFits | gigs/serializers.py:86-108 | an accepted session has 0.25..24 hours, no more than remain, on or before today, start before end, and its gig is active |
| GigSerializers.EditSessionErrors | gigs/serializers.py:12-83 | no errors exactly when the field checks (every field, the gig included, required unless partial) and validate pass |
| GigSerializers.Filled | gigs/serializers.py:195-201 | with an instance every compared value is present; without one the request is used as it is |
| GigSerializers.ValidateGig | gigs/serializers.py:191-221 | passes exactly when each pair holds or one of its values is falsy: remaining ≤ total, fee ≥ remuneration, start ≤ end |
| GigSerializers.ValidateGigAgreesWithClean | gigs/serializers.py:191-221 | every row `clean()` accepts passes; with no zero amount the two agree |
| GigSerializers.ZeroFeeSkipsFeeCheck | gigs/serializers.py:204-208 | a zero fee below the remuneration passes `validate()` but not `clean()` |
| GigSerializers.CreateGigErrors | gigs/serializers.py:249-281 | no errors exactly when the tutor key, if given, exists, the required text fields are present, non-blank and within length, level and priority are among their choices, the client e-mail address is well formed, the amounts are non-negative with ten digits, the hours lie in 0.50..9999.99, and both dates are given |
| GigSerializers.NewGig | gigs/serializers.py:274-281 | the row created has remaining equal to total, pending status and no actual dates |
| GigSerializers.NewGigBalanced | gigs/serializers.py:274-281 | a new gig is balanced, and `clean()` accepts it exactly when the fee covers the remuneration and the dates are in order |
| GigSerializers.ValidateTotalHours | gigs/serializers.py:308-316 | accepts exactly a total not below `hours_completed` |
| GigSerializers.TotalHoursField | gigs/serializers.py:284-316 | the column's checks, then `validate_total_hours` |
| GigSerializers.UpdateGigErrors | gigs/serializers.py:284-316 | no errors exactly when the given text fields are non-blank, within length and among their choices, the amounts are in range, and a given total lies in 0.50..9999.99 and not below the hours completed; a full update must carry every required field |
| GigSerializers.ValidateAssignee | gigs/serializers.py:326-336 | accepts exactly a tutor that exists, is active and is not blocked |
| GigSerializers.BlockedRefusalShadowed | gigs/serializers.py:326-336 | for tutors whose block implies inactive, the "blocked" error is never the one reported |
| GigSerializers.ValidateAdjustment | gigs/serializers.py:352-366 | accepts exactly a present amount in 0.25..remaining with six digits |
| GigSerializers.ValidateVerification | gigs/serializers.py:404-430 | accepts exactly a session in context on an active gig, and for verification hours no more than remain |
| GigSerializers.AcceptedVerificationSaves | gigs/serializers.py:404-430 | an accepted verification on a consistent gig saves, and remaining stays ≥ 0 |
| GigViews.ParseGigId | gigs/views.py:34-67 | a number parsed from an unprefixed id is exactly its digits |
| GigViews.ParseGigIdForms | gigs/views.py:34-67 | "GIG-<d>…", "GIG<d>" and "<d>" all give the value of d |
| GigViews.ParseGigIdReadsFirstPiece | gigs/views.py:44 | "GIG-12-3" gives 12 |
| GigViews.ParseGigIdRoundTrip | gigs/views.py:41-46 | every formatted gig id parses back to its key |
| GigViews.InlineAgreesOnDashedIds | gigs/views.py:257-266 | on "GIG-" ids the detail views and `parse_gig_id` resolve the same key |
| GigViews.CompactIdOnlyInSessionList | gigs/views.py:257-266 | "GIG0012" is 12 for the session list but a failing lookup for the detail views |
| GigViews.CanAccessGig | gigs/views.py:93-117 | administrators always; otherwise only a tutor user linked to the gig's tutor; nobody else for an unassigned gig |
| GigViews.TextCheck | gigs/serializers.py:343-349 | an optional 500-character text fails exactly when over-long |
| GigViews.TextErrors | gigs/serializers.py:339-349 | no errors exactly when the text is not over-long |
| GigViews.NoteWhen | gigs/views.py:907-917 | the notes after an optional audit line extend the notes before |
| GigViews.UpdateRefusal | gigs/views.py:279-300 | no refusal exactly when the user can access the gig, a tutor sends only notes, and the serializer accepts; a refusal is a 403 or the serializer's own errors |
| GigViews.UpdateOutcome | gigs/views.py:279-322 | a successful update passed permission and the serializer; the row is consistent; a tutor sent notes only; the status and tutor are kept; a new total resets remaining to new total − `hours_completed`; a refused update changes nothing |
| GigViews.ResizeKeepsBalance | gigs/views.py:301-308 | while hours remain, a resize keeps the ledger relation |
| GigViews.ResizeForgetsConsumedHours | gigs/views.py:301-308 | resizing a used-up gig resets remaining to the full new total and breaks the relation (finding) |
| GigViews.UpdateOutcomeIntended | gigs/views.py:301-308 | the corrected resize subtracts total − remaining, and leaves remaining ≥ 0 |
| GigViews.ResizeIntendedKeepsBalance | gigs/views.py:301-308 | the corrected resize keeps the relation on every gig |
| GigViews.DeleteGigOutcome | gigs/views.py:324-337 | a delete succeeds exactly for an administrator on a gig that is not active |
| GigViews.AssignOutcome | gigs/views.py:466-529 | succeeds only for an administrator on an unassigned gig with an active, unblocked tutor; it sets the tutor and extends the notes; an assigned gig is refused |
| GigViews.UnassignOutcome | gigs/views.py:534-602 | succeeds only for an administrator on an assigned gig that is not active; it clears the tutor; the two refusals are given exactly as the source checks them |
| GigViews.StartOutcome | gigs/views.py:607-657 | succeeds only for a pending, assigned gig and then starts it; such a consistent gig always starts |
| GigViews.CompleteOutcome | gigs/views.py:662-706 | succeeds only from active or on hold, and then completes with 0 remaining |
| GigViews.CancelOutcome | gigs/views.py:711-766 | refused for completed or cancelled gigs; the default reason is used only without one |
| GigViews.HoldOutcome | gigs/views.py:771-826 | active gigs only; the default reason is used only without one |
| GigViews.ResumeOutcome | gigs/views.py:831-875 | on-hold gigs only; they become active with the resume note |
| GigViews.ViewTransitions | gigs/views.py:607-875 | each successful handler moves the gig from a status its guard allows to its target status |
| GigViews.AdjustOutcome | gigs/views.py:880-935 | subtracts exactly the accepted amount and extends the notes; a valid request on a consistent gig succeeds |
| GigViews.PinnedTo | gigs/views.py:1006-1007 | the request's gig becomes the URL's gig, which is then never a move; the other fields are kept |
| GigViews.CreateSessionOutcome | gigs/views.py:945-1044 | the session is validated with its gig set to the URL's gig; a created session on an accessible active gig is appended with accepted values; the gig row is untouched; a refusal changes nothing |
| GigViews.CreateSessionKeepsBalance | gigs/views.py:945-1044 | creating a session keeps the ledger relation |
| GigViews.Edited | gigs/views.py:1110-1115 | an edit never changes is_verified or the key |
| GigViews.EditSessionOutcome | gigs/views.py:1102-1127 | 403 exactly without access to the URL's gig; an accepted edit that keeps the gig writes the edited session and moves remaining by the change in hours taken; an edit that names another gig removes the session from the URL's gig without touching its row, appends it to the named gig and moves that gig's remaining by the same change; a refusal changes nothing |
| GigViews.EditSessionKeepsBalance | gigs/views.py:1102-1127 | a successful edit that keeps the session on its gig keeps the relation |
| GigViews.MovedVerifiedSessionBreaksBothLedgers | gigs/views.py:1102-1127 | moving a verified session to another gig leaves the old gig short by its hours and the new gig over by them, so neither is balanced (finding) |
| GigViews.TutorMovesSessionIntoForeignGig | gigs/views.py:1104-1109 | a tutor moves their session into another tutor's gig, which they cannot access, and the edit succeeds |
| GigViews.EditOverdrawsVerifiedGig | gigs/views.py:1102-1127 | raising a verified session on a gig with nothing left drives remaining to −2.00 (finding) |
| GigViews.EditSessionOutcomeIntended | gigs/views.py:1102-1127 | the corrected edit keeps the session on the URL's gig and never drives remaining below 0 from a non-negative start; a refusal changes nothing |
| GigViews.EditSessionIntendedKeepsBalance | gigs/views.py:1102-1127 | the corrected edit keeps the relation whenever it succeeds |
| GigViews.NoHandlerUnverifiesWithNewHours | gigs/views.py:1102-1256 | an edit, a verification, an unverification and a verification note never unverify a session while changing its hours |
| GigViews.DeleteSessionOutcome | gigs/views.py:1129-1153 | an administrator's delete removes the session and adds its hours back whether verified or not |
| GigViews.DeleteVerifiedSessionKeepsBalance | gigs/views.py:1137-1146 | deleting a verified session keeps the relation |
| GigViews.DeleteUnverifiedSessionOvercredits | gigs/views.py:1137-1146 | deleting an unverified session leaves remaining above the ledger by its hours (finding) |
| GigViews.DeleteUnverifiedOnFreshGigCrashes | gigs/views.py:1137-1146 | on an untouched gig that delete ends in a 500 with the session gone |
| GigViews.DeleteSessionOutcomeIntended | gigs/views.py:1137-1146 | the corrected delete gives back exactly the hours the session took |
| GigViews.DeleteSessionIntendedKeepsBalance | gigs/views.py:1137-1146 | the corrected delete keeps the relation and always succeeds on a consistent gig |
| GigViews.Annotated | gigs/views.py:1214-1218 | after a verification the session's notes gain the optional note; nothing else changes |
| GigViews.VerifyOutcome | gigs/views.py:1165-1256 | verifying succeeds only for an administrator on an active gig and an unverified session, and subtracts its hours; unverifying adds them back; the two "already"/"not currently" refusals are given exactly when the model method returns False |
| GigViews.VerifyViewKeepsBalance | gigs/views.py:1165-1256 | a successful verification or unverification keeps the relation |
| GigViews.FieldLabel | gigs/views.py:1034 | the label has the field's length |
| GigViews.LinesOf | gigs/views.py:1030-1036 | one line per message of the field |
| GigViews.BuildFriendlyMessage | gigs/views.py:1029-1038 | the loop builds exactly `FriendlyMessage` of the errors |
| GigViews.FriendlyMessageShapes | gigs/views.py:1029-1038 | a non-field error arrives as its text; a field error arrives behind its label |
| GigViews.InactiveGigSessionMessage | gigs/views.py:1029-1038 | creating a session on an inactive gig reports exactly "Can only create sessions for active gigs." |
| GigViews.UpdateView | gigs/views.py:279-322 | performs `UpdateOutcome`; while hours remain the ledger relation is kept |
| GigViews.AssignView | gigs/views.py:466-529 | performs `AssignOutcome`; the relation is kept |
| GigViews.UnassignView | gigs/views.py:534-602 | performs `UnassignOutcome`; the relation is kept |
| GigViews.StartView | gigs/views.py:607-657 | performs `StartOutcome`; the relation is kept |
| GigViews.CompleteView | gigs/views.py:662-706 | performs `CompleteOutcome` |
| GigViews.CancelView | gigs/views.py:711-766 | performs `CancelOutcome`; the relation is kept |
| GigViews.HoldView | gigs/views.py:771-826 | performs `HoldOutcome`; the relation is kept |
| GigViews.ResumeView | gigs/views.py:831-875 | performs `ResumeOutcome`; the relation is kept |
| GigViews.AdjustView | gigs/views.py:880-935 | performs `AdjustOutcome`; the amount counts as an adjustment, so the relation is kept |
| GigViews.CreateSessionView | gigs/views.py:945-1044 | performs `CreateSessionOutcome` with the URL's gig, and returns the friendly message of a rejection; the relation is kept |
| GigViews.EditSessionView | gigs/views.py:1102-1127 | performs `EditSessionOutcome` on the URL's gig and the named one; both keep their keys; the named gig is untouched unless the session moves; the relation is kept on a successful edit that keeps the gig |
| GigViews.DeleteSessionView | gigs/views.py:1129-1153 | performs `DeleteSessionOutcome`; the relation is kept for a verified session |
| GigViews.VerifyView | gigs/views.py:1165-1256 | performs `VerifyOutcome`; the relation is kept on success |
| GigAdmin.Apply | gigs/admin.py:393-456 | a successful call moves the gig to the action's target status; a failed one changes nothing |
| GigAdmin.CountSelected | gigs/admin.py:393-456 | never more than the rows |
| GigAdmin.BulkRunEffect | gigs/admin.py:393-456 | unselected rows are untouched; a run without error applies the lifecycle call to each selected row and counts exactly those |
| GigAdmin.BulkRunStopsAtError | gigs/admin.py:393-456 | a failed run stops at a selected row whose call failed, and the rows from there on are as they were |
| GigAdmin.BulkCompleteSkipsOnHold | gigs/admin.py:406-417 | the bulk complete leaves an on-hold gig alone, though `complete_gig` would complete it |
| GigAdmin.BulkStartIgnoresTutor | gigs/admin.py:393-404 | the bulk start starts an unassigned pending gig and counts it |
| GigAdmin.Step | gigs/admin.py:393-456 | one gig through its lifecycle method agrees with `Apply` |
| GigAdmin.RunBulk | gigs/admin.py:393-456 | the loop's rows, count and error are exactly `BulkRun` of the rows before |
| GigAdmin.ProgressColour | gigs/admin.py:311-321 | green from 80 %, orange from 50 %, red below |
| GigAdmin.ProgressColourMonotone | gigs/admin.py:311-321 | more progress never gives a worse colour |
| GigAdmin.ConsumedGigShowsRed | gigs/admin.py:311-321 | a used-up gig shows red, because its completion reads 0 |
| GigAdmin.Due | gigs/admin.py:373-383 | OVERDUE exactly for `is_overdue`; N/A exactly without an end date; otherwise the days left, orange up to 7 and green above |
| GigAdmin.PastEndOnHoldShowsNoDays | gigs/admin.py:373-383 | an on-hold gig past its end shows 0 days; an active one shows OVERDUE |
| TutorModels.TutorId | tutors/models.py:98-104 | starts with "TUT-", at least eight characters |
| TutorModels.FullNameOfStrippedNames | tutors/models.py:106-111 | for trimmed non-empty names the full name is "first last" |
| TutorModels.StatusLabelCases | tutors/models.py:113-123 | "Blocked" exactly when blocked; "Active" exactly when unblocked and active; "Inactive" otherwise |
| TutorModels.TutorClean | tutors/models.py:125-137 | accepts exactly a tutor with both an e-mail address and a phone number |
| TutorModels.SaveTutor | tutors/models.py:125-150 | a refused save keeps the stored row; an accepted one writes the normalised candidate |
| TutorModels.SavedTutorIsNormal | tutors/models.py:138-143 | every written row is in normal form |
| TutorModels.FlagHelpersOnNormalRow | tutors/models.py:152-179 | on a normal row each helper changes exactly its flags, and fails exactly when `clean()` refuses |
| TutorModels.UnblockLeavesInactive | tutors/models.py:166-179 | block then unblock leaves the tutor "Inactive" |
| TutorModels.Tutor.Load | tutors/models.py:6 | the object holds the given row |
| TutorModels.Tutor.Save | tutors/models.py:145-150 | the new row is `SaveTutor` of the old |
| TutorModels.Tutor.Deactivate | tutors/models.py:152-157 | the new row is `Deactivated` of the old |
| TutorModels.Tutor.Activate | tutors/models.py:159-164 | the new row is `Activated` of the old |
| TutorModels.Tutor.Block | tutors/models.py:166-172 | the new row is `Blocked` of the old |
| TutorModels.Tutor.Unblock | tutors/models.py:174-179 | the new row is `Unblocked` of the old |
| TutorViews.TutorKeyRoundTrip | tutors/views.py:152-164 | every formatted tutor id leads back to its key |
| TutorViews.TutorKeyErrors | tutors/views.py:152-164 | "TUT-x" answers 400 and "x" answers 500 |
| TutorViews.CanEditTutor | tutors/views.py:171-183 | administrators always; anyone else only with a profile linked to this tutor |
| TutorViews.EditRuleAgreesWithGigAccess | tutors/views.py:171-183 | for tutor accounts the edit rule equals the gig access rule; a linked manager may edit but not access gigs |
| TutorViews.OpenGigCount | tutors/views.py:676-688 | 0 exactly when no gig is pending or active |
| TutorViews.UserActiveSet | tutors/views.py:360-370 | the linked user, if any, ends with is_active as requested |
| TutorViews.WithUser | tutors/views.py:350-370 | a failed tutor save changes nothing; otherwise the tutor is written and the linked user follows |
| TutorViews.BlockOutcome | tutors/views.py:326-392 | succeeds only for an administrator on an unblocked tutor, which ends blocked and inactive with its user inactive; an already blocked tutor is refused; every refusal changes nothing |
| TutorViews.UnblockOutcome | tutors/views.py:397-461 | succeeds only on a blocked tutor, which ends unblocked with its user active; an unblocked tutor is refused |
| TutorViews.ActivateOutcome | tutors/views.py:595-647 | succeeds exactly for an administrator on an inactive, unblocked tutor `clean()` accepts, which then reads "Active" |
| TutorViews.DeactivateOutcome | tutors/views.py:652-716 | succeeds only on an active tutor with no open gig; an open gig gives the refusal with its count |
| TutorViews.DeleteTutorOutcome | tutors/views.py:216-230 | a delete succeeds exactly for an administrator when no gig is pending or active |
| TutorViews.BlockThenUnblock | tutors/views.py:326-461 | block then unblock leaves the tutor "Inactive" but its user active again |
| TutorViews.BlockView | tutors/views.py:326-392 | performs `BlockOutcome` on the tutor and user objects |
| TutorViews.UnblockView | tutors/views.py:397-461 | performs `UnblockOutcome` |
| TutorViews.ActivateView | tutors/views.py:595-647 | performs `ActivateOutcome` |
| TutorViews.DeactivateView | tutors/views.py:652-716 | performs `DeactivateOutcome` |
| TutorSerializers.EmailAddressField | tutors/models.py:46-49 | passes exactly a trimmed, non-blank, well-formed address of at most 254 characters that is not stored for another tutor and that `validate_email_address` accepts; the value is lower-cased |
| TutorSerializers.OwnEmailCheckSeesOnlyVariants | tutors/serializers.py:42-54 | `validate_email_address` raises only for an address that differs from a stored one by case, the column's unique check having caught the rest |
| TutorSerializers.PhoneNumberField | tutors/models.py:22-44 | passes exactly a trimmed, non-blank, well-formed number of at most 17 characters that is not stored for another tutor |
| TutorSerializers.OwnPhoneCheckUnreachable | tutors/serializers.py:56-66 | `validate_phone_number` never raises: the column's unique check comes first |
| TutorSerializers.ValidateEmail | tutors/serializers.py:42-54 | returns the lower-cased, stripped address; refuses exactly an address stored for another tutor |
| TutorSerializers.ValidateNewEmail | tutors/serializers.py:156-168 | accepts exactly an address new to both tutors and users |
| TutorSerializers.AcceptedEmailIsStable | tutors/serializers.py:42-54 | an accepted address is accepted again, unchanged, for its owner |
| TutorSerializers.OwnAddressInOtherCase | tutors/serializers.py:42-54 | "Ann@X.org" is accepted for the tutor stored as "ann@x.org" |
| TutorSerializers.ValidatePhone | tutors/serializers.py:56-66 | refuses exactly a number stored for another tutor |
| TutorSerializers.CreatePhoneField | tutors/serializers.py:148-174 | an absent number passes as absent; a sent one passes exactly when its trimmed text is non-blank, at most 17 characters and not stored, and is passed on trimmed |
| TutorSerializers.ValidateNewPhone | tutors/serializers.py:170-174 | refuses exactly a non-empty stored number |
| TutorSerializers.NewPhoneIsUpdateWithoutInstance | tutors/serializers.py:56-66 | for non-empty numbers the create check is the update check; an empty number is let through only on create |
| TutorSerializers.ValidateHourlyRate | tutors/serializers.py:89-93 | accepts exactly none or at least 5.00 |
| TutorSerializers.ValidateYears | tutors/serializers.py:95-101 | accepts exactly 0..50, the lower bound's message first |
| TutorSerializers.YearsField | users/models.py:245 | accepts exactly 0..50; a negative value gets the column's minimum message, so the method's own negative message never appears |
| TutorSerializers.GenerateUsername | tutors/serializers.py:176-192 | the result is not taken; it is the base when that is free, else base + k for the smallest free k ≥ 1 |
| TutorSerializers.CreateTutorAccount | tutors/serializers.py:194-253 | fails with `clean()`'s error exactly without an e-mail address or phone number, and on a repeated unique column exactly when the normalised address or the stored number (the placeholder when none was sent) is already a tutor's; otherwise a normalised active tutor, a free username and an active tutor user account that cannot log in until verified and approved |
| TutorSerializers.SecondPhonelessCreateFails | tutors/serializers.py:203 | the first tutor created without a phone stores "+1234567890", the creation check lets a second phone-less request through, and its create fails on the unique phone column (finding) |
| TutorSerializers.CreatePhoneFieldIntended | tutors/serializers.py:170-174 | the corrected check refuses a phone-less request once the placeholder is taken, and otherwise agrees with the source's check |
| TutorSerializers.IntendedCreateNeverCollides | tutors/serializers.py:156-203 | data that passes the e-mail check and the corrected phone check never repeats a unique column, so create() can then fail only where `clean()` refuses |
| TutorAdmin.Apply | tutors/admin.py:131-185 | the error is `clean()` of the flagged row; a failure changes nothing; a success leaves the row no longer selected |
| TutorAdmin.CountSelected | tutors/admin.py:131-185 | never more than the rows |
| TutorAdmin.BulkRunEffect | tutors/admin.py:131-185 | unselected rows are untouched; a run without error flags each selected row and counts exactly those |
| TutorAdmin.BulkRunLeavesNoneSelected | tutors/admin.py:131-185 | after a run without error no row is still selected |
| TutorAdmin.BulkRunSucceedsOnCleanRows | tutors/admin.py:131-185 | when every row passes `clean()` the action never fails |
| TutorAdmin.BulkDeactivateIgnoresGigs | tutors/admin.py:145-157 | the bulk deactivate deactivates a tutor with open gigs, which the view refuses |
| TutorAdmin.Step | tutors/admin.py:131-185 | one tutor through its flag helper agrees with `Apply` |
| TutorAdmin.RunBulk | tutors/admin.py:131-185 | the loop's rows, count and error are exactly `BulkRun` of the rows before |
| TutorAdmin.StatusColour | tutors/admin.py:105-122 | red exactly when blocked, green exactly when active and unblocked, orange otherwise |
| UserModels.AdministratorExactlyStaff | users/models.py:117-168 | on every saved row the views' "is_admin or is_staff" test is the is_staff flag alone; without is_staff only the admin role passes it |
| UserModels.UserClean | users/models.py:144-157 | accepts exactly a user with an e-mail address, and staff rights if an admin |
| UserModels.SaveAll | users/models.py:159-168 | a refused save keeps the row; an accepted one writes the candidate with its address normalised, and an admin becomes staff and superuser |
| UserModels.AdminPromotionKeepsStaff | users/models.py:144-168 | the promotion in `save()` never changes is_staff |
| UserModels.SavedRowIsClean | users/models.py:144-168 | a saved row passes `clean()` again unless its address was only blanks |
| UserModels.SaveFields | users/models.py:170-205 | a `save(update_fields=…)` writes exactly the changed row or, refused, keeps the stored one |
| UserModels.FailedLogin | users/models.py:180-190 | the counter goes up by one; from five the account is locked for exactly the next thirty minutes; below five the lock is kept; only the IP may change besides |
| UserModels.SuccessfulLogin | users/models.py:192-199 | the counter is 0 and no lock holds at any time |
| UserModels.Unlock | users/models.py:201-205 | the counter is 0 and no lock holds; nothing else changes |
| UserModels.VerifyEmail | users/models.py:170-173 | sets is_verified only |
| UserModels.ApproveUser | users/models.py:175-178 | sets is_approved only |
| UserModels.RepeatedFailuresLock | users/models.py:180-190 | n failures add n to the counter; once it reaches five the lock is thirty minutes from the last failure; nothing else changes |
| UserModels.FiveFailuresBlockLogin | users/models.py:127-142 | five failures from a clean slate block login at the fifth and for thirty minutes |
| UserModels.UnlockRestoresLogin | users/models.py:134-142 | an unlocked account with the three flags set can log in |
| UserModels.SubjectsList | users/models.py:274-279 | one stripped, comma-free subject per comma piece; none for an empty field |
| UserModels.SubjectsRoundTrip | users/models.py:274-279 | subjects stored comma-joined read back unchanged |
| UserModels.User.Load | users/models.py:8 | the object holds the given row |
| UserModels.User.Store | users/models.py:8 | the object holds the given row |
| UserModels.User.Save | users/models.py:159-168 | the new row is `SaveAll` of the old |
| UserModels.User.RecordFailedLogin | users/models.py:180-190 | the new row is `FailedLogin` of the old |
| UserModels.User.RecordSuccessfulLogin | users/models.py:192-199 | the new row is `SuccessfulLogin` of the old |
| UserModels.User.UnlockAccount | users/models.py:201-205 | the new row is `Unlock` of the old |
| UserModels.User.VerifyEmailAddress | users/models.py:170-173 | the new row is `VerifyEmail` of the old |
| UserModels.User.Approve | users/models.py:175-178 | the new row is `ApproveUser` of the old |
| UserSerializers.RestrictionReasons | users/serializers.py:44-57 | no reason exactly when active, verified and approved; at most three |
| UserSerializers.LoginFieldErrors | users/serializers.py:8-17 | no errors exactly when both fields are present and non-blank after trimming and the address is well formed; a malformed address gets the e-mail format error |
| UserSerializers.LoginRequest | users/serializers.py:8-86 | field errors exactly when the fields fail; otherwise `LoginDecision` of the trimmed values, which then never reports missing fields |
| UserSerializers.LoginDecision | users/serializers.py:19-86 | a missing field gives required_fields with no change; sign-in exactly for a known, loginable user with the right password; no user is added or removed, and only the one addressed may change |
| UserSerializers.LockedBeforePassword | users/serializers.py:36-42 | a locked account is reported whatever the password, and no failure is counted |
| UserSerializers.UnknownAddressLooksLikeWrongPassword | users/serializers.py:27-34 | an unknown address and a wrong password get the same error; only the latter counts a failure |
| UserSerializers.FifthFailureLocksOut | users/serializers.py:59-78 | after the fifth wrong password even the right one is refused as locked for thirty minutes |
| UserSerializers.RestrictedMessageOrder | users/serializers.py:44-57 | an inactive, unapproved account gets "Account is inactive. Account is pending approval." |
| UserSerializers.ClientIp | users/serializers.py:88-95 | the forwarded value's first entry holds no comma; without one, REMOTE_ADDR |
| UserSerializers.ClientIpIsFirstHop | users/serializers.py:88-95 | behind a chain of proxies the client is the first address |
| UserSerializers.RowsOf | users/serializers.py:29 | the table of rows has the keys of the directory |
| UserSerializers.Validate | users/serializers.py:19-86 | performing the check on the user objects gives `LoginDecision` of the old rows |
| UserSerializers.ValidateUserEmail | users/serializers.py:150-158 | returns the value unchanged; refuses exactly a stored address that is not the user's own |
| UserSerializers.ValidateSessionTimeout | users/serializers.py:160-166 | accepts exactly 0..43200, each bound with its message |
| UserSerializers.SessionTimeoutField | users/migrations/0002_add_user_settings_fields.py:110-114 | accepts exactly 0..43200; a negative value gets the column's minimum message, so the method's own negative message never appears |
| UserSerializers.BasicRepresentation | users/serializers.py:279-291 | the five public keys always; e-mail and phone exactly when shown, with their values |
| UserAdmin.Apply | users/admin.py:564-640 | the error is `clean()` of the row; a success sets exactly the action's fields |
| UserAdmin.CountSelected | users/admin.py:564-640 | never more than the rows |
| UserAdmin.BulkRunEffect | users/admin.py:564-640 | unselected rows are untouched; a run without error applies the helper to each selected row and counts exactly those |
| UserAdmin.BulkRunLeavesNoneSelected | users/admin.py:564-640 | after a run without error no user still needs the action |
| UserAdmin.UnlockAllClearsLocks | users/admin.py:628-640 | after the unlock action a selected user fails to log in only for a missing flag |
| UserAdmin.Step | users/admin.py:564-640 | one user through its helper agrees with `Apply` |
| UserAdmin.RunBulk | users/admin.py:564-640 | the loop's rows, count and error are exactly `BulkRun` of the rows before |
| UserAdmin.QuerysetUpdate | users/admin.py:592-626 | every selected row is overwritten and all are counted |
| UserAdmin.ResetAgreesWithUnlock | users/admin.py:628-649 | on locked, clean rows the reset and the unlock action agree, and the reset counts every row |
| UserAdmin.CleanRowsNeverFail | users/admin.py:564-640 | when every row passes `clean()` the looping actions never fail |
| UserAdmin.LoginStatusOf | users/admin.py:515-522 | Locked exactly when locked; failed attempts with their count exactly when unlocked and the count is positive |
| UserAdmin.AccountStatusOf | users/admin.py:531-553 | "Can Login" exactly when `can_login`; otherwise a non-empty list naming the lock exactly when locked |
| UserAdmin.AccountStatusAgreesWithLogin | users/admin.py:531-553 | the list has the login check's reasons plus the lock |
| UserAdmin.UserId | users/admin.py:452-454 | starts with "USR-", at least eight characters |
| UserAdmin.ProfileId | users/admin.py:248-250 | starts with "PROF-", at least nine characters |
| UserAdmin.UserSessionId | users/admin.py:118-120 | starts with "SES-", at least ten characters |
| UserAdmin.IdentifiersRoundTrip | users/admin.py:118-454 | each identifier reads back as its key |
| UserAdmin.SessionIdsDiffer | users/admin.py:118-120 | for keys below 100000 a login session's id differs from a gig session's |

## Left out

- Text.PyInt: only ASCII digit strings are read. Python's `int()` also accepts a sign, surrounding whitespace, `_` between digits and non-ASCII digits, so `parse_gig_id("GIG-1_2")` gives 12 in the source and no key in the model.
- Text.Lower, Text.Strip and Text.Title work on ASCII only; Unicode case mapping and whitespace are not modelled.
- Timestamps in notes and messages are the opaque `stamp` of the `Clock`. The `strftime` formatting, and the lock time printed in the account_locked message, are not modelled.
- `Decimal` arithmetic is integer hundredths. The float remuneration in the e-mail utilities is outside the model.
- TutorSerializers.CreateTutorAccount: when both the address and the number repeat, the model names the e-mail column; which constraint the database reports first is its own choice, and the outcome is a 500 either way.
- Request decimals arrive as exact hundredths. A value written with more than two places (`"0.255"`, or `"1.000"`, which the framework's DecimalField refuses for its decimal places), and the digit counts of a value as written, which the framework's messages depend on, are not modelled.
- Django's `authenticate()` becomes the `passwordOk` parameter of the login decision.
- Django's `slugify`, which builds the base username, is not modelled: the base is an input to `GenerateUsername`.
- The temporary password (a random UUID) and the password hashing of `create` are not modelled.
- The default values of the tutor profile that `create` builds alongside the user are not modelled.
- Lookups (`get_object_or_404`, the filtered querysets) become inputs. The gig, session, tutor and linked user arrive already found, and the sets of stored addresses, numbers and usernames arrive as sets.
- Pagination, search, filters, GET responses and serializer output fields other than the basic profile are out of scope.
- JWT issuance, logout, settings, batch import and e-mail sending (users/views.py, the utils modules) are I/O around the core.
- The online meeting sessions and the meeting-service client are not modelled. Their model and view code is not part of this model, and the client is a network service.
- HTML rendering in the admin (`format_html`, links, icons) is reduced to the decision it shows: a colour or a status value.
- Concurrency and transactions are left out. Each handler is one sequential step. The model keeps the source's lack of a transaction between a session's write and its gig's write.
- GigModels.Gig.SaveSession: sessions are values in the gig's sequence. Two Python objects for the same session row (aliasing) are not modelled.
- GigViews.DeleteSessionView: the relation is kept only when a verified session is deleted. Deleting an unverified one breaks it, as the findings show.
- GigViews.UpdateView: the relation is promised only while hours remain and the total is non-zero. A used-up gig breaks it, as the findings show.
- The admin actions `mark_as_high_priority` (gigs), `make_available` / `make_unavailable` (tutor profiles) and the login-session (de)activation are not modelled. Each is a plain flag update that no other part of the model reads.
- UserSerializers.Validate assumes that no two users share an address. `User.email` is not declared unique, and `User.objects.get(email=...)` in users/serializers.py:28-34 would raise an uncaught `MultipleObjectsReturned` for a shared one; that 500 is not modelled.
- The text columns of a gig (title, subject, level, priority, client details) are checked but not stored in `GigRow`, which holds only what the ledger and lifecycle read.
- The e-mail format (Django's `EmailValidator`) and the phone regex are not computed: their verdicts are boolean inputs.
- Django REST framework reports every failing check of a field; the field functions here report the first.
- TutorSerializers.YearsField, UserSerializers.SessionTimeoutField: the upper limit of a `PositiveIntegerField` depends on the database backend, which is not part of this model; only the minimum is checked.
- The admin change form for a session (gigs/admin.py:72-80) can also give it another gig. It is not modelled; it saves through the same `GigSession.save` as `GigModels.MoveSave`.
- GigViews.EditSessionKeepsBalance: promised only for an edit that keeps the session on its gig. A move breaks both gigs' relation, as the findings show.
- GigViews.EditSessionView: the caller supplies the gig the request names as a second object; the lookup by key is not modelled.

## Findings

| source | as written | input that shows it | evidently intended | confidence | as-written member | corrected member |
|---|---|---|---|---|---|---|
| gigs/models.py:198-211 | `hours_completed` returns 0 whenever `total_hours_remaining` is 0 | a gig with 100.00 total and 0 remaining reports 0 hours completed and 0 % | total − remaining, that is 100 % for a used-up gig | high (not executed) | GigModels.ConsumedGigReportsNoProgress | GigModels.CompletionIntendedAgrees |
| gigs/views.py:301-308 | a resize computes the new remaining from `hours_completed`, which reads 0 for a used-up gig | total 100.00, remaining 0, one verified 10.00-hour session; resizing to 12.00 leaves 12.00 remaining | remaining = new total − (old total − old remaining) | high (not executed) | GigViews.ResizeForgetsConsumedHours | GigViews.ResizeIntendedKeepsBalance |
| gigs/views.py:1137-1146 | deleting a session adds its hours back even when it was never verified | an unverified 1.00-hour session on a balanced gig; after deletion remaining exceeds the ledger by 1.00, or `clean()` fails on an untouched gig | add back only what the session took (its hours if verified, else 0) | high (not executed) | GigViews.DeleteUnverifiedSessionOvercredits | GigViews.DeleteSessionIntendedKeepsBalance |
| gigs/models.py:227-232 | `profit_margin` is 0 when the remuneration is 0 | fee 100.00, remuneration 0 reports a margin of 0 | fee − remuneration | medium (not executed) | GigModels.UnpaidTutorReportsNoProfit | GigModels.ProfitMarginIntended |
| gigs/models.py:322-339 | `log_hours` on a pending gig that uses up its hours calls `complete_gig`, which ignores a pending gig, so nothing is saved although True is returned | a pending gig with 2.00 remaining and `log_hours(2.00)` | the reduced hours are saved whenever True is returned | medium (not executed) | GigModels.LoggedHoursLostOnPendingGig | GigModels.LoggedIntended |
| tutors/serializers.py:203 | `create()` stores the placeholder "+1234567890" for a tutor created without a phone, a value `validate_phone_number` never checks, in a unique column | two tutors created one after the other without a phone: the second `Tutor.objects.create` raises `IntegrityError` and tutors_list_create answers 500 | a taken placeholder refused by the serializer with a 400, so accepted data is always stored | high (not executed) | TutorSerializers.SecondPhonelessCreateFails | TutorSerializers.IntendedCreateNeverCollides |
| gigs/views.py:1102-1127 | the gig field of `GigSessionSerializer` is writable, so an edit may move a session to another gig; `GigSession.save` then adjusts only the new gig, and access is checked only on the URL's gig | a verified 10.00-hour session on balanced gig 1, edited with `{"gig": 2}`: gig 1 stays 10.00 short and gig 2 is 10.00 over | the gig stays the URL's gig, as on creation | high (not executed) | GigViews.MovedVerifiedSessionBreaksBothLedgers | GigViews.EditSessionIntendedKeepsBalance |
| gigs/views.py:1102-1127 | an edit of a verified session is not bounded by the gig's remaining hours, and `clean()` does not look at the sign | a verified 10.00-hour session on a gig with 0 remaining, edited to 12.00, leaves −2.00 remaining | refuse growth beyond the remaining hours, as creation and verification do | medium (not executed) | GigViews.EditOverdrawsVerifiedGig | GigViews.EditSessionOutcomeIntended |

Other places where the code differs from what neighbouring code does are
modelled as written, and a lemma documents each:

- the bulk complete skips on-hold gigs (GigAdmin.BulkCompleteSkipsOnHold);
- the bulk start ignores the tutor (GigAdmin.BulkStartIgnoresTutor);
- the bulk deactivate ignores open gigs (TutorAdmin.BulkDeactivateIgnoresGigs);
- block then unblock leaves a tutor inactive whose user is active (TutorViews.BlockThenUnblock);
- the compact `GIG0012` id fails in the detail views (GigViews.CompactIdOnlyInSessionList);
- login and gig session ids share the `SES-` prefix (UserAdmin.SessionIdsDiffer);
- the queryset updates bypass `clean()` and count every row (UserAdmin.QuerysetUpdate).
