# Admission and check-in, verified

A Dafny model of the parts of the Hack Atlantic platform where correctness depends on concurrency: scanning a pass at a
checkpoint, the organizer edits that compete with a scan, the life of passes, decisions and attendance responses, the intake
of applications, the scanner screen with its retries, and the limiter in front of public claims.

The heart is one shared store and a set of transactions that run statement by statement against it. A statement reads the
latest committed rows and takes the locks its SQL takes; locks last until commit or abort; a transaction's writes appear when
it commits. Any number of transactions interleave in any order, abort at any point, and retry as the source does. On top of
that machine the project proves

* that every interleaving equals running the committed transactions one after another, each atomically at its own commit, with
  one exception that is characterised exactly: a scan that looked up a QR hash before the pass carrying it was committed;
  there is none if every QR is scanned only after its pass was committed;
* for each call, and so for every transaction of every interleaving, exactly when it is refused and for what, and otherwise
  every column it writes, every event and email, and its answer, stated on the fields of the rows alone;
* that the invariants of the ledger, the redemptions, the passes, the decisions and the responses hold in every reachable
  state, and what follows from them over whole runs (allowances, exactly-once scans, stable replays, terminal passes, reports);
* that a refusal is the atomic judgement of the store at the refused statement, with one exception that is characterised
  exactly: a scan whose key another scan committed in the meantime;
* that every interleaving without an outrun scan leaves the store that a database object reaches when it serves the committed
  calls one at a time;
* that a closed chain of waits on the event path (scans, entitlement edits, checkpoint edits) exists if and only if it is a ring
  of checkpoint edits each taking the slug the next is giving up, that without such a ring someone can always go on, that any
  two edits exchanging slugs can form one, and that a scan and a reissue can deadlock;
* that the retry loop meets a key clash at most once;
* that one lookup on the scanner screen leads to at most one redemption for any behaviour of the network, unless it is
  confirmed after a reload of the checkpoints moved the selection under it; that no reload does so while no checkpoint is
  deactivated; and that otherwise, in every store with another checkpoint, one lookup can lead to two;
* that an application past its draft was validated, although it is validated from a read that no lock protects;
* that the limiter allows one request less than twice its limit in any window if the clock is read in the order of the calls,
  less than three times if readings lag by up to a quarter of the window, plus once the limit for every eviction, and that runs
  attain both bounds.

## Files

| file | content |
|---|---|
| Domain.dfy | rows, the store, entitlement rule |
| Protocol.dfy | resources, views, locks, effects and what an effect leaves alone |
| Transactions.dfy | the services' transactions as programs, statement by statement |
| Specs.dfy | each transaction as one judgement of the store, and the proof that its program alone gives that judgement |
| Contracts.dfy, ScanContracts.dfy | what each call asks of the rows and leaves in them, on their fields |
| CallContracts.dfy | the same of the transactions of every interleaving |
| Discipline.dfy | what a program holds and has assumed at each statement |
| Machine.dfy | interleaved sessions and the refinement theorem |
| LedgerInvariants.dfy, PassInvariants.dfy, DecisionInvariants.dfy, RsvpInvariants.dfy | invariants and their preservation |
| Reachable.dfy | the invariants over runs, and their consequences |
| Staleness.dfy, Refusals.dfy | the one unprotected read, exactly; what refusals rest on |
| Races.dfy | runs of the races and deadlocks that do happen |
| Retry.dfy, Deadlock.dfy | the retry loop; the lock order and its one exception |
| Rules.dfy | what entitlement and checkpoint edits bring about |
| Reports.dfy | the attendance report |
| Services.dfy | the services as methods that update a database object, proved against the judgements |
| Serving.dfy | the object serving any calls one at a time, and interleavings as such a service |
| ScannerClient.dfy | the scanner screen as an object, and screen, network, server and organizers together |
| ScannerWitnesses.dfy | a run in which one lookup leads to two redemptions |
| Text.dfy | white space, trimming, words |
| Forms.dfy, FormContracts.dfy | forms and their validator; what both accept, on the fields |
| Intake.dfy | drafts and submission under a compare-and-set |
| RateLimiter.dfy, RateWitnesses.dfy | the claim limiter and its bound; runs that lift the bound |

`Transactions.Wants` and `Transactions.Resume` are the transcription of the transactions: the next statement at each program
point, and the branch taken on its answer. They carry no contract of their own; `Specs.AloneIsAtomic` and
`Machine.InterleavingsAreSerial` say what they amount to, and the methods of `Services.Database` run the same statements
imperatively against the same judgements.

## Model

| member | source | states |
|---|---|---|
| Machine.InterleavingsAreSerial | api/internal/redemptions/service.go:221-348 | every interleaving of all transactions reaches a store that running the committed ones serially, each judged atomically at its commit, reaches too |
| Machine.CommitIsSerial | api/internal/redemptions/service.go:339-348 | a session that commits writes and answers what an atomic run at that moment does, or looked its hash up too early; its write makes sense in the store it meets |
| Machine.EntrySurvives | api/internal/redemptions/service.go:222-226 | nothing a session read under its locks is changed by another's commit; what it read without a lock is permanent once found |
| Machine.RunStep | api/internal/redemptions/service.go:227-231 | a step of a run either leaves the store as it is or applies one effect; attempts that fail or abort write nothing |
| Protocol.TouchesNeedLock | api/internal/redemptions/service.go:379-391 | a write to anything another transaction may rely on needs the exclusive lock of the row that covers it |
| Protocol.ApplyElsewhere | api/internal/redemptions/service.go:406-470 | an effect changes no resource but those it names, counts and derived views included |
| Protocol.FoundForever | api/internal/passes/service.go:520-524 | a pass's owner, a decision's application, a checkpoint's cycle, a hash's pass and a ledger row never change once found |
| Discipline.StepDisciplined | api/internal/redemptions/service.go:147-152 | at every statement of every program, what is still needed is locked and an absence read without a lock is remembered |
| Specs.AloneIsAtomic | api/internal/redemptions/service.go:221-337 | every program, run alone, reaches its atomic judgement, for all seven kinds of call and all stores |
| Specs.RedeemAlone | api/internal/redemptions/service.go:221-337 | a scan run alone reaches the outcome that the precedence of the outcomes dictates, or replays, or reports a conflict |
| Specs.EntitleAlone | api/internal/operations/service.go:592-731 | putting or deleting an override succeeds exactly for a visible attendee and a checkpoint of one cycle, and keeps the stored cycle |
| Specs.UpdateAlone | api/internal/operations/service.go:435-499 | a checkpoint edit succeeds exactly for valid fields, an existing checkpoint, an activity of its cycle and a slug that no other checkpoint of the cycle has; it conflicts exactly on such a slug |
| Specs.IssueAlone | api/internal/passes/service.go:161-222 | a pass is issued exactly to a visible, confirmed attendee without an active pass |
| Specs.ReissueAlone | api/internal/passes/service.go:226-294 | an active pass of a visible, confirmed attendee is replaced by exactly one new one |
| Specs.RevokeAlone | api/internal/passes/service.go:298-348 | exactly an active pass of a visible attendee is revoked |
| Specs.RecordAlone | api/internal/decisions/service.go:79-175 | a decision is appended exactly to a submitted or decided application, with an attendee if it is the first acceptance |
| Specs.ReleaseAlone | api/internal/decisions/service.go:178-250 | exactly the current decision can be released, once; repeating it changes nothing |
| Specs.RespondAlone | api/internal/rsvps/service.go:119-192 | an answer is stored exactly for the applicant's current released acceptance, at the stored version, and repeating it changes nothing |
| Contracts.RecordMeans | api/internal/decisions/service.go:79-175 | a decision is refused exactly for an outcome that is none, an unknown or undecidable application or a taken identifier; otherwise it is stored with the outcome, application and actor of the call, supersedes the former current one and is hidden, the application takes its outcome, a first acceptance makes the applicant an attendee, both events name them, and nothing else changes |
| Contracts.ReleaseMeans | api/internal/decisions/service.go:178-250 | refused exactly unless current; otherwise decision and application are released at this time by this actor, with one event and one email to the applicant, or were before and stay |
| Contracts.RespondRefuses | api/internal/rsvps/service.go:119-192 | an answer is refused exactly for a negative version, someone else's or an invisible application, a decision that is not the current released acceptance, or a version that is not the stored one |
| Contracts.RespondMeans | api/internal/rsvps/service.go:166-191 | the answer given is the one stored and returned, counted up by one if it is new; no other answer changes |
| Contracts.AnswerOpensGate | api/internal/passes/service.go:528-546 | after an answer the pass gate is open exactly if it was yes |
| Contracts.IssueMeans | api/internal/passes/service.go:161-222 | the conditions of each refusal; otherwise the attendee holds the new active pass, it is found by its hash, and the link is queued for the holder's own user |
| Contracts.ReissueMeans | api/internal/passes/service.go:226-294 | the same of a reissue, whose old pass is replaced and names its successor |
| Contracts.RevokeMeans | api/internal/passes/service.go:298-348 | the same of a revocation, which changes only the status of the pass |
| Contracts.EntitleRefuses | api/internal/operations/service.go:592-666 | a rule is refused exactly for a limit out of range or unless checkpoint and visible attendee are of one cycle |
| Contracts.EntitleMeans | api/internal/operations/service.go:630-731 | the rule given is the one stored, in the cycle it was first stored with, or there is none afterwards; only a change is audited |
| Contracts.UpdateRefuses | api/internal/operations/service.go:435-476 | a checkpoint edit is refused exactly for texts without a word, a limit out of range, times that are zero or not in order, an unknown checkpoint, an activity of another cycle, or a slug that is taken |
| Contracts.UpdateMeans | api/internal/operations/service.go:477-499 | the checkpoint has the fields given, its texts trimmed, in the cycle it had, and the slug index follows |
| ScanContracts.WindowEdges | api/internal/redemptions/service.go:309 | a valid checkpoint is open at its opening instant and not just before it, and open just before its closing instant and not at it |
| ScanContracts.OutsideExactly | api/internal/redemptions/service.go:305-312 | where nothing else stands against it, a scan is outside_window exactly before the opening time or from the closing time on |
| ScanContracts.RuleMeans | api/internal/entitlements/service.go:16-28 | the rule in force is the attendee's own if it is of the checkpoint's cycle and otherwise the checkpoint's, negative limits being none |
| ScanContracts.CountMeans | api/internal/redemptions/service.go:324-328 | the uses counted are the redemptions of that attendee at that checkpoint |
| ScanContracts.JudgeMeans | api/internal/redemptions/service.go:284-336 | for each of the six outcomes, exactly what the rows of pass, holder, application, checkpoint and rule must say |
| ScanContracts.RedeemRefuses | api/internal/redemptions/service.go:233-266 | a scan is refused exactly for a key of another checkpoint or hash, a missing checkpoint, or a missing joined row |
| ScanContracts.RedeemMeans | api/internal/redemptions/service.go:406-483 | a first scan writes one row with the names and identifiers of its pass, holder and checkpoint, the redemption it stands for, if any, with the next ordinal, and one event, and answers what the row says; a repeated one answers what its row says and changes nothing |
| ScanContracts.LookupMeans | api/internal/redemptions/service.go:104-145 | the lookup tells the status of the pass the code stands for, unless it was replaced or its holder's acceptance is not visible |
| CallContracts.CallMeans | api/internal/redemptions/service.go:147-186 | every call that goes through does what its contract says |
| CallContracts.CallRefuses | api/internal/redemptions/service.go:147-186 | every call is refused, and for what, exactly as its contract says |
| CallContracts.CommitsPost | api/internal/redemptions/service.go:339-348 | every committed transaction of every interleaving left and answered what its contract says, a scan outrun by its pass in the store without that pass's hash |
| CallContracts.RecordsPost | api/internal/decisions/service.go:116-170 | every decision that commits, in any interleaving, is recorded as it was called for |
| CallContracts.ResponsesPost | api/internal/rsvps/service.go:172-187 | every answer that commits is stored as it was given and opens the pass gate exactly if it is yes |
| CallContracts.RefusalsHaveReason | api/internal/redemptions/service.go:233-266 | every transaction that is refused is refused for what the store it meets gives reason for, save for a scan overtaken by its own key |
| LedgerInvariants.SerialSound | api/internal/redemptions/service.go:315-336 | whatever a committed scan writes is sound for the store it commits to: allowed, within the allowance, next ordinal, new key |
| LedgerInvariants.LedgerKept | api/internal/redemptions/service.go:406-470 | sound scans keep ordinals dense, keys and ids distinct, redemptions and redeemed rows matched, and one audit event per row |
| LedgerInvariants.LimitsKept | api/internal/operations/service.go:605-607 | stored maxima stay within 0 and the 32-bit maximum, and overrides within their checkpoint's cycle |
| LedgerInvariants.SlugsKept | api/migrations/000007_scanner_redemptions.sql:13 | every effect keeps slugs unique within a cycle and the index on them exact |
| LedgerInvariants.OrdinalsAreDense | api/internal/redemptions/service.go:324-336 | the ordinals of an attendee at a checkpoint are exactly 1 to n |
| LedgerInvariants.OrdinalsAreUnique | api/internal/redemptions/service.go:333-336 | no ordinal is used twice by one attendee at one checkpoint |
| LedgerInvariants.AllowanceFits | api/internal/entitlements/service.go:19-28 | an allowance is never negative and fits 32 bits, so the ordinal conversion never wraps |
| Reachable.EveryStateIsSafe | api/internal/redemptions/service.go:147-152 | all invariants hold in every state of every interleaving |
| Reachable.FreshStoreIsSafe | api/migrations/000001_identity_ats.sql:45-60 | a database in which nothing has happened yet satisfies them |
| Reachable.CommitKeepsStore | api/internal/redemptions/service.go:339-348 | one commit of any kind keeps all invariants |
| Reachable.RedemptionsAreAllowed | api/internal/redemptions/service.go:294-336 | every committed redemption was allowed at an active checkpoint, with the next ordinal, within the allowance in force at its commit |
| Reachable.RedemptionsWereDue | api/internal/redemptions/service.go:268-332 | every committed redemption was due: an active pass of a visible acceptance, an active checkpoint of the holder's cycle, open when the transaction began, and uses left |
| LedgerInvariants.JudgedDue | api/internal/redemptions/service.go:284-336 | a scan is judged redeemed if and only if a redemption is due |
| Reachable.UseIsBoundedInRuns | api/internal/redemptions/service.go:324-332 | a pair's redemptions never exceed what it started with or the largest allowance ever in force, however passes are reissued |
| Reachable.ExactlyOnce | api/internal/redemptions/service.go:418-469 | redeemed ledger rows and redemptions determine each other by key and by id; each row was audited exactly once |
| Reachable.LedgerIsPermanent | api/internal/redemptions/service.go:233-242 | a ledger row is there unchanged in every later state |
| Reachable.SnapshotRoundTrip | api/internal/redemptions/service.go:472-483 | decoding the persisted row gives the answer the scan returned |
| Reachable.ReplayIsStable | api/internal/redemptions/service.go:233-242 | a replay returns the stored answer whatever was edited since, a conflict for another checkpoint or hash, and writes nothing |
| Reachable.PassesWereConfirmed | api/internal/passes/service.go:198-200 | every pass ever inserted was inserted while its attendee's current released acceptance was confirmed |
| Reachable.PassesLeadToAnEnd | api/internal/passes/service.go:277-280 | at most one active pass per attendee; successor links lead, within one attendee, to an active or revoked pass |
| Reachable.EndedPassesStay | api/internal/passes/service.go:338-340 | a revoked or replaced pass never changes again |
| Reachable.DecisionsAreCached | api/internal/decisions/service.go:105-175 | one line of decisions per application, cached on its row; one attendee exactly if ever accepted; one email per released decision |
| Reachable.EligibilityAgrees | api/internal/passes/service.go:528-546 | the cached test, the pass gate and the RSVP projection agree on what a released acceptance is |
| Reachable.AnswersAlternate | api/internal/rsvps/service.go:166-187 | the answers to a decision alternate, count 1, 2, 3, and end in the stored response |
| Reachable.LookupAgreesWithScan | api/internal/redemptions/service.go:104-145 | the scanner screen shows nothing, a revoked or an active pass exactly when a fresh scan answers invalid, revoked or gets past the pass |
| Reachable.PassesAreLinked | api/internal/redemptions/service.go:383-385 | in a store that satisfies the invariants the rows a scan joins to a pass are all present |
| PassInvariants.SerialPass | api/internal/passes/service.go:190-211 | no interleaving lets a pass be inserted past the gate or beside an active one |
| PassInvariants.PassesKept | api/internal/passes/service.go:255-284 | every effect keeps the index, the one active pass, the succession, the owners and one queued link per pass |
| PassInvariants.Current | api/internal/passes/service.go:277-280 | following successors ends at a pass of the same attendee that is not replaced |
| PassInvariants.EndIsTerminal | api/internal/passes/service.go:548-552 | no effect changes a pass that has ended |
| DecisionInvariants.DecisionsKept | api/internal/decisions/service.go:116-170 | every effect keeps the chain, the cache, the attendee and the release email |
| DecisionInvariants.CacheAgrees | api/internal/database/sqlc/decisions.sql.go:357-376 | the cached acceptance and release are those of the current decision |
| RsvpInvariants.RsvpsKept | api/internal/rsvps/service.go:172-187 | every effect keeps answers alternating, versions counting and the stored response last |
| RsvpInvariants.NewDecisionIsPending | api/internal/rsvps/service.go:54-61 | a new decision starts without a response |
| RsvpInvariants.StaleAnswerIsRefused | api/internal/rsvps/service.go:165-171 | a differing answer is taken exactly at the stored version, refused at any other, and an equal one changes nothing |
| Staleness.ExactUnlessOutrun | api/internal/redemptions/service.go:268-280 | a commit is exactly atomic if and only if it did not answer invalid_pass to a hash that a lookup at that moment resolves |
| Staleness.KnownHashIsExact | api/internal/redemptions/service.go:379-391 | a scan started after its pass was committed is always exact |
| Staleness.KnownHashesAreExact | api/internal/passes/service.go:219-222 | if every QR is scanned only after the pass carrying it was committed, every committed transaction of every interleaving is exactly an atomic run at its commit |
| Refusals.RefusalsAreJudged | api/internal/redemptions/service.go:233-266 | a refusal is the atomic judgement of the store at the refused statement if and only if it is not a scan whose key was committed meanwhile and that was refused for another reason; this holds of all seven kinds of call |
| Refusals.ScansAreRefusedFor | api/internal/redemptions/service.go:233-252 | in a reachable store a scan is refused only for a missing checkpoint or a conflicting key, never because a joined row is missing |
| Refusals.EarlyRefusals | api/internal/operations/service.go:444-447 | a call refused before its first statement is judged so in every store |
| Races.ScanCanBeOutrun | api/internal/redemptions/service.go:268-280 | whenever a pass can be issued, some interleaving answers invalid_pass although the pass is active at that commit |
| Races.ReissueCanDeadlock | api/internal/passes/service.go:262-270 | a scan and a reissue of the same pass can wait for each other |
| Races.EditsCanDeadlock | api/internal/operations/service.go:479-488 | any two checkpoint edits that exchange slugs can wait for each other |
| Races.RefusalCanBeOvertaken | api/internal/redemptions/service.go:247-250 | a scan of a missing checkpoint can be refused for that although its key is by then in the ledger, where an atomic run reports a conflict |
| Rules.PutIsInForce | api/internal/entitlements/service.go:16-28 | a rule that was put is the rule in force, whatever the defaults |
| Rules.DeleteRestoresDefaults | api/internal/operations/service.go:664-666 | after a deletion the checkpoint's defaults are in force again |
| Rules.EditsAreLocal | api/internal/operations/service.go:637-643 | an edit changes no other attendee's or checkpoint's rule |
| Rules.DeleteUndoesPut | api/internal/operations/service.go:667-731 | putting and deleting leaves the overrides as a deletion alone |
| Rules.ValidMeans | api/internal/operations/service.go:862-876 | the fields of a checkpoint are valid exactly if slug and name contain a word, the limit fits, no time is the zero instant and there is an instant at which it is open |
| Rules.SlugConflicts | api/internal/operations/service.go:486-488 | a valid edit without an activity conflicts if and only if another checkpoint of the cycle has the trimmed slug |
| Rules.UpdateTakesEffect | api/internal/operations/service.go:479-485 | a checkpoint becomes what a successful edit says, trimmed and in its own cycle, and no other checkpoint changes |
| Rules.PutLetsIn | api/internal/redemptions/service.go:315-336 | a scan refused for want of a rule is redeemed once a rule of the attendee's own grants enough uses |
| Deadlock.WaitCyclesAreOverSlugs | api/internal/operations/service.go:432-434 | in every reachable state a closed chain of scans, entitlement edits and checkpoint edits is a chain of waits if and only if each member is a checkpoint edit that wants the very slug the next one is giving up |
| Deadlock.SomeoneProceeds | api/internal/operations/service.go:589-591 | any group of them without such a ring has a member that waits for no other |
| Deadlock.PartsProceedExactly | api/internal/operations/service.go:589-591 | every part of a group has a member that can go on if and only if the group has no such ring |
| Deadlock.EventPathNeverStalls | api/internal/operations/service.go:615-629 | with only such sessions open and no such ring, one has finished or is granted its next statement |
| Deadlock.ScansShareCheckpoints | api/internal/redemptions/service.go:369-376 | however many scans are under way, none waits for another at the checkpoint |
| Retry.RetryBound | api/internal/redemptions/service.go:177-186 | a key clash happens at most once per scan and is followed by a replay or a conflict; only repeated identifier collisions can use up three attempts |
| Reports.ReportIsTrue | api/internal/operations/service.go:735-773 | in every reachable state the total is the sum of highest ordinals, the unique attendees are the redemptions with ordinal 1, the confirmed are those the pass gate lets through |
| Services.Database.RecordOutcome | api/internal/redemptions/service.go:406-470 | row, redemption and event are inserted together or not at all, and the answer is the one the row stands for |
| Services.Database.LockPassByQRHash | api/internal/redemptions/service.go:379-391 | finds the pass, its holder and their eligibility |
| Services.Database.EffectiveEntitlement | api/internal/redemptions/service.go:393-404 | an override of the cycle replaces both defaults |
| Services.Database.Decide | api/internal/redemptions/service.go:284-336 | the tests in the source's order give the judged outcome and ordinal |
| Services.Database.RedeemAttempt | api/internal/redemptions/service.go:221-337 | one attempt does what its judgement says or leaves the database as it was |
| Services.Database.RedeemScan | api/internal/redemptions/service.go:177-186 | the loop answers with the first of three attempts that meets no unique violation, or fails and changes nothing |
| Services.Database.IssuePass | api/internal/passes/service.go:190-221 | does what its judgement says or leaves the database as it was |
| Services.Database.ReissuePass | api/internal/passes/service.go:255-293 | the same, undoing the replacement when the insertion fails |
| Services.Database.RevokePass | api/internal/passes/service.go:318-347 | the same |
| Services.Database.PassGate | api/internal/passes/service.go:514-546 | refuses exactly an invisible or an unconfirmed attendee, in that order |
| Services.Database.AppendDecision | api/internal/decisions/service.go:127-170 | decision, cache, attendee and events are written together or not at all |
| Services.Database.RecordDecision | api/internal/decisions/service.go:105-174 | does what its judgement says or leaves the database as it was |
| Services.Database.ReleaseDecision | api/internal/decisions/service.go:200-249 | the same |
| Services.Database.RespondToOffer | api/internal/rsvps/service.go:141-191 | the same |
| Services.Database.PutEntitlement | api/internal/operations/service.go:605-658 | the same |
| Services.Database.DeleteEntitlement | api/internal/operations/service.go:667-731 | the same |
| Services.Database.UpdateCheckpointFields | api/internal/operations/service.go:444-498 | the same, the slug conflict and the slug index included |
| Serving.Serve | api/internal/redemptions/service.go:147-186 | the object serves any of the seven kinds of call as judged, keeps every invariant, and does and refuses what the contracts say |
| Serving.ThroughIsSerial | api/internal/redemptions/service.go:147-152 | serving any sequence of calls one at a time is a serial history of those not refused, and keeps every invariant |
| Serving.InterleavingIsServed | api/internal/redemptions/service.go:221-348 | every interleaving without an outrun scan leaves the store that the object reaches serving the committed calls in the order they committed |
| Serving.KnownHashesAreServed | api/internal/passes/service.go:219-222 | the same of every interleaving whose scans carry known hashes |
| ScannerClient.OneRedemptionPerLookup | components/scanner-workflow.tsx:377-457 | one lookup leads to at most one redemption, plus one for each time a reload moved the selection under it |
| ScannerClient.NeverConflicts | components/scanner-workflow.tsx:109-114 | a stored row of a key made by the screen is always that request's own |
| ScannerClient.SecondKeyExactly | components/scanner-workflow.tsx:431-441 | a lookup makes a second key if and only if it was confirmed while the selection had moved since its latest request |
| ScannerClient.OneRedemptionUnlessMoved | components/scanner-workflow.tsx:377-457 | a lookup that is never confirmed so leads to at most one redemption |
| ScannerClient.OneRedemptionUnlessReloaded | components/scanner-workflow.tsx:377-457 | in particular one whose selection no reload moved |
| ScannerClient.OneRedemptionUnlessDisplaced | components/scanner-workflow.tsx:231-232 | a lookup leads to at most one redemption unless, after its latest request, a list of checkpoints arrives under it on which another one stands alone |
| ScannerClient.OneRedemptionWhileActive | api/internal/checkpoints/service.go:40-66 | so does a lookup whose checkpoints were active whenever the list was read |
| ScannerClient.OneRedemptionWithoutDeactivation | components/scanner-workflow.tsx:228-233 | while no checkpoint is deactivated, every lookup leads to at most one redemption |
| ScannerClient.OneRedemptionWithOneCheckpoint | components/scanner-workflow.tsx:228-233 | so it does where there is only one checkpoint |
| ScannerWitnesses.ReloadsCanSplitKeys | components/scanner-workflow.tsx:204-253 | where there is another checkpoint, organizers who switch the two over and back, each time followed by a reload, let one lookup send the same code to the same checkpoint under two keys |
| ScannerWitnesses.OneLookupTwoRedemptions | components/scanner-workflow.tsx:426-444 | for every such store in which a pass is due twice at the checkpoint, a run of this kind redeems it twice for one lookup |
| ScannerWitnesses.LeavesAlone | api/internal/operations/service.go:479-485 | edits can leave any checkpoint as the only active one, changing nothing else |
| ScannerClient.CommitRow | api/internal/redemptions/service.go:428-436 | a commit adds to the ledger at most the row of its own request |
| ScannerClient.ScannerSession.HandleRedeem | components/scanner-workflow.tsx:415-451 | confirms only what was looked up, reusing the retryable request for the same code and checkpoint |
| ScannerClient.ScannerSession.Redeem | components/scanner-workflow.tsx:377-384 | sends nothing while a request is under way |
| ScannerClient.ScannerSession.RedeemReturned | components/scanner-workflow.tsx:384-413 | ignores late replies, forgets the code on an answer, keeps the request on a retryable failure |
| ScannerClient.ScannerSession.LookupPass | components/scanner-workflow.tsx:330-345 | starts one lookup at a time and forgets the previous one |
| ScannerClient.ScannerSession.LookupReturned | components/scanner-workflow.tsx:346-375 | shows a found pass, forgets a revoked or unknown one, ignores late replies |
| ScannerClient.ScannerSession.HandleRetryRedemption | components/scanner-workflow.tsx:453-457 | resends the retryable request unchanged |
| ScannerClient.ScannerSession.HandleCredentialChange | components/scanner-workflow.tsx:272-277 | a new code forgets the lookup and the retryable request |
| ScannerClient.ScannerSession.CheckpointsLoaded | components/scanner-workflow.tsx:229-233 | keeps the selection while it is listed, else selects the only one listed or none, and leaves what was looked up |
| ScannerClient.ScannerSession.HandleCheckpointChange | components/scanner-workflow.tsx:317-323 | forgets the code, the lookup and the retryable request |
| Forms.ParsePublishedForm | api/internal/applications/service.go:494-608 | yields a form exactly for publishable documents, questions in order |
| Forms.QuestionIsGood | api/internal/applications/service.go:531-578 | decides whether a question document stands on its own |
| Forms.ReferencesAreGood | api/internal/applications/service.go:588-601 | decides whether every condition names another question that is answered yes or no |
| Forms.ValidateAnswers | api/internal/applications/service.go:610-679 | gives the verdict of a specification that knows no order of visiting, for answers visited in any order |
| Forms.CheckAnswer | api/internal/applications/service.go:624-658 | decides whether an answer conforms to its question |
| FormContracts.QuestionMeans | api/internal/applications/service.go:531-578 | a question document is good exactly if key, caption, kind, section, control, options, length and condition are as they must be, on its fields |
| FormContracts.PublishableMeans | api/internal/applications/service.go:494-608 | a document is published exactly if it has good questions with distinct keys, conditions on other yes-or-no questions, and a resume position among its questions |
| FormContracts.FormIsRead | api/internal/applications/service.go:571-587 | the form read from it has its questions in order and field by field |
| FormContracts.VerdictMeans | api/internal/applications/service.go:610-679 | on the fields: answers are fine as a draft exactly if each is to a shown question that takes it, and complete exactly if every shown required question is answered too, a text with at least one word |
| FormContracts.BreachIsInvalid | api/internal/applications/service.go:624-658 | each single breach makes answers invalid: unknown or hidden question, no text, too long a text, none of the options, no address, no number, neither yes nor no |
| Forms.CompleteIsDraft | api/internal/applications/service.go:667-678 | complete answers are acceptable drafts, and requiring completeness makes nothing invalid |
| Forms.ConditionsMeetBooleans | api/internal/applications/service.go:681-688 | on accepted answers a condition never meets anything but yes or no |
| Forms.AncestorsAreAnswered | api/internal/applications/service.go:660-666 | where a question is answered, every question it is nested under is answered as the nesting demands |
| Text.TrimMeans | api/internal/applications/service.go:637 | trimming drops white space and nothing else, all of it at either end |
| Text.WordsAdd | api/internal/applications/service.go:638-640 | the words of two texts joined by white space add up |
| Text.OneWord | api/internal/applications/service.go:638-640 | a text without white space is one word |
| Text.BlankHasNoWords | api/internal/applications/service.go:637-640 | a text trims to nothing exactly when it has no words |
| Text.SpaceMeans | api/internal/applications/service.go:637 | white space is these twenty-five code points |
| Intake.SubmittedMeansValidated | api/internal/applications/service.go:299-335 | in every interleaving a submitted application's answers are complete, its required resume exists and its confirmation is queued |
| Intake.AnswersAreFinal | api/internal/database/sqlc/applications.sql.go:482-502 | once submitted, answers and version never change again |
| Intake.WritesAreAtomic | api/internal/database/sqlc/applications.sql.go:458-467 | the k-th write expected and met version k and did what its call alone does there: no lost update |
| Intake.ApplicationRecord.SaveDraft | api/internal/applications/service.go:210-277 | replaces all answers of a draft at the expected version by those sent, if they are acceptable, or changes nothing; touches no other field |
| Intake.ApplicationRecord.SubmitDraft | api/internal/applications/service.go:280-365 | submits a complete draft with its resume within the window, repeats quietly, or changes nothing |
| Intake.ApplicationRecord.AdvanceVersion | api/internal/database/sqlc/applications.sql.go:458-467 | the guarded update advances exactly a draft at the expected version |
| Intake.SaveMeans | api/internal/applications/service.go:210-277 | what each outcome of a save takes, on the row |
| Intake.SubmitMeans | api/internal/applications/service.go:280-365 | what each outcome of a submission takes, on the row |
| Intake.StoredIsLatest | api/internal/applications/service.go:256-264 | in every interleaving the answers stored are those of the latest committed save and the address that of the latest committed submission |
| RateLimiter.RateBound | api/internal/httpapi/passes.go:82-113 | for clock readings that lag by up to a skew below the window, as many limits in any half-open window as the window less the skew goes into twice the window plus the skew, rounded up, less one request, plus once the limit per eviction of the address around it |
| RateLimiter.RateBoundInOrder | api/internal/httpapi/passes.go:82-113 | at most twice the limit less one request, plus one limit per eviction in the window, if the clock is read in the order of the calls |
| RateLimiter.RateBoundNearlyInOrder | api/internal/httpapi/passes.go:82-85 | at most three times the limit less one request, plus the evictions, if readings lag by up to a quarter of the window |
| RateWitnesses.BoundIsAttained | api/internal/httpapi/passes.go:82-113 | for every window of more than one instant, every configuration and every number of evictions, some run in the order of the clock spends exactly that bound |
| RateLimiter.RefusalIsEarned | api/internal/httpapi/passes.go:106-109 | an address is refused only after at least the limit's number of allowed requests less than a window and a skew ago |
| RateLimiter.TableIsBounded | api/internal/httpapi/passes.go:93-105 | the table never outgrows its capacity and counts stay between one and the limit, whatever the clock does |
| RateWitnesses.EvictionLiftsTheBound | api/internal/httpapi/passes.go:94-103 | for every configuration and every number of evictions, some run with all readings equal allows exactly one limit more than that many limits within one window |
| RateWitnesses.LagLiftsTheBound | api/internal/httpapi/passes.go:82-91 | for every configuration with room for two addresses and a limit of at least two, readings that lag by a single tick let one window see three times the limit less one, without an eviction |
| RateLimiter.ClaimRateLimiter.Allow | api/internal/httpapi/passes.go:82-113 | sweeps, counts, starts and evicts as the step relation says and keeps the table valid |
| RateLimiter.ClaimRateLimiter.OpenBucket | api/internal/httpapi/passes.go:93-105 | starts a bucket, evicting if the table is full |
| RateLimiter.ClaimRateLimiter.CountUp | api/internal/httpapi/passes.go:107-112 | counts up or refuses at the limit |
| RateLimiter.ClaimRateLimiter.Sweep | api/internal/httpapi/passes.go:87-91 | removes exactly the buckets whose window has run out |
| RateLimiter.ClaimRateLimiter.EvictOldest | api/internal/httpapi/passes.go:94-102 | removes one bucket that started first |
| RateLimiter.ClaimRateLimiter.constructor | api/internal/httpapi/passes.go:67-80 | replaces senseless settings by the defaults and starts empty |

## Where the code and its documentation part

* The comment on `Redeem` (api/internal/redemptions/service.go:147-152) names the locks that make a scan safe. They do not cover
  the lookup of an unknown hash: `Staleness.ExactUnlessOutrun` says exactly when that shows, `Races.ScanCanBeOutrun` that it can.
  Since a QR is handed out after its commit (api/internal/passes/service.go:219-222), `Staleness.KnownHashesAreExact` covers
  every scan of a QR that was handed out.
* The screen keeps one key per lookup except when a reload of the checkpoints (components/scanner-workflow.tsx:204-253) selects
  another one without clearing what was looked up. That takes a selected checkpoint that is no longer active, another that is
  the only active one (:231-232), and a reload under a shown lookup, which happens only if `getToken` and so `client` change
  identity (:167-168, :253) or such a reload failed and is tried again (:525). `ScannerClient.OneRedemptionUnlessDisplaced` and
  the three lemmas after it say when it cannot happen, `ScannerClient.SecondKeyExactly` exactly when a second key is made,
  `ScannerWitnesses.OneLookupTwoRedemptions` that one lookup can then redeem twice.
* The comment on `UpdateCheckpoint` (api/internal/operations/service.go:432-434) relies on a single lock order. The unique index
  on slugs (api/migrations/000007_scanner_redemptions.sql:13) is outside of it: `Races.EditsCanDeadlock`, and nothing else on
  the event path, `Deadlock.WaitCyclesAreOverSlugs`.
* The limiter's bound of twice the limit does not survive evictions, nor clock readings that overtake each other between
  api/internal/httpapi/passes.go:84 and :85. `RateLimiter.RateBound` accounts for both, `RateWitnesses` shows both.

## Left out

* Roles and the refusals that only check them, sessions, HTTP, JSON encoding, timeouts and logging.
* HMAC, base64 and random identifiers: a QR hash is a value on which only equality matters; new identifiers and the clock are
  parameters of each call, and an identifier already taken is handled as the source handles the unique violation.
* A malformed identifier in a request: calls start with parsed identifiers.
* Rows created while a run is under way other than passes, decisions, attendees, responses, overrides, ledger rows and
  redemptions: cycles, applications, checkpoints and activities are those of the initial store, which is arbitrary.
* `CreateCheckpoint`, `DeleteCheckpoint`, edits of activities and their slugs, exports, redemption listings.
* Staff passes, volunteer and scanner roles, seeding of attendee roles, reviews and review drafts.
* Issue, revocation, response and redemption timestamps; the claim hash of a pass.
* Deadlock freedom of issuing, reissuing, revoking, deciding and responding: a database that breaks a deadlock is an abort step,
  and `Races.ReissueCanDeadlock` shows that it is needed.
* A join that locks several rows is a sequence of row locks in the order the statement lists them; a row it no longer matches
  after waiting reads as not found.
* Foreign-key share locks, and the waits they cause: on rows that the same transaction has already locked, and on rows that it
  only refers to (a superseded decision, the actor's user row, the cycle).
* Services.Database.RedeemAttempt: assumes the foreign keys behind the QR index, which the database enforces and
  `Reachable.PassesAreLinked` proves of every reachable store.
* Intake.SubmittedMeansValidated: one application row with the form it was started on, which the database keeps immutable; an
  uploaded resume is never removed, but its replacement after submission is not excluded.
* Email parsing: whether a trimmed text is an email address is a parameter of the validator.
* ScannerClient.OneRedemptionPerLookup: a handler sees the state that the last one left; an event handled between a state update
  and the next rendering is not modelled. A reload may start and its list may arrive at any time, and the model lets the user
  act meanwhile where the screen shows that it is loading. Camera handling and the messages shown are left out.
* ScannerWitnesses.OneLookupTwoRedemptions: assumes checkpoint rows as the service writes them, valid and trimmed, with an
  activity of their cycle. Why `getToken` changes identity is not part of this model.
* RateLimiter.RateBound: readings lag by less than a window; the address is given, so trusted proxies and forwarded headers are
  left out.
