# Ordomata verification model

A Dafny 4.11 model of four parts of Ordomata that act on their own authority, and proofs of what they
promise. `dafny verify dfyconfig.toml` checks everything.

1. **Crash-safe artifact publication.** `FileSystem.dfy` is a POSIX file system seen by one process: inodes
   with their saved bytes, names in a volatile and a durable version, descriptors. Any call may fail; before
   any call other processes may do anything outside the two names the controller has claimed; every
   intermediate disk is kept in a ghost history, each element of which is a point at which a crash may strike.
   `PathWalk.dfy` is the component-by-component walk to a directory, `ArtifactFilesystem.dfy` is staging,
   publication with roll-back, classification and removal, with the two descriptor leases of a stage, and
   `ArtifactRuns.dfy` what they add up to. Nothing, or only the device, fails while a run is `calm`; most
   operations are then settled exactly. What a crash may find bound to the destination is part of the file
   system's validity, so every method that keeps it valid keeps it at every crash point; `sound` remembers
   whether anything incomplete was ever linked there.
2. **The evaluator and the admission gate.** `Canon.dfy` holds canonical documents: a digest keeps the value it
   was taken of, so equal digests mean equal values, and a prefix code gives a total order for sorting.
   `Authorization.dfy` holds requests, policies and their canonical forms, `Evaluator.dfy` the decision
   procedure (the loops of the source as methods proved against functions), `EvaluatorLaws.dfy`,
   `Approvals.dfy` and `Receipts.dfy` its laws. `PermissionClasses.dfy` says what each field of a request asks
   of its class, `EffectLaws.dfy` which of the four effects a request gets, and why, in terms of its fields, and
   `DecisionTerms.dfy` what a decision rests on, obliges to, and how long it lasts. `FixedPolicies.dfy` says
   what each of the three fixed policies permits, and `GateReasons.dfy` for what each gate blocks.
   `Proposals.dfy` is what every gate proposes to the evaluator, `Admission.dfy` the admission gate, the
   re-check at the moment of action, and the receipt. `Witnesses.dfy` holds the inputs for which a promise
   fails.
3. **The gates and the inspector.** `CanonicalParsing.dfy` reads persisted documents back, and
   `Reevaluations.dfy` says when the decision is reproduced from them. `AdmissionInspection.dfy` recomputes an
   admission; `EnforcingDecisions.dfy` is what the two later boundaries share, `RunRecords.dfy` what a run's
   other records say, and `DispatchBoundary.dfy`, `PublicationBoundary.dfy` and `PublicationReceipts.dfy` hold,
   for each boundary, the gate, its receipts and what the inspector recomputes of them. `RunInspection.dfy`
   applies the checks to the history of a run, `RunLaws.dfy` says what the absence of issues means,
   `RunHistories.dfy` which histories raise none, and `SampleRun.dfy` carries one attempt from admission to
   its artifact. `StoppedRuns.dfy` cuts such a history short wherever the controller can stop, `RunEndings.dfy`
   says how a clean run may have ended, and `RunOrder.dfy` in what order it recorded what it did.
   `RunGrounds.dfy` unfolds what its boundaries rest on, `Boundaries.dfy` compares the three gates, and
   `ReceiptLaws.dfy` says when receipts may be made and what their digests bind. `Ranking.dfy` is the recomputed
   ranking of execution profiles, `RankingLaws.dfy` its order in terms of scores.
4. **Two stores.** `ContextIndex.dfy` and `ContextPack.dfy` are the deduplicating context index and the
   budgeted pack; `Billing.dfy` and `AttestationStore.dfy` are the billing policy and the attestation file.
   `ContentLines.dfy`, `Utf8.dfy`, `BillingLaws.dfy` and `RefreshLaws.dfy` say what they come to in terms of
   lines, of bytes, and of the fields of records and assessments.

`Prelude.dfy` and `Sequences.dfy` are shared vocabulary. Times and scores are reals, enumerated values are
their strings, and exceptions are `Raised(...)`.

## What does not hold

The code was followed where a promise one might read into it fails:

- `publish_staged_artifact` compares the staged inode with itself and not with the intended content. A stage
  whose staging and withdrawal both failed keeps its identity and both leases, and is published as it is:
  `ArtifactRuns.IncompletePublication` runs into it. A publication is safe at every crash point, then and
  later, if and only if the inode held the whole content, all of it saved, at the call
  (`ArtifactRuns.PublishedSafelyExactly`); after a staging that succeeded it always did.
- If the first `fstat` after creating the staging file fails, the controller records no identity and the name
  stays, bound to the new empty inode; otherwise the name is as it was
  (`ArtifactFilesystem.StageArtifact`, `Uncaptured`).
- A publication that raises leaves the destination as it was only when the calls of its roll-back succeed
  (`clean` in `ArtifactFilesystem.PublishStagedArtifact`).
- A permit is not shortened by the approvals it rests on: `_approval_effect` collects their expiries and drops
  them when it returns nothing. `Witnesses.PermitOutlivesGrant` is approved for one second and permitted for
  sixty; `EvaluatorLaws.GrantCoversWindow` says for which requests and policies a grant lasts as long as the
  permit.
- The age that a requirement tolerates is tested at the evaluation only. `Witnesses.PermitOutlivesAge` is a
  permit in force while its evidence is too old; `EvaluatorLaws.AgeHoldsThroughWindow` says when there is none.
- The reasons of a decision follow the order of the policy's requirements, which a persisted policy does not
  keep. A re-evaluation reproduces a decision if and only if an earlier gate or a duplicated identifier decides,
  or the requirements that are rejected, or else the approvals that apply, stand in canonical order
  (`Reevaluations.ReevaluationExactly`); `Witnesses.RereadingChangesDecision` is an attempt without evidence
  whose decision changes.
- The class ceilings of the gate and of the inspector are written differently. They differ in one case only, a
  read-only action asked for as read-only (`AdmissionInspection.CeilingsAgree`); an admission always creates
  something, so it never arises.
- The dispatch policy enables read-only attempts, but to execute is never read-only, so no Class 0 attempt is
  ever dispatched (`DispatchBoundary.DispatchGateExactly`).
- The publication gate blocks a candidate that was not accepted, or whose scan did not pass, with a reason of
  its own; the inspector takes the same decision for a mismatch
  (`PublicationBoundary.PublicationAgreement`). The controller asks only about candidates that passed both.
- The controller stops for reasons that the inspector does not know. An attempt whose admission receipt was
  written but could not be confirmed, whose runner was no longer the controller's own, or that the billing
  preflight blocked, is reported although it stopped as it should; so is one whose billing assessment, or
  whose mark of running, was written but could not be confirmed (`StoppedRuns.UnexpectedStopsAreReported`;
  `StoppedRuns.ControllerStopsExactly` says which stops before the publication are accepted).
- The inspector cannot tell a refused admission from an admitted attempt whose billing could not be recorded: the
  first is accepted with the ending of the second (`StoppedRuns.MislabelledRefusalIsClean`,
  `RunLaws.RefusedAdmissionEnds`).
- It does not read how an attempt ended whose publication was refused. Such a history is clean even when it
  claims to have succeeded, without any artifact (`StoppedRuns.RefusedPublicationIsClean`).
- The admission shadow is recorded as well as can be, and its loss is reported
  (`RunLaws.LostShadowIsReported`).
- Nothing compares the moment at which a run was marked as running with its end, unless its dispatch is on record
  (`RunOrder.EndedFirstIsAccepted`); every other pair of records is compared (`RunOrder.OrderHolds`).
- For one of the two runners the clock of a billing attestation is not checked. A refresh at an instant before
  the epoch puts a file in place that every later read refuses (`AttestationStoring.AttestationStore.Refresh`,
  `AttestationStoring.UnreadableRefresh`).
- An error from the attestation store does not mean that the file is unchanged: the file is the new one exactly
  when it was replaced, which a failing sync of the directory does not undo
  (`replaced` in `AttestationStoring.AttestationStore.WritePrivate`).

## Model

| member | source | states |
|---|---|---|
| FileSystemModel.FileSystem.Link | src/ordomata/artifact_filesystem.py:301-306 | a hard link never rebinds an existing name and adds one to the inode's links; it leaves every later crash point sound exactly if the inode was complete |
| FileSystemModel.FileSystem.Unlink | src/ordomata/artifact_filesystem.py:352 | unbinds one name in the volatile namespace only; what is durable may lag behind |
| FileSystemModel.FileSystem.FsyncDirectory | src/ordomata/artifact_filesystem.py:666-671 | after success the names of the directory are durably what they are |
| FileSystemModel.FileSystem.Write | src/ordomata/artifact_filesystem.py:119-125 | appends any prefix of what it is given, and what a crash would leave of it is arbitrary until it is synced |
| FileSystemModel.FileSystem.CreateExclusive | src/ordomata/artifact_filesystem.py:98-107 | succeeds only when the name is free, with a new empty inode that has this one name |
| FileSystemModel.LinkedSafely | src/ordomata/artifact_filesystem.py:301-306 | once a name is bound to an inode, nothing that others do or that is written back can make a crash lose content if and only if the inode is complete and synced |
| PathWalk.OpenArtifactDirectory | src/ordomata/artifact_filesystem.py:456-622 | opens exactly one new descriptor, of a directory that the path named component by component during the walk, and none on failure; on an undisturbed disk it succeeds exactly when the path resolves, and reports "not found" exactly when a component is missing; when it may make directories it succeeds exactly when below the first missing component there is no "..", keeps every name there was, and each name it adds is durable |
| PathWalk.OpenComponent | src/ordomata/artifact_filesystem.py:482-622 | one step keeps one descriptor on success and none otherwise, and follows a symbolic link only out of a directory this process cannot change; on an undisturbed disk an entry is refused as invalid exactly when it is such a link elsewhere, or neither a directory nor a link |
| PathWalk.FindOrMake | src/ordomata/artifact_filesystem.py:482-535 | on an undisturbed disk an entry that is there is left alone, and one that is missing is made, when it may be: a new empty directory, whose name is durable before it is used |
| ArtifactFilesystem.StagedArtifact.Close | src/ordomata/artifact_filesystem.py:46-62 | both leases are closed and no other descriptor |
| ArtifactFilesystem.RemoveOwnedEntryAt | src/ordomata/artifact_filesystem.py:698-723 | unbinds only a regular file of the expected identity; success means the name was seen absent and is durably gone; with no failing call it fails only if something else is bound there |
| ArtifactFilesystem.WriteAll | src/ordomata/artifact_filesystem.py:119-125 | however the writes are split, success means the staged inode holds exactly the content |
| ArtifactFilesystem.StageHeld | src/ordomata/artifact_filesystem.py:96-216 | once the inode is captured every failure either proves it has no links and clears the stage, or keeps its identity and both leases; if no clean-up call failed, the staging name is gone and a stage is kept only for an inode that has another link; all descriptors but the leases are as before; on an undisturbed disk a name already taken is refused as such |
| ArtifactFilesystem.StageArtifact | src/ordomata/artifact_filesystem.py:68-216 | on success the destination is absent, durably so, and the staging name durably names a private inode holding the whole synced content, which had no other name; on failure as above, with exactly the leased descriptors open; with no inode captured the staging name is as at the start, or bound to the new empty inode after a failed `fstat`; on an undisturbed disk it succeeds exactly when the directory is there or can be made and both names are free in it |
| ArtifactFilesystem.RollbackChangedNamespace | src/ordomata/artifact_filesystem.py:409-431 | unbinds at most the two claimed names and only from the staged inode; with no failing call neither is bound to it afterwards |
| ArtifactFilesystem.PublishLeased | src/ordomata/artifact_filesystem.py:245-406 | "create if absent": an existing destination is never rebound, a failure whose roll-back calls succeed leaves it as it was, and descriptors are unchanged, whatever the staged inode holds; success means that the inode was seen with one name, with two, and with one again |
| ArtifactFilesystem.PublishStagedArtifact | src/ordomata/artifact_filesystem.py:219-406 | for any stage that holds its inode. Success: the destination durably names the staged inode, which was seen with the staging name alone, with both names, and with the destination alone, the staging name is durably gone, and the path named the held directory; failure: only the two names can have changed, and the destination is as before unless a roll-back call failed; success is certain on an undisturbed disk |
| ArtifactFilesystem.PublishedArtifactState | src/ordomata/artifact_filesystem.py:726-836 | "matches" means the exact bytes, a sole private link, the expected identity and a parent the path named; "absent" means no entry under that parent; a lease of another directory makes it unverifiable; on an undisturbed disk the answer is exactly that verdict |
| ArtifactFilesystem.InspectFile | src/ordomata/artifact_filesystem.py:779-822 | a file is accepted only after its bytes were read in full and its size, link count and mode seen right |
| ArtifactFilesystem.RemoveAndAccount | src/ordomata/artifact_filesystem.py:870-939 | an anchored success means the name is durably gone and every link the inode has is a tracked name |
| ArtifactFilesystem.RemoveOwnedPublishedArtifact | src/ordomata/artifact_filesystem.py:839-948 | True for the staging name means the inode has no links; True for the destination means it has the staging name as its only link or none; descriptors are unchanged; on an undisturbed disk True exactly when only tracked links exist, and without a lease exactly when the name is bound to the expected regular file or free, with no other name touched |
| ArtifactRuns.AfterCrash | src/ordomata/artifact_filesystem.py:119-406 | after any sequence of calls a crash binds the destination to nothing but the staged inode or what it was bound to before, and loses nothing if nothing incomplete was ever linked there |
| ArtifactRuns.StagePublishRemove | src/ordomata/artifact_filesystem.py:68-948 | stage, publish and remove under both names, with any interference and any failing calls: no crash at any point from the claim to the end loses content |
| ArtifactRuns.PublishedSafelyExactly | src/ordomata/artifact_filesystem.py:245-306 | a publication of any stage that holds its inode is safe at every crash point, up to its end and ever after, if and only if the inode held the whole synced content at the call |
| ArtifactRuns.IncompletePublication | src/ordomata/artifact_filesystem.py:245-301 | the condition can fail: after a device refused to write and to remove, the empty stage that is left is published |
| ArtifactRuns.FailedSyncLeavesNothing | src/ordomata/artifact_filesystem.py:171-193 | where only the saving of bytes fails, staging fails and leaves nothing behind: no name, no identity, no lease |
| ArtifactRuns.ClassifyPublished | src/ordomata/artifact_filesystem.py:726-836 | where nothing moves any more, a bound artifact classifies as a match if and only if its inode has one link, is private and holds the expected bytes, and the path names the held directory |
| ArtifactRuns.PublishThenCalm | src/ordomata/artifact_filesystem.py:726-836 | after a publication amid any interference and recovered faults, once calm begins the classification is a match if and only if the inode has one link and the path names the held directory |
| ArtifactRuns.PublishAndClassify | src/ordomata/artifact_filesystem.py:219-406 | whatever happens elsewhere on the disk, a published artifact is never classified "absent", and the destination durably names the whole content |
| ArtifactRuns.UndisturbedRun | src/ordomata/artifact_filesystem.py:726-836 | where nothing interferes and no call fails, in a directory that is there or has to be made: stage and publish, and it matches; remove, and it succeeds; then it is absent |
| Canon.JsonCode | src/ordomata/authorization.py:58-74 | no canonical form is the beginning of another, so equal canonical forms are of equal values |
| Canon.SortForgetsOrder | src/ordomata/authorization.py:621-634 | sorting by a key that tells elements apart does not depend on the input's order |
| Evaluator.DerivePermissionClass | src/ordomata/authorization.py:1223-1276 | raising the class dimension by dimension yields the derived class |
| PermissionClasses.DerivedIsLeast | src/ordomata/authorization.py:1223-1276 | the derived class is the least class at or above what each single field calls for: verb, four impacts, sensitivity, reach, blast radius, protection, destructiveness, reversibility |
| PermissionClasses.DeriveIsMonotone | src/ordomata/authorization.py:1223-1276 | raising any field of a request never lowers its class |
| PermissionClasses.OnlyDraftsArePermitted | src/ordomata/authorization.py:1498-1570 | nothing is permitted but a local draft: every impact low, reach local, one resource, unprotected, reversible, not destructive, and not deleting, sending or approving |
| Evaluator.JudgeInTurn | src/ordomata/authorization.py:1432-1486 | the loop's tests in the source's order give the one finding of a requirement and its trusted records |
| Evaluator.ValidateEvidence | src/ordomata/authorization.py:1412-1496 | the accumulated reasons, details, references and earliest expiry are those of the specification |
| Evaluator.SettleApprovals | src/ordomata/authorization.py:1653-1727 | the loop over requirements yields the specified approval effect |
| EvaluatorLaws.PermitExactly | src/ordomata/authorization.py:1309-1410 | a request is permitted if and only if every gate is open, the policy is in force, evidence records are told apart, each evidence requirement is backed and each applicable approval requirement is settled |
| EvaluatorLaws.GatesExactly | src/ordomata/authorization.py:1498-1651 | the early-return denials and environment checks amount to one conjunction |
| EvaluatorLaws.ValidExactly | src/ordomata/authorization.py:1412-1496 | evidence validates if and only if identifiers are distinct and every requirement has trusted records, all authentic, current, young enough and of the attribute's value |
| EffectLaws.EffectsExactly | src/ordomata/authorization.py:1309-1410 | which of the four effects a request gets, for every request and policy, in terms of their fields |
| EffectLaws.DeniedExactly | src/ordomata/authorization.py:1498-1600 | denied if and only if some mandatory gate is closed, with the reason and the rule of the first one that is |
| EffectLaws.ReasonsExactly | src/ordomata/authorization.py:1309-1410 | an indeterminate or deferred decision gives exactly the reasons that its evidence, its environment or its approvals give, at the first stage that stops it |
| EffectLaws.BlamedExactly | src/ordomata/authorization.py:1432-1486 | which of its seven reasons a requirement is rejected for, from the fields of the records that speak for it |
| EffectLaws.EvidenceBinds | src/ordomata/authorization.py:1472-1486 | no record serves two permitted requests that differ in the attribute it speaks for |
| DecisionTerms.ReferencesExactly | src/ordomata/authorization.py:1487-1496 | a decision that got as far as its evidence refers to exactly the records of the requirements that are met, each once, and any other to none |
| DecisionTerms.ObligationsExactly | src/ordomata/authorization.py:1371-1410 | a permit obliges to its audit and its class's restriction, a deferral to exactly the approvals still to be given, and nothing else obliges |
| DecisionTerms.DeferralEndsBy | src/ordomata/authorization.py:1711-1727 | a deferral has ended by an instant if and only if its time to live has, or a record it relies on, or a grant already given |
| DecisionTerms.EarlyDecisionsLast | src/ordomata/authorization.py:1315-1341 | a denial, and a decision under a policy not yet in force, lasts exactly the policy's time to live |
| EvaluatorLaws.ApprovalSettled | src/ordomata/authorization.py:1653-1727 | approval stands in the way of nothing exactly when every applicable requirement is approved |
| EvaluatorLaws.ExpiryFollowsIssue | src/ordomata/authorization.py:1029-1038 | every decision, of any request and policy, expires strictly after it is issued |
| EvaluatorLaws.DecisionIsValid | src/ordomata/authorization.py:1012-1059 | the decision on any valid request under any valid policy passes every check of a decision's constructor |
| EvaluatorLaws.PermitWindow | src/ordomata/authorization.py:1412-1496 | at every instant of a permit's window every trusted record of every requirement is authentic, observed, unexpired and of the attribute's value |
| EvaluatorLaws.PermitEnds | src/ordomata/authorization.py:1342-1343 | a permit ends exactly with the policy's time to live or the first record it rests on |
| EvaluatorLaws.PermitEndsBy | src/ordomata/authorization.py:1342-1343 | a permit has ended by an instant if and only if its time to live has, or a record that it requires |
| EvaluatorLaws.GrantCoversWindow | src/ordomata/authorization.py:1711-1727 | a grant of the request outlasts the permit if and only if the policy's time to live, or some record of a required attribute, ends no later than the grant |
| EvaluatorLaws.AgeHoldsThroughWindow | src/ordomata/authorization.py:1466-1471 | a trusted record stays young enough through the window if and only if the time to live, or some record of a required attribute, ends before it is too old |
| Witnesses.PermitOutlivesGrant | src/ordomata/authorization.py:1711-1727 | a request approved for one second is permitted for sixty |
| Witnesses.PermitOutlivesAge | src/ordomata/authorization.py:1466-1471 | evidence that may be 300 seconds old supports a permit while it is 301 |
| EvaluatorLaws.EvidenceOrderIsForgotten | src/ordomata/authorization.py:621-634 | permuting evidence with distinct identifiers changes neither the request's digest nor the decision |
| EvaluatorLaws.GrantOrderIsForgotten | src/ordomata/authorization.py:476-491 | permuting approval grants changes neither the digest nor the decision |
| EvaluatorLaws.ClaimsNeverDecide | src/ordomata/authorization.py:1412-1450 | a further MCP, provider or model record never changes the effect when no approval requirement applies |
| Approvals.ScopeIgnoresGrants | src/ordomata/authorization.py:640-660 | the scope digest does not depend on the grants |
| Approvals.ScopeBinds | src/ordomata/authorization.py:640-660 | equal scope digests mean the same request but for its grants and the value of its environment record, with claims and records equal as multisets; for records with distinct identifiers the converse holds too |
| Approvals.ApprovalProgress | src/ordomata/authorization.py:400-424 | a request deferred for approvals is permitted once every missing requirement has a grant made for it and the environment evidence is bound again |
| Approvals.ApprovalBinding | src/ordomata/authorization.py:1680-1710 | in a request of any other scope such a grant makes the decision indeterminate for an invalid approval |
| Receipts.DecisionBinds | src/ordomata/authorization.py:1730-1757 | a decision carries the digests of the request and the policy it was made for |
| Receipts.PermitOwesTwo | src/ordomata/authorization.py:1388-1397 | a permit owes an audit receipt and, by class, reading only or local isolation |
| Receipts.PermitIsUsable | src/ordomata/authorization.py:1143-1192 | a receipt started in the window with exactly the obligations satisfied is accepted |
| ReceiptLaws.RecordExactly | src/ordomata/authorization.py:1143-1192 | an action goes on record if and only if the decision is a permit of this request, the action started in its window and completed no earlier, every obligation is reported as met once and nothing else is, and nothing is malformed |
| CanonicalParsing.RequestRoundTrip | src/ordomata/authorization_inspection.py:5850-5968 | the canonical form of every readable request reads back, and has the same canonical form again |
| CanonicalParsing.ReadRequestIsCanonical | src/ordomata/authorization_inspection.py:5850-5968 | nothing but a canonical form of a readable request is accepted |
| CanonicalParsing.PolicyRoundTrip | src/ordomata/authorization_inspection.py:5971-6105 | the canonical form of every policy reads back, and has the same canonical form again |
| CanonicalParsing.ReadPolicyIsCanonical | src/ordomata/authorization_inspection.py:5971-6105 | nothing but a canonical form of a valid policy is accepted |
| Reevaluations.ReevaluationExactly | src/ordomata/authorization_inspection.py:5588-5601 | evaluating what was read back gives the decision of the originals, in itself and in its canonical form, if and only if an earlier gate or a duplicated identifier decides or the requirements that decide stand in canonical order |
| Reevaluations.EvidenceOrderAnyway | src/ordomata/authorization_inspection.py:5588-5601 | the order of the evidence never matters to it, even where identifiers repeat |
| Witnesses.RereadingChangesDecision | src/ordomata/authorization_inspection.py:5588-5601 | the decision on an attempt without evidence changes when its documents are read back |
| Proposals.ProposedPermits | src/ordomata/admission_authorization.py:346-365 | a proposal of any gate, with its five fresh records and no grants, is permitted exactly when the gates of its policy are open and no approval is called for |
| FixedPolicies.AdmissionPermitsOnly | src/ordomata/admission_authorization.py:774-812 | under the admission policy exactly the isolated creation of an admission is permitted, witnessed in each attribute and approved where that is asked for |
| FixedPolicies.DispatchPermitsOnly | src/ordomata/dispatch_authorization.py:850-905 | under the dispatch policy exactly the isolated execution of a mock attempt of Class 1 |
| FixedPolicies.PublicationPermitsOnly | src/ordomata/publication_authorization.py:1093-1110 | under the publication policy exactly the isolated creation of a local candidate |
| Admission.CreateIsNotReadOnly | src/ordomata/authorization.py:1223-1276 | whatever the resource and the consequences, creating derives at least Class 1 |
| Admission.GateDecision | src/ordomata/admission_authorization.py:184-432 | every decision of the gate matches its request and policy, is current, and is a permit exactly for a local draft with no approval before the run |
| Admission.GateAuthorizesExactly | src/ordomata/admission_authorization.py:373-432 | no block reason if and only if the controller's mock runner serves a Class 1 attempt that the legacy gate would run, without prior approval, and everything that the task says of itself is that of a local draft: impacts and sensitivity low, reach local, one resource, unprotected, reversible, not destructive |
| GateReasons.AdmissionReasons | src/ordomata/admission_authorization.py:373-432 | the reasons for which the admission gate blocks, each exactly when it applies, in order: its own decision is never mismatched, outdated or unsupported |
| Admission.PermitCurrentExactly | src/ordomata/admission_authorization.py:660-743 | the independent check at the moment of action adds exactly the permit's window to what the gate authorized |
| Admission.AssertExactly | src/ordomata/admission_authorization.py:519-575 | an admission is let through if and only if it is the one the gate would make again, the one persisted, unblocked and in its window |
| Admission.ReceiptExactly | src/ordomata/admission_authorization.py:578-657 | a receipt is built if and only if the admission is unblocked, starts in the window and does not complete before it starts |
| AdmissionInspection.DecisionAgreement | src/ordomata/authorization_inspection.py:4377-4733 | whatever the gate decides about an attempt that the run's records describe, the inspector raises no issue about the persisted decision |
| AdmissionInspection.ReceiptAgreement | src/ordomata/authorization_inspection.py:4980-5205 | nor about the receipt built for it |
| AdmissionInspection.CeilingsAgree | src/ordomata/authorization_inspection.py:4651-4655 | the two class ceilings agree if and only if derived and requested class are not both 0 |
| AdmissionInspection.SupportAgrees | src/ordomata/authorization_inspection.py:6371-6396 | the inspector's reading of persisted obligations accepts exactly what the gate supports |
| AdmissionInspection.CleanDecision | src/ordomata/authorization_inspection.py:4573-4714 | a persisted decision without issues is the evaluator's result for the persisted documents, with exactly the block reasons that the records call for |
| AdmissionInspection.EligibleDecision | src/ordomata/authorization_inspection.py:4676-4714 | and if it is eligible it is a Class 1 permit under the fixed policy, for the controller's mock runner, owing the two fixed obligations |
| AdmissionInspection.CleanReceipt | src/ordomata/authorization_inspection.py:5100-5205 | a receipt without issues means that the admission took effect in the window, with every trusted record current, and names the request and the action |
| EnforcingDecisions.EligibleIsAuthority | src/ordomata/authorization_inspection.py:5548-5685 | a dispatch or publication decision without issues is eligible only if it re-evaluates exactly to a permit that nothing blocks |
| EnforcingDecisions.EligibleDocument | src/ordomata/authorization_inspection.py:5588-5685 | then it is the permit of the very request and policy it holds, within the class the run was asked for, made at the moment it says, under its own digests |
| EnforcingDecisions.ProposalIsClean | src/ordomata/authorization_inspection.py:5548-5685 | whatever a gate decides about a proposal, no issue is raised but those that tie it to the run |
| EnforcingDecisions.ProposalExactly | src/ordomata/dispatch_authorization.py:474-509 | a proposal is unblocked if and only if the boundary has no reason of its own, the evaluator permits it, and its class is 1 and no more than was asked for |
| EnforcingDecisions.AuthorityHolds | src/ordomata/authorization_inspection.py:6605-6617 | used in its window, such a permit still has all its trusted evidence current |
| DispatchBoundary.DispatchGateExactly | src/ordomata/dispatch_authorization.py:306-528 | an attempt is eligible for dispatch if and only if the legacy gate would run it, no approval is due before the run, it asks for Class 1, and all that the task says of itself is that of a local draft |
| GateReasons.DispatchReasons | src/ordomata/dispatch_authorization.py:474-509 | the reasons for which the dispatch gate blocks, each exactly when it applies |
| DispatchBoundary.DispatchProjectsExactly | src/ordomata/authorization_inspection.py:6108-6255 | the scattered checks of the request pass for exactly one request, evidence aside: the one that binding, selection, billing and intent of the run call for |
| DispatchBoundary.DispatchAgreement | src/ordomata/authorization_inspection.py:5357-5703 | whatever the gate decides about an attempt that the run's records describe, the inspector raises no issue |
| DispatchBoundary.EligibleDispatch | src/ordomata/authorization_inspection.py:5357-5703 | a clean and eligible dispatch decision permits that one request, freshly backed, under the one fixed policy without approvals, for a Class 1 attempt on verified mock billing |
| DispatchBoundary.DispatchIsForOneRun | src/ordomata/authorization_inspection.py:6108-6255 | no replay: clean and eligible in two runs, it is of one run, binding, selection, assessment, task, prompt and lineage |
| DispatchBoundary.DispatchCurrentExactly | src/ordomata/dispatch_authorization.py:667-780 | the independent check at the moment of dispatch adds exactly the permit's window |
| DispatchBoundary.DispatchReceiptBuilds | src/ordomata/dispatch_authorization.py:783-847 | when a dispatch receipt is built, and what it says |
| DispatchBoundary.DispatchReceiptExactly | src/ordomata/authorization_inspection.py:6399-6694 | a dispatch receipt raises no issue if and only if it is the one the controller builds, in its window and in order, filed after it completed, with the result and the outcome of the accounting |
| PublicationBoundary.PublicationGateExactly | src/ordomata/publication_authorization.py:356-646 | a candidate is eligible for publication if and only if the controller's mock runner made it, the legacy gate would run the attempt, billing is settled, evaluation and scan passed, it asks for Class 1, and the four impacts and the sensitivity are low and nothing is protected |
| GateReasons.PublicationReasons | src/ordomata/publication_authorization.py:560-646 | the reasons for which the publication gate blocks, each exactly when it applies |
| Boundaries.AdmittedIsDispatched | src/ordomata/dispatch_authorization.py:306-528 | of the controller's own runner's attempts the dispatch gate lets through, at any later moment, exactly those that the admission gate does |
| Boundaries.AdmittedIsPublished | src/ordomata/publication_authorization.py:356-646 | for an admitted attempt the publication gate turns on exactly what the others could not know: that billing is settled, and that the result was accepted and scanned |
| Boundaries.PublishedUnadmitted | src/ordomata/publication_authorization.py:356-646 | it does not admit again: what is eligible for publication would be admitted exactly if no approval was due and the whole task is a local draft |
| PublicationBoundary.PublicationProjectsExactly | src/ordomata/authorization_inspection.py:7606-7700 | the scattered checks of the request leave nothing open but its evidence and its parameters, which the announcement confirms |
| PublicationBoundary.PublicationAgreement | src/ordomata/authorization_inspection.py:6977-7405 | of the gate's decisions that the run's records describe, the inspector raises no issue about exactly those whose candidate was accepted and scanned |
| PublicationBoundary.EligiblePublication | src/ordomata/authorization_inspection.py:6977-7405 | a clean and eligible publication decision permits the one request of this run, freshly backed, under the one fixed policy, after an own mock execution that succeeded and is settled |
| PublicationBoundary.PublicationIsForOneRun | src/ordomata/authorization_inspection.py:7606-7793 | no replay: clean and eligible in two runs, it is of one run, binding, dispatch decision, dispatch receipt and accounting |
| PublicationReceipts.PublicationCurrentExactly | src/ordomata/publication_authorization.py:848-982 | the independent check at the first file effect adds exactly the permit's window |
| PublicationReceipts.ActionBuilds | src/ordomata/task_evidence.py:544-686 | when an action receipt is built, and which of the two errors is raised otherwise |
| ReceiptLaws.AnnouncementBuilds | src/ordomata/task_evidence.py:431-541 | an announcement is built exactly for an eligible decision filed under a digest |
| ReceiptLaws.ActionBuildsExactly | src/ordomata/task_evidence.py:544-686 | an action receipt is built exactly inside the permit's window, in order, and with one of four outcomes: of a success the artifact and its size, of anything else only why |
| ReceiptLaws.AnnouncementDigestBinds | src/ordomata/task_evidence.py:514-541 | one digest of an announcement means one announcement |
| ReceiptLaws.ActionDigestBinds | src/ordomata/task_evidence.py:640-686 | one digest of an action means one action |
| ReceiptLaws.AccountingDigestBinds | src/ordomata/task_evidence.py:328-386 | one digest of an accounting means one accounting |
| ReceiptLaws.DispositionBinds | src/ordomata/task_evidence.py:287-325 | one digest of a billing disposition means one disposition |
| ReceiptLaws.MetadataDigestBinds | src/ordomata/task_evidence.py:411-428 | one digest of a metadata row means one artifact, at one place, of one run |
| PublicationReceipts.AnnouncementExactly | src/ordomata/authorization_inspection.py:9110-9255 | the announcement, with the decision that it completes, raises no issue if and only if it is the one the controller builds, filed under its own digest |
| PublicationReceipts.ActionExactly | src/ordomata/authorization_inspection.py:9258-9791 | an action receipt after it raises no issue, in itself and in its links to permit and announcement, if and only if it is the one the controller builds, completed in order inside the window, with an outcome that fits |
| PublicationReceipts.EnforcementExactly | src/ordomata/authorization_inspection.py:9492-9682 | the same of the enforcement receipt inside it |
| PublicationReceipts.MetadataExactly | src/ordomata/authorization_inspection.py:9014-9081 | the counting of metadata rows amounts to this: none without an action, one that describes the artifact if it succeeded, at most one otherwise, and no other |
| RunLaws.DispatchAuthority | src/ordomata/authorization_inspection.py:1696-1718 | no run reported clean under an enforcing binding has a running event without an earlier dispatch decision that permits this very run's dispatch under the fixed policy |
| RunLaws.AdmissionAuthority | src/ordomata/authorization_inspection.py:1639-1695 | under a schema 5 or 6 binding it was first admitted, by a permit used in its window, and admission, receipt, boundary record, dispatch decision and start follow each other |
| RunLaws.EffectAuthority | src/ordomata/authorization_inspection.py:1948-2020 | under schema 4 or later no clean run has an artifact, or a record of making one, without both permits for this very run, the dispatch receipt in its window, and the announcement and the action that name the publication permit, each in its turn |
| RunLaws.CleanEffect | src/ordomata/authorization_inspection.py:8817-9050 | an artifact without issues has one announcement and one action without issues, of an eligible permit, with the metadata, the accounting and the end of the run that they call for |
| RunLaws.ArtifactIsPermitted | src/ordomata/authorization_inspection.py:9794-9846 | every artifact row of a clean run is of this run, and its content, place and record are those that the permitted request names |
| RunGrounds.DispatchRestsOn | src/ordomata/authorization_inspection.py:5357-5703 | a clean run that may be dispatched is of Class 1, on the mock route as verified with high confidence, and its task's recorded intent is that of a local draft |
| RunGrounds.PublicationRestsOn | src/ordomata/authorization_inspection.py:7544-7567 | a clean run that may be published was executed by the controller's own mock runner, succeeded, matched its billing, and was charged and consumed nothing |
| RunGrounds.ArtifactRestsOn | src/ordomata/authorization_inspection.py:8944-9012 | a clean run with an announcement or an action was accounted for: observed, successful, matched, neither charged nor in doubt, in memory if on the mock route, with one billing disposition throughout |
| RunLaws.RefusedDispatchStops | src/ordomata/authorization_inspection.py:6797-6868 | a clean run whose dispatch was refused has no running event, receipt, runner event, accounting, announcement, action, artifact or success; its one terminal event, under its own identifier, follows the one decision, which follows billing, and says how it ended: blocked by the authorization, failed or cancelled by its persistence, or cancelled by its evaluation, if that failed |
| RunLaws.RefusedAdmissionStops | src/ordomata/authorization_inspection.py:5012-5041 | a clean run that was refused admission has no boundary, billing, execution or artifact |
| RunLaws.RefusedAdmissionEnds | src/ordomata/authorization_inspection.py:5236-5326 | its one terminal event says that it was blocked by the authorization, failed or cancelled by its persistence or by that of billing, or cancelled by an indeterminate evaluation |
| RunLaws.LostShadowIsReported | src/ordomata/authorization_inspection.py:1696-1718 | a run with a dispatch decision and no admission shadow is reported |
| RunEndings.RefusedAdmissionIsInert | src/ordomata/authorization_inspection.py:5236-5326 | nor has a refused admission announced, made or achieved anything; it ended after its binding |
| RunEndings.UndecidedAdmissionEnds | src/ordomata/authorization_inspection.py:5236-5326 | a clean run without an admission decision failed to record one, and nothing came of it |
| RunEndings.UnreceiptedAdmissionEnds | src/ordomata/authorization_inspection.py:5236-5326 | a clean run that was permitted but has no admission receipt stopped for one of three reasons, before its first boundary |
| RunEndings.UndecidedDispatchEnds | src/ordomata/authorization_inspection.py:5737-5827 | a clean run past its admission without a dispatch decision failed to record that decision, or the billing before it: which, by its one ending, and with no shadow but that of the admission, recorded earlier |
| RunEndings.UnreceiptedDispatchEnds | src/ordomata/authorization_inspection.py:6723-6794 | a clean run with a permit to dispatch and no receipt has executed nothing; its permit lapsed before or after it was marked as running, or it was never so marked |
| RunEndings.UnreceiptedPublicationEnds | src/ordomata/authorization_inspection.py:7830-7857 | a clean run with a permit to publish and no action announced it once, and was blocked because the permit had lapsed |
| RunEndings.RefusedPublicationLeavesNothing | src/ordomata/authorization_inspection.py:8881-8887 | a clean run that was refused publication has no announcement, action or artifact row |
| RunEndings.SuccessWasDecided | src/ordomata/authorization_inspection.py:7441-7465 | a clean run that claims success, or has left anything of a publication, was decided upon once, and cleanly |
| RunEndings.NothingUnexpected | src/ordomata/authorization_inspection.py:6994-7010 | a clean run has no record of a boundary that its binding does not enforce |
| RunEndings.HistoryIsBounded | src/ordomata/authorization_inspection.py:1568-1611 | a clean run has one binding at most, each shadow at most once, no artifact without a binding, and has ended after whatever was assessed or accounted for |
| RunEndings.TerminalExactly | src/ordomata/authorization_inspection.py:9849-9981 | the two checks of the end of an action pass if and only if the run ended as its action did: with a success it says what announcement and accounting say, with a failure or cancellation that nothing is there, and with anything unknown it is quarantined |
| RunOrder.OrderHolds | src/ordomata/authorization_inspection.py:1639-2029 | however far a bound run came, its order is accepted if and only if nothing is there without what it calls for, and every two of its nineteen marks stand in one order, but for one pair |
| RunOrder.CleanRunsAreOrdered | src/ordomata/authorization_inspection.py:1639-2029 | so a clean bound run recorded what it recorded in that order, wherever it ended |
| RunOrder.EndedFirstIsAccepted | src/ordomata/authorization_inspection.py:1639-2029 | the one pair that is not compared: a run marked as running after its end |
| RunLaws.OrderExactly | src/ordomata/authorization_inspection.py:1639-2029 | for a complete run the scattered pairwise checks raise no issue if and only if all boundaries form one chain |
| RunLaws.SuccessfulExactly | src/ordomata/authorization_inspection.py:1309-2040 | a successful schema 5 or 6 run is reported clean if and only if each of its three decisions, its admission and dispatch receipts, its announcement, action, metadata, accounting and terminal event are clean, the chain holds, and nothing speaks against the rows whose contents are not modelled |
| RunHistories.IntendedHistoryIsClean | src/ordomata/authorization_inspection.py:1309-2040 | whenever decisions, receipts and end of the run are clean, the history that records every boundary in order is reported clean |
| RunHistories.AuthorizedAttemptIsClean | src/ordomata/authorization_inspection.py:1309-2040 | every attempt that all three gates authorize, with the receipts the controller builds in their windows, has a clean history |
| RunHistories.CleanReceiptsAreTheControllers | src/ordomata/authorization_inspection.py:6399-9791 | and where the decisions are the gates' own, such a history is clean only with the receipts that the controller builds for them |
| StoppedRuns.StoppedExactly | src/ordomata/authorization_inspection.py:5236-6868 | a history cut short anywhere before the publication is clean if and only if what was recorded is sound and its last event names a stop that is accepted there |
| StoppedRuns.StoppedAtPublicationExactly | src/ordomata/authorization_inspection.py:6977-7857 | and at the publication if and only if that was refused, or permitted, announced and lapsed |
| StoppedRuns.ControllerStopsExactly | src/ordomata/orchestrator.py:1060-1670 | of the histories that the controller leaves when it stops, the inspector accepts exactly those |
| StoppedRuns.RefusedAdmissionIsClean | src/ordomata/orchestrator.py:1065-1100 | the history of an attempt that was refused admission raises no issue |
| StoppedRuns.RefusedDispatchIsClean | src/ordomata/orchestrator.py:1433-1466 | nor does that of one whose dispatch was refused |
| StoppedRuns.LapsedDispatchIsClean | src/ordomata/orchestrator.py:1530-1670 | nor that of one whose permit lapsed, before or after it was marked as running |
| StoppedRuns.RefusedPublicationIsClean | src/ordomata/orchestrator.py:1915-1935 | nor that of one whose publication was refused, even if it claims success |
| StoppedRuns.LapsedPublicationIsClean | src/ordomata/orchestrator.py:1915-1925 | nor that of one whose publication was announced and then lapsed |
| StoppedRuns.FailedAdmissionIsBare | src/ordomata/admission_authorization.py:444-516 | a failed evaluation of an admission is accepted in the one form in which it is persisted |
| StoppedRuns.FailedDecisionIsBare | src/ordomata/dispatch_authorization.py:531-573 | and so is that of a dispatch or a publication |
| StoppedRuns.UnexpectedStopsAreReported | src/ordomata/orchestrator.py:1150-1330 | ways of stopping that the inspector reports although the controller stopped as it should |
| StoppedRuns.MislabelledRefusalIsClean | src/ordomata/authorization_inspection.py:5737-5827 | a refused admission that ends as if its billing could not be recorded is accepted |
| SampleRun.SampleRunIsClean | src/ordomata/authorization_inspection.py:1309-2040 | there is such an attempt: one Class 1 task goes from admission to its artifact, and its history raises no issue |
| Ranking.MergeBuckets | src/ordomata/authorization_inspection.py:4034-4048 | the merge loop ends, with the interleaving of the buckets that is lexicographically least by latency and identifier |
| Ranking.BuildBuckets | src/ordomata/authorization_inspection.py:4000-4033 | one bucket for each comparable pool, by efficiency, latency and identifier, and one for each candidate without efficiency |
| Ranking.GroupByQuality | src/ordomata/authorization_inspection.py:3991-3996 | the groups are the candidates of each quality, in order of appearance |
| Ranking.RankItems | src/ordomata/authorization_inspection.py:3991-4048 | better qualities come first, and each quality group is its least interleaving |
| RankingLaws.QualityFirst | src/ordomata/authorization_inspection.py:3974-3996 | of two ranked profiles the one of the better quality, field by field, comes first |
| RankingLaws.MoreEfficientFirst | src/ordomata/authorization_inspection.py:4023-4033 | of two of one quality, runner, pool and unit, the more efficient comes first, then the faster, then the one of the lower identifier |
| RankingLaws.FasterFirst | src/ordomata/authorization_inspection.py:4034-4048 | across pools, a profile that is the next of its pool is ranked behind another only if that is no slower |
| RankingLaws.ScoresExactly | src/ordomata/authorization_inspection.py:3933-3971 | what a profile is ranked by, from its record, each score the nearest millionth, halves to the even |
| Ranking.RankCandidates | src/ordomata/authorization_inspection.py:3933-4049 | scores are recomputed; a ranking is returned exactly when every identifier, score and reference is well formed, and ranks the eligible candidates |
| Ranking.RanksHolds | src/ordomata/authorization_inspection.py:3974-4049 | a ranking is a permutation of the eligible candidates |
| Ranking.RankingIsUnique | src/ordomata/authorization_inspection.py:3974-4049 | for distinct identifiers there is only one ranking of the same candidates |
| Ranking.CandidateOrderIsForgotten | src/ordomata/authorization_inspection.py:3974-4049 | the order in which candidates are listed does not matter |
| Ranking.RoundedKeepsOrder | src/ordomata/authorization_inspection.py:3933-3971 | rounding to six decimals never reverses the order of two values |
| Ranking.BetterRanksFirst | src/ordomata/authorization_inspection.py:3933-4049 | a candidate at least as good as another in every respect is never ranked behind it, unless their scores are the same |
| ContextIndexing.HashOfContent | src/ordomata/context.py:27-37 | equal hashes mean equal contents but for line ends, and a created source always passes the check of an ingest |
| ContentLines.NormalizeLines | src/ordomata/context.py:27-32 | of whatever lines a content consists, each line end becomes a line feed and nothing else changes |
| ContentLines.HashOfLines | src/ordomata/context.py:27-37 | two contents have one hash if and only if they have the same lines, whatever ends them |
| ContextIndexing.ContextIndex.Upsert | src/ordomata/context.py:268-291 | stores the row unless another row has its hash, which violates the constraint |
| ContextIndexing.ContextIndex.Ingest | src/ordomata/context.py:249-296 | keeps the tables consistent, does what the specification says, and never violates the constraint |
| ContextIndexing.ContextIndex.IngestMany | src/ordomata/context.py:298-299 | stops at the first refused source and keeps what came before |
| ContextIndexing.IngestKeeps | src/ordomata/context.py:249-296 | after any ingest hashes are unique, full-text rows are exactly the sources' (id, title, content), the reported canonical source holds the reported hash, and nothing else changed |
| ContextIndexing.IngestTwice | src/ordomata/context.py:253-264 | ingesting a source again at once changes nothing and reports the same holder |
| ContextIndexing.RunKeeps | src/ordomata/context.py:298-299 | over any run of ingests the tables stay consistent and hold only what was there or ingested |
| ContextIndexing.ContentIsHeld | src/ordomata/context.py:298-299 | over any accepted run every content stays with its reported holder until that holder is updated |
| ContextPacking.TokensBracketBytes | src/ordomata/context.py:40-44 | four times the token total is at least the bytes and at most the bytes plus three for each source |
| Utf8.ByteCountMeasures | src/ordomata/context.py:40-44 | the byte count is the length of the UTF-8 encoding of RFC 3629, which reads back to the same code points |
| ContextPacking.Select | src/ordomata/context.py:389-427 | hits are partitioned in order, totals are exact sums within budget, and every hit left out for a budget would still break it if added to the final pack |
| ContextPacking.BuildPack | src/ordomata/context.py:368-451 | the two configuration errors exactly, and otherwise a pack of that selection that verifies its own snapshot hash |
| ContextPacking.PackIsBounded | src/ordomata/context.py:383-432 | the pack is within every budget, its estimate brackets its bytes, and every hit is included or excluded |
| ContextPacking.SnapshotBinds | src/ordomata/context.py:201-204 | two packs that verify under one snapshot hash are equal, contents included |
| Billing.ParsedIsStorable | src/ordomata/attestation.py:550-589 | whatever can be parsed can be stored again, in canonical form |
| Billing.StoredIsParsed | src/ordomata/billing.py:240-316 | a stored attestation parses back to itself unless one of its instants is negative |
| Billing.Load | src/ordomata/billing.py:136-188 | the loader returns the record of the account when exactly one matches, and nothing otherwise |
| Billing.SubscriptionBlockers | src/ordomata/billing.py:366-456 | the step-by-step checks yield the specified codes in order |
| BillingLaws.BlockersAreFailures | src/ordomata/billing.py:366-456 | the codes are exactly those of the checks that fail, in order, for every assessment, with and without an attestation |
| BillingLaws.NothingBlocksExactly | src/ordomata/billing.py:366-456 | a route is let pass if and only if the account's own evidence holds through the period and an operator attests, of this runner and account, all that has to be attested, for no longer than a day |
| BillingLaws.ParsedExactly | src/ordomata/billing.py:240-315 | which records are read, by their fields |
| BillingLaws.LoadedExactly | src/ordomata/billing.py:136-188 | the loader answers if and only if one element of the list, and no other, is a readable record of the account |
| BillingLaws.StorableExactly | src/ordomata/attestation.py:550-589 | which attestations are written, by their fields: those that state all that their runner's operator has to |
| Billing.LoadedAttestation | src/ordomata/billing.py:660-674 | a loaded attestation raises no blocker for a matching assessment if and only if its window covers the instant and the required end and is not too long |
| Billing.AllowedExactly | src/ordomata/billing.py:366-456 | with it, nothing blocks if and only if also the runner's own route, capacity window and, for codex, balance are right |
| AttestationStoring.ReadRetained | src/ordomata/attestation.py:445-525 | the retained list, or the refusal of an invalid, ambiguous or misdated record |
| RefreshLaws.RetainedExactly | src/ordomata/attestation.py:445-525 | a list is read if and only if its records are readable, of different accounts, and neither from the future nor lasting too long; what has not expired is kept of it |
| RefreshLaws.ReadsExactly | src/ordomata/attestation.py:445-500 | a file is read if and only if there is none or it is such a list |
| RefreshLaws.SupportedExactly | src/ordomata/attestation.py:214-297 | which assessments support a refresh, by their fields, for each runner |
| RefreshLaws.BuiltExactly | src/ordomata/attestation.py:140-178 | what is stored: for an hour, or a quarter of an hour |
| RefreshLaws.RefreshServesExactly | src/ordomata/attestation.py:140-178 | from a refresh to the policy: the stored attestation lets a route pass exactly for its runner and account, while the account's own evidence holds and the lifetime lasts |
| AttestationStoring.OwnReadsBack | src/ordomata/attestation.py:503-525 | what a refresh wrote is read back whole at any later time, less what has expired |
| AttestationStoring.MergedHolds | src/ordomata/attestation.py:347-360 | the new file holds the new record and the other runner's unexpired ones, and nothing else |
| AttestationStoring.LoadsAfterRefresh | src/ordomata/attestation.py:347-360 | the loader then returns the new attestation, nothing else of its runner, and of the other runner what it returned before, if that has not expired |
| AttestationStoring.UnreadableRefresh | src/ordomata/attestation.py:276-294 | what a refresh at an instant before the epoch puts in place is refused by every later read |
| AttestationStoring.RefreshIsEnough | src/ordomata/attestation.py:140-178 | for the attested account no attestation blocker arises exactly within the hour, or the quarter of an hour, after the refresh |
| AttestationStoring.AttestationStore.WriteAll | src/ordomata/attestation.py:541-547 | success means the temporary file holds the whole payload |
| AttestationStoring.AttestationStore.Replace | src/ordomata/attestation.py:391-397 | a crash may leave the old or the new file, and any part of a new file that was not synced |
| AttestationStoring.AttestationStore.WritePrivate | src/ordomata/attestation.py:315-417 | the file is the new one exactly when it was replaced; at every moment a crash leaves the old file or the whole new one; without a failing call it fails only if the old file cannot be retained; no single failure leaves a temporary file behind |
| AttestationStoring.AttestationStore.Refresh | src/ordomata/attestation.py:89-183 | at any instant: the file is new exactly when it was replaced, each write is old or new at a crash, with evidence, confirmation and no failing call it succeeds, and the store can read its own file exactly unless one was put in place before the epoch |

## Left out

- ArtifactFilesystem.PublishedArtifactState: the expected bytes stand for the expected digest and size.
- RunLaws.SuccessfulExactly: the contents of binding, selection, billing, accounting and shadow rows are taken as the inspector reads them, and the issues about them are the given set `others`; the shadow decisions themselves are not modelled.
- RunInspection.ArtifactIssues: the receipts of older, shadow-only bindings are not inspected, nor are comparison trials.
- DispatchBoundary.DispatchGate: the resolution of a task's intent from its contract is given, and the containment and layout of paths, the identity of task and profile and the digest of the prompt are one flag.
- PublicationReceipts.BuildPreEffect: record fields that can have one value only (schema version, mode, coverage, authority basis) are left out of the documents, here and at the other gates.
- CanonicalParsing.RequestRoundTrip: holds for claim-free, grant-free requests of at most 32 evidence records, the only ones the reader accepts.
- AttestationStoring.AttestationStore.Refresh: the size limit of the file is not modelled; two records never reach it.
- Ranking.RankCandidates: scores are computed and rounded over the reals, not in binary floating point.
- ContextPacking.BuildPack: the hits of the search are arbitrary; query terms, FTS5 and bm25 are library behaviour.
- ContextIndexing.HashOfContent: Unicode normalization of content is not modelled, only that of line ends.
- File systems: failing `close`, the `fchmod` calls of the attestation store, asynchronous interruption, ownership checks, redirected targets of system symbolic links, and the reuse of inode numbers and descriptors.
- Text: JSON spelling, regular expressions, blank and control characters, and the difference between integers, floats and booleans in JSON; a digest is an injective constructor, and the order of two digests is not that of their spelling.
- Events: payload key sets and types; whether an identifier is the one its content calls for is one flag, and the results of a receipt are listed in canonical order.
- The payload of a failed publication evaluation as the gate builds it; a persisted one is checked as the inspector does.
- SQLite, WAL snapshots and row readers; comparison trials and schemas 1 and 2.
- Command line, supervisor, runner adapters, routing and scheduling.
- Post-run billing assessment from free-form event text, and the terminal dialogue of an attestation refresh.
