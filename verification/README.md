# DNSSEC key rotation: a verified model

The controller rotates the DNSSEC keys of PowerDNS zones and keeps the parent's DS record set in
step through a registrar. One persisted workflow per zone and kind walks through phases; every
reconciliation reads the key inventory, the registrar and DNS evidence, makes at most one external
write, and saves a transition. Processes stop at any moment, responses get lost, the state file may
be one update ahead of memory. This project models those state machines, the world they act on and
the evidence they rest on, and proves what operators rely on: no resolver ever loses the zone.

## How it is built

| files | content |
|---|---|
| `model`, `inventory`, `edits`, `plans` | records, key inventories with their validators, every store update, and what each handler decides as a value (a *plan*) |
| `store`, `controller`, `control`, `outbox` | the classes of the source: the store, the controller's handlers, the control calls and the delivery round, each proved to do what the plan or update says |
| `world`, `facts`, `good`, `listing` | the zone over time, runs, what resolver caches may still hold, and the invariant indexed by kind and phase |
| `races`, `safety`, `record_writes`, the `*_safety` files, `outside`, `runs` | every handler, control call, interfering Trigger and outside step keeps the invariant, cut off anywhere |
| `legit`, `logs`, `calls`, `aside`, `bookkeeping` | what no evidence can make a handler do: record invariants, markers before calls, the file one update ahead, other zones untouched |
| `enrollment`, `arming`, `replay` | the circuit breaker and the tombstones, which arming is in effect, and idempotency keys, over whole runs |
| `progress`, `willing`, `termination`, `liveness` | the shrinking measure, the exact evidence each handler needs, termination over runs, and a world that provides it |
| `proofs`, `provenance` | which evidence stands behind each step, and the world each call of a run was made in |
| `guarantees` | the theorems over whole runs |
| `split_writes`, `retirement` | the two key writes of a split migration; the inventory before a deletion |
| `text`, `material`, `dns`, `denial`, `quorum`, `evidence` | sorting and encoding, DNSKEY and DS comparison, the proof of DS absence, quorum lookups |

A plan is a small program of store updates and at most one call. `World.Perform` carries it out
against a *script* that says what each step meets: saved, not saved, or saved with the error only
after the rename; committed or not; response seen or lost; and between any two steps Triggers may
slip in, which do not wait for the controller's mutex. A script that ends is a crash. The methods of
`Controllers.Controller` are the handlers statement by statement, and
`Controllers.Controller.ReconcileZone` states that they end exactly where the plan ends, for every
script. All theorems quantify over every sequence of `World.Action`: reconciliations of any zone,
the four control calls, the outbox, the sweep, restarts, the clock, the registrar and the parent
acting whenever they like, TTLs growing, and PowerDNS relabelling keys.

## Assumptions

- Only the controller changes a zone's keys and its registrar data. Key ids are positive and never
  reused. PowerDNS and the registrar carry out an operation or do not; a registrar write that was
  accepted may be applied at any later time or never.
- The observer is truthful about what is served, and the TTLs it reads are no smaller than any TTL
  served so far. Replaced content reaches all servers within the propagation margin.
- Every active key with zone-signing flags signs zone data, every active key with key-signing flags
  signs the DNSKEY record set, and without an active zone-signing key all active keys sign; whether
  an active key-signing key also signs zone data beside zone-signing ones is left open. PowerDNS
  may label a key `csk` at any time, and `ksk` or `zsk` where its flags agree.
- Configuration is fixed and satisfies its floors (`internal/config/config.go`, lines 172 and 259);
  the clock is monotone and read once per step; the control server lets no enroll kind through
  (`internal/control/server.go`, line 176).
- A run starts with an empty state (`Bookkeeping.Opened`). Only the continuity theorems ask more: that
  every zone is then properly signed and free of unsigned cached data (`Runs.FirstStart`;
  `Guarantees.RunsExist` shows such runs exist, `Guarantees.NewZoneSteady` says from when on a newly
  signed zone qualifies, `Guarantees.NewlySignedZone` when enrolling a still newer one is safe).
- Hashes (transaction ids, event ids, key-set fingerprints, payload hashes) are kept as what they
  hash, that is, taken to be free of collisions. Zone names and algorithm labels are in one spelling.

## Where code and documentation differ

The specification says a zone has at most one active workflow. `start` and `Trigger` keep to that,
but `bootstrap` may add an enroll record beside an active one: `Guarantees.BootstrapAdmission` says
exactly when, `Guarantees.TwoActiveWorkflows` gives the case, and
`Guarantees.CrowdedZoneIsLeftAlone` shows that such a zone is then never written to. The branches
for a zone maximum TTL of zero are dead, since the maximum starts at a day (`Plans.MaxTtl`), and so
is the early return before an attested deadline (`Guarantees.NoHandlerActsEarly`).

A control call repeated under its idempotency key is meant to be answered from the key. Arming looks
its key up in a snapshot and does not look again inside its update, so a Trigger that slips in under
the same key is carried out and then loses the key: `Replays.KeyTakenOver` gives the case,
`Replays.EditKeys` shows that a key keeps its fingerprint exactly unless arming takes it over, and
`Replays.ReplayForever` that every other repetition, at any later point of a run, is answered.

## Model

| member | source | states |
|---|---|---|
| Guarantees.ZoneDataContinuity | internal/controller/controller.go:501-718 | RFC 7583 section 3.2.1 over every run: any cached DNSKEY set contains a key that signed any cached zone data, through retries, TTL growth and lost responses |
| Guarantees.ParentChainContinuity | internal/controller/controller.go:976-1115 | RFC 7583 section 3.3.1 over every run: any cached DS set names a key that is in, and signs, any cached DNSKEY set, although the parent goes straight from old-only to new-only |
| Guarantees.RolesKept | internal/controller/controller.go:636-718 | in every reachable world an active published key-signing key and an active published zone signer remain |
| Guarantees.CallsOnce | internal/controller/controller.go:446-498 | over every run, one workflow instance, up to the completion the controller itself sees, makes at most one create call per slot and one registrar update, and each call was announced on disk before |
| Guarantees.KeyCalls | internal/controller/controller.go:720-952 | enrollment touches no key; switches and deletions hit only the recorded new signer or the recorded, different old key; a registrar update carries exactly the recorded key |
| Guarantees.RunSound | internal/model/model.go:80-115 | every record in memory and on disk fits its kind, carries distinct ids where they matter, no leftovers when idle, and waits as long as its evidence demands |
| Guarantees.NoHandlerActsEarly | internal/controller/controller.go:300-303 | in every reachable state a handler that acts finds its evidence at least max(TTL, minimum) plus margin old |
| Guarantees.WaitsOnlyGrow | internal/controller/controller.go:1380-1428 | no update of a run brings a wait forward while its evidence stands, and only a block leaves a phase before it is due; a resume forgets the evidence, an attestation starts a zone-TTL wait at least as long |
| Guarantees.FileOneAhead | internal/state/store.go:117-181 | at every point of every run the file is as memory, or exactly one checked update ahead |
| Guarantees.CrowdedZoneIsLeftAlone | internal/controller/controller.go:189-191 | with two active workflows a reconciliation makes no call and changes no zone |
| Guarantees.BootstrapAdmission | internal/controller/controller.go:233-268 | bootstrap adds an active workflow exactly when it first discovers a zone that is not CSK |
| Guarantees.TwoActiveWorkflows | internal/controller/controller.go:258-267 | a zone rotating its ZSK that is discovered for enrollment has two active workflows |
| Guarantees.OneRotationPerZone | internal/controller/controller.go:182-298 | at every point of every run, in memory and on file, at most one of a zone's three rotations is active, whatever Triggers slip in |
| Guarantees.TriggerAdmitsOne | internal/controller/controller.go:1541-1561 | a trigger starts all its zones or none, each from no active workflow to exactly one |
| Guarantees.RunBreaker | internal/controller/controller.go:243-256 | in every reachable world no 24-hour window holds more admitted zones, and no more enrollments run, than allowed |
| Guarantees.EnrollmentSparesListedZones | internal/controller/controller.go:1459-1475 | every enrollment registrar write in the trace of a run was made under an arming of that run that took effect, and goes to no zone such an arming had listed as DNSSEC-enabled |
| Arming.ListedZonesSpared | internal/controller/controller.go:1459-1475 | once an arming took effect in memory, at once or by a reload, no zone it listed as DNSSEC-enabled is in the trace of enrollment writes at any point of the run |
| Arming.ArmedByRun | internal/controller/controller.go:1457-1476 | memory is armed only by an arming of the run; an armed file behind unarmed memory holds one |
| Arming.ArmingTakesHold | internal/state/store.go:117-181 | a saved arming takes effect at once, one that only reached the file when a restart still finds it there |
| Guarantees.NewlySignedZone | internal/controller/controller.go:720-814 | content replaced before a zone was discovered has left the caches when its enrollment asks the registrar if its TTL is within the discovery grace plus the publication wait, and for the quickest enrollment only then |
| Guarantees.NewZoneSteady | internal/controller/controller.go:216-270 | a newly signed zone is between workflows exactly from the moment its unsigned content is out of the caches |
| Runs.RunInv | internal/controller/controller.go:127-213 | the zone invariant, record invariants and call accounting hold at every point of every run |
| Runs.ReconcileInv | internal/controller/controller.go:170-213 | one reconciliation, with Triggers slipping in between any two of its steps, keeps the invariant of all zones, in memory and on disk, wherever it is cut off |
| Bookkeeping.RunOnward | internal/controller/controller.go:127-213 | from any point of a run to any later one memory changes by checked updates only, and record invariants and call accounting hold |
| Races.SlipLeaves | internal/controller/controller.go:1541-1547 | a Trigger that slips in leaves a zone with an active workflow alone; the file stays or falls back to what memory holds |
| Aside.OthersKept | internal/controller/controller.go:182-213 | a reconciliation and its Triggers keep the invariant of every other zone |
| Aside.ArmingKept | internal/controller/controller.go:182-213 | no reconciliation arms enrollment |
| Safety.SafePersist | internal/state/store.go:117-129 | a store update is safe if both its outcomes are, with the file possibly ahead of memory |
| Safety.RetryGood | internal/controller/controller.go:1396-1407 | a retry keeps what the phase guarantees |
| Safety.BlockGood | internal/controller/controller.go:1408-1428 | blocking keeps the zone safe, and keeps what a resume needs as long as no registrar transaction was recorded |
| Safety.SafeFinish | internal/controller/controller.go:1284-1319 | completion leaves a zone between workflows |
| PrepublishSafety.PrepublishSafe | internal/controller/controller.go:344-414 | prepublish keeps the invariant for every evidence and cut, including keys created without a response |
| PublishSafety.WaitPublishSafe | internal/controller/controller.go:501-547 | the publication wait ends with the new keys in every cache |
| ParentSafety.ParentReplaceSafe | internal/controller/controller.go:976-1062 | the registrar is asked for the new key only once every cache has it, and for nothing else |
| ParentSafety.WaitParentReplaceSafe | internal/controller/controller.go:1064-1115 | the parent wait ends with no other DS set in any cache |
| SigningSafety.ActivateNewSafe | internal/controller/controller.go:549-573 | the new signer starts while every cache has its DNSKEY, even if PowerDNS stops signing with the old key at that moment |
| SigningSafety.WaitNewSignatureSafe | internal/controller/controller.go:575-634 | the signature wait keeps the invariant, including an attested signer transition |
| SigningSafety.DeactivateOldSafe | internal/controller/controller.go:636-718 | the old key stops signing only where others sign, and the retirement wait then covers the zone TTL |
| SigningSafety.WaitRetireSafe | internal/controller/controller.go:1135-1152 | after the retirement wait no cache depends on the old key |
| SigningSafety.DeleteOldSafe | internal/controller/controller.go:1154-1221 | deleting the old key breaks no cached zone data and no cached chain |
| EnrollSafety.EnrollDiscoveredSafe | internal/controller/controller.go:720-786 | discovery, adoption and the ineligible exit keep the invariant |
| EnrollSafety.EnrollWaitPublishSafe | internal/controller/controller.go:788-814 | enrollment waits until every cache has and trusts the key-signing key |
| EnrollSafety.EnrollParentAddSafe | internal/controller/controller.go:816-896 | the parent learns of the recorded key only then |
| EnrollSafety.EnrollWaitParentSafe | internal/controller/controller.go:898-952 | enrollment completes with the registrar holding exactly that key |
| ReconcileSafety.AdvanceSafe | internal/controller/controller.go:300-342 | every phase of every kind is safe |
| ReconcileSafety.ReconcileSafe | internal/controller/controller.go:182-213 | so is the whole reconciliation after its snapshot, with Triggers slipping in anywhere |
| RecordWrites.StartGood | internal/controller/controller.go:272-298 | a rotation may start in any zone between workflows, a split only in a CSK zone |
| ControlSafety.BootKeeps | internal/controller/controller.go:216-270 | bootstrap keeps the invariant of its zone and all others |
| RecordWrites.TriggerKeeps | internal/controller/controller.go:1534-1564 | so does a trigger that listed its zones truthfully |
| ControlSafety.ResumeKeeps | internal/controller/controller.go:1656-1687 | so does a resume |
| ControlSafety.AttestKeeps | internal/controller/controller.go:1760-1782 | so does a signer attestation |
| ControlSafety.ArmKeeps | internal/controller/controller.go:1459-1475 | so does arming |
| Logs.LoggedSound | internal/controller/controller.go:1380-1395 | every state that comes from legal updates has sound records only |
| Logs.EditSound | internal/controller/controller.go:1284-1428 | each legal update keeps all records sound |
| Races.StartedEach | internal/controller/controller.go:1548-1561 | the batch of a trigger changes exactly its own records |
| Logs.ResumedEach | internal/controller/controller.go:1671-1683 | the batch of a resume changes exactly its own records |
| Logs.BaselinedEach | internal/controller/controller.go:1463-1471 | arming adds tombstones for unknown DNSSEC zones and changes no record |
| Logs.BootRecords | internal/controller/controller.go:218-269 | bootstrap adds records of its own zone and changes none |
| Legitimacy.AdvanceLegit | internal/controller/controller.go:300-342 | whatever the evidence, the plan of a due workflow is one of ten forms: markers first, own keys only, a sound and strictly smaller next record |
| Legitimacy.MeasureShrinks | internal/controller/controller.go:604-631 | the lexicographic order on TTL head-room, phases and open slots embeds into the natural numbers |
| Legitimacy.WaitNewSignatureLegit | internal/controller/controller.go:575-634 | the signature wait, its restart and its exit shrink the measure |
| Legitimacy.DeactivateOldLegit | internal/controller/controller.go:636-718 | the step back to the signature wait shrinks the measure as well, because the zone TTL grew |
| Progress.NeverLarger | internal/controller/controller.go:300-342 | a reconciliation cut off anywhere blocks or ends its workflow, shrinks it, or leaves all but retry bookkeeping and markers alone |
| Progress.SuccessShrinks | internal/controller/controller.go:300-342 | every handler call that does something and returns no error, whatever it wrote to PowerDNS or the registrar, ends its workflow or leaves it strictly smaller and not blocked |
| Termination.AnswersHelp | internal/controller/controller.go:300-342 | with every update saved and every call carried out and answered, a handler that neither fails nor blocks on its evidence succeeds |
| Termination.HelpMoves | internal/controller/controller.go:300-342 | then every plan that is neither idle nor a plain failure blocks, ends or strictly shrinks its workflow |
| Termination.NextNotLarger | internal/controller/controller.go:127-168 | no action of a run makes an active workflow larger: restarts, failed writes, control calls and other zones included |
| Willingness.SufficesExactly | internal/controller/controller.go:300-342 | a due handler neither idles, fails nor blocks exactly if the evidence listed for its phase is there |
| Termination.Terminates | internal/controller/controller.go:300-342 | in every run, while a workflow is under way, the reconciliations of it that succeed are bounded by the measure it had at the start |
| Termination.ReachesIdle | internal/controller/controller.go:300-342 | with sufficient evidence and obliging answers in every round the workflow is idle after at most as many rounds as its measure |
| Liveness.ZskRotationEnds | internal/controller/controller.go:344-718 | such rounds exist: after a first start and a trigger, a plainly signed zone reaches idle with its ZSK replaced |
| Liveness.RotationCompletes | internal/controller/controller.go:1135-1221 | the same from any point of that rotation |
| Provenance.CallsCalledFor | internal/controller/controller.go:549-1221 | every create, switch, deletion and registrar write in the trace of a run was made by a reconciliation of its zone, in a world where the replacement serves and signs, the parent and the registrar are as the call requires, and the zone TTL is within the recorded one |
| Calls.LegitFine | internal/controller/controller.go:446-498 | any legitimate plan, cut off anywhere and with Triggers slipping in, keeps calls counted, markers durable and memory on checked updates |
| Calls.MarkedCallFine | internal/controller/controller.go:1037-1061 | a counted call follows only a saved marker, with none counted before |
| Calls.EditMarks | internal/controller/controller.go:476-498 | no update but completion clears an attempt marker |
| Calls.EndedIs | internal/controller/controller.go:1284-1319 | a reload ends exactly the instance whose completion only the file held |
| Calls.ReloadTidy | internal/state/store.go:27-78 | a restart keeps markers, accounts and record invariants |
| Enrollment.BreakerHolds | internal/controller/controller.go:243-256 | the sliding-window and pending limits hold in every state ever held |
| Enrollment.RecordsLast | internal/controller/controller.go:1292-1306 | from any state to any later one enroll records are never deleted, never leave idle or blocked, and keep their discovery time through completion and the ineligible exit |
| Enrollment.ArmingBuries | internal/controller/controller.go:1463-1475 | a zone DNSSEC-enabled at arming has an idle baseline record then and in every later state |
| SplitWrites.InventoriesExclude | internal/controller/controller.go:2105-2184 | prepublished, all-active and old-deactivated inventories are pairwise exclusive |
| SplitWrites.ActivationCommutes | internal/controller/controller.go:549-573 | activating the ZSK maps the exact pre-state to the exact post-state under any relabelling |
| SplitWrites.DeactivationCommutes | internal/controller/controller.go:637-658 | deactivating the old key maps that state to the exact retired state |
| SplitWrites.RelabellingInvisible | internal/controller/controller.go:2296-2318 | labels that agree with the flags never change an inventory verdict |
| SplitWrites.ActivationRecognised | internal/controller/controller.go:549-573 | the write happens exactly in the pre-state, a replay is recognised exactly in the post-state, anything else blocks |
| SplitWrites.DeactivationRecognised | internal/controller/controller.go:637-658 | no second deactivation once the old key is inactive |
| Retirement.RetirementIsPublished | internal/controller/controller.go:1223-1264 | the validated retirement inventory is, as a multiset, exactly what the zone publishes |
| Retirement.RetirementLeavesSplit | internal/controller/controller.go:1981-1995 | before and after the recorded old key is removed the scheme is split |
| Inventory.CountScheme | internal/controller/controller.go:1981-1995 | the counting loop computes the scheme |
| Inventory.FindExactlyOneActive | internal/controller/controller.go:1996-2007 | returns the one active key of a type, None for none or several |
| Inventory.FindById | internal/controller/controller.go:2008-2015 | the first key with the id |
| Inventory.CheckPrepublish | internal/controller/controller.go:2105-2176 | accepts exactly the closed prepublish inventory |
| Inventory.CheckSplit | internal/controller/controller.go:2253-2290 | accepts exactly the closed split inventory with the old key as stated |
| Inventory.CollectRetirement | internal/controller/controller.go:1223-1264 | accepts exactly the retirement inventory |
| Inventory.CheckEnrollment | internal/controller/controller.go:2037-2098 | accepts exactly a clean, allowed split inventory with the recorded ids and fingerprint |
| Stores.Store.Update | internal/state/store.go:117-129 | success publishes what the file holds; failure leaves memory alone and the file at most this one update ahead |
| Stores.Store.Snapshot | internal/state/store.go:95-100 | a fresh copy of the state |
| Stores.Clone | internal/state/store.go:102-114 | copies every map entry |
| Stores.Store.WriteAtomic | internal/state/store.go:131-181 | the file changes exactly when the rename happened, error or not |
| Stores.Store.constructor | internal/state/store.go:27-78 | a restart holds what the file holds |
| Stores.SnapshotIsIsolated | internal/state/store.go:95-129 | overwriting a snapshot leaves the store and later snapshots as they were |
| Controllers.Controller.ReconcileZone | internal/controller/controller.go:182-213 | the handlers, run against any script, end exactly where the plan does |
| Controllers.Controller.Advance | internal/controller/controller.go:300-342 | dispatch by phase, retry recorded on any error, also after a block |
| Controllers.Controller.Save | internal/state/store.go:117-129 | one store update of a handler, as the plan's step |
| Controllers.Controller.Yield | internal/controller/controller.go:1534-1564 | Triggers of other connections go through between the steps and leave zones with an active workflow alone |
| Controllers.Controller.Transition | internal/controller/controller.go:1380-1395 | changes the record as it is then, not as the handler first read it |
| Controllers.Controller.Prepublish | internal/controller/controller.go:344-414 | chooses the old key, classifies the parent, fills the slots: for every script, memory, file, zone and calls end as the safe plan prescribes |
| Controllers.Controller.AdoptOrCreate | internal/controller/controller.go:416-474 | adopts the one exact candidate, or marks and creates; errors leave only a retry |
| Controllers.Controller.CollectCandidates | internal/controller/controller.go:418-440 | the candidate loop, failing at the first unacceptable key |
| Controllers.Controller.WaitPublish | internal/controller/controller.go:501-547 | proves the closed inventory and its publication, then waits or moves on: ends as the plan of PublishSafety.WaitPublishSafe |
| Controllers.Controller.ActivateNew | internal/controller/controller.go:549-573 | switches the new signer on at most once and records it: ends as the plan of SigningSafety.ActivateNewSafe |
| Controllers.Controller.WaitNewSignature | internal/controller/controller.go:575-634 | records the zone TTL, the overlap evidence or a restarted attested wait: ends as the plan of SigningSafety.WaitNewSignatureSafe |
| Controllers.Controller.GreatestZoneTtl | internal/controller/controller.go:2330-2338 | the greatest record TTL, at least a day |
| Controllers.Controller.DeactivateOld | internal/controller/controller.go:636-718 | re-proves everything, switches the old key off at most once, starts the retirement wait: ends as the plan of SigningSafety.DeactivateOldSafe |
| Controllers.Controller.WaitRetire | internal/controller/controller.go:1135-1152 | moves on only while the new signer signs: ends as the plan of SigningSafety.WaitRetireSafe |
| Controllers.Controller.DeleteOld | internal/controller/controller.go:1154-1221 | deletes an inactive old key, or finds it gone, and completes: ends as the plan of SigningSafety.DeleteOldSafe |
| Controllers.Controller.ParentReplace | internal/controller/controller.go:976-1062 | records a transaction, then its attempt, then writes once: ends as the plan of ParentSafety.ParentReplaceSafe |
| Controllers.Controller.WaitParentReplace | internal/controller/controller.go:1064-1115 | settles the job, records the DS TTL, moves on after the wait: ends as the plan of ParentSafety.WaitParentReplaceSafe |
| Controllers.Controller.PollJob | internal/controller/controller.go:1071-1086 | an unavailable job counts as done only when the registrar holds exactly the recorded key |
| Controllers.Controller.EnrollDiscovered | internal/controller/controller.go:720-786 | classifies, adopts or goes on to the publication wait: ends as the plan of EnrollSafety.EnrollDiscoveredSafe |
| Controllers.Controller.EnrollWaitPublish | internal/controller/controller.go:788-814 | observes the frozen pair and waits: ends as the plan of EnrollSafety.EnrollWaitPublishSafe |
| Controllers.Controller.EnrollParentAdd | internal/controller/controller.go:816-896 | freezes payload and transaction, marks, writes once: ends as the plan of EnrollSafety.EnrollParentAddSafe |
| Controllers.Controller.EnrollWaitParent | internal/controller/controller.go:898-952 | waits the greatest DS TTL seen and completes: ends as the plan of EnrollSafety.EnrollWaitParentSafe |
| Controllers.Controller.Start | internal/controller/controller.go:272-298 | admission is decided on the state that is changed |
| Controllers.Controller.CountEnrollments | internal/controller/controller.go:243-254 | the loop counts active enroll records and those discovered within a day |
| Controllers.Controller.BootstrapState | internal/controller/controller.go:216-270 | the bootstrap closure computes the specified state |
| Control.Plane.Trigger | internal/controller/controller.go:1481-1565 | refused, answered from its key, or one all-or-nothing update of the canonical zones |
| Control.Plane.Resume | internal/controller/controller.go:1570-1688 | the same for blocked split workflows whose live invariants all hold |
| Control.Plane.ReconcileSplitSignerTransition | internal/controller/controller.go:1693-1783 | the same for one attested signer transition |
| Control.Plane.ArmEnrollment | internal/controller/controller.go:1433-1478 | the same for arming, once |
| Control.Replay | internal/controller/controller.go:1535-1540 | repeating a successful call at once changes nothing and succeeds; another request under its key changes nothing and fails |
| Replays.ReplayForever | internal/controller/controller.go:1495-1500 | so it is at any later point of a run, after restarts and failed writes, exactly unless arming took the key over; once enrollment is armed always |
| Replays.EditKeys | internal/controller/controller.go:1534-1562 | no update removes a key, and it keeps its fingerprint exactly unless arming takes it over |
| Replays.KeyTakenOver | internal/controller/controller.go:1445-1476 | a Trigger that slips in while enrollment is armed under its key is carried out, and its repetition refused |
| Control.AllOrNothing | internal/controller/controller.go:1534-1564 | a failed call leaves memory alone, and the file at most its own update ahead |
| Control.Canonical | internal/controller/controller.go:1488-1493 | normalise, sort, compact |
| Control.PrintOfSet | internal/controller/controller.go:1494-1494 | the fingerprint depends only on the set of normalised names |
| Control.PrintSeparates | internal/controller/controller.go:1588-1588 | fingerprints of non-empty comma-free batches determine kind and names |
| Control.PrintsApart | internal/controller/controller.go:1703-1703 | fingerprints of different calls never meet |
| Control.ResolveZones | internal/controller/controller.go:1503-1533 | all zones of a request qualify, or none is taken |
| Control.TriggerIsReady | internal/controller/controller.go:1503-1533 | a resolved trigger is the step the run theorems cover |
| Control.ResumeIsReady | internal/controller/controller.go:1608-1655 | a resolved resume is the step the run theorems cover |
| Outbox.DeliverNotifications | internal/controller/controller.go:1321-1378 | a failed drop ends the round; otherwise it sends exactly the due events, each once, and the new outbox is the old one without what was delivered long ago and with each saved result recorded |
| Outbox.RoundKeepsEvents | internal/controller/controller.go:1321-1378 | a round loses nothing undelivered, changes no delivered event, and postpones a failed one by 2 to 256 minutes |
| Outbox.DroppedAfterDelivery | internal/controller/controller.go:1325-1340 | an event missing from a later state had been delivered, and its retention had passed, when it was dropped |
| Outbox.DeliveryStays | internal/controller/controller.go:1357-1365 | a recorded delivery is never taken back, unless the workflow completes again at the very instant the event names |
| Outbox.CompletionFilesEvent | internal/controller/controller.go:1288-1318 | the same update moves the workflow to idle and files its event, due at once |
| Outbox.AttemptSpacing | internal/controller/controller.go:1366-1370 | a failed attempt is repeated after 2 to 256 minutes, a successful one never |
| Text.SortUnique | internal/controller/controller.go:2360-2362 | sorted sequences with equal multisets are equal |
| Text.JoinsAgree | internal/controller/controller.go:1494-1494 | two lists join to the same text exactly when cutting at every comma gives the same pieces |
| Text.JoinSeparates | internal/controller/controller.go:1494-1494 | comma-free lists are told apart, except none from one empty name |
| Text.JoinConfuses | internal/controller/controller.go:1494-1494 | with a comma in a name they are not |
| Text.WorkflowKeyInjective | internal/model/model.go:144-144 | the record key determines zone and kind, even for zone names with a bar |
| Material.EncodeInjective | internal/controller/controller.go:2349-2351 | the encoding of a record loses nothing |
| Material.SortedCompare | internal/controller/controller.go:2352-2362 | sort-and-compare is multiset equality |
| Material.SameMaterial | internal/controller/controller.go:2345-2363 | true exactly for equal multisets of trimmed records |
| Material.OneRecord | internal/controller/controller.go:2345-2363 | against one expected record: exactly that record, once |
| Material.VerifyDnskeySet | internal/dnsprobe/probe.go:593-619 | accepts exactly the wanted multiset with the flags asked for and no foreign owner |
| Material.ExactDs | internal/dnsprobe/probe.go:653-671 | accepts exactly the expected DS multiset, digests without regard to case |
| Material.ExpectedDs | internal/dnsprobe/probe.go:577-592 | the sorted texts of the expected DS records |
| Denial.ValidDenialSignature | internal/dnsprobe/probe.go:316-332 | some current RRSIG of the parent over this very record verifies under a matching key |
| Denial.VerifyNoDsProof | internal/dnsprobe/probe.go:269-304 | accepts exactly on an exact record or on the first signed encloser with an Opt-Out span |
| Denial.AcceptedMeansNoDs | internal/dnsprobe/probe.go:269-304 | RFC 5155 sections 8.3, 8.6 and 8.9: if signed denial records are true, acceptance means the parent has no DS at the name, at any depth |
| Denial.EncloserMeans | internal/dnsprobe/probe.go:283-302 | the search found an existing ancestor whose next name does not exist in the chain |
| Quorum.LookUp | internal/dnsprobe/probe.go:357-411 | follows referrals through at most twelve levels |
| Quorum.Collect | internal/dnsprobe/probe.go:364-392 | one level, server by server; an objection ends it |
| Quorum.QuorumConfirms | internal/dnsprobe/probe.go:357-411 | success means two distinct servers of one level agree, none asked before or there objects, and the TTL is the greatest agreed on |
| Quorum.Unique | internal/dnsprobe/probe.go:699-708 | first occurrences in order, no repetition |
| Quorum.RrsetTtl | internal/dnsprobe/probe.go:682-690 | the greatest TTL of the records of a type |
| Evidences.DsEvidenceMeans | internal/dnsprobe/probe.go:357-411 | two servers served exactly the expected DS set with authority; the TTL is the greatest of theirs |
| Evidences.NoDsEvidence | internal/dnsprobe/probe.go:109-162 | succeeds exactly when two or more resolvers all show absence and the walk confirms it |
| Evidences.NoDsEvidenceMeans | internal/dnsprobe/probe.go:125-162 | two parent servers proved absence and no server asked reported a DS |
| Evidences.ShownMeansNoDs | internal/dnsprobe/probe.go:230-267 | one shown absence is a true one if the parent's signed records are |
| Evidences.VerifyNoDs | internal/dnsprobe/probe.go:230-267 | a negative answer with a proper parent SOA, authenticated parent keys and a proof |
| Evidences.DelegationEvidenceMeans | internal/dnsprobe/probe.go:167-214 | two parent servers gave exactly the expected name servers and none asked gave others |
| Evidences.DnskeyEvidence | internal/dnsprobe/probe.go:62-103 | succeeds exactly when every path shows exactly the wanted set and some authoritative TTL is positive; returns the greatest |

## Left out

- Evidence of one reconciliation is read at one moment, and the listing of a Trigger that slips into it is as fresh; changes between two reads of the same reconciliation are not modelled.
- Runs in observe mode, the order of zones within a tick and the error texts kept in records.
- The `Plan`, `Zones`, `Status` and `Audit` views, scope filters, and registrar request pacing: they read state and change nothing.
- JSON encoding, file modes, locks, fsync and state version migration: the file is one value with failure points before and after the rename.
- HTTP, sockets, the command line, YAML and logging.
- PowerDNS, registrar and mail clients: their operations are steps that commit or not and answer or not; job states are inputs.
- DNS message parsing, RRSIG verification, DS digests and NSEC3 hashing: functions given to the lookup, with names as lower-cased labels; the probe's own checks of RRSIGs over zone data and DNSKEY sets appear as the truthful observer.
- Glue and address lookup behind a referral: any function from a reply to addresses.
- Unicode case folding and white space beyond the ASCII and Latin-1 characters.
- Liveness.ZskRotationEnds: constructs the helpful world for the ZSK rotation of one plainly signed zone; for the other kinds and zones `Willingness.SufficesExactly` and `Termination.ReachesIdle` say what each round needs.
- Outbox.DeliverNotifications: the order of sending, by hashed event id, is left open.
- Controllers.Controller.ReconcileZone: the bootstrap update before it is a step of `World.ReconcileStep`, not of the method.
- Quorum.LookUp: the three lookups share one loop, which differs between them only in how a reply is read and whether a broken server matters.
