# CasaSmart hub: models and proofs

The CasaSmart hub is a Home Assistant integration. Most of its logic lives in
small state machines that share a hub with interleaved requests, failing writes
and failing service calls. This project models the hard ones and proves what
their documentation promises, over every input, every order of steps or every
run. Where a promise is false the code is modelled as it is, the failing case is
proved to exist, and the exact condition under which the promise holds is
proved instead.

Protocols are state machines whose steps are the code between two awaits; any
enabled step may come next. Objects that change their fields are classes whose
methods are proved against specification functions, and the laws are proved
about those functions.

| Part | Files | Models |
|---|---|---|
| Shared | Wrappers, Documents, CappedTable | results, JSON values and string order, tables cut to their newest rows |
| Energy Saving protocol | EnergyProtocol, EnergyProtocolProofs, EnergyTransitions, EnergyAutomations | lock, generation counter, cancellable pass, automations owed a restore |
| Energy Saving rules and storage | EnergyConfig, EnergyState, EnergyEngine, EnergyRules, EnergyReasons, EnergyWizard | validators, coercion, live state against tables, static rules, wizard check |
| Device identity | AuthEngine, AuthScopes, TokenRuns, PairingProtocol, PairingGrants, PairingManager | device table and its cache, tokens, pairing codes, the owner's member |
| Alarm | AlarmEngine, AlarmProtocol | arm state machine, bounded history, entry-delay timer |
| HQ reminders | HqNotifications, HqIngress, RateLimiter | nonce and event tables, the locked delivery, the rate limit |
| Automation editing | ActionTree, AutomationConfig, ActionPaths | colour temperatures over nested action trees, list edits |
| Athan and room commands | AthanScheduler, RoomCapture, RoomCommands | prayer timers with retries, room captures, keyed commands |

## What the proofs found

- A crash between an accepted `turn_off` and the save of the remembered set
  loses that automation's restore, although the pass promises that a crash cannot
  lose what is owed (`energy_runtime.py:156-164`). `CrashCanLoseOwed` builds the
  run; `StepLosesExactly` says these are the only steps that lose anything.
- A restart forgets all releases once there are more than 1024 of them, and
  renames the source of a release cut to blanks. `RestartIsIdentity` proves
  that these are the only differences a restart makes.
- Wiping devices clears the token cache last, so a wipe that fails after its
  first delete leaves deleted devices' tokens accepted (`AuthEngine.Engine.Wipe`).
- A device id that is removed and provisioned afresh starts again at version 1,
  so an old token is accepted again once enough edits follow
  (`ProvisioningRevives`); `RevokedStaysRevoked` proves that there is no other way.
- Provisioning a device under the very id that is the owner's member breaks the
  owner's exclusive membership (`CollisionHappens`), and nothing else does
  (`StepKeepsExclusive`).
- A signed HQ request is accepted a second time if a copy waits for the delivery
  lock until its nonce row has expired (`LateCopyIsAccepted`) or if a thousand
  other nonces push that row out (`CrowdedOutCopyIsAccepted`). `AcceptedExactly`
  and `EvictedExactly` say exactly when each step does it; without both,
  `ReplayIsRefused` holds.
- An entry delay whose own write failed does not survive a restart
  (`RestartSounds` gives the exact condition); a saved one always does.
- A local day that goes back (a change of timezone over midnight) lets a prayer
  play twice (`DayGoingBackPlaysAgain`); `RepeatsExactly` says when, and
  `PlaysOnce` that nothing else does.
- Two room commands can share an answer slot when one room id extends the other
  by a colon and an action (`ColonsCanClash`, `SlotsClashExactly`). Every room
  command goes through the registry's rooms (now_api.py:858-864), whose ids are
  "room-" and URL-safe characters (registry.py:446) or, for imported rooms, Home
  Assistant's area ids (registry.py:1371-1395), normally slugs; neither holds a
  colon, so these never clash (`ColonFreeRoomsNeverClash`).

## Model

| member | source | states |
|---|---|---|
| EnergyProtocolProofs.SilentWhileOff | custom_components/casasmart/energy_adapter.py:1475-1538 | in every run no device command is sent and no automation switched off while no level is active, whichever rule, pass or request is part-way |
| EnergyProtocolProofs.SilentOnceUnwanted | custom_components/casasmart/energy_runtime.py:370-432 | every automation switched off and every command a pass sends belongs to one request that asked for a level, with no deactivate or stop asked for since, even one still waiting for the lock |
| EnergyProtocolProofs.NewestDeactivateWins | custom_components/casasmart/energy_runtime.py:344-432 | when the newest request is a deactivate whose write landed, no level is active, in every interleaving with start-up, activate, re-apply and stop |
| EnergyProtocolProofs.RunKeeps | custom_components/casasmart/energy_runtime.py:301-432 | the protocol invariant (one holder, phases by kind, generations in order, allowed history) over every run |
| EnergyProtocolProofs.StepLosesExactly | custom_components/casasmart/energy_runtime.py:153-251 | a step loses an owed automation exactly when it cuts short the save after its turn_off, by a crash or a failed write, and then just that one |
| EnergyProtocolProofs.LossesBoundLost | custom_components/casasmart/energy_runtime.py:153-251 | over a run, no more automations are lost than saves were cut short |
| EnergyProtocolProofs.OwedAutomationsAreRemembered | custom_components/casasmart/energy_runtime.py:115-251 | in every run without a cut-short save, what was switched off and not on again is in the remembered row or the one call in flight; otherwise at most one automation a cut-short save is in neither |
| EnergyProtocolProofs.CrashCanLoseOwed | custom_components/casasmart/energy_runtime.py:153-219 | the docstring's promise that a crash cannot lose what is owed is false: such a run exists |
| EnergyProtocolProofs.RestoresOnlyWhileOff | custom_components/casasmart/energy_runtime.py:221-251 | in every run no automation is switched back on while a level is active |
| EnergyProtocolProofs.WantedPassSends | custom_components/casasmart/energy_runtime.py:412-432 | in every run a device pass that nothing supersedes can send its commands |
| EnergyTransitions.DeactivateRestores | custom_components/casasmart/energy_runtime.py:370-391 | whatever else happens meanwhile, a deactivate or a start-up with no level, granted the lock and meeting no crash or failed write, has asked for every remembered automation when it ends; only the refused ones stay remembered and owed |
| EnergyTransitions.ActivationEnforces | custom_components/casasmart/energy_runtime.py:344-432 | an activate, re-apply or start-up that gets through to the devices has asked off every listed automation never flagged meanwhile and none always flagged; it remembers exactly those not refused |
| EnergyTransitions.ActivationReachesDevices | custom_components/casasmart/energy_runtime.py:412-432 | unless a deactivate or stop is asked for meanwhile, it does get through |
| EnergyTransitions.RequestEnds | custom_components/casasmart/energy_runtime.py:301-408 | a request commits exactly if it is in place and the engine wrote, and then leaves the level its kind asks for; otherwise it changes nothing |
| EnergyTransitions.RaisingEnds | custom_components/casasmart/energy_runtime.py:344-408 | a call or write that raises ends the request where it is, asking for nothing more |
| EnergyAutomations.AutomationManager.EnforceActive | custom_components/casasmart/energy_runtime.py:153-219 | switches off exactly the due, accepted automations up to where it stops being wanted, and remembers exactly those |
| EnergyAutomations.AutomationManager.Restore | custom_components/casasmart/energy_runtime.py:221-251 | switches on all remembered automations but the refused ones, which stay owed |
| EnergyAutomations.PassesConserveAutomations | custom_components/casasmart/energy_runtime.py:153-251 | over any passes, enabled and remembered together stay the automations there were, and no automation is both |
| EnergyAutomations.RestoreUndoesEveryPass | custom_components/casasmart/energy_runtime.py:153-251 | after any passes, even ones stopped part-way, a restore with no refusals leaves every automation as it was and nothing remembered |
| EnergyAutomations.WantedPassSwitchesAllDue | custom_components/casasmart/energy_runtime.py:153-219 | a pass that stays wanted and meets no refusal leaves no due automation enabled |
| EnergyAutomations.EnforceExactly | custom_components/casasmart/energy_runtime.py:153-219 | a pass switches off and remembers what it comes to that is on, not remembered, not flagged and not refused, and nothing else |
| EnergyAutomations.UnwantedPassChangesNothing | custom_components/casasmart/energy_runtime.py:190-193 | a pass superseded before its first turn_off changes nothing |
| EnergyAutomations.FlaggedStaysOn | custom_components/casasmart/energy_runtime.py:153-251 | an automation that works during Energy Saving stays on over any passes and restores |
| EnergyConfig.CleanUniqueList | custom_components/casasmart/energy.py:128-151 | accepts a list exactly when every item cleans and none repeats after cleaning, and returns the cleaned items in order |
| EnergyConfig.CleanPickMapLoop | custom_components/casasmart/energy.py:154-186 | accepts a keeper map exactly when every key and pick list cleans and has the right count |
| EnergyConfig.CleanHeaterLoop | custom_components/casasmart/energy.py:189-215 | accepts heaters exactly when each is well-shaped and no entity is listed twice |
| EnergyConfig.ValidateLevelConfig | custom_components/casasmart/energy.py:249-332 | the loops together decide and return what the specification of a valid document says |
| EnergyConfig.ValidateMakesValid | custom_components/casasmart/energy.py:249-332 | whatever is accepted has unique clean ids, right pick counts, no picks in excluded rooms and the level's own fields |
| EnergyConfig.ValidateRoundTrip | custom_components/casasmart/energy.py:249-332 | a stored configuration reads back as itself if and only if the validator could have made it |
| EnergyConfig.ValidateIdempotent | custom_components/casasmart/energy.py:249-332 | validating the stored result of a validation gives the same configuration |
| EnergyConfig.DefaultIsValid | custom_components/casasmart/energy.py:231-246 | the default of each level is one the validator accepts |
| EnergyConfig.AcceptsExactly | custom_components/casasmart/energy.py:249-332 | a document is taken exactly if it has no unknown field, each field is missing or cleans, and no excluded room has picks |
| EnergyConfig.ValidConfigIs | custom_components/casasmart/energy.py:249-332 | what a configuration may hold, in numbers: list bounds, unique ids, two gang keepers at Low and else one, AC picks by level |
| EnergyConfig.HeaterShapeIs | custom_components/casasmart/energy.py:189-215 | a heater is an object of exactly a clean entity id and a boolean |
| EnergyConfig.CleanIgnoresPadding | custom_components/casasmart/energy.py:107-125 | an id padded with blanks cleans to the id |
| EnergyState.CoerceIsSound | custom_components/casasmart/energy.py:818-922 | whatever row is found on disk, the state rebuilt from it keeps every invariant of a live state |
| EnergyState.RestartRebuilds | custom_components/casasmart/energy.py:818-922 | what a restart makes of any sound state's row, field by field |
| EnergyState.RestartIsIdentity | custom_components/casasmart/energy.py:818-922 | a restart rebuilds the same state if and only if there are at most 1024 releases and none has a blank source |
| EnergyState.CoerceTwiceCanDiffer | custom_components/casasmart/energy.py:818-922 | coercion is not idempotent on rows: a source whose first 64 characters are blank changes at the second reading |
| EnergyState.DamageStaysLocal | custom_components/casasmart/energy.py:818-922 | in any row a damaged time, revision, lockout or occupancy falls back alone |
| EnergyState.DamagedReleases | custom_components/casasmart/energy.py:818-922 | a damaged list of releases loses the releases and nothing else |
| EnergyEngine.Engine.WarmUp | custom_components/casasmart/energy.py:364-388 | live state and configurations are what the tables hold, each unusable row replaced by its default |
| EnergyEngine.Engine.CommitState | custom_components/casasmart/energy.py:936-942 | live state and table move together, or neither does when the write fails |
| EnergyEngine.Engine.ReplaceConfig | custom_components/casasmart/energy.py:398-423 | refused, written or failed: table and memory agree at every exit |
| EnergyEngine.Engine.PatchConfig | custom_components/casasmart/energy.py:425-455 | the same for a patch of some fields over the stored ones |
| EnergyEngine.Engine.ResetConfig | custom_components/casasmart/energy.py:457-472 | the same for going back to the default |
| EnergyEngine.Engine.Activate | custom_components/casasmart/energy.py:490-547 | activates exactly when idle, set up and well-formed, with no releases or occupancy and the level's lockout; with any single write failing, memory still equals the tables |
| EnergyEngine.Engine.Deactivate | custom_components/casasmart/energy.py:549-571 | clears the level, its releases and occupancy, or nothing when the write fails |
| EnergyEngine.Engine.Reapply | custom_components/casasmart/energy.py:573-594 | keeps the level and drops the releases, or nothing when the write fails |
| EnergyEngine.Engine.MarkReleased | custom_components/casasmart/energy.py:604-648 | records a release once, keeps the list sorted and equal to the details, in memory and table alike |
| EnergyEngine.Engine.ClearRoomReleases | custom_components/casasmart/energy.py:650-683 | removes the releases in this room and no others, in memory and table alike |
| EnergyEngine.Engine.SetRoomOccupancy | custom_components/casasmart/energy.py:687-741 | records the room's occupancy in memory and table alike |
| EnergyEngine.TransitionsKeepSound | custom_components/casasmart/energy.py:490-594 | activate, deactivate and reapply keep the invariants of a live state |
| EnergyEngine.EmptyPatchIsIdentity | custom_components/casasmart/energy.py:425-455 | patching nothing leaves any valid configuration as it was |
| EnergyEngine.PatchReplacesExactly | custom_components/casasmart/energy.py:425-455 | a wizard step replaces the settings it sends and no others, and is taken exactly when the result is valid |
| EnergyEngine.MissingMeansDefault | custom_components/casasmart/energy.py:249-332 | a missing field means the level's default |
| EnergyEngine.RestartRebuildsEngine | custom_components/casasmart/energy.py:364-388 | warming up on the tables of any valid engine rebuilds its configurations, and its state exactly when it survives a restart |
| EnergyRules.PassIsIdempotent | custom_components/casasmart/energy_adapter.py:724-925 | a second static pass over the home the first one left changes no device |
| EnergyRules.PassOnlySaves | custom_components/casasmart/energy_adapter.py:724-925 | no pass switches a device on or brightens a light, Low never asks an AC for more, devices that are released, failing or not managed are untouched |
| EnergyRules.GangKeepsItsKeepers | custom_components/casasmart/energy_adapter.py:724-762 | what stays on in a thinned, fully lit gang switch is its keepers |
| EnergyRules.MediumHoldsOneClimate | custom_components/casasmart/energy_adapter.py:790-867 | what Medium leaves on is the room's kept AC, at the floor or ceiling with a low fan, and only while the room temperature warrants it |
| EnergyRules.LowPullsBack | custom_components/casasmart/energy_adapter.py:790-867 | after a Low pass no running AC is set beyond the floor or the ceiling |
| EnergyRules.LightsWithinCap | custom_components/casasmart/energy_adapter.py:881-917 | what stays on in a thinned room is a keeper, at most at the level's cap |
| EnergyRules.HeatClosesCovers | custom_components/casasmart/energy_adapter.py:919-925 | in the heat window Medium and Smart leave no reachable cover open |
| EnergyRules.ChosenOffsAreOff | custom_components/casasmart/energy_adapter.py:764-788 | chosen plugs and heaters in covered rooms do not read on after a pass |
| EnergyRules.PassIsThrifty | custom_components/casasmart/energy_adapter.py:724-925 | the home a pass leaves has no device on, brighter or greedier than before, at most one keeper on in each thinned gang (Low: two), at most half a thinned room's lights, and one AC in a Medium room |
| EnergyRules.Adapter.Apply | custom_components/casasmart/energy_adapter.py:584-635 | the rule loops, command by command and whatever calls fail, leave exactly the home and the issues of the entity-by-entity description, a thrifty one; with no active level nothing changes |
| EnergyRules.Adapter.Command | custom_components/casasmart/energy_adapter.py:1475-1538 | nothing is sent without an active level or to a released device; an unmanaged domain and a failing call are reported, the latter counted; otherwise the device takes the order |
| EnergyRules.Adapter.ApplyGangs | custom_components/casasmart/energy_adapter.py:724-762 | thins every eligible, fully lit gang and reports every stale one |
| EnergyRules.Adapter.ApplyCommonOffs | custom_components/casasmart/energy_adapter.py:764-788 | switches each listed plug and heater off and reports each missing one |
| EnergyRules.Adapter.ApplyStaticClimate | custom_components/casasmart/energy_adapter.py:790-867 | the room's ACs follow the climate rule; stale or missing keepers leave the room alone and are reported |
| EnergyRules.Adapter.ApplyStaticLights | custom_components/casasmart/energy_adapter.py:881-917 | the room's lights follow the light rule; stale keepers leave the room alone and are reported |
| EnergyReasons.SwitchesExactly | custom_components/casasmart/energy_adapter.py:724-788 | a device in no room's lists is off after a pass exactly if it is a spare channel of a fully lit, well-picked gang of an open room or a chosen plug or heater, and else as it was |
| EnergyReasons.KeepersStay | custom_components/casasmart/energy_adapter.py:757-762 | a keeper of every gang it is in, if not chosen to be off, keeps the state it had |
| EnergyReasons.LightsExactly | custom_components/casasmart/energy_adapter.py:881-917 | a room's light changes exactly in a covered room of several with half picked: picked ones stay on, at most at 80, 60 or 40 percent, the others go off |
| EnergyReasons.AcsExactly | custom_components/casasmart/energy_adapter.py:790-879 | a running AC is pulled back to 24 or 21 at Low, held there with a low fan at Medium, stopped where it is not picked or the room is past 22 or 24, and else as it was |
| EnergyReasons.CoversExactly | custom_components/casasmart/energy_adapter.py:919-925 | a cover is closed exactly in the heat window at Medium and Smart |
| EnergyReasons.IssuesExactly | custom_components/casasmart/energy_adapter.py:724-917 | an issue is reported exactly for a stale pick, an unanswered AC question or a missing device the pass comes to |
| EnergyWizard.ValidateAgainstDiscovery | custom_components/casasmart/energy_validation.py:24-129 | accepts exactly the configurations whose picks are all current and, once set up, answer every question |
| EnergyWizard.AcceptsExactly | custom_components/casasmart/energy_validation.py:24-129 | accepted means: every pick is offered, half a room's lights are picked and, once set up, exactly the gangs, light rooms, heaters and AC rooms of the level are answered |
| EnergyWizard.WizardResultIsNeverStale | custom_components/casasmart/energy_validation.py:24-129 | a finished, accepted configuration makes a pass on the same home report no stale, missing or required pick and no missing device, at every level |
| EnergyWizard.WizardPassIsIdempotent | custom_components/casasmart/energy_adapter.py:724-925 | with an accepted configuration a second pass changes nothing |
| EnergyWizard.GangIsStaleExactly | custom_components/casasmart/energy_adapter.py:737-756 | a gang is reported stale if and only if the wizard asked nothing about it or a picked channel is gone from the inventory |
| AuthEngine.DoKeepsOneAdmin | custom_components/casasmart/auth_engine.py:256-758 | no request gives the hub a second admin |
| AuthEngine.TokenFollowsRecord | custom_components/casasmart/auth_engine.py:849-878 | a token is accepted exactly while its device is enrolled at its version, with the record's current role, rooms and camera access |
| AuthScopes.EnrollmentGrants | custom_components/casasmart/auth_engine.py:256-313 | an accepted enrollment's first token carries exactly the role, rooms and camera access asked for; a refused one, and every other device, changes nothing |
| AuthScopes.UpdateGrants | custom_components/casasmart/auth_engine.py:601-658 | after an edit the next token shows each field given and every other as before, older tokens are outdated, other devices untouched |
| AuthScopes.ProvisioningGrants | custom_components/casasmart/auth_engine.py:325-397 | a provisioned device holds just what was given; with nothing different its tokens live on |
| AuthScopes.RecoveryGrants | custom_components/casasmart/auth_engine.py:399-453 | recovery gives the new phone an admin's token, kills the old admin's and touches no other |
| AuthScopes.RemovalRevokes | custom_components/casasmart/auth_engine.py:697-758 | a deleted device (never an admin), one that left or a wiped hub has no token accepted; the others live on |
| AuthScopes.AdminStaysExactly | custom_components/casasmart/auth_engine.py:256-758 | the admin's record changes with recovery, their own leaving, a wipe or provisioning under their id, and with nothing else |
| AuthScopes.DoKeepsScopes | custom_components/casasmart/auth_engine.py:256-758 | only users are ever scoped to rooms |
| AuthEngine.Engine.HasAdminCached | custom_components/casasmart/auth_engine.py:455-460 | the cache-only answer is the table's |
| AuthEngine.Engine.EnrollDevice | custom_components/casasmart/auth_engine.py:256-313 | table and cache move together, or neither does; a second admin is refused |
| AuthEngine.Engine.EnsureEnrolled | custom_components/casasmart/auth_engine.py:325-397 | writes and raises the version exactly when something differs, never an admin; cache and table stay equal |
| AuthEngine.Engine.Replace | custom_components/casasmart/auth_engine.py:399-453 | swaps the admin in one step or not at all; cache and table stay equal |
| AuthEngine.Engine.UpdateDevice | custom_components/casasmart/auth_engine.py:601-658 | edits a non-admin and raises its version; cache and table stay equal |
| AuthEngine.Engine.Prune | custom_components/casasmart/auth_engine.py:660-695 | drops unknown rooms record by record; stopped by a failing write, cache and table still agree |
| AuthEngine.Engine.DeleteDevice | custom_components/casasmart/auth_engine.py:697-716 | removes a non-admin from table and cache and returns its member |
| AuthEngine.Engine.LeaveHub | custom_components/casasmart/auth_engine.py:718-740 | removes the device, the admin included, from table and cache and returns its member |
| AuthEngine.Engine.Wipe | custom_components/casasmart/auth_engine.py:742-758 | empties table and cache; stopped by a failing delete, they agree if and only if nothing had been deleted yet |
| TokenRuns.TokenDiesExactly | custom_components/casasmart/auth_engine.py:849-878 | a live token dies with exactly the requests that edit or remove its own device |
| TokenRuns.TokenNeverGains | custom_components/casasmart/auth_engine.py:849-878 | over every run an accepted token grants the role and cameras it was minted with and no further rooms |
| TokenRuns.RevokedStaysRevoked | custom_components/casasmart/auth_engine.py:601-758 | a token once refused is refused ever after, unless its id is provisioned afresh |
| TokenRuns.ProvisioningRevives | custom_components/casasmart/auth_engine.py:372-389 | after removal, provisioning the id afresh can bring back any old token |
| TokenRuns.PruneNarrowsTokens | custom_components/casasmart/auth_engine.py:660-695 | deleting rooms kills no token, and every later check answers with exactly the remaining rooms |
| TokenRuns.RecoveryHandsOver | custom_components/casasmart/auth_engine.py:399-453 | owner recovery leaves one admin, the new phone, in the old admin's member, and no other record changed |
| PairingProtocol.StepKeepsExclusive | custom_components/casasmart/auth_api.py:936-978 | one step keeps the owner alone in their member if and only if it does not provision a device under that member's id |
| PairingProtocol.CollisionHappens | custom_components/casasmart/auth_engine.py:325-397 | such a run exists from an unclaimed hub: the owner claims it, then a device is provisioned under their member's id |
| PairingProtocol.OwnerStaysAlone | custom_components/casasmart/auth_engine.py:399-570 | in every interleaving of minting, redeeming, enrolling, recovery, leaving and re-claiming, no other device, code or request is in the owner's member |
| PairingProtocol.OneLocalOwner | custom_components/casasmart/pairing.py:313-371 | in every interleaving the hub has one admin, and no admin grant is redeemed from outside the network |
| PairingGrants.AddDeviceMints | custom_components/casasmart/auth_api.py:936-978 | whatever happens in between, "add a device" mints a code for what the member's device had when looked up, and none for an admin |
| PairingGrants.MintingGrants | custom_components/casasmart/pairing.py:162-229 | an admin's own grant becomes a code as it is, unless it grants admin or scopes a sub-admin |
| PairingGrants.ArmingGrants | custom_components/casasmart/pairing.py:386-416 | an owner code is there exactly while the hub is unclaimed, a new one if there was none or it is replaced |
| PairingGrants.RedeemingGrants | custom_components/casasmart/pairing.py:313-371 | a code is spent and its grant handed out exactly if it is there, no admin code from outside, and no owner code on a claimed hub |
| PairingGrants.CodeBecomesDevice | custom_components/casasmart/auth_engine.py:256-313 | the device enrolled from a redeemed code holds that code's role, rooms, cameras and member, and its first token just these |
| PairingGrants.MintedCodeEnrolls | custom_components/casasmart/pairing.py:162-371 | the same from the minted code to the token, whatever other requests do in between |
| PairingManager.Manager.PurgeExpired | custom_components/casasmart/pairing.py:420-428 | drops exactly the expired codes |
| PairingManager.Manager.GenerateCode | custom_components/casasmart/pairing.py:162-229 | mints the protocol's member code, never one that grants admin or scopes a sub-admin |
| PairingManager.Manager.Redeem | custom_components/casasmart/pairing.py:313-371 | spends a matching live code exactly when it grants, checking the network before the claim |
| PairingManager.Manager.ArmBootstrap | custom_components/casasmart/pairing.py:386-416 | arms the owner code on an unclaimed hub and drops it on a claimed one |
| PairingManager.RedeemIsStep | custom_components/casasmart/pairing.py:313-371 | redeeming is the protocol's step: the grant goes out once and its code is gone |
| PairingManager.MintedLivesExactly | custom_components/casasmart/pairing.py:420-428 | a minted code is found by its hash before its time is over and at no time after |
| AlarmEngine.HistoryIsWindow | custom_components/casasmart/alarm.py:527-546 | with a clock that never goes back, the history trimmed step by step is the last 1000 events within 90 days of the latest |
| AlarmEngine.Newest | custom_components/casasmart/alarm.py:548-556 | the answer is the newest events, latest first, as many as asked for |
| AlarmEngine.RestartFailsSecure | custom_components/casasmart/alarm.py:161-218 | a restart rebuilds what was stored, but for a running entry delay, which has gone off for the same sensor |
| AlarmEngine.EdgeTable | custom_components/casasmart/alarm.py:373-413 | zone by zone: life safety sounds in any mode; armed past the exit delay, perimeter sounds in every mode, interior when away, entries count down when away or at night; nothing else does anything |
| AlarmEngine.EntryGetsItsDelay | custom_components/casasmart/alarm.py:373-451 | armed, tripped and ticked: the countdown starts exactly after the exit delay and sounds for that sensor exactly after the entry delay |
| AlarmEngine.ArmingTakesHold | custom_components/casasmart/alarm.py:307-413 | the exit delay holds back all but life safety, and disarming leaves only life safety |
| AlarmEngine.Engine.ProcessSensor | custom_components/casasmart/alarm.py:373-413 | an active life-safety sensor sounds in every mode, another one exactly while armed past the exit delay in a zone of the mode, saved, recorded and alerted even when a write fails |
| AlarmEngine.Engine.ProcessSensorOffline | custom_components/casasmart/alarm.py:415-434 | tamper is recorded and alerted exactly while not disarmed, and the arm state stays |
| AlarmEngine.Engine.Tick | custom_components/casasmart/alarm.py:436-451 | triggers exactly when an entry delay has run out |
| AlarmEngine.Engine.Arm | custom_components/casasmart/alarm.py:307-349 | arms from any state, ending a countdown, whatever happens to the writes |
| AlarmEngine.Engine.Disarm | custom_components/casasmart/alarm.py:351-369 | disarms from any state, ending a countdown, whatever happens to the writes |
| AlarmEngine.Engine.RecordEvent | custom_components/casasmart/alarm.py:527-546 | appends and trims by age, then by count; a failed write keeps the old history |
| AlarmEngine.Engine.constructor | custom_components/casasmart/alarm.py:161-183 | a start loads the stored state and turns a countdown it finds into the alarm |
| AlarmProtocol.PendingHasWakeUp | custom_components/casasmart/alarm_adapter.py:94-177 | in every interleaving, whatever the clock reads, a pending alarm has a live timer, a tick, or a result or change event that will set one |
| AlarmProtocol.OverdueGoesOff | custom_components/casasmart/alarm_adapter.py:118-158 | while ticks read a clock past its deadline, the alarm has gone off once the nearest wake-up has been carried on at most four times |
| AlarmProtocol.SomethingServes | custom_components/casasmart/alarm_adapter.py:118-177 | an overdue alarm always has a step that carries its nearest wake-up on |
| AlarmProtocol.OnlyACallStopsIt | custom_components/casasmart/alarm.py:307-369 | a saved countdown, restarts and failing writes included, stays on or has gone off unless someone arms or disarms |
| AlarmProtocol.NeverEarly | custom_components/casasmart/alarm.py:373-451 | nothing but life safety cuts a countdown short |
| AlarmProtocol.RestartSounds | custom_components/casasmart/alarm.py:161-183 | a restart, at any clock reading, sounds the alarm if and only if the stored state was pending or triggered |
| AlarmProtocol.LifeSafetySounds | custom_components/casasmart/alarm.py:373-413 | in every run, after a life-safety evaluation the alarm sounds until an arm, a disarm or a restart from an unsaved state |
| AlarmProtocol.EdgesReachTheEngine | custom_components/casasmart/alarm_adapter.py:94-117 | an edge of an assigned sensor does what its zone says and its answer goes back; an offline one only reports tamper |
| AlarmProtocol.CallsAreObeyed | custom_components/casasmart/alarm.py:307-369 | arm and disarm calls take hold from every state |
| CappedTable.KeptExactly | custom_components/casasmart/hq_notifications.py:312-347 | a row survives the cut if and only if fewer rows than the cap come after it |
| CappedTable.CutToCap | custom_components/casasmart/hq_notifications.py:312-347 | deleting the oldest rows one by one leaves the newest |
| HqNotifications.Verifier.PruneNonces | custom_components/casasmart/hq_notifications.py:328-347 | leaves the newest 1000 of the nonces of the last 300 seconds |
| HqNotifications.Verifier.ReserveNonce | custom_components/casasmart/hq_notifications.py:246-257 | refuses exactly the nonces still held and holds the others |
| HqNotifications.Verifier.RecordDelivery | custom_components/casasmart/hq_notifications.py:264-289 | only what the relay accepted is recorded; every attempt is audited |
| HqNotifications.JustRecordedStays | custom_components/casasmart/hq_notifications.py:312-326 | the event just recorded is never the one dropped, and at most 1000 are kept |
| HqIngress.ReplayIsRefused | custom_components/casasmart/hq_notifications.py:190-257 | a request accepted once is refused ever after, if its copies get the lock within 180 s of their check and fewer than 1000 other nonces, among those held and those reserved in its 300 seconds, carry its second or later |
| HqIngress.AcceptedExactly | custom_components/casasmart/hq_notifications.py:246-257 | a request that gets the lock is accepted if and only if its nonce is not held or has been for over 300 seconds |
| HqIngress.EvictedExactly | custom_components/casasmart/hq_notifications.py:328-347 | a live nonce makes way for a new one if and only if 1000 are live and it is the oldest, the new one counted |
| HqIngress.RunKeepsOrder | custom_components/casasmart/push_api.py:249-311 | in every run a waiting request passed its clock check earlier and no event row is stamped later than now |
| HqIngress.LateCopyIsAccepted | custom_components/casasmart/push_api.py:249-271 | in a run from boot a copy that waits 181 s for the lock is accepted a second time |
| HqIngress.CrowdedOutCopyIsAccepted | custom_components/casasmart/hq_notifications.py:328-347 | in a run from boot a thousand other nonces crowd a nonce out within its 300 seconds, and a copy is accepted a second time |
| HqIngress.RunKeepsBounded | custom_components/casasmart/hq_notifications.py:328-347 | in every run at most 1000 nonces are held |
| HqIngress.DeliveredIsNotPushedAgain | custom_components/casasmart/push_api.py:259-311 | a recorded event is not pushed again until 1000 deliveries of its second or later are known |
| HqIngress.DuplicatesWereDelivered | custom_components/casasmart/push_api.py:272-288 | only an event the relay accepted is ever answered as a duplicate |
| RateLimiter.Limiter.RateLimited | custom_components/casasmart/push_api.py:186-200 | refuses exactly when 30 of the peer's own requests were let in within 60 seconds, by the whole history |
| RateLimiter.Limiter.ForgetIdle | custom_components/casasmart/push_api.py:196-199 | forgetting idle peers changes no later answer |
| RateLimiter.RateIsBounded | custom_components/casasmart/push_api.py:186-200 | no peer ever has more than 30 requests let in within 60 seconds |
| RateLimiter.RefusesExactly | custom_components/casasmart/push_api.py:186-200 | the rule counts the peer's requests let in during the last 60 seconds: 30 and no more |
| ActionTree.MiredRoundTrip | custom_components/casasmart/entity_bridge.py:292-324 | the two roundings cancel: any integer mired value above zero reads back as itself, clamped to 100..1000 |
| ActionTree.FractionalMiredIsClose | custom_components/casasmart/entity_bridge.py:292-324 | a fractional mired value reads back within one mired of itself, clamped |
| ActionTree.EditorSees | custom_components/casasmart/entity_bridge.py:301-324 | of a light's data the editor reads its clamped mired value with kelvin beside it, kelvin wins when both were given, a template stays, all else is untouched |
| ActionTree.WalksFuse | custom_components/casasmart/automation_api.py:115-135 | over trees of any depth, two walks are one walk with both conversions |
| ActionTree.TreeSavesBack | custom_components/casasmart/automation_api.py:115-157 | saving, reading and saving again stores the same tree |
| AutomationConfig.ReadsBack | custom_components/casasmart/automation_api.py:266-345 | what get answers of what post stored: the same config under singular keys, each light as the editor sees it, the id and the flag |
| AutomationConfig.SavesBack | custom_components/casasmart/automation_api.py:266-345 | saving what was read stores what was stored, under singular keys |
| AutomationConfig.PostThenGet | custom_components/casasmart/automation_api.py:266-345 | the same through the file's list, whatever else it holds |
| ActionPaths.EditKeepsEveryPlace | custom_components/casasmart/automation_api.py:115-345 | post, then get: every place outside a light call's own colour holds what was posted, both stored and read; each light call in the actions, however deep, is stored in kelvin and read with its mireds; keys are renamed, id and flag set, nothing else appears |
| ActionPaths.PathKept | custom_components/casasmart/automation_api.py:115-135 | a walk leaves every place outside a light call's colour as it was |
| AutomationConfig.WithSingularKeys | custom_components/casasmart/automations.py:88-97 | the renaming loop gives the config with each plural key settled |
| AutomationConfig.SingularMoves | custom_components/casasmart/automations.py:88-97 | every value moves to its key's new name, no two to one name, and nothing else appears |
| AutomationConfig.UpsertThenGet | custom_components/casasmart/automations.py:51-76 | the written config is the one found, whatever id its body carried, and every other id finds what it did |
| AutomationConfig.DeleteThenGet | custom_components/casasmart/automations.py:51-85 | after a delete every other id finds what it did, and the id is gone if and only if it had at most one entry |
| AutomationConfig.Document.GetAutomation | custom_components/casasmart/automations.py:51-58 | finds the first entry with the id |
| AutomationConfig.Document.UpsertAutomation | custom_components/casasmart/automations.py:61-76 | replaces the first entry with the id in place, or appends |
| AutomationConfig.Document.DeleteAutomation | custom_components/casasmart/automations.py:79-85 | removes the first entry with the id and says whether there was one |
| AthanScheduler.PlaysOnTime | custom_components/casasmart/athan_scheduler.py:203-365 | in every interleaving a prayer is settled never early and never more than 120 s late, and has at most one live timer, due while it may still play |
| AthanScheduler.PlaysOnce | custom_components/casasmart/athan_scheduler.py:203-365 | a day's prayer is settled at most once in every run that does not return to a day left with a prayer settled on it |
| AthanScheduler.ForwardPlaysOnce | custom_components/casasmart/athan_scheduler.py:203-365 | so at most once while the local day does not go back |
| AthanScheduler.RepeatsExactly | custom_components/casasmart/athan_scheduler.py:203-265 | a reschedule lets a settled prayer play again if and only if it moves to another day with a prayer settled on it that is at most 120 s past |
| AthanScheduler.ArmedIsNeverLost | custom_components/casasmart/athan_scheduler.py:334-365 | an armed prayer is waiting on a timer, settled, or given up with less than a retry left, until the next reschedule |
| AthanScheduler.TimerOutcome | custom_components/casasmart/athan_scheduler.py:345-363 | a timer settles within two minutes unless refused, tries again ten seconds on while that is within them, and else gives up |
| AthanScheduler.SilentUntilArmed | custom_components/casasmart/athan_scheduler.py:203-265 | switched off, stopped or without times, nothing plays until a reschedule finds times |
| AthanScheduler.RescheduleArms | custom_components/casasmart/athan_scheduler.py:203-265 | a reschedule arms exactly the day's unsettled prayers that are at most 120 s past |
| AthanScheduler.DayGoingBackPlaysAgain | custom_components/casasmart/athan_scheduler.py:228-230 | in a run from boot a local day that goes forth and back plays the same prayer twice |
| AthanScheduler.Scheduler.Arm | custom_components/casasmart/athan_scheduler.py:203-265 | the loop over the prayers replaces all timers by the day's |
| AthanScheduler.Scheduler.Fire | custom_components/casasmart/athan_scheduler.py:345-363 | the callback settles, retries or gives up by the clock, not by the timer's time |
| RoomCapture.ExtendLists | custom_components/casasmart/now_data.py:661-698 | an off adds what it switched off, each once, after what an open capture lists in its order, and does not move the capture's time |
| RoomCapture.ExtendKeepsFresh | custom_components/casasmart/now_data.py:661-698 | every captured device was switched off between the capture's time and 120 s after it |
| RoomCapture.NewestLevelWins | custom_components/casasmart/now_data.py:661-698 | each AC of an off is listed in the extended capture at the level it has now, whatever level an open capture held |
| RoomCapture.KeepKeepsFresh | custom_components/casasmart/now_data.py:700-729 | keeping some devices lists exactly those captured before, each once, and does not move the capture's time |
| RoomCapture.NowData.ExtendRestoreSet | custom_components/casasmart/now_data.py:661-698 | the room's row becomes the extended capture, no other room's row changes |
| RoomCapture.NowData.KeepInRestoreSet | custom_components/casasmart/now_data.py:700-729 | the room's row keeps exactly the named devices, or goes |
| RoomCapture.NowData.ConsumeRestoreSet | custom_components/casasmart/now_data.py:731-736 | returns the room's devices and removes its row alone |
| RoomCommands.AnsweredRunsOnce | custom_components/casasmart/now_api.py:1035-1084 | among rooms that cannot share slots, a keyed command answered once is not run again while fewer than 64 later answers of its member are stored |
| RoomCommands.RunKeepsUnanswered | custom_components/casasmart/now_api.py:1035-1084 | in every interleaving of rooms that cannot share slots, a command under way has no stored answer of its own |
| RoomCommands.ReplaysTheLastAnswer | custom_components/casasmart/now_api.py:1035-1084 | in every run a replay hands out the answer of the last time that very command ran and was answered |
| RoomCommands.UnansweredCanRunAgain | custom_components/casasmart/now_api.py:1035-1084 | a refused or failed command stores nothing, so its retry runs |
| RoomCommands.SlotsClashExactly | custom_components/casasmart/now_data.py:589-615 | commands of two rooms can share an answer slot if and only if one room id is the other's, a colon and an action, and then nothing or a further colon and at most 111 characters of key text |
| RoomCommands.SlotsAreDistinct | custom_components/casasmart/now_data.py:589-615 | otherwise no two commands share a slot |
| RoomCommands.ColonsCanClash | custom_components/casasmart/now_data.py:589-615 | rooms "a" and "a:turn_on" do share one |
| RoomCommands.ColonFreeRoomsNeverClash | custom_components/casasmart/now_data.py:589-615 | ids without a colon, as the registry's are, never do |
| RoomCommands.AnswerTable.SaveIdempotentResult | custom_components/casasmart/now_data.py:597-615 | stores the answer and drops the oldest beyond 64, for this member alone |

## Left out

- HTTP views, request parsing, status codes, config flow, entities and notifications: plumbing around the modelled calls.
- Crypto, token and JSON libraries, storage internals: a signature or hash is ideal, a table write lands or changes nothing.
- Two executor threads inside one step: a step runs from one await to the next, and each engine method runs under its lock.
- Cancelling a request's own coroutine from outside (a client that hangs up); only the device pass is cancellable.
- A failed device or automation call is taken to have had no effect, and a successful one to have had its effect.
- The wording of refusals, the event log tables and statistics.
- Smart mode's occupancy, boost and sun timers: their order across awaits rests on Home Assistant.
- The issues about sensors and fan modes; Fahrenheit: temperatures are exact Celsius.
- NaN and infinite numbers, and floating-point error in the two mired divisions, which is far below the distance from any tie.
- EnergyConfig.ValidateRoundTrip: numbers too large for a JSON library are not modelled.
- EnergyState.CoerceIsSound: level names are constructors, so a row with an unknown level name is a row without a level.
- EnergyTransitions.DeactivateRestores: says what a request has done when it ends, not that Home Assistant's calls return.
- EnergyRules.PassIsIdempotent: holds one sun window and one snapshot fixed; a device either takes every command of the pass or fails each; listed plugs and heaters are no lights, which the wizard's check ensures (EnergyWizard), and a gang's light channels are in no room's own lights.
- EnergyRules.Adapter.Command: the event record of a failed call and the note that marks a state change as the hub's own are left out.
- EnergyWizard.WizardResultIsNeverStale: assumes each gang's channels are all in the inventory and its room agrees with the wizard's; GangIsStaleExactly says what happens otherwise.
- AuthEngine.Engine.EnrollDevice: names, pairing times and the code a device redeemed are not kept; an unusable key is one refused input.
- TokenRuns.TokenDiesExactly: expiry and the signature are not modelled; an expired or forged token is refused before the cache is read.
- Challenge login, the failure throttle, widget scopes and the permission table: small next to the table and cache they read.
- PairingManager.Manager.Redeem: code normalisation and the throttle are left out; which of two codes with one hash is found is left open.
- AlarmEngine.RestartFailsSecure: a damaged field of the stored row is a missing one.
- Assigning zones and default delays in the alarm: a zone is looked up when an edge is evaluated and may be any.
- AlarmProtocol.PendingHasWakeUp: stopping the adapter removes its timer on purpose and is not a step.
- HqIngress.ReplayIsRefused: the payload checks besides clock, nonce and signature are left out, and the clock of a run does not go back.
- AutomationConfig.Document.GetAutomation: ids are strings; an id of another type never matches a valid config key.
- Home Assistant's own validation of a config and the reload after a save.
- AthanScheduler.PlaysOnTime: the prayer times, the local day and the clock are inputs; a timer does not run before it is due, which Home Assistant ensures.
- RoomCapture.KeepKeepsFresh: rows whose time is missing or unreadable (from older versions) are left out.
- RoomCommands.AnsweredRunsOnce: a command that fails after switching stores no answer, so its retry switches again.
