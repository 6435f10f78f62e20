# MSP client portal: verified models

A Dafny model of the parts of the portal and of its endpoint agent whose behaviour is hard to see from
one function body, with proofs about all inputs, all runs and all reachable states.
`dafny verify dfyconfig.toml` checks the whole project.

| file | what it models |
|---|---|
| `Calendar.dfy`, `Easter.dfy`, `BusinessHours.dfy` | the SLA clock: civil dates and instants at UTC-4, Easter, Dominican holidays, the effective SLA start |
| `Upgrade.dfy`, `UpgradeRuns.dfy` | the agent's over-the-air upgrade transaction on a file system whose operations may fail |
| `UpgradeTasks.dfy`, `UpgradeCollision.dfy`, `UpgradeProtection.dfy`, `UpgradeAlone.dfy` | upgrade tasks that interleave between any two file operations |
| `Pairing.dfy`, `PairingRuns.dfy` | the agent's persisted identity, token protection, and the pairing handlers |
| `Breaker.dfy` | the ticket polling circuit breaker |
| `Frames.dfy` | length-prefixed IPC frames and their reader |
| `PlanCatalog.dfy`, `PlanCosts.dfy`, `PlanCostLaws.dfy`, `PlanGrowth.dfy`, `PlanPrices.dfy` | the plan pricing engine |
| `AuthStorage.dfy` | auth data in two browser stores |
| `SessionMonitor.dfy` | the session-expiry timer |
| `NotificationStore.dfy` | the notification list and its event stream |
| `Entitlements.dfy` | bundle expansion and feature entitlements |
| `LazyRetry.dfy` | lazy loading with retries, reload guard and memoised promise |

Code that updates state is modelled by classes and methods with loops; each method is tied by its
`ensures` to a function of the old state, and the theorems are about those functions and about runs of them.

## What the models take as given

- The host `Date` follows section 21.4.1 of ECMA-262; `setTimeout` cuts its delay to a signed 32-bit number.
- Every input from outside is a parameter: clock readings, random numbers, HTTP outcomes, whether a file or
  storage operation succeeds, and what decrypting a payload yields. SHA-256 is an arbitrary function, and an
  encryption that succeeds yields some payload that decrypts to the plain text.
- In `UpgradeRuns.dfy` an upgrade task is one step; `UpgradeTasks.dfy` takes it apart into single file
  operations, and `UninterruptedIsDeploy` connects the two. An operation that does not succeed leaves the
  paths as they were, also when the process is stopped before it.
- Timers fire at the instant they are armed for; browsers that stretch nested timers are not modelled.
- Each agent handler is one atomic load, change and save of the config file. Requests through the circuit
  breaker do not overlap. The frame reader is not cancelled inside a frame.
- A closed event source delivers no further events, and fetched notification lists have distinct ids and the
  right unread count.
- Money is exact and counted in cents; `Math.round(x * 100) / 100` is `Round` on cents.

## Where the code does less than one might expect

- Years 0 to 99 are remapped by `Date.UTC`. The SLA start is the earliest open instant exactly when the
  submission is already open or its year is at least 100 (`SlaStartIsEarliest`, `AstRoundTrip`).
- A swap whose sentinel cannot be saved leaves the new binary active without any rollback (`DeployOutcomes`).
  An upgrade task that runs in one step, or a rollback, leaves no active binary exactly when the old one was
  moved aside, nothing came in its place and it was not put back (`ActiveIsLostExactlyWhen`).
- A rollback undoes one swap only. A second upgrade before the first is settled loses the original binary,
  unless the first trial was already rolled back or delivered the original again (`OverlapLosesPrevious`).
- Tasks with the same target version share a staged file. The body of one can then be written into the file
  that the other has checked and installed; this is excluded if and only if all target versions differ
  (`CollisionReachesActive`, `DistinctTargetsExactly`).
- Tasks started by the same running version share a backup path. A trial is protected exactly when no other
  step touches that path between moving the active binary aside and saving the sentinel; otherwise the sentinel
  can be stored without a backup, or no active binary be left (`ProtectedExactlyWhen`, `SwapsCanLoseTheBackup`).
- Line items reconcile with the subtotal if and only if the rounding residues of the base prices sum to a
  value from -1/2 up to 1/2 of a cent. Whole-cent prices are sufficient but not necessary
  (`LineItemsReconcile`, `LineItemsCanMiss`).
- Under annual billing a subtotal that rises by less than a cent can lower the total, so a fractional device
  count can make a larger plan cheaper (`SafeRises`, `FractionalCountsCanFall`).
- Zero response minutes are priced as the default, so a slower tier can cost more (`SlowerIsNotDearerExactly`).
- A token that already carries the `dpapi:` prefix does not load back as it was saved (`SaveThenLoad`,
  `PrefixedTokensNeverSurvive`).
- The failure counter of the breaker is 32 bits wide and the backoff starts over where it wraps, so the span law
  holds only while a run passes the wrap by at most four failures, fewer from a fresh start
  (`SpanLawHoldsExactlyWhen`).
- Where the system clock is set back, an unbound agent can keep a code for more than 15 minutes from then
  (`UnboundAgentsHoldLiveCodes`).
- A body over 5 MiB is never read back (`FramesRoundTrip`).
- The session timer fires at most 31 times exactly when at most 31 seconds or whole milliseconds are left, and
  32 times otherwise (`LogsOutOnTime`). When the delay to 30 seconds before the expiry is 2^31 ms or more, the
  low 32 bits of it are waited for at most once and the timer then fires for ever (`LogsOutExactlyWhen`).
- Stopping the notification stream does not cancel a pending reconnect; a stop is final exactly when none is
  pending (`StopIsFinalExactlyWhen`, `StopDoesNotCancelReconnect`).
- Active features match plan grants if and only if repeated plan ids agree and a plan with an empty id
  grants nothing (`ActiveExactlyWhenGranted`).
- A negative retry count still makes one call (`ExecuteWithRetry`).

## Model

| member | source | states |
|---|---|---|
| Calendar.YearLength | client/src/lib/businessHours.ts:21-23 | consecutive years start 365 or 366 days apart by the Gregorian leap rule |
| Calendar.DayToCivilAndBack | client/src/lib/businessHours.ts:19-30 | every day number yields a valid civil date of its own year that `MakeDay` maps back to it |
| Calendar.CivilToDayAndBack | client/src/lib/businessHours.ts:35-45 | every valid civil date is recovered from its day number |
| Calendar.DayAfter | client/src/lib/businessHours.ts:122-126 | day + 1, even past a month or year end, is the next civil date read off the month table, and the next weekday |
| Calendar.MonthsCarryOver | client/src/lib/businessHours.ts:35-45 | a month past the end of a year is one of the next year |
| Calendar.AstRoundTrip | client/src/lib/businessHours.ts:19-45 | `toAstComponents` undoes `fromAstComponents` on a valid date and time if and only if the year is not 0 to 99 |
| Calendar.FourHoursBehindUtc | client/src/lib/businessHours.ts:35-45 | `fromAstComponents` yields the UTC instant four hours later on the clock, spelt out in seconds |
| Calendar.ReadsFourHoursBehindUtc | client/src/lib/businessHours.ts:19-30 | `toAstComponents` reads date, hour, minute and weekday of the instant four hours earlier in UTC |
| Easter.EasterIsCorrect | client/src/lib/businessHours.ts:50-66 | for every year from 0 the result is a valid date from 22 March to 25 April and is the one Sunday in the week after the paschal full moon of the epact computus |
| Easter.FullMoonFromOffset | client/src/lib/businessHours.ts:58-62 | the algorithm's h is the offset of the paschal full moon from 21 March, less one when h = 29, or h = 28 and a > 10 |
| Easter.WeekDayOfMarch22 | client/src/lib/businessHours.ts:51-61 | the weekday of 22 March in terms of the e, i and k of the algorithm |
| Easter.MovableHolidays | client/src/lib/businessHours.ts:88-93 | Good Friday is a Friday and Corpus Christi a Thursday, both in Easter's year |
| Easter.AddDaysFromEaster | client/src/lib/businessHours.ts:68-71 | `addDays` from Easter names the civil date that many days away |
| Easter.AddDaysIsThatFarAway | client/src/lib/businessHours.ts:68-71 | `addDays` names the date that far away, and for the years 0 to 99 the one 1900 years later |
| BusinessHours.IsDominicanHoliday | client/src/lib/businessHours.ts:76-96 | the scan with early return decides the holiday predicate |
| BusinessHours.HolidayAtIsHolidayDay | client/src/lib/businessHours.ts:76-96 | from year 100 the month-and-day tests recognise exactly the days that are fixed dates, Good Friday or Corpus Christi of their year |
| BusinessHours.HolidaysApart | client/src/lib/businessHours.ts:79-95 | any two distinct holidays, within a year or across years, are at least five days apart |
| BusinessHours.FourDays | client/src/lib/businessHours.ts:101-105 | every four consecutive days contain a business day |
| BusinessHours.WithinHours | client/src/lib/businessHours.ts:110-115 | open means a business day and a time of day from 9:00 up to but not including 16:00 |
| BusinessHours.OpenInUtc | client/src/lib/businessHours.ts:8-115 | an instant is open if and only if its UTC day is a weekday and no holiday and the UTC time is from 13:00 up to but not including 20:00 |
| BusinessHours.HolidayOffset | client/src/lib/businessHours.ts:79-95 | the holidays are exactly the days with these offsets from 1 January, the leap day counted from March on, or from Easter |
| BusinessHours.NextBusinessDayIsFirst | client/src/lib/businessHours.ts:123-127 | the next business day is at most four days ahead and no day before it is one |
| BusinessHours.GetNextBusinessDayStart | client/src/lib/businessHours.ts:120-129 | the search returns 9:00 on the first business day after the date, within four candidates, and never falls through |
| BusinessHours.GetEffectiveSlaStartTime | client/src/lib/businessHours.ts:138-150 | the returned instant is the earliest open one exactly when the submission is open or its year is at least 100 |
| BusinessHours.SlaStartIsEarliest | client/src/lib/businessHours.ts:138-150 | the same equivalence as a law of the start function, for every instant from year 0 |
| BusinessHours.SlaStartFromYear100 | client/src/lib/businessHours.ts:138-150 | from year 100 the start is the earliest open instant and at most 89 hours away |
| BusinessHours.SlaStartIsMonotone | client/src/lib/businessHours.ts:138-150 | the start is monotone, idempotent, and fixes exactly the open instants |
| BusinessHours.HolyThursdayWaits | client/src/lib/businessHours.ts:138-150 | every year 16:00 on the Thursday before Easter waits exactly 89 hours, so the bound is tight |
| Upgrade.Agent.DownloadAndVerify | packages/msp-agent/src/upgrade.rs:56-117 | success if and only if the body arrives, is written and its checksum matches; then exactly that body is staged, and otherwise what each failure leaves behind |
| Upgrade.GateIsTheDigest | packages/msp-agent/src/upgrade.rs:108-114 | the gate opens if and only if the digest has the expected length and the same letters but for ASCII case |
| Upgrade.Agent.ExecuteAtomicSwap | packages/msp-agent/src/upgrade.rs:123-183 | the files and the sentinel after every combination of failing operations, and when the swap reports success |
| Upgrade.Agent.CheckAndHandleRollback | packages/msp-agent/src/upgrade.rs:187-227 | the disk after a start-up check |
| Upgrade.Agent.CommitUpgradeSuccess | packages/msp-agent/src/upgrade.rs:231-247 | the disk after a handshake |
| Upgrade.Agent.HandleUpgrade | packages/msp-agent/src/main.rs:484-537 | an uninterrupted task swaps only after a verified download |
| UpgradeRuns.OnlyVerifiedBinaries | packages/msp-agent/src/upgrade.rs:108-114 | over every run of whole upgrade tasks, with any failures, the active binary was there at the start or had a matching checksum |
| UpgradeRuns.ActiveIsLostExactlyWhen | packages/msp-agent/src/upgrade.rs:153-158 | a step leaves no active binary if and only if the old one was moved aside, no replacement came, and restoring failed |
| UpgradeRuns.RunRefines | packages/msp-agent/src/upgrade.rs:143-247 | over every run with successful file operations and one upgrade in flight the disk is in the phase of a two-phase transaction, with the previous binary in the backup during a trial |
| UpgradeRuns.TrialOutcomes | packages/msp-agent/src/upgrade.rs:187-247 | commit keeps the target and leaves no sentinel or backup; an expired check restores the previous binary; an early check changes nothing |
| UpgradeRuns.RollbackOutcomes | packages/msp-agent/src/upgrade.rs:187-218 | active, backup and failed path and the sentinel after an expired check, for every combination of operations that fail |
| UpgradeRuns.RollbackWithoutBackup | packages/msp-agent/src/upgrade.rs:207-217 | without a backup nothing is moved, but the sentinel is cleared |
| UpgradeRuns.CommitOutcomes | packages/msp-agent/src/upgrade.rs:231-247 | backup and sentinel go each on its own, and nothing happens without a readable sentinel |
| UpgradeRuns.SettledIsFinal | packages/msp-agent/src/main.rs:818 | once settled, any number of checks and handshakes changes nothing, so an upgrade is settled at most once |
| UpgradeRuns.DeployOutcomes | packages/msp-agent/src/upgrade.rs:149-175 | all outcomes of a verified upgrade: nothing swapped, no active binary, a protected trial, or a new binary without rollback |
| UpgradeRuns.RollbackUndoesTheLastSwap | packages/msp-agent/src/upgrade.rs:143-226 | an expired check after a swap always brings back what was active before that swap |
| UpgradeRuns.OverlapLosesPrevious | packages/msp-agent/src/upgrade.rs:143-226 | after two upgrades and an expired check the original binary is active if and only if the first trial was rolled back in between or the first upgrade delivered the original again |
| UpgradeTasks.ExclusiveRunsStaySound | packages/msp-agent/src/upgrade.rs:84-163 | over every interleaving of the single file operations of any number of tasks, with any failures and process stops, the active binary was there at the start or has the checksum of a command, as long as no two tasks hold the same staged path |
| UpgradeTasks.RestartStops | packages/msp-agent/src/main.rs:309-311 | a task that had begun when the process stopped does nothing any more |
| UpgradeTasks.OverwritingKeepsTheRest | packages/msp-agent/src/upgrade.rs:89-100 | writing through an open file replaces its first bytes and keeps the rest |
| UpgradeCollision.CollisionReachesActive | packages/msp-agent/src/upgrade.rs:89-100 | two tasks on one staged path: the body of the second is written into the file that the first has checked and installed |
| UpgradeCollision.DistinctTargetsExactly | packages/msp-agent/src/main.rs:484-537 | every interleaving keeps the active binary good if and only if no two commands have the same target version |
| UpgradeCollision.ActiveWasAskedFor | packages/msp-agent/src/main.rs:484-537 | with distinct targets the active binary is, after any interleaving, the installed one or one whose checksum some command asked for |
| UpgradeAlone.UninterruptedIsDeploy | packages/msp-agent/src/main.rs:484-537 | the operations of a task that nothing interrupts leave the disk of the one-step upgrade, for every outcome of every operation |
| UpgradeProtection.BackupStaysExactlyWhen | packages/msp-agent/src/upgrade.rs:143-246 | over every exclusive interleaving a backup keeps its file at every point if and only if no step clears, overwrites, puts back, rolls back or commits it; then its content stays |
| UpgradeProtection.ProtectedExactlyWhen | packages/msp-agent/src/upgrade.rs:148-226 | from moving the active binary aside to saving the sentinel, with anything in between, the backup names the previous binary at every point if and only if no step in between touches it; a later rollback then brings that binary back |
| UpgradeProtection.SwapsCanLoseTheBackup | packages/msp-agent/src/upgrade.rs:143-175 | a task that clears the backup of another one in its swap leaves a stored sentinel without a backup, or no active binary when the move in fails |
| Pairing.ProtectLaws | packages/msp-agent/src/crypto.rs:12-171 | protecting twice equals protecting once, and unprotecting undoes protecting |
| Pairing.StoredForm | packages/msp-agent/src/crypto.rs:12-90 | an encrypted token is stored as the prefix and its payload; blank and prefixed ones are not encrypted |
| Pairing.ReadForm | packages/msp-agent/src/crypto.rs:92-171 | blank reads as empty, plain text as itself, and a prefixed text as its payload decrypts |
| Pairing.BlankAscii | packages/msp-agent/src/crypto.rs:12-20 | which ASCII characters count as blank |
| Pairing.BlankBeyondAscii | packages/msp-agent/src/crypto.rs:12-20 | which further characters do and do not |
| Pairing.CodeIsValid | packages/msp-agent/src/pairing.rs:182-192 | a generated code has six ASCII digits |
| Pairing.ValidCodesAreDrawn | packages/msp-agent/src/pairing.rs:182-192 | the valid codes are exactly those that can be drawn |
| Pairing.CodeReadsBack | packages/msp-agent/src/pairing.rs:188-192 | the six digits read back as the number drawn |
| Pairing.AgentState.LoadFrom | packages/msp-agent/src/pairing.rs:83-108 | the state loaded from a missing, corrupt or readable file |
| Pairing.ConfigFile.Save | packages/msp-agent/src/pairing.rs:114-133 | the file after a save that succeeds, does nothing or is cut short |
| Pairing.ConfigFile.HandleStatus | packages/msp-agent/src/ipc_server.rs:290-325 | an unbound agent always answers with a six-digit code that has not expired |
| Pairing.ConfigFile.HandleRefresh | packages/msp-agent/src/main.rs:612-638 | refused when bound, and otherwise successful exactly when the save is |
| Pairing.ConfigFile.HandleBind | packages/msp-agent/src/main.rs:544-580 | refused without slot and token, and otherwise successful exactly when the save is |
| PairingRuns.SaveThenLoad | packages/msp-agent/src/pairing.rs:83-133 | loading after saving returns the same state if and only if the token survives, also when encryption fails |
| PairingRuns.FileHoldsTheProtectedToken | packages/msp-agent/src/pairing.rs:114-133 | a saved file holds the protected token where encryption works and the plain one where it fails |
| PairingRuns.PrefixedTokensNeverSurvive | packages/msp-agent/src/crypto.rs:92-171 | with a cipher that never lengthens, a token survives if and only if it has no `dpapi:` prefix |
| PairingRuns.LoadsAsBoundExactlyWhen | packages/msp-agent/src/pairing.rs:83-108 | a stored state loads as bound if and only if it has slot and token and the token is plain or decrypts; slot and token are otherwise dropped together |
| PairingRuns.ReachableIsSane | packages/msp-agent/src/pairing.rs:136-180 | every run of the six commands, however the clock is set, keeps the persisted state consistent, and no code outlives 15 minutes from the latest clock reading |
| PairingRuns.InstalledStaysConsistent | packages/msp-agent/src/pairing.rs:136-180 | in every persisted state reachable from a fresh install a slot implies a token and no code, so a bound agent never holds a code |
| PairingRuns.UnboundAgentsHoldLiveCodes | packages/msp-agent/src/ipc_server.rs:290-348 | after a status, refresh, unbind or start-up step the agent is bound without a code or holds a live one, in the file too unless saving failed; it expires within 15 minutes of the latest reading, and of this step if and only if it is new or the code found did, so always unless the clock was set back |
| PairingRuns.RefreshAndUnbindRenew | packages/msp-agent/src/main.rs:584-638 | a saved refresh of an unbound agent stores the code just drawn for 15 minutes, a saved unbind also drops slot and token; the instance id stays |
| PairingRuns.LiveCodesAreKept | packages/msp-agent/src/ipc_server.rs:290-311 | status and start-up keep a live code and write nothing, and otherwise act as a refresh |
| PairingRuns.TokensAreStored | packages/msp-agent/src/main.rs:544-580 | an incomplete bind leaves the file alone; a saved bind and a provisioned token load back with the same instance id |
| PairingRuns.UnsavedChangesNothing | packages/msp-agent/src/pairing.rs:114-133 | without a completed write the file is as before or corrupt, and a corrupt one loads as a new identity |
| PairingRuns.LiveUntilExpiry | packages/msp-agent/src/pairing.rs:141-151 | a code is live exactly while the clock reads less than its expiry |
| PairingRuns.BindIsLoaded | packages/msp-agent/src/main.rs:561-566 | a saved bind loads as bound exactly when its token is plain or decrypts |
| PairingRuns.BindingIsStable | packages/msp-agent/src/main.rs:614-619 | status, refresh and start-up steps never touch the file of a bound agent |
| Breaker.RefusedAfterFailure | packages/msp-agent/src/ipc_server.rs:34-62 | after a failure requests are refused for at least 30 and at most 900 seconds, and the longer the more failures came before |
| Breaker.TicketSyncCircuitBreaker.RecordFailure | packages/msp-agent/src/ipc_server.rs:46-62 | the counter and the next permitted time after a failure |
| Breaker.DelayBounds | packages/msp-agent/src/ipc_server.rs:48-55 | delays lie from 30 to 900 seconds, do not fall as failures mount, and are least for network failures |
| Breaker.FirstBackoff | packages/msp-agent/src/ipc_server.rs:46-62 | from a fresh breaker requests are allowed again exactly after 300 seconds for a 429, 120 for a 401 or 404, and 30 otherwise |
| Breaker.BackoffDoubles | packages/msp-agent/src/ipc_server.rs:53-55 | each further failure doubles the wait up to 900 seconds, which the sixth has reached |
| Breaker.FailuresAreSpread | packages/msp-agent/src/ipc_server.rs:34-68 | n permitted requests that all fail, n at least 6, span at least 930 + 900 (n - 6) seconds whatever the status codes and whatever came before, while the counter passes its wrap by no more than the slack |
| Breaker.FastestMeetsTheLeastSpan | packages/msp-agent/src/ipc_server.rs:34-68 | from every state and for every n a permitted run meets the least span exactly |
| Breaker.LeastSpanReaches | packages/msp-agent/src/ipc_server.rs:47-55 | the least span reaches the bound if and only if f + n is at most 2^32 plus 0, 1, 1, 2, 3 or 4 failures of slack for f = 0, 1, 2, 3, 4 or more |
| Breaker.SpanLawHoldsExactlyWhen | packages/msp-agent/src/ipc_server.rs:34-68 | from a breaker with f failures every run of n failures obeys the span bound if and only if the same condition on f and n holds |
| Frames.EncodeFrame | packages/msp-agent/src/ipc_server.rs:124-131 | a response frame is the 32-bit length and the body |
| Frames.PushFrame | packages/msp-agent/src/ipc_server.rs:626-630 | a push frame has the same layout |
| Frames.ReadFrames | packages/msp-agent/src/ipc_server.rs:265-275 | the loop yields the bodies and the reason for stopping of the recursive reading |
| Frames.WhyReadingStops | packages/msp-agent/src/ipc_server.rs:265-275 | a length over 5 MiB stops the reader before any of that body has come, otherwise less than a whole frame is left over |
| Frames.PrefixesCompareAsNumbers | packages/msp-agent/src/ipc_server.rs:128 | length prefixes put the most significant byte first |
| Frames.Layout | packages/msp-agent/src/ipc_server.rs:124-131 | a frame is the four bytes of the length, highest first, and the body |
| Frames.FramesRoundTrip | packages/msp-agent/src/ipc_server.rs:265-275 | reading the concatenation of encoded frames gives back the bodies with nothing left over if and only if all are at most 5 MiB |
| Frames.StreamsAreUnambiguous | packages/msp-agent/src/ipc_server.rs:123-131 | different sequences of such bodies never share a byte stream |
| Frames.ReadingStopsAtTooLarge | packages/msp-agent/src/ipc_server.rs:269-271 | everything before a frame that is too large is delivered and nothing after it |
| PlanCatalog.CostsAreNotNegative | client/src/constants/featureCatalog.ts:34-797 | no parameters make a feature cost less than nothing |
| PlanCosts.CalculateSlaPremium | client/src/utils/planCostCalculator.ts:53-72 | the premium, from 0 to 65 dollars |
| PlanCosts.PriceFeature | client/src/utils/planCostCalculator.ts:106-143 | one feature's base and per-device price from rule, parameters and custom cost |
| PlanCosts.AccumulateFeatures | client/src/utils/planCostCalculator.ts:99-163 | the loop's sums and line items |
| PlanCosts.CalculatePlanCosts | client/src/utils/planCostCalculator.ts:94-221 | the engine computes the specified result for every input, with and without overrides |
| PlanCostLaws.ClampsNeverAct | client/src/utils/planCostCalculator.ts:169-195 | without overrides the three clamps at zero change nothing, for any device count |
| PlanCostLaws.TotalsInCents | client/src/utils/planCostCalculator.ts:193-200 | discount, tax and grand total as integer divisions of a subtotal in whole cents |
| PlanGrowth.AddingAFeatureNeverLowersTheTotal | client/src/utils/planCostCalculator.ts:103-201 | adding any feature never lowers the grand total, for any device count, in both cycles, with or without tax |
| PlanGrowth.AddingDevicesNeverLowersTheTotal | client/src/utils/planCostCalculator.ts:191-200 | raising the device count never lowers the grand total under monthly billing, and under annual billing not between whole counts or when it adds nothing or at least a cent |
| PlanGrowth.SafeRises | client/src/utils/planCostCalculator.ts:193-200 | a rise of the subtotal lowers no total, from any starting point, if and only if billing is monthly or the rise is zero or at least a cent |
| PlanGrowth.FractionalCountsCanFall | client/src/utils/planCostCalculator.ts:191-200 | under annual billing the asset inventory for 1.1 devices costs less than for 1.0998 |
| PlanPrices.ParametersAddUp | client/src/utils/planCostCalculator.ts:128-141 | the surcharges of a listed feature add up over its parameters, in base and per device |
| PlanPrices.OneParameter | client/src/utils/planCostCalculator.ts:120-141 | a listed value adds exactly its listed price and any other nothing |
| PlanPrices.ManualPriceReplaces | client/src/utils/planCostCalculator.ts:179-182 | a manual price is the effective base, and service level and quota then change no billed figure |
| PlanPrices.ManualPriceIgnoresBases | client/src/utils/planCostCalculator.ts:179-201 | nor do the base prices of the features |
| PlanPrices.ManualPerDeviceReplaces | client/src/utils/planCostCalculator.ts:184-188 | a manual price per device is the effective one; with both manual the features change no total |
| PlanPrices.SuggestionsStay | client/src/utils/planCostCalculator.ts:168-188 | the suggested prices ignore the overrides and are the effective ones without them |
| PlanPrices.CountIsAtLeastOne | client/src/utils/planCostCalculator.ts:95 | a missing, zero or small device count is one device |
| PlanPrices.OneLineEach | client/src/utils/planCostCalculator.ts:103-163 | every included feature has its own line, in order, with its code |
| PlanPrices.LineAddsUp | client/src/utils/planCostCalculator.ts:145-162 | for a whole count and whole cents a line's total is its base plus its price for each device |
| PlanPrices.FreeFeatures | client/src/utils/planCostCalculator.ts:104-113 | features that are not included, not listed or without a code cost nothing |
| PlanPrices.PremiumFalls | client/src/utils/planCostCalculator.ts:53-72 | the premium starts at 65 dollars and falls by 20 at 15 and at 30 critical minutes, by 15 at 30 and by 10 at 60 high-priority minutes |
| PlanPrices.ShownApart | client/src/utils/planCostCalculator.ts:165-219 | premium and quota adjustment are shown each under its own name |
| PlanPrices.QuotaPrices | client/src/utils/planCostCalculator.ts:77-86 | 30 dollars without a quota, 20 over 50 tickets, otherwise nothing |
| PlanPrices.StoragePrices | client/src/constants/featureCatalog.ts:123-133 | 25 GB are included, each whole GB more costs 6 cents per device, and a TB is 1024 GB |
| PlanPrices.OnsitePrices | client/src/constants/featureCatalog.ts:248-257 | 65 dollars an hour with the two surcharges, never below nothing |
| PlanCostLaws.FiguresAddUp | client/src/utils/planCostCalculator.ts:187-220 | for every input net and tax add up to the total; base and hardware add up to the subtotal if and only if the base is in whole cents; subtotal less discount is the net if and only if it is not below minus half a cent |
| PlanCostLaws.OrderDoesNotMatter | client/src/utils/planCostCalculator.ts:103-163 | permuting the features leaves every figure unchanged and permutes the line items |
| PlanCostLaws.LineItemsReconcile | client/src/utils/planCostCalculator.ts:155-176 | line items plus premium plus adjustment miss the subtotal by the rounded residue sum, agree if and only if it lies from -1/2 up to 1/2, and are within half a cent per fractional price |
| PlanCostLaws.OneFractionalBase | client/src/utils/planCostCalculator.ts:155-162 | the bound counts exactly the base prices that are not in whole cents |
| PlanCostLaws.LineItemsCanMiss | client/src/constants/featureCatalog.ts:248-257 | with two on-site visits of 0.333 hours the line items add up to one cent more than the subtotal |
| PlanCostLaws.OnlyOnsiteIsFractional | client/src/constants/featureCatalog.ts:248-257 | only on-site support can have a base price with a fraction of a cent |
| PlanCostLaws.SlowerIsNotDearerExactly | client/src/utils/planCostCalculator.ts:53-72 | for any minutes a slower tier costs no more, unless the faster one has zero high-priority minutes, the slower one more than 0 and at most 30, and both are in one critical bracket; then it always costs more |
| PlanCostLaws.MoreTicketsAreNotCheaper | client/src/utils/planCostCalculator.ts:77-86 | a larger ticket quota never costs less, an unlimited one most |
| AuthStorage.Browser.SetRememberMe | client/src/lib/authStorage.ts:42-49 | the stores after a toggle, which a refused write leaves alone |
| AuthStorage.Browser.GetAuthItem | client/src/lib/authStorage.ts:65-76 | the value read through the preferred store and then the other |
| AuthStorage.Browser.SetAuthItem | client/src/lib/authStorage.ts:79-90 | the stores after a write, which a refused one leaves alone |
| AuthStorage.Browser.ClearAuthData | client/src/lib/authStorage.ts:93-105 | the loop removes every auth key from both stores and nothing else |
| AuthStorage.LooksLikeOneMap | client/src/lib/authStorage.ts:42-105 | over every run no auth key is in both stores, reads agree with one plain map, and closing the tab keeps exactly the keys last set with the preference on |
| AuthStorage.EmptyIsRepresented | client/src/lib/authStorage.ts:65-90 | stores without auth keys are one empty map |
| AuthStorage.DuplicatesShow | client/src/lib/authStorage.ts:65-76 | for a key in both stores toggling is invisible exactly when the values are equal |
| AuthStorage.ReadsFollowOperations | client/src/lib/authStorage.ts:42-105 | what is read after a set, a removal, a toggle, a clear and the closing of the tab, for the key and for others |
| AuthStorage.TheRestStays | client/src/lib/authStorage.ts:29-105 | the preference is the last accepted toggle, on by default, and no operation changes anything but auth data |
| AuthStorage.TheAuthKeys | client/src/constants/storage.ts:5 | the three auth keys |
| SessionMonitor.LogsOutOnTime | client/src/hooks/useSessionMonitor.ts:77-108 | while the delay fits 31 bits: never before the expiry, less than a second after it, with at most 32 firings, and at most 31 if and only if at most 31 seconds or whole milliseconds are left |
| SessionMonitor.LogsOutExactlyWhen | client/src/hooks/useSessionMonitor.ts:77-108 | the monitor logs out after finitely many firings if and only if the token has a usable expiry and the delay to 30 seconds before it fits 31 bits |
| SessionMonitor.UnexpiredStaysLoggedIn | client/src/hooks/useSessionMonitor.ts:91-107 | no check logs out while the stored token is unexpired, however long it lives; the next one is due before the expiry plus one second, and later than now if and only if the delay cut to 32 bits is positive |
| SessionMonitor.OverlongLifeNeverLogsOut | client/src/hooks/useSessionMonitor.ts:94-107 | a delay of 2^31 ms or more ends in a timer that re-arms itself at once for ever |
| SessionMonitor.NoTokenNoSession | client/src/hooks/useSessionMonitor.ts:80-107 | a token that is gone or without expiry logs out when the timer fires but not when scheduling, an expired one in both |
| SessionMonitor.FirstCheck | client/src/hooks/useSessionMonitor.ts:91-107 | the first check is due 30 seconds before the expiry to the millisecond, but not before one second has passed |
| NotificationStore.Store.OnNotification | client/src/store/useNotificationStore.ts:151-166 | a new entry is put first and counted, a known id changes nothing |
| NotificationStore.Store.MarkAsRead | client/src/store/useNotificationStore.ts:73-93 | the list and count after marking one entry |
| NotificationStore.RunKeepsInvariants | client/src/store/useNotificationStore.ts:54-244 | over every interleaving at most one source is open and it is the stored one, ids stay distinct, and the count is the number of unread entries |
| NotificationStore.MarkReadCounts | client/src/store/useNotificationStore.ts:76-86 | marking an entry lowers the count by one exactly when it was there and unread |
| NotificationStore.StepIsInboxStep | client/src/store/useNotificationStore.ts:54-166 | the list behaves as an order of ids, newest first, with a set of unread ones |
| NotificationStore.StreamLaws | client/src/store/useNotificationStore.ts:137-244 | list and stream do not touch each other; status, reconnect timers and opened sources follow the last event |
| NotificationStore.StopIsFinalExactlyWhen | client/src/store/useNotificationStore.ts:226-244 | after a stop no run without a new start opens a source again, if and only if no reconnect timer was still to fire |
| NotificationStore.StopDoesNotCancelReconnect | client/src/store/useNotificationStore.ts:215-244 | an error before the stop leaves a run that opens a source again |
| Entitlements.ExpandFeatureBundles | client/src/constants/subscriptions.ts:72-85 | the result has no duplicates and holds what each listed code grants |
| Entitlements.NoDuplicatesCounts | client/src/constants/subscriptions.ts:72-85 | a list without duplicates has as many elements as entries |
| Entitlements.ExpandedIsUnlocked | client/src/constants/subscriptions.ts:52-85 | a code is in the expansion exactly when it is listed or part of a listed bundle |
| Entitlements.UnlockedIsAClosure | client/src/constants/subscriptions.ts:52-85 | expansion is extensive on codes, idempotent, monotone and distributes over unions |
| Entitlements.NamedByAnEntry | client/src/hooks/useEntitlements.ts:74-83 | a plan names a code exactly when some entry is it or is an item with it that is not excluded |
| Entitlements.ActiveFeatures | client/src/hooks/useEntitlements.ts:52-96 | the active features have no duplicates and are exactly what a client has |
| Entitlements.CheckPlanFeature | client/src/hooks/useEntitlements.ts:112-137 | decides whether one plan grants a code |
| Entitlements.ActiveExactlyWhenGranted | client/src/hooks/useEntitlements.ts:59-137 | for all subscriptions and codes active means granted by some active subscription's plan, if and only if lookups by plan id agree |
| Entitlements.DistinctIdsAgree | client/src/hooks/useEntitlements.ts:63-66 | with distinct non-empty plan ids they do |
| Entitlements.RepeatedIdsCanDisagree | client/src/hooks/useEntitlements.ts:63-66 | a plan list with a repeated id for which they do not |
| Entitlements.OnlyActiveCounts | client/src/hooks/useEntitlements.ts:52-57 | a subscription counts if and only if its status is ACTIVE or EXPIRING |
| Entitlements.OneEntry | client/src/hooks/useEntitlements.ts:74-83 | what a single entry of a plan names |
| Entitlements.TheBundles | client/src/constants/subscriptions.ts:52-64 | what each bundle unlocks |
| Entitlements.OtherCodesAreNoBundles | client/src/constants/subscriptions.ts:72-85 | any other code unlocks only itself |
| Entitlements.FindsTheFirst | client/src/hooks/useEntitlements.ts:118 | the plan check looks at the first plan with the id |
| Entitlements.FindsTheLast | client/src/hooks/useEntitlements.ts:63-66 | the entitlement list looks at the last |
| Entitlements.NoPlanNoFeature | client/src/hooks/useEntitlements.ts:98-117 | every code is granted when it is empty, and no other without a plan or subscription |
| LazyRetry.ReloadGuard.AttemptReload | client/src/lib/lazyWithRetry.ts:52-75 | when a reload happens and what is stored |
| LazyRetry.ReloadsAreApart | client/src/lib/lazyWithRetry.ts:57-71 | automatic reloads in a session are at least the cooldown apart, whatever the clock does |
| LazyRetry.ExecuteWithRetry | client/src/lib/lazyWithRetry.ts:80-115 | a load ends, calls the factory up to its first success or the limit, waits twice as long after each failure, and reloads only after a last chunk error |
| LazyRetry.LazyModule.LoadModule | client/src/lib/lazyWithRetry.ts:129-138 | the memoised promise is returned, and a load is started only without one |
| LazyRetry.RunKeepsInvariant | client/src/lib/lazyWithRetry.ts:127-138 | over every run at most one load is in flight, none exceeds its calls, and after a success nothing changes |
| LazyRetry.FailureIsForgotten | client/src/lib/lazyWithRetry.ts:131-135 | a load that fails for good leaves nothing memoised and the next request starts a new one |
| LazyRetry.CallLimits | client/src/lib/lazyWithRetry.ts:92-101 | a load makes one call more than its retries, and at least one |
| LazyRetry.WaitsDouble | client/src/lib/lazyWithRetry.ts:111-113 | the first wait is the initial delay and each further one twice as long |
| LazyRetry.ReloadsWaitTenSeconds | client/src/lib/lazyWithRetry.ts:58-65 | a reload is held back for 10 seconds after the last and by nothing else |
| LazyRetry.FailuresAreRetried | client/src/lib/lazyWithRetry.ts:98-114 | a failed call is followed by a wait and one more call exactly below the limit; the last one forgets the promise or leaves it hanging |
| LazyRetry.RequestsShareAPromise | client/src/lib/lazyWithRetry.ts:129-138 | a request calls once when nothing is memoised and otherwise not at all; a success is kept |

## Left out

- SLA clock: years before 0, where the remainders of the Easter algorithm go negative, and the limit of 8.64e15 ms on `Date` values.
- Upgrade: MSI upgrades, HTTP, service restarts, trimming of the checksum, which arrives trimmed, and versions whose paths differ only in letter case.
- Pairing: the reply and push payloads, console banner, hello message and choice of config path; JSON and RFC 3339 are an exact representation.
- Breaker and frames: HTTP calls, tickets and the named pipe itself; frames whose reading is cancelled by a push.
- Pricing: laws between the listed prices of the catalog, which are data taken over one by one; floating-point rounding, infinite or NaN parameters, feature display names, and parameter names inherited from `Object.prototype`.
- Auth storage: rendering without a window, and other tabs changing `localStorage`.
- Session monitor: base64 and JSON decoding of the token, toasts, and the unauthorised-event listener.
- Notification store: toasts, the loading flag, the bell tray and navigation timestamps.
- Entitlements: users who are not clients, for whom every feature is open, and codes inherited from `Object.prototype`.
- Lazy loading: recognising chunk errors by message text, React itself, and idle preloading.
- Reconnect backoff of the agent loop, CRM and checkout stores, and the server's schedulers and billing: they would add only easier members or are services around calls.
