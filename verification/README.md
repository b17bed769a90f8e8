# Recovery manager: a verified model of escalation, relaxation and the primary/replica protocol

RecoveryManager watches the services of an embedded Linux system.  Each service can have a recovery
unit: a list of actions, from a restart of the service to a factory reset, each with a number of
retries.  A persistent *recovery vector* counts the failures of the service and selects the next
action; a *relax timer* brings it back to 0 when the service has been quiet long enough.  One
instance, the primary, owns the platform; replicas run in containers and send it what they cannot
do themselves.

The modules follow the parts of the program, and the objects that the program updates in place are
classes whose methods are proved against functions on values; what the program promises is then
proved about those functions, over all inputs and all runs.

| file | part of the program |
|---|---|
| `Common.dfy` | result shapes |
| `Ladder.dfy` | actions of a unit as overlapping intervals, and the ladder they stand for |
| `ServiceMachine.dfy`, `Relaxation.dfy`, `Relaxability.dfy` | one service: vector, relax timers, clock; which units relax soundly, and when a timer is pending |
| `Journal.dfy` | the three tables and the query loops over them |
| `JenkinsHash.dfy` | the version hash of a unit file |
| `Units.dfy`, `Reload.dfy` | the unit entry filled by the parser; the reload loop |
| `Daemon.dfy` | monitor entries, dispatcher queue, crash handler and timers of all services |
| `Projection.dfy`, `DaemonRuns.dfy`, `Failures.dfy`, `FooledDaemon.dfy`, `Upgrades.dfy` | every run of the daemon seen from one service, end-to-end results, state reports and what becomes of them, the run that fools the daemon, changed unit files |
| `Message.dfy` | the wire format, its reader and writer |
| `Protocol.dfy` | primary and replicas as one network of queues; roles |
| `Traffic.dfy`, `Echo.dfy`, `Delivery.dfy`, `Escalations.dfy`, `Recoveries.dfy` | what the network does to its traffic, and what its executors do |
| `Instance.dfy` | one instance in memory, with shared reference-counted events |

## What the proofs found

* **Stale timers.** A relax timer is never cancelled; when it fires it compares the vector with the
  level it was armed at.  `README.md:22` of the repository says that this shows there was no other
  crash.  Over all runs of the daemon that holds for exactly the units of `Relaxation.SafeUnit`
  (`FooledDaemon.DaemonSoundIff`): there is no relax time; or the very first rung resets the vector;
  or no rung does, and no timer of a higher level is shorter than one of a lower level, which is so
  while level * relaxtime fits 32 bits.  For every other unit `FooledDaemon.DaemonIsFooled` gives
  the run in which an old timer relaxes a service that has crashed all along.  What is true of every
  unit is `ServiceMachine.GeneralResetLaw`.
* **Resets.** `README.md:20` says that only the relax timer resets the vector; `reset="true"` and
  `ignoreService` do so too.  `README.md:22` starts a timer after every action; the context,
  platform and factory actions and a missing action start none.  A vector that they leave stays
  until the next crash or restart, for every unit, as long as no restart of the daemon has armed a
  timer at such a level (`Relaxability.RelaxableIff`).  After such a restart the old timer can take
  the vector for its own: over all runs the vector stays for exactly the units of
  `Relaxability.StaleFree` (`Relaxability.AlwaysStaysIff`), and
  `Relaxability.ContextRestartRelaxed` is a run of two actions in which it does not.
* **Resetting actions.** `config/sample.recovery:17-18` says that actions after a resetting one
  are ignored.  More is lost: the resetting action's own retries are never used
  (`Relaxation.VectorStaysBelowResetLevel`).  A factory reset ignores the flag.
* **Changed units.** The version of a unit is a hash of its whole text, and every step of the hash can
  be undone, so that a changed byte always takes effect at the next restart
  (`Upgrades.ChangedTextUpgrades`), and the same text never resets a vector
  (`Upgrades.SameTextKeeps`).
* **Exhaustion.** Past the last rung nothing resets the vector any more
  (`Relaxation.ExhaustionAbsorbs`), but a restart of the daemon does
  (`DaemonRuns.RebootRecovers`).
* **Echo.** A replica sends every failure it is told of back to the primary.  With one other client
  the packets can circulate forever (`Echo.EchoDrainsIff`), with two or more they multiply without
  bound (`Echo.EchoMultipliesIff`).
* **Platform restarts of replicas.** The primary turns them into a restart of the replica's
  container; the platform is restarted only when the primary's own journal asks for it
  (`Escalations.PlatformRestartsAreOwn`), and the event for it is never dispatched remotely
  (`Protocol.RolesAreKept`).
* **A local context restart at the primary** shuts down a container named after the host: the
  context is written into the event after it was queued and before the executor looks, so the branch
  for a missing context is dead (`Protocol.ContextRestartHasContext`,
  `Instance.RecoveryInstance.PostRecovery`).

## Assumptions

* SQL statements succeed and scan a table in the order of insertion; a row whose primary key is
  taken is refused.
* A handler runs to its end before the next one starts: there is one main loop.
* Timers fire in the order of their deadlines, and of arming when these are equal, never early.
* A connection delivers packets whole and in order, and sends succeed.
* Names on the wire are not empty and at most 129 bytes long in `Protocol` and above; `Message`
  says what happens to other names.

## Model

| member | source | states |
|---|---|---|
| Ladder.ScanIsLookup | source/rmg-journal.c:182-191 | The scan over overlapping closed intervals, each match replacing the answer, changes its starting answer exactly on the levels of the ladder and then to the ladder's rung. |
| Ladder.SelectionRefinesLadder | source/rmg-journal.c:931-995 | Over the rows of a unit the type and the reset flag found for a level are those of one and the same rung; levels 1 to 1 + total retry are covered without a gap and no other level selects anything. |
| Ladder.ExpandLength | source/rmg-journal.c:393-402 | The ladder has one rung for each retry of an accepted action and one more, or none at all when no action is accepted. |
| Ladder.RungsFollowUnitOrder | config/sample.recovery:14-16 | Rungs come in unit order: element i has the rungs after the retries before it, the last accepted element also the closing rung. |
| Ladder.RetriesCount | source/rmg-journal.c:393-402 | Adding one action to a unit, at any place, makes the ladder longer by exactly its retries, by one more if it is the only usable action, and not at all if it is refused. |
| Ladder.RungsAreAccepted | source/rmg-journal.c:393-394 | Every rung is an action of the unit with at least one retry and a known type. |
| ServiceMachine.FullWaitIff | source/rmg-relaxtimer.c:100-102 | A timer waits level * relaxtime seconds if and only if the product fits 32 bits; otherwise it is early. |
| ServiceMachine.VectorCountsCrashesSinceReset | source/rmg-dispatcher.c:289-306 | In every run the vector is the number of crashes handled since its latest reset, plus its first value if it never was reset. |
| ServiceMachine.GeneralResetLaw | source/rmg-relaxtimer.c:36-46 | When a timer armed at level k resets the vector, no crash happened since arming, or a reset happened in between and exactly k crashes followed the latest one. |
| ServiceMachine.ArmedAtLevel | source/rmg-relaxtimer.c:86-102 | A new timer appears only at a crash whose action relaxes or at a restart, stamped with the current vector, and with its deadline. |
| ServiceMachine.PendingInBetween | source/rmg-relaxtimer.c:100-102 | A timer that is still pending later was pending at every step in between: nothing but its own expiry or a restart removes it. |
| Relaxation.ResetLevelOfUnit | source/rmg-dispatcher.c:332-436 | The reset level of a ladder is where the first resetting element of the unit starts: one more than the retries before it. |
| Relaxation.VectorStaysBelowResetLevel | config/sample.recovery:16-18 | From a fresh service the vector stays below the reset level in every run, a crash resets it exactly at that level, and no later rung is ever selected. |
| Relaxation.EscalationFollowsLadder | source/rmg-dispatcher.c:289-330 | In any run without a reset, with ticks, stale timers and restarts in between, the crashes select consecutive rungs and then nothing. |
| Relaxation.ExhaustionAbsorbs | source/rmg-dispatcher.c:438-442 | Past the last rung, and until a restart, no crash selects an action, no timer resets the vector, and it only counts crashes. |
| Relaxation.TimersStayWithinLadder | source/rmg-relaxtimer.c:86-92 | No timer is stamped above the ladder unless a restart finds the vector there. |
| Relaxation.RelaxesByDeadline | source/rmg-relaxtimer.c:36-46 | A timer stamped with the current vector brings it to 0 by its deadline when no crash and no restart follow. |
| Relaxation.SoundRelaxation | source/rmg-relaxtimer.c:36-46 | If only timers reset the vector and durations rise with the level, a timer that resets it saw no crash since it was armed, waited in full, and leaves no other timer pending. |
| Relaxation.OrderedStep | source/rmg-relaxtimer.c:86-102 | Timed invariant: in the order of arming, pending timers have strictly increasing levels and rising deadlines, none is above the vector and none is due later than its own duration from now. |
| Relaxation.FittingWaitsRise | source/rmg-relaxtimer.c:100-102 | While (vector + 1) * relaxtime fits 32 bits, no timer is shorter than an older one could be. |
| Relaxation.PlainUnitsAreSafe | source/rmg-relaxtimer.c:100-102 | A unit without resetting actions is safe if the wait of its last rung fits 32 bits. |
| Relaxation.FooledTimer | source/rmg-relaxtimer.c:44 | For every unit that is not safe, a run in which an old timer resets the vector although crashes followed its arming. |
| Relaxation.RelaxesSoundlyIff | source/rmg-relaxtimer.c:36-46 | Over all runs, no timer of a unit resets the vector after a crash it did not see if and only if the unit is safe, a condition on its rungs and relax time alone. |
| Relaxability.RelaxableIff | source/rmg-dispatcher.c:344-442 | For every unit, whatever resets the vector, in one daemon lifetime and over restarts at levels that start timers: after a crash a vector above 0 has a pending timer of its own exactly if there is a relax time and the action is a service reset, public data reset, private data reset or service disable without the reset flag; a vector left without a timer stays until the next crash or restart. |
| Relaxability.AlwaysToldIff | source/rmg-monitor.c:363-390 | Over all runs, restarts included, the last action tells whether a vector above 0 has a timer if and only if the unit is stale-free, a condition on its rungs and relax time. |
| Relaxability.AlwaysStaysIff | source/rmg-dispatcher.c:406-442 | Over all runs, a vector left by an action that starts no timer stays until the next crash or restart if and only if the unit is stale-free. |
| Relaxability.StaleTimer | source/rmg-monitor.c:363-390 | For every other unit, a run in which a crash reaches a level that starts no timer while a timer of that level, armed by a restart, is pending. |
| Relaxability.ContextRestartRelaxed | source/rmg-dispatcher.c:406-418 | The run of a concrete unit in which the timer of a restart relaxes the vector that a context restart left. |
| JenkinsHash.ComputeHash | source/rmg-utils.c:158-175 | The loop computes the hash function on 64-bit words. |
| JenkinsHash.HashOfOne | source/rmg-utils.c:163-172 | A known answer that fixes the shifts 10, 6, 3, 11 and 15. |
| JenkinsHash.ShrDivides | source/rmg-utils.c:167 | The right shift by k divides by 2^k. |
| JenkinsHash.CharactersAreSigned | source/rmg-utils.c:165 | A byte above 127 is subtracted, modulo 2^64. |
| JenkinsHash.XorShiftInjective | source/rmg-utils.c:167 | Two words that agree after the xor with their own right shift are equal, for any shift. |
| JenkinsHash.RoundInjective | source/rmg-utils.c:165-167 | One round tells apart two states and two characters, when only one of them differs. |
| JenkinsHash.FinishInjective | source/rmg-utils.c:170-172 | The final mix is injective modulo 2^64. |
| JenkinsHash.HashSuffix | source/rmg-utils.c:158-175 | A common suffix neither hides nor creates a difference of hashes. |
| JenkinsHash.HashSeesEveryByte | source/rmg-utils.c:158-175 | Two texts that differ in one byte have different hashes, for all prefixes and suffixes: a replaced byte is never taken for the stored version. |
| Journal.WithRvectorNamed | source/rmg-journal.c:916-917 | An update of a vector is seen in the rows of that service and in no others. |
| Journal.RvectorAfterUpdate | source/rmg-journal.c:874-929 | Reading after writing: the new value for that service, hash and relax time and all other services as before. |
| Journal.LastRowAnswers | source/rmg-journal.c:800-900 | The last row of a service answers the queries for its hash, vector and relax time, wherever it stands. |
| Journal.NoRowAnswers | source/rmg-journal.c:800-900 | Without a row of the service all three answers are 0. |
| Journal.FriendsRow | source/rmg-journal.c:201-219 | A response is made of a row exactly if friend, context and type match, with its service, action, argument and delay each in its own field. |
| Journal.Journal.GetHash | source/rmg-journal.c:1091-1119 | The loop's answer is the hash of the service's last row, 0 without one. |
| Journal.Journal.GetRvector | source/rmg-journal.c:874-900 | The loop's answer is the vector of the service's last row, 0 without one. |
| Journal.Journal.GetRelaxingTimeout | source/rmg-journal.c:800-827 | The loop's answer is the relax time of the service's last row, 0 without one. |
| Journal.Journal.SetRvector | source/rmg-journal.c:902-929 | The loop changes the vector of the rows of that name only: the service, if it has a row, then reads the new value, and every other service reads what it read before. |
| Journal.Journal.GetServiceAction | source/rmg-journal.c:931-961 | The type of the last row of the service whose interval holds the vector, Invalid without one. |
| Journal.Journal.GetServiceActionResetAfter | source/rmg-journal.c:963-995 | The reset flag of the same row. |
| Journal.Journal.GetServicesForFriend | source/rmg-journal.c:997-1029 | One response per matching row, in table order. |
| Journal.Journal.RemoveService | source/rmg-journal.c:1031-1089 | The loops leave no row of the service in any of the three tables, and every other service the rows it had. |
| Journal.Journal.AddService | source/rmg-journal.c:618-650 | A new row with vector 0, unless the hash is taken, which is an error and changes nothing. |
| Units.JEntry.constructor | source/rmg-jentry.c:45-60 | A new entry is empty and its running level is 1. |
| Units.JEntry.StartElement | source/rmg-journal.c:356-516 | One element: actions with retry < 1 or an unknown type are ignored, the others take the next interval and move the running level. |
| Units.ParseUnit | source/rmg-journal.c:568-572 | The entry after all elements of a file. |
| Units.ParseCompiles | source/rmg-journal.c:393-402 | The parsed actions are the overlapping intervals of the unit's action elements, and the running level is 1 + total retry. |
| Units.ParseRelaxtime | source/rmg-journal.c:443-447 | A unit has a relax time exactly if some service element gives one, also when it is not positive. |
| Units.LastGiven | source/rmg-journal.c:443-478 | The last element that gives the name, a data path, the relax time or the start check gives its value; a relax time that is not positive counts as 5. |
| Units.NeverGiven | source/rmg-jentry.c:45-60 | What no element gives is missing, or 0 for the relax time. |
| Units.ParseFriends | source/rmg-journal.c:404-437 | One friend entry per friend element, in order, each attribute in its own field, and the host as the context that is not given. |
| Reload.StoreUnit | source/rmg-journal.c:577-610 | The new tables after one unit. |
| Reload.ReloadUnits | source/rmg-journal.c:551-611 | The loop over the directory stores the readable units in order. |
| Reload.EntriesAre | source/rmg-journal.c:561-573 | A file is used exactly if it can be read and parsed, and its version is the hash of its whole text. |
| Reload.StoreContents | source/rmg-journal.c:578-604 | Storing a unit gives its service exactly the unit's rows, or keeps them when the hash is stored; other services are untouched. |
| Reload.StoredIffKeyFree | source/rmg-journal.c:586-609 | A new version gets its row exactly if no other service has its hash; otherwise the service is left without one. |
| Reload.ReloadInstalls | source/rmg-journal.c:551-611 | After a reload every unit's rows are installed; unchanged units keep their vector, the others start at 0. |
| Reload.ReloadOrderIrrelevant | source/rmg-journal.c:551 | The order in which the directory is read does not matter to any service. |
| Reload.ReloadIdempotent | source/rmg-journal.c:580-584 | A second reload of the same units changes nothing. |
| Reload.KeysStayUnique | source/rmg-journal.c:272-311 | Whatever the unit files bring, clashing versions and keys included, no table ever holds a primary key twice. |
| Reload.StoreAllContents | source/rmg-journal.c:551-611 | What every service sees after a reload; services without a file see what they saw before. |
| Daemon.RecoveryDaemon.OnPropertiesChanged | source/rmg-mentry.c:72-113 | New monitor state and queue: a crash event exactly on the edge into failed, a restart event on the edge into active. |
| Daemon.RecoveryDaemon.OnUnitNew | source/rmg-monitor.c:202-225 | A new unit is monitored, as inactive, if it is a service that is not monitored yet. |
| Daemon.RecoveryDaemon.TriggerRelaxTimer | source/rmg-relaxtimer.c:75-105 | New timers: one stamped with the vector, or none when the vector or the relax time is 0. |
| Daemon.RecoveryDaemon.RelaxTimerCallback | source/rmg-relaxtimer.c:26-61 | The timer is gone, and the vector is 0 exactly if it was the timer's level. |
| Daemon.RecoveryDaemon.ProcessServiceCrash | source/rmg-dispatcher.c:260-443 | The whole new state after a crash: vector, timers and the executor's events. |
| Daemon.RecoveryDaemon.StartRelaxTimers | source/rmg-monitor.c:363-390 | A timer for every service whose vector is above 0. |
| Daemon.RecoveryDaemon.Boot | source/rmg-monitor.c:157-160 | A new process on the old journal: units reloaded, timers started, queues empty. |
| Projection.CrashOfOwn | source/rmg-dispatcher.c:260-443 | A crash of a managed service is the crash step of its own machine, and posts the event of the selected rung. |
| Projection.CrashByKind | source/rmg-dispatcher.c:289-443 | By the kind of the selected rung: one more timer, for the new vector and due after its wait, exactly if there is a relax time, no reset flag, and one of the four kinds that start timers; the vector is 0 exactly for an ignored crash or a reset flag on any kind but a factory reset, and one more otherwise. |
| Projection.CrashWithoutUnit | source/rmg-dispatcher.c:282-286 | A failure of a service without a version changes nothing. |
| Projection.CrashOfAnother | source/rmg-dispatcher.c:260-443 | A crash of another service changes nothing of this one. |
| Projection.ExpiredProj | source/rmg-relaxtimer.c:26-61 | A timer's expiry is a step of its own service's machine and no step of the others. |
| Projection.StepProjects | source/rmg-dispatcher.c:260-443 | Every step of the daemon is exactly one step of each managed service. |
| DaemonRuns.RunProjects | source/rmg-dispatcher.c:260-443 | Any interleaved run over any number of services is, for each of them, a run of its own machine. |
| DaemonRuns.DaemonRelaxesSoundly | source/rmg-relaxtimer.c:36-46 | In any interleaved run of the daemon a timer that resets the vector of a safe unit was not overtaken by a crash of that service. |
| FooledDaemon.Simulate | source/rmg-dispatcher.c:260-443 | Every run of the machine of one service is played by the daemon, step by step: monitor changes, dispatches, restarts, time and expiries. |
| FooledDaemon.DaemonIsFooled | source/rmg-relaxtimer.c:44 | For every unit that is not safe, a run of the daemon in which a timer resets the vector although crashes were handled after its arming. |
| FooledDaemon.DaemonSoundIff | source/rmg-relaxtimer.c:36-46 | Over all runs of the daemon, relaxation of a service is sound if and only if its unit is safe. |
| DaemonRuns.DaemonEscalates | source/rmg-dispatcher.c:332-443 | Without a reset, and whatever other services do, the executor receives the ladder's events one by one. |
| Failures.MonitorIsLastReport | source/rmg-mentry.c:72-113 | In every run the monitor entry of a service is the last complete state it was reported in, or what a new unit or a new process gave it; read off the steps, not off the handlers. |
| Failures.ReportsAreHandled | source/rmg-mentry.c:84-112 | Conservation over any part of any run, restarts included, for crash and restart events: the reports that change a service into failed (active), plus what was queued, are the events dispatched, still queued, or dropped with a process. |
| Failures.EventsInOrder | source/rmg-dispatcher.c:86-119 | In one process the events of all services are dispatched in the order of the reports. |
| Failures.FailuresAreHandled | source/rmg-mentry.c:87-113 | The failures reported for a managed service are the crashes its machine has seen, still queued, or dropped with a process. |
| Failures.VectorCountsFailures | source/rmg-mentry.c:87-113 | End to end, over any number of daemon lifetimes: vector plus queued plus dropped crash events = reports of failed whose preceding report was not, since the latest reset, plus what was there then. |
| Failures.VectorCountsLifetime | source/rmg-mentry.c:87-113 | In one lifetime, once the queue has drained, the vector is the failures reported since the latest reset, plus what was there then. |
| DaemonRuns.RebootArms | source/rmg-monitor.c:363-390 | After a restart a service has one timer for its vector exactly if vector and relax time are above 0. |
| DaemonRuns.RebootRecovers | source/rmg-journal.c:829-848 | After a restart and without crashes every service with a relax time is back at 0 after its wait, also an exhausted one. |
| DaemonRuns.InstalledIsManaged | source/rmg-journal.c:568-604 | A unit installed by a reload is managed with the ladder of its own action elements. |
| Upgrades.KeepsUnitIff | source/rmg-journal.c:578-584 | With compatible files a restart keeps the unit of a service if and only if they bring no new version of it. |
| Upgrades.RebootUpgrades | source/rmg-journal.c:586-604 | A new version is in force after the restart: its own ladder and relax time, vector 0 and no timer of the service. |
| Upgrades.RunOnlyVectors | source/rmg-journal.c:902-929 | Between two reloads nothing in the journal changes but vectors. |
| Upgrades.ChangedTextUpgrades | source/rmg-journal.c:561-604 | One byte of a unit file is replaced, anywhere in its text, and the daemon restarted: whatever happened in between, the service has exactly the row, actions and friends of the new elements, vector 0 and no timer. |
| Upgrades.SameTextKeeps | source/rmg-journal.c:578-584 | With the same text the restart leaves the rows of the service and its vector as they were. |
| Message.HeaderRoundTrip | source/rmg-message.h:55-65 | The 20 bytes of a header determine it. |
| Message.HeaderBytesAre | source/rmg-message.c:330-346 | The 20 bytes one by one: the order of the fields and the low byte first. |
| Message.WireFormat | source/rmg-message.c:279-418 | For each message type the arguments that follow the header, their order, and the lengths that the header announces. |
| Message.StrNLenIs | source/rmg-message.c:293-298 | The length that is sent: up to the first 0, the end, or 129 bytes. |
| Message.MessageObject.SetSizes | source/rmg-message.c:279-329 | The header announces the lengths of the arguments of its type, which fit 16 bits. |
| Message.MessageObject.Write | source/rmg-message.c:270-418 | Header and arguments are appended to the stream; an error exactly when the type has arguments and all of them are empty. |
| Message.MessageObject.Read | source/rmg-message.c:164-268 | Status, message and rest of the stream for any stream, also a short one; a number announced with more than its 8 bytes is told apart as an overrun. |
| Message.ReadTakes | source/rmg-message.c:191-268 | From any stream a read takes the header and as many bytes as it announces, as far as there are any, and fails exactly if one of the two brings no byte. |
| Message.FillAt | source/rmg-message.c:191-192 | A short transfer overwrites the first bytes of a buffer and leaves the others. |
| Message.NumberKeepsHighBytes | source/rmg-message.c:200-213 | A number announced with fewer than 8 bytes keeps its higher ones. |
| Message.MessageRoundTrip | source/rmg-message.c:164-418 | The reader takes exactly the bytes written, agrees on the status and holds the names cut to 129 bytes, whatever follows. |
| Message.StreamRoundTrip | source/rmg-message.c:164-418 | Any sequence of messages is read back one by one, also after failed transfers. |
| Message.DataSurvivesIff | source/rmg-message.c:293-298 | The data arrives unchanged if and only if every name is 1 to 129 bytes without a 0. |
| Protocol.RolesAreKept | source/rmg-types.h:49-54 | In every run: role safety at all instances, no remote platform restart, no friend lookup from one's own context. |
| Protocol.ContextRestartHasContext | source/rmg-executor.c:433-445 | In every run the primary's context restart has its context and shuts down that container. |
| Protocol.ContextsAreTrue | source/rmg-manager.c:178-190 | In every run the primary knows each client by its own host, or by no name while the introduction is the next packet on the connection. |
| Traffic.TotalNotified | source/rmg-dispatcher.c:492-520 | A failure notice weighs once for every client of another context, unnamed ones included. |
| Traffic.EchoStep | source/rmg-dispatcher.c:492-548 | Each step: handled at the primary, a failure goes to every other client; handled at a replica, it comes back. |
| Echo.EchoWeightLaw | source/rmg-dispatcher.c:522-548 | Client-bound plus m times primary-bound failures changes by m - 1 per delivery at a replica, by m per new crash, and not otherwise. |
| Echo.EchoFate | source/rmg-dispatcher.c:522-548 | m = 0: deliveries are bounded by an exact balance; m = 1: the failures are conserved; m >= 2: the weight grows with the deliveries. |
| Echo.Deliver | source/rmg-client.c:187-198 | While a failure is anywhere in the network, the run can go on to handle one. |
| Echo.EchoDrainsIff | source/rmg-dispatcher.c:522-548 | Announced failures die out if and only if no client of another context is connected or there are none. |
| Echo.EchoMultipliesIff | source/rmg-dispatcher.c:522-548 | For every bound some run without new crashes puts more failures under way, if and only if two clients of other contexts are connected and there is one failure. |
| Delivery.ReplicaCrashesAreConserved | source/rmg-dispatcher.c:477-490 | In every run, whoever connects and disconnects: what a replica that is still connected has been sent, handled or is still owed grows by one with each reported crash. |
| Delivery.ProcessCrashDelivered | source/rmg-dispatcher.c:477-490 | Between two quiet points of any run each reported process crash is one lookup at the primary and one at every replica that is still connected. |
| Escalations.RequestsAreConserved | source/rmg-client.c:151-185 | In every run: each context or platform restart request of a context is once under way, or done as a shutdown of its container, or lost with its connection, and nothing else is done; the same of factory resets. |
| Escalations.DrainedLosesNothing | source/rmg-client.c:96-117 | No request is lost if connections are read to their end before they are closed. |
| Escalations.PlatformRestartsAreOwn | source/rmg-client.c:163-174 | Platform restarts are exactly those chosen by the primary's own journal. |
| Recoveries.EffectsAreConserved | source/rmg-executor.c:196-254 | In every run, at the primary and at every replica still connected, and for each effect (a restart, public or private data reset of a service, lookup of its friends, container shutdown, platform restart, factory reset, end of the instance): jobs queued plus effects done grow by one with each dispatched event that calls for it, and with nothing else. |
| Recoveries.EffectsAreAsCalled | source/rmg-executor.c:325-424 | When the queue is empty again, what was done is exactly what was called for: one public data reset of a service for each of its crashes answered so, one lookup for each failure of another context, and so on. |
| Recoveries.HandleCalls | source/rmg-dispatcher.c:121-181 | The events, with their answers, that make a job with a given effect. |
| Recoveries.ExecuteYields | source/rmg-executor.c:196-254 | The jobs that have a given effect at the primary and at a replica. |
| Recoveries.ExecuteAsks | source/rmg-executor.c:490-552 | What a replica asks the primary for instead, in which packet and in whose name. |
| Recoveries.ActionIsCarriedOut | source/rmg-dispatcher.c:332-443 | From the action named in a unit, selected by a crash, to what the executor then does at the primary and at a replica. |
| Instance.DEvent.Unref | source/rmg-devent.c:45-69 | The count goes down by one, and the object is freed exactly when it reaches 0. |
| Instance.OwnedPop | source/rmg-dispatcher.c:106-119 | A popped event moves its reference from the queue to the handler, and is in no other queue. |
| Instance.AssertionsNeverFail | source/rmg-message.c:119-155 | In every run of the network the assertions of the message setters hold. |
| Instance.ToldIsNotified | source/rmg-dispatcher.c:486-530 | The clients in the memory of the primary are told what the network tells its replicas, whatever their number. |
| Instance.RecoveryInstance.PostExecutorEvent | source/rmg-executor.c:158-172 | A job at the end of the executor's queue, and one more reference. |
| Instance.RecoveryInstance.PostRecovery | source/rmg-dispatcher.c:406-447 | The context written after queueing is the one the queued job has. |
| Instance.RecoveryInstance.FriendServiceFailed | source/rmg-dispatcher.c:522-548 | Jobs, clients and outbox after a failure, at the primary and at a replica. |
| Instance.RecoveryInstance.ProcessServiceCrash | source/rmg-dispatcher.c:260-448 | In memory the crash handler does what the network model says. |
| Instance.RecoveryInstance.DispatchOne | source/rmg-dispatcher.c:106-181 | One event from pop to release: the new queues, clients and outbox, and whether the event was freed; in every network with this instance as primary, or as a replica, it is the step of the network, for any number of clients. |
| Instance.RecoveryInstance.ExecuteOne | source/rmg-executor.c:184-254 | One job from pop to release: its effects and requests, and whether the event was freed; in every network with this instance it is the step of the network. |
| Instance.RecoveryInstance.ProcessClientMessage | source/rmg-client.c:131-203 | What the primary makes of a packet: a named client, an event, or nothing; in every network in which the packet is next on that connection it is the step of the network. |
| Instance.RecoveryInstance.ProcessPrimaryMessage | source/rmg-manager.c:122-165 | What a replica makes of a packet; in every network in which the packet is next it is the step of the network. |
| Instance.RecoveryInstance.LiveIffQueued | source/rmg-devent.c:37-69 | Between handlers an event is alive if and only if a queue holds it; in the dispatcher's queue it has one owner. |

## Left out

- SQLite, D-Bus, LXC, sockets, `select` and child processes: calls succeed, and what they do is recorded as an effect.
- XML: a unit file is its text, for the hash, and the list of its elements; text split over several callbacks is not modelled.
- Command templates, options, logging, `sdnotify`, name tables and the service checker, which only logs.
- The number drawn for an action or friend row from the hash generator is a parameter; reload results assume distinct ones (`Reload.Compatible`).
- The action type guruMeditation, which the name lookup never returns.
- 64-bit overflow of vectors, retries and relax times, and the signed text in which a hash is stored.
- Units without a service name or data paths: the program stops at an assertion, here they are excluded (`Reload.Complete`).
- The friend timers: a lookup of friends is an effect, what is scheduled for them is not followed; their rows are in `Journal.Journal.GetServicesForFriend`.
- The pending friend and crash events of an instance that stops, and the restart of a stopped instance: `Meditation` is an effect, and a stopped instance is one that takes no further steps.
- The journal's answer to a crash is a parameter of the network (`Protocol.Answer`); `Daemon` computes it.
- Failed or short sends, a message read that breaks a connection, and the unterminated memory a name is read into: names are byte strings of the announced length.
- `Daemon.RecoveryDaemon.Boot` starts the relax timers before the main loop; the program does so in the first turn of the loop.
- `Message.Overrun`: what memory holds after a number of more than 8 bytes was read into its field is not modelled.
- A new unit is monitored at once; the program first waits for its D-Bus proxy, and two signals in that time would add it twice.
- Source ids continue over a restart of the daemon, so that old and new timers can be told apart.
