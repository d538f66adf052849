# JamperHUB: a verified model of the tunnel balancer and the AmneziaWG config pipeline

JamperHUB keeps several VPN tunnels up and routes through one of them. This project models, in Dafny,
the two parts of it that carry state and meaning:

* **the balancer** (`internal/balancer/balancer.go`): a map of tunnels, the active pointer, the migration
  record, the time of the last speed switch and the network flag, all behind one mutex, worked on by a ping
  loop, a speed-test loop, a network watcher, any number of idle watchers and the API calls;
* **the AmneziaWG config pipeline** (`pkg/amnezia/config.go`, `pkg/amnezia/uapi.go`): a line-oriented parser
  feeding a UAPI printer, the framing of the message and the reading of replies.

## How it is put together

`Model` holds the state as a value. `Selection`, `Lifecycle`, `Health`, `Network`, `Idle`, `Migrations`,
`Backups` and `Statuses` give each critical section as a function on that value, with what follows from it.
`Balancers` is the program's own form: the classes `TunnelState` and `Balancer` with mutable fields, one
method per critical section, loops over the map in arbitrary order; every method is proved to compute the
function of its section.

`Fleets` and `Protocol` build the transition system out of the same functions. A step is one critical
section, named by a label that also carries the environment's choices: who calls, whether a client starts,
when a process dies, how a ping or a speed test ends, what the byte counters read, how ties in the sort fall,
how much time passes. A run is any sequence of enabled labels, so every interleaving is a run. `Stability`,
`Panics`, `BackupRuns`, `MigrationRuns`, `Cancellations`, `IdleRuns` and `SpeedChain` prove properties of all
runs; `Witnesses` contains concrete runs from a fresh process for the claims that the code does not meet.
`Reachability` puts runs together.

`Text`, `Base64`, `Settings`, `ConfParser`, `UapiFormat`, `UapiReader` and `Uapi` are the config pipeline. Their
partners are independent definitions: `ConfRender` writes files with literal headers and keys, `UapiReader`
splits a message into lines and cuts each at the first equals sign, and `UapiSections` checks that every key
stands in its part of the message.

## What was found

Where the code does not do what its documentation or a first reading promises, the code is modelled as it is,
a run shows the failure, and the condition under which the promise holds is proved for all states or runs.

* A selection keeps an active tunnel whose process has died while its last health verdict was good, and pings
  skip processes that are not running, so the verdict never changes. The repository's README.md:16 promises an
  instant switch (`DeadActiveIsKept`, `DeadActiveSticks`; exact condition `EndsAliveIff`).
* `startOne` on the active tunnel, when the new client does not start, leaves the active pointer naming no
  entry with nothing in flight that would repair it before the next selection (`PointerCanDangle`). Such a
  step is the only way for the pointer to be neither unset, nor in the map, nor under construction
  (`LosesPointerIff`, over runs `PointerIff`).
* A section that takes the client from an entry between the two sections of its ping leaves a nil client whose
  counters are then read: a panic (`PingCanPanic`). Which sections those are is `ClientlessIff`; a ping panics
  exactly when one of them falls in between and no new client follows (`PanicsIff`).
* An idle watcher that finds no active tunnel exits without clearing the migration record, after which no
  migration starts again until someone cancels (`RecordCanBeOrphaned`, `OrphansIff`, `OrphanBlocksForever`).
* A cancellation leaves its watcher running, so the next check makes a second one; both then switch, with no
  cooldown between them (`CancelBreaksTheCooldown`). One watcher at a time, and the cooldown, survive a
  cancellation exactly when it finds no live watcher at all (`CancelIsSafeIff`); with only such cancellations
  both hold in every run (`OneMigrationAtATime`, `SwitchesKeepTheCooldown`).
* Even without a new check, a cancellation does not stop a watcher that is past its last look at the record
  (exact condition `CancelHoldsIff`).
* Backups launched from the ping loop are never seen connected, because only that loop turns a verdict good:
  all of them are launched and the selection falls back to no tunnel (`BackupGoesUnseen`,
  `BackupsUnseenFromPingLoop`, `LaunchUnseen`). The repository's README.md:30 promises that the first to
  connect gets the traffic. A launching selection ends on a tunnel exactly when some tunnel answers a ping
  before it resumes and is still alive (`BackupsSeenIff`), which is possible from every one (`BackupsNeedAPing`).
* A queued teardown stops the active tunnel when the primary has failed and a backup has been selected before
  it runs (`LateTeardownHitsActive`; exact condition `LateTeardownHitsIff`).
* An interface whose counters cannot be read always looks idle (`UnreadableLooksIdle`; exact condition
  `IdleRateIff`).
* `GetPeerStatus` says it reports the first peer; of every counter it reports the last value in the reply
  (`StatusIsLastGiven`, `SecondPeerIsReported`; the first peer is reported exactly when the later ones give
  nothing else, `FirstPeerIsReportedIff`).

## Model

| member | source | states |
|---|---|---|
| Selection.FinishSelects | internal/balancer/balancer.go:1016-1053 | a selection ends on nothing when nothing is up; on the active tunnel when its verdict is good and no better tier is up; and otherwise on a tunnel that is up with no other of a smaller priority number, or of the same one and a lower latency, however ties fall |
| Selection.EntersWhen | internal/balancer/balancer.go:971-1013 | backups are launched exactly when nothing is up, something was active and a tier 3 tunnel has no client; a teardown is queued exactly when a tunnel of tier 1 or 2 is up and a tier 3 process runs |
| Selection.SelectTwice | internal/balancer/balancer.go:954-1053 | a second selection on the unchanged state moves nothing and launches nothing, however ties fall either time |
| Selection.HealthyActiveMovesIff | internal/balancer/balancer.go:1026-1043 | stickiness, both directions: from a healthy active tunnel the pointer moves exactly when nothing is alive or a strictly better tier is |
| Selection.EndsAliveIff | internal/balancer/balancer.go:1026-1053 | with something alive, the selection ends on a live tunnel exactly unless the pointer is on a dead process with a good verdict and no better tier is alive |
| Selection.BestExists | internal/balancer/balancer.go:1016-1024 | among any non-empty candidates one has nothing strictly before it, so the head of the sorted list exists |
| Lifecycle.SyncIsPointwise | internal/balancer/balancer.go:912-944 | the locked pass of Rebalance re-tiers each listed entry once, from its own configuration, stops exactly the non-active ones demoted to backup, collects exactly the standbys promoted, and leaves the rest and the pointer alone |
| Lifecycle.TiersFollowConfig | internal/balancer/balancer.go:912-944 | each configured tunnel takes on its configured tier, 2 when that is not 1 to 3; it is stopped exactly when it runs, is not active and falls to tier 3, and to be started exactly when it rises from tier 3 without a client |
| Lifecycle.StartsOnce | internal/balancer/balancer.go:912-944 | Rebalance starts no tunnel twice, and only configured ones |
| Lifecycle.StartEachStarts | internal/balancer/balancer.go:946-949 | the starts of Rebalance leave a running tunnel as it is, replace any other by a fresh one, and remove it when its client does not start |
| Lifecycle.TeardownSparesActive | internal/balancer/balancer.go:894-907 | a selection with a primary alive, followed by the teardown it queues, leaves the active tunnel untouched and no backup running |
| Lifecycle.RebalanceHandsOver | internal/balancer/balancer.go:910-952 | Rebalance with any start outcomes, its selection and its queued teardown: no tunnel it stopped ends up active, the active one is healthy and untouched, and a live primary leaves no backup running; with nothing alive no teardown is queued and the selection ends on no tunnel, or launches backups and ends on a healthy one exactly if something is alive where it resumes |
| Health.HealthIsWindow | internal/balancer/balancer.go:446-474 | over any history of an incarnation the verdict is good exactly when one of the last three pings was answered, with the latency of the latest answer, and then at most two failures are pending |
| Health.OutcomeMeans | internal/balancer/balancer.go:451-474 | a lost ping counts and turns a good verdict from the third on, an answered one clears the count and is the latency; an event is exactly a turn of the verdict |
| Health.ThirdLossTurns | internal/balancer/balancer.go:446-474 | after an answer two losses keep the verdict and the latency without an event, the third turns it with one |
| Health.EventsAlternate | internal/balancer/balancer.go:451-474 | up and down events strictly alternate, starting with up, and their parity is the verdict |
| Network.OfflineIff | internal/balancer/balancer.go:355-398 | the flag is off exactly after two losses in a row, or when it began off and no success was seen |
| Network.CallsAlternate | internal/balancer/balancer.go:376-396 | start-all and stop-all strictly alternate, beginning with the one the initial flag asks for |
| Network.StopNeedsTwoLosses | internal/balancer/balancer.go:382-393 | an observation stops the tunnels exactly when it is the second loss in a row while online |
| Idle.DetectorIsSuffix | internal/balancer/balancer.go:639-700 | after any number of samples the idle counter is the length of the idle suffix, and the previous reading and time are those of the last sample |
| Idle.IdleLoop | internal/balancer/balancer.go:623-701 | the loop fires at the first three idle samples in a row and only then, times out at the first late check, quits at the first failed look, and takes at most one sample per second of the timeout |
| Idle.LowMeansFewBytes | pkg/healthcheck/healthcheck.go:105-115 | a measured rate is idle exactly when fewer than 10 * 1024 bytes per second moved |
| Idle.RateMeans | pkg/healthcheck/healthcheck.go:105-115 | a measured rate is the bytes moved over 1024 over the seconds between the readings, and 0 without a positive previous reading |
| Idle.IdleRateIff | pkg/healthcheck/healthcheck.go:105-115 | a rate counts as idle exactly when there is no positive previous reading, no time has passed, or fewer than 10 * 1024 bytes per second moved |
| Idle.FiredMeansQuiet | internal/balancer/balancer.go:676-700 | when the detector fires on readable counters, the last two measured intervals together carried fewer than 10 * 1024 bytes per second |
| Idle.UnreadableLooksIdle | pkg/healthcheck/healthcheck.go:105-128 | the first sample is always idle, and unreadable counters make the first three idle |
| IdleRuns.StepKeepsTraced | internal/balancer/balancer.go:639-700 | in every interleaving each section keeps: a watcher carries exactly what the idle loop carries after the samples it took, and stands where the loop stands |
| IdleRuns.EverySwitchWasIdle | internal/balancer/balancer.go:623-743 | in every run every recorded switch came after the first three idle samples in a row of its own watcher, a second apart at least and within the timeout |
| IdleRuns.EverySwitchWasQuiet | internal/balancer/balancer.go:676-700 | so before any switch of any run, where the counters were readable, fewer than 10 * 1024 bytes per second had moved over the last two intervals |
| IdleRuns.SamplesFitTheTimeout | internal/balancer/balancer.go:659-669 | no watcher of any run takes more samples than its timeout has seconds |
| Migrations.ProposalIsSound | internal/balancer/balancer.go:575-607 | a proposed move is to another tunnel of the same tier whose speed is at least one plus the threshold times the active one's |
| Migrations.FasterByFactor | internal/balancer/balancer.go:599-604 | the relative-gain test is the multiplication by one plus the threshold, both directions |
| Migrations.ProposesIff | internal/balancer/balancer.go:558-607 | a check starts a migration exactly when there is no record, the cooldown is over, the active tunnel is measured and some healthy, measured tunnel of its tier is faster by the threshold; the target is then such a tunnel, and no candidate is faster |
| Migrations.TruncateMeans | internal/balancer/balancer.go:683-685 | the reported rate is the whole part of the measured one, towards zero |
| Migrations.FastestExists | internal/balancer/balancer.go:580-593 | among any non-empty rivals one is at least as fast as the others |
| Backups.Launch | internal/balancer/balancer.go:860-890 | backups start in consecutive batches of two, each present one once and in order, up to and including the first batch in which one of the two is up, and all of them when none is; at most half the list, rounded up, of batches |
| Backups.PresentDistinct | internal/balancer/balancer.go:867-875 | the ids launched are distinct and exactly those still in the map |
| Statuses.ReportsAgree | internal/balancer/balancer.go:229-313 | active plus ready equals the number up, which is the number of candidates of a selection; up, down and idle backups partition the map; at most one is active |
| Statuses.ReportsFit | internal/balancer/balancer.go:264-308 | a tunnel is reported active or ready exactly when it is alive, and then with its latency; down exactly when it runs without one; without an interface exactly when standing by or disabled |
| Statuses.StatusMeans | internal/balancer/balancer.go:271-283 | each of the six states exactly in terms of client, process, verdict, tier and the pointer |
| Statuses.CountsMean | internal/balancer/balancer.go:229-238 | the number up counts exactly what is up, the number down everything else but the tier 3 tunnels that do not run |
| Fleets.SyncShape | internal/balancer/balancer.go:912-944 | the re-tiering pass keeps tiers in 1..3, and every entry it leaves without a client is a dead backup or one it is about to start |
| Fleets.ActKeepsShape | internal/balancer/balancer.go:782-949 | every critical section keeps that shape |
| Fleets.ActKeepsPointer | internal/balancer/balancer.go:113-197 | every section keeps the active pointer unset, in the map, under construction by a startOne, or on an entry that a startOne gave up on (see LosesPointerIff); every completed selection leaves it unset or in the map |
| Fleets.LosesPointerIff | internal/balancer/balancer.go:782-821 | the pointer stops being unset, in the map or under construction exactly when a startOne gives up on the active tunnel it removed and no other startOne is building it |
| Fleets.ActKeepsHealth | internal/balancer/balancer.go:446-474 | every section keeps each verdict equal to the window over its incarnation's outcomes |
| Fleets.DanglesIff | internal/balancer/balancer.go:782-793 | a resolved pointer is left dangling exactly by a startOne on the active tunnel whose client is not running |
| Fleets.CrashesIff | internal/balancer/balancer.go:446-483 | with the standby shape no section panics but the second of a ping, and that one exactly on an entry without a client, whatever the outcome and the pointer |
| Fleets.ClientlessIff | internal/balancer/balancer.go:826-944 | an id comes to name an entry without a client exactly by a teardown of a running backup, a demotion of a running tunnel that is not active, or a standby registered where there was no entry |
| Panics.PanicsIff | internal/balancer/balancer.go:430-477 | a ping begun in any reachable state ends in a panic exactly when such a section on its id comes in between and the entry has no new client by its end |
| Fleets.AliveNeedsPing | internal/balancer/balancer.go:964-969 | without a ping outcome no section can bring a tunnel into the alive set |
| Fleets.ActKeepsMigration | internal/balancer/balancer.go:80-89 | no section outside the migration protocol touches the migration record or the switch time |
| Protocol.StepKeepsFleet | internal/balancer/balancer.go:703-719 | migration sections keep the shape, the pointer and the verdicts as well |
| Protocol.RunKeepsFleet | internal/balancer/balancer.go:80-89 | so does every interleaved run |
| Stability.EverySelectionIsRight | internal/balancer/balancer.go:954-1053 | in any state, also after backups were launched, a completed selection is right for the state it was made in and resolves the pointer |
| Stability.EveryRunIsInOrder | internal/balancer/balancer.go:80-89 | from a fresh process, in every run that has not panicked, tiers, standbys, pointer and verdicts are in order |
| Stability.NothingIsDisabled | internal/balancer/balancer.go:271-276 | with no Rebalance in progress no tunnel is reported disabled, and standby is reported exactly for entries without a client |
| Stability.PointerIff | internal/balancer/balancer.go:113-197 | in every run the pointer is at every point unset, in the map or under construction exactly when no startOne of the run gives up on the active tunnel |
| Stability.CalmRunClimbs | internal/balancer/balancer.go:1026-1053 | without manual, migration or priority steps and while the active tunnel stays healthy, every pointer change strictly lowers the tier number |
| Stability.NoFlapping | internal/balancer/balancer.go:1026-1053 | so in any such run of any reachable state the pointer changes at most twice |
| Stability.LateTeardownSparesActive | internal/balancer/balancer.go:1006-1013 | a queued teardown that runs any number of such steps later still spares the active tunnel and leaves no backup running |
| Stability.LateTeardownHitsIff | internal/balancer/balancer.go:1006-1013 | after any run without manual, migration or priority steps, the queued teardown stops the active tunnel exactly when that is a running backup, which takes a failure of the active tunnel in between |
| Stability.BackupsUnseenFromPingLoop | internal/balancer/balancer.go:980-1004 | when the launching selection is the ping loop's own, nothing is alive when it resumes, whatever was started, and it ends with no active tunnel |
| BackupRuns.BackupsSeenIff | internal/balancer/balancer.go:980-1053 | a launching selection, resumed after any run, ends on a healthy tunnel exactly when some tunnel answered a ping in between and stayed alive, and on no tunnel otherwise |
| BackupRuns.BackupsNeedAPing | internal/balancer/balancer.go:980-1053 | from every launching selection some run brings it to a healthy tunnel, and no run without the end of a ping does |
| BackupRuns.LaunchUnseen | internal/balancer/balancer.go:860-890 | the launch loop on behalf of the ping loop finds no batch connected and starts every backup still in the map |
| Stability.DeadActiveSticks | internal/balancer/balancer.go:426-433 | an active tunnel whose process died with a good verdict stays active and unpinged through any number of selections that offer live peers of its tier |
| MigrationRuns.StepKeepsSingle | internal/balancer/balancer.go:558-743 | every section but a cancellation that finds a live watcher keeps: at most one idle watcher, none without a migration record, a switch log spaced by the cooldown, and the cooldown behind every undecided watcher |
| MigrationRuns.OneMigrationAtATime | internal/balancer/balancer.go:558-743 | the same for every run from a fresh process whose cancellations, if any, find no live watcher |
| MigrationRuns.SwitchesKeepTheCooldown | internal/balancer/balancer.go:566-570 | with a fixed cooldown, any two switches of such a run are at least one cooldown per step apart |
| MigrationRuns.RecordIsTrue | internal/balancer/balancer.go:611-732 | in every such run the reported migration fits its watcher: it names the move that was compared, is evaluating, waiting with its start and deadline, switching, or completed or cancelled, as the watcher is |
| MigrationRuns.OrphansIff | internal/balancer/balancer.go:644-657 | a cancel-free step leaves the record behind exactly when the watcher's look finds no active tunnel with a client |
| MigrationRuns.OrphanBlocksForever | internal/balancer/balancer.go:562-564 | a record left behind stays, and no switch is ever recorded again, in every cancel-free run |
| MigrationRuns.CancelHoldsIff | internal/balancer/balancer.go:205-209 | cancelling the only watcher prevents every later switch until a new check exactly when the watcher was not yet past its last look at the record; what a new check does is CancelIsSafeIff |
| Cancellations.CancelIsSafeIff | internal/balancer/balancer.go:205-209 | after a cancellation every further run without one keeps one watcher at a time, and switches spaced by the cooldown, exactly when the cancellation found no live watcher |
| Cancellations.FirstHarmfulCancel | internal/balancer/balancer.go:558-743 | the same at any point of any run from a fresh process whose cancellations so far found no live watcher |
| Cancellations.Retire | internal/balancer/balancer.go:639-743 | with a record and an active tunnel, a watcher can come to its end from wherever it stands, and then it has dropped the record, whoever it belongs to; the other watchers have not moved |
| Cancellations.PairClashes | internal/balancer/balancer.go:703-743 | any two watchers just started can both record a switch at the same instant |
| SpeedChain.RunKeepsSound | internal/balancer/balancer.go:580-607 | in every run, cancelled or not, every recorded switch was justified by the speeds it was decided on |
| SpeedChain.ChainMultiplies | internal/balancer/balancer.go:599-604 | along migrations that each leave from the last target, speed is multiplied by at least all the thresholds times all the drift between |
| SpeedChain.CycleNeedsDrift | internal/balancer/balancer.go:599-604 | around any cycle of migrations the product of measurement on arriving over measurement on leaving is at least the product of the thresholds |
| SpeedChain.ReturnNeedsDrift | internal/balancer/balancer.go:599-604 | coming back to the first tunnel after n migrations takes a drift around the cycle, its own included, of at least (1 + threshold)^n |
| SpeedChain.UnchangedSpeedsClimb | internal/balancer/balancer.go:599-604 | with unchanged speeds and positive thresholds no chain returns to a tunnel it has left |
| SpeedChain.SwitchesCompound | internal/balancer/balancer.go:703-736 | for any stretch of the switch log of any run that leaves from the last target each time: the thresholds compound along it |
| SpeedChain.SwitchesReturnByDrift | internal/balancer/balancer.go:703-736 | a stretch that comes back to its first tunnel drifted by (1 + threshold)^n |
| SpeedChain.SwitchesNeverReturn | internal/balancer/balancer.go:703-736 | with unchanged speeds and positive thresholds no stretch comes back to a tunnel it has left |
| Witnesses.DeadActiveIsKept | internal/balancer/balancer.go:1038-1047 | a run in which the active tunnel is dead, its peer alive, and the selection keeps the dead one |
| Witnesses.PointerCanDangle | internal/balancer/balancer.go:782-804 | a run that ends with the pointer naming no entry and no startOne in flight |
| Witnesses.PingCanPanic | internal/balancer/balancer.go:446-477 | a run in which the ping loop reads the counters of a nil client |
| Witnesses.BackupGoesUnseen | internal/balancer/balancer.go:455-465 | a run in which the active tunnel fails, its backup is started by the ping loop's own selection, and the run ends with the backup running and nothing active |
| Witnesses.LateTeardownHitsActive | internal/balancer/balancer.go:894-907 | a run in which a queued teardown stops the backup that has become active |
| Witnesses.RecordCanBeOrphaned | internal/balancer/balancer.go:649-656 | a cancel-free run that ends with a migration record and no watcher |
| Witnesses.CancelBreaksTheCooldown | internal/balancer/balancer.go:205-209 | a run with exactly one cancellation and two switches at the same instant |
| Balancers.Balancer.StartBegin | internal/balancer/balancer.go:782-793 | removes an entry that is not running and leaves a running one alone, as the first section of startOne |
| Balancers.Balancer.StartFinish | internal/balancer/balancer.go:806-821 | installs a fresh entry with the normalised tier and a dead verdict |
| Balancers.Balancer.RegisterStandby | internal/balancer/balancer.go:826-840 | adds a backup without a client unless the id is known |
| Balancers.Balancer.StopPriority3 | internal/balancer/balancer.go:894-907 | shelves exactly the running backups, in any map order |
| Balancers.Balancer.StopTunnel | internal/balancer/balancer.go:162-172 | removes a tunnel with a client and clears the pointer if it named it |
| Balancers.Balancer.ClearAll | internal/balancer/balancer.go:765-774 | empties the map and the pointer |
| Balancers.Balancer.ActivateTunnel | internal/balancer/balancer.go:188-197 | moves the pointer exactly to a running tunnel |
| Balancers.Balancer.RebalanceSync | internal/balancer/balancer.go:912-944 | computes the re-tiered state and the servers to start, server by server |
| Balancers.Balancer.CollectAlive | internal/balancer/balancer.go:964-969 | the loop over the map collects exactly the alive set |
| Balancers.Balancer.SelectEnter | internal/balancer/balancer.go:954-1053 | launches backups exactly when nothing is alive, something was active and a standby exists; queues a teardown exactly when a primary is alive and a backup runs; otherwise ends on the active tunnel if it holds on, or on the first of those up by tier and then lowest latency |
| Balancers.Balancer.SelectResume | internal/balancer/balancer.go:991-1053 | completes the selection, in the same order, on what is up after the launch |
| Balancers.Balancer.CollectStandby | internal/balancer/balancer.go:844-851 | lists each backup without a client once |
| Balancers.Balancer.PingEnd | internal/balancer/balancer.go:442-486 | applies one ping outcome, reports its event, asks for a selection exactly when the active tunnel went down, and panics exactly on a nil client otherwise |
| Balancers.Balancer.SpeedEnd | internal/balancer/balancer.go:533-543 | records a measured speed of a tunnel still in the map |
| Balancers.Balancer.NetworkWatcher | internal/balancer/balancer.go:355-398 | the loop computes the debounced flag and the calls of any observation sequence |
| Balancers.Balancer.FindFastest | internal/balancer/balancer.go:580-593 | the search ends on a healthy, measured tunnel of the active tier that no other such tunnel is faster than, and on none exactly when there is none |
| Balancers.Balancer.CheckSpeedMigration | internal/balancer/balancer.go:558-621 | starts a migration exactly when there is no record, the cooldown is over, and some candidate reaches the threshold; to a fastest candidate, with both endpoints recorded |
| Balancers.Balancer.WaitBegin | internal/balancer/balancer.go:623-636 | marks an existing record as waiting, with its deadline |
| Balancers.Balancer.LookOn | internal/balancer/balancer.go:644-658 | the look of a turn succeeds exactly with a record and an active tunnel with a client, and yields its interface |
| Balancers.Balancer.TimeOut | internal/balancer/balancer.go:661-667 | replaces the record by a cancelled one |
| Balancers.Balancer.NoteRate | internal/balancer/balancer.go:682-686 | notes the whole part of the rate in an existing record |
| Balancers.Balancer.MigrationBegin | internal/balancer/balancer.go:703-719 | moves the pointer to a running target, and drops the record otherwise |
| Balancers.Balancer.MigrationEnd | internal/balancer/balancer.go:723-732 | stores the switch time and the completed record |
| Balancers.Balancer.ClearMigration | internal/balancer/balancer.go:205-209 | drops the record |
| Balancers.Balancer.CountTunnels | internal/balancer/balancer.go:229-238 | the counting loop yields the sizes of the up and down sets |
| Balancers.Balancer.TunnelStatuses | internal/balancer/balancer.go:257-313 | the reporting loop yields the status, latency, speed and interface of every tunnel |
| Text.ScanDecimal | pkg/amnezia/config.go:235-239 | an integer printed with %d scans back, for every non-negative value an int can hold; only positive ones are printed |
| Text.ScanShown | pkg/amnezia/config.go:98-112 | every value an int can hold, written in decimal with its sign, is read back |
| Text.DecimalDenotes | pkg/amnezia/config.go:235-239 | what %d prints is the number in positional decimal notation, without a leading zero |
| Base64.Alphabets | pkg/amnezia/config.go:224-233 | the digits are those of tables 1 and 5 of RFC 4648, the latter in lower case |
| Base64.GroupIsNumber | pkg/amnezia/config.go:224-233 | three bytes as one number are its four digits to base 64, highest first |
| Base64.EncodeAt | pkg/amnezia/config.go:224-233 | the i-th three bytes are the i-th four digits |
| Base64.EncodeEnd | pkg/amnezia/config.go:224-233 | the last one or two bytes are padded with zero bits and equals signs to four |
| Base64.HexAt | pkg/amnezia/config.go:232-233 | byte i is written as digits 2i and 2i + 1, high digit first |
| Base64.HexKeepsKey | pkg/amnezia/config.go:224-233 | a key is accepted exactly when it decodes to 32 bytes; its 64 lowercase hex digits stand for those bytes and re-encode to the same text exactly when the text was canonical |
| Base64.EveryKeyIsAccepted | pkg/amnezia/config.go:224-233 | the canonical text of 32 bytes is accepted, of any other length rejected with that length |
| ConfParser.Config.ParseInterface | pkg/amnezia/config.go:90-135 | stores a value in the field its key names in an interface section |
| ConfParser.Config.ParsePeer | pkg/amnezia/config.go:137-155 | stores a value in the field its key names in a peer section, or appends its addresses |
| ConfParser.ParseConfig | pkg/amnezia/config.go:46-88 | the loop computes the fold over the lines and fails exactly on a missing key, the private one first |
| ConfRender.ParseRender | pkg/amnezia/config.go:46-155 | a round trip from files written with literal headers in any case, literal keys, and any blank space around headers, keys, equals signs, values and commas: parsing gives back every field of any configuration whose values fit on a line, addresses in order, or the error for the first missing key |
| ConfParser.NamesIff | pkg/amnezia/config.go:90-155 | a key names a field exactly when it is the key of that field and stands in its section |
| ConfParser.OtherKeysIgnored | pkg/amnezia/config.go:90-155 | any other key, and any key before the first section, changes nothing |
| ConfParser.InertLineInFile | pkg/amnezia/config.go:50-69 | inserting or deleting a blank line, a comment or a non-header line without an equals sign, anywhere in a file, never changes the result |
| ConfParser.LastStringWins | pkg/amnezia/config.go:90-143 | a string field holds the value of the last line of its section that names it |
| ConfParser.LastIntWins | pkg/amnezia/config.go:98-112 | an integer field holds the value of the last line of its section that names it with a number |
| ConfParser.AddressesAccumulate | pkg/amnezia/config.go:145-151 | the allowed addresses are all those of all AllowedIPs lines of peer sections, in order |
| ConfParser.ParsedIsOneLine | pkg/amnezia/config.go:46-88 | no value of an accepted configuration contains a line break |
| UapiFormat.Builder.WriteInt | pkg/amnezia/config.go:235-239 | appends one line for a positive integer, nothing otherwise |
| UapiFormat.Builder.WriteStr | pkg/amnezia/config.go:241-245 | appends one line for a non-empty string, nothing otherwise |
| UapiFormat.BuildUAPI | pkg/amnezia/config.go:159-220 | the writes add up to the device lines followed by the peer lines, exactly when all keys re-encode; otherwise the first bad key is reported |
| UapiFormat.BuildFails | pkg/amnezia/config.go:162-202 | a build fails exactly on a key that does not re-encode, an unset preshared key aside, and names the first in the order of the message |
| UapiFormat.LinesAre | pkg/amnezia/config.go:159-220 | the lines are the listed keys and values in their order, the empty ones left out: device, peer, then one line for every address |
| UapiSections.MessageIsSectioned | pkg/amnezia/config.go:159-220 | a reader that takes device keys before the public key and peer keys after it, and rejects any key out of place, accepts every message: the private key is its first line, replace_peers comes before the one public key, which opens the peer, and replace_allowed_ips after the peer keys and before the addresses |
| UapiReader.MessageRecovers | pkg/amnezia/config.go:159-220 | for every configuration without line breaks in values, a line-and-cut reader recovers from the message all keys, positive integers, non-empty strings and addresses in order: everything but Address, DNS and MTU |
| UapiReader.SameMessageSameSettings | pkg/amnezia/config.go:159-220 | two configurations with the same message agree on all of that |
| UapiReader.FileRecovers | pkg/amnezia/config.go:46-220 | the same from the file: whatever parses and builds is recovered |
| Uapi.SetMessageFrames | pkg/amnezia/uapi.go:37-43 | the set message is its lines and one empty line, the last; no other line is empty |
| Uapi.FileFrames | pkg/amnezia/uapi.go:37-43 | the same for every file the parser accepts |
| Uapi.SetMessageText | pkg/amnezia/uapi.go:37-43 | any text sent ends its last line and is followed by one empty line |
| Uapi.Connection.Set | pkg/amnezia/uapi.go:37-48 | sends exactly that message and returns the verdict of the reply |
| Uapi.Connection.Get | pkg/amnezia/uapi.go:51-74 | sends the get request and returns the lines before the first errno line, or its code |
| Uapi.Connection.ReadErrno | pkg/amnezia/uapi.go:108-128 | the first errno line of a reply decides, and a reply without one fails |
| Uapi.ReplyMeans | pkg/amnezia/uapi.go:51-74 | a reply of lines that do not begin with errno=, then errno= and a code, then anything: for 0 the lines are the answer, for any other code that is the error; without such a line the reply fails |
| Uapi.ReadStatus | pkg/amnezia/uapi.go:84-106 | the loop computes the fold over the lines, each cut at its first equals sign |
| Uapi.CountersRead | pkg/amnezia/uapi.go:90-105 | each of the three counters is read from the line of its name |
| Uapi.StatusIsLastGiven | pkg/amnezia/uapi.go:90-105 | every reported counter is the last value that the reply gives for it, 0 without one |
| Uapi.FirstPeerIsReportedIff | pkg/amnezia/uapi.go:83-106 | the first peer's status is what is reported exactly when the last values that the later peers give are the first peer's |
| Uapi.SecondPeerIsReported | pkg/amnezia/uapi.go:83-106 | a reply about two peers with one counter each: the second peer's is reported |
| Uapi.LastPeerIsReported | pkg/amnezia/uapi.go:83-106 | when the later peers give all counters, nothing of the first is reported |

## Left out

- Processes, sockets, routing, DHCP and embedded binaries (`pkg/netutil`, `pkg/xray`, `pkg/amnezia/client.go`, `pkg/bindata`, `internal/dhcp`): a client is a value with an interface name and a running flag; whether it starts and when it dies is the environment's choice.
- The HTTP layer, the event store and the web pages: API calls are steps of the balancer; traffic points and event texts are not recorded.
- Configuration persistence: the configuration a section reads is an argument of its step.
- Balancers.Balancer.TunnelStatuses: uptime, last speed test, byte counters, type and mode are not part of the report.
- Reporting fields of a tunnel (start time, last check, byte counters, last speed test) and the text of a migration's reason: nothing else reads them.
- Balancers.Balancer: the client and the migration record are values, so sharing of those two objects between goroutines is not captured; tunnel entries are objects.
- Balancers.Balancer.StartFinish: an entry that a concurrent startOne installed for the same id is overwritten, as in the code, but the process it held is not tracked further.
- Balancers.Balancer.NetworkWatcher: start-all and stop-all are recorded as calls; their sections are separate steps of the transition system, where the flag may also be set at any time.
- Protocol.RunKeepsFleet: goroutines are not tied to the order of their own sections beyond startOne, Rebalance, the ping in flight, waiting selections, queued teardowns and idle watchers; the other orders are a superset of the real ones.
- Idle.LowMeansFewBytes: rates and speeds are exact reals, without float rounding; counters and times do not overflow.
- Text.ScanDecimal: Sscanf is modelled for %d: leading space, sign, decimal digits, 64-bit range.
- ConfParser.ParseConfig: text is a sequence of characters, without UTF-8 decoding; the configuration record is one field of its object.
- SetupOutput, address and gateway helpers, interface naming and port allocation: one-branch facts.
