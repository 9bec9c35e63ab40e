# Verified model of the ZFS tool's decision logic

The tool drives ZFS, Proxmox guests and cron files on remote hosts. This project models
the logic that decides and the protocols that change host state, and proves properties of
them with Dafny 4.11. `dafny verify dfyconfig.toml` checks everything.

A remote host is an abstract state (datasets, snapshots, holds, clones, configurations,
running flags). A command is a step that may fail; a failing command changes nothing, and
what the outside world answers (which commands work, which queries stay silent, clocks,
identifiers, what a pruner destroys in between) is a parameter or an arbitrary choice. Code
that works step by step is a method or a class tied to a specification function; the
properties are lemmas about those functions, over all inputs and all runs. In
`RecoveryGuest` and `RecoveryJobs` every command also goes to a transcript, together with
whether it worked; which commands work is a parameter, and every contract says that the
transcript is that of a run of the host, which commands are given, in which order, and what
came of each. Lemmas use no automatic induction.

| module | what it models |
|---|---|
| `Lineages` | correlating disks and their copies by snapshot guids: union-find with path halving |
| `RecoveryGuest`, `RecoveryJobs` | cloning a guest under holds beside a pruner, and destroying the clone |
| `GuestConfig`, `GuestIsolation`, `GuestMarker` | the configuration of the recovery guest, what it leaves behind, and the marker it is recognised by |
| `Migration` | pre-copy, cutover and rollback as interleaved jobs of single commands |
| `MigrationPlan` | what is sent on which base |
| `MigrationCleanup` | what clearing away migration snapshots leaves to build on |
| `PoolTopology` | reading `zpool status` and finding vdevs without redundancy |
| `ReportScheduler` | the report scheduler that forgets at restart |
| `HostBackups`, `BackupNames`, `Calendar` | scheduled host backups: due, throttled, pruned, announced |
| `Monitor`, `LagAlerts` | alert machines for hosts, pools and replication lag |
| `Trend` | hourly medians, Theil-Sen slope and forecast over exact reals |
| `CronSpacing` | the expected interval of a cron schedule |
| `ReplicationConfig` | parsing and writing the shell configuration |
| `PropertyRestore` | re-applying local ZFS properties of a backup |
| `TtlCache` | the lazy cache against the history of its calls |
| `Retention` | reading and editing the retention in cron files |
| `SnapshotGaps` | holes in a chain of snapshots |
| `Text`, `Sorting`, `Grouping` | Python's string, sorting and dictionary idioms |

## Where the code does less than its comments say

The model follows the code. Each point below is a lemma, with the exact condition where
there is one.

- `app/recovery_guest.py:547-559`: a volume without a PVE name raises and leaves the clones
  made before it (`RecoveryJobs.CreateJob`).
- `app/migrate.py:592-609`: two disks of one name on different storages share a target, and
  the second transfer destroys the first (`MigrationPlan.SafeIffTargetsDiffer`,
  `MigrationPlan.SharedNameIsClobbered`).
- `app/main.py:3045-3085`: the plan comes with the request, so a plan can be sent again after
  a transfer that failed half-way; the entries sent before are then received over what they
  made (`MigrationPlan.ReuseClobbersIff`).
- `app/migrate.py:422-426` and `:832-851`: a failed status query counts as "not running",
  and a rollback goes on after a failed stop (`Migration.SilenceIsTakenForStopped`,
  `Migration.RollbackStartsBeside`, `Migration.BothOnlyByRollback`).
- `app/migrate.py:821-851`: a rollback is accepted beside a running cutover; then the guest
  can end on both hosts although every command works and every query is answered
  (`Migration.RollbackUnderCutover`, `Migration.UnbrokenIff`, `Migration.BothIsExplained`).
- `app/migrate.py:429-436` and `app/dr.py:448-460`: silent queries for a configuration on the
  target count as "none there", and it is overwritten (`Migration.SilenceOverwrites`,
  `Migration.OverwritesIff`).
- `app/migrate.py:451-454`: a silent query for a target dataset counts as "not there", and the
  plan for a full transfer into it is allowed (`MigrationPlan.SilenceIsTakenForAbsent`,
  `MigrationPlan.SafeIffTargetsDiffer`).
- `app/migrate.py:890-907` and `:946`: a cleanup whose listings stay silent destroys nothing and
  reports success (`MigrationCleanup.SilentCleanup`, `MigrationCleanup.SuccessfulCleanup`).
- `app/recovery_guest.py:424-433` and `:598-601`: silent queries for holds and clones count as
  "none", and the origin is reported released (`RecoveryJobs.SilenceIsTakenForReleased`,
  `RecoveryJobs.CreateThenDestroy`).
- `app/dr.py:917-932`: a restore of properties whose output is lost reports success
  (`PropertyRestore.ApplyBackup`).
- `app/migrate.py:936-938`: the migration snapshot spared on the target is no common base,
  since the source loses all of its own (`MigrationCleanup.CleanupLeavesNoMigrationBase`).
- `app/ai_reports.py:1676-1700`: saving the configuration between the hour and the next
  tick swallows the run of a schedule that this process has not marked yet, which is so
  until its first run (`ReportScheduler.RearmSwallowsTheRun`).
- `app/replication.py:133-152`: values are escaped when written and never unescaped when
  read (`ReplicationConfig.RoundTripIff`, `ReplicationConfig.ResavingNeverSettles`).
- `app/hostbackup.py:75-76`: keeping none deletes the new backup too, and the schedule is due
  again (`HostBackups.KeepingNoneStaysDue`).
- `app/monitor.py:287-289`: a host seen up under the standby mark keeps its old alert, so a
  later recovery can be announced for a phase nobody was told about
  (`Monitor.RecoveryIsForThisPhaseIff`).
- `app/monitor.py:446-462`: a rise within the cooldown is stored without an alert, so a pool
  that becomes critical soon after its warning is never announced as critical while it stays
  there (`Monitor.RiseIsAnnouncedIff`).
- `app/replication_monitor.py:327-337`: a pair that was pending, unscheduled or on standby
  in between comes back without a recovery message (`LagAlerts.RecoveryIsSaidIff`).
- `app/autosnap.py:112-117`: enabling takes one comment sign away
  (`Retention.ReadAfterUpdate`).

## Model

| member | source | states |
|---|---|---|
| Lineages.GroupLineages | app/replication_inventory.py:87-153 | the lineages are exactly the connected components of "share an evidence guid" (one none of whose places is a migrate snapshot): every (host, dataset) is in one, two copies share one exactly when a chain of evidence guids connects them, every copy sums up all of its rows, copies are distinct and in ascending order |
| Lineages.Forest.Find | app/replication_inventory.py:99-104 | path halving ends and returns the representative of the key; no key's representative changes, and an unknown key becomes its own |
| Lineages.Forest.Union | app/replication_inventory.py:106-109 | exactly the two classes named are merged, every other class stays |
| Lineages.HalvingKeepsForest | app/replication_inventory.py:102-103 | pointing a node at its grandparent keeps the forest, its ranks and all roots |
| Lineages.HookingKeepsForest | app/replication_inventory.py:106-109 | hanging one root below another keeps the forest acyclic and merges exactly their classes |
| Lineages.JoinByGuid | app/replication_inventory.py:118-126 | after the loop over the guid index two keys have one root exactly when they are connected by evidence guids |
| Lineages.BuildGuidIndex | app/replication_inventory.py:71-80 | the index lists for each guid exactly its places in order, and each guid once |
| Lineages.PartitionIgnoresOrder | app/replication_inventory.py:87-153 | two listings of the same rows in any order give lineages with the same (host, dataset) pairs |
| Lineages.SummaryAccountsForAllRows | app/replication_inventory.py:135-151 | a copy counts all its rows, holds exactly their guids, and its oldest, newest and newest snapshot are those of real rows bounding all others |
| Lineages.LabelsAgree | app/replication_inventory.py:124-130 | a labelling that agrees along every link of shared evidence agrees along every chain of links |
| Lineages.SourceIsTop | app/replication_inventory.py:156-167 | the source has the newest snapshot of all copies, among those with it the most snapshots, among those the greatest host, and stands first among equals; there is none exactly when no copy has a snapshot |
| Lineages.SourceIgnoresOrder | app/replication_inventory.py:131-167 | the same snapshot rows, listed in any order, give every lineage the same source: stable across runs, as the code says |
| GuestConfig.ParseDisks | app/migrate.py:75-96 | the loop reads exactly the attached disks of the main section, in order |
| GuestConfig.RebuildLines | app/recovery_guest.py:240-284 | the loop that rewrites a configuration produces the specified lines |
| GuestConfig.RebuiltLineKeepsDisk | app/recovery_guest.py:250-277 | a rewritten line names the same disk key as before, pointing at the clone; a dropped line named no attached disk |
| GuestConfig.RebuiltKeepsDisks | app/recovery_guest.py:240-284 | reading the recovery guest back gives disks of the origin in order under the same keys, each pointing at its own clone; all of them unless the origin holds an indented section header |
| GuestIsolation.NothingStaysBehind | app/recovery_guest.py:253-263 | no line carried over to the recovery guest is a network card, a lock, a parent, a hook script, an identity, or another of the entries that stay behind |
| GuestIsolation.MissingIff | app/recovery_guest.py:250-263 | a line of the origin is left out exactly when it is blank, a comment, an entry that stays behind, bound to the host, or repeats one that is |
| GuestIsolation.HostIff | app/recovery_guest.py:177-208 | bound to the host are exactly the bind mounts and devices of a container, and the passed-through devices, serial ports, disks and cards of a machine |
| GuestMarker.MarkerRoundTrip | app/recovery_guest.py:211-237 | parsing a configuration that starts with a written marker gives the marker back, whatever follows |
| GuestMarker.MarkerIsRecognised | app/recovery_guest.py:211-237 | a marker line of this or the earlier version, re-encoded with percent escapes in any way, still reads as the marker |
| GuestMarker.UnquoteUndoesSpelling | app/recovery_guest.py:222-237 | percent decoding undoes every spelling of a text |
| RecoveryJobs.CreateJob | app/recovery_guest.py:467-579 | beside a pruner, with any command failing and any query staying silent: the transcript is that of a run of the host, and the commands given, in order, are the checks, the recovery root and storage where none is heard of, and then the holds, clones, undo, releases, queries and the configuration where none is heard of; it refuses exactly when something demanded is missing or not heard, and then changes nothing; success gives a stopped, provable guest with one clone per disk of one label on the same pool; a failure leaves the recovery root and storage at most, plus exactly the clones whose undo did not work, or all earlier clones when a volume has no PVE name; an origin missing at its clone is one whose hold was tried and did not work; the holds reported are exactly those left and heard of |
| RecoveryJobs.CloneUnderHolds | app/recovery_guest.py:539-568 | every origin is tried for a hold before the first clone, and released and asked about after the last or after the undo; origins whose hold worked are there when their clones are made |
| RecoveryGuest.CloneAll | app/recovery_guest.py:545-566 | the commands are one clone per disk in order, and after a failing one a destroy of each clone made, newest first; a volume without a PVE name leaves the clones made so far, a failing clone leaves only those whose destroy did not work |
| RecoveryGuest.HoldAll | app/recovery_guest.py:539-544 | a hold is tried on every origin in order, and those held are exactly those whose hold worked; nothing else changes but what the pruner may take |
| RecoveryGuest.HoldWorksIff | app/recovery_guest.py:539-544 | in any run of the host a hold works exactly when its command does and the pruner has left the snapshot until then |
| RecoveryGuest.ReleaseHolds | app/recovery_guest.py:424-445 | every listed hold is released and then asked about, in order; only these holds go, exactly the ones whose release worked, and exactly the ones still held are returned, save those whose queries stayed silent |
| RecoveryGuest.DestroyQuietly | app/recovery_guest.py:419-421 | a destroy of each, newest first, failures passed over: exactly the datasets whose destroy worked are gone |
| RecoveryJobs.EnsureStorage | app/recovery_guest.py:524-537 | a storage is added exactly when none for the recovery root is heard of; when that works it stands for the root, and every storage there before keeps its root |
| RecoveryGuest.CloneNameShape | app/recovery_guest.py:111-123 | a clone name is a valid volume name made of the ordinary kind of its origin (templates give machines), the new identifier and the same disk index, each of which can be read again |
| RecoveryGuest.CloneResolves | app/recovery_guest.py:319-333 | the volume identifier written for a clone resolves to the clone below the recovery root |
| RecoveryGuest.UnderCloneRootIff | app/recovery_guest.py:620-627 | the datasets a cleanup accepts are exactly those of the form `<pool>/clone/<name>` |
| RecoveryJobs.DestroyJob | app/recovery_guest.py:604-659 | the transcript is that of a run of the host; it refuses exactly when the guest cannot be read or the marker or the clone root of an attached disk cannot be proven, and then has only asked for its configuration; otherwise the commands are the origin of every disk, a stop exactly when the guest is heard to run, the destroy of the guest, of each leftover clone heard of, and a release and the queries for each origin; a failed destroy keeps all datasets; otherwise only owned volumes go, and released are exactly the origins without hold and clone, or whose query for these stayed silent |
| RecoveryJobs.OnlyClonesGo | app/recovery_guest.py:604-659 | no attached volume that is not `<pool>/clone/<name>` is destroyed, whatever guest is named |
| RecoveryJobs.CreateThenDestroy | app/recovery_guest.py:467-659 | create under a free identifier, then destroy, with the pruner in between: when the origins of all disks are reported released, datasets, clones and configurations are restored apart from the recovery root if and only if no clone has survived whose query stayed silent |
| RecoveryJobs.SilenceIsTakenForReleased | app/recovery_guest.py:598-657 | the query for the clones of an origin stays silent and its clone survives: the origin is reported released although it still has a clone |
| Migration.StaysUnlessBroken | app/migrate.py:735-854 | what an active job has confirmed (stopped, removed, locked, unlocked) stays so over a step if and only if the step neither mishears for it (a silent query about a guest that is up) nor is a working command of another job that undoes it |
| Migration.UnbrokenIff | app/migrate.py:735-854 | the same over any run of any interleaved jobs, begun at any time, with any command failing: it holds throughout if and only if no step breaks it |
| Migration.BothIsExplained | app/migrate.py:735-854 | whoever brings the guest up beside its copy is a rollback that knows its stop has failed, or a job whose confirmation was broken before |
| Migration.InvariantStaysIff | app/migrate.py:735-854 | with rollbacks and cutovers in turn, everything any job has confirmed stays so over a step if and only if the step does not mishear |
| Migration.BothOnlyByRollback | app/migrate.py:735-854 | over every run with jobs in turn and nothing misheard the guest is on both hosts at some time if and only if a rollback that could not stop the target starts the source |
| Migration.CutoversAreSafe | app/migrate.py:735-814 | any number of interleaved, failing cutovers and pre-copies never has the guest on both hosts, unless a query stays silent about a running guest |
| Migration.CutoverIsAccounted | app/migrate.py:747-810 | in every run from the start each cutover has got where it is by its own working steps in the order of the code: what it has behind it is exactly what its place says |
| Migration.EffectsNeedTransfer | app/migrate.py:766-810 | in every run no cutover changes the configuration on the target, the lock, or what runs there before its own transfer has worked |
| Migration.CutoverFailsIff | app/migrate.py:747-789 | a step ends a cutover in failure exactly when the identifier or the configuration is heard to be taken, the guest is heard to run after the forced stop, or reading the configuration, the transfer or writing the configuration fails |
| Migration.FailedTransferEnds | app/migrate.py:766-771 | a transfer that fails changes nothing and ends the cutover for good |
| Migration.SuccessfulRollback | app/migrate.py:821-854 | a rollback that no other job breaks and that reports success ends with the target stopped and removed and the source unlocked, and running if asked for |
| Migration.RollbackIsAccounted | app/migrate.py:832-854 | in every run from the start each rollback has tried the stop, the removal, the unlocking and the start in this order, and what it reports of each is what its own step gave |
| Migration.FinishedCutover | app/migrate.py:747-810 | a cutover that no other job breaks leaves, when it finishes, the source stopped, locked when it says so, and the target running when it says so; reading the configuration, the transfer and writing the configuration have worked for it |
| Migration.OverwritesIff | app/migrate.py:747-789 | "never overwrite an existing guest on the target": in any run of any jobs a cutover writes over a configuration if and only if, since that was last removed, its own query stayed silent about one or another cutover wrote one after it had asked |
| Migration.SilenceOverwrites | app/dr.py:448-460 | both queries for a configuration stay silent: a cutover of which every other command works writes over the one that is there |
| Migration.SilenceIsTakenForStopped | app/migrate.py:422-426 | a status query that fails is read as "not running": a whole cutover whose shutdown fails ends with the guest on both hosts |
| Migration.RollbackStartsBeside | app/migrate.py:832-851 | a whole rollback whose stop fails starts the source beside the running target although all queries were answered |
| Migration.RollbackUnderCutover | app/migrate.py:821-851 | a rollback begun while a cutover sends its data, every command working and every query answered: both report success and the guest is on both hosts |
| MigrationPlan.Preflight | app/migrate.py:589-632 | the plan has one entry per disk with its target, whether that exists, and the newest common snapshot, as far as the queries for them are answered; it is allowed exactly when the other checks are and no target found has none |
| MigrationPlan.RenamedIff | app/migrate.py:592-596 | the target of a guest volume of any kind, template or not, has the new identifier in place of the old; any other name is kept |
| MigrationPlan.CommonIsNewest | app/migrate.py:600-605 | the common snapshot is the newest of the target that the source has, and none exactly when they share none |
| MigrationPlan.RunTransfer | app/migrate.py:661-694 | snapshots of all disks first, nothing is sent unless all could be taken, and the first failing send ends it |
| MigrationPlan.ClobbersIff | app/migrate.py:338-358 | whatever store a plan is sent to and whatever fails, something is received over an existing dataset if and only if an entry that was sent has no base and its target was there already or is that of an earlier entry |
| MigrationPlan.SafeIffTargetsDiffer | app/migrate.py:592-619 | the first transfer of a freshly allowed plan, if it succeeds, has destroyed nothing if and only if the new targets differ and no existing target was missed by a silent query; if so nothing is destroyed whatever fails |
| MigrationPlan.SilenceIsTakenForAbsent | app/migrate.py:451-454 | the existence query for the only disk stays silent: the plan is allowed, and a transfer that succeeds has been received over the target that was there |
| MigrationPlan.SharedNameIsClobbered | app/migrate.py:592-609 | two disks of one name on different storages, none of them on the target: the plan is allowed, and every transfer that succeeds has received one over the other |
| MigrationPlan.ReuseClobbersIff | app/main.py:3045-3085 | the same plan sent again: if that succeeds, something was received over an existing dataset if and only if the first transfer had sent an entry without a base, two new targets are the same, or a target was missed |
| MigrationPlan.NextRoundBuildsOnThis | app/migrate.py:673-711 | after a successful pre-copy a new preflight picks exactly the snapshot just sent as base of every disk whose queries are answered, and is allowed exactly when it hears both snapshot lists of every target it hears of |
| MigrationPlan.KeptIsNotLost | app/migrate.py:338-358 | a transfer, whatever fails, loses none of the snapshots of a target that every entry for it goes on from: none before its base, and not the base |
| MigrationCleanup.ListMigrationSnapshots | app/migrate.py:890-907 | the migration snapshots of the listed datasets, in order; none of a dataset with an unusual name or a silent listing |
| MigrationCleanup.MigrationIsSpelled | app/migrate.py:45 | the names taken for migration snapshots are `migrate-`, eight digits, a dash and six digits, perhaps followed by a line feed, and no others |
| MigrationCleanup.NamesAreChronological | app/migrate.py:332-335 | every name a migration gives is taken for one, and comparing names as strings compares their times |
| MigrationCleanup.SelectToDelete | app/migrate.py:869-887 | all snapshots, or all but the newest of each dataset, in order |
| MigrationCleanup.OneLabelIsSpared | app/migrate.py:879-887 | exactly one label of a dataset is spared |
| MigrationCleanup.Cleanup | app/migrate.py:920-949 | refuses while a migration is running; otherwise destroys what was heard of on the source, then the selected ones on the target, going on after failures, and reports success exactly when all destroys worked |
| MigrationCleanup.DestroyedIsLost | app/migrate.py:939-946 | exactly the snapshots whose destroy command works are lost, and all others stay in order |
| MigrationCleanup.SuccessfulCleanup | app/migrate.py:920-949 | a cleanup that reports success has taken a snapshot from the source if and only if a migration made it and a listing of its dataset was answered, and from the target likewise, sparing if asked for the newest migration snapshot of each dataset |
| MigrationCleanup.BaseAfterCleanup | app/migrate.py:920-949 | whichever listings and destroys fail, a later preflight finds exactly the newest snapshot both sides had and neither has lost, if it hears its own listings |
| MigrationCleanup.BaseAfterSuccess | app/migrate.py:920-949 | after a cleanup that reports success a preflight that is answered finds exactly the newest snapshot left in common, on the way there as on the way back |
| MigrationCleanup.CleanupLeavesNoMigrationBase | app/migrate.py:936-938 | after a cleanup that reports success a migration snapshot is left in common if and only if no listing on the source was answered and the target keeps it; otherwise the one spared is no base, there or back, and a base is found exactly when a shared snapshot was made by no migration |
| MigrationCleanup.SilentCleanup | app/migrate.py:890-949 | a cleanup none of whose listings is answered changes nothing and reports success; every base stays the base |
| PoolTopology.ParseTopology | app/pool_topology.py:66-148 | the line loop computes what the token reader specifies |
| PoolTopology.RowIsRead | app/pool_topology.py:46-51 | a printed row of any depth is read with its indent, name and state |
| PoolTopology.RedundancyIff | app/pool_topology.py:38-63 | a name stands for a mirror, a raidz of one, two or three parities, or a draid exactly when it is that word in letters of either case, perhaps with a dash and a number (a draid with anything); every other name for none |
| PoolTopology.LayoutRoundTrip | app/pool_topology.py:66-148 | printing any pools (tiers, mirrors, raidz, bare disks) in the form of zpool status and parsing gives the layout back |
| PoolTopology.RedundancyFindings | app/pool_topology.py:151-180 | the findings are listed pool by pool in ascending order, each pool once |
| PoolTopology.FindingsAreExact | app/pool_topology.py:151-180 | on a printed layout the findings are exactly the vdevs that are no mirror, raidz or draid and neither cache nor spare; a data, special or dedup vdev takes the pool with it |
| ReportScheduler.Scheduler.Seed | app/ai_reports.py:1551-1560 | enabled schedules whose target has passed are marked, known marks stay |
| ReportScheduler.Scheduler.Tick | app/ai_reports.py:1583-1650 | due entries are collected before any is marked; the suppressed are marked, the others marked and started |
| ReportScheduler.NoDoubleReports | app/ai_reports.py:1608-1626 | no single-host entry fires in a tick in which the all-hosts entry does |
| ReportScheduler.DueIsHandled | app/ai_reports.py:1583-1626 | every due entry is either fired or suppressed, never both |
| ReportScheduler.TickHandlesIff | app/ai_reports.py:1593-1626 | a tick fires an entry exactly when it is wanted and is the all-hosts entry or that is not wanted; it suppresses it exactly when it is wanted and another than the wanted all-hosts entry |
| ReportScheduler.TickMarks | app/ai_reports.py:1593-1636 | after a tick exactly the due entries carry the current period, all other marks are unchanged |
| ReportScheduler.OnceAcrossRestarts | app/ai_reports.py:1526-1673 | over every run of starts, crashes in the middle of a tick, re-arms and ticks, each schedule is handled at most once per day or ISO week |
| ReportScheduler.HandledOnTime | app/ai_reports.py:1599-1606 | over every run whatever is handled is an enabled schedule handled from its hour on, and a weekly one on its weekday |
| ReportScheduler.RestartSeedsOnlyTheElapsed | app/ai_reports.py:1535-1560 | a restart marks exactly the enabled schedules whose target has passed; one still ahead stays unmarked |
| ReportScheduler.UpcomingRunComes | app/ai_reports.py:1563-1606 | a daily schedule ahead of a restart becomes due at its hour and not before |
| ReportScheduler.UpcomingWeeklyRunComes | app/ai_reports.py:1563-1606 | a weekly schedule ahead of a restart becomes due exactly on its weekday from its hour on |
| ReportScheduler.RearmSwallowsTheRun | app/ai_reports.py:1676-1700 | saving the configuration loses a due run if and only if the hour has struck in the same period and this process has not marked the schedule yet; daily and weekly, for any memory; any other run stays due |
| Trend.BucketMedians | app/analytics.py:66-81 | the loops compute the median of every bucket in order of time |
| Trend.BucketTimesIncrease | app/analytics.py:76-80 | bucket times increase strictly |
| Trend.BucketOfSample | app/analytics.py:73-74 | every sample lies in a bucket, within its time |
| Trend.BucketValueIsBetween | app/analytics.py:77-80 | the value of a bucket lies within every range that holds the bucket's samples |
| Trend.TheilSenSlope | app/analytics.py:84-106 | the nested loops compute the median of all pairwise slopes, none without two different times |
| Trend.SlopesArePairs | app/analytics.py:84-103 | of any property there are as many slopes that have it as pairs of points, in order of their places and with different times, whose quotient has it; there is no slope exactly when there is no such pair |
| Trend.CollinearIsExact | app/analytics.py:84-106 | points on one line have exactly the slope of the line |
| Trend.SlopeFollowsMajority | app/analytics.py:84-106 | the slope lies in every interval holding the quotients of more than half of the pairs |
| Trend.SlopeIsEquivariant | app/analytics.py:84-106 | replacing y by a*y + b*x + c with a > 0 turns the slope s into a*s + b |
| Trend.ProjectionReachesSize | app/analytics.py:152-167 | growing at the slope for the projected days ends exactly at the size of the pool, within ten years; it is too far exactly when ten years of growth end below it |
| Trend.SteadyGrowthIsForecast | app/analytics.py:127-170 | rows on the hour that lie on one line, in any order and any number, are judged by exactly the growth per hour of the line |
| Trend.WindowIff | app/analytics.py:134-143 | seven days are used exactly when they have eight rows in at least six hours, otherwise thirty; there is no data exactly when the rows used are fewer than eight or all in one hour |
| Trend.ForecastIgnoresUnit | app/analytics.py:127-170 | the forecast does not depend on the unit in which sizes are given |
| CronSpacing.ExpandField | app/replication_monitor.py:53-76 | the expansion of a field is exactly the ascending list of the values its parts trigger; none for a field that cannot be read |
| CronSpacing.PlainPartIsRead | app/replication_monitor.py:53-76 | `*` reads as the whole range, a number as itself, and two numbers with a dash as the range between them |
| CronSpacing.SteppedPartIsRead | app/replication_monitor.py:53-76 | a slash and a number after any part read as its step, zero as one |
| CronSpacing.TimesAreFirings | app/replication_monitor.py:79-110 | the list of times is exactly the firings of the day |
| CronSpacing.CronIntervalSeconds | app/replication_monitor.py:79-110 | the interval is the spacing of the day's firings, none exactly for an expression that cannot be read or never fires |
| CronSpacing.SpacingIsLeastDistance | app/replication_monitor.py:95-110 | it is the smallest circular distance between any two firings, and is attained |
| CronSpacing.SpacingFitsTheDay | app/replication_monitor.py:79-110 | times the number of firings it never exceeds the day |
| LagAlerts.LongerLagIsNoBetter | app/replication_monitor.py:145-154 | a longer lag is never judged better, a longer interval never worse |
| LagAlerts.Bands | app/replication_monitor.py:145-154 | a lag is well up to two intervals, a warning up to four and critical beyond; an hour stands in for an unknown interval |
| LagAlerts.Pair.MaybeAlert | app/replication_monitor.py:313-381 | the stored row and the messages after one check, with muting |
| LagAlerts.TroublesAreAnswered | app/replication_monitor.py:313-381 | in every run nobody mutes each recovery answers a trouble announced since the last one, a bad pair has been announced, and a trouble stays unanswered on a well pair only after a silent status |
| LagAlerts.RecoveryIsSaidIff | app/replication_monitor.py:327-337 | recovery from an open trouble is announced if and only if the status before was a bad one, not pending, unscheduled or on standby |
| LagAlerts.ReminderComesIff | app/replication_monitor.py:339-345 | while a pair stays critical the next message comes at the first check at least six hours after the last one, and at none before |
| ReplicationConfig.ParseConfig | app/replication.py:133-152 | the loop reads the specified lines, later values win |
| ReplicationConfig.SerializeConfig | app/replication.py:155-178 | existing lines are kept in place with new values, dropped keys go, new keys are appended in order |
| ReplicationConfig.EscapeIsPerChar | app/replication.py:181-183 | the four replacements in a row amount to one backslash before each special character |
| ReplicationConfig.AssignmentIsRead | app/replication.py:133-152 | a written assignment is read back as its key and its still escaped value |
| ReplicationConfig.RoundTripIff | app/replication.py:133-183 | writing over existing lines and parsing again gives the written map if and only if no value holds a backslash, double quote, dollar or backquote |
| ReplicationConfig.ResavingNeverSettles | app/replication.py:133-183 | saving what was read lengthens a value with a special character every time |
| ReplicationConfig.CommentsStay | app/replication.py:155-178 | comments, blank and unreadable lines survive a write in their order |
| ReplicationConfig.ShellReadsOriginal | app/replication.py:181-183 | a shell following section 2.2.3 of the POSIX.1-2017 Shell Command Language reads back exactly the original value |
| PropertyRestore.CapturedSetting | app/dr.py:860-878 | a setting is in the plan exactly when it was set locally to that value in the backup and is one of the properties that can be set again |
| PropertyRestore.RestoredIff | app/dr.py:829-878 | the properties set again are exactly the well-formed names outside the spelled list |
| PropertyRestore.ApplyProperties | app/dr.py:881-932 | settings of existing objects are applied in order, failures do not stop it; the numbers of pool and dataset settings made and of failures are exact, and exactly the absent names are reported |
| PropertyRestore.ApplyBackup | app/dr.py:881-932 | the settings read from the backup are applied and counted; when the output of the batch is lost nothing is counted and success is reported |
| PropertyRestore.ReportedRestoreIff | app/dr.py:881-932 | a restore whose output arrives and that reports no failure and no absent name gives every dataset its old effective value if and only if the target's own settings agree with the old values where the backup has none |
| PropertyRestore.RebuildsTreeIff | app/dr.py:823-932 | applying the local settings in any order gives every dataset its old effective value if and only if the target's own settings agree with the old values where the backup has none |
| PropertyRestore.FreshTargetGetsTree | app/dr.py:825-829 | on datasets without own settings the whole inheritance tree comes back |
| PropertyRestore.PlanReorders | app/dr.py:860-878 | the plan as read is one of those orders |
| PropertyRestore.RowRoundTrip | app/dr.py:841-857 | a captured row without tabs in its fields is read back |
| Calendar.DigitsOrderTime | app/hostbackup.py:70-74 | dates and times are in order of time exactly as their written digits are (lexicographic is chronological) |
| Calendar.PeriodsFollow | app/hostbackup.py:434-440 | days, ISO weeks and months follow one another in time |
| Calendar.DaysAreCounted | app/hostbackup.py:434-440 | the day after a date, across months and leap years, has the next number |
| Calendar.SamePeriodIff | app/hostbackup.py:434-440 | two dates are in one period exactly when they are the same day, lie between the same Mondays, or in the same month of one year |
| BackupNames.NameKeepsStamp | app/hostbackup.py:245-247 | every name the tool gives is valid and parses back to the time it was given at |
| BackupNames.DatedIsSpelled | app/hostbackup.py:38-67 | every valid name whose digits are a date and time is exactly the one the tool gives at that time |
| BackupNames.NamesOrderTime | app/hostbackup.py:70-74 | sorting names as strings sorts backups by time; within one second the one with secrets comes first |
| BackupNames.PruneKeepsNewest | app/hostbackup.py:70-79 | pruning leaves exactly the newest `keep` backups in order, and everything that is no backup |
| BackupNames.NewestIsLatest | app/hostbackup.py:471-476 | the newest stamp is never older than any stored backup |
| HostBackups.Scheduler.constructor | app/hostbackup.py:44-50 | a new process remembers nothing but what is stored |
| HostBackups.Scheduler.Tick | app/hostbackup.py:483-527 | each scheduled host takes exactly its own turn, every other host is as before |
| HostBackups.Scheduler.RecordFailure | app/hostbackup.py:541-556 | only the first failure of an outage is announced |
| HostBackups.Scheduler.RecordSuccess | app/hostbackup.py:559-562 | a success is announced exactly when it ends an outage |
| HostBackups.DueIsNewer | app/hostbackup.py:443-468 | a backup that is due is newer than every stored one and in a later period |
| HostBackups.OverdueIff | app/hostbackup.py:455-464 | a backup is overdue exactly when it is older than 36 hours, ten and a half days, or 45 days |
| HostBackups.PreferredTurnServes | app/hostbackup.py:443-468 | a turn that may try and works serves the period once the preferred time has come, and before it when all backups are older than one and a half intervals |
| HostBackups.NoEarlyAttempt | app/hostbackup.py:458-468 | before its preferred time a schedule is tried only when every stored backup is older than one and a half intervals |
| HostBackups.SuccessLeavesNewest | app/hostbackup.py:516-524 | a successful turn that keeps at least one leaves exactly the new backup and the `keep - 1` before it |
| HostBackups.KeepingNoneStaysDue | app/hostbackup.py:75-76 | after a success the schedule is due again in the same period if and only if it keeps none: then the new backup is deleted too |
| HostBackups.OneBackupPerPeriod | app/hostbackup.py:443-527 | in every run of turns, backups by hand and restarts, a host gets at most one successful scheduled backup per day, ISO week or month |
| HostBackups.AttemptsAreApart | app/hostbackup.py:508-510 | in one process any two attempts on a host are at least 30 minutes apart, and failure and recovery messages alternate starting with failure |
| Monitor.Table.CheckHostReachability | app/monitor.py:271-315 | the row and the messages after one probe; no other host is touched |
| Monitor.Table.CheckCapacity | app/monitor.py:431-462 | rows and alerts after a listing of pools |
| Monitor.LevelsAreBands | app/monitor.py:431-445 | a pool is critical from the critical threshold on, warned of between the two, and well below both |
| Monitor.NextPool | app/monitor.py:431-462 | one more pool in the listing changes exactly its own row, under the name of host and pool, with a cooldown of twelve hours |
| Monitor.PoolKeysDiffer | app/monitor.py:431-462 | two pools share a row exactly when they are the same pool of the same host |
| Monitor.Table.CheckPoolErrors | app/monitor.py:483-497 | the row and the alert after one error total; an unchanged total is not stored again |
| Monitor.RecoveryFollowsOutage | app/monitor.py:271-315 | in every run of probes, changes of the standby mark and removals each "Back Online" follows an "Offline" sent since the previous "Back Online" |
| Monitor.OutagesAlternate | app/monitor.py:271-315 | with the mark left off the two alternate strictly, starting with "Offline" |
| Monitor.RecoveryIsForThisPhaseIff | app/monitor.py:279-289 | "Back Online" is sent exactly for announced down phases if and only if no silent probe saw the host up since an unanswered "Offline" |
| Monitor.StandbyKeepsOldAlert | app/monitor.py:287-289 | up and down again under the mark: a recovery is announced for a phase nobody was told about |
| Monitor.AlarmsAreApart | app/monitor.py:203-206 | two alarms about one value are at least the cooldown apart |
| Monitor.RiseIsAnnouncedIff | app/monitor.py:446-462 | a value that rises and stays is announced if and only if the cooldown was over when it rose: a rise within the cooldown is stored and never announced |
| TtlCache.Cache.Get | app/cache.py:17-30 | returns the last value set, neither invalidated nor expired, unless it was asked for too late before; counts one hit or one miss |
| TtlCache.Cache.Put | app/cache.py:33-39 | stores for a positive lifetime, otherwise changes nothing |
| TtlCache.Cache.InvalidateHost | app/cache.py:42-49 | exactly the entries of the host go, and are counted |
| TtlCache.Cache.InvalidateAll | app/cache.py:52-56 | all entries go, and are counted |
| TtlCache.Cache.Stats | app/cache.py:59-73 | hits plus misses is the number of gets; exactly the entries still alive count as live |
| TtlCache.TooLateStaysTooLate | app/cache.py:25-28 | with a clock that does not go back lazy removal is never observable |
| TtlCache.AnswerIsExpectedIff | app/cache.py:17-30 | an answer of `get` differs from what the history says if and only if some earlier call asked for the entry at or after an expiry that now lies ahead; never while the clock does not go back |
| TtlCache.ClockGoingBackLosesEntry | app/cache.py:25-28 | a clock that goes back loses an entry that is alive |
| Retention.UpdateLevelContent | app/autosnap.py:123-138 | assigning into the list of lines computes the specified file |
| Retention.ParseLevel | app/autosnap.py:68-86 | the loop with its candidate finds the first active command line, else the first one |
| Retention.CommandLineIsContains | app/autosnap.py:57-61 | a command line is one that contains the program and the label option, however it is indented or commented |
| Retention.KeepIsReplaced | app/autosnap.py:54 | after substituting every option the first one found carries the new number |
| Retention.ReadAfterUpdate | app/autosnap.py:68-138 | with an option in every command line, reading after an update gives the requested number, and enabled exactly when asked for and some command line had at most one comment sign |
| Retention.OtherLinesStay | app/autosnap.py:123-138 | every other line stays identical and in place |
| Retention.LineComesBackIff | app/autosnap.py:107-120 | disabling and enabling restores a line if and only if it was active |
| Retention.FileComesBackIff | app/autosnap.py:107-138 | disabling and enabling a level restores the file if and only if all its command lines were active |
| SnapshotGaps.FindGaps | app/snapshot_analysis.py:179-206 | the loop reports the specified gaps in order |
| SnapshotGaps.GapsAreExact | app/snapshot_analysis.py:179-206 | an interval between neighbours in time is reported exactly when there are at least four snapshots, it exceeds one and a half times a positive cadence, and it does not begin within an hour of the creation |
| SnapshotGaps.GapsAreFew | app/snapshot_analysis.py:182-188 | of n intervals at most (n - 1) / 2, rounded down, are reported |
| SnapshotGaps.CadenceFollowsMajority | app/snapshot_analysis.py:182 | the cadence lies in every range holding more than half of the intervals |
| SnapshotGaps.HolesAgainstUsual | app/snapshot_analysis.py:182-188 | when most intervals lie between lo and hi, everything longer than 1.5 hi is a hole and nothing up to 1.5 lo is |
| SnapshotGaps.RegularChainIsNotReported | app/snapshot_analysis.py:179-206 | a chain whose longest interval is at most 1.5 times its shortest is never reported |
| Sorting.MedianFollowsMajority | app/analytics.py:104-106 | a median lies in every interval that holds more than half of the values |
| Sorting.MedianIsAffine | app/analytics.py:104-106 | the median follows a change of unit and origin |
| Sorting.MedianOfPair | app/analytics.py:104-106 | the median of two values is their mean |
| Sorting.MedianReflects | app/analytics.py:104-106 | the median of the negated values is the negated median: neither middle is preferred |

## Left out

- The text of commands, SSH, SFTP, tar and base64, SQLite and JSON files: only their effect on the state is modelled.
- Delivery of notifications: sending appends to a list; muting of hosts and event switches are modelled only in `LagAlerts`.
- Routes, authentication, user interface, LLM calls and PDF layout.
- `compare_copy`, `build_matrix`, `filter_matrix` and the report condensing of `app/replication_inventory.py`: case splits on the lineages that are modelled.
- `summarize` of `app/pool_topology.py`, `clear_vanished_pool_state`, `check_pool_health`, `check_pool_topology` and the stale-snapshot check of `app/monitor.py`: the same row updates as the checks that are modelled.
- Storage and bridge checks of `preflight`, `rewrite_guest_config`, `cleanup_source`, and pushing instead of pulling in `app/migrate.py`.
- Excluding replication tags, disk sizes and `refquota` in `app/recovery_guest.py`; of several storages on the recovery root any one may be chosen.
- `import_config`, `set_cron`, `remove_cron` in `app/replication.py`: line filters of a crontab.
- Reverse synchronisation and guest restore in `app/dr.py`; received ZFS property values.
- Label totals, stale snapshots and missing labels of `analyze_snapshots`: sums over the same rows.
- Floating-point rounding: medians, slopes, cadences and lifetimes are exact reals or integers, and forecast days are not rounded.
- Character classes: digits and letter case are those of ASCII, and a file name that ends in a line feed is not a backup name.
- PoolTopology.LayoutRoundTrip: leaves out layouts whose pool or vdev is called `NAME`, or starts with `pool:` or `errors:`, because the parser takes such a row for one of its own words.
- Two addresses that map to one backup directory name: each host is modelled with a directory of its own.
- HostBackups.OneBackupPerPeriod: its runs do not delete stored backups by hand, because without its newest backup a schedule is due again; at the start no stored backup is dated in the future or at a time that does not exist, and local time does not go back.
- Retention.ReadAfterUpdate: leaves out files with line breaks other than the line feed, because reading splits at them and writing does not.
- Migration.UnbrokenIff: nobody outside the tool starts a guest or edits its configuration during a run; a guest of the other type under the same identifier on the target is not modelled.
- A query that answers in part: it is answered in full or not at all.
- ReportScheduler.OnceAcrossRestarts: the local clock does not go back and the schedules do not change during a run.
