# Delray attribution, verified

Delray captures the flows of one network interface and credits every byte to a process, to
"unattributed traffic", or to a queue of connections that wait for a newer process table. This Dafny
project models how it does that and proves what holds over all inputs, all runs and all
interleavings. `dafny verify dfyconfig.toml` checks everything.

## How the model is laid out

| file | what it models |
|---|---|
| `Net.dfy` | addresses, sockets, flows, clocks |
| `ProcTable.dfy` | the process table: a hash index filled by a loop over the listener records, against a linear scan of the records; refreshing it |
| `Refresher.dfy` | the background refresher as a timed state machine with periodic, requested and rejected wakes |
| `TopN.dfy` | ranking by an unstable sort and truncation, when the sorting key is not the rank that counts |
| `Stats.dfy` | the counters updated in place, against a log of postings; the ranked lists of a snapshot |
| `Ledger.dfy`, `LedgerLaws.dfy`, `Credits.dfy` | pending attribution as a ledger that keeps every single observation, and its laws |
| `Attribution.dfy` | the attributor as it runs (byte sums in a queue changed in place), against the ledger; the balance of the counters |
| `Overflow.dfy` | a run of the attributor after which the process list is wrong |
| `Publishing.dfy` | a published snapshot: ranked lists, waiting bytes and table freshness together; the snapshots a pipeline delivers |
| `Capture.dfy` | from a decoded packet to a flow, and the per-connection domain cache |
| `Counted.dfy` | what every counter and every line of a snapshot says of the flows and decisions of a run |
| `Pipeline.dfy` | capture worker, aggregate worker and owner: one step per channel, atomic or source operation |
| `Delivery.dfy` | what one poll for the latest snapshot delivers |
| `Progress.dfy` | what a pipeline can still do from every moment of every run |
| `Session.dfy` | interface switching with a pending opening and a fallback, over the pipelines of `Pipeline.dfy` |

Two references carry most of the weight. The statistics are tied to a *log of postings*: each counter,
last-seen time and name must be the answer of a query over the log. Pending attribution is tied to a
*ledger of observations*: a waiting record is a group of observations, and the running code keeps only
the group's sum, first arrival and last time. `Counted` reads every counter and snapshot line off the
ledger's flows and decisions directly. The pipeline runs the ledger inside its aggregate
worker, `DeliveredSnapshotsBalance` reads the counters off the calls that a delivered snapshot
reflects, and the session runs pipelines.

Modelling choices:

- Each access to the shared process table sees its own, arbitrary table and instant. The table may
  therefore be replaced between reading its generation and any later look-up.
- Instants are natural numbers of nanoseconds; where a law needs a clock that never runs backwards it
  says so. Wall-clock times are unordered: a delayed decision may write an older last-seen time.
- Counters are unbounded and `NoCounterOverflows` proves that below 2^64 bytes in all, nothing
  wraps. The ranking key and the reported total keep their 64-bit wrapping and saturating forms.
- HashMap iteration order and the order of ties in an unstable sort are arbitrary.
- In the refresher a wait returns by its deadline, a query and a drain of the request channel end by
  limits that are parameters, and nothing else takes time. A flood of requests may refill the channel
  while it is drained; the drain's limit is what bounds the damage.
- Atomics are sequentially consistent, and a receiver takes buffered messages before it learns that
  the sender is gone.
- The domain parser is an arbitrary function of the payload; the cache may forget any key at any moment.

Where promise and code differ, and what holds exactly:

- The domain statistics are described as counting both directions of an identified connection
  (`src/stats.rs:349-350`). The code returns before looking the connection up when an outbound packet
  has no TCP payload (`src/capture.rs:503-505`), so such packets miss a known domain.
  `EmptyPayloadMissesKnownDomain` is the failing input, and `FirstAnswerSticks` states exactly which
  packets get the domain.
- Conservation needs flows whose second local socket comes with an outbound direction and a first
  local socket. `RunBalancesExactlyWhenWellFormed` shows that this is the exact condition, and
  `ParsedFlowsAreWellFormed` that every parsed flow meets it.
- The refresher keeps the table fresh exactly when its longest gap fits the maximum age
  (`NeverStaleExactlyWhenGapFits`); `LongestGapRun` reaches that gap. A drain that a flood of requests
  keeps busy lengthens the gap by its whole duration.
- The ranking key wraps at 2^64 while the reported total saturates, and `OverflowCanDropTheLargest` is
  a run of three flows after which a snapshot may list the wrong process. A domain list is a true top, for every length and order of
  ties, exactly when the keys order whatever the totals tell apart (`DomainListTrueExactlyWhen`). A
  process list is one exactly when no process has more overtakers, lines of a lower total that may
  stand in its place, than there are unattributed lines (`ProcessListTrueExactlyWhen`); without
  an unattributed line that is again agreement of the keys, and agreement always suffices.
- Polling readiness again after its message was taken can blame the capture worker of a pipeline in
  which nothing failed (`HealthyCaptureCanBeBlamed`): the receive finds the channel disconnected and the
  failure cell empty (`src/pipeline.rs:394-407`). `OnlyRepeatedPollsBlameAWorker` shows that this is the
  exact condition. The session polls only while a fallback waits and its message is untaken.
- A foreground activation keeps a waiting fallback, so that a later poll can give up a healthy
  interface for one that was not the last active (`ForegroundActivationRevertsHealthyCapture`); all later
  polls revert honestly exactly when no fallback waits (`ForegroundActivationNeedsNoFallback`). The
  program activates in the foreground once, before anything else (`src/main.rs:85-91`).

## Model

| member | source | states |
|---|---|---|
| ProcTables.MappedAddressesExactly | src/proc_table.rs:490-503 | the mapped addresses are exactly ::ffff:a.b.c.d (section 2.5.5.2 of RFC 4291), each mapped to its own a.b.c.d |
| ProcTables.FromRecords | src/proc_table.rs:341-374 | the loop builds an index that, at every key, holds exactly the pids a scan of the records finds, each with the name and path of the first such record, and exactly the IPv4 aliases |
| ProcTables.LookupAgreesWithScan | src/proc_table.rs:163-198 | every look-up answers Stale exactly when the table was refreshed and is too old, and otherwise what a linear scan of the records answers |
| ProcTables.HitsExactlyLoneProcesses | src/proc_table.rs:175-198 | a hit is exactly one distinct pid on the socket, or none there and one on 0.0.0.0 (for an IPv4 address) or :: (for an IPv6 one) with the same port and protocol; NoCandidate and Ambiguous are exact too; the hit is marked mapped exactly when a listener on ::ffff:a.b.c.d serves the answering IPv4 socket |
| ProcTables.ServesExactly | src/proc_table.rs:483-503 | a listener serves its own socket, one on ::ffff:a.b.c.d also the same port of a.b.c.d, and nothing else |
| ProcTables.HitsTellFirstRecord | src/proc_table.rs:341-374 | a hit tells pid, name and path of the first listed record of that process for the answering socket; the executable's name goes before the process name, and empty names and paths are none |
| ProcTables.FirstServingIsFirst | src/proc_table.rs:364-371 | the record whose name and path are reported is the first listed for that key and pid |
| ProcTables.SharedProcTable.RefreshAt | src/proc_table.rs:386-404 | a failed refresh leaves the table untouched; a success installs an index of exactly the new records, the next generation modulo 2^64, twice the period as maximum age, and keeps the request sender |
| ProcTables.RefreshedAnswers | src/proc_table.rs:386-404 | after a failure every look-up at every instant answers as before; after a success it answers from the new records until they are older than twice the period, or than the longest representable duration |
| Refresher.NextKeepsInv | src/proc_table.rs:565-613 | every step of the refresher, each receive of a drain included, keeps its timing, rate-limit and table invariants |
| Refresher.RefreshIsNeitherStarvedNorHurried | src/proc_table.rs:567-613 | in every run, under any requests, also during a drain, refreshes end at most slack + drain limit + period + query limit apart; requested ones start at least one second, or a shorter period, apart; the generation counts successes modulo 2^64 |
| Refresher.WakesExactly | src/proc_table.rs:571-595 | a request received while waiting starts a refresh if and only if no requested refresh started less than one second, or a shorter period, before; any other refresh from a wait starts a whole period or more after the last one ended |
| Refresher.FastestRequestsRun | src/proc_table.rs:601-603 | a run with two requested refreshes exactly one second, or a shorter period, apart |
| Refresher.WaitsOnEmptyChannel | src/proc_table.rs:605-613 | the refresher goes back to waiting only at the end of a drain that found the request channel empty |
| Refresher.LookupsAnswerForLastListing | src/proc_table.rs:615-654 | at every moment of every run a look-up scans the last successful listing or is Stale, and is never Stale while queries succeed and the gap fits |
| Refresher.NeverStaleExactlyWhenGapFits | src/proc_table.rs:121-124 | all runs whose queries succeed stay fresh if and only if the longest gap is within the maximum age |
| Refresher.ShortQueriesNeverGoStale | src/proc_table.rs:534-545 | queries and drains of together at most the period minus the minimum request interval never let the table go stale, exactly as long as the longest gap is a representable duration |
| Refresher.LongestGapRun | src/proc_table.rs:571-613 | a run that reaches the longest gap: an instant requested refresh, a late rejection, a long drain, a full wait, a slow query |
| TopN.TruncateMergeTruncate | src/stats.rs:396-420 | truncating before merging further rows and truncating again gives a true top n, for any order of ties in both sorts |
| TopN.MergeIsTopExactlyWhenFewOvertake | src/stats.rs:396-420 | when the first sort uses another key, the merged list is a true top for every length and order of ties if and only if no row has more overtakers than there are extra rows |
| TopN.CutIsTopExactlyWhenKeyAgrees | src/stats.rs:474-484 | sorting by a key and truncating gives a true top by another rank, always, if and only if the key separates whatever the rank separates |
| Postings.RowsAddUp | src/stats.rs:249-281 | distinct rows hold at most what their scope holds, and all of it when no posting with bytes is missed |
| Statistics.CountRepresents | src/stats.rs:249-393 | each in-place update keeps every counter, last-seen time and name the answer of the longer log, and every traffic map's keys those of its last-seen map |
| Statistics.Stats.AddIn | src/stats.rs:249-253 | the statistics represent the log with one inbound line more |
| Statistics.Stats.AddOut | src/stats.rs:255-259 | the statistics represent the log with one outbound line more |
| Statistics.Stats.AddProc | src/stats.rs:261-281 | the statistics represent the log with one line for the process identified by pid and path; the first name seen stays |
| Statistics.Stats.RecordProcess | src/stats.rs:341-393 | a known process is credited on its own line, anything else on the unattributed one |
| Statistics.Stats.RecordOutboundDomain | src/stats.rs:356-372 | a known domain is credited in the flow's direction, an unknown one changes nothing |
| Statistics.Stats.RecordInterfaceFlow | src/stats.rs:322-339 | a flow between two local sockets counts outbound to its peer and inbound from its local address, any other once in its direction |
| Statistics.Stats.Snapshot | src/stats.rs:395-453 | never fails a last-seen look-up; the process and domain lists are ones that the ranking allows, true tops under the exact conditions below; address lists are always true tops |
| Statistics.ProcessListTrueExactlyWhen | src/stats.rs:395-420 | all process lists the ranking allows are true tops of the processes and the unattributed row if and only if no process has more overtakers than there are unattributed rows |
| Statistics.DomainListTrueExactlyWhen | src/stats.rs:474-484 | all domain lists the ranking allows are true tops if and only if the unchecked keys order whatever the totals tell apart |
| Statistics.AgreeingKeysOutrank | src/stats.rs:463-472 | agreeing keys make every process list a true top, and without an unattributed row nothing less does |
| Statistics.ProcessListingDraws | src/stats.rs:395-420 | whatever wraps, a process list holds distinct rows, in order of their totals, and as many as there are up to n |
| Statistics.ListedIdentitiesDiffer | src/stats.rs:134-153 | no identity appears twice in a process list |
| Statistics.UnattributedWasSeen | src/stats.rs:410-417 | unattributed bytes always come with an observation time |
| Overflow.OverflowCanDropTheLargest | src/stats.rs:463-472 | three flows, looked up in one fresh table of two listeners, after which every counter fits 64 bits and a process list that the ranking allows is not the true top |
| Ledgers.RunConserves | src/attribution.rs:69-254 | in every run, under every weight on observations, what was seen is decided or waiting: nothing is lost or counted twice through merge, overflow, zero capacity, expiry, drain or double endpoints |
| LedgerLaws.RunShape | src/attribution.rs:223-248 | the queue never exceeds its capacity and holds each connection at most once, under any clock |
| LedgerLaws.RunOrdered | src/attribution.rs:215-248 | with a clock that never runs backwards the queue stays ordered by first arrival, and after a call nothing in it has reached its deadline |
| LedgerLaws.ExpireIsFullFilter | src/attribution.rs:215-221 | front-only expiry removes exactly the groups a filter of the whole queue would |
| LedgerLaws.NothingGivenUpEarly | src/attribution.rs:215-221 | expiry keeps every group whose first observation is younger than the window, in a queue of any order and under any clock |
| LedgerLaws.WaitsExactlyUntilDeadline | src/attribution.rs:118-152 | in every run with a clock that never runs backwards, an advance that reads no new table keeps a group if and only if its first observation is younger than the window; a new table leaves nothing waiting |
| LedgerLaws.NewTableSettlesAll | src/attribution.rs:132-151 | in every run, a call that reads a new generation leaves every observation captured before it decided |
| LedgerLaws.QueueingExactly | src/attribution.rs:223-254 | without capacity the observation is given up at once; one of a waiting connection joins it and keeps the group's age; otherwise it waits last, and only a full queue gives up a group: the one that has waited longest |
| LedgerLaws.HeldSpeakOfTheirFlow | src/attribution.rs:78-115 | in every run each decided or waiting observation was captured and has its flow's time, bytes and direction; the first of a flow stands for its local socket and port to the peer, the second for the peer's local socket, inbound |
| LedgerLaws.FlowsAreObserved | src/attribution.rs:78-115 | every flow is observed once at its own end, and a second time if and only if both ends are local sockets |
| LedgerLaws.AdvanceExactly | src/attribution.rs:118-152 | overdue groups become unattributed; an unreadable table or a generation already seen changes nothing else; a new one settles every other group by one look-up each |
| LedgerLaws.CommittedOnce | src/attribution.rs:132-151 | each captured observation is in exactly one decision or one waiting place; decisions are only appended, and a decided observation stays decided there in every continuation |
| Accounting.CountersNeverFall | src/stats.rs:374-393 | whatever calls follow, no counter of a process, address or domain, nor the unattributed one, ever falls |
| LedgerLaws.DecidedByDeadline | src/attribution.rs:215-248 | every observation is decided by the first call at or after its arrival plus the window, even when merged into an older group |
| LedgerLaws.RunBalancesExactlyWhenWellFormed | src/attribution.rs:78-115 | both directions of interface bytes equal decided plus waiting bytes if and only if every flow with bytes is well formed |
| Credits.CreditsGoToLoneListeners | src/attribution.rs:257-290 | bytes are credited to a process only by the one look-up that decided them, in a table not stale that listed that process alone on the socket at the flow's own or peer end, or alone on its wildcard 0.0.0.0 or :: with nothing on the socket; name and path are those of the first such record |
| Credits.LoneListenersAreCredited | src/attribution.rs:100-115 | the converse: a flow between sockets, of which one end's look-up finds a lone listener in a table not stale, is credited to it in that very call, at its own end and at a local peer end |
| Credits.DrainCreditsLoneListeners | src/attribution.rs:132-151 | and a waiting group whose look-up in a drain finds a lone listener is credited to it by that advance |
| Attribution.PendingAttributor.RecordFlow | src/attribution.rs:69-116 | the running attributor makes exactly the ledger's move, and the statistics hold exactly what the ledger posts |
| Attribution.PendingAttributor.Advance | src/attribution.rs:118-152 | expiry and drain in place make exactly the ledger's advance |
| Attribution.PendingAttributor.RecordEndpoint | src/attribution.rs:166-213 | an endpoint without socket or port is unattributed, a found one credited, any other queued, as in the ledger |
| Attribution.PendingAttributor.PushPending | src/attribution.rs:223-248 | queueing merges by connection, else makes room by deciding the oldest, as in the ledger |
| Attribution.PendingAttributor.FinalizeExpired | src/attribution.rs:215-221 | the front loop is the ledger's expiry |
| Attribution.PendingAttributor.FinalizeOldest | src/attribution.rs:250-254 | decides the oldest record, if any, as unattributed and keeps the rest |
| Attribution.PendingAttributor.Snapshot | src/attribution.rs:159-164 | reports the number of waiting groups and the bytes of all waiting observations |
| Attribution.MergedSummary | src/attribution.rs:236-244 | adding bytes and the newer time to a record summarises the group with the observation added |
| Accounting.PostedTotals | src/attribution.rs:78-98 | what the ledger posts to interface, processes and domains is what moved, what was decided, and at most what moved |
| Accounting.CountersBalance | src/stats.rs:322-393 | in every run each interface total is the sum of its addresses, and of all processes, the unattributed line and the waiting bytes; domains sum to at most it |
| Counted.CountersAreTheTraffic | src/stats.rs:249-393 | after any calls each counter is a sum over flows or decisions, in its own direction: a process what was decided for its pid and path, the unattributed line what was given up, an address the flows to or from it, a domain the flows that named it |
| Counted.ProcessLinesTellTheTraffic | src/stats.rs:395-420 | every listed process line tells both sums of what was decided for its pid and path, the first name that came with them, and the time of the last; the unattributed line likewise |
| Counted.AddressLinesTellTheTraffic | src/stats.rs:421-432 | every address line tells the bytes of the flows to or from that address and the time of the last |
| Counted.DomainLinesTellTheTraffic | src/stats.rs:356-372 | every domain line tells the bytes of the flows that named the domain, each way, and the time of the last |
| Counted.PacketsCountForTheirOtherEnd | src/stats.rs:322-339 | the flow of a parsed packet counts outbound for the destination exactly when a local end sent it, and inbound for the source exactly when a local end received it (with ports, if a local end also sent it) |
| Accounting.NoCounterOverflows | src/stats.rs:249-281 | while the interface totals together fit 64 bits, every counter, every process and domain total and the waiting sum do |
| Publishing.SnapshotBalances | src/stats.rs:395-420 | listed plus waiting bytes never exceed the interface totals, and equal them when no row was cut off, even if ranking keys overflow |
| Publishing.SnapshotForPublish | src/pipeline.rs:181-191 | a published snapshot shows the totals and waiting bytes of its calls and the table's freshness, balances, and below 2^64 bytes has the true top lists |
| Publishing.FittingProcessesRankBytes | src/stats.rs:395-420 | below 2^64 bytes in all, no process list puts a line before one with more bytes sent and received together, or leaves one out for it |
| Publishing.FittingDomainsRankBytes | src/stats.rs:474-484 | and no domain list does |
| Publishing.DeliveredSnapshotsBalance | src/pipeline.rs:359-379 | in every interleaving the snapshots an owner gets have inbound and outbound totals that never fall, and listed plus pending bytes within those totals, equal to them when no process line was cut off |
| Packets.ParsedFlowsAreWellFormed | src/capture.rs:384-446 | a parsed flow has a second local socket exactly when both ends are local and it has ports, and then it is outbound with a first local socket; a payload implies a connection key |
| Packets.ParsingKeepsTheEnds | src/capture.rs:384-446 | a packet is dropped exactly when no end is local or an outgoing one has both ends local; any other TCP or UDP flow gives back the packet's two ends and ports, its local socket is an address of this host, a second local socket is the peer end; the payload is that of a TCP segment, if not empty |
| Packets.KeysNameBothEnds | src/capture.rs:545-557 | exactly TCP packets have a connection key: both ends with their ports, this host's first |
| Packets.ReverseSharesKey | src/capture.rs:545-557 | a TCP packet and its reverse share a connection key exactly when one end is local or both ends coincide |
| DomainMemo.ParseWithDomainParser | src/capture.rs:485-540 | the branches of the parse report the cached or parsed domain and leave the cache as the reference does |
| DomainMemo.CacheHoldsFounders | src/flow_table.rs:85-97 | the cache holds a key exactly when some packet asked first since the key was last forgotten, with the parser's answer to that packet |
| DomainMemo.QuestionsExactly | src/capture.rs:495-518 | the parser is asked exactly about TCP packets with a payload that this host sends and the capture does not drop, under the key of their connection |
| DomainMemo.ReportIsFoundersAnswer | src/capture.rs:485-540 | under arbitrary eviction, a reported domain is the parser's answer to the founding payload of the same key, seen now or earlier |
| DomainMemo.FirstAnswerSticks | src/capture.rs:495-518 | without eviction later packets get the first outbound payload's answer, also a negative one, exactly when inbound or carrying a payload (or there is no domain) |
| DomainMemo.EmptyPayloadMissesKnownDomain | src/capture.rs:503-505 | an outbound packet with an empty payload gets no domain on a connection whose domain is cached |
| DomainMemo.CallsAreEvictionsPlusHeld | src/capture.rs:520-527 | parser calls for a key are its evictions, plus one while it is cached |
| Pipelines.NextKeepsInv | src/pipeline.rs:54-179 | every step of every worker keeps the control, flow, readiness and snapshot invariants |
| Pipelines.NoFlowIsLostBeforeStop | src/pipeline.rs:64-99 | in every interleaving flows are recorded once and in capture order, and until stop every captured flow is recorded, in the channel, or the one the capture worker holds; the channels never hold more than 8192 flows and two snapshots |
| Pipelines.OnlySourceErrorsAreReported | src/pipeline.rs:359-379 | the failure cell and every error of asking for the latest snapshot is the source's own; a readiness poll can otherwise only blame the capture worker; before stop a worker leaves only after the failure is set |
| Pipelines.OnlyRepeatedPollsBlameAWorker | src/pipeline.rs:394-407 | readiness polls have blamed a worker if and only if readiness was polled again after its message was taken and its sender dropped, with the failure cell empty |
| Pipelines.HealthyCaptureCanBeBlamed | src/pipeline.rs:394-407 | a run in which nothing failed or stopped, and whose second readiness poll blames the capture worker |
| Pipelines.ReadinessIsFirstRead | src/pipeline.rs:381-408 | before stop the one readiness message is the outcome of the first read, and the channel reads as closed exactly when that message was taken and its sender dropped |
| Pipelines.AttributorBalancesInTime | src/pipeline.rs:116-177 | at every moment the attributor holds exactly the flows given to it, at most 1024 connections wait, both directions balance, and what arrived a second before the last call is decided |
| Pipelines.SnapshotsAreOrderedAndBalanced | src/pipeline.rs:359-379 | delivered snapshots have totals that never fall, of a prefix of the captured flows, and in each decided plus reported pending bytes are the totals |
| Deliveries.PollsDeliverNewest | src/pipeline.rs:359-379 | in every interleaving a poll fails exactly when the failure cell is set as it is consulted, with what it holds; otherwise it adds to the delivered snapshots just the newest one published by the moment it found the channel empty, and nothing exactly when earlier polls had taken all of those |
| Deliveries.FirstPollDelivers | src/pipeline.rs:269-271 | the first poll of a run delivers a snapshot unless the failure cell is set |
| Pipelines.PendingChangesAreAnnounced | src/pipeline.rs:121-138 | in every turn of the aggregate loop before stop, a snapshot goes out exactly when bytes have begun or ceased to wait since the last such announcement and there is room for it, and exactly then counts as announced |
| Progress.CapturedCanStillBeDelivered | src/pipeline.rs:102-179 | from every moment of every run, unless stopped or the source has failed, there is a continuation in which all that was captured is recorded and shown by a delivered snapshot, with no error |
| Progress.SourceErrorCanStillBeReported | src/pipeline.rs:54-99 | from every moment before stop at which the source has failed, there is a continuation in which every captured flow is recorded, both workers end, and a poll returns that error |
| Progress.StopEndsTheWork | src/pipeline.rs:64-99 | after stop at most one more flow is captured and one more recorded, a flow not on offer yet is never offered, and no failure is recorded that was not under way |
| Progress.StoppedWorkersCanStillEnd | src/pipeline.rs:491-495 | from every moment after stop both workers can end, whatever the owner has dropped |
| Progress.ChannelsFill | src/pipeline.rs:18-19 | runs in which the flow channel holds 8192 flows, and the snapshot channel two snapshots |
| Pipelines.LedgerTraffic | src/pipeline.rs:159-168 | the ledger records exactly the flows received, in order |
| Sessions.TrafficSession.BeginActivateWith | src/session.rs:154-188 | unchanged for the active interface, refused while one is pending or on a failed spawn, else the fallback is dropped and the opening is pending |
| Sessions.TrafficSession.PollActivation | src/session.rs:89-108 | an answered opening replaces the active interface, keeping the former as fallback unless already ready; a failed one changes nothing but pending |
| Sessions.TrafficSession.PollCaptureReadiness | src/session.rs:110-125 | readiness drops the fallback, a failure restores it and is reported, silence changes nothing |
| Sessions.TrafficSession.ActivateWith | src/session.rs:134-152 | replaces the active interface on success and leaves fallback and pending alone |
| Sessions.NextKeepsInv | src/session.rs:89-188 | every operation, and every step of the pipelines in between, keeps: never both pending and fallback; a fallback is the interface active just before, and waits only while the active readiness message is untaken |
| Sessions.RevertsExactlyOnFirstReadFailure | src/session.rs:110-125 | in every run a poll reverts exactly when a fallback waits and the active source's first read failed and was announced; it then restores the interface active just before the last switch, which is another one |
| Sessions.ForegroundActivationNeedsNoFallback | src/session.rs:134-152 | from any state the session invariant allows, also with an opening pending, after a foreground activation of another interface every readiness poll in every continuation reverts exactly on a first-read failure, and to the interface active just before, if and only if no fallback waits |
| Sessions.ForegroundActivationRevertsHealthyCapture | src/session.rs:134-152 | a run with a waiting fallback, after which a foreground activation lets the next poll give up a healthy interface for one that was not the last active |

## Left out

- Rendering, key handling and the plain and JSON reports (`src/tui.rs`, `src/palette.rs`, `src/report.rs`): they only read snapshots.
- TLS and HTTP parsing: the domain parser is an arbitrary function of the payload.
- Link-layer and IP header decoding: the model starts from decoded addresses, ports, payload and length; the rejection of mismatched IP versions is not part of it.
- The cache's eviction policy and idle timer: any key may be forgotten between two packets.
- Operating system calls, thread spawning, lock poisoning other than an unreadable table, and worker panics, including a failed thread spawn inside `spawn_with_next_using`.
- The debug-only assertions of `push_pending`, one of which refuses a peer port of zero.
- Diagnostics counters, miss samples and record counts; parsing of interface selectors and of the command line; and the two loops of `src/main.rs` that drive the same attributor without worker threads.
- Platform path rules: a listener record carries the file name extracted from its path.
- The value of `last_published_pending_nonempty` against the last published snapshot: the periodic publish does not update it, and no guarantee of the program depends on it.
- The time a drain takes is bounded by a parameter; no bound is derived from the request traffic.
- Scheduling: what a pipeline can still do is proved from every moment of every run; that its workers are ever scheduled to do it is not.
- Statistics.Stats.AddIn: counts in unbounded integers, like all counters; `NoCounterOverflows` gives the bound below which the 64-bit counters agree.
- Refresher.LookupsAnswerForLastListing: the refresher's loop is a state machine and not a `while` loop, because requests arrive between any two of its operations.
- Sessions.TrafficSession.PollCaptureReadiness: pipelines are values inside the session, which owns them alone; reading the latest snapshot is one of the steps a pipeline takes between operations.
