# Topology and scan-queue model

A Dafny model of a network-topology service: devices are scanned, their connections are stored,
pre-aggregated and shown as service history and as a graph of clusters, and the scans themselves
run through a lease-based queue shared by many workers. The model follows the code branch by
branch; where the code works by loops and updated fields, the model has methods with loop
invariants and classes, each proved against a specification function or predicate, and the main
results are lemmas about those.

**History.** Raw rows are collapsed once per scan into observations (`Observations`), again over
a query window by SQL group-by (`ObservationGroups`), and the stored spellings of one address
are merged (`SpellingMerge`). `RawAggregation` is the simple ordered fold that defines what the
result ought to be; `Services` states that meaning independently of both. `ReportedServices` says field
by field, in terms of the stored rows alone, what each form reports. `HistoryViews` and
`HistoryTheorems` connect the two forms: refinement, survival of raw purges, pushing filters below the
aggregation. `TextCodec` and `Addresses` hold the encodings and address rules used on the way.
`HistoryStore` is the database: the insert transaction, the backfill and both retention purges
as methods that keep the observations in step with every row ever stored; `StoredHistory` draws
the end-to-end conclusions.

**Graph.** `ClusterGraph` and `ClusterTopology` place services on edges and build the graph;
`ShownGraph` says which services, nodes and edges that is, without the functions that build it;
`GraphScoping`, `GraphTheorems` and `EdgeConnections` prove that the graph of one cluster and the
connections of one edge, which are computed from narrower queries, are those of the full graph;
`StoredSpelling` says when the rows stored under one spelling of an address stand for all of a
service's rows, and `GraphRetention` and `ScopedRetention` what raw purges change of the graph, of
one cluster's graph and of one edge's connections.

**Queue.** `ScanTasks` gives every transaction on the task table as a function of the database
state and runs as sequences of events; `ScanTaskInvariants`, `ScanAdmission`, `ScanTaskRuns` and
`ScanTaskLimits` prove what holds over all runs; `ScanTaskEffects` says column by column what each
transaction reads and writes; `ScanQueue` has the transactions as methods that
update the tables in place. `ImportTests` and `ImportQueue` do the same for connection tests of
imported rows and their hand-over to the scan queue; `ImportTestEffects` again says what each transaction does to every row,
and what becomes of a row over a run; `ImportTestLimits` has the fencing of their workers and the bounds on how many tests are under way.

**Concurrency helpers.** `TopologyCache` (single flight) and `TransactionRunner` (admission slots
and retries) are state machines over every interleaving of threads.

`Ordering` and `Wrappers` are small shared helpers. `dafny verify dfyconfig.toml` checks everything.

## Findings

Properties that do not hold of the code as it stands, each with a concrete instance and the exact
condition under which it does hold:

- The merged hostname of two stored spellings can differ from the simple fold's
  (`HistoryTheorems.HostnameCanDrift`; it agrees if and only if the name is settled). Only rows stored
  otherwise than today, such as older ones, are affected: the collectors normalise addresses
  (`app/collectors/linux.py:86-87`, `app/collectors/windows.py:87-88`) and store no hostname.
- The raw purge can remove the rows of the latest diff's baseline when two scans of a device start
  at the same instant (`StoredHistory.BaselineCanBeLost`, `StoredHistory.BaselineSurvives`).
- Enqueueing a device into a completed batch that already has it sets a new finish time
  (`ScanTaskLimits.FinishTimeCanMove`, `ScanTaskLimits.CompletedChangesOnly`). This is about the
  contract of `enqueue_device`: no caller in the application passes a batch id today
  (`app/services/scheduler.py:190`, `app/routes/api.py:577`).
- The drill-down of an external address matches addresses as stored, misses IPv4-mapped rows, and
  can show a service with the counts of some of its rows only (`EdgeConnections.MappedRowIsMissed`,
  `EdgeConnections.DrillDownExact`). Again only rows stored
  otherwise than today are affected.
- An import batch whose last test fails internally completes without being handed to the scan
  queue (`ImportTests.CompletionCanBeLost`, `ImportTests.FailedEndLosesBatch`,
  `ImportTests.HandedOverExactly`).
- A history graph filtered by connection state loses connections to the raw purge
  (`GraphRetention.StateFilterLosesEdge`, `GraphRetention.GraphSurvivesPurge`).

Two bounds are tight, which is no fault: a lease of exactly twice the heartbeat period, which the
configuration refuses, would not keep a task with its holder (`ScanTaskLimits.LeaseMustExceedTwoPeriods`),
and a claim of a single import row may take the running tests, though not the live ones, over the
limit (`ImportTestLimits.SingleClaimOverruns`).

## Assumptions

- Record and scan ids are unique; a scan has one start time; ids and epoch microseconds are below
  10^20, the width of the padded markers.
- Stored remote ports are missing or positive, process names and hostnames are missing or non-empty,
  local addresses are non-empty and comma-free, and remote addresses are stored in normal form or as
  `::ffff:` followed by a dotted quad.
- The standard address parser is known through the laws of `Addresses.Lawful` only, which
  `Addresses.LawfulLibraryExists` shows to be satisfiable. Name lookup and CIDR membership are fixed functions.
- Text is ordered by code point, as under the C collation. Letters are upper-cased in ASCII only.
- Each transaction is one atomic step; `now` of a transaction may lag behind the clock unless a
  statement says otherwise. The database clock and the workers' clocks are one clock.
- Factories and semaphores end and grant eventually; the machines state safety and who can go on.

## Model

| member | source | states |
|---|---|---|
| `HistoryTheorems.FastRefinesSimple` | app/services/topology_history.py:215-533 | For every query over rows whose observations are in step, the pre-aggregated form and the simple ordered fold report the same service keys and, key by key, the same first/last seen, scan count, currency, observed sets and sample; the hostname agrees if and only if the group's name is settled |
| `RawAggregation.AggregateConnectionObservations` | app/services/topology_history.py:94-155 | The simple form: one pass over the rows in (start, scan, record) order returns exactly one group per key, each the reference summary of its rows; ReportedServices.SimpleReports says field by field what that is |
| `ReportedServices.SimpleReports` | app/services/topology_history.py:94-155 | What the simple form reports, column by column of the rows: a key is there exactly when a remote, non-loopback row has it; first and last seen are the earliest and latest start, the count is the number of scans, current means one of them is, the sets are those of the rows, the sample is the newest row and the name that of the newest named row |
| `RawAggregation.AbsorbRow` | app/services/topology_history.py:114-142 | One turn of the fold: a row opens a bucket or extends the one it finds, an empty hostname never replacing an older name |
| `SpellingMerge.AggregateObservationGroups` | app/services/topology_history.py:405-533 | The fast form's merge loop, for any order of the aggregate rows: one service per normalised key, merged from all decodable rows of that key; ReportedServices.FastReports says field by field what that is |
| `ReportedServices.FastReports` | app/services/topology_history.py:215-533 | What the fast form reports of the rows its query asks for, column by column: the same keys, times, counts and sets of raw rows as above, a missing port counting as 0; the sample is the newest row, in all columns while that row is stored and without a state afterwards; the name is the newest one if it is settled |
| `SpellingMerge.MergeInto` | app/services/topology_history.py:486-518 | The merge of a decoded row into an existing bucket: unions of sets, extreme times, and the sample and name rules of the later marker |
| `SpellingMerge.MergeStep` | app/services/topology_history.py:486-518 | Merging one more part into a bucket that merges the earlier parts gives a merge of all of them |
| `SpellingMerge.MergeDetermined` | app/services/topology_history.py:496-518 | With at most two spellings per key the merge does not depend on the order in which the parts arrive |
| `HistoryViews.DecodeMeaning` | app/services/topology_history.py:416-453 | What one aggregate row plus its CSV row decodes to: the exact outline and latest non-null hostname of the raw rows it stands for, with the live sample row or its stand-in |
| `HistoryViews.PartsCoverGroup` | app/services/topology_history.py:421-430 | The parts merged under one normalised key partition exactly the selected raw rows of that key by stored spelling |
| `HistoryViews.ReportedKeys` | app/services/topology_history.py:405-533 | A key is reported if and only if it has a selected, visible raw row |
| `HistoryViews.MergedOutline` | app/services/topology_history.py:486-518 | The merged bucket has the times, scan ids, address, port and PID sets and the latest marker of all rows of the key |
| `HistoryViews.MergedHostnameExact` | app/services/topology_history.py:496-513 | The merged hostname equals the simple form's if and only if the name is settled: the newest spelling's own latest name, if any, is the latest name overall |
| `HistoryTheorems.OneSpellingSettles` | app/services/topology_history.py:496-513 | A group stored under one spelling always has its name settled |
| `HistoryTheorems.HostnameCanDrift` | app/services/topology_history.py:496-513 | A concrete three-scan table for which every simple view and every fast view report different hostnames |
| `HistoryTheorems.PurgeKeepsHistory` | app/services/topology_history.py:181-212 | Whatever subset of raw rows is left, history reports the same services with the same fields; only sample detail may degrade, to observed members; a service whose sample row is left is unchanged, and one whose sample row is gone has no state |
| `Services.SummaryUnique` | app/services/topology_history.py:94-155 | A group of rows has at most one reference summary, so a loop or query result that meets the reference is that one value |
| `HistoryTheorems.SelectedRowsSuffice` | app/services/topology_history.py:536-556 | If every selected raw row is left, nothing in the view changes |
| `HistoryTheorems.NarrowedView` | app/services/topology_history.py:248-260 | A filter on services pushed below both aggregations gives exactly the restriction of the unfiltered view |
| `ObservationGroups.MarkerColumn` | app/services/topology_history.py:269-285 | The textual maximum of the padded markers is the marker of the latest raw row of the group |
| `ObservationGroups.HostnameColumn` | app/services/topology_history.py:315-325 | The greatest marker-separator-hostname text carries the hostname of the latest named raw row |
| `ObservationGroups.LocalIpColumn` | app/services/topology_history.py:334-365 | Splitting the joined distinct per-scan address lists gives the set of normalised local addresses of the raw rows |
| `ObservationGroups.PortColumn` | app/services/topology_history.py:334-365 | The same for local ports |
| `ObservationGroups.PidColumn` | app/services/topology_history.py:334-365 | The same for PIDs, missing ones dropped |
| `ObservationGroups.ScanColumn` | app/services/topology_history.py:312-314 | The joined scan ids read back as the set of scans of the group |
| `Observations.ObserveStands` | app/services/service_observations.py:47-75 | The per-scan group-by: each observation row carries the latest record, latest non-null hostname and exact value sets of its cell |
| `Observations.ObservationsStand` | app/services/service_observations.py:29-75 | Every observation of a table of raw rows is in step with that table |
| `TextCodec.MarkerTextOrder` | app/services/topology_history.py:269-285 | For parts below 10^20 the order of padded marker texts is the numeric order of (micros, scan, sample) |
| `TextCodec.PayloadOrder` | app/services/topology_history.py:315-325 | Markers followed by separator and hostname are ordered by marker first |
| `TextCodec.ParseMarkerText` | app/services/topology_history.py:439-440 | Splitting and parsing a marker text recovers its three parts |
| `TextCodec.PayloadHostname` | app/services/topology_history.py:416-420 | The text after the first separator of a payload is the hostname |
| `TextCodec.AggUnion` | app/services/topology_history.py:170-175 | Splitting a comma-joined collection of CSV texts gives the union of what each of them holds |
| `TextCodec.AggRoundTrip` | app/services/topology_history.py:174-175 | Joining non-empty comma-free texts and splitting again is the identity on sets |
| `TextCodec.IntAggRoundTrip` | app/services/topology_history.py:170-171 | The same for numbers in decimal text |
| `Addresses.NormalizeIdempotent` | app/collectors/base.py:37-47 | Normalising twice is normalising once |
| `Addresses.FastPathAgrees` | app/collectors/base.py:39-41 | The dotted-quad shortcut gives what the address parser alone would give |
| `Addresses.MappedSpelling` | app/collectors/base.py:44-46 | The IPv4-mapped spelling of a dotted quad normalises to the quad |
| `Addresses.LoopbackOfNormal` | app/collectors/base.py:50-61 | An address is loopback if and only if its normal form is |
| `Addresses.LoopbackExactly` | app/collectors/base.py:50-61 | An address is loopback exactly when the parser reads it, its zone dropped, as an IPv4 address in 127.0.0.0/8, as an IPv6 address that maps one, or as an IPv6 address that is itself loopback |
| `Addresses.QuadExactly` | app/collectors/base.py:10-24 | The dotted-quad test accepts exactly the decimal texts of four numbers up to 255 joined by dots |
| `Addresses.FamilyOfNormal` | app/collectors/base.py:64-70 | The parser-based address family and the colon test agree on normal forms |
| `Addresses.RulesAreCoherent` | app/collectors/base.py:26-70 | The three address operations together satisfy every law the aggregation proofs use |
| `Addresses.AddressNormalizer.NormalizeCached` | app/collectors/base.py:26-34 | With the memo table, whatever was asked before, the answer is the uncached one |
| `HistoryStore.Store.AddScanOutcome` | app/services/scans.py:60-101 | Run, kept raw rows and their observations are added together, each new row holding its connection's columns; an unknown device changes nothing; consistency is kept |
| `HistoryStore.KeptInOrder` | app/services/scans.py:64-66 | The row filter keeps the order: of two lists one after the other it keeps what it keeps of each, in that order |
| `HistoryStore.KeptExactly` | app/services/service_observations.py:18-23 | Every accepted connection, which is one over UDP or whose state is in upper case ESTAB or ESTABLISHED or a listening one, is kept exactly as often as it was collected, and no other is kept |
| `HistoryStore.Store.Backfill` | app/services/service_observations.py:91-106 | For every batch size the backfill equals one sync of every successful scan, existing observations left as they are |
| `HistoryStore.RangeObservations` | app/services/service_observations.py:62-74 | Aggregating a range of scan ids is the restriction of aggregating everything |
| `HistoryStore.SyncedTwice` | app/services/service_observations.py:98-106 | Syncing two adjacent ranges is syncing their union |
| `HistoryStore.BackfillAddsNothing` | app/services/service_observations.py:91-106 | On a consistent store the backfill inserts nothing |
| `HistoryStore.Store.DeleteScansInChunks` | app/services/scheduler.py:48-65 | For every chunk size of at least 1 the loop ends with exactly the rows one filter would leave, cascade included, and returns the number removed; a chunk size of 0 deletes nothing; the store is consistent again at the end |
| `HistoryStore.ChunkInPurge` | app/services/scheduler.py:61-64 | After every committed chunk, whichever of the doomed scans it took, the store is consistent but for scans still to be deleted: observations stand for every row, and no scan that stays is promoted or lacks rows |
| `HistoryStore.InsertBetweenChunks` | app/services/scheduler.py:48-65 | A run added between two chunks leaves the purge in that state, so the chunks that follow still end in a consistent store |
| `HistoryStore.RawChunkStaysConsistent` | app/services/scheduler.py:134-154 | Removing the raw rows of any scans outside the kept two leaves the store consistent: after every chunk of the raw purge, and from whatever consistent state the next chunk starts |
| `HistoryStore.Store.RetentionGroups` | app/services/scheduler.py:76-82 | Every device is in exactly the group of its effective retention: its own days if set, else its cluster's, else the system's |
| `HistoryStore.Store.PurgeExpiredScans` | app/services/scheduler.py:68-95 | For every chunk size exactly the scans that started longer ago than the days of their device's retention, its own, else its cluster's, else the system's, go, with their rows and observations, and scans of unknown devices stay; consistency is kept |
| `HistoryStore.ExpiredMeans` | app/services/retention.py:21-31 | A scan is expired exactly when its device is known and its start is before now minus 86400 seconds for each day of the own, else the cluster, else the system retention |
| `HistoryStore.Store.PurgeRawRecords` | app/services/scheduler.py:98-154 | For every chunk size exactly the raw rows go whose scan started before the cutoff and is not successful with fewer than two newer successful scans of its device, and their number is returned; the store is consistent after every chunk |
| `HistoryStore.ChunkReaches` | app/services/scheduler.py:132-154 | Each chunk removes exactly the doomed scans up to its last id, and there is progress |
| `HistoryStore.KeptAreNewest` | app/services/scheduler.py:112-127 | Of a device's successful scans the kept ones are the newest by (start, id): at most two, and two whenever any is left out |
| `HistoryStore.KeptMeans` | app/services/scheduler.py:112-127 | A scan is kept exactly when it is successful and at most one other successful scan of its device started later, or at the same time with a greater id |
| `HistoryStore.OneCurrentScan` | app/services/topology_history.py:50-81 | A device with a successful scan has exactly one current scan, newer than all its others |
| `HistoryStore.KeptAfterInsert` | app/services/scheduler.py:112-127 | A new scan can only push older scans out of the kept two |
| `HistoryStore.KeptAfterExpiry` | app/services/scheduler.py:85-92 | While each device's oldest scans are deleted, in whatever order, no scan that stays becomes kept or current |
| `HistoryStore.BaselineKept` | app/services/scheduler.py:112-127 | The diff baseline of a latest scan is among the kept scans if and only if start times do not collide around it |
| `StoredHistory.StoreRefinesFold` | app/services/topology_history.py:215-533 | End to end: on any store the methods can produce, the view computed from observations and the raw rows left agrees with the simple fold over every row ever stored, sample detail and unsettled names apart |
| `StoredHistory.HistorySurvives` | app/services/scheduler.py:98-154 | Whatever has been purged from a consistent store, history is reported as if no raw row had been, sample detail apart |
| `StoredHistory.CurrentViewSurvives` | app/services/topology_history.py:536-556 | The current view over the rows left equals the current view over every row ever stored |
| `StoredHistory.ListenersSurvive` | app/services/scheduler.py:128-154 | No raw purge changes the listeners of the latest scans |
| `StoredHistory.BaselineSurvives` | app/routes/api.py:845-855 | No raw purge of any cutoff takes the baseline of the latest diff if and only if start times do not collide around it |
| `StoredHistory.BaselineCanBeLost` | app/routes/api.py:845-855 | Three concrete scans for which the raw purge takes the baseline of the latest diff |
| `StoredHistory.BaselineRowsAreLive` | app/routes/api.py:845-864 | While the baseline is kept, every row it ever had can still be compared |
| `ClusterGraph.LoadContext` | app/services/topology.py:248-289 | The loaded context indexes the devices and lists each cluster's members and each address's owners in device order |
| `ClusterGraph.AddOwner` | app/services/topology.py:265-268 | A device is appended to the owners of each of its addresses and no other |
| `ClusterGraph.FilterServiceConnections` | app/services/topology.py:292-317 | The filter loop returns, in order, exactly the services with the given protocol and state in whose lower-cased text of process name, blank and PIDs, ascending and joined by blanks, or the sample's PID when none was observed, the given process text occurs; a filter that is not set drops nothing |
| `ClusterGraph.MentionsOccurs` | app/services/topology.py:308-315 | The text search of the filter is the question whether that text is some text, the given one and some text in a row |
| `ShownGraph.ListExactly` | app/services/topology.py:292-317 | The list a graph is built from holds exactly the services of the view that the filters let through |
| `ShownGraph.WindowExactly` | app/services/topology_history.py:50-81 | The window of a request: of its devices the remote rows of each newest successful scan, and with a cutoff those of every successful scan since then |
| `ShownGraph.ContextExactly` | app/services/topology.py:248-289 | The members of a cluster are the devices assigned to it, the owners of an address those whose host resolves to it |
| `ShownGraph.NodesExactly` | app/services/topology.py:445-510 | The nodes of the full graph: one per cluster with its name and members, one per device outside clusters with its name, one per external address a service was placed on, and no other |
| `ShownGraph.EdgesExactly` | app/services/topology.py:512-534 | The edges stand in the order of their two node ids and are numbered by it; each lists exactly the services placed on it and is current exactly when one of them is |
| `ShownGraph.ClusterGraphExactly` | app/services/topology.py:535-550 | The graph of one cluster has exactly the edges that end at it, and the nodes that those edges and the cluster itself name |
| `ClusterGraph.GroupClusterEdges` | app/services/topology.py:346-372 | The loop's groups are exactly the placed pairs, each with its services in list order |
| `ClusterTopology.AssembleGraph` | app/services/topology.py:445-559 | Nodes, numbered edges with their counts, and the cluster filter are exactly those of the graph definition; an unknown cluster is refused |
| `ClusterTopology.PlacedOrDropped` | app/services/topology.py:320-358 | A service is on no edge for one of three reasons only; otherwise it is on exactly one edge from its device's node to the owner's node or the external address, never a loop |
| `ClusterTopology.GraphConserves` | app/services/topology.py:445-534 | For any weight of services, the sum over all edges is the sum over the services not dropped |
| `ClusterTopology.CountsAreWeights` | app/services/topology.py:512-530 | An edge's count, current count and observation count are such sums |
| `ClusterTopology.GraphTotals` | app/services/topology.py:512-530 | Summed over all edges of the full graph, counts, current counts and observation counts are the number, the current number and the observations of the services not dropped |
| `ClusterTopology.SameNode` | app/services/topology.py:193-194 | Two devices share a node id if and only if they share a cluster or are the same unclustered device |
| `GraphTheorems.EdgesAreWellFormed` | app/services/topology.py:445-534 | Both endpoints of every edge are nodes, no edge is a loop, no edge is empty, and current plus historical is the count |
| `GraphScoping.ResolvedAreNormal` | app/services/topology.py:163-190 | Every resolved address is in normal form, and so is what its mapped spelling normalises to |
| `GraphScoping.ResolvedExactly` | app/services/topology.py:163-190 | A host that is an address resolves to its normal form alone, any other to the normal forms of the looked-up texts that are addresses |
| `GraphScoping.SpellingsMatch` | app/services/topology.py:405-420 | A stored address is among the cluster's spellings if and only if its normal form is among the cluster's addresses |
| `GraphScoping.ScopedEdge` | app/services/topology.py:415-443 | Every edge of the cluster has the same connections from the cluster's own query as from the unfiltered one |
| `GraphTheorems.ScopedGraph` | app/services/topology.py:405-550 | Scoping preserves meaning: the graph from the cluster's own query is the full graph's edges at that cluster, numbers aside, with the cluster and those edges' endpoints as nodes |
| `GraphTheorems.BuildClusterTopology` | app/services/topology.py:375-559 | The whole operation, for all devices or one cluster, against the full graph of any view of the unfiltered query |
| `EdgeConnections.DrillDownAgrees` | app/services/topology.py:615-668 | For any two texts as node ids, if every row of an external target is stored as asked for, the pair's own query finds exactly the full graph's connections of that edge |
| `EdgeConnections.DrillDownExact` | app/services/topology.py:582-668 | For any two texts as node ids, any window and any filters: the pair's own query lists exactly the full graph's connections of that edge always for a managed target, and for an external one if and only if, for each service shown on the edge, the rows stored as asked suffice: there are some, and they have the latest row, name, times, scans and address, port and PID sets of all its rows |
| `EdgeConnections.DrillDownByRows` | app/services/topology.py:582-668 | Without a state or process filter stored rows and placement alone decide: the pair's own query lists the edge's connections if and only if, for every service with rows that belongs to an external edge, the rows stored as asked suffice |
| `EdgeConnections.BuildEdgeConnections` | app/services/topology.py:615-668 | The whole operation returns the pair's own connections sorted by remote address, port, protocol, process text, device and sample, which is a sorted permutation of that edge's connections in the full graph under the same filters under exactly that condition, and then nothing exactly when the full graph has no such edge |
| `EdgeConnections.SortingSorts` | app/services/topology.py:603-612 | Sorting by the connection key gives a permutation in which each row may stand before all later ones: by remote address, then port, missing as 0, then protocol, process text, device and sample |
| `EdgeConnections.KeyLessIsOrder` | app/services/topology.py:603-612 | One row comes before another exactly when it is less in the first of remote address, port, protocol, process text, device and sample in which they differ |
| `EdgeConnections.PlacedIsWanted` | app/services/topology.py:562-600 | Every service on an edge is among the devices and addresses its node ids stand for |
| `EdgeConnections.ExternalServices` | app/services/topology.py:587-588 | The drill-down of an external target finds exactly the services stored at least once in the asked-for spelling |
| `StoredSpelling.AskedServiceExact` | app/services/topology_history.py:248-260 | A query for one stored spelling of a remote address reports a service as the unrestricted query does if and only if the rows so stored suffice for it |
| `EdgeConnections.MappedRowIsMissed` | app/services/topology.py:587-588 | A concrete store, one connection stored IPv4-mapped: the full graph lists it on its external edge and the drill-down of that edge lists nothing |
| `GraphRetention.EdgeSurvivesPurge` | app/services/topology.py:346-372 | One edge under any query: after any raw purge its connections are those over every row ever stored, sample detail apart, if and only if there is no state filter or the latest row of each of them is left |
| `GraphRetention.GraphSurvivesPurge` | app/services/topology.py:292-559 | Whatever raw rows have been purged, the graph has the same nodes, edges and counts as the graph over every row ever stored, its connections alike but for sample detail, if and only if it is not filtered by state or the latest row of each connection is left |
| `GraphRetention.StateFilterLosesEdge` | app/services/topology.py:306-307 | A concrete store whose history graph, filtered by state, has an edge before the raw purge of one old scan and none after it |
| `GraphRetention.CurrentGraphSurvives` | app/services/topology.py:375-559 | Without history the graph of a consistent store equals the graph over every row ever stored, under any filter |
| `ScopedRetention.ClusterGraphSurvivesPurge` | app/services/topology.py:405-550 | Scoping and purging together: the graph of a cluster over the raw rows left is, edge numbers and sample detail apart, the one that shows this cluster of the full graph over every row ever stored, if and only if there is no state filter or the latest row of each of the cluster's connections is left |
| `ScopedRetention.DrillDownSurvivesPurge` | app/services/topology.py:582-668 | Drill-down and purging together: the sorted answer over the raw rows left is the one over every row ever stored, sample detail apart, under the same condition on this edge; the latter lists the full graph's connections exactly when the rows stored as asked suffice |
| `ScopedRetention.CurrentScopesSurvive` | app/services/topology.py:405-443 | Without history the queries for one cluster and for one edge report the same over the rows left as over every row ever stored |
| `GraphRetention.StoreIsInStep` | app/services/topology.py:375-404 | Every store the methods can produce meets the conditions of the graph theorems |
| `ScanAdmission.RunKeeps` | app/services/scan_queue.py:154-635 | Over every run of any workers' transactions: items mirror their tasks, stored counters equal a recount, runs and settled tasks correspond, one active task per device, the queue within its size |
| `ScanAdmission.StepKeeps` | app/services/task_leases.py:28-143 | Each single transaction keeps all of that and undoes nothing a task went through |
| `ScanAdmission.BatchAdmission` | app/services/scan_queue.py:217-266 | Creating a batch is refused, changing nothing, if and only if the new tasks do not fit; otherwise the loop is never refused and gives exactly one item per distinct existing collectible device |
| `ScanAdmission.LoopNeverFails` | app/services/scan_queue.py:255-263 | With room for the new tasks the enqueue loop is never refused, and joins each device to its active task |
| `ScanAdmission.TallyTotal` | app/services/task_leases.py:44 | A batch's total is the number of its items |
| `ScanTaskInvariants.PropagateKeeps` | app/services/task_leases.py:63-80 | Mirroring the changed tasks and refreshing their batches puts items and counters back in step |
| `ScanTaskInvariants.ClaimKeeps` | app/services/task_leases.py:83-143 | A claim keeps every invariant and activates no inactive task |
| `ScanTaskRuns.SettledForever` | app/services/scan_queue.py:389-428 | A settled task never changes again, whatever follows |
| `ScanTaskRuns.OneRunPerTask` | app/services/scan_queue.py:375-443 | However often it was attempted, rolled back, retried or settled through the fallback, a task has at most one scan run |
| `ScanTaskRuns.StaleWorkerIsFenced` | app/services/scan_queue.py:395-406 | From any state in which a worker does not hold a task, none of its steps changes the task until it claims again |
| `ScanTaskRuns.HeldByLastClaimer` | app/services/task_leases.py:129-140 | A task's attempt count is the number of claims it went through, and while it runs it is held by the worker that claimed it last |
| `ScanTaskRuns.SettlerClaimedLast` | app/services/scan_queue.py:395-425 | Only the worker that claimed a task last can persist its outcome, which then is the task's status, finish time, error and one run |
| `ScanTaskRuns.LeaseFieldsWhileRunning` | app/services/task_leases.py:63-68 | Worker, lease and heartbeat are set exactly while a task runs, its finish time exactly once it is settled |
| `ScanTaskRuns.QueueStaysBounded` | app/services/scan_queue.py:114-130 | Active tasks stay within the queue size and each device has at most one |
| `ScanTaskLimits.ClaimIsExact` | app/services/task_leases.py:110-127 | A claim takes exactly as many tasks as capacity, free slots and unlocked pending tasks allow, and leaves none behind with a higher priority, or equal priority and earlier creation, or else smaller id |
| `ScanTaskRuns.EnqueueServes` | app/services/scan_queue.py:162-184 | An accepted enqueue leaves the device with one active task of at least the requested priority, raised or new, and every other task as it was |
| `ScanTaskLimits.LimitBoundsRunning` | app/services/task_leases.py:94-127 | Rows never skipped: in every run of workers sharing a limit the running tasks never exceed it, however stale the claims' timestamps |
| `ScanTaskLimits.LimitBoundsLive` | app/services/task_leases.py:94-127 | Any rows skipped but time current: the live leases never exceed the limit |
| `ScanTaskLimits.HeartbeatKeepsLease` | app/config.py:59-63 | With twice the period below the lease, a task whose last heartbeat is never more than two periods old is never taken from its holder, whatever else happens |
| `ScanTaskLimits.LeaseMustExceedTwoPeriods` | app/services/task_leases.py:100-107 | The bound is tight: for every period a concrete run meets all the other conditions with twice the period equal to the lease, and the task is taken from its holder |
| `ScanTaskLimits.RenewalProtects` | app/services/task_leases.py:146-175 | A task a renewal does not report lost stays with its worker, in the same attempt, over every run of any workers before the new lease ends, unless it is settled |
| `ScanTaskLimits.CompletedChangesOnly` | app/services/scan_queue.py:194-201 | A completed batch changes if and only if an accepted enqueue names it and either brings a device new to it or comes at another time than its finish |
| `ScanTaskLimits.FinishTimeCanMove` | app/services/scan_queue.py:194-201 | A concrete completed batch whose finish time such an enqueue moves |
| `ScanTaskLimits.CompletedStays` | app/services/task_leases.py:52-60 | A completed batch that nothing is enqueued into stays as it is over every run |
| `ScanTaskLimits.BatchBookkeeping` | app/services/task_leases.py:44-60 | In every reachable state the counters are a recount summing to the total, and status and finish time follow from them |
| `ScanQueue.TaskTables.RefreshBatches` | app/services/task_leases.py:28-60 | The refresh loop recounts exactly the given existing batches |
| `ScanQueue.TaskTables.EnqueueInSession` | app/services/scan_queue.py:154-184 | Finds or adds the task, bumps priorities upwards only, attaches at most one item per batch and device; a refusal changes nothing |
| `ScanQueue.TaskTables.EnqueueDevice` | app/services/scan_queue.py:186-201 | Is the enqueue step, and answers with the device's one queued task or the first reason against it: no device, collection disabled, queue full, no batch |
| `ScanTaskEffects.EnqueueAnswers` | app/services/scan_queue.py:154-201 | The answer to every enqueue: the id of the queued task of the device, or NoDevice exactly for a missing device, CollectionDisabled exactly for a disabled one, QueueFull when it has no queued task and the active ones fill the queue, NoBatch when it lacks an item in a batch that does not exist |
| `ScanTaskEffects.CreateIsComplete` | app/services/scan_queue.py:210-266 | A created batch, task by task: an active task of a requested, known and enabled device is raised to priority 60 for an import and 80 otherwise if it ranks lower, the tasks added are pending ones of such devices with just that priority, and every other task is as it was |
| `ScanTaskEffects.DistinctKeepsOrder` | app/services/scan_queue.py:226-226 | Requested devices are taken in the order of their first mention |
| `ScanQueue.TaskTables.CreateScanBatch` | app/services/scan_queue.py:217-292 | Is the create-batch step, refused exactly when overfull |
| `ScanQueue.TaskTables.ClaimScanTasks` | app/services/task_leases.py:83-143 | The sweep and start loops with one refresh are the claim step: which tasks are taken, put back or left is spelled out column by column, and the ids come in the order in which tasks go: higher priority, older, smaller id |
| `ScanTaskEffects.ClaimIsComplete` | app/services/task_leases.py:83-143 | Every task after a claim: a taken one was waiting or lapsed and now runs for the worker on a lease counted from the start of the claim with one attempt more; any other lapsed one waits without a worker; all else is untouched; nothing ready is passed over for one that goes later, and as many are taken as capacity, limit and ready tasks allow |
| `ScanTaskEffects.RenewIsComplete` | app/services/task_leases.py:146-175 | A renewal moves heartbeat and lease of exactly the named tasks the worker holds |
| `ScanTaskEffects.PersistIsComplete` | app/services/scan_queue.py:389-428 | The holder, and no other, settles its task as the outcome says and adds one run for it |
| `ScanTaskEffects.FailIsComplete` | app/services/scan_queue.py:543-571 | An unexpected failure settles the task of its holder as failed with an internal error and adds no run |
| `ScanTaskEffects.CancelIsComplete` | app/services/scan_queue.py:614-635 | A cancel settles exactly the pending task of the device as cancelled and touches no other |
| `ScanQueue.TaskTables.RenewScanLeases` | app/services/task_leases.py:146-175 | A requested id that is not returned is held by the worker with its lease counted from now; a returned one is gone, settled, another worker's or expired; every other task is unchanged |
| `ScanQueue.TaskTables.PersistOutcome` | app/services/scan_queue.py:389-428 | Is the persist step; a lost lease is reported and changes nothing |
| `ScanQueue.TaskTables.PersistWithFallback` | app/services/scan_queue.py:369-443 | After a transaction conflict the run consists of the rolled-back attempt and one persist of a failed outcome |
| `ScanQueue.TaskTables.FailUnexpectedTask` | app/services/scan_queue.py:543-571 | Is the failure step; a lost lease is reported and changes nothing |
| `ScanQueue.TaskTables.CancelDevice` | app/services/scan_queue.py:614-635 | Cancels a pending task, refuses a running one, and answers whether the device has no active task left |
| `ImportTests.CompletionFiresOnce` | app/services/import_test_leases.py:20-49 | Over every run, the number of saves that report a batch is one if the run takes it from testing to completed, and none otherwise |
| `ImportTests.SaveReportsLast` | app/services/import_testing.py:284-314 | A save reports its batch if and only if it is accepted and its row was the last pending or running one |
| `ImportTests.ClaimNeverCompletes` | app/services/import_test_leases.py:112 | The refresh inside a claim, whose result is dropped, never completes a batch |
| `ImportTests.OneScanBatch` | app/services/scan_queue.py:294-315 | Over every run an import batch gets at most one scan batch, and keeps it |
| `ImportTests.HandOverIsExact` | app/services/scan_queue.py:301-315 | The scan batch has one item for exactly the collectible devices of the import batch's successful rows |
| `ImportTests.HandedOverExactly` | app/services/import_testing.py:321-358 | Over every run in which hand-overs follow normal ends of tests: an import batch gets its scan batch if and only if its last save was a normal end and the queue had room at the hand-over |
| `ImportTests.FailedEndLosesBatch` | app/services/import_testing.py:340-358 | If the save that completes a batch comes from a test that failed internally, the batch never gets a scan batch |
| `ImportTests.CompletionCanBeLost` | app/services/import_testing.py:340-358 | A concrete testing batch with one row still under test: the failed result saved after an internal failure completes it with a collectible device to scan and room in the queue, and no continuation of that run hands it over |
| `ImportTestLimits.StaleWorkerIsFenced` | app/services/import_testing.py:284-314 | From any state in which a worker does not hold a row, none of its renewals and saves changes the row until it claims again, by a sweep or a single claim |
| `ImportTestLimits.LimitBoundsLive` | app/services/import_test_leases.py:66-95 | Any rows skipped but time current: claims of both kinds never take the live tests over the limit |
| `ImportTestLimits.LimitBoundsRunning` | app/services/import_test_leases.py:66-95 | Stale timestamps allowed: while sweeps skip no running row and no single claim happens over an expired one, no more than the limit run |
| `ImportTestLimits.SingleClaimOverruns` | app/services/import_testing.py:209-231 | A concrete single claim, which does not sweep, that takes the running tests over the limit and the live ones not |
| `ImportTests.RenewalProtects` | app/services/import_test_leases.py:115-142 | A row a renewal does not report lost stays with its worker, in the same attempt, over every run before the new lease ends, unless its result is saved |
| `ImportQueue.ImportTables.RefreshImportBatches` | app/services/import_test_leases.py:20-49 | The loop recounts the given batches from their rows, completes exactly those without an open row, and returns exactly those completed for the first time |
| `ImportTestEffects.RefreshIsComplete` | app/services/import_test_leases.py:20-49 | A refresh counts the rows of each given batch by status, marks it completed with the current time exactly when no row is open, and reports the newly completed ones |
| `ImportTestEffects.RunCounts` | app/services/import_test_leases.py:20-49 | In every reachable state the stored counters of every batch are a recount of its rows |
| `ImportQueue.ImportTables.ClaimImportTests` | app/services/import_test_leases.py:52-112 | The sweep and start loops with one refresh are the claim step: which rows are taken, put back or left is spelled out column by column, ids ascending |
| `ImportTestEffects.ClaimIsComplete` | app/services/import_test_leases.py:52-112 | Every row after a claim: the taken ones are the smallest ready ids, as many as capacity and limit allow, and run for the worker; any other lapsed one waits again; all else is untouched |
| `ImportTestEffects.SingleClaimIsComplete` | app/services/import_testing.py:209-231 | A claim of one row takes it exactly if it is pending and fewer tests than the limit are on a lease |
| `ImportQueue.ImportTables.RenewImportTestLeases` | app/services/import_test_leases.py:115-142 | A requested row that is not returned is held by the worker with its lease counted from now; a returned one is gone, settled, another worker's or expired; every other row is unchanged |
| `ImportQueue.ImportTables.ClaimSpecific` | app/services/import_testing.py:209-231 | Is the step that claims one pending row, if the live tests are below the limit |
| `ImportQueue.ImportTables.SaveResult` | app/services/import_testing.py:284-314 | Is the save step: an accepted save leaves the row succeeded or failed as the result says, without worker, lease or heartbeat, all else as it was; a lost lease is reported and changes nothing |
| `ImportTestEffects.SaveIsComplete` | app/services/import_testing.py:284-314 | A save by the holder, and no other, settles its row as succeeded or failed, as it says |
| `ImportTestEffects.RowLife` | app/services/import_testing.py:284-314 | Over every run a row open at the start is succeeded at the end if and only if a save by its holder reported success, failed if and only if one reported failure, open otherwise; a settled row never changes |
| `ImportTestEffects.SettledOnce` | app/services/import_testing.py:284-314 | No row is settled twice in a run |
| `ImportTestEffects.HandOverServes` | app/services/scan_queue.py:294-315 | A hand-over that creates a scan batch queues the devices of the successful rows with priority 60 or higher, and only sets the scan batch of its import batch |
| `ImportQueue.ImportTables.CreateImportScanBatch` | app/services/scan_queue.py:294-325 | Is the hand-over step: none for an unknown batch, the existing scan batch if there is one, both without a change; else a new one, which the import batch then names, or a full queue and no change |
| `ImportQueue.ImportTables.EndTest` | app/services/import_testing.py:321-331 | The normal end of a test is its save, followed by the hand-over of the batch exactly when the save reports one |
| `ImportQueue.ImportTables.EndFailedTest` | app/services/import_testing.py:340-358 | The end after an internal failure is a claim of the row if it is pending again and the save of a failed result, with no hand-over |
| `TopologyCache.RunKeeps` | app/services/topology_cache.py:47-82 | The single-flight invariant holds after every interleaving of any number of callers, clears and direct puts |
| `TopologyCache.OneFlightPerKey` | app/services/topology_cache.py:58-77 | Two factory runs for one key never overlap |
| `TopologyCache.InflightHasOwner` | app/services/topology_cache.py:58-82 | A key has an in-flight entry if and only if one caller is computing, storing or leaving for it |
| `TopologyCache.WaitersAreWoken` | app/services/topology_cache.py:66-70 | No waiter waits on an event nobody will set: it is set, or its owner, who never waits, is on its way to setting it |
| `TopologyCache.ResultsAreGenuine` | app/services/topology_cache.py:54-79 | Each result is an entry unexpired at a time already past, a value this caller's own factory returned for its key, an error this caller itself raised, or the ordinary error raised for the same key by the owner of the flight it waited for |
| `TopologyCache.EntriesExpire` | app/services/topology_cache.py:40-45 | Over every interleaving no stored entry outlives the time to live |
| `TopologyCache.KilledFlightsShareNothing` | app/services/topology_cache.py:66-79 | Over every interleaving, no caller ends with the error of a flight whose owner was ended by an extraordinary error, and its woken waiters start over |
| `TopologyCache.Cache.Get` | app/services/topology_cache.py:29-38 | Is the machine's lookup: an entry is answered exactly while its expiry lies ahead, and otherwise the caller goes on to join and exactly that entry is dropped |
| `TopologyCache.Cache.Put` | app/services/topology_cache.py:40-45 | Is the machine's storing step: the payload stands under its key until the time to live has passed, and no other entry changes |
| `TopologyCache.StoredForTtl` | app/services/topology_cache.py:29-45 | What is put is found by every lookup before its time to live is over and by none from then on |
| `TopologyCache.OrdinaryErrorsAreShared` | app/services/topology_cache.py:66-79 | Once a factory raised an ordinary error, a waiter on its flight that goes on ends with that very error |
| `TopologyCache.Cache.ClearAll` | app/services/topology_cache.py:84-86 | Is the machine's clearing step, after which no lookup at any time finds anything |
| `TopologyCache.Cache.Join` | app/services/topology_cache.py:58-65 | The critical section makes a caller a waiter on the flight in progress for the key if there is one, and otherwise the owner of a new one; it is the machine's step |
| `TopologyCache.Cache.Finish` | app/services/topology_cache.py:79-82 | Giving up the key and setting the event are the machine's last two steps |
| `TransactionRunner.SlotsAreConserved` | app/services/database_transactions.py:84-104 | Over every interleaving, free slots plus threads inside equal the capacity, and a thread sleeping between attempts holds none |
| `TransactionRunner.OneSlotPerThread` | app/services/database_transactions.py:84-104 | Over every interleaving, however deep a thread nests guards and runs, the slots it took less those it gave back are one while it is inside any block and none otherwise |
| `TransactionRunner.NestedRunIsRefused` | app/services/database_transactions.py:111-112 | A run inside a guard or another run is refused and starts nothing; outside it is not |
| `TransactionRunner.RunsAreBounded` | app/services/database_transactions.py:106-145 | Every ended run made at most delays+1 attempts, committed at most once, and returned a value exactly if it committed |
| `TransactionRunner.Runner.RunTransaction` | app/services/database_transactions.py:106-145 | The retry loop is a run of the machine: the first attempt that does not conflict, or the last, decides: its value, a conflict, an unavailable database or its own error, each case spelled out; the delays slept are those before it; the slot is free again whatever happens |
| `TransactionRunner.Runner.Enter` | app/services/database_transactions.py:84-100 | With the thread's depth and the free slots shown by a machine state, is the machine's admission, and shows the state after it |
| `TransactionRunner.Runner.Exit` | app/services/database_transactions.py:93-104 | Is the machine's closing of a guard |

## Left out

- SSH and WinRM collection, HTTP routes, templates, JavaScript, spreadsheets, encryption, logging, migrations: input and output only; a collection result is arbitrary input.
- The order in which a hand-over queues its devices, which the code leaves to the database; the model takes the order of row ids.
- Row locks and isolation levels below whole transactions: the idealisation the advisory lock and `FOR UPDATE` stand for; skipped locked rows are arbitrary sets.
- A thread whose lease is lost may still do network work: the limits are about leases, not threads.
- Local sets of active and lost task ids, futures and wake-up events of the dispatchers: best-effort hints that change no table.
- Device deletion, which cascades to batch items without refreshing counters (`app/routes/api.py:557-561`): counter equality is about queue steps.
- Tests that run while an import still adds rows (`app/services/imports.py:247-401`).
- ImportQueue.ImportTables.ClaimSpecific: one atomic step, while `_claim_specific` reads its row before it takes the lock and does not lock the row.
- The unique key on `source_import_batch_id`: only the hand-over sets it, and `ImportTests.OneScanBatch` covers that.
- Between two committed chunks of `purge_expired_scans` a scan that is about to be deleted may rank among its device's two latest without all its raw rows; what holds then is `HistoryStore.InPurge`.
- Warnings, node order, last-scan fields of nodes, and the flag that drops connection lists from edges.
- The single-device graph `build_topology` and `diff_scans`: easy beside the cluster graph.
- Topology change notifications and cache clearing after a scan; freshness after a clear is not promised by the code.
- Leader election: an old leader notices a lost session late, so only one scheduler is not a property.
- An admission runner without a pool size, which has no semaphore at all.
- The order in which retention groups are purged, which `HistoryStore.Store.PurgeExpiredScans` shows not to matter.
