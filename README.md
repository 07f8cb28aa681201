# IMC Manager: service control and dashboard logic in Dafny

This project models the decision-making core of the IMC Manager. The
IMC Manager is a Spring Boot management API in front of the three RAG
pipeline services (`hdfswatcher`, `textproc`, `embedproc`), plus a React
dashboard. The model covers five parts.

- **Registry** (`registry.dfy`) models `ServiceRegistryService`.
  - It keeps an in-memory table from service name to last status and
    check time. Start, stop, toggle and the periodic health check change
    one entry at a time.
  - Start and stop succeed only on an exact 200 OK from the service.
  - The health check reads the service's processing state. It records
    `STARTED` only when `enabled` or `processing` is the boolean `true`.
  - The listing has one entry per discovered pipeline service, in fixed
    order.
- **Controller** (`controller.dfy`) models `ServiceController`.
  - It builds the status, start, stop and toggle responses, and the
    pipeline overview roll-up, using Java's integer division.
  - Four proxied endpoints first check that the service is listed, and
    handle `embedproc` specially.
  - The restart sequence collects ordered `results` and `errors`.
- **Dashboard** (`dashboard.dfy`) models the `Dashboard` and `Sidebar`
  components of `App.tsx`.
  - Each poll maps a component's reply to STARTED, STOPPED or IDLE using
    JavaScript truthiness, and the whole table is replaced at once.
  - It models the summary cards, the health label with its colour and
    emoji, the per-card ERROR label, and which navigation link is
    highlighted.
  - It also compares this logic with the API's: the health roll-ups, and
    how each side reads the same state reply.
- **Telemetry** (`telemetry.dfy`) models the `EnhancedTelemetry` diagram.
  - The topology is nine nodes and nine edges. Three node statuses
    follow the deployed application behind them.
  - It covers the colour tables, the metric grids with their `||`
    fallbacks, and the particles on data-flow edges.
  - The database-server URL is cached for five minutes.
  - A click on a node is routed to an action.
- **Http** (`http.dfy`) holds shared definitions: JSON values,
  JavaScript truthiness, and remote replies.

Remote calls are a `Network`: a function from URL to reply. The reply is a
status code with an optional JSON object body, or an exception message.
Service discovery is a map from service name to instance URIs. The clock is
an integer argument `now`, in milliseconds.

Points about the program's behaviour worth knowing when reading the model:
- A component is active on the dashboard when its field is *truthy*. The
  API's health check instead wants the boolean `true`.
  `Dashboard.ReadingsDiffer` shows a reply that the two sides read
  differently.
- The HEALTHY rule that depends on error events holds only on the
  dashboard. The API ignores events. `Dashboard.DashboardAgreesWithOverview`
  pins down exactly where the two roll-ups differ.
- Start and stop need an exact 200 from the downstream service, not any
  2xx. The proxied endpoints do accept any 2xx.
- The overview status takes only the values HEALTHY, DEGRADED and
  CRITICAL, and an empty listing is HEALTHY.
- The restart answer has an `errors` entry only when some step failed.
- The database-server URL cache is a pair of `let` variables inside the
  component function, created anew each time the component body runs. The
  model gives it its own object (`Telemetry.DbServerCache`), so the
  five-minute rule holds only as long as that object lives.

## Model

| member | source | states |
|---|---|---|
| Registry.Rank | imc-manager-api/src/main/java/com/insurancemegacorp/imcmanager/service/ServiceRegistryService.java:28-30 | A name's position in the fixed service order; below 3 exactly for the three pipeline services |
| Registry.ServiceUrl | imc-manager-api/src/main/java/com/insurancemegacorp/imcmanager/service/ServiceRegistryService.java:168-171 | No URL iff discovery has no instance; otherwise the first instance's URI |
| Registry.DisplayName | imc-manager-api/src/main/java/com/insurancemegacorp/imcmanager/service/ServiceRegistryService.java:177-184 | The name itself is returned exactly for names outside the pipeline services |
| Registry.Description | imc-manager-api/src/main/java/com/insurancemegacorp/imcmanager/service/ServiceRegistryService.java:186-193 | "RAG Pipeline Service" exactly for names outside the pipeline services |
| Registry.HealthFromReply | imc-manager-api/src/main/java/com/insurancemegacorp/imcmanager/service/ServiceRegistryService.java:150-165 | The result is one of STARTED, STOPPED or ERROR. It is ERROR iff the reply is not a 200 with a body. It is STARTED iff `enabled` or `processing` is the boolean true |
| Registry.HealthStatus | imc-manager-api/src/main/java/com/insurancemegacorp/imcmanager/service/ServiceRegistryService.java:142-166 | UNKNOWN iff the service has no URL; otherwise the reading of the reply to its state query |
| Registry.ServiceState | imc-manager-api/src/main/java/com/insurancemegacorp/imcmanager/service/ServiceRegistryService.java:115-132 | Each case has its own result: "Service not found" with no URL; the body (or an empty map) on 200; the exception message when the call throws; a generic error on any other code |
| Registry.ServiceRegistry.constructor | imc-manager-api/src/main/java/com/insurancemegacorp/imcmanager/service/ServiceRegistryService.java:25 | The status table starts empty |
| Registry.ServiceRegistry.GetServiceStatus | imc-manager-api/src/main/java/com/insurancemegacorp/imcmanager/service/ServiceRegistryService.java:60-62 | None iff nothing is recorded for the name; otherwise the recorded entry |
| Registry.ServiceRegistry.UpdateServiceStatus | imc-manager-api/src/main/java/com/insurancemegacorp/imcmanager/service/ServiceRegistryService.java:173-175 | Only the given name's entry changes; every other entry is unchanged |
| Registry.ServiceRegistry.GetAvailableServices | imc-manager-api/src/main/java/com/insurancemegacorp/imcmanager/service/ServiceRegistryService.java:37-58 | Only discovered pipeline services are listed, each exactly once, in fixed order. Each entry has the first instance's URI and the recorded status, or UNKNOWN with no check time |
| Registry.ListingFaithful | imc-manager-api/src/main/java/com/insurancemegacorp/imcmanager/service/ServiceRegistryService.java:40-55 | For any names in pipeline order, the listing names only discovered services from them, names every one of them, keeps their order, and builds each entry from the table |
| Registry.ListingEntries | imc-manager-api/src/main/java/com/insurancemegacorp/imcmanager/service/ServiceRegistryService.java:40-55 | Every entry of the listing belongs to a discovered service among the names and carries that service's URL, display name, description and recorded status |
| Registry.ListingComplete | imc-manager-api/src/main/java/com/insurancemegacorp/imcmanager/service/ServiceRegistryService.java:40-55 | Every service among the names that discovery reports an instance for appears in the listing |
| Registry.ListingOrdered | imc-manager-api/src/main/java/com/insurancemegacorp/imcmanager/service/ServiceRegistryService.java:40-55 | When the names are in pipeline order, so is the listing |
| Registry.ServiceRegistry.StartService | imc-manager-api/src/main/java/com/insurancemegacorp/imcmanager/service/ServiceRegistryService.java:64-83 | True iff there is a URL and the start POST got 200. In that case exactly that entry becomes STARTED; otherwise the table is unchanged |
| Registry.ServiceRegistry.StopService | imc-manager-api/src/main/java/com/insurancemegacorp/imcmanager/service/ServiceRegistryService.java:85-104 | True iff there is a URL and the stop POST got 200. In that case exactly that entry becomes STOPPED; otherwise the table is unchanged |
| Registry.ServiceRegistry.ToggleService | imc-manager-api/src/main/java/com/insurancemegacorp/imcmanager/service/ServiceRegistryService.java:106-113 | Stops iff STARTED is on record, otherwise starts (also when nothing is recorded). A successful toggle flips whether STARTED is on record |
| Registry.ServiceRegistry.CheckServiceHealth | imc-manager-api/src/main/java/com/insurancemegacorp/imcmanager/service/ServiceRegistryService.java:142-166 | Exactly that entry becomes the health status, stamped with the check time |
| Registry.ServiceRegistry.MonitorHealth | imc-manager-api/src/main/java/com/insurancemegacorp/imcmanager/service/ServiceRegistryService.java:134-140 | One monitoring round refreshes every pipeline service's entry and leaves all other entries as they were |
| Registry.Accepted | imc-manager-api/src/main/java/com/insurancemegacorp/imcmanager/service/ServiceRegistryService.java:66-78 | A start or stop can be accepted only for a service that discovery has an instance of |
| Registry.Entry | imc-manager-api/src/main/java/com/insurancemegacorp/imcmanager/service/ServiceRegistryService.java:42-53 | A listing entry carries the name, its first instance's URI, its display name and description, and its recorded status or UNKNOWN |
| Registry.Listing | imc-manager-api/src/main/java/com/insurancemegacorp/imcmanager/service/ServiceRegistryService.java:40-55 | A listing has at most one entry per given name |
| Controller.StatusResponse | imc-manager-api/src/main/java/com/insurancemegacorp/imcmanager/web/ServiceController.java:26-33 | 404 iff no status is recorded; 200 with the status otherwise |
| Controller.CommandResponse | imc-manager-api/src/main/java/com/insurancemegacorp/imcmanager/web/ServiceController.java:41-69 | 200 with status "success" iff the command succeeded, else 400 with "error"; the body has exactly status and message |
| Controller.StartEndpoint | imc-manager-api/src/main/java/com/insurancemegacorp/imcmanager/web/ServiceController.java:41-49 | The response reflects whether the start was accepted, and the table changes only on success |
| Controller.StopEndpoint | imc-manager-api/src/main/java/com/insurancemegacorp/imcmanager/web/ServiceController.java:51-59 | The response reflects whether the stop was accepted, and the table changes only on success |
| Controller.ToggleEndpoint | imc-manager-api/src/main/java/com/insurancemegacorp/imcmanager/web/ServiceController.java:61-69 | On 200 the STARTED record is flipped; on 400 the table is unchanged |
| Controller.CountStarted | imc-manager-api/src/main/java/com/insurancemegacorp/imcmanager/web/ServiceController.java:75-77 | The active count is at most the total, and equals it exactly when every service is STARTED |
| Controller.OverallStatus | imc-manager-api/src/main/java/com/insurancemegacorp/imcmanager/web/ServiceController.java:79-80 | HEALTHY iff active equals total; DEGRADED iff not, and active is above total/2 in integer division; CRITICAL otherwise |
| Controller.PipelineOverview | imc-manager-api/src/main/java/com/insurancemegacorp/imcmanager/web/ServiceController.java:71-89 | The active count is the number of STARTED entries. HEALTHY iff all are STARTED (so also for none). DEGRADED iff not all are, and active is above total/2 in integer division. CRITICAL iff active is at most total/2 and the total is not zero |
| Controller.FindService | imc-manager-api/src/main/java/com/insurancemegacorp/imcmanager/web/ServiceController.java:96-99 | None iff no listed service has the name; a result always has the name |
| Controller.FindServiceFirst | imc-manager-api/src/main/java/com/insurancemegacorp/imcmanager/web/ServiceController.java:96-99 | The service found is the first listed one with the name |
| Controller.Complete | imc-manager-api/src/main/java/com/insurancemegacorp/imcmanager/web/ServiceController.java:112-118 | A forwarded call gives 200 with the body iff the reply is 2xx with a body. Any other reply gives 400 with the step's failure message as `error`; an exception gives 400 with its prefix plus the message |
| Controller.FilesStep | imc-manager-api/src/main/java/com/insurancemegacorp/imcmanager/web/ServiceController.java:91-110 | "Service not found" iff the name is not listed; otherwise a forwarded GET to the service's /api/files, with the fetch-files failure message and exception prefix |
| Controller.ReprocessStep | imc-manager-api/src/main/java/com/insurancemegacorp/imcmanager/web/ServiceController.java:122-143 | "Service not found" iff the name is not listed; otherwise a forwarded POST to /api/reprocess-all, with the reprocess failure message and exception prefix |
| Controller.ResetStep | imc-manager-api/src/main/java/com/insurancemegacorp/imcmanager/web/ServiceController.java:155-184 | "Service not found" when the name is not listed; "Reset not supported" for embedproc; a forwarded POST to /api/processing/reset iff the name is listed and is not embedproc, failing with "Failed to reset processing" or "Error resetting processing: " plus the message |
| Controller.ProcessedPath | imc-manager-api/src/main/java/com/insurancemegacorp/imcmanager/web/ServiceController.java:221 | /api/files/processed iff the name is textproc, else /files/processed |
| Controller.ProcessedStep | imc-manager-api/src/main/java/com/insurancemegacorp/imcmanager/web/ServiceController.java:196-225 | "Service not found" when not listed; an empty file list for embedproc; otherwise a forwarded GET to the processed-files path, failing with "Failed to get processed files" or "Error getting processed files: " plus the message |
| Controller.NotFoundBeforeAnyCall | imc-manager-api/src/main/java/com/insurancemegacorp/imcmanager/web/ServiceController.java:101-103 | For an unlisted name all four proxied endpoints answer "Service not found", whatever the network does |
| Controller.StopSteps | imc-manager-api/src/main/java/com/insurancemegacorp/imcmanager/web/ServiceController.java:248-262 | One stop step per name, in the order given |
| Controller.ResultsAppend | imc-manager-api/src/main/java/com/insurancemegacorp/imcmanager/web/ServiceController.java:240-241 | Results and errors of a sequence of steps are the concatenation of those of its parts |
| Controller.StepsAccounted | imc-manager-api/src/main/java/com/insurancemegacorp/imcmanager/web/ServiceController.java:249-261 | Every step lands in exactly one place: one result, one error, or skipped |
| Controller.UnlistedServiceSkipped | imc-manager-api/src/main/java/com/insurancemegacorp/imcmanager/web/ServiceController.java:255 | A service that is not listed contributes neither a result nor an error |
| Controller.ThrowingStopIsOneError | imc-manager-api/src/main/java/com/insurancemegacorp/imcmanager/web/ServiceController.java:259-261 | A listed service whose stop call throws adds exactly its one error message |
| Controller.RestartStep | imc-manager-api/src/main/java/com/insurancemegacorp/imcmanager/web/ServiceController.java:250-261 | Skipped iff the service is not listed; a failure iff the listed service's call throws, with the prefix and the message; otherwise the step's result text |
| Controller.ClearStep | imc-manager-api/src/main/java/com/insurancemegacorp/imcmanager/web/ServiceController.java:264-277 | Skipped iff hdfswatcher is not listed. It fails iff the POST to its /api/clear throws, and the error is "Failed to reset hdfsWatcher files: " plus the message; otherwise it records "Reset hdfsWatcher files" |
| Controller.ResetTextStep | imc-manager-api/src/main/java/com/insurancemegacorp/imcmanager/web/ServiceController.java:279-292 | Skipped iff textproc is not listed. It fails iff the POST to its /api/processing/reset throws, and the error is "Failed to reset textProc: " plus the message; otherwise it records "Reset textProc processing" |
| Controller.RestartSteps | imc-manager-api/src/main/java/com/insurancemegacorp/imcmanager/web/ServiceController.java:248-292 | Five steps in order: the stops of hdfswatcher, textproc and embedproc, then the clear and the textproc reset |
| Controller.Attempt | imc-manager-api/src/main/java/com/insurancemegacorp/imcmanager/web/ServiceController.java:265-277 | One guarded call appends exactly that step's result or error |
| Controller.RestartPipeline | imc-manager-api/src/main/java/com/insurancemegacorp/imcmanager/web/ServiceController.java:237-318 | The answer is always 200 "success". Its results and errors are those of the three stops and two resets, in order. It has an `errors` entry iff some step failed |
| Controller.RestartResponse | imc-manager-api/src/main/java/com/insurancemegacorp/imcmanager/web/ServiceController.java:309-317 | The answer is 200 "success" with the results, plus an `errors` entry iff the errors list is non-empty |
| Dashboard.PollState | imc-manager-web/src/App.tsx:157-176 | IDLE iff the reply is not a readable 2xx. STARTED only if the status field, `enabled` or `processing` is truthy; STOPPED only if none is |
| Dashboard.CollectComponentStates | imc-manager-web/src/App.tsx:154-177 | The new table has exactly one entry per component, and that entry is the component's own poll result |
| Dashboard.DashboardState.constructor | imc-manager-web/src/App.tsx:150 | The component-state table starts empty |
| Dashboard.DashboardState.CheckAllComponentStates | imc-manager-web/src/App.tsx:153-179 | The whole table is replaced by one whose keys are exactly the three components |
| Dashboard.ActiveComponents | imc-manager-web/src/App.tsx:189 | The active count is at most the number of entries, and equals it exactly when all are STARTED |
| Dashboard.ActiveBounded | imc-manager-web/src/App.tsx:189 | The STARTED entries are a subset of the table, and the whole of it exactly when all are STARTED |
| Dashboard.Lower | imc-manager-web/src/App.tsx:188 | Lower-casing keeps the length, maps each capital to its own lower-case letter, leaves every other character alone, and leaves no capital letter |
| Dashboard.ErrorEvents | imc-manager-web/src/App.tsx:187-188 | The error count is at most the total. It is zero iff no event is an error, and the total iff all are |
| Dashboard.ErrorStatusAnyCase | imc-manager-web/src/App.tsx:188 | "ERROR" and "Error" count as errors; a missing status and "errors" do not |
| Dashboard.HealthLabel | imc-manager-web/src/App.tsx:251-252 | HEALTHY iff all are active and there are no error events. Otherwise DEGRADED iff active is above half the total (real division), else CRITICAL |
| Dashboard.HealthColour | imc-manager-web/src/App.tsx:248-249 | Green iff healthy; red iff not healthy and active is at most half the total |
| Dashboard.HealthEmoji | imc-manager-web/src/App.tsx:256-257 | The green circle iff healthy; the red circle iff not healthy and active is at most half the total |
| Dashboard.ColourAndEmojiFollowLabel | imc-manager-web/src/App.tsx:247-257 | The text colour and the emoji take the same three-way split as the label |
| Dashboard.RealHalfIsIntHalf | imc-manager-web/src/App.tsx:249 | For whole numbers, being above n/2 on reals is the same as being above n/2 in integer division |
| Dashboard.DashboardAgreesWithOverview | imc-manager-web/src/App.tsx:251-252 | With no error events the dashboard and the API give the same label. With some, they differ exactly when every service is active |
| Dashboard.DashboardHealthy | imc-manager-web/src/App.tsx:248-251 | On the three-component dashboard, HEALTHY iff every entry is STARTED and no event is an error |
| Dashboard.PipelineNames | imc-manager-web/src/App.tsx:125-147 | The three configured components have distinct names |
| Dashboard.DisplayedState | imc-manager-web/src/App.tsx:294 | A component missing from the table is shown as IDLE |
| Dashboard.StateLabel | imc-manager-web/src/App.tsx:297-329 | The badge reads ERROR exactly for IDLE, and the state's own name otherwise |
| Dashboard.CardShowsError | imc-manager-web/src/App.tsx:164-176 | After a poll, a card shows ERROR exactly when its reply was not a readable 2xx |
| Dashboard.ApiStartedIsDashboardStarted | imc-manager-web/src/App.tsx:167-168 | A reply the API reads as STARTED is also STARTED on the dashboard |
| Dashboard.ReadingsDiffer | imc-manager-web/src/App.tsx:164-168 | `enabled: "yes"` is STOPPED for the API but STARTED here. A 202 with `enabled: true` is ERROR for the API, which wants exactly 200, but STARTED here, where any `res.ok` is read |
| Dashboard.IsActive | imc-manager-web/src/App.tsx:89 | A navigation link is active iff the location equals its target |
| Dashboard.AtMostOneActive | imc-manager-web/src/App.tsx:88-110 | At most one navigation link is highlighted, and none on the settings page |
| Telemetry.NatToString | imc-manager-web/src/components/EnhancedTelemetry.tsx:103 | The digits of a number are non-empty and all decimal, with a leading zero only for 0 itself |
| Telemetry.DigitsRoundTrip | imc-manager-web/src/components/EnhancedTelemetry.tsx:103 | Reading back the digits of a number gives the number |
| Telemetry.CanonicalRoundTrip | imc-manager-web/src/components/EnhancedTelemetry.tsx:103 | A canonical digit string is exactly the printed form of the number it denotes, the other half of the round trip |
| Telemetry.IntToString | imc-manager-web/src/components/EnhancedTelemetry.tsx:103 | A number's string starts with '-' iff the number is negative. What follows is a canonical digit string, with no leading zero except for 0, and it reads back as the number |
| Telemetry.OptionalToString | imc-manager-web/src/components/EnhancedTelemetry.tsx:103 | `?.toString()` is undefined exactly on null or undefined, and otherwise the value's string |
| Telemetry.Or | imc-manager-web/src/components/EnhancedTelemetry.tsx:97-145 | `v || fallback` gives v when it is truthy, else the fallback, so it is truthy whenever the fallback is non-empty |
| Telemetry.FindApp | imc-manager-web/src/components/EnhancedTelemetry.tsx:157-159 | None iff no application has the name; otherwise the first one that does |
| Telemetry.BackedStatus | imc-manager-web/src/components/EnhancedTelemetry.tsx:169 | A backed node is healthy iff its application is present and exactly ACTIVE, and stopped otherwise |
| Telemetry.BackedUrl | imc-manager-web/src/components/EnhancedTelemetry.tsx:171 | A present application's `url` becomes the node's service URL; without an application there is none |
| Telemetry.TelemetryComponents | imc-manager-web/src/components/EnhancedTelemetry.tsx:156-256 | Nine nodes with fixed ids. The generator, HDFS sink and processor follow their applications' status and URL; all other nodes are healthy with no URL |
| Telemetry.NodeAt | imc-manager-web/src/components/EnhancedTelemetry.tsx:156-256 | The node at each position has that position's id; the three application-backed nodes take their status and URL from their application, the rest are healthy with no URL |
| Telemetry.FindNode | imc-manager-web/src/components/EnhancedTelemetry.tsx:835-836 | None iff no node has the id; otherwise a node with that id |
| Telemetry.ConnectionsWellFormed | imc-manager-web/src/components/EnhancedTelemetry.tsx:259-269 | Every edge's source and target is a node id, and no edge is a loop |
| Telemetry.DrawnConnections | imc-manager-web/src/components/EnhancedTelemetry.tsx:834-838 | Exactly the edges of the given list whose two ends are both nodes are drawn |
| Telemetry.AllConnectionsDrawn | imc-manager-web/src/components/EnhancedTelemetry.tsx:834-838 | An edge list whose ends are all nodes is drawn in full |
| Telemetry.TopologyDrawn | imc-manager-web/src/components/EnhancedTelemetry.tsx:822-838 | Whatever applications are deployed, all nine edges are drawn |
| Telemetry.EdgeStroke | imc-manager-web/src/components/EnhancedTelemetry.tsx:868 | Purple iff the edge is external, blue otherwise |
| Telemetry.ArrowFill | imc-manager-web/src/components/EnhancedTelemetry.tsx:892 | Blue iff the edge is data-flow, grey otherwise |
| Telemetry.Particles | imc-manager-web/src/components/EnhancedTelemetry.tsx:876-882 | Three particles on a data-flow edge and none otherwise; particle i starts after 800·i ms and travels 2000+500·i ms |
| Telemetry.ScheduleParticles | imc-manager-web/src/components/EnhancedTelemetry.tsx:876-882 | The loop schedules exactly those particles |
| Telemetry.ParticlesPerDataFlowEdge | imc-manager-web/src/components/EnhancedTelemetry.tsx:876-882 | The particle count is three per data-flow edge |
| Telemetry.DiagramParticles | imc-manager-web/src/components/EnhancedTelemetry.tsx:259-269 | The diagram animates 24 particles |
| Telemetry.StrokesAgree | imc-manager-web/src/components/EnhancedTelemetry.tsx:901-933 | Halo and circle strokes agree, and each status has its own colour and glow. The grid border and value colour match the stroke for healthy and stopped |
| Telemetry.HaloStroke | imc-manager-web/src/components/EnhancedTelemetry.tsx:901-909 | For the healthy and stopped statuses the halo stroke is the grid border's colour |
| Telemetry.MainStroke | imc-manager-web/src/components/EnhancedTelemetry.tsx:925-933 | The main circle's stroke always equals the halo's |
| Telemetry.HaloFilter | imc-manager-web/src/components/EnhancedTelemetry.tsx:912-919 | The faint grey glow is used exactly for a stopped node |
| Telemetry.GridStroke | imc-manager-web/src/components/EnhancedTelemetry.tsx:1004 | The grid border is green exactly for a healthy node |
| Telemetry.ValueFill | imc-manager-web/src/components/EnhancedTelemetry.tsx:1040 | The value colour matches the grid border exactly for a healthy node |
| Telemetry.NodesHealthyOrStopped | imc-manager-web/src/components/EnhancedTelemetry.tsx:156-256 | Every node is healthy or stopped, so it is drawn green or grey |
| Telemetry.NewMetrics | imc-manager-web/src/components/EnhancedTelemetry.tsx:94-149 | A grid is built for exactly the nine node ids |
| Telemetry.AllMetricValuesShown | imc-manager-web/src/components/EnhancedTelemetry.tsx:94-149 | Every value in every grid is truthy |
| Telemetry.QueueDepthShown | imc-manager-web/src/components/EnhancedTelemetry.tsx:103 | A queue depth of 0 shows "0"; an absent one shows the fallback "42" |
| Telemetry.EmptyAnswerGivesFallbacks | imc-manager-web/src/components/EnhancedTelemetry.tsx:65-74 | The `{}` answer on failure gives each of the nine grids its fixed fallback labels and values |
| Telemetry.DisplayedMetrics | imc-manager-web/src/components/EnhancedTelemetry.tsx:981-986 | A node's own grid when there is one. Otherwise Status/Health, which read "..." iff still loading |
| Telemetry.MetricsView.constructor | imc-manager-web/src/components/EnhancedTelemetry.tsx:61-62 | No grids yet, and loading |
| Telemetry.MetricsView.UpdateComponentMetrics | imc-manager-web/src/components/EnhancedTelemetry.tsx:89-153 | An answer replaces every grid and ends loading. A null answer changes nothing |
| Telemetry.EveryNodeHasMetrics | imc-manager-web/src/components/EnhancedTelemetry.tsx:981 | After an update every node shows its own grid |
| Telemetry.ResolveDbServerUrl | imc-manager-web/src/components/EnhancedTelemetry.tsx:456-487 | The URL is never empty. It is the Cloud Foundry URL unless discovery answers 2xx with at least one instance; then it is that first instance's scheme://host:port, or the Cloud Foundry URL when the instance is null |
| Telemetry.FirstInstance | imc-manager-web/src/components/EnhancedTelemetry.tsx:465-466 | For an array: an instance iff it is non-empty, and then its first element. For an object: an instance iff its `length` is above zero, and then its "0" entry. Nothing for a number, boolean, null or undefined |
| Telemetry.DiscoveredAddress | imc-manager-web/src/components/EnhancedTelemetry.tsx:465-467 | A 2xx answer whose first instance has a scheme, host and port gives scheme://host:port, whatever instances follow |
| Telemetry.ArrayLikeAddress | imc-manager-web/src/components/EnhancedTelemetry.tsx:462-467 | An array-like answer with a positive `length` gives the address of its "0" entry |
| Telemetry.DbServerCache.constructor | imc-manager-web/src/components/EnhancedTelemetry.tsx:443-444 | Nothing is cached |
| Telemetry.Fresh | imc-manager-web/src/components/EnhancedTelemetry.tsx:449 | A fresh cache holds a URL and a time, and now is less than five minutes after that time |
| Telemetry.DbServerCache.GetDbServerUrl | imc-manager-web/src/components/EnhancedTelemetry.tsx:447-488 | A fresh cache is returned unchanged without lookup. Otherwise the lookup's URL is returned and cached with the current time |
| Telemetry.CachedForFiveMinutes | imc-manager-web/src/components/EnhancedTelemetry.tsx:445-452 | A lookup at time t is served from the cache exactly until t + 300000 ms |
| Telemetry.OnClick | imc-manager-web/src/components/EnhancedTelemetry.tsx:1065-1082 | Non-clickable nodes ignore clicks. Greenplum opens the scoring panel. A non-empty service URL is opened. The host is told the id and URL exactly for the other clickable nodes |
| Telemetry.DiagramClicks | imc-manager-web/src/components/EnhancedTelemetry.tsx:1065-1082 | Hadoop HDFS and the log sink ignore clicks, and only application-backed nodes open a URL, their application's |

## Left out

- HTTP transport, `RestTemplate` and `fetch`, and service discovery are given as inputs: a `Network` and a discovery map. `RestTemplate`'s default error handler turns a 4xx or 5xx answer into an exception. On the Java side such answers therefore arrive as `Threw`, whose message text is not modelled. This is a convention on the `Network` argument that no Java-side member requires: given a network that answers `Reply(500, …)`, Controller.RestartStep records the step as done, where the program records an error.
- Controller.FindService: the controller's second guard (a listed service whose URL is null) cannot fire, because every listing entry is built with its instance's URI. The model has no null URL.
- The scheduler thread, `ConcurrentHashMap` thread safety and the 10-second polling intervals are not modelled. One health round and one dashboard poll are modelled sequentially.
- Dashboard.CollectComponentStates: the polls run concurrently in the dashboard. The model runs them in order and requires distinct component names. With duplicate names the outcome would depend on which call finished last.
- `encodeURIComponent` on component names is the identity for the configured names and is not modelled.
- A JSON reply body is an object or absent. A top-level array, string or number as a state or proxy body is not modelled. For the metrics and discovery answers any JSON value is modelled, within the number conversion noted under Telemetry.AboveZero below.
- JavaScript numbers are integers in the model: no fractions, NaN or infinities. `toLowerCase` is modelled for ASCII letters only.
- The rest of `EnhancedTelemetry` is not modelled: D3 drawing, node coordinates beyond their values, the Bezier particle paths (floating point), particle respawning on animation end, hover effects, the DOM side panels (`showSafeDriverScoringPanel`, tabs, `loadSafeDriverData`) and the timed recalculation animation.
- Number and date formatting (`toFixed`, `toLocaleString`) is not modelled.
- Telemetry.AboveZero: a string (or an array's text) counts as above zero only when it is a run of decimal digits with a positive value; JavaScript also accepts surrounding whitespace, a sign, a fraction, an exponent and hex, octal or binary prefixes, which the model reads as not above zero.
- Telemetry.IntToString: JavaScript's `String(n)` switches to exponent form ("1e+21") for magnitudes of 10^21 and more; the model always writes plain decimal digits.
- The SSE hook is not modelled; `recent` is an input list of events, of which only `status` is read.
- Controller.RestartPipeline: the outer catch that turns an unexpected exception into a 400 is not modelled. Inside it only `getAvailableServices()` can throw, when discovery fails; discovery is an input map here, so that failure is outside the model.
- Writing to the console is not modelled.
- SecurityConfig.java, WebConfig.java, ApiController.java and ImcManagerApplication.java are not part of this model. They hold framework configuration, constant maps and bootstrap code.
