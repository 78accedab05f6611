# Verified model of climate-control

A Dafny model of a distributed room-climate system and proofs about it. The
system has three parts, and the main results run across them:

- the **API service** keeps users, rooms, devices, schedules and periods in a
  relational database and appends invalidation events to a stream;
- the **control service** keeps an in-memory cache of each room, refreshes it
  from the stream and from a ticker, averages telemetry and drives heaters and
  humidifiers by hysteresis;
- the **simulator** provisions rooms and devices through the API and simulates
  the rooms' physics and the devices' watchdogs.

`dafny verify dfyconfig.toml` checks the whole project.

## How it is laid out

| file | module | contents |
|---|---|---|
| `base.dfy`, `times.dfy` | Base, Times | shared types, sequences, clock texts |
| `tables.dfy` | Tables | the database, its constraints, the rows behind one room's cache entry |
| `api.dfy` | Api | every request as one step: new tables, events, reply |
| `api_integrity.dfy`, `api_capability.dfy`, `api_notify.dfy`, `api_loads.dfy` | ApiIntegrity, ApiCapability, ApiNotify, ApiLoads | what all requests keep and what they announce |
| `api_exact.dfy`, `api_runs.dfy` | ApiExact, ApiRuns | when requests are accepted and which undo which; a small run of accepted requests |
| `api_service.dfy` | ApiService | the services as an object, statement by statement, proved to do what Api says |
| `cache.dfy`, `appdb.dfy`, `appdb_load.dfy` | Cache, Appdb, Loading | the store on the heap, entry assembly, warm-up and reloads |
| `control.dfy`, `averages.dfy`, `control_order.dfy`, `control_rows.dfy`, `control_complete.dfy` | Control, Averages, ControlOrder, ControlRows, ControlComplete | one control tick |
| `end_to_end.dfy` | EndToEnd | from an accepted request to a command |
| `ingestion.dfy`, `runtime.dfy` | Ingestion, Runtime | telemetry buffers; ticks, telemetry and reloads interleaved on shared objects |
| `scheduler.dfy` | Scheduling | room goroutines, staggers, the tick |
| `stream.dfy`, `loops.dfy`, `device_sync.dfy` | Stream, Loops, DeviceSync | the invalidation protocol as a state machine over room entries; beside it the rooms whose loops run, and the device entries |
| `wire.dfy`, `consumer.dfy`, `drain.dfy` | Wire, Consuming, Draining | stream entries as fields; the consumer on the heap; the drain loop |
| `heat.dfy`, `plant.dfy`, `timing.dfy`, `watchdog.dfy` | Heating, Plant, Timing, Watchdog | the simulator |
| `loop.dfy`, `room_loop.dfy` | ClosedLoop, RoomLoop | controller and plant in a loop; the same loop on the program's objects |
| `switching.dfy` | Switching | how often ticks can switch an actuator |
| `identity.dfy`, `provisioning.dfy`, `provision_plan.dfy`, `provisioned.dfy`, `provisioner.dfy` | Identity, Provisioning, ProvisionPlan, Provisioned, Provisioner | provisioning |

## How to read it

- **Imperative code is imperative.** The store, its entries, the scheduler, the
  consumer, the room state, the actuator task and the API service are classes;
  loops of the program are loops. A Go map held by two cache entries is one
  object (`ReadingMap`, `StateMap`) held by two `RoomCache` objects, so sharing
  and replacement are real. Each method is proved against a function, and the
  theorems are about that function. The API service's methods that the table
  does not list are each proved to leave the tables, events and reply of their
  function in Api; `ServeAll` is about any sequence of them.
- **Queries** are comprehensions over finite tables; wherever the program takes
  rows or map entries in an unspecified order, the model takes any order.
- **Ids** come from a counter that never repeats. They stand for random UUIDs:
  nothing depends on their values, and it lets a resumed run be compared with
  an uncut one by plain equality.
- **One step per request.** A service method's database work is one step and
  its stream appends are later, separate steps. The consumer's reload is two
  steps, fetch and install; a refresh ticker's reload is either one step or
  two. In Runtime, where only the runtime fields matter, a reload is three:
  look-up, copy and install.
- **What an entry says.** `Content` is all a room's cache entry holds but for the
  order of its lists: of a device only its hardware id under known actuator
  types, of a time only its minutes. An entry is out of date when its content is
  not the one the rows give now; `UpToDateExactly` ties that to the entry.
- **Parameters** stand for what happens outside: whether a publish, an
  acknowledgement or a database read succeeds, the weekday and minute of a tick
  in the owner's timezone, which timezones load, publish outcomes, timestamps.
- **Numbers.** `float64` is `real`; times are whole nanoseconds, as `int`.

## Findings

Where the program does less than its documentation or a natural reading
promises, the model follows the program, gives an input that shows it, and
proves when the promise does hold.

- *Overlap check and one-digit hours.* The request binding accepts `9:00`; the
  overlap query compares times as text. `UnpaddedOrderMatters` is a run of
  accepted requests after which the effective state depends on row order;
  `OrderAgreesExactly` says which pairs of times are safe, `OrderIndependence`
  needs only that, and `OrderIndependenceExactly` says of any reachable tables
  when the order does not matter. For the same reason a period from 10:00 to
  9:00 is accepted and one from 9:30 to 10:00 is not (`ClockOrderMisjudged`).
- *Trimming.* `trimStale` is documented as safe because readings arrive in
  chronological order. With timestamps out of order a tick can miss a reading
  (`OutOfOrderTrimmingShows`); `TrimmingInvisibleExactly` is the exact
  condition on timestamps, and a tick at or after all of them always meets it.
- *LastActivePeriod.* Readings and actuator states survive every interleaving
  with a reload, because the maps are shared; `LastActivePeriod` is copied, and
  a tick that holds the old entry and sets it after the copy loses it
  (`LastPeriodSurvivesExactly`, for any run; `OneTickOneReload`, for the ten
  orders of one tick and one reload).
- *Split refresh.* If a refresh reads before a change and installs after the
  consumer has handled the change's events, it puts the old entry back with
  nothing pending, for every request that changes what the entry should say
  (`SplitRefreshUndoesReload`; `SplitRefreshHappens` is a run).
  `SplitRefreshExactly` is the exact condition, whatever happens in between.
- *Writes without events.* Deleting a schedule, device or user and changing the
  timezone never notify; `SilentChangesExactly` says when that leaves a room's
  entry out of date: a device's deletion, for one, exactly when it has an
  actuator of a known type. `SilentWriteHappens` is a run where it does.
- *Device entries.* They are reloaded by device events only, never by a refresh.
  Deleting a device that is in a room, its room or its owner tells nothing of it,
  so its telemetry keeps going to the room it had (`UntoldExactly`,
  `AdriftStays`); with nothing pending these are exactly the devices wrongly
  routed (`DrainedRoutingExactly`).
- *Stray loops.* A `room_created` that stays unacknowledged, because its reload
  or its acknowledgement failed, and is delivered again after the room's
  `room_deleted` was handled starts loops for no room: reloading a missing room
  succeeds (`StrayLoopsHappen` is a run). Deleting a user leaves the loops of
  their rooms running. `DrainedLoopsExactly`: with nothing pending, loops run for
  exactly the existing rooms if and only if neither happened since the start.
- *Drain.* The comment above `dispatch` says unparseable messages are
  acknowledged. One of a known event whose `room_id` is missing or does not
  parse, or a device event without `hw_id`, is not, and `drainPending` ends only
  on an empty list or a read error, so such an entry keeps it reading
  (`MalformedStays`). With rows that load and everything answering, the drain
  ends exactly if no pending entry is one of these (`DrainEndsForEntries`). A
  message without an event field, or with an unknown event, is acknowledged.
- *Capability.* `PeriodsHaveCapability` is documented for AUTO periods; its
  query takes every period with a target, whatever its mode, and so does the
  model. Creating or updating a period of an active schedule checks no
  capability: `CreatePeriodServedExactly` and `UpdatePeriodServedExactly` say
  when the schedule is served afterwards, `UnservedByCreation` and
  `UnservedByUpdate` are runs after which it is not.

## Model

| member | source | states |
|---|---|---|
| `Times.AcceptedParses` | device-service/internal/appdb/repository.go:558-572 | every time text the request binding accepts is parsed by parseTimeToMinutes, into a minute of the day below 1440 |
| `Times.OrderAgreesExactly` | api-service/internal/schedule/repository.go:170-178 | text order of two accepted times is their clock order exactly when they are of equal width, or the one-digit hour is below the other's tens digit, or, against a zero-padded time, is the later one |
| `Times.SameWidthAgree` | api-service/internal/schedule/repository.go:170-178 | two accepted times of the same width compare as text as they do in minutes |
| `ApiIntegrity.ApplyValid` | migrations/appdb/007_create_schedules.up.sql:3-18 | any request, accepted or refused, keeps references, unique keys, checks, one active schedule per room and disjoint periods |
| `ApiIntegrity.RunValid` | migrations/appdb/007_create_schedules.up.sql:17-18 | so does every sequence of requests |
| `ApiIntegrity.KeepsOneActive` | api-service/internal/schedule/repository.go:78-107 | activation, deactivation and deletions keep at most one active schedule per room |
| `ApiIntegrity.KeepsNoClash` | api-service/internal/schedule/service.go:164-286 | no two periods of one schedule overlap, in the overlap query's own sense, after any create, update or delete |
| `ApiIntegrity.RefusedChangesNothing` | api-service/internal/schedule/service.go:97-143 | a refused request changes no row and sends no event |
| `ApiIntegrity.DropRoomsReferences` | api-service/internal/room/repository.go:74-78 | a room's deletion with its cascades leaves no dangling reference; its devices become unassigned |
| `ApiNotify.ChangesAreNotified` | api-service/internal/events/events.go:18-93 | a request that changes what the control service would load for a room sends an event naming the room, or is one of the four writes that never notify |
| `ApiNotify.SilentChangesExactly` | api-service/internal/schedule/service.go:84-92 | the four writes without events (timezone, user, device and schedule deletion) leave a room's cache entry out of date exactly when: the zone differs; always; the device has an actuator of a known type; the schedule was active and had a period |
| `ApiNotify.TimezoneOutdates` | api-service/internal/user/service.go:58-68 | changing the timezone changes what the entry of each of the user's rooms should say exactly when the zone differs |
| `ApiNotify.ScheduleDeletionOutdates` | api-service/internal/schedule/service.go:85-92 | deleting a schedule changes what its room's entry should say exactly when it was active and had a period |
| `ApiNotify.DeviceDeletionOutdates` | api-service/internal/device/service.go:144-160 | deleting a device of a room changes what the room's entry should say exactly when the device has an actuator of a known type: its other columns are not in the entry, and no other device has its hardware id |
| `ApiNotify.DeletedStaysDeleted` | api-service/internal/room/service.go:114-126 | a deleted room's id never comes back |
| `ApiNotify.RoomDeletedIsTrue` | api-service/internal/events/events.go:31-38 | room_deleted is only sent for a room that is gone for good |
| `ApiCapability.ApplyServed` | api-service/internal/device/service.go:100-160 | every request keeps each AUTO room under manual control with a target, in range, served by a sensor and an actuator in the room; and each active schedule's targets served unless one of its periods was written since its activation |
| `ApiCapability.RunServed` | api-service/internal/room/service.go:167-221 | so does every sequence of requests, whichever services they go through |
| `ApiCapability.RemovalServed` | api-service/internal/device/repository.go:207-326 | a device that leaves its room after the capability check passes strands no desired state and no active period |
| `ApiCapability.NoConflictNoStranding` | api-service/internal/device/repository.go:207-228 | a negative answer of the check means no target of the desired state or of an active period is left without capability |
| `ApiCapability.CreatePeriodServedExactly` | api-service/internal/schedule/service.go:164-184 | a created period leaves its schedule served exactly when it was and the room's devices serve the new targets, which the service does not check |
| `ApiCapability.UpdatePeriodServedExactly` | api-service/internal/schedule/service.go:214-235 | an updated period leaves its schedule served exactly when the room serves the new targets and those of the other periods, which the service does not check |
| `ApiRuns.UnservedByCreation` | api-service/internal/schedule/service.go:164-184 | six accepted requests after which a room without devices has an active schedule with a temperature target |
| `ApiRuns.UnservedByUpdate` | api-service/internal/schedule/service.go:214-235 | the same by an accepted update of a period of the active schedule, which was served before |
| `ApiExact.DesiredStateExactly` | api-service/internal/room/service.go:167-221 | a desired state is accepted exactly when the room is the caller's, the targets are in range and manual AUTO control has a target, all of them servable; then the row is the one requested and nothing else changes |
| `ApiExact.RoomCreationExactly` | api-service/internal/room/service.go:74-86 | a room is created exactly when its owner has none of that name; it starts OFF, without override or targets, with the default deadbands 0.5 and 2.0 |
| `ApiExact.RoomUpdateExactly` | api-service/internal/room/service.go:88-112 | an update is accepted exactly when the room is the caller's, the name free and both resulting deadbands positive; then the room has the name, each deadband given, and the old value of each not given; nothing else changes |
| `ApiExact.PeriodCreationExactly` | api-service/internal/schedule/service.go:164-184 | a period is created exactly when the request is well formed, the schedule the caller's, the times in text order and no period of the schedule overlaps; the row holds each field of the request, and the room is told exactly if the schedule is active |
| `ApiExact.PeriodUpdateExactly` | api-service/internal/schedule/service.go:214-235 | the same for an update, which may overlap the period's own old times |
| `ApiExact.ActivationLoads` | api-service/internal/schedule/repository.go:76-100 | after an activation the control service loads exactly that schedule's periods for the room |
| `ApiExact.DeactivationExactly` | api-service/internal/schedule/service.go:126-143 | a schedule is deactivated exactly when owned and active; then only its flag changes and the room has no period left to load |
| `ApiExact.RenameExactly` | api-service/internal/schedule/service.go:69-82 | a schedule is renamed exactly when owned and the name is free in its room; this changes nothing the control service loads for any room |
| `ApiExact.ConflictExactly` | api-service/internal/device/repository.go:207-326 | the conflict check says yes exactly when the room's desired state or a period of its active schedule needs the device |
| `ApiExact.DeviceMoveUndone` | api-service/internal/device/service.go:100-142 | a device's change of room or name can be taken back exactly when the room it went to passes the conflict check without it; then the tables are as before |
| `ApiExact.DeviceCreationExactly` | api-service/internal/device/service.go:55-92 | a device is registered exactly when its type lists are known and without repetition and its hardware id and name are free; then it has exactly those types and no room |
| `ApiExact.ActivationExactly` | api-service/internal/schedule/service.go:97-123 | a schedule is activated exactly when owned, inactive and servable; then it is its room's only active one and other rooms are untouched |
| `ApiExact.PeriodCreationUndone` | api-service/internal/schedule/service.go:164-254 | a period created and deleted leaves the tables as they were but for a used-up id, tells the room both times or neither, and can be created again |
| `ApiExact.PeriodUpdateUndone` | api-service/internal/schedule/service.go:214-235 | an accepted update of a period can always be taken back, whatever it was changed to: no overlap with the old times can have come in between |
| `ApiExact.RoomCreationUndone` | api-service/internal/room/service.go:74-126 | a room created and deleted leaves the tables as they were but for a used-up id: the cascades take exactly what creation added |
| `ApiService.CheckTypes` | api-service/internal/device/service.go:56-76 | the declared types pass exactly when all are known and none is repeated; otherwise the first objection in list order is returned |
| `ApiService.Server.BulkRoomCapabilities` | api-service/internal/room/repository.go:154-205 | one entry per existing room asked for, equal to what the single-room query says |
| `ApiService.Server.InsertDevice` | api-service/internal/device/repository.go:144-177 | the transaction's loops give the device exactly the declared sensors and actuators |
| `ApiService.Server.ActivePeriodsConflict` | api-service/internal/device/repository.go:303-326 | true exactly when some period of the room's active schedule has a target without capability |
| `ApiService.Server.CapabilityConflictAfterRemoval` | api-service/internal/device/repository.go:207-228 | true exactly when removing the device would strand a target of the desired state or of an active period |
| `ApiService.Server.ActivateRows` | api-service/internal/schedule/repository.go:78-100 | the two updates of the transaction leave exactly this schedule of the room active |
| `ApiService.Server.ServeAll` | api-service/internal/schedule/service.go:35-254 | any sequence of requests through the services leaves the tables, sends the events, in order, and gives the replies of the one-step descriptions, with every constraint kept |
| `ApiLoads.EveryRoomLoads` | device-service/internal/appdb/repository.go:437-512 | after any run of requests every room's rows load: every stored time parses and every stored timezone is found |
| `Appdb.BuildPeriodCaches` | device-service/internal/appdb/repository.go:480-512 | succeeds exactly when every time parses; then, in the rows' order, each period has its row's id, mode, temperature target, humidity target and weekdays, and the row's times in minutes |
| `Appdb.BuildActuatorHwIds` | device-service/internal/appdb/repository.go:516-526 | lists, under each known type, the devices having it, and creates no empty list |
| `Appdb.BuildRoomCache` | device-service/internal/appdb/repository.go:437-476 | fails exactly on an unknown timezone or an unparseable time |
| `Appdb.EntryDescribes` | device-service/internal/appdb/repository.go:437-526 | an entry built from any order of the room's rows describes those rows: each active period once, each installed actuator once under its type |
| `Appdb.UpToDateExactly` | device-service/internal/appdb/repository.go:437-526 | an entry built from some rows is right for other rows exactly when both give the same timezone, deadbands, desired state, periods in minutes and hardware ids per known actuator type |
| `Appdb.BulkEqualsSingle` | device-service/internal/appdb/repository.go:94-269 | two entries built from the same room's rows, in any row orders, agree in everything but the order of periods and hardware ids |
| `Loading.FetchRoom` | device-service/internal/appdb/repository.go:214-254 | the per-room queries give an entry describing exactly the room's rows, or fail exactly when they cannot load |
| `Loading.ReloadRoom` | device-service/internal/appdb/repository.go:204-269 | replaces one entry by a new object describing the current rows and sharing the old object's runtime maps; removes the entry of a missing room; changes nothing on failure |
| `Loading.ReloadDevice` | device-service/internal/appdb/repository.go:273-297 | replaces or removes exactly the device's entry |
| `Loading.BuildDeviceCache` | device-service/internal/appdb/repository.go:531-555 | the entry has the device's row, sensors and actuators |
| `Loading.FetchBulk` | device-service/internal/appdb/repository.go:116-175 | the group-by maps hold, under every room and device, an ordering of exactly its own rows |
| `Loading.WarmCache` | device-service/internal/appdb/repository.go:94-199 | succeeds exactly when every single reload would; then exactly the existing rooms are cached, each describing the rows a reload would fetch, with empty runtime maps no two rooms share and no last period, and exactly the assigned devices |
| `Cache.Store.AddRoom` | device-service/internal/cache/cache.go:156-160 | maps exactly that room to the entry |
| `Cache.Store.DeleteRoom` | device-service/internal/cache/cache.go:166-170 | removes exactly that room |
| `Cache.Store.AddDevice` | device-service/internal/cache/cache.go:175-179 | maps exactly that device |
| `Cache.Store.DeleteDevice` | device-service/internal/cache/cache.go:184-188 | removes exactly that device |
| `Control.ResolveEffectiveState` | device-service/internal/control/control.go:65-124 | the search with its early exits gives the effective state that EffectiveStateExactly, GraceIsOneMinute and DecidedByRow characterise |
| `Control.FreshAverage` | device-service/internal/control/control.go:308-320 | mean and count of exactly the readings not older than the threshold, nothing when there are none: the value that OneMoreReading and OrderOfReadings determine |
| `Averages.OneMoreReading` | device-service/internal/control/control.go:308-320 | one more reading older than the threshold changes nothing; a fresh one raises the count by one and mean times count by its value, and is the mean if there was none; no readings, no mean |
| `Averages.OrderOfReadings` | device-service/internal/control/control.go:308-320 | any order of the same readings gives the same mean and count |
| `Control.CommandAllOff` | device-service/internal/control/control.go:228-239 | each listed actuator is commanded off exactly as often as it is listed, in any map order |
| `Control.EvaluateOrOff` | device-service/internal/control/control.go:247-303 | one type's actuators get one shared state: bang-bang with target and average, off without |
| `Control.Evaluate` | device-service/internal/control/control.go:145-219 | the tick's commands (CommandedExactly, CompleteCommandSet), log row (LogTellsTheState) and period to remember (Tick), over everything it reads |
| `ControlComplete.CompleteCommandSet` | device-service/internal/control/control.go:201-303 | for an entry built from the room's rows, in either mode, each installed actuator gets exactly one command and nothing else gets any; one type, one state |
| `ControlComplete.LogTellsTheCommands` | device-service/internal/control/control.go:161-170 | a cmd field is nil exactly when the room has no actuator of the type, and else the state commanded |
| `ControlComplete.NoTargetOrReadingMeansOff` | device-service/internal/control/control.go:265-276 | without a target or a fresh reading the actuators are commanded off |
| `ControlOrder.EffectiveStateExactly` | device-service/internal/control/control.go:62-124 | which source decides, as conditions on the entry's fields and the instant, and with what: a manual override not yet ended; else any period in force; else, on its days, the one minute from the end of the last period; else nothing, OFF |
| `ControlOrder.GraceIsOneMinute` | device-service/internal/control/control.go:105-119 | with no override and no period in force, the last period still decides in the minute it ends at; at every later minute of the day, and without a last period, the room is OFF without targets |
| `ControlRows.PeriodsByRow` | device-service/internal/appdb/repository.go:480-512 | an entry has one copy of each period row of the room's active schedule and nothing else, equal to it field by field |
| `ControlRows.EntryByRow` | device-service/internal/appdb/repository.go:437-526 | the rest of an entry is the room's own deadbands, its owner's timezone, its desired state, and under each known type the hardware ids of the devices in the room that have it |
| `ControlRows.DecidedByRow` | device-service/internal/control/control.go:65-103 | the decision over the database's rows: the desired state's mode and targets while its override lasts; otherwise a schedule exactly if a period row of the active schedule is on at that weekday and minute, and then the mode and targets stored in one such row |
| `ControlRows.CommandedExactly` | device-service/internal/control/control.go:247-303 | a heater type is commanded on exactly under AUTO with a temperature target and a fresh mean below target minus temperature deadband, or not above target plus deadband while last recorded on; a humidifier by humidity |
| `ControlRows.LogTellsTheState` | device-service/internal/control/control.go:151-199 | each field of the log row over the effective state and the readings: means and counts whatever the mode, the period exactly for schedule and grace, a deadband exactly beside a target |
| `EndToEnd.ColdMeansOn` | device-service/internal/control/control.go:281-302 | under a manual override to AUTO a fresh mean below the band switches on every heater, or humidifier, the database places in the room |
| `EndToEnd.OverriddenRoomIsServed` | api-service/internal/room/service.go:167-221 | after any run of requests a room under a manual override to AUTO has a target, and for each target a sensor and an actuator in the room which a tick that measures too little switches on: the API's capability checks and the controller agree |
| `ControlOrder.OrderFreeExactly` | device-service/internal/control/control.go:88-103 | the lookup gives the same period for every order of the rows, at every time, exactly when no two of them are ever in force together |
| `ControlOrder.OneInForce` | api-service/internal/schedule/repository.go:163-185 | in a valid database with agreeing times at most one active period of a room matches at any minute |
| `ControlOrder.PaddedTimesAgree` | api-service/internal/schedule/repository.go:170-178 | zero-padded times agree with their minutes |
| `ControlOrder.OrderIndependence` | device-service/internal/control/control.go:65-124 | after any run of requests, if the room's active times agree with their minutes, two entries for the room resolve alike whatever order their queries returned |
| `ControlOrder.OrderIndependenceExactly` | api-service/internal/schedule/repository.go:163-185 | for the tables of any run: all entries for a room, whatever order its rows came in, resolve alike at every tick not manually overridden exactly when no two active periods share a day and a minute of it |
| `ControlOrder.AlikeExactly` | device-service/internal/control/control.go:65-124 | at one tick without an override, all entries for a room's rows resolve alike exactly when at most one of its periods is in force |
| `ControlOrder.UnpaddedOrderMatters` | api-service/internal/schedule/handler.go:33-34 | six accepted requests, one with a one-digit hour, after which two active periods meet and one instant resolves to OFF or to AUTO depending on the query's order |
| `ControlOrder.InForceExactly` | api-service/internal/schedule/service.go:263-286 | a stored period is in force at some minute of the day exactly when its times are in clock order; the service requires text order |
| `ControlOrder.ClockOrderMisjudged` | api-service/internal/schedule/service.go:263-266 | the service accepts a period from 10:00 to 9:00, which is never in force, and refuses one from 9:30 to 10:00 |
| `Ingestion.TrimStale` | device-service/internal/ingestion/ingestion.go:151-158 | drops exactly the stale readings at the head |
| `Ingestion.Resolve` | device-service/internal/ingestion/ingestion.go:97-104 | keeps, in order, exactly the readings the device has a sensor for |
| `Ingestion.AppendReadings` | device-service/internal/ingestion/ingestion.go:118-129 | each resolved reading appended and its buffer trimmed, in order |
| `Ingestion.Process` | device-service/internal/ingestion/ingestion.go:70-147 | a message of a known, assigned device of a cached room updates that room's buffers and yields one row per resolved reading, with its measure and value, the room and the message's time; any other message changes nothing |
| `Ingestion.IngestBuffers` | device-service/internal/ingestion/ingestion.go:119-128 | per measure, a message's samples are accepted in order into that measure's buffer only |
| `Ingestion.BufferIsSuffix` | device-service/internal/ingestion/ingestion.go:118-158 | the buffer is the history from its first reading that is not outdated on |
| `Ingestion.TrimmingInvisibleExactly` | device-service/internal/control/control.go:308-320 | at any tick the trimmed buffer has the fresh readings of the whole history exactly when no fresh reading is outdated (older than some later message by more than the threshold) together with all readings before it |
| `Ingestion.TrimmingInvisible` | device-service/internal/control/control.go:308-320 | at a tick not before any timestamp in the history, the average, count and presence are those of the untrimmed history |
| `Ingestion.OutOfOrderTrimmingShows` | device-service/internal/ingestion/ingestion.go:149-158 | with timestamps out of order, a tick at the last message's time can miss a reading that was trimmed |
| `Ingestion.OrderedBufferExact` | device-service/internal/ingestion/ingestion.go:149-158 | with timestamps in order the buffer is exactly the readings within the threshold of the last message |
| `Runtime.Actors.Interleave` | device-service/internal/appdb/repository.go:256-266 | for any interleaving of ticks, telemetry and reloads' look-up, copy and install steps on one room, the installed entry holds the one shared readings map and the one shared state map, with the content of a run on a single room |
| `Runtime.ReloadsInvisible` | device-service/internal/appdb/repository.go:256-266 | readings and actuator states after a run are those of the same run without its reloads |
| `Runtime.NoReadingLost` | device-service/internal/ingestion/ingestion.go:118-129 | each buffer is the buffer of every reading accepted in the run, also of those written through replaced entries |
| `Runtime.LastRecordedStands` | device-service/internal/scheduler/scheduler.go:187-189 | an actuator type's state is the one last recorded, through whichever entry |
| `Runtime.LastPeriodSurvivesExactly` | device-service/internal/scheduler/scheduler.go:193-197 | over any run, with any number of ticks and reloaders: the last LastActivePeriod set is what the room ends up with exactly when the final entry is the one the tick held or descends from it by copies taken after the write; otherwise the run ends as if it had not been set |
| `Runtime.TickOutsideReloadsStands` | device-service/internal/scheduler/scheduler.go:193-197 | set through the current entry with no reload under way, it stands through all reloads that follow |
| `Runtime.OneTickOneReload` | device-service/internal/appdb/repository.go:256-266 | so of the ten orders of a tick's two and a reload's three steps, the period set survives exactly those where it is set before the copy or the entry is grabbed after the install |
| `Scheduling.Scheduler.StartRoom` | device-service/internal/scheduler/scheduler.go:113-127 | cancels the room's previous pair, registers the new one, and owes two more waits |
| `Scheduling.Scheduler.AddRoom` | device-service/internal/scheduler/scheduler.go:83-86 | the same, for a room that may already be running |
| `Scheduling.Scheduler.RemoveRoom` | device-service/internal/scheduler/scheduler.go:90-102 | cancels and unregisters exactly that room; unknown rooms change nothing |
| `Scheduling.Scheduler.Start` | device-service/internal/scheduler/scheduler.go:67-79 | one pair per stored room, with both stagger offsets |
| `Scheduling.Scheduler.OneLivePair` | device-service/internal/scheduler/scheduler.go:113-127 | two uncancelled contexts of one room are the same |
| `Scheduling.Scheduler.WaitMeansAllExited` | device-service/internal/scheduler/scheduler.go:106-108 | the wait group is at zero exactly when every goroutine of every pair has exited; while a room is active it is not |
| `Scheduling.Play` | device-service/internal/scheduler/scheduler.go:83-127 | over any sequence of additions and removals, redelivered or not, the rooms with a live pair are those last added, and two waits are owed per addition |
| `Scheduling.GapsEven` | device-service/internal/scheduler/scheduler.go:72-75 | offsets lie in [0, T) and each pause, the wrap included, is T/n rounded down or up; so offsets never decrease |
| `Scheduling.LongGapsExactly` | device-service/internal/scheduler/scheduler.go:72-75 | exactly T mod n of the n pauses are rounded up |
| `Scheduling.Publish` | device-service/internal/scheduler/scheduler.go:176-190 | records the state of exactly the commands that were published |
| `Scheduling.Tick` | device-service/internal/scheduler/scheduler.go:165-202 | evaluates the stored entry, records what was published; if no override decides and a period is in force, one such period is the remembered one afterwards, otherwise the remembered one stays; skips a missing room |
| `Scheduling.TicksIntoGrace` | device-service/internal/scheduler/scheduler.go:193-197 | a tick with a period in force, any ticks without one, then a tick in the minute the remembered period ends: it is logged as grace period with that period's id, mode and targets; at any other minute with nothing deciding it is OFF without targets |
| `Scheduling.RecordedExactly` | device-service/internal/scheduler/scheduler.go:183-190 | after the loop a type's state is the commanded one if any of its commands went out, and unchanged otherwise |
| `Stream.StaleImpliesPending` | device-service/internal/stream/consumer.go:190-277 | in every run a room whose entry does not say what one built from the current rows would has an event owed, unread or unacknowledged, or was left out of date by a silent write or an outdated refresh and not reloaded since |
| `Stream.NextKeepsInv` | device-service/internal/stream/consumer.go:190-287 | every single step of API, stream, consumer, refresh and restart keeps the strengthened invariant, including between a reload's fetch and its install |
| `Stream.DrainedMeansEqual` | device-service/internal/stream/consumer.go:116-130 | with nothing pending and nothing unrepaired the cache is exactly what a fresh warm-up would load |
| `Stream.NotifyingRunsNeedNoRepair` | api-service/internal/events/events.go:99-108 | with notifying calls and single-step refreshes only, nothing is ever left unrepaired |
| `Stream.SilentWriteExactly` | api-service/internal/device/service.go:144-160 | from a drained, in-sync state a write without an event leaves the room's entry out of date, with nothing pending, exactly under that condition on the tables before it |
| `Stream.SilentWriteHappens` | api-service/internal/user/service.go:58-68 | a run of the whole system that ends drained and in sync, where changing the owner's timezone then leaves the room stale with nothing pending |
| `Stream.SplitRefreshExactly` | device-service/internal/scheduler/scheduler.go:232-236 | whatever happens between a refresh's read and its install, the room's entry is out of date after the install exactly when it should no longer say what it should have said at the read; a drained stream stays drained |
| `Stream.SplitRefreshUndoesReload` | device-service/internal/scheduler/scheduler.go:208-237 | so every request that changes what a room's entry should say, deletions and moves between two rooms included, is undone if the refresh reads before it and installs after the consumer handled all its events: in sync before the install, out of date and drained after it |
| `Stream.SplitRefreshHappens` | device-service/internal/scheduler/scheduler.go:232-236 | a run of the whole system in which a refresh undoes the reload after a deadband update |
| `Stream.RefreshRepairs` | device-service/internal/scheduler/scheduler.go:208-237 | refreshing a list of rooms brings exactly those in sync, whatever is pending |
| `Loops.LoopsFollowRooms` | device-service/internal/stream/consumer.go:228-248 | in every run, loops of a room that is gone have its room_deleted owed, unread or unacknowledged, or went astray; a room without loops has its room_created still to come |
| `Loops.AdvanceKeeps` | device-service/internal/stream/consumer.go:190-248 | every step of API, stream, consumer, refresh and restart keeps that, between a reload's fetch and its install as well |
| `Loops.DrainedLoopsExactly` | device-service/internal/scheduler/scheduler.go:83-102 | with nothing pending, the rooms with loops are exactly the existing rooms if and only if, since the process started, no room_created was handled for a room already gone with no room_deleted of it still to come, and no owner of a room with loops was deleted |
| `Loops.StraysStay` | api-service/internal/user/service.go:44-50 | loops gone astray run on, for a room that does not exist, through everything but a restart |
| `Loops.StrayLoopsHappen` | device-service/internal/appdb/repository.go:204-212 | a run in which a room_created fails, the room is deleted and that handled, and the first event is delivered again after a restart: it ends with nothing pending, no room, and loops for one |
| `DeviceSync.RoutingChangesAreTold` | api-service/internal/device/service.go:100-142 | a request that changes which room a device's telemetry goes to, or what is kept of it, sends a device event naming it, or deletes the device, its room or its owner |
| `DeviceSync.DisplacedExactly` | api-service/internal/room/service.go:114-126 | those three deletions do take each device that was in a room out of it, and tell nothing of it |
| `DeviceSync.MisroutedImpliesPending` | device-service/internal/stream/consumer.go:261-277 | in every run a device routed otherwise than the tables say has a device event owed, unread or unacknowledged, or was displaced untold and not reloaded since |
| `DeviceSync.DrainedRoutingExactly` | device-service/internal/appdb/repository.go:273-297 | with nothing pending, exactly those last devices are wrongly routed: their entries still name a room, the tables none |
| `DeviceSync.UntoldExactly` | api-service/internal/device/service.go:144-160 | a request that tells nothing of a device leaves it wrongly routed, nothing pending about it, exactly if it deletes the device, its room or its owner while the device is in a room |
| `DeviceSync.AdriftStays` | device-service/internal/scheduler/scheduler.go:208-237 | no refresh and no event about its room ever repairs such a device; only a device event naming it or a restart does |
| `Wire.EventsArrive` | device-service/internal/stream/consumer.go:190-277 | what a notify function writes into an entry the consumer reads back as that event, if ids are read as they were written |
| `Wire.SentIsReadable` | api-service/internal/events/events.go:24-93 | no request sends an entry the consumer skips or cannot read |
| `Consuming.StreamHandles` | device-service/internal/stream/consumer.go:190-277 | the protocol's dispatch and install are what the handlers do to the cache, and the entry is acknowledged exactly when its handler succeeds |
| `Consuming.Consumer.OnRoomCreated` | device-service/internal/stream/consumer.go:228-238 | reload, then start the room's loops only if the reload succeeded |
| `Consuming.Consumer.OnRoomDeleted` | device-service/internal/stream/consumer.go:240-248 | stop the room's loops and drop its entry |
| `Consuming.LoopsHandle` | device-service/internal/stream/consumer.go:228-248 | so are the rooms with loops: a handled room_created adds its room, a room_deleted takes it away |
| `Consuming.Consumer.OnDeviceChanged` | device-service/internal/stream/consumer.go:261-277 | reload the device, then the room; exactly that device's entry is the row's afterwards, also when the room's reload then fails |
| `Consuming.Consumer.Dispatch` | device-service/internal/stream/consumer.go:190-222 | store, devices, live rooms and pending list after one entry, read from its fields: acknowledged exactly when handled; an entry of a known event with a field missing or not parsing is not |
| `Draining.DrainPending` | device-service/internal/stream/consumer.go:116-130 | the loop leaves the pending list and the dispatch order of its rounds, and ends only on an empty list or a failed read; with an unreadable entry pending, only on a failed read |
| `Draining.DrainTerminates` | device-service/internal/stream/consumer.go:116-130 | if every non-empty batch acknowledges an entry, the list is empty after at most its length in rounds, each entry dispatched |
| `Draining.MalformedStays` | device-service/internal/stream/consumer.go:215-218 | an entry of a known event without a room_id that parses, or of a device event without hw_id, is pending after any number of rounds, whatever database and server answer |
| `Draining.DrainEndsExactly` | device-service/internal/stream/consumer.go:116-130 | with all reads and acknowledgements succeeding, the drain empties the list exactly if no pending entry is malformed |
| `Draining.DrainEndsForEntries` | device-service/internal/stream/consumer.go:261-269 | as a condition on the entries' fields: none pending is of a known event and lacks a room_id that parses or, being about a device, a hw_id |
| `Draining.DrainOnceInOrder` | device-service/internal/stream/consumer.go:161-180 | with every acknowledgement succeeding, each pending entry is dispatched exactly once, in id order |
| `Heating.RoomState.SetContribution` | simulator-service/internal/simulator/room_state.go:47-52 | files the rates under the key and brings the sums up to date |
| `Heating.RoomState.ClearContribution` | simulator-service/internal/simulator/room_state.go:57-62 | removes the key, if any, and brings the sums up to date |
| `Heating.RoomState.RecomputeHeatInput` | simulator-service/internal/simulator/room_state.go:79-86 | the nested loops leave, per type, the sum over all contributions, in any map order |
| `Heating.SumFrom` | simulator-service/internal/simulator/room_state.go:81-85 | the sum does not depend on which contribution is taken first |
| `Heating.KeysDiffer` | simulator-service/internal/simulator/simulator.go:174-178 | two actuators never share a contribution key when type names contain no slash |
| `Heating.PlaySwitches` | simulator-service/internal/simulator/room_state.go:47-86 | after any interleaving of commands each type's heat input is the sum of the rates of its actuators whose last command was on |
| `Plant.Advance` | simulator-service/internal/simulator/model.go:63-80 | the delta of each measurement, zero without parameters or with zero thermal mass |
| `Plant.AdvanceRoom` | simulator-service/internal/simulator/simulator.go:214-235 | every measurement moves by its delta and is clamped; bounded ones end within bounds |
| `Plant.StepTowards` | simulator-service/internal/simulator/model.go:73-76 | one step leaves exactly the fraction 1 - dt*c/m of the distance to equilibrium |
| `Plant.Converges` | simulator-service/internal/simulator/simulator.go:214-235 | from within bounds towards an equilibrium within bounds, clamping never fires and after n steps the distance is (1 - dt*c/m)^n times the first |
| `Plant.NoOvershoot` | simulator-service/internal/simulator/model.go:63-80 | the value stays on its side of equilibrium and never moves away |
| `Plant.OvershootsExactly` | simulator-service/internal/simulator/model.go:73-76 | one unclamped step overshoots exactly when dt*c/m exceeds 1 |
| `Watchdog.ActuatorTask.OnCommand` | simulator-service/internal/simulator/simulator.go:159-186 | a command of this actuator's type sets or clears its contribution and restarts the watchdog; others change nothing |
| `Watchdog.ActuatorTask.OnWatchdog` | simulator-service/internal/simulator/simulator.go:193-201 | clears the contribution exactly when the timeout has elapsed |
| `Watchdog.ActuatorTask.Play` | simulator-service/internal/simulator/simulator.go:154-206 | over any sequence of commands and ticks, last command and contribution are those of the value-level watch |
| `Watchdog.GoneBeforeTwoTimeouts` | simulator-service/internal/simulator/simulator.go:188-205 | strictly before two timeouts after its last command the contribution is gone |
| `Watchdog.AlmostTwoTimeouts` | simulator-service/internal/simulator/simulator.go:188-205 | the bound is tight |
| `Watchdog.NeverClearedWhileFed` | simulator-service/internal/simulator/simulator.go:193-201 | while gaps between commands stay below the timeout the watchdog changes nothing, at any moment |
| `Watchdog.LostCommandTolerated` | simulator-service/internal/config/config.go:124-126 | with the configured timeout, commands never more than two control ticks apart keep the watchdog from changing anything |
| `Watchdog.SilenceAnswered` | simulator-service/internal/config/config.go:124-126 | strictly before six control ticks after its last command the contribution is gone |
| `Timing.Derive` | simulator-service/internal/config/config.go:381-387 | the publish interval is the tick scaled down, but not below the minimum; the simulated tick is the larger of the base tick and the scaled-up minimum |
| `Timing.StableExactly` | simulator-service/internal/config/config.go:22-31 | with the base constants, exactly which simulated ticks and scales keep the model's step share at most 1 |
| `ClosedLoop.ClosedLoopBound` | device-service/internal/control/control.go:247-320 | with at most w fresh readings per tick and steps of at most s, a room starting in [T-D, T+D] stays in [T-D-w*s, T+D+w*s] over runs of any length |
| `ClosedLoop.ClosedLoopBoundInNumbers` | simulator-service/internal/simulator/model.go:63-79 | the same with s computed from the parameters, assuming nothing of the run but its timing |
| `ClosedLoop.StreakDecides` | device-service/internal/control/control.go:281-288 | once all of the last w readings lie above (below) the band the tick commands off (on), on the trimmed buffer |
| `ClosedLoop.SpacedRoundsFresh` | device-service/internal/control/control.go:311-313 | readings at least g apart, with w*g above the threshold, leave at most w fresh |
| `RoomLoop.Rig.DoRound` | simulator-service/internal/simulator/simulator.go:122-144 | one round on the program's objects (advance the room, ingest its reading, tick, deliver the commands) is one round of the loop |
| `RoomLoop.Rig.RunRounds` | device-service/internal/scheduler/scheduler.go:165-202 | so the simulated room's temperature itself stays within the loop's bound, over any number of rounds |
| `Switching.SwitchingBound` | device-service/internal/control/control.go:278-302 | over any run of AUTO ticks with fixed target and deadband, fresh readings and successful publishes, (changes of the recorded state - 1) * 2 * deadband is at most the total variation of the averages of the buffers those ticks read |
| `Switching.TickDecides` | device-service/internal/scheduler/scheduler.go:165-190 | after such a tick's publishes the recorded state is the bang-bang decision on the state recorded before it |
| `Switching.RunTicks` | device-service/internal/scheduler/scheduler.go:165-190 | messages processed and ticks run in turn on the store make such a run: each tick finds the states the one before recorded |
| `Identity.HwIdsDiffer` | simulator-service/internal/provisioning/provisioning.go:308-310 | generateHwID is injective in (name, user, room, device), whatever the name contains |
| `Identity.EmailsDiffer` | simulator-service/internal/provisioning/provisioning.go:304-306 | different users of a run have different emails |
| `Identity.RoomNamesDiffer` | simulator-service/internal/provisioning/provisioning.go:167-167 | different rooms of a user have different names |
| `Provisioning.Settles` | simulator-service/internal/provisioning/provisioning.go:161-298 | a call the run goes on after leaves true what it was for, and only adds rows |
| `Provisioning.HoldsKept` | simulator-service/internal/provisioning/provisioning.go:161-298 | no later compatible call undoes it, across the services' capability checks |
| `Provisioning.NotDoneAgain` | simulator-service/internal/provisioning/provisioning.go:169-179 | repeating a call that holds changes nothing and does not stop the run |
| `Provisioning.Resumable` | simulator-service/internal/provisioning/provisioning.go:51-119 | a compatible run cut after any call and done again from the start ends as the uncut run does |
| `Provisioning.Idempotent` | simulator-service/internal/provisioning/provisioning.go:51-119 | a complete run done again changes nothing |
| `ProvisionPlan.PlanCompatible` | simulator-service/internal/provisioning/provisioning.go:161-310 | the calls of any configuration are compatible: each device has one room, each room one desired state and one schedule |
| `ProvisionPlan.ProvisioningResumes` | simulator-service/internal/provisioning/provisioning.go:51-119 | so every configuration's run is resumable and idempotent |
| `Provisioner.ProvisionRoom` | simulator-service/internal/provisioning/provisioning.go:167-179 | create, or on a name conflict take the listed room; it succeeds exactly when the planned call does, because a room in conflict was listed at the start of the user |
| `Provisioner.ProvisionOneDevice` | simulator-service/internal/provisioning/provisioning.go:218-246 | create or find, then assign; succeeds exactly when both planned calls do, otherwise stops at the one that fails |
| `Provisioner.ListRooms` | simulator-service/internal/provisioning/provisioning.go:85-88 | roomsByName maps exactly the user's rooms, by name |
| `Provisioner.ListDevices` | simulator-service/internal/provisioning/provisioning.go:89-92 | devicesByHwID maps exactly the user's devices, by hardware id |
| `Provisioner.RoomsUntouched` | simulator-service/internal/provisioning/provisioning.go:165-210 | no call for an earlier room of the user makes this room or any of its devices, so the listings still decide |
| `Provisioner.ProvisionSchedule` | simulator-service/internal/provisioning/provisioning.go:261-298 | create or find the schedule, create its periods skipping overlaps, activate; succeeds exactly when all these calls do |
| `Provisioner.ProvisionRooms` | simulator-service/internal/provisioning/provisioning.go:161-210 | all planned calls of the user's rooms in order, stopping exactly at the first that fails; the rooms returned are the database's, each with its planned devices |
| `Provisioner.Provision` | simulator-service/internal/provisioning/provisioning.go:51-119 | succeeds exactly if every planned call does in turn; then the tables are as those calls leave them and the users, rooms and devices returned are the planned ones, and every place of the configuration is as RunLeaves says; a failed run is a cut one; either way doing it again ends as the whole run would |
| `Provisioned.EveryCopyHasItsPlace` | simulator-service/internal/provisioning/provisioning.go:161-210 | every copy of every room definition, for every copy of its user group, is a place of the run, numbered in order |
| `Provisioned.RunLeaves` | simulator-service/internal/provisioning/provisioning.go:183-210 | after a successful run every place has its room; with a desired state, every cache entry for the room resolves to AUTO with exactly these targets, as manual override, until the end of 9999, and sensors and actuators in the room serve them; its schedule is the room's only active one, with each configured period present or overlapped by one from before the run or another configured one; its devices stand in the room under their names, new ones with the declared sensors and actuators |
| `Provisioned.DesiredHolds` | simulator-service/internal/api/client.go:215-231 | a desired state set by the provisioner is mode AUTO with the configured targets, decides over any schedule for good, and is served by the room's devices |
| `Provisioned.PeriodAsConfigured` | simulator-service/internal/provisioning/provisioning.go:261-298 | if the schedule has no period from before the run and its configured periods do not overlap, each is stored with its days, times, mode and targets |
| `Provisioner.HandedIsThere` | simulator-service/internal/provisioning/provisioning.go:236-246 | after a successful run every returned device is the user's and in the returned room, also after the calls for later devices and rooms |
| `Provisioner.HandedOnce` | simulator-service/internal/provisioning/provisioning.go:27-46 | what a run returns is fixed by the tables it ends in |
| `Provisioner.ProvisionTwice` | simulator-service/internal/provisioning/provisioning.go:1-5 | a second run returns the same rooms and devices as the first and after a success changes no table; after a failure it fails too |

## Left out

- HTTP handlers and routing (beyond the checks they make on a period request), authentication, password hashing, JSON, MQTT, Redis and database clients, logging, health servers, metrics storage and the web client: plumbing, or library calls.
- Interleaving inside one service method: its check and its write are one step, as if in one transaction.
- Locks: critical sections are steps; data races between the two locks that can guard one shared map are not modelled.
- Stream trimming and failing appends: an append always succeeds and no entry is trimmed; the consumer group exists before the first warm-up.
- The queries of one reload, or of one warm-up, read the tables at one moment.
- NUMERIC(5,2) rounding of stored targets and deadbands, float rounding, int16 counts, Duration overflow, years beyond the indefinite override.
- Text in the database compares code unit by code unit, as under the C collation.
- Sensor noise, room noise and the two-decimal rounding of published readings are zero or absent.
- parseTimeToMinutes: the range error of Atoi for numbers beyond 64 bits, which cannot come through the request binding.
- Read-only requests of the API (List, ListByRoom, attachCapabilities, climate history and its buckets): they change nothing and no other part depends on them.
- Device entries of unassigned devices: DeviceSync compares what an entry routes, so an entry that names no room counts as none, as it does for telemetry.
- Teardown of a simulation: it deletes each simulated user, one request of the API each.
- Password mismatches at login: a login succeeds exactly if the user exists.
- Provisioner.Provision: repeated definitions are unrolled before the loops, the credentials file is not written, an unknown actuator type in the configuration is not represented, and a run cut by a lost connection is a prefix of the calls (ProvisionPlan.ProvisioningResumes), not an outcome of the program.
- Scheduling.Scheduler.Start: ticker firing itself is not modelled, only which loops run and when they start.
- ClosedLoop.ClosedLoopBound: one thermometer and one heater, one reading per tick, every command delivered, so the watchdog never clears; RoomLoop does the rounds in this order.
- Watchdog.GoneBeforeTwoTimeouts: ticks are handled on time, and a command is one step with its timestamp.
- Simulator configuration files, templates and overrides: only the timing derivation, base constants, timeout multiple and measurement bounds are used.
- Ownership of rooms by partition: every room is owned.
- The setter of a cached device's room is never called and has no counterpart; the field is fixed when the entry is built.
