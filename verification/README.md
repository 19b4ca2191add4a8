# OCAP recorder: a verified model

This project models three parts of the OCAP mission recorder and proves what they promise.

* **The v1 export** (`internal/storage/memory/export/v1`). `Build` fills an entity array in place and returns the whole
  export; `Stream` writes the same document token by token, one entity at a time. Both are methods proved against
  specification functions (`ExportSpec`, `ExportTypes`), for any printing of single records (`ExportTypes.Format`) and
  for the printing the code uses (`V1Rows`). The writer appends JSON tokens; encoding a JSON value is a function that is
  proved injective, so the two forms are compared as token sequences, commas and brackets included.
* **The recorder** (`internal/worker`, `internal/cache`, `internal/storage/memory`). `MemoryBackend` and `Worker` are
  classes that change caches and backend in place, with the two marker indexes sharing record objects. Every handler is
  proved to take the step of one state machine over values (`Recorder`), and invariants over all runs of that machine are
  in `RecorderProofs` and `MissionExport`.
* **The concurrent protocols**: the buffered, gated queues of the dispatcher (`Dispatcher`), background saving
  (`MissionSave`) and the batch writer of the database backend (`BatchWriter`), each a transition system in which every
  list of actions is an interleaving. `Timeline` joins queues, handlers and export end to end,
  and `MissionBoundary` says what one mission leaves to the next. `Quotes` covers the quoted
  string arrays of the game.

## Main results

* The comment on `Stream` says that its output is JSON-equivalent to encoding `Build(data)`. For records filed under
  their own IDs, which every recorded mission has (`RecorderProofs.ReachableDataOk`), this holds **if and only if**
  `Equivalence.AgreeOn` does: the mission has no entity at all, or the largest ID is below 65535, no ID is both a soldier
  and a vehicle, and every bullet line inside the entity list was fired by a soldier
  (`Equivalence.StreamEqualsBuild`, `MissionExport.EveryMissionExports`). The forms differ on recorded missions:
  `MissionExport.VehicleGunnerDiffers` and `MissionExport.LargestIdDiffers` give two families.
* Every entry of the exported document is what was recorded: from the commands of a mission to the data
  (`RecordedContents.ExportIsLogged`), from the data to entities, events frame by frame and markers
  (`ExportContents.StreamSlotReads`, `BuildSlotReads`, `EventsBySource`, `MarkersByKind`, `DocumentReads`), and from these
  to the entries of the v1 rows (`V1Reading`). None of these is stated through the functions that compute the export.
* For any mission data, `Build` has one possible outcome over all orders of walking its maps **if and only if** it
  panics, or vehicles of one ID look the same and so do soldiers of one ID that no vehicle covers
  (`Equivalence.OneOutcomeExact`). Records filed under their own IDs meet this (`Equivalence.BuildDeterministic`).
* Gap filling yields one entry per frame exactly when capture frames never decrease (`GapFill.LengthExact`), and each
  entry is then the newest state (`GapFill.FillExact`), up to the delete frame or the last frame of the mission
  (`Equivalence.SoldierTimeline`); the ranges of a vehicle hold each frame once (`Equivalence.VehicleRangeExact`,
  `VehicleFrameCovered`).
* A state, placed-object event or marker move is accepted and lost exactly when the caches know a target that the
  backend does not (`RecorderProofs.LossExact`). This never happens between the start and the end of a mission
  (`RecorderProofs.NothingLostInMission`), and it does happen after the end (`RecorderProofs.LostAfterEnd`), since
  ending a mission clears the backend and not the caches. Deletions ask no cache and are lost exactly when there is
  nothing to delete (`RecorderProofs.DeletionLossExact`).
* Starting a mission clears caches and backend but not the queues of the dispatcher. A mission is recorded
  independently of everything before it **if and only if** all queues are idle when it starts
  (`MissionBoundary.IsolationExact`).
* Soldier states that are dispatched with frames in order since a mission started with an idle state queue end up in a
  gap-free timeline, whatever is dropped, rejected or lost to a panicking handler (`MissionBoundary.MissionTimeline`).
  A state left over from the mission before can break it (`MissionBoundary.LateStateBreaksTimeline`); in runs that lose
  nothing the timeline is gap-free **if and only if** carried and dispatched states together are in order
  (`MissionBoundary.TimelineExact`).
* Counted where a save is accepted, accepted saves minus callbacks is always 0 or 1 (`MissionSave.OneCallbackEach`).
  Counted by returned "queued" replies it is not, because a worker can finish before the reply is returned
  (`MissionSave.CallbacksBeforeReplies`). It is throughout a run **if and only if** no callback is sent while a started
  request is still about to return (`MissionSave.RepliesExact`).
* A row that the batch writer commits carries the mission it was pushed in **if and only if** no change of mission
  between its push and the writer's reading of the mission ID takes effect (`BatchWriter.StampExact`).
* A printed array of three strings is parsed back **if and only if** no field starts or ends with a quote and no comma of
  the first two fields reads as a separator (`Quotes.RoundTripExact`).

## Reading order

`Wrappers`, `Json`, `Core`, `Frames`, `GapFill`, `Sorting`, `Subsequences`; then `ExportTypes`, `V1Rows`, `ExportSpec`,
`Builder`, `Stream`, `Equivalence`, `ExportContents`, `V1Reading`; then `Recorder`, `RecorderProofs`, `MemoryBackend`,
`Worker`, `MissionExport`, `RecordedContents`; then `Dispatcher`, `Timeline`, `MissionBoundary`, `MissionSave`,
`BatchWriter`, `Quotes`. `dafny verify dfyconfig.toml` checks everything.

Two comments in the code do not match it, and the model follows the code: the comment on `Stream` (see above), and the
comments on `SetFocusStart` and `SetFocusEnd`, which promise an error for a second start and for an end without a start
where the code ignores the call and returns no error.

## Model

| member | source | states |
|---|---|---|
| Json.EmitInjective | internal/storage/memory/export/v1/stream.go:113-135 | two JSON values have the same token sequence if and only if they are the same value |
| GapFill.LengthExact | internal/storage/memory/export/v1/builder.go:658-673 | the dense list has one entry for each frame from the first state to the end frame if and only if capture frames never decrease |
| GapFill.EntriesAreNewest | internal/storage/memory/export/v1/builder.go:658-673 | with frames in order, entry k stands for the newest state at frame c0 + k |
| GapFill.FillExact | internal/storage/memory/export/v1/builder.go:639-674 | with frames in order: length (cn - c0) + max(0, E - cn + 1), and every entry is the newest state of its frame |
| GapFill.VehicleRangesExact | internal/storage/memory/export/v1/builder.go:717-739 | each vehicle range starts right after its neighbour ends, for every input; expanded, the ranges make the soldier's choice at every position; with frames in order they are disjoint and cover consecutive frames |
| GapFill.VehicleCoverage | internal/storage/memory/export/v1/builder.go:717-739 | with frames in order and the end not before the last state, the ranges cover exactly the first frame to the end frame, each frame once and with its newest state |
| Frames.MaxFrameIn | internal/storage/memory/export/v1/builder.go:114-129 | walking records in any order finds the largest frame, or the start value when none is larger |
| Frames.MaxIdIn | internal/storage/memory/export/v1/builder.go:131-144 | walking records in any order finds the largest ID |
| Sorting.ListingUnique | internal/storage/memory/export/v1/builder.go:557-584 | a set of keys has one ascending duplicate-free listing, so sorted iteration does not depend on map order |
| Sorting.StableSortCorrect | internal/storage/memory/export/v1/builder.go:504-507 | sorting orders rows by frame, keeps the rows as a multiset and keeps the order of rows of one frame |
| Sorting.StableSortUnique | internal/storage/memory/export/v1/builder.go:504-507 | frame order and the order within each frame leave one arrangement, whatever the sorting algorithm |
| ExportTypes.InPlaceIsGrouped | internal/storage/memory/export/v1/builder.go:390-403 | appending bullet lines in place over the whole entity array leaves each slot with its own firer's lines, grouped and in order |
| ExportSpec.MetadataBounds | internal/storage/memory/export/v1/builder.go:114-144 | every recorded ID and every recorded frame is at most the computed maximum |
| V1Rows.FileName | internal/storage/memory/export/v1/builder.go:588-600 | the longest end of the path without a separator, directly behind a separator if the path has one |
| V1Rows.ExtractFilename | internal/storage/memory/export/v1/builder.go:588-600 | scanning back for the last separator finds that file name |
| V1Rows.PlacedEndIsFirst | internal/storage/memory/export/v1/builder.go:337-344 | a placed object ends at its first event of type detonated or deleted, counted from 0, and at -1 without one |
| V1Rows.PlacedEndFrame | internal/storage/memory/export/v1/builder.go:337-344 | the search with its early exit finds that frame |
| Builder.ComputeMetadata | internal/storage/memory/export/v1/stream.go:172-195 | returns the mission's largest frame over soldier and vehicle states, the largest ID and whether there is an entity |
| Builder.BuildSoldierEntity | internal/storage/memory/export/v1/builder.go:612-688 | the loops produce the specified entity; what it holds is said by ExportContents.UnitReads |
| Builder.BuildVehicleEntity | internal/storage/memory/export/v1/builder.go:693-742 | the loop produces the specified entity; what it holds is said by ExportContents.VehicleReads |
| Builder.SortedRecords | internal/storage/memory/export/v1/builder.go:557-584 | collecting keys in any order, sorting and looking up gives the records in ascending key order |
| Builder.CollectListed | internal/storage/memory/export/v1/builder.go:164-241 | collects the listed rows of the specification; which rows these are and in which order is said by ExportContents.EventsBySource |
| Builder.CollectMarkers | internal/storage/memory/export/v1/builder.go:249-322 | one row for each static marker, in order of names |
| Builder.CollectRows | internal/storage/memory/export/v1/builder.go:164-388 | listed events followed by placed-object hits; static markers followed by placed objects in order of IDs |
| Builder.ApplyProjectiles | internal/storage/memory/export/v1/builder.go:390-502 | updates the entity array in place by the projectile fold, appends the hit rows of every projectile and a marker for each that is no bullet |
| Builder.SlotCount | internal/storage/memory/export/v1/builder.go:148-150 | maxEntityID + 1 in 16 bits: the number of slots, and 0 for 65535 |
| Builder.PlaceSoldiers | internal/storage/memory/export/v1/builder.go:152-155 | in any order of the map, each slot holds a soldier with that ID or the placeholder; a write fails only when there is no slot |
| Builder.PlaceVehicles | internal/storage/memory/export/v1/builder.go:157-160 | the same for vehicles, which overwrite soldiers of the same ID |
| Builder.PlaceEntities | internal/storage/memory/export/v1/builder.go:131-160 | all writes are in bounds exactly when there is no entity or the largest ID is below 65535 |
| Builder.Build | internal/storage/memory/export/v1/builder.go:87-510 | for every order of walking the maps the outcome is one that BuildAllows admits: a panic for the largest ID 65535, else the specified export around legal entity slots |
| Stream.Writer.WriteField | internal/storage/memory/export/v1/stream.go:113-135 | appends an optional comma, the key, a colon and the encoded value |
| Stream.GroupOne | internal/storage/memory/export/v1/stream.go:418-481 | a bullet with two points or more adds one line to its firer and to nobody else; any other projectile gives a marker |
| Stream.CollectProjectiles | internal/storage/memory/export/v1/stream.go:416-516 | hit rows and markers of all projectiles, and for every ID the lines of that firer in order |
| Stream.BuildAggregates | internal/storage/memory/export/v1/stream.go:216-519 | the encoded sorted events and markers of the specification, and lines grouped by firer |
| Stream.WriteEntityForId | internal/storage/memory/export/v1/stream.go:144-154 | writes the encoding of the soldier filed under the ID, else of the vehicle, else of the placeholder |
| Stream.WriteEntities | internal/storage/memory/export/v1/stream.go:79-93 | the 16-bit loop ends for every maximum ID up to 65535 and writes maxEntityID + 1 entries with a comma between any two |
| Stream.WriteEntityArray | internal/storage/memory/export/v1/stream.go:73-96 | writes the entities field, an empty array when there is no entity |
| Stream.Stream | internal/storage/memory/export/v1/stream.go:25-109 | the tokens written are the encoding of the export StreamExport(d) |
| Equivalence.SlotUnique | internal/storage/memory/export/v1/builder.go:152-160 | with records under their own IDs a slot has exactly one possible content |
| Equivalence.BuildDeterministic | internal/storage/memory/export/v1/builder.go:87-510 | with records under their own IDs Build has exactly one possible outcome, whatever the order of its maps |
| Equivalence.OneOutcomeExact | internal/storage/memory/export/v1/builder.go:152-160 | for any mission data, Build has one outcome over all orders of its maps if and only if the largest ID is 65535, or vehicles of one ID and soldiers of one ID without a vehicle look the same |
| Equivalence.OrderMattersWithoutKeys | internal/storage/memory/export/v1/builder.go:152-155 | two soldiers that look different, filed under different keys with one ID that no vehicle has: two unequal outcomes are possible |
| Equivalence.OrderMattersForVehicles | internal/storage/memory/export/v1/builder.go:157-160 | the same for two vehicles |
| Equivalence.AgreementSuffices | internal/storage/memory/export/v1/stream.go:16-24 | under AgreeOn Build returns and its encoded result equals what Stream writes |
| Equivalence.AgreementNeeded | internal/storage/memory/export/v1/stream.go:16-24 | if Build returns and its encoded result equals what Stream writes then AgreeOn holds |
| Equivalence.StreamEqualsBuild | internal/storage/memory/export/v1/stream.go:16-109 | for the printing of the code: every possible outcome of Build encodes to what Stream writes if and only if AgreeOn holds |
| Equivalence.SlotIsId | internal/storage/memory/export/v1/builder.go:146-160 | slot N holds entity N; a slot without an entity is the placeholder but for bullet lines |
| Equivalence.EventsChronological | internal/storage/memory/export/v1/builder.go:164-507 | sorting keeps every collected row and the order within a frame, and there is one such arrangement; where the rows come from is said by ExportContents.EventsBySource |
| Equivalence.MarkerCount | internal/storage/memory/export/v1/builder.go:243-464 | there are as many markers as static markers, placed objects and projectiles that are no bullets together |
| Equivalence.SoldierTimeline | internal/storage/memory/export/v1/builder.go:639-674 | positions of a soldier with frames in order: one per frame, entry k is the row of the newest state at frame c0 + k; the last entry stands for the delete frame, or for the last frame of the mission without one; with a delete frame before the last state the list ends one frame before that state |
| Equivalence.TimelineNeedsOrder | internal/storage/memory/export/v1/builder.go:658-673 | the positions of a soldier have that length and content only if its capture frames are in order |
| Equivalence.VehicleTimeline | internal/storage/memory/export/v1/builder.go:706-739 | a vehicle has one row for each state, with the range from its frame to the frame before the next state; the last range ends at the delete frame if there is one, else at the last frame of the mission, all counted from 0 |
| Equivalence.VehicleRangeExact | internal/storage/memory/export/v1/builder.go:717-739 | with frames in order, an exported frame lies in the range of a row if and only if the state of that row is the newest at it and, for the last row, the end is not passed; so no frame is in two ranges |
| Equivalence.VehicleFrameCovered | internal/storage/memory/export/v1/builder.go:717-739 | with frames in order, each frame from the first state to the end lies in a range |
| ExportContents.MaxFrameExact | internal/storage/memory/export/v1/builder.go:113-129 | no soldier or vehicle state is later than the computed last frame, and one is at it unless none is after frame 0 |
| ExportContents.MaxIdExact | internal/storage/memory/export/v1/builder.go:131-144 | no recorded ID is larger than the computed one, and one is equal unless none is above 0 |
| ExportContents.LtStringMeans | internal/storage/memory/export/v1/builder.go:557-570 | the order of names is the usual one: a proper beginning comes first, else the first different character decides |
| ExportContents.EventsBySource | internal/storage/memory/export/v1/builder.go:164-507 | the event list ascends by frame, and for every frame its rows are those of general, sector, end-mission, hit and kill events, placed objects by ID and projectiles, in this order, each built from its own list; as many rows as all sources together |
| ExportContents.MarkersByKind | internal/storage/memory/export/v1/builder.go:243-464 | the markers are those of static markers by name, of placed objects by ID, and of the projectiles that are no bullets |
| ExportContents.LinesOfShots | internal/storage/memory/export/v1/builder.go:390-403 | a firer has one line for each of its bullets seen at two points or more, in order, from its first frame to the last point of its path |
| ExportContents.PlayerFoldMeans | internal/storage/memory/export/v1/builder.go:613-637 | a soldier that was ever a player is exported as one, under the name of its last named player state, else under its own |
| ExportContents.UnitReads | internal/storage/memory/export/v1/builder.go:612-688 | every field of an exported soldier in terms of its record: identity, start frame, player flag and name, own shots followed by the bullet lines, and the timeline of its states |
| ExportContents.VehicleReads | internal/storage/memory/export/v1/builder.go:693-742 | every field of an exported vehicle in terms of its record, side UNKNOWN when empty, with its rows and ranges |
| ExportContents.NobodyExported | internal/storage/memory/export/v1/stream.go:73-96 | without a recorded soldier or vehicle both exports have no entities |
| ExportContents.BuildPanicsExact | internal/storage/memory/export/v1/builder.go:146-160 | for records under their own IDs: Build panics if and only if the ID 65535 is recorded |
| ExportContents.StreamSlotReads | internal/storage/memory/export/v1/stream.go:79-154 | at every ID Stream has the soldier with the lines of its shots, else the vehicle without lines, else the empty entity |
| ExportContents.BuildSlotReads | internal/storage/memory/export/v1/builder.go:146-160 | at every ID Build has the vehicle, else the soldier, else the empty entity, each with the lines of its shots |
| ExportContents.EntityReads | internal/storage/memory/export/v1/types.go:33-45 | an encoded entity has its eight fields, and group, role and class exactly when they are not empty |
| ExportContents.TimeReads | internal/storage/memory/export/v1/types.go:24-30 | an encoded time has its five fields with the recorded values, the frame counted from 0 |
| ExportContents.DocumentReads | internal/storage/memory/export/v1/builder.go:87-110 | the document has thirteen fields: the texts of mission and world, last frame, delay, times, entities, events and markers |
| ExportContents.V1Encodes | internal/storage/memory/export/v1/types.go:12-45 | entities are encoded by their fields and events by their frame and the rest of the row |
| V1Reading.GeneralReads | internal/storage/memory/export/v1/builder.go:67-84 | the row of a general event: frame, name, the parsed message when it is JSON and else its text, and the UID of a connecting or disconnecting player |
| V1Reading.SectorReads | internal/storage/memory/export/v1/builder.go:171-179 | the row of a sector event: frame, name, and object type, unit name, side and place |
| V1Reading.EndMissionReads | internal/storage/memory/export/v1/builder.go:181-189 | the row of a mission end: frame, endMission, and side and message |
| V1Reading.HitReads | internal/storage/memory/export/v1/builder.go:191-215 | the row of a hit: frame, hit, the victim, source and text, distance; a vehicle is named before a soldier |
| V1Reading.KillReads | internal/storage/memory/export/v1/builder.go:217-241 | the same for a kill |
| V1Reading.PlacedHitsRead | internal/storage/memory/export/v1/builder.go:373-387 | a placed object gives one row for each of its hits with a target, in order: the target, its owner, its name and the distance |
| V1Reading.ProjectileHitsRead | internal/storage/memory/export/v1/builder.go:466-501 | a projectile gives one row for each of its hits, in order: the entity hit, the firer, muzzle or else weapon with magazine, and the distance from where it started |
| V1Reading.WeaponTextReads | internal/util/util.go:40-56 | vehicle, weapon and magazine in each combination of empty parts |
| V1Reading.SideReads | internal/storage/memory/export/v1/builder.go:525-538 | which side names give 0, 1, 2, 3 and -1, in both directions |
| V1Reading.MarkerReads | internal/storage/memory/export/v1/builder.go:243-322 | all eleven entries of a static marker and the ten of each of its positions: its own first, then one for each move; a line has its points and does not move |
| V1Reading.PlacedReads | internal/storage/memory/export/v1/builder.go:324-371 | all eleven entries of the marker of a placed object, with its one position and its end |
| V1Reading.ProjectileReads | internal/storage/memory/export/v1/builder.go:405-464 | all eleven entries of the marker of a projectile in flight, with its path, name, color and icon |
| V1Reading.LineReads | internal/storage/memory/export/v1/builder.go:390-403 | a fire line is its frame and its end point |
| V1Reading.SoldierPositionReads | internal/storage/memory/export/v1/builder.go:639-656 | all nine entries of a soldier position |
| V1Reading.VehiclePositionReads | internal/storage/memory/export/v1/builder.go:710-737 | all five entries of a vehicle row, the crew parsed or an empty list |
| RecorderProofs.TakeoverIsFold | internal/worker/dispatch.go:139-146 | the guarded update of the cached soldier gives what the unguarded fold over the recorded states gives |
| RecorderProofs.FocusExact | internal/storage/memory/memory.go:449-486 | a focus start or end gives exactly the longer ranges when they are in order and positive, and no change otherwise; with the exact verdict of the handler; touching ranges are allowed |
| RecorderProofs.StepKeepsStoreOk | internal/storage/memory/memory.go:195-486 | every command keeps record IDs equal to keys, marker indexes consistent and focus ranges in order |
| RecorderProofs.RunKeepsStoreOk | internal/storage/memory/memory.go:103-486 | so does every run, from every such state |
| RecorderProofs.StepKeepsSynced | internal/worker/dispatch.go:59-152 | every command but the end of a mission keeps caches and backend in agreement |
| RecorderProofs.SyncedInMission | cmd/ocap_recorder/main.go:333-343 | in every run, between mission start and end: same soldiers, vehicles and placed objects in caches and backend, marker cache equal to the name index, cached name and player flag equal to the exported ones |
| RecorderProofs.LossExact | internal/worker/dispatch.go:104-169 | a state, placed-object event or marker move is accepted and lost if and only if the caches know its target and the backend does not |
| RecorderProofs.NothingLostInMission | internal/worker/dispatch.go:104-169 | during a mission no accepted state, placed-object event or marker move is lost |
| RecorderProofs.LostAfterEnd | internal/storage/memory/memory.go:150-156 | for every run that is in a mission and every soldier cached in it: after the end of the mission its states are accepted and lost |
| RecorderProofs.DeletionLossExact | internal/storage/memory/memory.go:244-311 | a deletion is always accepted, and has no effect exactly when its target is unknown or already deleted at that frame |
| RecorderProofs.RefusedExact | internal/worker/dispatch.go:104-169 | the handlers return an error exactly for an update of something the caches do not know, a focus change out of order or at frame 0, and the end of no mission |
| RecorderProofs.RecordsAreLogs | internal/worker/dispatch.go:420-479 | each soldier, vehicle, placed object and exported marker is the log of the commands about its ID or name since mission start; moves and deletions reach the exported marker also after its name was created again |
| RecorderProofs.MissionIsolation | internal/storage/memory/memory.go:103-113 | for the recorder without its queues: the state depends on the mission start and the commands handled since, and on nothing before |
| RecorderProofs.ReachableDataOk | internal/storage/memory/memory.go:584-631 | in every mission the export data is defined and each soldier and vehicle record is filed under its own ID; what the data holds is said by RecordedContents.ExportIsLogged |
| MemoryBackend.EntityCache.UpdateSoldier | internal/cache/cache.go:67-72 | replaces exactly the entry of the soldier's ID |
| MemoryBackend.EntityCache.Reset | internal/cache/cache.go:27-33 | all three maps are empty |
| MemoryBackend.EntityCache.GetSoldier | internal/cache/cache.go:47-52 | the cached soldier, or none when the ID is unknown |
| MemoryBackend.EntityCache.GetVehicle | internal/cache/cache.go:54-59 | the cached vehicle, or none when the ID is unknown |
| MemoryBackend.EntityCache.GetPlacedObject | internal/cache/cache.go:80-85 | the cached placed object, or none when the ID is unknown |
| MemoryBackend.EntityCache.AddSoldier | internal/cache/cache.go:61-65 | sets exactly the entry of the soldier's ID |
| MemoryBackend.EntityCache.AddVehicle | internal/cache/cache.go:74-78 | sets exactly the entry of the vehicle's ID |
| MemoryBackend.EntityCache.AddPlacedObject | internal/cache/cache.go:87-91 | sets exactly the entry of the object's ID |
| MemoryBackend.MarkerCache.Set | internal/cache/marker.go:26-31 | sets exactly the ID of that name |
| MemoryBackend.MarkerCache.Get | internal/cache/marker.go:18-24 | the ID of the name, or none when it is unknown |
| MemoryBackend.MarkerCache.Delete | internal/cache/marker.go:33-38 | removes exactly that name |
| MemoryBackend.MarkerCache.Reset | internal/cache/marker.go:40-45 | no name is known any more |
| MemoryBackend.Backend.StartMission | internal/storage/memory/memory.go:103-113 | the new mission with nothing recorded and no export path; the last metadata is kept |
| MemoryBackend.Backend.EndMission | internal/storage/memory/memory.go:125-166 | without a mission an error and no change; else metadata of the ended mission is cached and the backend is empty, on success, failure and recovered panic alike |
| MemoryBackend.Backend.AddMarker | internal/storage/memory/memory.go:224-241 | one new record object with the next ID, shared by both indexes |
| MemoryBackend.Backend.RecordMarkerState | internal/storage/memory/memory.go:292-300 | appends through the ID index and keeps both indexes on the same objects |
| MemoryBackend.Backend.DeleteMarker | internal/storage/memory/memory.go:303-311 | sets the end frame through the name index and keeps both indexes on the same objects |
| MemoryBackend.Backend.RecordSoldierState | internal/storage/memory/memory.go:267-276 | appends to the soldier's record when there is one, changes nothing else |
| MemoryBackend.Backend.RecordVehicleState | internal/storage/memory/memory.go:280-289 | appends to the vehicle's record when there is one, changes nothing else |
| MemoryBackend.Backend.RecordPlacedObjectEvent | internal/storage/memory/memory.go:437-445 | appends to the placed object's record when there is one, changes nothing else |
| MemoryBackend.Backend.RecordProjectileEvent | internal/storage/memory/memory.go:327-332 | appends the event, changes nothing else |
| MemoryBackend.Backend.RecordGeneralEvent | internal/storage/memory/memory.go:335-340 | appends the event, changes nothing else |
| MemoryBackend.Backend.RecordSectorEvent | internal/storage/memory/memory.go:343-348 | appends the event, changes nothing else |
| MemoryBackend.Backend.RecordEndMissionEvent | internal/storage/memory/memory.go:351-356 | appends the event, changes nothing else |
| MemoryBackend.Backend.RecordKillEvent | internal/storage/memory/memory.go:367-372 | appends the event, changes nothing else |
| MemoryBackend.Backend.RecordTimeState | internal/storage/memory/memory.go:399-404 | appends the time state, changes nothing else |
| MemoryBackend.Backend.AddSoldier | internal/storage/memory/memory.go:195-205 | a new record without states under the soldier's own ID, replacing an older one |
| MemoryBackend.Backend.AddVehicle | internal/storage/memory/memory.go:209-219 | a new record without states under the vehicle's own ID, replacing an older one |
| MemoryBackend.Backend.AddPlacedObject | internal/storage/memory/memory.go:424-434 | a new record without events under the object's own ID, replacing an older one |
| MemoryBackend.Backend.ResetCollections | internal/storage/memory/memory.go:170-191 | nothing is recorded any more; mission, world and last export are kept |
| MemoryBackend.Backend.DeleteSoldier | internal/storage/memory/memory.go:244-252 | sets the delete frame of a recorded soldier, changes nothing else |
| MemoryBackend.Backend.DeleteVehicle | internal/storage/memory/memory.go:255-263 | sets the delete frame of a recorded vehicle, changes nothing else |
| MemoryBackend.Backend.SetFocusStart | internal/storage/memory/memory.go:449-468 | takes the specified focus step: error for frame 0 and for a start before the last end, a second start is ignored |
| MemoryBackend.Backend.SetFocusEnd | internal/storage/memory/memory.go:472-486 | takes the specified focus step: ignored without a start, error for an end not after the start, else a completed range |
| MemoryBackend.Backend.LastFrame | internal/storage/memory/memory.go:515-536 | the largest frame over soldier states, vehicle states and placed-object events |
| MemoryBackend.Backend.ComputeExportMetadata | internal/storage/memory/memory.go:510-563 | the metadata of the recorded data, empty without mission or world |
| MemoryBackend.Backend.GetExportMetadata | internal/storage/memory/memory.go:498-506 | live metadata during a mission, the cached one otherwise |
| Worker.Manager.HandleNewMission | cmd/ocap_recorder/main.go:315-352 | takes the machine's mission-start step: caches empty, backend restarted |
| Worker.Manager.HandleNewSoldier | internal/worker/dispatch.go:59-72 | takes the machine's step on cache and backend, all other state unchanged |
| Worker.Manager.HandleNewVehicle | internal/worker/dispatch.go:74-87 | takes the machine's step on cache and backend, all other state unchanged |
| Worker.Manager.HandleNewPlaced | internal/worker/dispatch.go:89-102 | takes the machine's step on cache and backend, all other state unchanged |
| Worker.Manager.HandleSoldierDelete | internal/worker/dispatch.go:404-410 | takes the machine's step: only the record's delete frame changes |
| Worker.Manager.HandleVehicleDelete | internal/worker/dispatch.go:412-418 | takes the machine's step: only the record's delete frame changes |
| Worker.Manager.HandleGeneralEvent | internal/worker/dispatch.go:249-259 | takes the machine's step: the event is appended |
| Worker.Manager.HandleSectorEvent | internal/worker/dispatch.go:261-271 | takes the machine's step: the event is appended |
| Worker.Manager.HandleEndMissionEvent | internal/worker/dispatch.go:273-283 | takes the machine's step: the event is appended |
| Worker.Manager.HandleTimeState | internal/worker/dispatch.go:171-181 | takes the machine's step: the time state is appended |
| Worker.Manager.HandleSoldierState | internal/worker/dispatch.go:121-152 | takes the machine's step: rejected when unknown to the cache; group and side filled in, takeover applied, state stored |
| Worker.Manager.FillFromCache | internal/worker/dispatch.go:132-137 | group and side default to the cached soldier's, everything else is kept |
| Worker.Manager.UpdateFromState | internal/worker/dispatch.go:139-146 | the cache entry is replaced exactly when the takeover changes it |
| Worker.Manager.HandlePlacedEvent | internal/worker/dispatch.go:104-119 | takes the machine's step: rejected when unknown to the cache |
| Worker.Manager.HandleVehicleState | internal/worker/dispatch.go:154-169 | takes the machine's step: rejected when unknown to the cache |
| Worker.Manager.ClassifyHitParts | internal/worker/dispatch.go:209-233 | each hit becomes a soldier hit, a vehicle hit or nothing, by the cache, in order |
| Worker.Manager.ClassifyEntity | internal/worker/dispatch.go:237-247 | soldier before vehicle before none |
| Worker.Manager.HandleProjectileEvent | internal/worker/dispatch.go:183-206 | takes the machine's step: stores the event with classified hits |
| Worker.Manager.HandleKillEvent | internal/worker/dispatch.go:285-308 | takes the machine's step, with victim and killer classified separately; who is recorded is said by RecordedContents.KillIsRecorded |
| Worker.Manager.HandleMarkerCreate | internal/worker/dispatch.go:420-434 | takes the machine's step: record filed, cache told the new ID |
| Worker.Manager.HandleMarkerMove | internal/worker/dispatch.go:436-467 | takes the machine's step: ID from the cache, rejected when unknown |
| Worker.Manager.HandleMarkerDelete | internal/worker/dispatch.go:469-479 | takes the machine's step: deletion by name, cache untouched |
| Worker.Manager.HandleFocusStart | internal/worker/dispatch.go:481-487 | takes the machine's step and returns its verdict |
| Worker.Manager.HandleFocusEnd | internal/worker/dispatch.go:489-495 | takes the machine's step and returns its verdict |
| MissionExport.EveryMissionExports | internal/storage/memory/export/v1/stream.go:16-24 | in every recorded mission the two export forms agree if and only if AgreeOn holds for its data |
| MissionExport.VehicleGunnerDiffers | internal/storage/memory/export/v1/stream.go:144-154 | a recorded mission with a bullet line fired from a vehicle: the forms differ |
| MissionExport.LargestIdDiffers | internal/storage/memory/export/v1/builder.go:148-150 | a recorded mission with soldier 65535: Build panics, Stream writes 65536 entities |
| MissionExport.ExportShowsCache | internal/storage/memory/export/v1/builder.go:613-637 | in every mission the cached soldiers are the exported ones; Stream shows each in the slot of its ID under the cached name, player flag, group and side, and so does Build where no vehicle has the ID |
| MissionExport.MetadataInOrder | internal/storage/memory/memory.go:510-563 | in every run the metadata's focus ranges are positive, not empty, ordered and disjoint, also after closing an open one at the true last frame, which is not before the export's last frame |
| MissionExport.EventsNameRecordedEntities | internal/worker/dispatch.go:209-247 | in every mission each kill and each hit names at most one entity for each role, a recorded one; each hit names exactly one; that it is the one that was sent is said by RecordedContents.ExportIsLogged and KillIsRecorded |
| RecordedContents.EventsAreMissionLogs | internal/worker/dispatch.go:183-308 | in every mission each event list of the backend is the log of the commands since the start, kills and hits with the entities created before them |
| RecordedContents.ExportIsLogged | internal/storage/memory/memory.go:584-631 | after any run, for the mission that runs: mission and world, each soldier, vehicle, placed object and marker, and each event list of the exported data are what the commands since the start say, and nothing else |
| RecordedContents.KillIsRecorded | internal/worker/dispatch.go:285-308 | a kill sent in a mission is the last recorded one; it names the victim that was sent as victim and the killer as source, as a soldier or else a vehicle exactly when recorded, with its frame, text and distance |
| RecordedContents.KillIsExported | internal/storage/memory/export/v1/builder.go:217-241 | its row is among the exported events: frame, killed, the victim, the killer with the text, the distance |
| RecordedContents.EndFrameExact | internal/storage/memory/memory.go:515-536 | no state and no event of a placed object is later than the end frame of the metadata, and one is at it unless none is after frame 0 |
| RecordedContents.MetadataReads | internal/storage/memory/memory.go:538-562 | in every mission the metadata has the names and tag of its start, its end frame, the duration, and the focus ranges with an open one closed at the end frame if that is later |
| Dispatcher.EveryRunInOrder | internal/dispatcher/dispatcher.go:185-222 | for every interleaving and panic pattern: handled events, then the one in the handler, then the buffer, are the accepted events in order |
| Dispatcher.EveryRunConserved | internal/dispatcher/dispatcher.go:185-222 | sent events are the accepted, the dropped and the waiting ones, as multisets |
| Dispatcher.EveryRunCounted | internal/dispatcher/dispatcher.go:201-238 | handled = processed + panicked, and attempts = accepted + dropped + blocked senders |
| Dispatcher.EveryRunByMode | internal/dispatcher/dispatcher.go:206-222 | a blocking queue drops nothing; any other blocks nobody and accepts a subsequence of what is sent |
| Dispatcher.EveryRunGateKept | internal/dispatcher/dispatcher.go:195-204 | nothing is handled before the gate opens |
| Dispatcher.BlockingInOrder | internal/dispatcher/dispatcher.go:206-211 | a blocking queue that lets its callers in by their order of arrival accepts events in the order of sending |
| Dispatcher.RejectedOnlyWhenFull | internal/dispatcher/dispatcher.go:213-221 | "queue full" is answered exactly for sends to a full, non-blocking queue, and the buffer never exceeds its size |
| Dispatcher.HandledIsPrefix | internal/dispatcher/dispatcher.go:201-204 | handled events are a beginning of the accepted ones, and without blocking a subsequence of the sent ones |
| Dispatcher.PanicsDoNotStopTheQueue | internal/dispatcher/dispatcher.go:224-238 | with an open gate the buffer can be worked off whichever handlers panic, each event handled once and in order |
| Timeline.HostIsQueuesAndRecorder | internal/dispatcher/dispatcher.go:166-175 | queues do not disturb each other, and the recorder goes through the run of the commands whose handlers reached it |
| Timeline.ReachedWereHandled | internal/dispatcher/dispatcher.go:201-204 | soldier states reach the recorder in the order their queue handled them |
| Timeline.StoredWereDispatched | internal/worker/dispatch.go:121-152 | stored states of a soldier are a subsequence of the dispatched ones, but for filled-in group and side |
| Timeline.StoredExactly | internal/storage/memory/memory.go:267-276 | after a soldier's creation every state executed for it is stored, and nothing else |
| MissionBoundary.SameQueuesSameMission | internal/dispatcher/dispatcher.go:185-222 | hosts whose queues hold the same commands record the same from a mission start on, in every further run |
| MissionBoundary.MissionsAreIsolated | internal/storage/memory/memory.go:103-113 | hosts with idle queues record the same from a mission start on, whatever they recorded before |
| MissionBoundary.OldCommandRuns | internal/dispatcher/dispatcher.go:201-204 | a command whose handler runs across a mission start is carried out in the new mission |
| MissionBoundary.OldEventRecorded | internal/dispatcher/dispatcher.go:201-204 | so an event of the mission before is recorded in the new one |
| MissionBoundary.IsolationExact | internal/storage/memory/memory.go:103-113 | a mission is recorded as if the queues had been empty, in every further run, if and only if all queues are idle at its start |
| MissionBoundary.AccountedSince | internal/worker/dispatch.go:121-152 | from any point of a run on, the stored and then the waiting states of a soldier are a subsequence of the carried and then dispatched ones |
| MissionBoundary.TimelineSince | internal/storage/memory/export/v1/builder.go:658-673 | from any point on: carried and dispatched states with frames in order give a gap-free timeline, through drops, rejections and panics; from the very start nothing is carried |
| MissionBoundary.MissionTimeline | internal/storage/memory/export/v1/builder.go:658-673 | a mission started with an idle state queue: only the states dispatched since need frames in order |
| MissionBoundary.TimelineExact | internal/storage/memory/export/v1/builder.go:658-673 | in runs that lose nothing, the timeline is gap-free if and only if carried and dispatched states are in order |
| MissionBoundary.LateStateBreaksTimeline | internal/dispatcher/dispatcher.go:201-204 | a queued state of the mission before with a larger frame: the new mission's own states are in order and the timeline is not gap-free |
| MissionBoundary.LateStateIsPossible | internal/dispatcher/dispatcher.go:213-221 | a run after which a mission has just started and such a state is queued |
| MissionSave.SaveAndUpload | cmd/ocap_recorder/mission_save.go:61-106 | for each outcome of ending, path, metadata and upload: a panic anywhere on the way is caught with its text; a failed end uploads nothing; an upload is tried exactly with an uploadable backend, a non-empty path and a client |
| MissionSave.RunMissionSaveWorker | cmd/ocap_recorder/mission_save.go:48-132 | exactly one callback, given case by case in terms of what happened: panic, end error, upload error with its path, success with its path, success without one |
| MissionSave.SaveState.TriggerMissionSave | cmd/ocap_recorder/mission_save.go:34-44 | no backend: error; save in flight: error; else the flag is set and a worker started |
| MissionSave.SaveState.CompareAndSwap | cmd/ocap_recorder/mission_save.go:38-40 | the flag changes exactly when it had the expected value, which is the answer |
| MissionSave.EveryRunSingleFlight | cmd/ocap_recorder/mission_save.go:34-50 | for every interleaving the flag is set exactly while one request or worker holds it, and accepted saves are accounted for |
| MissionSave.OneCallbackEach | cmd/ocap_recorder/mission_save.go:34-132 | at most one worker; accepted saves minus callbacks is 0 or 1; rejected requests have no callback |
| MissionSave.RepliesExact | cmd/ocap_recorder/mission_save.go:42-50 | replies minus callbacks is 0 or 1 after every step of a run if and only if no callback is sent while a started request is still about to return |
| MissionSave.CallbacksBeforeReplies | cmd/ocap_recorder/mission_save.go:42-43 | for every n a run with n callbacks before any reply |
| MissionSave.OneCallerReplies | cmd/ocap_recorder/mission_save.go:24-33 | with one caller at a time callbacks are at most one ahead of replies and at most one behind |
| BatchWriter.Queue.Pop | internal/queue/queue.go:28-38 | removes and returns the oldest item, the zero value and no change when empty |
| BatchWriter.Queue.Push | internal/queue/queue.go:20-25 | appends the items in order |
| BatchWriter.Queue.Empty | internal/queue/queue.go:40-45 | true exactly for an empty queue |
| BatchWriter.Queue.Len | internal/queue/queue.go:47-52 | the number of items |
| BatchWriter.Queue.Clear | internal/queue/queue.go:54-59 | the queue is empty |
| BatchWriter.Queue.GetAndEmpty | internal/queue/queue.go:62-68 | returns all items in order and leaves the queue empty |
| BatchWriter.StampInPlace | internal/storage/postgres/postgres.go:502-506 | stamps every drained row and changes nothing else |
| BatchWriter.WriteQueue | internal/storage/postgres/postgres.go:460-480 | one undisturbed call: the stamped batch is committed and the queue empty, or it is queued again in order |
| BatchWriter.EveryRunConserved | internal/storage/postgres/postgres.go:460-480 | for every interleaving of pushes and failing inserts: pushed rows are the queued, in-hand and committed ones, as multisets but for the stamp |
| BatchWriter.CommittedOnce | internal/storage/postgres/postgres.go:460-480 | no row is committed more often than it was pushed, and just as often once it is neither queued nor in hand |
| BatchWriter.OrderExact | internal/storage/postgres/postgres.go:470-475 | a step takes rows out of order if and only if a failed batch is queued behind different newer rows |
| BatchWriter.RunOrderExact | internal/storage/postgres/postgres.go:460-480 | rows are in the order of pushing throughout a run if and only if no failed batch is queued behind different newer rows |
| BatchWriter.CommittedInOrder | internal/storage/postgres/postgres.go:460-480 | if every failing insert finds the queue empty, rows are committed in the order of pushing |
| BatchWriter.BatchStamp | internal/storage/postgres/postgres.go:498-506 | in every run, each row of the batch a successful insert commits was pushed before and carries the mission ID of the writer's last read |
| BatchWriter.CommittedByInsert | internal/storage/postgres/postgres.go:470-480 | every committed row was in the batch of a successful insert |
| BatchWriter.StampExact | internal/storage/postgres/postgres.go:498-506 | a row about to be committed carries the mission of its push if and only if the last change of mission between push and read, if any, is back to the mission before it |
| BatchWriter.StampIsWriteTime | internal/storage/postgres/postgres.go:498-512 | an example: a row pushed in one mission and written in the next carries the later mission's ID |
| Quotes.FixUndoesDouble | internal/util/util.go:11-14 | undoubling quotes undoes doubling on every string |
| Quotes.FieldExact | internal/util/util.go:32-34 | a printed field is recovered if and only if it neither starts nor ends with a quote |
| Quotes.FieldFound | internal/util/util.go:27 | the first separator is the one behind the field unless a comma of the field reads as one; then it comes earlier with fewer commas in front |
| Quotes.RoundTripExact | internal/util/util.go:20-36 | three printed fields are parsed back if and only if Recoverable holds |
| Quotes.PlainFieldsRoundTrip | internal/util/util.go:20-36 | fields without quotes at the ends or beside commas, the first not starting with a comma, are parsed back |
| Quotes.TrimSpaceMeans | internal/util/util.go:21 | trimming takes blanks off both ends and leaves none there |
| Quotes.OtherTextIsWeapon | internal/util/util.go:22-30 | a text without brackets at its ends, or without two separators inside, is returned trimmed as the weapon |
| Quotes.FormatWeaponText | internal/util/util.go:40-56 | the text built step by step is vehicle, weapon and magazine with empty parts and their punctuation left out |

## Left out

- Equivalence.StreamEqualsBuild: is stated for records filed under their own IDs, because Build reads the ID in the record and Stream the key; every recorded mission has such data (RecorderProofs.ReachableDataOk), other callers of Build must see to it themselves.
- BatchWriter.WriteQueue: the queue cannot change during this call; the transition system beside it lets pushes come in between.
- BatchWriter.EveryRunConserved: assumes atomic inserts and successful commits, as the code does by not looking at the result of the commit.
- MissionExport.VehicleGunnerDiffers: shows a family of differing missions, not all of them; all of them are given by the condition in MissionExport.EveryMissionExports.
- MissionBoundary.MissionTimeline: assumes that soldier states are sent under one non-blocking buffered command only, as they are registered; so do the other lemmas about timelines.
- MissionBoundary.IsolationExact: is about the queues of the given commands, each with room for at least one event; commands still on their way to a queue when the mission starts belong to the further run.
- MemoryBackend.Backend.EndMission: how writing the export ends is a parameter, panics included; unwinding and recovery themselves are not modelled, only that the cleanup runs in every case.
- Dispatcher.BlockingInOrder: that callers are let in by their order of arrival is a property of the Go runtime and is assumed here; the other results about queues do without it.
- Dispatcher.EveryRunInOrder: channels and goroutines are values of a transition system and not objects, because their steps interleave; the same holds for MissionSave and BatchWriter, where the sequential parts are methods beside it.
- Stream.Stream: errors of the underlying writer and values that JSON cannot encode (NaN, infinities) are not modelled.
- Characters, numbers and the bytes of JSON leaves: strings are character sequences, numbers are reals, rounding and invalid UTF-8 are not modelled.
- Library calls used in rows (JSON parsing of messages, crews and sizes, upper-casing, the length of a vector) are parameters of V1Rows.
- Missing missions or worlds (nil pointers) in direct calls of Build and Stream.
- Frames are unbounded; object IDs are 16 bits wide.
- Parsing of command arguments and the copying of fields that no modelled code reads.
- Chat, radio, telemetry, medical, fired and hit-event recording: they append to lists like the modelled events, and the worker records no hit or fired events.
- Interleavings inside one handler: each handler and each backend method is one atomic step.
- A panic inside a handler after it has reached the backend is covered by the effect flag of Timeline; partial effects of one handler are not.
- Registering a command name twice, and the gate of unbuffered commands.
- Gauges, logging, tracing, compression, file names, uploads, and the foreign calls of the game.
- The websocket backend, database schema, mission ID assignment and the SQLite dump.
- More than one database writer goroutine for a queue.
