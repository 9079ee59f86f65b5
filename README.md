# EDHelper core, modelled in Dafny

EDHelper is a desktop companion for Elite Dangerous. It tails the game's
journal (one JSON record per line) and folds every record into a mutable
`GameState`. From that state it shows the current system, its bodies and
signals, exobiology progress, combat contacts, PowerPlay context and session
earnings. This project models the logic of that fold and of the pieces around
it, and proves properties of the model.

What is modelled:

- **The event fold** (`EventEngine.process`). One decoded record is applied to
  the state in two stages.
  - **Stage 1** is the inline `if/elif` chain. It hangs off the `Credits` test,
    so a record with an int `Credits` runs no inline branch. The fourteen kinds
    with a branch are Location, StartJump, ShipTargeted, Powerplay, Cargo, Scan,
    SAAScanComplete, FSSDiscoveryScan, FSSSignalDiscovered, FSSBodySignals,
    SAASignalsFound, ScanOrganic, CodexEntry and SellOrganicData. Each branch is
    a method in one of the `Inline*` modules. It is proved against a
    value-level function on the part of the state it changes, and lemmas about
    that function state the branch's rules.
  - **Stage 2** is the handler chain. It offers the record to the inventory,
    exploration, exobiology, PowerPlay and misc handlers in that order, and the
    first handler that claims it stops the chain. A branch that returns early
    skips stage 2, and a branch that raises ends `process` with the state it
    had reached. `Engine` puts the two stages together.
- **`GameState`** is a class. Its fields are grouped into nine value records:
  commander, travel, per-system data, system description, combat, pledge,
  survey, ledgers and inventory. Each method `modifies` only the groups it
  changes.
- **Decoded JSON** is modelled by a small value type (`PyJson.Json`). It covers
  null, bool, int, float, string, list and object. An object keeps its members
  in order, and a lookup finds the last member with the key, as a Python dict
  built from them would. Python truthiness, `x or y`, `isinstance` and the
  fact that a bool is an int are spelled out. The exobiology records need the
  insertion order of a Python dict, so they use an ordered dictionary
  (`PyDict`).
- **The reference tables** work over documents that are already decoded:
  - planet values, with the normalised-name index, the alias table and the
    four-figure estimate;
  - organism values;
  - the external POI intel, with case-folded key merging and address-first
    results;
  - farming locations, with the system and material indexes;
  - the item catalog.

  The mtime-gated reload of the last three is a function of what the file
  looks like now. Either it is absent, or it is present with a modification
  time and maybe a decoded document.
- **The journal watcher's decisions**:
  - choosing the newest journal;
  - the bootstrap window of the last 256 KiB, with at most 800 objects
    forwarded from the last Location or FSDJump;
  - tailing one line per poll;
  - the once-per-absence "no journal" notice;
  - `stop`.

  Files are sequences of lines, and the emitted signals are a sequence that
  grows.
- **Pure helpers**:
  - token cleaning and number formatting (`Formatting`). The exploration
    handler's `_pretty_token` has the same body as `clean_token`, so the model
    uses `Formatting.CleanToken` for both.
  - the settings migration and load normalisation (`Config`);
  - the display and decision helpers of the main window (`MainWindow`): token
    display, variant colour, status ranking and sort, the PowerPlay
    recommendation rule, and the action-hint counts.

The model follows the code as written in these places:

- An FSDJump stores its `PowerplayState` as the system's controlling power.
- The exploration handler classifies a system signal with its arguments
  swapped.
- A Scan and a SAAScanComplete in the exploration handler key bodies by the
  raw name, while the inline branches use the whitespace-collapsed name.
- `Materials` keeps the last count for a repeated name
  (edc/core/event_engine.py:89), while `ShipLocker` sums the counts
  (edc/core/event_engine.py:120).
- A bootstrap window with no Location or FSDJump record forwards every
  collected record (edc/core/journal_watcher.py:114-125).

## Model

Each row names a member, the source lines it models, and what its contract states.

| member | source | states |
|---|---|---|
| Config.LegacyValue | edc/config.py:63-69 | a truthy legacy value that `int()` accepts gives ten times that int, a truthy one that `int()` rejects gives 10, and a falsy one gives 0 |
| Config.Migrate | edc/config.py:50-76 | at version 2 or above the dict comes back unchanged and unchanged-flagged; below it, an existing `min_planet_value_100k` is never overwritten, a missing one with a legacy key becomes the converted legacy value, `schema_version` ends up reading as 2 and is rewritten (with changed=true) exactly when it was absent or read as another version, only an unconvertible stored version raises, and every other key keeps its value |
| Config.MigrateSettles | edc/config.py:72-76 | the migrated dict reads back as version 2 through `load`'s own version read, so migrating it again changes nothing |
| Config.MinValue100k | edc/config.py:109-117 | the threshold is never negative: an int is kept with negatives clamped to 0, and anything that is not a number gives 1 |
| Config.Load | edc/config.py:78-128 | a missing, unparsable or non-dict file gives the defaults; the threshold is never negative; a non-default result comes from a version that reads and a migration that succeeds |
| Config.LoadThreshold | edc/config.py:109-117 | a version-2 file loads its threshold through the clamping rule, and a string threshold loads as 1 |
| Config.LoadExoDefault | edc/config.py:123 | a missing or zero `exo_high_value_m` loads as 2 |
| EngineBase.Classify | edc/core/event_engine.py:35-55 | the category is Megaship iff the signal type strips and lower-cases to "megaship", Station iff not that and the station flag is the bool True, USS iff neither and the USS type is a non-blank string, Phenomena iff none of those and the lower-cased name contains one of the six keywords, and Other in every remaining case |
| EngineBase.HandlerCategory | edc/engine/handlers/exploration.py:195-205 | called the way the exploration handler calls it (SignalType as the name, SignalName as the USS type, no signal type), the category is never Megaship, and any non-blank SignalName of a non-station yields USS |
| EngineBase.ItemEntry | edc/core/event_engine.py:79-95 | an entry is accepted iff it is a dict with a string Name whose stripped lower-cased form is non-empty and an int Count; then its key is that form, its count the Count, and its display name the trimmed `Name_Localised` or the title-cased key |
| EngineBase.LocKeys | edc/core/event_engine.py:79-95 | a key has a display name iff some accepted entry carries it |
| EngineBase.LastCountsKeys | edc/core/event_engine.py:88-95 | the materials counts and the display names know the same keys |
| EngineBase.SumCountsKeys | edc/core/event_engine.py:118-125 | the ship-locker counts and the display names know the same keys |
| EngineBase.LastCountWins | edc/core/event_engine.py:89 | a material's count is the Count of its last accepted entry |
| EngineBase.LastDisplayWins | edc/core/event_engine.py:90-95 | a key's display name is the one given by its last accepted entry |
| EngineBase.SumCountsTotal | edc/core/event_engine.py:120 | a ship-locker item's count is the sum of the Counts of all its accepted entries, and an item never accepted counts 0 |
| EngineBase.ReadEntry | edc/core/event_engine.py:79-87 | the run of `get`s and `isinstance` tests over one entry decides exactly as the acceptance rule does |
| EngineBase.ParseMaterialsCategory | edc/core/event_engine.py:69-96 | the loop returns the last-count-wins counts and the display names of the accepted entries, and empty maps for a non-list |
| EngineBase.ParseShipLockerItems | edc/core/event_engine.py:98-126 | the loop returns the summed counts and the display names of the accepted entries, and empty maps for a non-list |
| EngineBase.IntelAddress | edc/core/event_engine.py:30 | an int address is passed on as it is; anything else becomes None |
| EngineBase.ViewAfter | edc/core/event_engine.py:24-33 | a store stays present or absent; with a falsy system name or no store it is left as it was |
| EngineBase.PoisAfter | edc/core/event_engine.py:24-33 | with a falsy system name or no store the stored POI list is empty |
| EngineBase.ClearContacts | edc/core/event_engine.py:165-169 | a system change leaves no enemy alerts, no combat contacts and an empty current key, and keeps the current alert text and the last target |
| EngineBase.EventEngine.constructor | edc/core/event_engine.py:12-22 | the engine holds the state, the two tables and the intel store it was given |
| EngineBase.EventEngine.ApplyExternalIntel | edc/core/event_engine.py:24-33 | only `external_pois` and the intel store change: the store becomes its reloaded form when it is consulted, and the POI list is the reloaded store's answer, or empty |
| Engine.KindOfListed | edc/core/event_engine.py:140-823 | the `elif` chain selects no branch exactly for the kinds outside the fourteen that have an inline branch |
| Engine.InlineSpec | edc/core/event_engine.py:136-823 | a kind without an inline branch falls through to the chain with the state, the store and the messages untouched |
| Engine.ChainSkips | edc/core/event_engine.py:827-841 | a handler that returns False and changes nothing passes the event on to the next one unchanged |
| Engine.KindsDisjoint | edc/core/event_engine.py:827-833 | no event kind is claimed by two of the five handlers |
| Engine.HandlersDecline | edc/core/event_engine.py:827-841 | each handler returns False and changes nothing for every kind it does not claim |
| Engine.ChainRunsClaimant | edc/core/event_engine.py:826-841 | the chain's result is exactly the claiming handler's result, and a kind no handler claims leaves everything unchanged with handled false |
| Engine.CreditsSkipInline | edc/core/event_engine.py:136-141 | an event with an int `Credits` runs no inline branch: the state with the name and credits recorded goes straight to the handler chain |
| Engine.UnknownKindRecorded | edc/core/event_engine.py:133-138 | a kind with no inline branch and no claiming handler only records the event name and an int `Credits`, and returns no messages |
| Engine.NameRecorded | edc/core/event_engine.py:133-134 | every outcome has `last_event` set to the event's name, and a raise returns no messages |
| Engine.InlineKeepsName | edc/core/event_engine.py:140-823 | no inline branch changes `last_event` |
| Engine.SystemChangeKeepsRest | edc/core/event_engine.py:140-242 | the Location and StartJump branches leave the commander, the pledge, the survey, the ledgers (community goals among them) and the inventories untouched |
| Engine.ChainKeepsName | edc/core/event_engine.py:826-841 | no handler changes `last_event` |
| Engine.InlineThenClaimant | edc/core/event_engine.py:136-843 | without an int `Credits`, a branch that returns early skips the chain, a branch that raises returns no messages, and a branch that falls through is followed by the claiming handler, whose messages follow the branch's |
| Engine.RunTravel | edc/core/event_engine.py:140-242 | the Location, StartJump and (at lines 362-368) Powerplay branches change the state and the intel store as their value-level functions say and return their flow and messages |
| Engine.RunContact | edc/core/event_engine.py:243-378 | the ShipTargeted and Cargo branches change the state as their value-level functions say |
| Engine.RunBody | edc/core/event_engine.py:379-622 | the Scan, SAAScanComplete, FSSDiscoveryScan, FSSBodySignals and SAASignalsFound branches change the state as their value-level functions say |
| Engine.RunExo | edc/core/event_engine.py:623-823 | the ScanOrganic, CodexEntry and SellOrganicData branches change the state as their value-level functions say |
| Engine.RunInline | edc/core/event_engine.py:136-823 | stage one leaves the state, the store, the flow and the messages that the value-level branch function gives |
| Engine.ChainAtMisc | edc/core/event_engine.py:827-841 | the last step of the handler loop matches the chain function on the misc handler alone |
| Engine.ChainAtPowerplay | edc/core/event_engine.py:827-841 | the handler loop from the powerplay handler on matches the chain function on that suffix |
| Engine.ChainAtExobio | edc/core/event_engine.py:827-841 | the handler loop from the exobiology handler on matches the chain function on that suffix |
| Engine.ChainAtExploration | edc/core/event_engine.py:827-841 | the handler loop from the exploration handler on matches the chain function on that suffix |
| Engine.RunChain | edc/core/event_engine.py:826-841 | the handler loop leaves the state, the store, the handled flag and the messages that the chain function gives for the five handlers in order |
| Engine.Process | edc/core/event_engine.py:128-843 | `process` leaves the state and the store, and returns the messages, that the value-level `process` gives, with `raised` marking an exception out of an inline branch |
| ExoValues.Entry | edc/core/exo_values.py:29-34 | a species record qualifies iff it is a dict with an int `base_value` and a truthy `genus`, and the entry then carries the key as its species and those two values |
| ExoValues.SpeciesUpToExact | edc/core/exo_values.py:28-34 | after any prefix of the `species` dict, a name is in the table iff the prefix lists it and its record qualifies, and it holds that record's values |
| ExoValues.SpeciesExact | edc/core/exo_values.py:28-34 | a name is in the table built from the whole dict iff the dict has it and its record qualifies, with the record's `base_value` |
| ExoValues.CollectSpecies | edc/core/exo_values.py:27-34 | the loop over `species_map.items()` builds exactly the table of qualifying records |
| ExoValues.LoadSpec | edc/core/exo_values.py:21-40 | a loaded table is never empty |
| ExoValues.LoadFirstWins | edc/core/exo_values.py:22-37 | the table loaded is the one of the first path whose document yields a non-empty species table; missing, unreadable and empty paths before it are passed over |
| ExoValues.LoadFromPaths | edc/core/exo_values.py:21-40 | the loop over the paths returns the table of the first path that yields any species, or None |
| ExoValues.GetValue | edc/core/exo_values.py:42-46 | the empty name gives None; otherwise there is a value iff the name is an exact key, and it is that entry's `base_value` |
| ExoValues.GetValueFromDoc | edc/core/exo_values.py:28-46 | looking up a non-empty qualifying name in the loaded table gives back its record's `base_value` |
| ExternalIntel.MergeStep | edc/core/external_intel.py:53-60 | an entry whose key normalises to the empty string leaves the merged map as it was |
| ExternalIntel.MergeByHas | edc/core/external_intel.py:50-60 | after any prefix, a normalised key is present iff it is non-empty and some key of the prefix normalises to it |
| ExternalIntel.MergeByAbsent | edc/core/external_intel.py:50-60 | a non-empty normalised key that is absent collected no list entries |
| ExternalIntel.MergeByLists | edc/core/external_intel.py:56-60 | when every value under a normalised key is a list, the key holds their concatenation in document order |
| ExternalIntel.MergeHas | edc/core/external_intel.py:47-62 | a system key is present iff it is non-empty and some document key strips and lower-cases to it |
| ExternalIntel.MergeLists | edc/core/external_intel.py:47-62 | keys that collide after stripping and lower-casing hold all their lists concatenated in document order, and an absent key collected nothing |
| ExternalIntel.Parse | edc/core/external_intel.py:41-45 | a document that is not a dict gives empty tables |
| ExternalIntel.LoadSpec | edc/core/external_intel.py:26-69 | a missing file empties the tables and forgets the mtime; a non-forced load of a file whose mtime equals the cached one changes nothing; otherwise an unreadable file empties the tables and forgets the mtime, and a decoded one caches the mtime and its tables |
| ExternalIntel.LoadSettles | edc/core/external_intel.py:34-36 | after a successful load, a non-forced load of the unchanged file changes nothing |
| ExternalIntel.LoadIdempotent | edc/core/external_intel.py:26-69 | a non-forced load repeated on the same observation changes nothing, whether the file is missing, unreadable or decoded |
| ExternalIntel.PoisOrder | edc/core/external_intel.py:71-89 | the result is the address matches followed by the name matches, there are no address matches unless the address is an int, and every record returned is a dict |
| ExternalIntel.PoisByKey | edc/core/external_intel.py:23-24 | names that agree after stripping and lower-casing give the same records |
| ExternalIntel.NamePoisOfDoc | edc/core/external_intel.py:47-62 | the name matches of a loaded document are the dict entries of every list whose key normalises to the name, in document order |
| ExternalIntel.Intel.constructor | edc/core/external_intel.py:16-21 | a new store is the result of a forced load over empty tables |
| ExternalIntel.Intel.MergeSystems | edc/core/external_intel.py:48-60 | the loop over `systems.items()` builds the merged map of the value-level merge |
| ExternalIntel.Intel.Load | edc/core/external_intel.py:26-69 | `_load(force)` leaves the store that the value-level load gives |
| ExternalIntel.Intel.GetPois | edc/core/external_intel.py:71-89 | the store first reloads without force, and the result is the reloaded tables' address and name matches |
| FarmingLocations.DomainName | edc/core/farming_locations.py:94 | a record's domain is never empty: the whitespace-collapsed lower-cased domain name, or "other" when that is empty |
| FarmingLocations.AddAllLookup | edc/core/farming_locations.py:129-131 | filing one record under a list of keys adds it under each key once per occurrence of that key, after what was there |
| FarmingLocations.IndexLookup | edc/core/farming_locations.py:125-131 | an index built by `setdefault(...).append` holds under every key exactly the records in load order, each once per occurrence of the key among its own keys |
| FarmingLocations.SingleOccurrences | edc/core/farming_locations.py:125-127 | filing each record under at most its own system key files under a key exactly the records whose system key it is |
| FarmingLocations.OccurrencesAreObjects | edc/core/farming_locations.py:151 | every record an index holds is a dict |
| FarmingLocations.LoadSpec | edc/core/farming_locations.py:55-143 | a missing file leaves an empty store; a non-forced load of a file with the cached mtime changes nothing; an unreadable file otherwise leaves an empty store |
| FarmingLocations.ForSystemOfDoc | edc/core/farming_locations.py:145-151 | a loaded document answers a non-blank system query with exactly the records whose normalised lower-cased system equals the normalised query, in load order |
| FarmingLocations.ForMaterialOfDoc | edc/core/farming_locations.py:153-159 | a loaded document answers a non-blank material query with each record once per time the material occurs in its cleaned list, in load order |
| FarmingLocations.DocEntriesObjects | edc/core/farming_locations.py:95-123 | every flattened record is a dict |
| FarmingLocations.ForBlank | edc/core/farming_locations.py:147-149 | a blank or non-string name finds nothing, by system or by material |
| FarmingLocations.Farming.constructor | edc/core/farming_locations.py:31-45 | a new store is the result of a forced load over the empty store |
| FarmingLocations.Farming.CleanMaterials | edc/core/farming_locations.py:106-110 | the `for x in mats` loop keeps the non-empty normalised strings, in order |
| FarmingLocations.Farming.FileMaterials | edc/core/farming_locations.py:129-131 | the loop files the record under each lower-cased material, once per occurrence |
| FarmingLocations.Farming.FileRecord | edc/core/farming_locations.py:99-131 | one dict record is flattened, appended and filed under its system and materials exactly as the reference entry list says |
| FarmingLocations.Farming.FileItem | edc/core/farming_locations.py:95-131 | one item of a domain's list is filed when it is a dict and skipped otherwise |
| FarmingLocations.Farming.FileDomain | edc/core/farming_locations.py:95-131 | the inner loop over one domain's list extends the record list and the two indexes by that domain's entries |
| FarmingLocations.Farming.Flatten | edc/core/farming_locations.py:90-131 | the outer loop over the domains leaves the record list and the indexes of the reference entry list, domains whose value is not a list skipped |
| FarmingLocations.Farming.Load | edc/core/farming_locations.py:55-143 | `_load(force)` leaves the store that the value-level load gives |
| FarmingLocations.Farming.GetForSystem | edc/core/farming_locations.py:145-151 | the store reloads without force, and the result is the reloaded store's answer for the system |
| FarmingLocations.Farming.GetForMaterial | edc/core/farming_locations.py:153-159 | the store reloads without force, and the result is the reloaded store's answer for the material |
| FarmingLocations.Farming.HasData | edc/core/farming_locations.py:161-163 | the store reloads without force, and the answer is whether it holds any record |
| FarmingLocations.NoDataWithoutFile | edc/core/farming_locations.py:57-64 | a missing file, or a reload of one that cannot be read, leaves no records, so `has_data` is false |
| FarmingLocations.RecordGet | edc/core/farming_locations.py:112-121 | a flattened record reads its cleaned materials under `key_materials`, its normalised name or "Farm Site" under `name`, its domain under `domain`, a non-blank normalised system, body or method under those keys, and its own value under every other key |
| Formatting.DropFirstPrefix | edc/ui/formatting.py:23-26 | at most one prefix is removed, and a string that starts with none of them is kept |
| Formatting.Despace | edc/ui/formatting.py:28 | the result has no underscore and no whitespace at either end |
| Formatting.CleanStr | edc/ui/formatting.py:12-31 | a blank string cleans to ""; every result has no underscore, no whitespace at either end and no lower-case first character |
| Formatting.CleanToken | edc/ui/formatting.py:4-31 | a non-string comes back unchanged; a string comes back as a string without underscores, and a blank one as "" |
| Formatting.CleanTokenEconomy | edc/ui/formatting.py:6 | `$economy_Extraction;` cleans to `Extraction` |
| Formatting.CleanTokenSecurity | edc/ui/formatting.py:12-31 | `$SYSTEM_SECURITY_low;` cleans to `Low`: the prefix is dropped and the first letter upper-cased |
| Formatting.CleanTokenGovernment | edc/ui/formatting.py:12-31 | `$government_Corporate;` cleans to `Corporate` |
| Formatting.Text | edc/ui/formatting.py:33-45 | None and blank strings give the default; a string otherwise gives a non-empty trimmed text without underscores; any other value gives `str(value)` |
| Formatting.IntCommasText | edc/ui/formatting.py:47-53 | None, and any value `int()` rejects, gives the default; otherwise removing the commas from the text gives `str(int(value))` |
| Formatting.Credits | edc/ui/formatting.py:55-64 | a value `int()` rejects gives the default; otherwise the text ends in " cr" and before that, with its commas removed, is `str(int(value))` |
| Formatting.MetaPart | edc/ui/formatting.py:82-87 | a part is dropped iff it is falsy or `str(p)` is blank, and otherwise kept as the stripped `str(p)` |
| Formatting.MetaItemsAppend | edc/ui/formatting.py:82-87 | the parts kept from two lists are those kept from each, in order |
| Formatting.MetaItemsTrimmed | edc/ui/formatting.py:85-87 | every kept part is non-empty and trimmed |
| Formatting.MetaItemsDropsBlank | edc/ui/formatting.py:83-84 | removing a falsy or blank part from the arguments changes nothing |
| Formatting.JoinMeta | edc/ui/formatting.py:80-88 | the loop joins with `sep` exactly the kept parts, in order |
| PyText.GroupThousandsDigits | edc/ui/formatting.py:51 | grouping digits only inserts commas: removing them gives the digits back |
| PyText.GroupThousandsTail | edc/ui/formatting.py:51 | a number of four or more digits ends in a comma followed by its last three digits |
| PyText.IntCommasDigits | edc/ui/formatting.py:51 | `f"{n:,}"` with its commas removed is `str(n)`, sign included |
| PyText.CollapseIdempotent | edc/core/event_engine.py:57-67 | collapsing whitespace twice is the same as collapsing it once |
| PyText.CollapseTrimmed | edc/core/event_engine.py:65 | a collapsed string has no whitespace at either end |
| PyText.SplitJoin | edc/core/event_engine.py:65 | splitting a space-joined list of words gives the words back |
| State.GameState.constructor | edc/core/state.py:4-103 | a new state has every optional field None, every collection empty, the session ledgers 0, `in_hyperspace` False and the two key strings "" |
| InventoryHandler.Parsed | edc/engine/handlers/inventory.py:29-34 | a category that is None keeps its maps, and any other value is parsed into new ones |
| InventoryHandler.BoughtMessages | edc/engine/handlers/inventory.py:44-49 | there is at most one notice, and there is one iff `BuyItem` is a non-blank string |
| InventoryHandler.InventorySpec | edc/engine/handlers/inventory.py:5-58 | the handler returns True exactly for Commander, LoadGame, Materials, ShipLocker, ModuleBuy and Cargo |
| InventoryHandler.IdentityKept | edc/engine/handlers/inventory.py:10-23 | Commander and LoadGame take the commander and ship from truthy fields and keep them otherwise, take the ship id only from an int, change no other commander field, and leave the inventories alone |
| InventoryHandler.MaterialsPerCategory | edc/engine/handlers/inventory.py:25-35 | Materials replaces each category's counts and display names only when its key holds a value, and changes nothing else: not `materials_localised`, not the ship locker, not the commander |
| InventoryHandler.SnapshotsGuarded | edc/engine/handlers/inventory.py:37-58 | ShipLocker replaces the locker only when `Items` holds a value, Cargo replaces the cargo list only with a list, and neither sends a notice |
| InventoryHandler.InventoryDeclines | edc/engine/handlers/inventory.py:58 | any other kind returns False, changes nothing and sends nothing |
| InventoryHandler.Handle | edc/engine/handlers/inventory.py:5-58 | the handler changes only the commander and inventory fields, as the value-level handler says, and returns its flag and notices |
| ExobioHandler.ScanMessages | edc/engine/handlers/exobio.py:30-34 | there is a notice iff the genus is a non-blank string: "Exobio scan: genus / species" when the species is one too, else "Exobio scan: genus" |
| ExobioHandler.ExobioSpec | edc/engine/handlers/exobio.py:4-45 | the handler returns True exactly for ScanOrganic and SellOrganicData |
| ExobioHandler.ScanRecorded | edc/engine/handlers/exobio.py:10-35 | ScanOrganic stores the event as the last organic scan, sets the last body only from a non-blank string, never changes the last organic value (the estimate call does not exist and its error is swallowed), changes nothing else and leaves the ledgers alone |
| ExobioHandler.SaleSeparate | edc/engine/handlers/exobio.py:37-43 | SellOrganicData adds an int `BioDataValue` to `session_exobio_earnings` and to no other ledger, so `session_exo_earnings` is untouched; a non-int value changes nothing and sends nothing |
| ExobioHandler.ExobioDeclines | edc/engine/handlers/exobio.py:45 | any other kind returns False, changes nothing and sends nothing |
| ExobioHandler.Handle | edc/engine/handlers/exobio.py:4-45 | the handler changes only the survey and ledger fields, as the value-level handler says, and returns its flag and notices |
| MiscHandler.MiscSpec | edc/engine/handlers/misc.py:4-53 | the handler returns True exactly for RedeemVoucher, CommunityGoalJoin, CommunityGoal and ShipTargeted |
| MiscHandler.VoucherAdds | edc/engine/handlers/misc.py:10-16 | an int `Amount` is added to the voucher ledger and nothing else changes; a non-int amount changes nothing and sends nothing |
| MiscHandler.JoinRecord | edc/engine/handlers/misc.py:18-33 | a join with an int CGID leaves a record under that id holding the id, the event's truthy Name (else the record's Title) and its truthy System (else the record's SystemName); every other goal and ledger stays |
| MiscHandler.JoinWrites | edc/engine/handlers/misc.py:22-29 | the updated record holds the id, the chosen title and the chosen system |
| MiscHandler.SettledByJoin | edc/engine/handlers/misc.py:22-29 | a record already holding the id and a title and system that the event does not override is left exactly as it is |
| MiscHandler.JoinSettles | edc/engine/handlers/misc.py:22-29 | a record a join produced is left as it is by the same join |
| MiscHandler.JoinIdempotent | edc/engine/handlers/misc.py:18-33 | joining the same goal again leaves the goals as the first join did and repeats its notice |
| MiscHandler.GoalMerged | edc/engine/handlers/misc.py:35-41 | with an int CGID every event field is written into the goal's record, which keeps its other fields; a non-int CGID changes nothing; no notice |
| MiscHandler.TargetGuarded | edc/engine/handlers/misc.py:43-51 | the last target ship and pilot (localised name first) change only to non-blank strings, and nothing else changes |
| MiscHandler.MiscDeclines | edc/engine/handlers/misc.py:53 | any other kind returns False, changes nothing and sends nothing |
| MiscHandler.JoinGoal | edc/engine/handlers/misc.py:18-33 | the join branch leaves the ledger and the notice that the value-level join gives |
| MiscHandler.Handle | edc/engine/handlers/misc.py:4-53 | the handler changes only the ledger and combat fields, as the value-level handler says, and returns its flag and notices |
| PowerplayHandler.PledgeMessages | edc/engine/handlers/powerplay.py:23-24 | a notice "Powerplay: power (state)" is sent iff the power is truthy, with "n/a" for a falsy state |
| PowerplayHandler.PowerplaySpec | edc/engine/handlers/powerplay.py:4-27 | the handler returns True exactly for the Powerplay kind |
| PowerplayHandler.PledgeKept | edc/engine/handlers/powerplay.py:11-20 | a falsy Power or State keeps the previous one, merits and rank change only to ints, and the other pledge fields stay |
| PowerplayHandler.NoticeWhenPledged | edc/engine/handlers/powerplay.py:23-24 | a notice is sent exactly when a power is known after the event, and it shows "n/a" when no state is known |
| PowerplayHandler.PowerplayDeclines | edc/engine/handlers/powerplay.py:27 | any other kind changes nothing and sends nothing |
| PowerplayHandler.Handle | edc/engine/handlers/powerplay.py:4-27 | the handler changes only the pledge fields, as the value-level handler says, and returns its flag and notices |
| ExplorationHandler.Pick | edc/engine/handlers/exploration.py:74-93 | a description is the truthy `_Localised` field, else the truthy cleaned raw token, else the previous value |
| ExplorationHandler.GeneraOf | edc/engine/handlers/exploration.py:234-240 | every collected genus is non-empty and trimmed |
| ExplorationHandler.ExplorationSpec | edc/engine/handlers/exploration.py:33-260 | the handler returns True exactly for the eleven kinds it lists |
| ExplorationHandler.JumpClears | edc/engine/handlers/exploration.py:39-66 | an FSDJump to a truthy, different system empties the per-system data and meta before the new meta is read and adds `str(system)` to the visited systems; a jump to the same system clears nothing; the survey and ledgers stay and no notice is sent |
| ExplorationHandler.JumpTravel | edc/engine/handlers/exploration.py:68-69 | after an FSDJump the system is the event's when truthy and the previous one otherwise, the address changes only to an int, and the intel is applied for that system and address |
| ExplorationHandler.DescriptionChoice | edc/engine/handlers/exploration.py:118-137 | each of allegiance, government, economy and security is the truthy `_Localised` field, else the truthy cleaned raw token, else the value before |
| ExplorationHandler.JumpPowerplay | edc/engine/handlers/exploration.py:99-104 | a truthy `PowerplayState` is copied into both the controlling power and the PowerPlay state field, powers change only to a list, and conflict progress changes only to a dict |
| ExplorationHandler.LocationKeeps | edc/engine/handlers/exploration.py:110-141 | a Location sets the system only from a truthy name, re-reads the descriptions, and clears nothing |
| ExplorationHandler.ScanStoresRaw | edc/engine/handlers/exploration.py:153-174 | a Scan with a non-blank name stores the raw event as that body's record, sets the last body and, for an int BodyID, the id-to-name entry; `body_values` never changes; a blank name changes nothing |
| ExplorationHandler.MappedMarks | edc/engine/handlers/exploration.py:176-183 | SAAScanComplete sets `SAAScanComplete` to True on the body's record, creating the record when missing and keeping its other fields, and leaves the other bodies alone |
| ExplorationHandler.SignalAppended | edc/engine/handlers/exploration.py:195-205 | an FSSSignalDiscovered with a string SignalType appends exactly one bare category string, which is never "Megaship" |
| ExplorationHandler.GeneraSorted | edc/engine/handlers/exploration.py:234-242 | the stored genera are ascending, each once, and exactly the trimmed non-blank genus names of the dict entries |
| ExplorationHandler.GeneraNamed | edc/engine/handlers/exploration.py:234-240 | a genus is collected iff some dict entry names it |
| ExplorationHandler.SaleAdds | edc/engine/handlers/exploration.py:252-258 | an int `TotalEarnings` is added to the exploration ledger with one notice; anything else adds nothing and sends nothing; the other ledgers stay |
| ExplorationHandler.ExplorationDeclines | edc/engine/handlers/exploration.py:260 | any other kind returns False, changes nothing and sends nothing |
| ExplorationHandler.CollectGenera | edc/engine/handlers/exploration.py:234-240 | the genus loop collects exactly the reference list of genera |
| ExplorationHandler.FsdJump | edc/engine/handlers/exploration.py:39-108 | the FSDJump branch leaves the travel, system and meta fields and the store that the value-level branch gives |
| ExplorationHandler.Location | edc/engine/handlers/exploration.py:110-141 | the Location branch leaves the travel, system and meta fields and the store that the value-level branch gives |
| ExplorationHandler.Scan | edc/engine/handlers/exploration.py:153-174 | the Scan branch changes only the system and survey fields, as the value-level branch says |
| ExplorationHandler.BodySignals | edc/engine/handlers/exploration.py:207-220 | the FSSBodySignals branch changes only the system fields, as the value-level branch says |
| ExplorationHandler.SaaSignals | edc/engine/handlers/exploration.py:222-243 | the SAASignalsFound branch changes only the system and survey fields, as the value-level branch says |
| ExplorationHandler.StartJump | edc/engine/handlers/exploration.py:143-151 | the StartJump branch changes only the travel fields, as the value-level branch says |
| ExplorationHandler.SaaScanComplete | edc/engine/handlers/exploration.py:176-183 | the SAAScanComplete branch changes only the system fields, as the value-level branch says |
| ExplorationHandler.DiscoveryScan | edc/engine/handlers/exploration.py:185-193 | the FSSDiscoveryScan branch changes only the system fields, as the value-level branch says |
| ExplorationHandler.SignalDiscovered | edc/engine/handlers/exploration.py:195-205 | the FSSSignalDiscovered branch changes only the system fields, as the value-level branch says |
| ExplorationHandler.Codex | edc/engine/handlers/exploration.py:245-250 | the CodexEntry branch changes only the survey fields, as the value-level branch says |
| ExplorationHandler.SellExplorationData | edc/engine/handlers/exploration.py:252-258 | the MultiSellExplorationData branch changes only the ledger, as the value-level branch says, and returns its notice |
| ExplorationHandler.Handle | edc/engine/handlers/exploration.py:33-260 | the handler changes only the travel, system, meta, survey and ledger fields and the store, as the value-level handler says, and returns its flag and notices |
| InlineBodies.Named | edc/core/event_engine.py:385-387 | an int BodyID maps to the body's name and nothing else changes; any other id changes nothing |
| InlineBodies.TerraformFlag | edc/core/event_engine.py:388-389 | the expression raises iff the state is truthy and not a string, and is True iff it is a non-empty string that does not lower-case to "not terraformable" |
| InlineBodies.ScanWithoutClassReturns | edc/core/event_engine.py:379-384 | a Scan of a named body without a truthy planet class returns early with nothing changed, so the handler chain does not see it |
| InlineBodies.ScanTouchesOneBody | edc/core/event_engine.py:385-435 | a completed Scan adds or updates only the body's record (built from its previous record and the estimate) and the id's name, and the other bodies stay |
| InlineBodies.WithSignalsKeeps | edc/core/event_engine.py:429-434 | copying the known signals touches only the BioSignals, BioGenuses and GeoSignals members |
| InlineBodies.ScanMembersFields | edc/core/event_engine.py:413-428 | the update writes the body's name, the mapped flag, `FirstDiscovered` as the negated discovered flag and the estimate, and keeps every member it does not write |
| InlineBodies.ScanRecordFields | edc/core/event_engine.py:413-435 | the stored record has those written members and keeps every other member of the previous record |
| InlineBodies.Scan | edc/core/event_engine.py:379-435 | the Scan branch changes only the per-system data, as the value-level branch says, and returns its flow |
| InlineBodies.SaaMarksMapped | edc/core/event_engine.py:437-452 | completing a surface scan sets `Mapped` to True and keeps every member but the estimate; without a table or a planet class the estimate stays too |
| InlineBodies.SaaIdempotent | edc/core/event_engine.py:437-452 | completing the same surface scan again changes nothing more |
| InlineBodies.SaaScanComplete | edc/core/event_engine.py:437-452 | a blank or unrecorded body changes nothing; a recorded one gets the surface-scan update, and the branch raises exactly when the estimate does |
| InlineBodies.FssDiscoveryScan | edc/core/event_engine.py:454-461 | only the two counters change, each only to an int |
| InlineBodies.EntryOf | edc/core/event_engine.py:522-533 | a signal entry that is not a dict makes the loop raise |
| InlineBodies.TallyFaults | edc/core/event_engine.py:522-533 | the count loop raises exactly when some entry faults |
| InlineBodies.TallyLastBio | edc/core/event_engine.py:526-529 | without a fault, the biological count is the Count of the last entry that sets it |
| InlineBodies.TallyNoBio | edc/core/event_engine.py:520-533 | without a fault and without an entry that sets it, the biological count is 0 |
| InlineBodies.CountSignals | edc/core/event_engine.py:520-533 | the loop returns the counts of the reference tally, or raises when it does |
| InlineBodies.FssSignalsRecord | edc/core/event_engine.py:535-555 | FSSBodySignals stores both counts in the maps and in the body's record, creates a record named after the body when missing, sets an int BodyID, and leaves the other bodies alone |
| InlineBodies.FssBodySignals | edc/core/event_engine.py:510-555 | the FSSBodySignals branch changes only the per-system data, as the value-level branch says, and returns its flow |
| InlineBodies.GenusItems | edc/core/event_engine.py:584 | a list is iterated as it is, and only a truthy number makes the `for` raise |
| InlineBodies.CollectGenuses | edc/core/event_engine.py:583-590 | the loop collects the normalised non-empty genera in order, repeats kept |
| InlineBodies.DedupeSound | edc/core/event_engine.py:594-599 | de-duplication keeps exactly the names it was given, none twice |
| InlineBodies.DedupeKeepsFirst | edc/core/event_engine.py:596-599 | de-duplication keeps the first occurrence of each name in place |
| InlineBodies.Dedupe | edc/core/event_engine.py:594-600 | the `seen` loop returns the reference de-duplicated list |
| InlineBodies.GenusListSound | edc/core/event_engine.py:583-600 | the stored genera are non-empty, normalised, listed once each, and exactly the names the entries give |
| InlineBodies.SaaSignalsRecord | edc/core/event_engine.py:580-621 | SAASignalsFound stores a non-empty genus list in the map and the record and keeps the old list otherwise, and stores a truthy biological count and keeps the old one otherwise |
| InlineBodies.SaaStoreFrame | edc/core/event_engine.py:602-621 | the DSS result leaves the geological counts and the other bodies' records alone |
| InlineBodies.SaaRecordReads | edc/core/event_engine.py:618-620 | the record's genus list and biological count are the state's, when the state has them |
| InlineBodies.SaaSignalsFound | edc/core/event_engine.py:557-621 | the SAASignalsFound branch changes only the per-system data, as the value-level branch says, and returns its flow |
| InlineSystem.FactionName | edc/core/event_engine.py:179-180 | a falsy faction gives None, a dict gives its `Name`, and the lookup raises exactly when the value is truthy and not a dict |
| InlineSystem.PowersOf | edc/core/event_engine.py:185-186 | a falsy value gives no powers, a list gives its string items, and only a truthy number or bool raises |
| InlineSystem.ProgressEntry | edc/core/event_engine.py:188-191 | an accepted conflict-progress record is stored as a float |
| InlineSystem.ConflictProgressOf | edc/core/event_engine.py:187-192 | a falsy value gives an empty map, a list gives the map its records build, and only a truthy number or bool raises |
| InlineSystem.ProgressHas | edc/core/event_engine.py:187-192 | a power has progress exactly when some accepted record names it |
| InlineSystem.ProgressReal | edc/core/event_engine.py:191 | every stored progress is a float |
| InlineSystem.CollectProgress | edc/core/event_engine.py:187-192 | the loop builds the reference progress map |
| InlineSystem.LocationStage | edc/core/event_engine.py:179-193 | the faction block stops at one of three places where it can raise, or completes |
| InlineSystem.FactionBlock | edc/core/event_engine.py:179-193 | the faction block writes only the controlling faction, the factions and the four powerplay fields |
| InlineSystem.LocationMessages | edc/core/event_engine.py:196-197 | a truthy system gives the one Location notice, otherwise none |
| InlineSystem.LocationClears | edc/core/event_engine.py:142-170 | a Location naming a new, truthy system empties every per-system group but the intel POIs and clears the contacts; otherwise those stay as they were |
| InlineSystem.LocationFlow | edc/core/event_engine.py:179-197 | the branch falls through to the handler chain exactly when the faction block completes; before that point the intel and the messages stay untouched |
| InlineSystem.LocationIdempotent | edc/core/event_engine.py:140-197 | a repeated Location changes nothing more |
| InlineSystem.SetLocationFactions | edc/core/event_engine.py:179-193 | the method writes the faction block's state and raises at the stage the function names |
| InlineSystem.Location | edc/core/event_engine.py:140-197 | the Location branch leaves travel, the per-system groups, combat and the intel view as the value-level branch says, and returns its flow and messages |
| InlineSystem.JumpMessages | edc/core/event_engine.py:241-242 | a truthy target gives the one jump notice with its star class, otherwise none |
| InlineSystem.StartJumpClears | edc/core/event_engine.py:199-242 | a hyperspace jump empties every per-system group but the intel POIs, clears the contacts, enters hyperspace at the target, and the arrival in that system does not clear again |
| InlineSystem.StartJump | edc/core/event_engine.py:199-242 | the StartJump branch leaves travel, the per-system groups, combat and the intel view as the value-level branch says, and returns its messages |
| InlineSystem.PledgeMessages | edc/core/event_engine.py:366-367 | a truthy power gives the one pledge notice, otherwise none |
| InlineSystem.Powerplay | edc/core/event_engine.py:362-367 | the three pledge fields take the event's values, None when missing, and the rest of the pledge stays |
| InlineCombat.RankName | edc/core/event_engine.py:263-279 | an int rank 0..8 shows its name, any other int and any non-string show "" |
| InlineCombat.ContactKey | edc/core/event_engine.py:288-292 | the key of pilot, ship and faction joined by bars exists exactly when all three parts are strings; otherwise `.strip()` raises |
| InlineCombat.WhoBits | edc/core/event_engine.py:338 | the who-line keeps at most the three parts it is given |
| InlineCombat.DroppedClears | edc/core/event_engine.py:245-252 | a dropped target clears the alert, the alert list and the current contact, keeps the contacts, and skips the handler chain |
| InlineCombat.EarlyScanKeeps | edc/core/event_engine.py:254-256 | an int scan stage below 3 changes nothing and skips the chain |
| InlineCombat.ScanRecordsContact | edc/core/event_engine.py:288-306 | a completed scan files the contact under its key and makes it current, or raises and changes nothing when a key part is not a string |
| InlineCombat.AlertIffFires | edc/core/event_engine.py:308-361 | the branch falls through to the chain exactly when a completed, keyed scan meets the alert rule, and then sends exactly one notice, which becomes the current alert; otherwise it sends none |
| InlineCombat.OutsideOwnSpaceOnlyBounty | edc/core/event_engine.py:318-334 | outside the pledged power's space only a pledged commander's wanted target with a bounty of at least 500,000 cr and a Dangerous, Deadly or Elite rank alerts |
| InlineCombat.HighIntRank | edc/core/event_engine.py:263-279 | an int rank qualifies for a bounty alert exactly when it is 6, 7 or 8 |
| InlineCombat.ContactKeyIgnoresPower | edc/core/event_engine.py:286-292 | the target's power is not part of the contact key, so a later sighting with a power gets the same row |
| InlineCombat.ShipTargetedIdempotent | edc/core/event_engine.py:243-361 | replaying the same ShipTargeted leaves combat as the first one did |
| InlineCombat.ShipTargeted | edc/core/event_engine.py:243-361 | the ShipTargeted branch leaves combat as the value-level step says, from the pledged power and the controlling power, and returns its flow and messages |
| InlineCargo.LimpetsFrom | edc/core/event_engine.py:371-375 | an empty inventory gives 0 limpets |
| InlineCargo.FirstDronesWins | edc/core/event_engine.py:372-375 | the first `drones` entry decides the limpet count; earlier entries do not matter |
| InlineCargo.NoDronesNoLimpets | edc/core/event_engine.py:371-376 | a well-formed inventory without drones gives 0 limpets |
| InlineCargo.CountLimpets | edc/core/event_engine.py:372-375 | the loop returns the reference limpet count, stopping at the first drones entry |
| InlineCargo.Cargo | edc/core/event_engine.py:369-378 | the cargo count is set first, so a raising inventory leaves it set and the limpets as they were; otherwise both are set and one notice is sent |
| InlineSignals.FirstKeyFrom | edc/core/event_engine.py:490-494 | the index found is the first dict entry filed under the key; when none is found no entry has it |
| InlineSignals.FindSignal | edc/core/event_engine.py:490-494 | the `enumerate` loop returns the first index filed under the key, or none |
| InlineSignals.Bounded | edc/core/event_engine.py:504-507 | the list keeps at most 200 entries |
| InlineSignals.KeyCountBounded | edc/core/event_engine.py:504-507 | dropping the oldest entries never files a key more often |
| InlineSignals.KeyCountReplace | edc/core/event_engine.py:498-502 | updating an entry with a dict of the same key keeps every key's count |
| InlineSignals.EntryHasKey | edc/core/event_engine.py:473-486 | the entry is filed under the key it is looked up by |
| InlineSignals.UpsertKeepsUnique | edc/core/event_engine.py:488-508 | after the branch the list holds at most 200 entries, and if no key was filed twice before, none is filed twice after |
| InlineSignals.UpsertFiles | edc/core/event_engine.py:488-508 | within the bound, the signal is on the list afterwards exactly once and carries every member of the new entry |
| InlineSignals.FssSignalDiscovered | edc/core/event_engine.py:463-508 | only the signal list changes, to the list with the event's entry upserted under its key and bounded |
| InlineExo.KeyParts | edc/core/event_engine.py:640-641 | a key built from three parts without a bar character splits back into those three parts |
| InlineExo.DropUpToEntries | edc/core/event_engine.py:636-646 | a record survives the placeholder sweep exactly when the sweep did not visit its key or the rule spares it, and the survivors keep their records |
| InlineExo.DropAllEntries | edc/core/event_engine.py:636-646 | over the whole key order exactly the keys the rule drops go |
| InlineExo.DropNothing | edc/core/event_engine.py:636-646 | a sweep that finds nothing to drop leaves the records as they were |
| InlineExo.DropKeys | edc/core/event_engine.py:636-646 | the loop over a snapshot of the keys returns the reference sweep |
| InlineExo.Fill | edc/core/event_engine.py:667-669 | an empty field takes the legacy record's non-empty value, and a field with a value of its own keeps the whole record |
| InlineExo.FillAllKeeps | edc/core/event_engine.py:667-669 | a field with a value of its own, or outside the four filled fields, is not touched |
| InlineExo.MergeSamples | edc/core/event_engine.py:662-665 | the merge keeps the larger of the two sample counts |
| InlineExo.MergeComplete | edc/core/event_engine.py:666 | the merged record is complete when either record was |
| InlineExo.MergeKeepsOwn | edc/core/event_engine.py:667-669 | a filled field the record already has a value for is never overwritten |
| InlineExo.MigrateDrops | edc/core/event_engine.py:654-672 | the migration removes exactly the legacy keys under the species key, as the sweep does |
| InlineExo.MigrateNothing | edc/core/event_engine.py:654-672 | without legacy keys the record and the dict are not touched |
| InlineExo.MigrateKeepsComplete | edc/core/event_engine.py:654-672 | a complete record stays complete through the migration |
| InlineExo.Migrate | edc/core/event_engine.py:654-672 | the migration loop returns the reference migration |
| InlineExo.OrganicValue | edc/core/event_engine.py:683-686 | without a value table there is no base value |
| InlineExo.Progress | edc/core/event_engine.py:692-701 | a log makes the count at least 1, a sample advances it by one up to 3, an analysis makes it at least 3, any other kind keeps it, and a count in 0..3 only grows and stays within 3 |
| InlineExo.TaggedSamples | edc/core/event_engine.py:674-686 | tagging the record leaves its sample count alone |
| InlineExo.TaggedNames | edc/core/event_engine.py:674-682 | tagging names the body, genus, species and scan kind |
| InlineExo.ProgressedFields | edc/core/event_engine.py:703-704 | the record holds the new count and is complete iff the count reached 3 or the scan was an analysis; every other member stays |
| InlineExo.OrganicRecord | edc/core/event_engine.py:674-704 | the record advances exactly when its stored count converts, and then holds the new count, the completion flag and the organism's names |
| InlineExo.ScanOrganicOthers | edc/core/event_engine.py:633-706 | a ScanOrganic removes only the body's placeholders for the genus and the species' legacy keys; every other record stays untouched |
| InlineExo.ScanOrganicValid | edc/core/event_engine.py:623-706 | the records stay a well-formed ordered dict |
| InlineExo.ScanOrganic | edc/core/event_engine.py:623-706 | only the exobiology records change, as the value-level branch says, and the branch returns its flow |
| InlineExo.OrganicKeyNotPlaceholder | edc/core/event_engine.py:641-649 | a species key whose parts have no bar character and whose species is not CODEX is not a placeholder |
| InlineExo.ScanOrganicAdvances | edc/core/event_engine.py:623-706 | a scan of a species without legacy keys stores the advanced count and completion flag under the species key |
| InlineExo.ScanKinds | edc/core/event_engine.py:625-693 | "Log" and "Sample" are read as the scan kinds log and sample |
| InlineExo.LogSampleSampleCompletes | edc/core/event_engine.py:688-704 | a Log and two Samples complete a species at three of three from any stored count |
| InlineExo.OrganicGenusTrimmed | edc/core/event_engine.py:626 | the genus of a ScanOrganic has no whitespace at its ends |
| InlineExo.Voucher | edc/core/event_engine.py:714-716 | only the codex tally changes, and it grows exactly for a positive int voucher |
| InlineExo.FindScanned | edc/core/event_engine.py:727-738 | the loop over the records reports whether a real scan of the body and genus exists |
| InlineExo.CodexOthers | edc/core/event_engine.py:783-809 | a placed codex entry removes only legacy keys under its placeholder; every other record stays |
| InlineExo.PlaceholderFields | edc/core/event_engine.py:793-808 | the placeholder records the codex entry with no samples, not complete, scan kind CODEX and the same base and potential value |
| InlineExo.CodexPlaces | edc/core/event_engine.py:783-809 | one placeholder is left for the body and genus, with no legacy keys under it |
| InlineExo.PlaceholderHolds | edc/core/event_engine.py:794-808 | the placeholder holds every member it was written with |
| InlineExo.PlaceholderDoesNotBlock | edc/core/event_engine.py:734-736 | a placeholder is not a real scan and never blocks another codex entry |
| InlineExo.CodexStillOpen | edc/core/event_engine.py:725-809 | after a placed codex entry no record blocks the same entry |
| InlineExo.CodexEntryIdempotent | edc/core/event_engine.py:708-809 | re-applying the same codex entry leaves the records as the first one did |
| InlineExo.ScanStoresOrganic | edc/core/event_engine.py:650-706 | a completed scan stores the record advanced from the migrated one under the species key |
| InlineExo.ScannedRecordBlocks | edc/core/event_engine.py:731-736 | a scanned record blocks a placeholder for its own body and genus |
| InlineExo.ScanBlocksCodex | edc/core/event_engine.py:725-736 | after a ScanOrganic, a codex entry for the same body and genus changes nothing |
| InlineExo.ScanClearsPlaceholder | edc/core/event_engine.py:633-646 | a ScanOrganic of a genus removes the placeholder a codex entry left for it on the body |
| InlineExo.CodexEntry | edc/core/event_engine.py:708-809 | the codex tally changes as the voucher rule says and the records as the value-level branch says |
| InlineExo.SaleSplit | edc/core/event_engine.py:813-820 | two batches sold together total what the two total apart |
| InlineExo.SaleTotal | edc/core/event_engine.py:813-820 | the loop returns the reference total, or fails where `.get` on a non-dict item raises |
| InlineExo.SaleNoneStays | edc/core/event_engine.py:814-815 | once the total fails it stays failed |
| InlineExo.SellTwice | edc/core/event_engine.py:811-823 | two sales with non-negative totals earn what one sale of both lists earns |
| InlineExo.SellOrganicData | edc/core/event_engine.py:811-823 | the ledger, the flow and the notice are as the value-level sale says |
| PlanetValues.NormIsNormal | edc/core/planet_values.py:9-10 | the normalised name is lower-case alphanumeric |
| PlanetValues.NormOfNormal | edc/core/planet_values.py:9-10 | a lower-case alphanumeric name normalises to itself |
| PlanetValues.NormIdempotent | edc/core/planet_values.py:9-10 | normalising twice is normalising once |
| PlanetValues.InsertValid | edc/core/planet_values.py:58 | inserting a row keeps one row per (type, terraformable) key |
| PlanetValues.TypeNormIndexesKeys | edc/core/planet_values.py:31-33 | every indexed name maps to the planet type of a key that normalises to it |
| PlanetValues.TypeNormCoversKeys | edc/core/planet_values.py:31-33 | every key's planet type is reachable from its normalised name |
| PlanetValues.NewTable | edc/core/planet_values.py:28-33 | the constructor's loop builds the name index of the rows' keys |
| PlanetValues.TypeForKey | edc/core/planet_values.py:69-91 | a lookup by normalised key yields only an indexed planet type |
| PlanetValues.CanonicalType | edc/core/planet_values.py:66-91 | an empty class has no type, and any type found is an indexed one |
| PlanetValues.NormItems | edc/core/planet_values.py:9-10 | normalising a list raises exactly when an element is not a string |
| PlanetValues.NormJson | edc/core/planet_values.py:9-10 | a string normalises as a string and a falsy value to "" |
| PlanetValues.NormPieceChar | edc/core/planet_values.py:10 | a one-character string is kept, lower-cased, exactly when its character is alphanumeric |
| PlanetValues.CanonicalTypeHasRow | edc/core/planet_values.py:66-91 | the canonical type of a built table is the type of one of its rows |
| PlanetValues.CanonicalTypeByNorm | edc/core/planet_values.py:66-91 | class names with the same normalised form resolve to the same type |
| PlanetValues.CanonicalTypeDirect | edc/core/planet_values.py:69-72 | a class whose normalised name a row type shares resolves to that type, before any alias |
| PlanetValues.HighMetalAlias | edc/core/planet_values.py:74-89 | "High metal content world" and "body" reach the "High Metal Content Planet" rows when no type matches them directly |
| PlanetValues.AliasNeedsTarget | edc/core/planet_values.py:87-91 | an unmatched class with no alias, or an alias whose target is not indexed, has no type |
| PlanetValues.Figure | edc/core/planet_values.py:107-113 | first discovery and mapping pick the one of the four columns |
| PlanetValues.Estimate | edc/core/planet_values.py:93-113 | no type or no row for (type, terraformable) gives None; otherwise the figure of that row |
| PlanetValues.EstimateJson | edc/core/planet_values.py:9-10 | a falsy class gives None, and the estimate raises exactly when normalising the class does |
| PlanetValues.EstimateJsonStr | edc/core/planet_values.py:93-113 | for a string class the general estimate is the string estimate |
| PlanetValues.EstimateJsonNumberRaises | edc/core/planet_values.py:10 | a truthy number or bool class makes the estimate raise |
| PlanetValues.ParseRowCases | edc/core/planet_values.py:43-57 | a kept row carries the entry's own type and terraformable flag, an entry without both is skipped, and a non-dict entry raises |
| PlanetValues.CollectValid | edc/core/planet_values.py:42-58 | the collected rows keep one row per key |
| PlanetValues.CollectLaterWins | edc/core/planet_values.py:58 | a later row with the same (type, terraformable) replaces the earlier one |
| PlanetValues.LoadSpec | edc/core/planet_values.py:36-64 | a loaded table is built from its rows and has at least one |
| PlanetValues.LoadNoRows | edc/core/planet_values.py:36-64 | when no path decodes to a valid row there is no table |
| PlanetValues.ReadRow | edc/core/planet_values.py:44-57 | the loop body reads an entry as the reference parse does |
| PlanetValues.CollectRows | edc/core/planet_values.py:43-58 | the rows loop returns the reference collection |
| PlanetValues.CollectRaisedStays | edc/core/planet_values.py:38-63 | once an entry raised the document's collection stays failed |
| PlanetValues.LoadFromPaths | edc/core/planet_values.py:36-64 | the loop over the paths returns the first table with rows |
| ItemCatalog.ByNameHas | edc/core/item_catalog.py:86-108 | a key is catalogued exactly when some named record has it |
| ItemCatalog.ByNameLast | edc/core/item_catalog.py:108 | a key holds the record of the last item named with it |
| ItemCatalog.KeysWithinCount | edc/core/item_catalog.py:108-109 | records that share a key are all counted but catalogued once, so there are never more keys than the count |
| ItemCatalog.DuplicateCountedTwice | edc/core/item_catalog.py:108-109 | two records with one key count twice and the catalogue keeps the second |
| ItemCatalog.SameNameCountedTwice | edc/core/item_catalog.py:89-109 | two records whose names normalise and lower-case alike count twice and the second is catalogued |
| ItemCatalog.FlatName | edc/core/item_catalog.py:93-94 | the stored name is the normalised one |
| ItemCatalog.NormFieldSame | edc/core/item_catalog.py:96-98 | a field the record has is stored normalised, and one it lacks stays absent |
| ItemCatalog.FlatLocations | edc/core/item_catalog.py:99-106 | the stored locations are the record's locations as normalised |
| ItemCatalog.FlatField | edc/core/item_catalog.py:96-98 | a type, subtype or grade the record has is stored normalised, and one it lacks stays absent |
| ItemCatalog.LocationsClean | edc/core/item_catalog.py:99-106 | every stored location is a non-empty normalised string |
| ItemCatalog.Label | edc/core/item_catalog.py:148-150 | both parts give `type / subtype`, one part gives that part, none gives "" |
| ItemCatalog.SubtypeLabelOfItem | edc/core/item_catalog.py:136-150 | a catalogued record's label is built from its own type and subtype, normalised |
| ItemCatalog.LoadSpec | edc/core/item_catalog.py:59-118 | a missing file empties the catalog, an unchanged modification time keeps it unless forced, and a file that does not decode empties it |
| ItemCatalog.Lookup | edc/core/item_catalog.py:128-134 | a blank key finds nothing, and a record is found exactly when its key is catalogued |
| ItemCatalog.LookupOfDoc | edc/core/item_catalog.py:86-134 | any spelling of a name that normalises and lower-cases the same finds the last record loaded under it |
| ItemCatalog.NoDataWithoutFile | edc/core/item_catalog.py:59-118 | a missing or unreadable file leaves an empty catalog without a last-updated date |
| ItemCatalog.Catalog.constructor | edc/core/item_catalog.py:38-46 | the new catalog is the forced load of what the file looks like |
| ItemCatalog.Catalog.ReadItem | edc/core/item_catalog.py:87-108 | the loop body reads an item as the reference parse does |
| ItemCatalog.Catalog.Collect | edc/core/item_catalog.py:82-112 | the loop returns the reference catalogue and count |
| ItemCatalog.Catalog.Load | edc/core/item_catalog.py:59-118 | the new catalog state is the load of the old one |
| ItemCatalog.Catalog.HasData | edc/core/item_catalog.py:120-122 | reloads unless unchanged, then reports whether any record was counted |
| ItemCatalog.Catalog.Count | edc/core/item_catalog.py:124-126 | reloads unless unchanged, then returns the count |
| ItemCatalog.Catalog.GetRecord | edc/core/item_catalog.py:128-134 | reloads unless unchanged, then looks the name up |
| ItemCatalog.Catalog.GetSubtypeLabel | edc/core/item_catalog.py:136-150 | reloads unless unchanged, then returns the record's label |
| JournalWatcher.Latest | edc/core/journal_watcher.py:131-135 | there is a newest journal exactly when the listing is not empty, and it is one of the listed files |
| JournalWatcher.LatestSpec | edc/core/journal_watcher.py:131-135 | the journal chosen has the largest modification time, and among the files with that time the least name |
| JournalWatcher.FindLatestJournal | edc/core/journal_watcher.py:131-135 | the one-pass search returns the reference newest journal |
| JournalWatcher.AfterSpec | edc/core/journal_watcher.py:89-94 | the partial line dropped is the one that holds the window's first byte, and the first line kept starts after it |
| JournalWatcher.WindowSpec | edc/core/journal_watcher.py:89-94 | a file within 256 KiB is read whole; a larger one from the line after the one holding the first byte of its last 256 KiB |
| JournalWatcher.CollectedIsPrefix | edc/core/journal_watcher.py:96-109 | the bootstrap collects the first 800 objects of the window's lines and no more |
| JournalWatcher.CollectWindow | edc/core/journal_watcher.py:96-109 | the `for line` loop returns the reference collection |
| JournalWatcher.LastAnchorSpec | edc/core/journal_watcher.py:114-120 | the anchor found is a Location or FSDJump after which no other follows; when none is found there is none |
| JournalWatcher.Anchor | edc/core/journal_watcher.py:115-120 | the anchor index lies within the collected records |
| JournalWatcher.FindAnchor | edc/core/journal_watcher.py:114-120 | the backwards loop returns the reference anchor |
| JournalWatcher.EventsSpec | edc/core/journal_watcher.py:123-125 | one event signal per forwarded record, in order |
| JournalWatcher.ForwardedSpec | edc/core/journal_watcher.py:114-125 | the forwarded records start at the last anchor and hold no other; without an anchor every collected record is forwarded |
| JournalWatcher.BootstrapBound | edc/core/journal_watcher.py:85-129 | at most 800 records are forwarded, each a dict line of the window, in order; with none collected nothing is emitted |
| JournalWatcher.Forward | edc/core/journal_watcher.py:122-125 | the forwarding loop emits the records from the anchor on and counts them |
| JournalWatcher.Bootstrap | edc/core/journal_watcher.py:85-129 | the bootstrap emits the reference signals |
| JournalWatcher.PollNotice | edc/core/journal_watcher.py:36-43 | a poll without a journal sends the notice only when it is not already given, and a poll with one re-arms it |
| JournalWatcher.AbsenceStretch | edc/core/journal_watcher.py:36-42 | a stretch of polls without a journal sends the notice at most once |
| JournalWatcher.Rotation | edc/core/journal_watcher.py:45-83 | a newest file other than the current one is bootstrapped and then tailed from its end |
| JournalWatcher.Tailing | edc/core/journal_watcher.py:48-60 | while the same file stays newest, each poll reads at most one new line; a bad one sends exactly one error and a non-dict nothing |
| JournalWatcher.RanStopped | edc/core/journal_watcher.py:34 | once the running flag is cleared no later tick changes the state or emits |
| JournalWatcher.StopEnds | edc/core/journal_watcher.py:24-34 | after `stop()` nothing more is emitted and the loop ends |
| JournalWatcher.NotRunning | edc/core/journal_watcher.py:34 | a loop that is not running sees no tick at all |
| JournalWatcher.Watcher.constructor | edc/core/journal_watcher.py:16-22 | a new watcher is stopped, has no file open and no notice given |
| JournalWatcher.Watcher.Stop | edc/core/journal_watcher.py:24-25 | only the running flag is cleared |
| JournalWatcher.Watcher.SwitchTo | edc/core/journal_watcher.py:77-83 | the new state and the signals are the switch's |
| JournalWatcher.Watcher.PollOnce | edc/core/journal_watcher.py:35-65 | the new state and the signals are one poll's |
| JournalWatcher.Watcher.TickOnce | edc/core/journal_watcher.py:34-65 | the new state and the signals are one tick's |
| JournalWatcher.Watcher.Loop | edc/core/journal_watcher.py:34-65 | the new state and the signals are those of the ticks the loop sees |
| JournalWatcher.Watcher.Run | edc/core/journal_watcher.py:27-67 | "Watching" is reported, the loop runs, and the file is closed |
| MainWindow.LastNonEmpty | edc/ui/main_window.py:2199-2201 | the part chosen is a non-empty part of the list, and there is none exactly when every part is empty |
| MainWindow.Tail | edc/ui/main_window.py:2197-2201 | a token with underscores keeps its last non-empty part, which has none; a token without underscores is kept |
| MainWindow.NormText | edc/ui/main_window.py:2190-2208 | the display text has no underscore, no whitespace at its ends, and does not start lower-case; an empty text stays empty |
| MainWindow.NormToken | edc/ui/main_window.py:2181-2208 | None shows as ""; the display text has no underscore, no whitespace at its ends, and does not start lower-case |
| MainWindow.NormTextCase | edc/ui/main_window.py:2205-2208 | an all-capitals core is shown as it is, any other only has its first letter upper-cased |
| MainWindow.TextOfPlain | edc/ui/main_window.py:2189 | a plain display word passes through `fmt.text` unchanged |
| MainWindow.NormTextPlain | edc/ui/main_window.py:2190-2208 | a plain display word is a fixed point of the token clean-up |
| MainWindow.NormTokenPlain | edc/ui/main_window.py:2181-2208 | a plain display word is a fixed point of `_norm_token` |
| MainWindow.NormTokenEconomy | edc/ui/main_window.py:2182-2187 | the docstring's example: `$economy_Extraction;` shows as `Extraction` |
| MainWindow.NormTokenSecurity | edc/ui/main_window.py:2182-2187 | the docstring's example: `$SYSTEM_SECURITY_low;` shows as `Low` |
| MainWindow.NormTokenGovernment | edc/ui/main_window.py:2182-2187 | the docstring's example: `$government_Corporate;` shows as `Corporate` |
| MainWindow.VariantColor | edc/ui/main_window.py:1479-1496 | a non-string shows as ""; a name without ` - ` shows collapsed; otherwise the trimmed part after the first ` - ` |
| MainWindow.VariantColorOf | edc/ui/main_window.py:1481-1486 | "Stratum Tectonicas - Green" gives "Green": the colour after the first ` - ` when the name before it has no dash |
| MainWindow.StatusRank | edc/ui/main_window.py:1785-1796 | a non-string ranks 99, COMPLETE 50, NEEDS DSS 10, UNSCANNED 20, CODEX 25, and any unlisted status 30 |
| MainWindow.SortRowsSpec | edc/ui/main_window.py:1798 | the sorted exobiology rows are the same rows, in key order |
| MainWindow.KeyRowsAppend | edc/ui/main_window.py:1798 | the rows sharing a key, taken from two lists joined, are those taken from each, in order |
| MainWindow.InsertKeyRows | edc/ui/main_window.py:1798 | inserting a row keeps the order of the rows sharing any key, the new row after them when it shares that key |
| MainWindow.SortRowsStable | edc/ui/main_window.py:1798 | `list.sort` is stable: the rows sharing a sort key, the CODEX rows among them, keep their input order |
| MainWindow.Shown | edc/ui/main_window.py:1800 | the table shows the first 80 rows, or all when there are fewer |
| MainWindow.ShownSpec | edc/ui/main_window.py:1798-1800 | at most 80 rows are shown, in key order, drawn from the rows, and every row left out sorts after every row shown |
| MainWindow.ShownStable | edc/ui/main_window.py:1798-1800 | of the rows sharing a sort key, the 80-row cap keeps the first ones, in their input order |
| MainWindow.Recommend | edc/ui/main_window.py:1382-1410 | an unpledged commander gets no advice; a stronghold or contested state gets advice of its tier; otherwise advice exists exactly when a power controls the system |
| MainWindow.FriendlyAdvice | edc/ui/main_window.py:1363-1408 | a friendly action is only recommended in a system whose controlling power equals the pledged one under Python's `==` |
| MainWindow.EnemyAdvice | edc/ui/main_window.py:1363-1408 | a hostile action is only recommended in a system whose controlling power differs from the pledged one under Python's `==` |
| MainWindow.ListsPowerOr | edc/ui/main_window.py:1348 | `powers or []` lists the same powers as `powers` |
| MainWindow.PowerPresentAdvice | edc/ui/main_window.py:1401-1403 | "your power is present" is advised exactly in unoccupied space whose list of powers holds a value equal to the pledged one under Python's `==` |
| MainWindow.RecommendByRelation | edc/ui/main_window.py:1384-1408 | outside unoccupied space, a system whose controlling power equals the pledged one under Python's `==` gets the friendly action, and any other controlling power the hostile one |
| MainWindow.EqualByValueFriendly | edc/ui/main_window.py:1363-1364 | a power recorded as `1` and one recorded as `True` are equal, so neutral space gives the friendly-space advice |
| MainWindow.Min100k | edc/ui/main_window.py:2299-2301 | a positive setting is taken as it is, 0 (the `or 10`) gives 10, and a negative one is clamped to 0 |
| MainWindow.FssValue | edc/ui/main_window.py:2302-2303 | the mapping threshold is the larger of 300,000 cr and a fifth of the minimum planet value |
| MainWindow.ExoMillions | edc/ui/main_window.py:2305 | the exobiology threshold in millions is the setting, or 2 when it is 0 (the `or 2`) |
| MainWindow.GenusMaxUnique | edc/ui/main_window.py:2314-2320 | the genus table is determined by the species table |
| MainWindow.AddSpecies | edc/ui/main_window.py:2316-2320 | folding one more species keeps the genus table the maximum over the species seen |
| MainWindow.GenusMax | edc/ui/main_window.py:2314-2320 | without a value table the genus table is empty, otherwise it holds each genus' largest int base value |
| MainWindow.CountWherePositive | edc/ui/main_window.py:2322-2340 | a count is positive exactly when some dict body qualifies |
| MainWindow.CountBodies | edc/ui/main_window.py:2322-2340 | the first bodies loop returns the reference counts, skipping non-dict records |
| MainWindow.AnyHighSpec | edc/ui/main_window.py:2355-2358 | the inner loop finds a high genus exactly when the genera hold one |
| MainWindow.DssCountSpec | edc/ui/main_window.py:2352-2358 | the second loop raises exactly when some body does, and otherwise counts a body that has a high-value genus |
| MainWindow.ScanGenera | edc/ui/main_window.py:2355-2358 | the `for g in gen` loop with its `break` returns the reference answer |
| MainWindow.ScanBody | edc/ui/main_window.py:2354-2358 | one body of the second loop is read as the reference says |
| MainWindow.CountHighValueGenera | edc/ui/main_window.py:2352-2358 | the second loop returns the reference count, or fails when it raises |
| MainWindow.DssNoneStays | edc/ui/main_window.py:2353-2354 | once a body has raised the whole loop has |
| MainWindow.ExplorationHint | edc/ui/main_window.py:2322-2345 | the exploration hint appears exactly when some dict body is worth mapping or is terraformable and unmapped |
| MainWindow.RevealHint | edc/ui/main_window.py:2322-2350 | the genus-reveal hint comes first, and exactly when some dict body has biological signals and no known genus |
| MainWindow.HighValueHint | edc/ui/main_window.py:2352-2363 | the high-value genus hint comes last, and exactly when some body lists a genus whose best species reaches the threshold |
| MainWindow.ComputeActionState | edc/ui/main_window.py:2288-2365 | the action state is the reference one for the bodies and the genus table the species table determines |
| PyJson.NormStrNormal | edc/core/event_engine.py:57-67 | `_norm_text` of a normalised string gives it back |
| PyJson.CleanUpToNormal | edc/core/event_engine.py:583-590 | every name kept by a normalise-and-filter loop is non-empty and already normalised |
| PyJson.IntStrRoundTrip | edc/config.py:67 | `int(str(n)) == n` for every int |
| PyText.StripIdempotent | edc/core/item_catalog.py:52 | stripping twice is stripping once |
| PyJson.IntOr | edc/engine/handlers/inventory.py:13 | an int value is taken as it is and anything else keeps the previous value, as for the ship id here and the system address at edc/engine/handlers/exploration.py:69 |
| PyJson.ReprRepeatedKey | edc/ui/formatting.py:45 | a dict decoded from a document with a repeated key shows that key once, with its last value |


## Left out

- Qt: widgets, table filling, the HUD and overview text, timers and log-box trimming in `edc/ui/main_window.py`. Of that file the model keeps only the decision helpers listed above.
- `edc/ui/settings_dialog.py`, `edc/app.py` and `edc/utils/log.py` are not part of this model. They are UI and startup wiring.
- File and JSON I/O: `json.loads`, `open`, `seek`, `readline`, `glob`, `stat` and every read and write. Documents come in decoded, file sizes and modification times are inputs, and a journal file is a sequence of lines. Each line carries its decoded value, or none when it does not decode.
- `ConfigStore.save` is not modelled. It names an undefined `SCHEMA_VERSION`, so it always raises, and the error is swallowed. Also not modelled: `ItemCatalog.create_sample`, `default_app_dir` and `ConfigStore.ensure_dirs`, which only write files or build paths.
- The watcher's thread, `pyqtSignal` plumbing and `time.sleep`. The loop is modelled over a sequence of ticks. An emitted signal is an append to an output sequence, and the sleeps are left out.
- Logging calls.
- Floating point. `pct_1`, faction influence and reputation display, the materials-shortlist score and `DistanceLS` are not modelled. A float is an exact `real`. It is stored, tested for truthiness, compared with other numbers by value as Python's `==` does (`PyJson.PyEq`), and truncated toward zero by `int()` (`PyJson.PyInt`). Binary rounding is not modelled. A stored conflict progress is only known to be a float.
- PyJson.Show and PyJson.Repr: `str()` and `repr()` of a float give the fixed text `<float>`, not Python's shortest round-trip decimal (`str(1.5)` is `1.5`), so two different floats render alike. This reaches every place a decoded value becomes text. These are the Location, jump, pledge, PowerPlay, community-goal and Cargo notices, `Formatting.Text` and the `join_meta` parts, the visited-systems entry an FSDJump adds, the exobiology record key and codex placeholder key built from `BodyID`, the signal key of an FSSSignalDiscovered, and the PowerPlay state text of the recommendation. The intel lookup by address renders only ints, so no float reaches it.
- MainWindow.FssValue: takes `int(min_value * 0.20)` as the exact fifth of the minimum value, which is an exact multiple of 100,000. It does not model binary floating-point rounding.
- Unicode. `lower`, `upper`, `title`, `isalnum`, `isupper` and whitespace are their ASCII forms.
- Integer width. Python ints are unbounded, and so are the model's. Nothing wraps around.
- Aliasing. A dict stored in the state and then updated in place, such as a community-goal record, an exobiology record or a body record, is modelled as a value that is replaced. When the same Python dict object is reachable from two places, the model does not share the update. This covers a record taken from the event itself, and the POI lists that `ExternalIntel._load` extends.
- Handler exceptions (`edc/core/event_engine.py:838-841`). None of the five handlers has a raising path on a decoded record, so the modelled chain never takes that branch; "raised ⇒ handled" collapses into "handled". Exceptions out of the inline branches are modelled: the unguarded `.get` on list items at `edc/core/event_engine.py:372-373`, `522-523` and `815`, the non-dict faction, and the truthy non-iterable `Powers`. They end `process` as `Raised` with the state the branch reached.
- The exploration and exobiology handlers call an `estimate_value` method that the value tables do not have. The call fails and the error is swallowed, so the model leaves `body_values` and `last_organic_value` unchanged.
- The external intel observation is an input. `Engine.Process` takes what the intel file looks like to the inline branch and to the exploration handler.
- Engine.InlineSpec: its own contract states only the no-branch case. What each branch does is stated by the branch lemmas of the `Inline*` modules and tied to `InlineSpec` by `Engine.RunInline`.
- Formatting.IntCommasText: states that removing the commas gives `str(int(value))`. Where the commas go is stated separately by `PyText.GroupThousandsTail`.
- Formatting.Credits: states that the text ends in " cr" and that removing the commas from the figure gives `str(int(value))`. Where the commas go is stated separately by `PyText.GroupThousandsTail`.
- PyJson.PyEq: numbers compare by value across int, float and bool, as Python's `==` does. Lists and dicts compare structurally, so `[1]` and `[True]` differ where Python equates them.
