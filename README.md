# EDMarketConnector journal monitor and bounty tally, in Dafny

This project models the journal side of EDMarketConnector. It covers two parts.

The first part is the journal monitor `EDLogs` in `monitor.py`. Elite Dangerous writes a
journal of JSON lines. The monitor folds each decoded entry into its journal context and
the commander state:

- the context: commander, game mode, group, crew captain and role, body, system, station,
  coordinates, game version, the beta flag and `live`;
- the commander state: cargo, three material categories, credits and loan, the six-category
  rank table, the ship fields, the paint job and the open missions.

Journal lines wait in an event queue. `get_entry` takes them out in order. It queues a
synthetic `StartUp` line when the session goes live in the middle of a journal. The
monitor follows the journal whose name sorts last. Commodity symbols are normalised by
`tagsymbol`.

The second part is the BountyStatus plugin (`plugins/BountyStatus/load.py`). It keeps
three per-faction tallies: victims, bounty rewards and combat bonds. It shows a tally as
a table, largest amount first. When a voucher is redeemed, it builds the fields of a
report form.

Layout:

- `wrappers.dfy` (`Wrappers`): the `Option` type.
- `text.dfy` (`Text`): ASCII lower-casing, substring search, `split`/`join` on one
  character, and Python's string order.
- `symbols.dfy` (`Symbols`): `tagsymbol`.
- `listing.dfy` (`Listing`): the choice of the latest journal file.
- `counts.dfy` (`Counts`): the `defaultdict(int)` count maps and their updates.
- `journal.dfy` (`Journal`): decoded entries, the session value, and pure functions.
  `Apply`/`Parse` give the effect of one line, `ParseAll` a replay, and `Drain` one
  `get_entry` call.
- `journal_props.dfy` (`JournalProps`): lemmas about those functions.
- `monitor.dfy` (`Monitor`): the class `EDLogs`. Its methods update fields in place and are
  proved equal to the pure functions through `View()`.
- `bounty.dfy` (`BountyStatus`): the plugin. The class `BountyTally` holds the three
  tallies; the table order and the report fields are separate members.

Notes on the code's behaviour, which the model follows:

- The rank table has six categories, `CQC` included (monitor.py:156).
- `Progress` is capped only from above, with `min(v, 100)` (monitor.py:421). A negative
  progress is stored as it is.
- The count maps are not always free of zero or negative entries:
  - `MaterialCollected` adds without removing anything (monitor.py:449);
  - the `Cargo` and `Materials` snapshots store whatever counts the entry lists
    (monitor.py:426 and 447).

  `JournalProps.ReplayKeepsSparse` therefore proves the "positive counts only" invariant
  only for entries whose snapshots and collected amounts are positive.

## Model

| member | source | states |
|---|---|---|
| Symbols.TagSymbol | monitor.py:19-24 | The result is lower case. A tag the pattern `\$(.+)_name;` does not match is only lower-cased. Otherwise the result is the lower-cased group, and the group ends at the last `_name;` (in any case) reachable without crossing a newline. |
| Symbols.LastGroupEnd | monitor.py:20 | Finds the greedy match end: the largest position where the group can end, or none. |
| Symbols.TemplateSymbol | monitor.py:19-22 | `$` + s + `_name;` (suffix in any case, s non-empty and without newline) normalises to s lower-cased. |
| Symbols.PlainSymbol | monitor.py:23-24 | A tag that does not start with `$` is only lower-cased. |
| Symbols.PlainSymbolStable | monitor.py:19-24 | Normalising a normalised plain symbol again changes nothing. |
| Text.Lower | monitor.py:22 | Lower-casing keeps the length. |
| Text.LowerIsLower | monitor.py:22 | A lower-cased string has no upper-case letter. |
| Text.LowerIdempotent | monitor.py:22 | Lower-casing twice is lower-casing once. |
| Text.LowerConcat | monitor.py:325 | Lower-casing distributes over concatenation. |
| Text.IndexOf | monitor.py:433 | Gives the first position of a character that occurs in the string. |
| Text.Split | monitor.py:433 | `split('_')` gives at least one piece, and no piece contains the separator. |
| Text.JoinSplit | monitor.py:437 | Joining the pieces of a split with the separator gives the string back. |
| Text.SplitJoin | monitor.py:437-438 | Splitting the join of separator-free pieces gives the pieces back. |
| Text.LexLeTotal | monitor.py:182 | Any two names are ordered one way or the other by Python's string order. |
| Text.LexLeTrans | monitor.py:182 | The string order is transitive. |
| Text.LexLeAntisymmetric | monitor.py:182 | Two names ordered both ways are equal. |
| Listing.LatestJournal | monitor.py:182-183 | Gives none exactly when no name starts with `Journal.` and ends with `.log`. Otherwise gives a journal name from the listing that every journal name of the listing sorts before or equals. |
| Listing.LatestIgnoresOthers | monitor.py:182 | Entries that are not journal names never change the choice. |
| Listing.NewerJournalWins | monitor.py:287-288 | A new journal that no listed journal sorts after becomes the one followed. |
| Counts.Bumped | monitor.py:449 | `m[k] += d` on a default dict: the key is present with its old count plus d. Every other key is unchanged. |
| Counts.Restocked | monitor.py:237-244 | The key holds old+d when positive and is absent otherwise. Every other key and count is unchanged. Positive-only maps stay positive-only. |
| Counts.RestockRoundTrip | monitor.py:431-439 | Adding d>0 and then taking d away restores a positive-only map exactly. |
| Counts.Snapshot | monitor.py:426 | The comprehension `{x['Name']: x['Count']}` only has listed names as keys. Positive counts give a positive-only map. |
| Counts.SnapshotValue | monitor.py:426 | Each listed name maps to the count of its last occurrence. |
| Counts.Consumed | monitor.py:454-460 | Crafting never adds a key, and positive-only maps stay positive-only. The count an ingredient leaves is stated by `Counts.ConsumedOnce`. |
| Counts.ConsumedUntouched | monitor.py:454-460 | A name no ingredient mentions keeps its count. |
| Counts.ConsumedOnce | monitor.py:457-460 | A held ingredient named once is left at its count minus `Count`, and removed when that is zero or below. |
| Counts.ConsumedNeverGrows | monitor.py:454-460 | With non-negative ingredient counts, no count rises. |
| Journal.PaintJobOf | monitor.py:393-396 | With no paint-job module, the paint job is the empty string. |
| Journal.PaintJobOfLast | monitor.py:394-396 | Otherwise it is the lower-cased item of the last paint-job module. |
| Journal.Rewarded | monitor.py:441-442 | Adding the commodity rewards keeps a positive-only cargo positive-only. What each reward adds is stated by `JournalProps.RewardedOne`, `RewardedUntouched` and `RewardedStock`. |
| Journal.HeaderSession | monitor.py:322-349 | After a `Fileheader` the session is not live, keeps only the version and its beta flag, has no commander, mode, group, crew or location, and the commander state is the empty initial state. |
| Journal.IsDelivery | monitor.py:433 | A mission name that passes the accept-time delivery test also passes the completion-time delivery-or-collect test. |
| Journal.IsDeliveryOrCollect | monitor.py:437-438 | A name that passes the test has at least two `_`-separated segments, so it contains `_`. |
| Journal.Promoted | monitor.py:414-417 | No rank category is created or dropped. Each category the entry names becomes `(v, 0)`, the others keep their value. |
| Journal.Progressed | monitor.py:418-421 | No rank category is created or dropped, and none becomes ranked or unranked. Levels are kept, and the progress set by the entry is at most 100. |
| Journal.Relocated | monitor.py:401-409 | Only the body, system, station and coordinates change. The station becomes the entry's, the system is always set, and a move to another system without `StarPos` forgets the coordinates. |
| Journal.LoggedIn | monitor.py:350-365 | After `LoadGame` the session is live for the named commander, with version and beta flag kept, no crew or location, credits and loan from the entry and all ranks unknown; nothing else in the commander state changes. |
| Journal.Apply | monitor.py:315-484 | Only a `Fileheader` makes a live session not live, and only a `Fileheader` changes the game version. The commander changes only on `Fileheader`, `LoadGame` and `NewCommander`. |
| Journal.ApplySession | monitor.py:322-368 | The commander and crew branches (here and at monitor.py:462-477) leave the commander state, `live` and the version alone. Joining or quitting a crew clears body, system, station and coordinates. |
| Journal.ParseAll | monitor.py:257-262 | A replay with no `Fileheader` keeps the version, and a live session stays live. |
| Journal.Drain | monitor.py:487-494 | An empty queue gives None and changes nothing. Whenever a decoded entry other than a `Fileheader` comes out, the session is live afterwards. |
| Journal.ApplyLocation | monitor.py:399-413 | The docking, jump and supercruise entries change only the body, system, station and coordinates. |
| Journal.ApplyShip | monitor.py:369-421 | The ship, paint-job and rank entries change only the ship fields, the paint job and the rank table. |
| Journal.ApplyCargo | monitor.py:423-442 | The cargo and mission entries change only the cargo, the open missions and `live`. |
| Journal.ApplyMaterial | monitor.py:444-460 | The material entries change only the three material categories. |
| Journal.Completed | monitor.py:435-442 | Completing a mission removes exactly that mission id from the open missions. It changes nothing but the missions and the cargo. |
| Journal.CmdrState.WithMaterials | monitor.py:449-453 | Replacing one material category leaves the other two as they were. |
| Journal.Parse | monitor.py:315-321 | A null or undecodable line changes nothing and yields `{'event': None}`. A decoded line yields its entry. |
| Journal.Stopped | monitor.py:212-217 | `stop` clears the game version, mode, group, commander, body, system, station and coordinates, and clears `is_beta`. It keeps `live`, the crew captain and role, and the commander state. |
| JournalProps.StopIdempotent | monitor.py:212-217 | Stopping twice is the same as stopping once. |
| JournalProps.StopThenHeader | monitor.py:212-217 | A `Fileheader` read after `stop` gives the same session as without the `stop`. |
| JournalProps.HeaderResets | monitor.py:322-349 | After a `Fileheader` the session is the same whatever came before: not live, version set, beta flag from the version, every context field none, empty count maps, a rank table of six unknown categories, no ship fields and no missions. |
| JournalProps.BetaAnyCase | monitor.py:325 | A version containing `beta` in any case sets the beta flag. |
| JournalProps.ParseTwo | monitor.py:260-262 | Replaying two lines parses the first, then the second. |
| JournalProps.ParseAllAppend | monitor.py:260-262 | Replaying a concatenation is replaying the parts in turn. |
| JournalProps.ReplayFromHeader | monitor.py:322-349 | Lines before a `Fileheader` have no effect on the replay's result. |
| JournalProps.GarbledInert | monitor.py:316-321 | Null and undecodable lines never change the session. |
| JournalProps.LiveUntilHeader | monitor.py:323 | Only a `Fileheader` ends a live session. `LoadGame` and `Cargo` make it live; `Fileheader` makes it not live. |
| JournalProps.ApplyKeepsRankShape | monitor.py:414-421 | Every entry keeps the rank table to the six categories, with progress at most 100. |
| JournalProps.ReplayKeepsRankShape | monitor.py:414-421 | So does any replay. |
| JournalProps.PromotionSetsLevel | monitor.py:414-417 | `Rank`/`Promotion` set each named category to (level, 0) and leave the others alone. |
| JournalProps.ProgressOnlyRanked | monitor.py:418-421 | `Progress` sets the progress of ranked categories to min(v, 100) and never creates a rank. |
| JournalProps.PositionRules | monitor.py:401-409 | Coordinates come from `StarPos` when present. Without it they are cleared only when the system changes. `body` is cleared except on `Docked`. `ProvingGround` becomes `CQC`. `station` is the entry's `StationName` or none. |
| JournalProps.UndockedClearsStation | monitor.py:399-400 | `Undocked` clears the station and nothing else. |
| JournalProps.CrewClearsLocation | monitor.py:462-477 | Joining or leaving a crew clears role, body, system, station and coordinates. It sets or clears the captain and leaves the commander state alone. |
| JournalProps.ApplyKeepsSparse | monitor.py:423-460 | With positive snapshot and collected counts, no entry leaves a zero or negative count in cargo or materials. |
| JournalProps.ReplayKeepsSparse | monitor.py:423-460 | Neither does a replay of such entries. |
| JournalProps.CargoChangeStock | monitor.py:427-430 | The cargo events move the normalised symbol's stock by ±`Count` (default 1) and drop it at zero. Every other commodity is unchanged. |
| JournalProps.MaterialUseStock | monitor.py:450-453 | Discarding or researching sets the named material of the named category to its count minus `Count`, removing it at zero or below. Every other material keeps its count and its presence, and the other categories and the cargo are unchanged. |
| JournalProps.CraftNeverCreates | monitor.py:454-460 | Crafting never adds a material to any category. |
| JournalProps.AcceptStep | monitor.py:431-434 | Accepting a delivery mission records it and adds its commodity. |
| JournalProps.CompleteStep | monitor.py:435-439 | Completing a delivery or collection mission without rewards removes it and takes its commodity away; nothing else changes. |
| JournalProps.CompleteOtherStep | monitor.py:435-442 | Completing any other kind of mission changes the hold only by its rewards. |
| JournalProps.RewardedOne | monitor.py:441-442 | A single `CommodityReward` adds its count, 1 by default, under the normalised lower-cased name, with the `add_cargo` removal rule. |
| JournalProps.RewardedUntouched | monitor.py:441-442 | A commodity that no reward normalises to keeps its stock and its presence in the hold. |
| JournalProps.RewardedStock | monitor.py:441-442 | With positive reward counts and a positive-only hold, every commodity gains exactly the sum of the rewards booked under it. |
| JournalProps.AcceptThenComplete | monitor.py:431-442 | Accepting and then completing a delivery mission leaves the session as it was. |
| JournalProps.DeliveryRoundTrip | monitor.py:431-442 | The same holds for the two journal lines replayed. |
| JournalProps.CompletedMissionClosed | monitor.py:436 | A completed mission is no longer open, whether or not it was recorded. |
| JournalProps.AcceptedMissionRecorded | monitor.py:432-434 | An accepted mission is stored under its id. A non-delivery mission leaves the cargo alone. |
| JournalProps.MissionKindSegment | monitor.py:433-438 | The delivery test looks exactly at the second `_`-separated segment of the name. |
| JournalProps.DrainFifo | monitor.py:486-494 | `get_entry` takes exactly the front line, keeps the rest in order and adds at most one `StartUp` line at the back. |
| JournalProps.DrainInjectsIff | monitor.py:491-493 | `StartUp` is queued if and only if a real non-`Fileheader` entry leaves the session not live. The session is then live. |
| JournalProps.StartUpInert | monitor.py:493 | The queued `StartUp` line changes nothing when it reaches a live session. |
| JournalProps.LiveDrainIsReplay | monitor.py:486-494 | On a live session with no `Fileheader` ahead, draining the queue equals replaying it, with no `StartUp` added. |
| Monitor.RareGained | monitor.py:496-500 | Adding a positive amount of a rare commodity makes the cargo carry a rare. |
| Monitor.OrdinaryKeepsRares | monitor.py:496-500 | Changing an ordinary commodity never changes whether a rare is carried. |
| Monitor.EDLogs.constructor | monitor.py:115-162 | The queue is empty, nothing is known, `live` is false and the commander state is empty. |
| Monitor.EDLogs.AddCargo | monitor.py:237-244 | The cargo becomes the `Restocked` map for the normalised symbol. Nothing else changes. |
| Monitor.EDLogs.ParseEntry | monitor.py:315-484 | The fields and the result equal `Parse` of the old fields, and the queue is untouched. |
| Monitor.EDLogs.Stop | monitor.py:212-217 | The fields become `Stopped` of the old ones. |
| Monitor.EDLogs.Reset | monitor.py:322-349 | The fields become the header session for the version. |
| Monitor.EDLogs.Login | monitor.py:350-365 | The fields become `LoggedIn` of the old ones, the `LoadGame` branch. |
| Monitor.EDLogs.ApplySessionEntry | monitor.py:322-368 | The fields follow the header, commander and crew branches; the crew branches are at monitor.py:462-477. |
| Monitor.EDLogs.ApplyLocationEntry | monitor.py:399-413 | The fields follow the docking, jump and supercruise branches. Only location fields are modified. |
| Monitor.EDLogs.ApplyShipEntry | monitor.py:369-421 | The fields follow the ship, paint-job and rank branches. Only the commander state is modified. |
| Monitor.EDLogs.ApplyCargoEntry | monitor.py:423-442 | The fields follow the cargo and mission branches. |
| Monitor.EDLogs.ApplyMaterialEntry | monitor.py:444-460 | The fields follow the material branches. |
| Monitor.EDLogs.CompleteMission | monitor.py:435-442 | The state after the mission pop, the `add_cargo` and the reward loop is `Completed` of the old state. |
| Monitor.EDLogs.CollectRewards | monitor.py:441-442 | The cargo becomes `Rewarded` of the old cargo. |
| Monitor.EDLogs.GetEntry | monitor.py:486-494 | The result, fields and queue are exactly one `Drain` step of the old fields and queue. |
| Monitor.EDLogs.Enqueue | monitor.py:304-305 | New lines join the back of the queue, in order. |
| Monitor.EDLogs.Replay | monitor.py:257-274 | The fields become the replay of the journal. Afterwards a live session gets `StartUp` if the game runs, and otherwise a null line and `live` false. |
| Monitor.EDLogs.CarryingRares | monitor.py:496-500 | True exactly when some cargo key is in the rare set. |
| Monitor.ScanPaintJob | monitor.py:393-396 | The loop computes `PaintJobOf` of the modules. |
| Monitor.Promote | monitor.py:414-417 | The loop computes `Promoted`. |
| Monitor.AdvanceProgress | monitor.py:418-421 | The loop computes `Progressed`. |
| Monitor.Consume | monitor.py:455-460 | The loop computes `Consumed`. |
| BountyStatus.TotalRemove | plugins/BountyStatus/load.py:75 | The sum of a tally does not depend on the order of its factions. |
| BountyStatus.TotalBumped | plugins/BountyStatus/load.py:73-75 | `m[k] += d` raises the sum by exactly d. |
| BountyStatus.Credited | plugins/BountyStatus/load.py:74-75 | Crediting rewards keeps every faction and adds only factions named by a reward. |
| BountyStatus.CreditedTotal | plugins/BountyStatus/load.py:74-75 | The sum of the bounties grows by the sum of the rewards. |
| BountyStatus.CreditedStock | plugins/BountyStatus/load.py:74-75 | Every faction ends with its old amount plus the sum of the rewards that name it. |
| BountyStatus.CreditedOthers | plugins/BountyStatus/load.py:74-75 | A faction no reward names keeps its amount. |
| BountyStatus.LargestExists | plugins/BountyStatus/load.py:40 | Some faction still to be listed has the largest amount. |
| BountyStatus.AppendKeepsListed | plugins/BountyStatus/load.py:40-43 | Listing the next faction keeps every row a distinct faction with its amount. |
| BountyStatus.AppendKeepsOrdered | plugins/BountyStatus/load.py:40-43 | Listing a largest remaining faction keeps the rows in non-increasing order. |
| BountyStatus.AppendKeepsCovered | plugins/BountyStatus/load.py:40-43 | Every faction stays either listed or still to come. |
| BountyStatus.UpdateTreeview | plugins/BountyStatus/load.py:39-43 | Gives one row per faction with its amount, no faction twice, in non-increasing order of amount. |
| BountyStatus.ReportFieldsOf | plugins/BountyStatus/load.py:88-89 | Report keys are form keys of `reportfields`. |
| BountyStatus.ReportIgnoresOthers | plugins/BountyStatus/load.py:88-89 | Fields that `reportfields` does not name never reach the report. |
| BountyStatus.ReportComplete | plugins/BountyStatus/load.py:88-89 | A record holding all five named fields fills every form key. |
| BountyStatus.ReportHasBase | plugins/BountyStatus/load.py:86-89 | Commander, system and activity always reach the report, unless the voucher's own fields override them. Amount and faction reach it exactly when the voucher has them. |
| BountyStatus.VoucherReports | plugins/BountyStatus/load.py:80-100 | A bounty voucher gives one report per faction, from "Bounties" updated with that faction's fields. A combat bond voucher gives one report, from "Combat Bonds" updated with the whole entry. Any other voucher gives none. |
| BountyStatus.BountyTally.constructor | plugins/BountyStatus/load.py:19-21 | All three tallies start empty. |
| BountyStatus.BountyTally.CountBounty | plugins/BountyStatus/load.py:71-75 | One more victim of the faction, and each reward credited to its faction. |
| BountyStatus.BountyTally.Track | plugins/BountyStatus/load.py:66-79 | `SupercruiseExit` empties all three tallies. `Bounty` bumps the victims by 1, credits the rewards, keeps the bonds and shows the bounties in table order. `FactionKillBond` changes only the bonds and shows them. Other entries change and show nothing. |
| BountyStatus.BountyTally.JournalEntry | plugins/BountyStatus/load.py:60-100 | `SupercruiseExit` empties all three tallies. `Bounty` bumps the victims by 1, credits the rewards, keeps the bonds and shows the bounties in table order. `FactionKillBond` changes only the bonds and shows them. `RedeemVoucher` gives one report per faction for a bounty voucher, one for a combat bond voucher and none for any other voucher. Other entries change and show nothing. |

## Left out

- The watchdog observer, `on_created`, the worker thread's polling loop, `sleep`, file
  handles and seeking, and thread termination (monitor.py:188-313) are I/O and
  concurrency. What remains of them:
  - the existing journal read at start (`Replay`);
  - the lines appended to the queue (`Enqueue`);
  - the choice of the latest journal name (`LatestJournal`).
- Joining the chosen name to the directory path (`os.path.join`) is left out. The model
  works on names.
- `game_running` uses platform window and process enumeration. It is the `gameRunning`
  parameter of `Replay`.
- `strftime(gmtime())` timestamps are the `now` parameter.
- JSON decoding and `OrderedDict` are not modelled. Entries arrive decoded, with only the
  fields the parser reads. A line that is not JSON or lacks `timestamp` is the `Garbled`
  line.
- A decoded entry missing a field the branch indexes (a `KeyError` inside a branch) is
  not modelled. In the source it leaves the branch's earlier updates in place and returns
  `{'event': None}`. The model's entries always carry their fields.
- An unknown material `Category` is not modelled. Categories are the three known ones.
- The contents of `RARES` are not modelled. The rare set is a constructor parameter.
- `start` (monitor.py:168-210) is left out except for the choice of the latest journal at
  monitor.py:182-183 (`LatestJournal`). Its directory handling, observer and thread set-up
  are platform code.
- `stop` (monitor.py:212-221) is modelled by `Stop` for the journal context it clears
  (version, mode, group, commander, body, system, station, coordinates and `is_beta`).
  `currentdir`, the observer and the worker thread it also stops are not modelled.
- `config` lookups, `close`, `running`, `set_callback` and the polling heuristic are
  configuration and platform code.
- Monitor.EDLogs.ParseEntry: `SupercruiseExit` away from a planet stores Python's `False`
  as the body. The model stores none.
- Text.Lower: lower-casing is ASCII only. The source lower-cases all of Unicode.
- `self.state` is a dictionary shared with consumers. Its in-place aliasing is not
  modelled; the model reassigns a `CmdrState` value.
- Timestamps of entries are carried but never interpreted, as in the source.
- The BountyStatus plugin's Tk `Treeview` calls, `webbrowser.open`, `urlencode` and the
  form URL are UI and foreign library code. The model keeps the rows and report fields
  they receive.
- The debugging entry `bounties["foo"] = 123` in `plugin_app` is not modelled.
- BountyStatus.UpdateTreeview: the order of factions with equal amounts is not fixed.
  `sorted` keeps dictionary order for them, and dictionary order is not modelled.
- plugins/trade/eddb.py and plugins/ViewData/load.py are not part of this model.
