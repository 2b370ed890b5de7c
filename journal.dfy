/**
  The journal's decoded entries and the commander state that `EDLogs.parse_entry`
  (monitor.py) folds them into, written as pure functions of the state before an
  entry. `Monitor.EDLogs` carries out the same updates in place and is proved
  against `Parse`; the lemmas about the fold are in `JournalProps`.

  An entry is the JSON object of one journal line, already decoded: its event
  kind and the fields the parser reads. `entry.get(k)` becomes an `Option`
  field, `entry.get(k, default)` an `Option` read with `GetOr(default)`.
 */
module Journal {
  import opened Wrappers
  import opened Text
  import opened Counts
  import Symbols

  /** `StarPos`: the three coordinates of a star system. */
  type Coordinates = seq<real>

  /** A field value, where the bounty plugin handles fields of any type. */
  datatype Value = Null | Str(str: string) | Num(num: int)

  /** A `Loadout` module: `Slot` and `Item` may each be missing. */
  datatype Module = Module(slot: Option<string>, item: Option<string>)

  /** A `CommodityReward` element of `MissionCompleted`. */
  datatype Reward = Reward(rewardName: string, rewardCount: Option<int>)

  /** A `Rewards` element of a `Bounty` entry. */
  datatype BountyReward = BountyReward(faction: string, reward: int)

  datatype Category = Raw | Manufactured | Encoded

  /** Event names of the single-commodity cargo changes. */
  datatype CargoEvent =
    | CollectCargo | MarketBuy | MiningRefined | PowerplayCollect | BuyDrones
    | EjectCargo | MarketSell | PowerplayDeliver | SellDrones
  {
    /** The events that add `Count` to the cargo; the others take it away. */
    predicate Gains() {
      CollectCargo? || MarketBuy? || MiningRefined? || PowerplayCollect? || BuyDrones?
    }
  }

  datatype PositionEvent = Location | FSDJump | Docked
  datatype ModuleEvent = ModuleBuy | ModuleSell
  datatype RankEvent = RankSnapshot | Promotion
  datatype UseEvent = MaterialDiscarded | ScientificResearch
  datatype CraftEvent = EngineerCraft | Synthesis

  /**
    One decoded journal entry. `Other` carries only the name of an event that
    `parse_entry` has no branch for (never `Fileheader`, `LoadGame` or another
    name modelled by its own constructor).
   */
  datatype Entry =
    | Fileheader(gameversion: string)
    | LoadGame(commander: string, gameMode: Option<string>, group: Option<string>, credits: int, loan: int)
    | NewCommander(name: string)
    | SetUserShipName(shipId: int, userShipId: Option<string>, userShipName: Option<string>, ship: string)
    | ShipyardBuy(shipType: string)
    | ShipyardSwap(shipId: int, shipType: string)
    | Loadout(shipId: int, shipIdent: string, shipName: string, ship: string, modules: seq<Module>)
    | ModuleChange(moduleEvent: ModuleEvent, slot: string, buyItem: Option<string>)
    | Undocked
    | Position(positionEvent: PositionEvent, starSystem: string, starPos: Option<Coordinates>, stationName: Option<string>)
    | SupercruiseExit(bodyType: Option<string>, body: Option<string>)
    | SupercruiseEntry
    | RankChange(rankEvent: RankEvent, ranks: map<string, int>)
    | Progress(progress: map<string, int>)
    | Cargo(inventory: seq<Item>)
    | CargoChange(cargoEvent: CargoEvent, cargoType: string, count: Option<int>)
    | MissionAccepted(missionId: int, name: string, commodity: string, count: Option<int>)
    | MissionCompleted(missionId: int, name: string, commodity: string, count: Option<int>, commodityReward: seq<Reward>)
    | Materials(raw: seq<Item>, manufactured: seq<Item>, encoded: seq<Item>)
    | MaterialCollected(category: Category, material: string, materialCount: int)
    | MaterialUse(useEvent: UseEvent, category: Category, material: string, materialCount: int)
    | Craft(craftEvent: CraftEvent, ingredients: seq<Item>)
    | JoinACrew(captain: string)
    | ChangeCrewRole(role: string)
    | QuitACrew
    | Bounty(victimFaction: string, rewards: seq<BountyReward>)
    | FactionKillBond(awardingFaction: string, reward: int)
    | RedeemVoucher(voucherType: string, factions: seq<map<string, Value>>, fields: map<string, Value>)
    | Other(event: string)

  /**
    One element of the event queue: Python's None, a line that is not JSON or
    has no `timestamp`, or a decoded entry with its timestamp.
   */
  datatype Line = Null | Garbled | Json(timestamp: string, entry: Entry)

  /** What `parse_entry` returns: `{'event': None}`, or the decoded entry. */
  datatype Decoded = NoEvent | Event(entry: Entry)

  /** The synthetic `{"timestamp": now, "event": "StartUp"}` line. */
  function StartUpLine(now: string): Line {
    Json(now, Other("StartUp"))
  }

  /** A rank: level and progress percentage. */
  datatype RankLevel = RankLevel(level: int, progress: int)

  const RANK_CATEGORIES: set<string> := {"Combat", "Trade", "Explore", "Empire", "Federation", "CQC"}

  /** The `Rank` table with every category unknown. */
  function NoRanks(): map<string, Option<RankLevel>> {
    map k | k in RANK_CATEGORIES :: None
  }

  /** `self.state`: the commander state shared with consumers. */
  datatype CmdrState = CmdrState(
    cargo: Tally,
    credits: Option<int>,
    loan: Option<int>,
    raw: Tally,
    manufactured: Tally,
    encoded: Tally,
    paintJob: Option<string>,
    rank: map<string, Option<RankLevel>>,
    shipId: Option<int>,
    shipIdent: Option<string>,
    shipName: Option<string>,
    shipType: Option<string>,
    missions: map<int, Entry>)
  {
    /** `self.state[category]` */
    function Materials(c: Category): Tally {
      match c
      case Raw => raw
      case Manufactured => manufactured
      case Encoded => encoded
    }

    function WithMaterials(c: Category, m: Tally): (r: CmdrState)
      ensures r.Materials(c) == m
      ensures forall d :: d != c ==> r.Materials(d) == Materials(d)
    {
      match c
      case Raw => this.(raw := m)
      case Manufactured => this.(manufactured := m)
      case Encoded => this.(encoded := m)
    }
  }

  /** The commander state as `__init__` and a `Fileheader` entry build it. */
  function EmptyState(): CmdrState {
    CmdrState(map[], None, None, map[], map[], map[], None, NoRanks(), None, None, None, None, map[])
  }

  /** The monitor's journal context together with the commander state. */
  datatype Session = Session(
    live: bool,
    version: Option<string>,
    isBeta: bool,
    mode: Option<string>,
    group: Option<string>,
    cmdr: Option<string>,
    captain: Option<string>,
    role: Option<string>,
    body: Option<string>,
    system: Option<string>,
    station: Option<string>,
    coordinates: Option<Coordinates>,
    state: CmdrState)

  /** The context and state set up by `EDLogs.__init__`. */
  function InitialSession(): Session {
    Session(false, None, false, None, None, None, None, None, None, None, None, None, EmptyState())
  }

  /** `'beta' in gameversion.lower()` */
  predicate IsBeta(gameversion: string) {
    Contains(Lower(gameversion), "beta")
  }

  /** The session after a `Fileheader`: everything reset, only the version kept. */
  function HeaderSession(gameversion: string): (r: Session)
    ensures !r.live && r.version == Some(gameversion) && r.isBeta == IsBeta(gameversion)
    ensures r.cmdr.None? && r.mode.None? && r.group.None? && r.captain.None? && r.role.None?
    ensures r.body.None? && r.system.None? && r.station.None? && r.coordinates.None?
    ensures r.state == EmptyState()
  {
    InitialSession().(version := Some(gameversion), isBeta := IsBeta(gameversion))
  }

  /**
    `stop`: the game version, mode, group, commander and location are
    forgotten and `is_beta` is cleared; `live`, the crew captain and role and
    the commander state are kept.
   */
  function Stopped(s: Session): (r: Session)
    ensures r.version.None? && !r.isBeta && r.mode.None? && r.group.None? && r.cmdr.None?
    ensures r.body.None? && r.system.None? && r.station.None? && r.coordinates.None?
    ensures r.live == s.live && r.captain == s.captain && r.role == s.role && r.state == s.state
  {
    s.(version := None, mode := None, group := None, cmdr := None, body := None, system := None,
       station := None, coordinates := None, isBeta := false)
  }

  /** `entry.get('Count', 1)` */
  function CountOr1(count: Option<int>): int {
    count.GetOr(1)
  }

  /** `name.split('_')[1:2] == ['Delivery']` */
  predicate IsDelivery(name: string)
    ensures IsDelivery(name) ==> IsDeliveryOrCollect(name)
  {
    var parts := Split(name, '_');
    |parts| > 1 && parts[1] == "Delivery"
  }

  /** `len(parts) > 1 and parts[1] in ['Delivery', 'Collect']` for `parts = name.split('_')` */
  predicate IsDeliveryOrCollect(name: string)
    ensures IsDeliveryOrCollect(name) ==> '_' in name
  {
    var parts := Split(name, '_');
    |parts| > 1 && (parts[1] == "Delivery" || parts[1] == "Collect")
  }

  /** A `Loadout` module that names the paint job: slot `PaintJob` and a non-empty item. */
  predicate IsPaintJob(m: Module) {
    m.slot == Some("PaintJob") && m.item.Some? && m.item.value != ""
  }

  /**
    The paint job a `Loadout` reports: the lower-cased item of the last paint-job
    module, or the empty string when there is none.
   */
  function PaintJobOf(modules: seq<Module>): (r: string)
    ensures (forall i :: 0 <= i < |modules| ==> !IsPaintJob(modules[i])) ==> r == ""
  {
    if modules == [] then ""
    else
      var init, last := modules[..|modules| - 1], modules[|modules| - 1];
      assert forall i :: 0 <= i < |init| ==> modules[i] == init[i];
      if IsPaintJob(last) then Lower(last.item.value) else PaintJobOf(init)
  }

  /** When some module names the paint job, the last such module wins. */
  lemma {:induction false} PaintJobOfLast(modules: seq<Module>, i: int)
    requires 0 <= i < |modules| && IsPaintJob(modules[i])
    requires forall j :: i < j < |modules| ==> !IsPaintJob(modules[j])
    ensures PaintJobOf(modules) == Lower(modules[i].item.value)
  {
    var init := modules[..|modules| - 1];
    if i < |modules| - 1 {
      assert init[i] == modules[i];
      assert !IsPaintJob(modules[|modules| - 1]);
      PaintJobOfLast(init, i);
    }
  }

  /** `Rank` / `Promotion`: every category the entry names goes to `(v, 0)`. */
  function Promoted(rank: map<string, Option<RankLevel>>, ranks: map<string, int>): (r: map<string, Option<RankLevel>>)
    ensures r.Keys == rank.Keys
    ensures forall k :: k in r && k in ranks ==> r[k] == Some(RankLevel(ranks[k], 0))
    ensures forall k :: k in r && k !in ranks ==> r[k] == rank[k]
  {
    map k | k in rank :: if k in ranks then Some(RankLevel(ranks[k], 0)) else rank[k]
  }

  function Min(a: int, b: int): int {
    if a <= b then a else b
  }

  /** `Progress`: categories already ranked get `min(v, 100)` as their progress. */
  function Progressed(rank: map<string, Option<RankLevel>>, progress: map<string, int>): (r: map<string, Option<RankLevel>>)
    ensures r.Keys == rank.Keys
    ensures forall k :: k in r ==> (r[k].Some? <==> rank[k].Some?)
    ensures forall k :: k in r && r[k].Some? ==> r[k].value.level == rank[k].value.level
    ensures forall k :: k in r && k in progress && r[k].Some? ==> r[k].value.progress <= 100
  {
    map k | k in rank :: if k in progress && rank[k].Some? then Some(RankLevel(rank[k].value.level, Min(progress[k], 100))) else rank[k]
  }

  /** The commodity rewards of a completed mission, added one by one. */
  function Rewarded(cargo: Tally, rewards: seq<Reward>): (r: Tally)
    ensures Sparse(cargo) ==> Sparse(r)
  {
    if rewards == [] then cargo
    else
      var x := rewards[|rewards| - 1];
      Restocked(Rewarded(cargo, rewards[..|rewards| - 1]), Symbols.TagSymbol(Lower(x.rewardName)), CountOr1(x.rewardCount))
  }

  /** `Location`, `FSDJump` and `Docked`. */
  function Relocated(s: Session, kind: PositionEvent, starSystem: string, starPos: Option<Coordinates>,
                     stationName: Option<string>): (r: Session)
    ensures r == s.(body := r.body, system := r.system, station := r.station, coordinates := r.coordinates)
    ensures r.station == stationName && r.system.Some?
    ensures starPos.None? && s.system != Some(starSystem) ==> r.coordinates.None?
  {
    s.(body := if kind == Docked then s.body else None,
       coordinates := if starPos.Some? then starPos else if s.system != Some(starSystem) then None else s.coordinates,
       system := Some(if starSystem == "ProvingGround" then "CQC" else starSystem),
       station := stationName)
  }

  /** Entries about the journal header, the commander and the crew. */
  predicate IsSessionEntry(e: Entry) {
    e.Fileheader? || e.LoadGame? || e.NewCommander? || e.JoinACrew? || e.ChangeCrewRole? || e.QuitACrew?
  }

  /** Entries that move the commander. */
  predicate IsLocationEntry(e: Entry) {
    e.Undocked? || e.Position? || e.SupercruiseExit? || e.SupercruiseEntry?
  }

  /** Entries about the current ship, its paint job and the ranks. */
  predicate IsShipEntry(e: Entry) {
    e.SetUserShipName? || e.ShipyardBuy? || e.ShipyardSwap? || e.Loadout? || e.ModuleChange? || e.RankChange? || e.Progress?
  }

  /** Entries about the cargo hold and the missions. */
  predicate IsCargoEntry(e: Entry) {
    e.Cargo? || e.CargoChange? || e.MissionAccepted? || e.MissionCompleted?
  }

  /** Entries about the three material categories. */
  predicate IsMaterialEntry(e: Entry) {
    e.Materials? || e.MaterialCollected? || e.MaterialUse? || e.Craft?
  }

  /** The effect of one decoded entry on the session: the branches of `parse_entry`. */
  function Apply(s: Session, e: Entry): (r: Session)
    ensures s.live && !e.Fileheader? ==> r.live
    ensures r.version == s.version || e.Fileheader?
    ensures r.cmdr == s.cmdr || e.Fileheader? || e.LoadGame? || e.NewCommander?
  {
    if IsSessionEntry(e) then ApplySession(s, e)
    else if IsLocationEntry(e) then ApplyLocation(s, e)
    else if IsShipEntry(e) then ApplyShip(s, e)
    else if IsCargoEntry(e) then ApplyCargo(s, e)
    else if IsMaterialEntry(e) then ApplyMaterial(s, e)
    else s
  }

  function ApplySession(s: Session, e: Entry): (r: Session)
    requires IsSessionEntry(e)
    ensures !e.Fileheader? && !e.LoadGame? ==> r.state == s.state && r.live == s.live && r.version == s.version
    ensures e.JoinACrew? || e.QuitACrew? ==> r.body.None? && r.system.None? && r.station.None? && r.coordinates.None?
  {
    match e
    case Fileheader(v) => HeaderSession(v)
    case LoadGame(c, gameMode, group, credits, loan) => LoggedIn(s, c, gameMode, group, credits, loan)
    case NewCommander(n) => s.(cmdr := Some(n), group := None)
    case JoinACrew(captain) =>
      s.(captain := Some(captain), role := None, body := None, system := None, station := None, coordinates := None)
    case ChangeCrewRole(role) => s.(role := if role != "Idle" && role != "" then Some(role) else None)
    case QuitACrew =>
      s.(captain := None, role := None, body := None, system := None, station := None, coordinates := None)
  }

  /**
    A `LoadGame`: the session goes live for the commander; crew and location
    are forgotten, credits and loan are taken from the entry and the ranks start
    afresh. Nothing else in the commander state changes.
   */
  function LoggedIn(s: Session, c: string, gameMode: Option<string>, group: Option<string>, credits: int,
                    loan: int): (r: Session)
    ensures r.live && r.cmdr == Some(c) && r.version == s.version && r.isBeta == s.isBeta
    ensures r.captain.None? && r.role.None? && r.body.None? && r.system.None? && r.station.None? && r.coordinates.None?
    ensures r.state == s.state.(credits := Some(credits), loan := Some(loan), rank := NoRanks())
  {
    s.(live := true, cmdr := Some(c), mode := gameMode, group := group, captain := None, role := None,
       body := None, system := None, station := None, coordinates := None,
       state := s.state.(credits := Some(credits), loan := Some(loan), rank := NoRanks()))
  }

  /** Movement changes only the body, system, station and coordinates. */
  function ApplyLocation(s: Session, e: Entry): (r: Session)
    requires IsLocationEntry(e)
    ensures r == s.(body := r.body, system := r.system, station := r.station, coordinates := r.coordinates)
  {
    match e
    case Undocked => s.(station := None)
    case Position(kind, sys, pos, station) => Relocated(s, kind, sys, pos, station)
    case SupercruiseExit(bodyType, body) => s.(body := if bodyType == Some("Planet") then body else None)
    case SupercruiseEntry => s.(body := None)
  }

  /** Ship and rank entries change only the ship fields, the paint job and the ranks. */
  function ApplyShip(s: Session, e: Entry): (r: Session)
    requires IsShipEntry(e)
    ensures r == s.(state := r.state)
    ensures r.state == s.state.(shipId := r.state.shipId, shipIdent := r.state.shipIdent, shipName := r.state.shipName,
                                shipType := r.state.shipType, paintJob := r.state.paintJob, rank := r.state.rank)
  {
    var st := s.state;
    match e
    case SetUserShipName(id, ident, name, ship) =>
      s.(state := st.(shipId := Some(id), shipIdent := if ident.Some? then ident else st.shipIdent,
                      shipName := name, shipType := Some(Lower(ship))))
    case ShipyardBuy(t) =>
      s.(state := st.(shipId := None, shipIdent := None, shipName := None, shipType := Some(Lower(t)), paintJob := None))
    case ShipyardSwap(id, t) =>
      s.(state := st.(shipId := Some(id), shipIdent := None, shipName := None, shipType := Some(Lower(t)), paintJob := None))
    case Loadout(id, ident, name, ship, modules) =>
      s.(state := st.(shipId := Some(id), shipIdent := Some(ident), shipName := Some(name),
                      shipType := Some(Lower(ship)), paintJob := Some(PaintJobOf(modules))))
    case ModuleChange(_, slot, item) =>
      if slot == "PaintJob" then s.(state := st.(paintJob := Some(Symbols.TagSymbol(item.GetOr(""))))) else s
    case RankChange(_, ranks) => s.(state := st.(rank := Promoted(st.rank, ranks)))
    case Progress(progress) => s.(state := st.(rank := Progressed(st.rank, progress)))
  }

  /**
    A `MissionCompleted`: the mission is closed, a delivery or collection takes
    its commodity out of the hold, and the commodity rewards are added.
   */
  function Completed(st: CmdrState, id: int, name: string, commodity: string, count: Option<int>,
                     rewards: seq<Reward>): (r: CmdrState)
    ensures r == st.(missions := r.missions, cargo := r.cargo)
    ensures r.missions == st.missions - {id}
  {
    var cargo := if IsDeliveryOrCollect(name) then Restocked(st.cargo, Symbols.TagSymbol(commodity), -CountOr1(count)) else st.cargo;
    st.(missions := st.missions - {id}, cargo := Rewarded(cargo, rewards))
  }

  /** Cargo and mission entries change only the cargo, the missions and `live`. */
  function ApplyCargo(s: Session, e: Entry): (r: Session)
    requires IsCargoEntry(e)
    ensures r == s.(live := r.live, state := r.state)
    ensures r.state == s.state.(cargo := r.state.cargo, missions := r.state.missions)
  {
    var st := s.state;
    match e
    case Cargo(inventory) => s.(live := true, state := st.(cargo := Snapshot(inventory)))
    case CargoChange(kind, t, count) =>
      var n := CountOr1(count);
      s.(state := st.(cargo := Restocked(st.cargo, Symbols.TagSymbol(t), if kind.Gains() then n else -n)))
    case MissionAccepted(id, name, commodity, count) =>
      var cargo := if IsDelivery(name) then Restocked(st.cargo, Symbols.TagSymbol(commodity), CountOr1(count)) else st.cargo;
      s.(state := st.(missions := st.missions[id := e], cargo := cargo))
    case MissionCompleted(id, name, commodity, count, rewards) =>
      s.(state := Completed(st, id, name, commodity, count, rewards))
  }

  /** Material entries change only the three material categories. */
  function ApplyMaterial(s: Session, e: Entry): (r: Session)
    requires IsMaterialEntry(e)
    ensures r == s.(state := r.state)
    ensures r.state == s.state.(raw := r.state.raw, manufactured := r.state.manufactured, encoded := r.state.encoded)
  {
    var st := s.state;
    match e
    case Materials(raw, manufactured, encoded) =>
      s.(state := st.(raw := Snapshot(raw), manufactured := Snapshot(manufactured), encoded := Snapshot(encoded)))
    case MaterialCollected(c, name, n) =>
      s.(state := st.WithMaterials(c, Bumped(st.Materials(c), name, n)))
    case MaterialUse(_, c, name, n) =>
      s.(state := st.WithMaterials(c, Restocked(st.Materials(c), name, -n)))
    case Craft(_, items) =>
      s.(state := st.(raw := Consumed(st.raw, items), manufactured := Consumed(st.manufactured, items),
                      encoded := Consumed(st.encoded, items)))
  }

  /** `parse_entry(line)`: the new session and the decoded result. */
  function Parse(s: Session, line: Line): (r: (Session, Decoded))
    ensures !line.Json? ==> r == (s, NoEvent)
    ensures line.Json? ==> r.1 == Event(line.entry)
  {
    match line
    case Null => (s, NoEvent)
    case Garbled => (s, NoEvent)
    case Json(_, e) => (Apply(s, e), Event(e))
  }

  /** The session after parsing `lines` in order, as the worker's replay does. */
  function ParseAll(s: Session, lines: seq<Line>): (r: Session)
    ensures (forall i :: 0 <= i < |lines| ==> !(lines[i].Json? && lines[i].entry.Fileheader?)) ==>
      r.version == s.version && (s.live ==> r.live)
  {
    if lines == [] then s
    else Parse(ParseAll(s, lines[..|lines| - 1]), lines[|lines| - 1]).0
  }

  /** What one `get_entry` call returns, with the session and queue it leaves. */
  datatype Drained = Drained(result: Option<Decoded>, session: Session, queue: seq<Line>)

  /**
    `get_entry`: nothing on an empty queue; otherwise the front line is parsed,
    and when that leaves the session not live although a real entry other than
    a `Fileheader` came out, the session goes live and a `StartUp` line is queued
    at the back.
   */
  function Drain(s: Session, queue: seq<Line>, now: string): (r: Drained)
    ensures queue == [] <==> r.result.None?
    ensures queue == [] ==> r.session == s && r.queue == []
    ensures r.result.Some? && r.result.value.Event? && !r.result.value.entry.Fileheader? ==> r.session.live
  {
    if queue == [] then Drained(None, s, queue)
    else
      var p := Parse(s, queue[0]);
      if !p.0.live && p.1.Event? && !p.1.entry.Fileheader? then
        Drained(Some(p.1), p.0.(live := true), queue[1..] + [StartUpLine(now)])
      else
        Drained(Some(p.1), p.0, queue[1..])
  }

  /** The session and queue after `n` calls of `get_entry`. */
  function DrainN(s: Session, queue: seq<Line>, now: string, n: nat): (Session, seq<Line>)
    decreases n
  {
    if n == 0 then (s, queue)
    else
      var d := Drain(s, queue, now);
      DrainN(d.session, d.queue, now, n - 1)
  }
}
