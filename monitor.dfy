/**
  `EDLogs` (monitor.py): the journal monitor's context fields, the commander
  state and the event queue the worker fills and `get_entry` drains. Each method
  updates the fields in place and is proved against the pure functions of
  `Journal`: `View()` gathers the fields into a `Journal.Session`.

  The set of rare commodities is given to the constructor; its contents are
  not part of this model.
 */
module Monitor {
  import opened Wrappers
  import opened Text
  import opened Counts
  import opened Journal
  import Symbols

  /** Some commodity in the cargo is rare. */
  predicate CarriesRare(cargo: Tally, rares: set<string>) {
    exists c :: c in cargo && c in rares
  }

  /** Adding a positive amount of a rare commodity makes the cargo carry a rare. */
  lemma RareGained(cargo: Tally, rares: set<string>, symbol: string, count: int)
    requires Sparse(cargo) && count > 0 && Symbols.TagSymbol(symbol) in rares
    ensures CarriesRare(Restocked(cargo, Symbols.TagSymbol(symbol), count), rares)
  {
    var k := Symbols.TagSymbol(symbol);
    assert k in Restocked(cargo, k, count);
  }

  /** Cargo changes of ordinary commodities never change whether a rare is carried. */
  lemma OrdinaryKeepsRares(cargo: Tally, rares: set<string>, symbol: string, count: int)
    requires Symbols.TagSymbol(symbol) !in rares
    ensures CarriesRare(Restocked(cargo, Symbols.TagSymbol(symbol), count), rares) <==> CarriesRare(cargo, rares)
  {
    var k := Symbols.TagSymbol(symbol);
    var r := Restocked(cargo, k, count);
    if CarriesRare(cargo, rares) {
      var c :| c in cargo && c in rares;
      assert c != k && c in r;
    }
    if CarriesRare(r, rares) {
      var c :| c in r && c in rares;
      assert c != k && c in cargo;
    }
  }

  class EDLogs {
    /** `RARES` */
    const rares: set<string>

    /** Journal lines waiting for the main thread, oldest first. */
    var eventQueue: seq<Line>

    var live: bool
    var version: Option<string>
    var isBeta: bool
    var mode: Option<string>
    var group: Option<string>
    var cmdr: Option<string>
    var captain: Option<string>
    var role: Option<string>
    var body: Option<string>
    var system: Option<string>
    var station: Option<string>
    var coordinates: Option<Coordinates>
    var state: CmdrState

    /** The journal context and commander state as one value. */
    function View(): Session
      reads this
    {
      Session(live, version, isBeta, mode, group, cmdr, captain, role, body, system, station, coordinates, state)
    }

    /** `__init__`: empty queue, nothing known, empty commander state. */
    constructor(rares: set<string>)
      ensures this.rares == rares && eventQueue == []
      ensures View() == InitialSession()
    {
      this.rares := rares;
      eventQueue := [];
      live := false;
      version := None;
      isBeta := false;
      mode := None;
      group := None;
      cmdr := None;
      captain := None;
      role := None;
      body := None;
      system := None;
      station := None;
      coordinates := None;
      state := EmptyState();
    }

    /**
      `add_cargo`: the normalised symbol's stock moves by `count`; the key stays
      only while the stock is positive.
     */
    method AddCargo(symbol: string, count: int)
      modifies this`state
      ensures state == old(state).(cargo := Restocked(old(state.cargo), Symbols.TagSymbol(symbol), count))
    {
      var k := Symbols.TagSymbol(symbol);
      var stock := Stock(state.cargo, k);
      stock := stock + count;
      if stock > 0 {
        state := state.(cargo := state.cargo[k := stock]);
      } else {
        state := state.(cargo := state.cargo - {k});
      }
    }

    /**
      `parse_entry`: a null or undecodable line changes nothing and yields no
      event; a decoded entry is applied to the context and state and returned.
     */
    method ParseEntry(line: Line) returns (d: Decoded)
      modifies this
      ensures (View(), d) == Parse(old(View()), line)
      ensures eventQueue == old(eventQueue)
    {
      if !line.Json? {
        return NoEvent;
      }
      var e := line.entry;
      if IsSessionEntry(e) {
        ApplySessionEntry(e);
      } else if IsLocationEntry(e) {
        ApplyLocationEntry(e);
      } else if IsShipEntry(e) {
        ApplyShipEntry(e);
      } else if IsCargoEntry(e) {
        ApplyCargoEntry(e);
      } else if IsMaterialEntry(e) {
        ApplyMaterialEntry(e);
      }
      return Event(e);
    }

    /** `stop`: monitoring ends, and the journal context it depended on is forgotten. */
    method Stop()
      modifies this`version, this`mode, this`group, this`cmdr, this`body, this`system, this`station,
               this`coordinates, this`isBeta
      ensures View() == Stopped(old(View()))
    {
      version := None;
      mode := None;
      group := None;
      cmdr := None;
      body := None;
      system := None;
      station := None;
      coordinates := None;
      isBeta := false;
    }

    /** A `Fileheader`: a new journal starts, and everything known so far is dropped. */
    method Reset(gameversion: string)
      modifies this`live, this`version, this`isBeta, this`mode, this`group, this`cmdr, this`captain, this`role,
               this`body, this`system, this`station, this`coordinates, this`state
      ensures View() == HeaderSession(gameversion)
    {
      live := false;
      version := Some(gameversion);
      isBeta := Contains(Lower(gameversion), "beta");
      cmdr := None;
      mode := None;
      group := None;
      captain := None;
      role := None;
      body := None;
      system := None;
      station := None;
      coordinates := None;
      state := EmptyState();
    }

    /** A `LoadGame`: the commander enters the game; location and ranks start afresh. */
    method Login(c: string, gameMode: Option<string>, g: Option<string>, credits: int, loan: int)
      modifies this`live, this`cmdr, this`mode, this`group, this`captain, this`role,
               this`body, this`system, this`station, this`coordinates, this`state
      ensures View() == LoggedIn(old(View()), c, gameMode, g, credits, loan)
    {
      live := true;
      cmdr := Some(c);
      mode := gameMode;
      group := g;
      captain := None;
      role := None;
      body := None;
      system := None;
      station := None;
      coordinates := None;
      state := state.(credits := Some(credits), loan := Some(loan), rank := NoRanks());
    }

    /** The branches for the journal header, the commander and the crew. */
    method ApplySessionEntry(e: Entry)
      requires IsSessionEntry(e)
      modifies this`live, this`version, this`isBeta, this`mode, this`group, this`cmdr, this`captain, this`role,
               this`body, this`system, this`station, this`coordinates, this`state
      ensures View() == ApplySession(old(View()), e)
    {
      match e {
        case Fileheader(v) =>
          Reset(v);
        case LoadGame(c, gameMode, g, credits, loan) =>
          Login(c, gameMode, g, credits, loan);
        case NewCommander(n) =>
          cmdr := Some(n);
          group := None;
        case JoinACrew(c) =>
          captain := Some(c);
          role := None;
          body := None;
          system := None;
          station := None;
          coordinates := None;
        case ChangeCrewRole(r) =>
          role := if r != "Idle" && r != "" then Some(r) else None;
        case QuitACrew =>
          captain := None;
          role := None;
          body := None;
          system := None;
          station := None;
          coordinates := None;
      }
    }

    /** The branches that move the commander: docking, jumps and supercruise. */
    method ApplyLocationEntry(e: Entry)
      requires IsLocationEntry(e)
      modifies this`body, this`coordinates, this`system, this`station
      ensures View() == ApplyLocation(old(View()), e)
    {
      match e {
        case Undocked =>
          station := None;
        case Position(kind, sys, pos, stationName) =>
          if kind != Docked {
            body := None;
          }
          if pos.Some? {
            coordinates := pos;
          } else if system != Some(sys) {
            coordinates := None;
          }
          system := Some(if sys == "ProvingGround" then "CQC" else sys);
          station := stationName;
        case SupercruiseExit(bodyType, b) =>
          body := if bodyType == Some("Planet") then b else None;
        case SupercruiseEntry =>
          body := None;
      }
    }

    /** The branches for the current ship, its paint job and the ranks. */
    method ApplyShipEntry(e: Entry)
      requires IsShipEntry(e)
      modifies this`state
      ensures View() == ApplyShip(old(View()), e)
    {
      match e {
        case SetUserShipName(id, ident, name, ship) =>
          state := state.(shipId := Some(id));
          if ident.Some? {
            state := state.(shipIdent := ident);
          }
          state := state.(shipName := name);
          state := state.(shipType := Some(Lower(ship)));
        case ShipyardBuy(t) =>
          state := state.(shipId := None, shipIdent := None, shipName := None, shipType := Some(Lower(t)), paintJob := None);
        case ShipyardSwap(id, t) =>
          state := state.(shipId := Some(id), shipIdent := None, shipName := None, shipType := Some(Lower(t)), paintJob := None);
        case Loadout(id, ident, name, ship, modules) =>
          state := state.(shipId := Some(id), shipIdent := Some(ident), shipName := Some(name), shipType := Some(Lower(ship)));
          var paintJob := ScanPaintJob(modules);
          state := state.(paintJob := Some(paintJob));
        case ModuleChange(_, slot, item) =>
          if slot == "PaintJob" {
            state := state.(paintJob := Some(Symbols.TagSymbol(item.GetOr(""))));
          }
        case RankChange(_, ranks) =>
          var rank := Promote(state.rank, ranks);
          state := state.(rank := rank);
        case Progress(progress) =>
          var rank := AdvanceProgress(state.rank, progress);
          state := state.(rank := rank);
      }
    }

    /** The branches for the cargo hold and the missions. */
    method ApplyCargoEntry(e: Entry)
      requires IsCargoEntry(e)
      modifies this`state, this`live
      ensures View() == ApplyCargo(old(View()), e)
    {
      match e {
        case Cargo(inventory) =>
          live := true;
          state := state.(cargo := Snapshot(inventory));
        case CargoChange(kind, t, count) =>
          AddCargo(t, if kind.Gains() then CountOr1(count) else -CountOr1(count));
        case MissionAccepted(id, name, commodity, count) =>
          state := state.(missions := state.missions[id := e]);
          if IsDelivery(name) {
            AddCargo(commodity, CountOr1(count));
          }
        case MissionCompleted(id, name, commodity, count, rewards) =>
          CompleteMission(id, name, commodity, count, rewards);
      }
    }

    /**
      A `MissionCompleted`: the mission is closed, a delivery or collection takes
      its commodity out of the hold, and the commodity rewards are added.
     */
    method CompleteMission(id: int, name: string, commodity: string, count: Option<int>, rewards: seq<Reward>)
      modifies this`state
      ensures state == Completed(old(state), id, name, commodity, count, rewards)
    {
      state := state.(missions := state.missions - {id});
      if IsDeliveryOrCollect(name) {
        AddCargo(commodity, -CountOr1(count));
      }
      CollectRewards(rewards);
    }

    /** The branches for the three material categories. */
    method ApplyMaterialEntry(e: Entry)
      requires IsMaterialEntry(e)
      modifies this`state
      ensures View() == ApplyMaterial(old(View()), e)
    {
      match e {
        case Materials(raw, manufactured, encoded) =>
          // the loop over the three categories, unrolled
          state := state.(raw := Snapshot(raw));
          state := state.(manufactured := Snapshot(manufactured));
          state := state.(encoded := Snapshot(encoded));
        case MaterialCollected(c, name, n) =>
          var m := state.Materials(c);
          state := state.WithMaterials(c, m[name := Stock(m, name) + n]);
        case MaterialUse(_, c, name, n) =>
          var m := state.Materials(c);
          var left := Stock(m, name) - n;
          if left > 0 {
            m := m[name := left];
          } else {
            m := m - {name};
          }
          state := state.WithMaterials(c, m);
        case Craft(_, items) =>
          // the loop over the three categories, unrolled
          var raw := Consume(state.raw, items);
          state := state.(raw := raw);
          var manufactured := Consume(state.manufactured, items);
          state := state.(manufactured := manufactured);
          var encoded := Consume(state.encoded, items);
          state := state.(encoded := encoded);
      }
    }

    /** The `CommodityReward` loop of `MissionCompleted`: each reward is added to the cargo in turn. */
    method CollectRewards(rewards: seq<Reward>)
      modifies this`state
      ensures state == old(state).(cargo := Rewarded(old(state.cargo), rewards))
    {
      var i := 0;
      while i < |rewards|
        invariant 0 <= i <= |rewards|
        invariant state == old(state).(cargo := Rewarded(old(state.cargo), rewards[..i]))
      {
        assert rewards[..i + 1][..i] == rewards[..i];
        AddCargo(Lower(rewards[i].rewardName), CountOr1(rewards[i].rewardCount));
        i := i + 1;
      }
      assert rewards[..i] == rewards;
    }

    /**
      `get_entry`: an empty queue yields nothing; otherwise the front line is
      parsed and, when a real entry other than a `Fileheader` finds the monitor
      not live, the monitor goes live and queues a `StartUp` line stamped `now`.
     */
    method GetEntry(now: string) returns (r: Option<Decoded>)
      modifies this
      ensures var d := Drain(old(View()), old(eventQueue), now);
        r == d.result && View() == d.session && eventQueue == d.queue
    {
      if eventQueue == [] {
        return None;
      }
      var line := eventQueue[0];
      eventQueue := eventQueue[1..];
      var d := ParseEntry(line);
      if !live && d.Event? && !d.entry.Fileheader? {
        live := true;
        eventQueue := eventQueue + [StartUpLine(now)];
      }
      return Some(d);
    }

    /** The worker's tail loop: new journal lines join the back of the queue. */
    method Enqueue(lines: seq<Line>)
      modifies this`eventQueue
      ensures eventQueue == old(eventQueue) + lines
    {
      var i := 0;
      while i < |lines|
        invariant 0 <= i <= |lines|
        invariant eventQueue == old(eventQueue) + lines[..i]
      {
        assert lines[..i + 1] == lines[..i] + [lines[i]];
        eventQueue := eventQueue + [lines[i]];
        i := i + 1;
      }
      assert lines[..i] == lines;
    }

    /**
      The worker's start: the existing journal is parsed line by line; then a
      live session gets a `StartUp` line when the game is running, and otherwise
      a null line and the session stops being live.
     */
    method Replay(lines: seq<Line>, gameRunning: bool, now: string)
      modifies this
      ensures var t := ParseAll(old(View()), lines);
        && View() == (if t.live && !gameRunning then t.(live := false) else t)
        && eventQueue == old(eventQueue) + (if !t.live then [] else if gameRunning then [StartUpLine(now)] else [Line.Null])
    {
      ghost var s0 := View();
      var i := 0;
      while i < |lines|
        invariant 0 <= i <= |lines|
        invariant View() == ParseAll(s0, lines[..i])
        invariant eventQueue == old(eventQueue)
      {
        assert lines[..i + 1][..i] == lines[..i];
        var _ := ParseEntry(lines[i]);
        i := i + 1;
      }
      assert lines[..i] == lines;
      if live {
        if gameRunning {
          eventQueue := eventQueue + [StartUpLine(now)];
        } else {
          eventQueue := eventQueue + [Line.Null];
          live := false;
        }
      }
    }

    /** `carrying_rares`: some commodity in the cargo is rare. */
    method CarryingRares() returns (b: bool)
      ensures b <==> CarriesRare(state.cargo, rares)
    {
      var unseen := state.cargo.Keys;
      while unseen != {}
        invariant unseen <= state.cargo.Keys
        invariant forall c :: c in state.cargo && c !in unseen ==> c !in rares
        decreases unseen
      {
        var c :| c in unseen;
        if c in rares {
          return true;
        }
        unseen := unseen - {c};
      }
      return false;
    }
  }

  /** The `Loadout` module loop: the last paint-job module's item, lower-cased, or "". */
  method ScanPaintJob(modules: seq<Module>) returns (paintJob: string)
    ensures paintJob == PaintJobOf(modules)
  {
    paintJob := "";
    var i := 0;
    while i < |modules|
      invariant 0 <= i <= |modules|
      invariant paintJob == PaintJobOf(modules[..i])
    {
      assert modules[..i + 1][..i] == modules[..i];
      var m := modules[i];
      if m.slot == Some("PaintJob") && m.item.Some? && m.item.value != "" {
        paintJob := Lower(m.item.value);
      }
      i := i + 1;
    }
    assert modules[..i] == modules;
  }

  /** The `Rank`/`Promotion` loop over the entry's fields. */
  method Promote(rank: map<string, Option<RankLevel>>, ranks: map<string, int>)
    returns (r: map<string, Option<RankLevel>>)
    ensures r == Promoted(rank, ranks)
  {
    r := rank;
    var todo := ranks.Keys;
    while todo != {}
      invariant todo <= ranks.Keys
      invariant r.Keys == rank.Keys
      invariant forall k :: k in r ==> r[k] == if k in ranks && k !in todo then Some(RankLevel(ranks[k], 0)) else rank[k]
      decreases todo
    {
      var k :| k in todo;
      if k in r {
        r := r[k := Some(RankLevel(ranks[k], 0))];
      }
      todo := todo - {k};
    }
  }

  /** The `Progress` loop over the entry's fields: only ranked categories move, capped at 100. */
  method AdvanceProgress(rank: map<string, Option<RankLevel>>, progress: map<string, int>)
    returns (r: map<string, Option<RankLevel>>)
    ensures r == Progressed(rank, progress)
  {
    r := rank;
    var todo := progress.Keys;
    while todo != {}
      invariant todo <= progress.Keys
      invariant r.Keys == rank.Keys
      invariant forall k :: k in r ==>
        r[k] == if k in progress && k !in todo && rank[k].Some? then Some(RankLevel(rank[k].value.level, Min(progress[k], 100))) else rank[k]
      decreases todo
    {
      var k :| k in todo;
      if k in r && r[k].Some? {
        r := r[k := Some(RankLevel(r[k].value.level, Min(progress[k], 100)))];
      }
      todo := todo - {k};
    }
  }

  /** The crafting loop for one category: present ingredients are taken away, dropped at zero or below. */
  method Consume(m: Tally, items: seq<Item>) returns (r: Tally)
    ensures r == Consumed(m, items)
  {
    r := m;
    var i := 0;
    while i < |items|
      invariant 0 <= i <= |items|
      invariant r == Consumed(m, items[..i])
    {
      assert items[..i + 1][..i] == items[..i];
      var x := items[i];
      ghost var prev := r;
      assert Consumed(m, items[..i + 1]) == if x.name in prev then Restocked(prev, x.name, -x.count) else prev;
      if x.name in r {
        var left := r[x.name] - x.count;
        if left > 0 {
          r := r[x.name := left];
        } else {
          r := r - {x.name};
        }
      }
      i := i + 1;
    }
    assert items[..i] == items;
  }
}
