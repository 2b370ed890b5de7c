/**
  What the journal parser promises, proved about the pure specification in
  `Journal`: resets, sparse count maps, rank bounds, location precedence,
  mission round trips, and the fold over a whole journal.
 */
module JournalProps {
  import opened Wrappers
  import opened Text
  import opened Counts
  import opened Journal
  import Symbols

  // ---------------------------------------------------------------- Fileheader

  /**
    A `Fileheader` resets the context and the commander state whatever came
    before; the session is no longer live and `is_beta` follows the version.
   */
  lemma HeaderResets(s: Session, t: Session, ts: string, v: string)
    ensures Parse(s, Json(ts, Fileheader(v))).0 == Parse(t, Json(ts, Fileheader(v))).0
    ensures var h := Parse(s, Json(ts, Fileheader(v))).0;
      && !h.live && h.version == Some(v) && h.isBeta == IsBeta(v)
      && h.cmdr.None? && h.mode.None? && h.group.None? && h.captain.None? && h.role.None?
      && h.body.None? && h.system.None? && h.station.None? && h.coordinates.None?
      && h.state.cargo == map[] && h.state.raw == map[] && h.state.manufactured == map[] && h.state.encoded == map[]
      && h.state.credits.None? && h.state.loan.None? && h.state.paintJob.None?
      && h.state.shipId.None? && h.state.shipIdent.None? && h.state.shipName.None? && h.state.shipType.None?
      && h.state.missions == map[]
      && h.state.rank.Keys == RANK_CATEGORIES && (forall k :: k in h.state.rank ==> h.state.rank[k].None?)
  {
  }

  /** The version counts as a beta when "beta" occurs in it in any letter case. */
  lemma BetaAnyCase(a: string, w: string, b: string)
    requires Lower(w) == "beta"
    ensures IsBeta(a + w + b)
  {
    LowerConcat(a + w, b);
    LowerConcat(a, w);
    var l := Lower(a + w + b);
    assert l == Lower(a) + "beta" + Lower(b);
    assert l[|a|..|a| + 4] == "beta";
    assert OccursAt(l, "beta", |a|);
  }

  // ---------------------------------------------------------------- replay

  /** Replaying two lines parses the first, then the second. */
  lemma ParseTwo(s: Session, l1: Line, l2: Line)
    ensures ParseAll(s, [l1, l2]) == Parse(Parse(s, l1).0, l2).0
  {
    assert [l1, l2][..1] == [l1];
    assert [l1][..0] == [];
    assert ParseAll(s, [l1]) == Parse(ParseAll(s, []), l1).0;
    assert ParseAll(s, [l1, l2]) == Parse(ParseAll(s, [l1]), l2).0;
  }

  /** Parsing two runs of lines one after the other is parsing their concatenation. */
  lemma {:induction false} ParseAllAppend(s: Session, a: seq<Line>, b: seq<Line>)
    ensures ParseAll(s, a + b) == ParseAll(ParseAll(s, a), b)
    decreases |b|
  {
    if b == [] {
      assert a + b == a;
    } else {
      var b' := b[..|b| - 1];
      assert (a + b)[..|a + b| - 1] == a + b';
      ParseAllAppend(s, a, b');
    }
  }

  /**
    Replaying a journal from any starting session gives the same result as
    replaying only what follows its last `Fileheader`, from any other session.
   */
  lemma ReplayFromHeader(s: Session, t: Session, before: seq<Line>, ts: string, v: string, after: seq<Line>)
    ensures ParseAll(s, before + [Json(ts, Fileheader(v))] + after)
         == ParseAll(t, [Json(ts, Fileheader(v))] + after)
  {
    var h := [Json(ts, Fileheader(v))];
    ParseAllAppend(s, before + h, after);
    ParseAllAppend(s, before, h);
    ParseAllAppend(t, h, after);
    assert ParseAll(ParseAll(s, before), h) == ParseAll(t, h) by {
      assert h[..0] == [];
    }
  }

  /** Lines that are None, not JSON or lack a timestamp leave the session as it was. */
  lemma {:induction false} GarbledInert(s: Session, lines: seq<Line>)
    requires forall i :: 0 <= i < |lines| ==> !lines[i].Json?
    ensures ParseAll(s, lines) == s
  {
    if lines != [] {
      GarbledInert(s, lines[..|lines| - 1]);
    }
  }

  /** Only a `Fileheader` ends a live session; `LoadGame` and `Cargo` start one. */
  lemma LiveUntilHeader(s: Session, e: Entry)
    ensures s.live && !e.Fileheader? ==> Apply(s, e).live
    ensures e.LoadGame? || e.Cargo? ==> Apply(s, e).live
    ensures e.Fileheader? ==> !Apply(s, e).live
  {
  }

  /** Stopping twice is the same as stopping once. */
  lemma StopIdempotent(s: Session)
    ensures Stopped(Stopped(s)) == Stopped(s)
  {
  }

  /** A `Fileheader` after `stop` gives the same session as without the `stop`. */
  lemma StopThenHeader(s: Session, ts: string, v: string)
    ensures Parse(Stopped(s), Json(ts, Fileheader(v))).0 == Parse(s, Json(ts, Fileheader(v))).0
  {
    HeaderResets(Stopped(s), s, ts, v);
  }

  // ---------------------------------------------------------------- ranks

  /** The rank table holds the six categories, and progress never exceeds 100. */
  predicate RankShape(rank: map<string, Option<RankLevel>>) {
    && rank.Keys == RANK_CATEGORIES
    && forall k :: k in rank && rank[k].Some? ==> rank[k].value.progress <= 100
  }

  lemma ShipKeepsRankShape(s: Session, e: Entry)
    requires IsShipEntry(e) && RankShape(s.state.rank)
    ensures RankShape(ApplyShip(s, e).state.rank)
  {
  }

  lemma ApplyKeepsRankShape(s: Session, e: Entry)
    requires RankShape(s.state.rank)
    ensures RankShape(Apply(s, e).state.rank)
  {
    if IsSessionEntry(e) {
      assert Apply(s, e) == ApplySession(s, e);
    } else if IsLocationEntry(e) {
      assert Apply(s, e).state == s.state;
    } else if IsShipEntry(e) {
      ShipKeepsRankShape(s, e);
    } else if IsCargoEntry(e) {
      assert Apply(s, e).state.rank == s.state.rank;
    } else if IsMaterialEntry(e) {
      assert Apply(s, e).state.rank == s.state.rank;
    }
  }

  /** Whatever a journal holds, replaying it keeps the rank table in shape. */
  lemma {:induction false} ReplayKeepsRankShape(s: Session, lines: seq<Line>)
    requires RankShape(s.state.rank)
    ensures RankShape(ParseAll(s, lines).state.rank)
  {
    if lines != [] {
      ReplayKeepsRankShape(s, lines[..|lines| - 1]);
      var prev := ParseAll(s, lines[..|lines| - 1]);
      var last := lines[|lines| - 1];
      if last.Json? {
        ApplyKeepsRankShape(prev, last.entry);
      }
    }
  }

  /**
    `Rank` and `Promotion` set every category they name to that level with
    progress 0 and leave the others alone.
   */
  lemma PromotionSetsLevel(s: Session, kind: RankEvent, ranks: map<string, int>, k: string)
    requires k in s.state.rank
    ensures var r := Apply(s, RankChange(kind, ranks)).state.rank;
      && r.Keys == s.state.rank.Keys
      && (k in ranks ==> r[k] == Some(RankLevel(ranks[k], 0)))
      && (k !in ranks ==> r[k] == s.state.rank[k])
  {
  }

  /**
    `Progress` caps the percentage at 100 and only touches categories that
    already have a rank: it never creates one.
   */
  lemma ProgressOnlyRanked(s: Session, progress: map<string, int>, k: string)
    requires k in s.state.rank
    ensures var r := Apply(s, Progress(progress)).state.rank;
      && r.Keys == s.state.rank.Keys
      && (s.state.rank[k].None? ==> r[k].None?)
      && (s.state.rank[k].Some? && k in progress ==>
            r[k] == Some(RankLevel(s.state.rank[k].value.level, if progress[k] <= 100 then progress[k] else 100)))
      && (k !in progress ==> r[k] == s.state.rank[k])
  {
  }

  // ---------------------------------------------------------------- location

  /** The precedence rules of `Location`, `FSDJump` and `Docked`. */
  lemma PositionRules(s: Session, kind: PositionEvent, sys: string, pos: Option<Coordinates>, station: Option<string>)
    ensures var t := Apply(s, Position(kind, sys, pos, station));
      && (pos.Some? ==> t.coordinates == pos)
      && (pos.None? && s.system != Some(sys) ==> t.coordinates.None?)
      && (pos.None? && s.system == Some(sys) ==> t.coordinates == s.coordinates)
      && (kind != Docked ==> t.body.None?)
      && (kind == Docked ==> t.body == s.body)
      && t.system == Some(if sys == "ProvingGround" then "CQC" else sys)
      && t.station == station
      && t.state == s.state && t.cmdr == s.cmdr && t.live == s.live
  {
  }

  /** `Undocked` clears the station and nothing else. */
  lemma UndockedClearsStation(s: Session)
    ensures Apply(s, Undocked) == s.(station := None)
  {
  }

  /** Joining or leaving a crew clears the whole location context. */
  lemma CrewClearsLocation(s: Session, e: Entry)
    requires e.JoinACrew? || e.QuitACrew?
    ensures var t := Apply(s, e);
      && t.body.None? && t.system.None? && t.station.None? && t.coordinates.None? && t.role.None?
      && t.captain == (if e.JoinACrew? then Some(e.captain) else None)
      && t.state == s.state
  {
  }

  // ---------------------------------------------------------------- cargo and materials

  /** Cargo and the three material tables hold positive counts only. */
  predicate SessionSparse(s: Session) {
    Sparse(s.state.cargo) && Sparse(s.state.raw) && Sparse(s.state.manufactured) && Sparse(s.state.encoded)
  }

  /** Entries whose snapshots and collected amounts are all positive, as the game writes them. */
  predicate PositiveCounts(e: Entry) {
    match e
    case Cargo(inv) => forall i :: 0 <= i < |inv| ==> inv[i].count > 0
    case Materials(r, m, n) =>
      && (forall i :: 0 <= i < |r| ==> r[i].count > 0)
      && (forall i :: 0 <= i < |m| ==> m[i].count > 0)
      && (forall i :: 0 <= i < |n| ==> n[i].count > 0)
    case MaterialCollected(_, _, n) => n > 0
    case _ => true
  }

  lemma CargoKeepsSparse(s: Session, e: Entry)
    requires IsCargoEntry(e) && SessionSparse(s) && PositiveCounts(e)
    ensures SessionSparse(ApplyCargo(s, e))
  {
  }

  lemma MaterialKeepsSparse(s: Session, e: Entry)
    requires IsMaterialEntry(e) && SessionSparse(s) && PositiveCounts(e)
    ensures SessionSparse(ApplyMaterial(s, e))
  {
    var st := s.state;
    match e
    case MaterialCollected(c, name, n) =>
      assert Sparse(st.Materials(c)) by { assert c.Raw? || c.Manufactured? || c.Encoded?; }
    case MaterialUse(_, c, name, n) =>
      assert Sparse(st.Materials(c)) by { assert c.Raw? || c.Manufactured? || c.Encoded?; }
    case Materials(_, _, _) =>
    case Craft(_, _) =>
  }

  lemma ApplyKeepsSparse(s: Session, e: Entry)
    requires SessionSparse(s) && PositiveCounts(e)
    ensures SessionSparse(Apply(s, e))
  {
    if IsSessionEntry(e) {
      assert Apply(s, e) == ApplySession(s, e);
    } else if IsLocationEntry(e) {
      assert Apply(s, e).state == s.state;
    } else if IsShipEntry(e) {
      assert Apply(s, e) == ApplyShip(s, e);
    } else if IsCargoEntry(e) {
      CargoKeepsSparse(s, e);
    } else if IsMaterialEntry(e) {
      MaterialKeepsSparse(s, e);
    }
  }

  /** Replaying entries with positive snapshots never leaves a zero or negative count. */
  lemma {:induction false} ReplayKeepsSparse(s: Session, lines: seq<Line>)
    requires SessionSparse(s)
    requires forall i :: 0 <= i < |lines| && lines[i].Json? ==> PositiveCounts(lines[i].entry)
    ensures SessionSparse(ParseAll(s, lines))
  {
    if lines != [] {
      var init := lines[..|lines| - 1];
      assert forall i :: 0 <= i < |init| ==> init[i] == lines[i];
      ReplayKeepsSparse(s, init);
      var last := lines[|lines| - 1];
      if last.Json? {
        ApplyKeepsSparse(ParseAll(s, init), last.entry);
      }
    }
  }

  /**
    A cargo change adds (buy, collect, ...) or removes (sell, eject, ...) `Count`,
    default 1, of the normalised symbol; every other symbol keeps its stock.
   */
  lemma CargoChangeStock(s: Session, kind: CargoEvent, t: string, count: Option<int>, k: string)
    ensures var c := Apply(s, CargoChange(kind, t, count)).state.cargo;
      var n := Stock(s.state.cargo, Symbols.TagSymbol(t)) + (if kind.Gains() then CountOr1(count) else -CountOr1(count));
      && (k == Symbols.TagSymbol(t) ==> Stock(c, k) == (if n > 0 then n else 0) && (k in c <==> n > 0))
      && (k != Symbols.TagSymbol(t) ==> Stock(c, k) == Stock(s.state.cargo, k) && (k in c <==> k in s.state.cargo))
  {
    var e := CargoChange(kind, t, count);
    assert Apply(s, e) == ApplyCargo(s, e);
  }

  /**
    `MaterialDiscarded` and `ScientificResearch` take `Count` from one material,
    removing it at zero or below; other materials and categories are unchanged.
   */
  lemma MaterialUseStock(s: Session, kind: UseEvent, c: Category, name: string, n: int, d: Category, k: string)
    ensures var t := Apply(s, MaterialUse(kind, c, name, n)).state;
      && (d != c ==> t.Materials(d) == s.state.Materials(d))
      && (d == c && k != name ==> Stock(t.Materials(d), k) == Stock(s.state.Materials(d), k))
      && (d == c && k != name ==> (k in t.Materials(d) <==> k in s.state.Materials(d)))
      && (d == c && k == name ==> (k in t.Materials(d) <==> Stock(s.state.Materials(d), k) - n > 0))
      && (d == c && k == name ==>
            Stock(t.Materials(d), k) == if Stock(s.state.Materials(d), k) - n > 0 then Stock(s.state.Materials(d), k) - n else 0)
      && t.cargo == s.state.cargo
  {
    var e := MaterialUse(kind, c, name, n);
    assert Apply(s, e) == ApplyMaterial(s, e);
  }

  /**
    `EngineerCraft` and `Synthesis` only ever decrease materials already held:
    they never add a name to any category.
   */
  lemma CraftNeverCreates(s: Session, kind: CraftEvent, items: seq<Item>, d: Category)
    ensures Apply(s, Craft(kind, items)).state.Materials(d).Keys <= s.state.Materials(d).Keys
  {
    var e := Craft(kind, items);
    assert Apply(s, e) == ApplyMaterial(s, e);
  }

  // ---------------------------------------------------------------- missions

  /** The effect of accepting a delivery mission. */
  lemma AcceptStep(s: Session, id: int, name: string, commodity: string, count: Option<int>)
    requires IsDelivery(name)
    ensures var acc := MissionAccepted(id, name, commodity, count);
      Apply(s, acc) == s.(state := s.state.(missions := s.state.missions[id := acc],
                                            cargo := Restocked(s.state.cargo, Symbols.TagSymbol(commodity), CountOr1(count))))
  {
  }

  /** The effect of completing a delivery mission without rewards. */
  lemma CompleteStep(s: Session, id: int, name: string, commodity: string, count: Option<int>)
    requires IsDeliveryOrCollect(name)
    ensures Apply(s, MissionCompleted(id, name, commodity, count, []))
         == s.(state := s.state.(missions := s.state.missions - {id},
                                 cargo := Restocked(s.state.cargo, Symbols.TagSymbol(commodity), -CountOr1(count))))
  {
    var e := MissionCompleted(id, name, commodity, count, []);
    assert Apply(s, e) == ApplyCargo(s, e);
  }

  /** Completing any other kind of mission leaves the hold to the rewards alone. */
  lemma CompleteOtherStep(s: Session, id: int, name: string, commodity: string, count: Option<int>,
                          rewards: seq<Reward>)
    requires !IsDeliveryOrCollect(name)
    ensures Apply(s, MissionCompleted(id, name, commodity, count, rewards)).state.cargo
         == Rewarded(s.state.cargo, rewards)
  {
    var e := MissionCompleted(id, name, commodity, count, rewards);
    assert Apply(s, e) == ApplyCargo(s, e);
  }

  /** The commodity symbol a `CommodityReward` is booked under. */
  function RewardSymbol(x: Reward): string {
    Symbols.TagSymbol(Lower(x.rewardName))
  }

  /** A single reward adds its count, defaulting to 1, under its normalised lower-cased name. */
  lemma RewardedOne(cargo: Tally, x: Reward)
    ensures Rewarded(cargo, [x]) == Restocked(cargo, RewardSymbol(x), CountOr1(x.rewardCount))
  {
    assert [x][..0] == [];
  }

  /** The total count the rewards book under symbol `k`. */
  function RewardSum(rewards: seq<Reward>, k: string): int {
    if rewards == [] then 0
    else
      var x := rewards[|rewards| - 1];
      RewardSum(rewards[..|rewards| - 1], k) + (if RewardSymbol(x) == k then CountOr1(x.rewardCount) else 0)
  }

  /** A commodity no reward normalises to keeps its stock and its presence. */
  lemma {:induction false} RewardedUntouched(cargo: Tally, rewards: seq<Reward>, k: string)
    requires forall i :: 0 <= i < |rewards| ==> RewardSymbol(rewards[i]) != k
    ensures Stock(Rewarded(cargo, rewards), k) == Stock(cargo, k)
    ensures k in Rewarded(cargo, rewards) <==> k in cargo
  {
    if rewards != [] {
      var init := rewards[..|rewards| - 1];
      RewardedUntouched(cargo, init, k);
    }
  }

  /**
    With positive reward counts and a hold of positive counts, every commodity
    gains exactly the sum of the rewards booked under it.
   */
  lemma {:induction false} RewardedStock(cargo: Tally, rewards: seq<Reward>, k: string)
    requires Sparse(cargo)
    requires forall i :: 0 <= i < |rewards| ==> CountOr1(rewards[i].rewardCount) > 0
    ensures Stock(Rewarded(cargo, rewards), k) == Stock(cargo, k) + RewardSum(rewards, k)
  {
    if rewards != [] {
      var init := rewards[..|rewards| - 1];
      RewardedStock(cargo, init, k);
    }
  }

  /** Accepting and then completing a delivery mission leaves the session as it was. */
  lemma AcceptThenComplete(s: Session, id: int, name: string, commodity: string, count: Option<int>)
    requires Sparse(s.state.cargo) && id !in s.state.missions
    requires IsDelivery(name) && CountOr1(count) > 0
    ensures Apply(Apply(s, MissionAccepted(id, name, commodity, count)), MissionCompleted(id, name, commodity, count, [])) == s
  {
    var acc := MissionAccepted(id, name, commodity, count);
    AcceptStep(s, id, name, commodity, count);
    assert IsDeliveryOrCollect(name);
    CompleteStep(Apply(s, acc), id, name, commodity, count);
    RestockRoundTrip(s.state.cargo, Symbols.TagSymbol(commodity), CountOr1(count));
    assert s.state.missions[id := acc] - {id} == s.state.missions;
  }

  /**
    Accepting a delivery mission and then completing it, with no rewards and
    nothing in between, removes the mission again and restores the cargo.
   */
  lemma DeliveryRoundTrip(s: Session, ts1: string, ts2: string, id: int, name: string, commodity: string,
                          count: Option<int>)
    requires Sparse(s.state.cargo) && id !in s.state.missions
    requires IsDelivery(name) && CountOr1(count) > 0
    ensures ParseAll(s, [Json(ts1, MissionAccepted(id, name, commodity, count)),
                         Json(ts2, MissionCompleted(id, name, commodity, count, []))]) == s
  {
    var acc := MissionAccepted(id, name, commodity, count);
    var com := MissionCompleted(id, name, commodity, count, []);
    ParseTwo(s, Json(ts1, acc), Json(ts2, com));
    AcceptThenComplete(s, id, name, commodity, count);
  }

  /** A completed mission is no longer open, whether it was recorded or not. */
  lemma CompletedMissionClosed(s: Session, id: int, name: string, commodity: string, count: Option<int>,
                               rewards: seq<Reward>)
    ensures var t := Apply(s, MissionCompleted(id, name, commodity, count, rewards)).state.missions;
      id !in t && t == s.state.missions - {id}
  {
  }

  /** An accepted mission is recorded under its id. */
  lemma AcceptedMissionRecorded(s: Session, id: int, name: string, commodity: string, count: Option<int>)
    ensures var e := MissionAccepted(id, name, commodity, count);
      var t := Apply(s, e).state;
      && id in t.missions && t.missions[id] == e
      && (!IsDelivery(name) ==> t.cargo == s.state.cargo)
  {
  }

  /** The mission kind is the second `_`-separated segment of the name. */
  lemma MissionKindSegment(parts: seq<string>)
    requires |parts| >= 2
    requires forall i :: 0 <= i < |parts| ==> '_' !in parts[i]
    ensures IsDelivery(Join(parts, '_')) <==> parts[1] == "Delivery"
    ensures IsDeliveryOrCollect(Join(parts, '_')) <==> parts[1] == "Delivery" || parts[1] == "Collect"
  {
    SplitJoin(parts, '_');
  }


  // ---------------------------------------------------------------- event queue

  /**
    `get_entry` takes exactly the front line, keeps the rest of the queue in
    order and adds at most one line, a `StartUp`, at the back.
   */
  lemma DrainFifo(s: Session, queue: seq<Line>, now: string)
    requires queue != []
    ensures var d := Drain(s, queue, now);
      && d.result == Some(Parse(s, queue[0]).1)
      && d.queue[..|queue| - 1] == queue[1..]
      && (|d.queue| == |queue| - 1 || (|d.queue| == |queue| && d.queue[|queue| - 1] == StartUpLine(now)))
  {
  }

  /**
    A `StartUp` line is queued exactly when a decoded entry other than a
    `Fileheader` leaves the session not live; the session is live after any
    such entry, and nothing else differs from `parse_entry`'s own effect.
   */
  lemma DrainInjectsIff(s: Session, queue: seq<Line>, now: string)
    requires queue != []
    ensures var d := Drain(s, queue, now);
      var p := Parse(s, queue[0]);
      && (|d.queue| == |queue| <==> !p.0.live && queue[0].Json? && !queue[0].entry.Fileheader?)
      && (queue[0].Json? && !queue[0].entry.Fileheader? ==> d.session.live)
      && d.session.(live := p.0.live) == p.0
  {
  }

  /** The `StartUp` line, when it reaches the front of a live session's queue, changes nothing. */
  lemma StartUpInert(s: Session, rest: seq<Line>, now: string, later: string)
    requires s.live
    ensures Drain(s, [StartUpLine(now)] + rest, later) == Drained(Some(Event(Other("StartUp"))), s, rest)
  {
    assert ([StartUpLine(now)] + rest)[1..] == rest;
  }

  /**
    While the session is live and no `Fileheader` arrives, draining the queue
    with `get_entry` is the same as replaying it, and no `StartUp` is added.
   */
  lemma {:induction false} LiveDrainIsReplay(s: Session, queue: seq<Line>, now: string)
    requires s.live
    requires forall i :: 0 <= i < |queue| && queue[i].Json? ==> !queue[i].entry.Fileheader?
    ensures DrainN(s, queue, now, |queue|) == (ParseAll(s, queue), [])
    decreases |queue|
  {
    if queue != [] {
      var t := Parse(s, queue[0]).0;
      if queue[0].Json? {
        LiveUntilHeader(s, queue[0].entry);
      }
      assert Drain(s, queue, now) == Drained(Some(Parse(s, queue[0]).1), t, queue[1..]);
      LiveDrainIsReplay(t, queue[1..], now);
      assert ParseAll(s, [queue[0]]) == t by {
        assert [queue[0]][..0] == [];
      }
      ParseAllAppend(s, [queue[0]], queue[1..]);
      assert [queue[0]] + queue[1..] == queue;
    }
  }
}
