/**
  The BountyStatus plugin (plugins/BountyStatus/load.py): per-faction tallies
  of victims, bounty rewards and combat bonds since the last supercruise exit,
  the rows of the faction table in descending order of amount, and the report
  fields sent for each redeemed voucher. The Tk table, the browser and the URL
  encoding are not part of this model; what each of them receives is.
 */
module BountyStatus {
  import opened Wrappers
  import opened Counts
  import opened Journal

  /** A row of the faction table: the faction and its amount. */
  datatype Row = Row(faction: string, amount: int)

  // ---------------------------------------------------------------- tallies

  /** The sum of all amounts of a tally. */
  ghost function Total(m: Tally): int
    decreases |m.Keys|
  {
    if m == map[] then 0
    else
      var k :| k in m;
      m[k] + Total(m - {k})
  }

  /** The sum does not depend on which key is taken first. */
  lemma {:induction false} TotalRemove(m: Tally, k: string)
    requires k in m
    ensures Total(m) == m[k] + Total(m - {k})
    decreases |m.Keys|
  {
    var j :| j in m && Total(m) == m[j] + Total(m - {j});
    if j != k {
      assert (m - {j}) - {k} == (m - {k}) - {j};
      TotalRemove(m - {j}, k);
      TotalRemove(m - {k}, j);
    }
  }

  /** `m[k] += d` raises the total by exactly `d`. */
  lemma TotalBumped(m: Tally, k: string, d: int)
    ensures Total(Bumped(m, k, d)) == Total(m) + d
  {
    var r := Bumped(m, k, d);
    TotalRemove(r, k);
    if k in m {
      TotalRemove(m, k);
      assert r - {k} == m - {k};
    } else {
      assert r - {k} == m;
    }
  }

  /** The `Rewards` of a `Bounty`, each credited to its faction in turn. */
  function Credited(m: Tally, rewards: seq<BountyReward>): (r: Tally)
    ensures m.Keys <= r.Keys
    ensures forall k :: k in r && k !in m ==> exists i :: 0 <= i < |rewards| && rewards[i].faction == k
  {
    if rewards == [] then m
    else
      var init, x := rewards[..|rewards| - 1], rewards[|rewards| - 1];
      var prev := Credited(m, init);
      assert forall i :: 0 <= i < |init| ==> rewards[i] == init[i];
      Bumped(prev, x.faction, x.reward)
  }

  /** The sum of the reward amounts. */
  function SumRewards(rewards: seq<BountyReward>): int {
    if rewards == [] then 0 else SumRewards(rewards[..|rewards| - 1]) + rewards[|rewards| - 1].reward
  }

  /** The sum of the rewards that name faction `f`. */
  function FactionSum(rewards: seq<BountyReward>, f: string): int {
    if rewards == [] then 0
    else
      var x := rewards[|rewards| - 1];
      FactionSum(rewards[..|rewards| - 1], f) + (if x.faction == f then x.reward else 0)
  }

  /** Each faction ends with its old amount plus the rewards that name it. */
  lemma {:induction false} CreditedStock(m: Tally, rewards: seq<BountyReward>, f: string)
    ensures Stock(Credited(m, rewards), f) == Stock(m, f) + FactionSum(rewards, f)
  {
    if rewards != [] {
      CreditedStock(m, rewards[..|rewards| - 1], f);
    }
  }

  /** Crediting the rewards raises the total by their sum. */
  lemma {:induction false} CreditedTotal(m: Tally, rewards: seq<BountyReward>)
    ensures Total(Credited(m, rewards)) == Total(m) + SumRewards(rewards)
  {
    if rewards != [] {
      var init, x := rewards[..|rewards| - 1], rewards[|rewards| - 1];
      CreditedTotal(m, init);
      TotalBumped(Credited(m, init), x.faction, x.reward);
    }
  }

  /** A faction that no reward names keeps its amount. */
  lemma {:induction false} CreditedOthers(m: Tally, rewards: seq<BountyReward>, f: string)
    requires forall i :: 0 <= i < |rewards| ==> rewards[i].faction != f
    ensures Stock(Credited(m, rewards), f) == Stock(m, f)
    ensures f in Credited(m, rewards) <==> f in m
  {
    if rewards != [] {
      var init := rewards[..|rewards| - 1];
      assert forall i :: 0 <= i < |init| ==> init[i] == rewards[i];
      CreditedOthers(m, init, f);
    }
  }

  // ---------------------------------------------------------------- table order

  /**
    `rows` lists every faction of `source` exactly once, with its amount, in
    non-increasing order of amount.
   */
  predicate TableOrder(source: Tally, rows: seq<Row>) {
    && |rows| == |source|
    && (forall i :: 0 <= i < |rows| ==> rows[i].faction in source && rows[i].amount == source[rows[i].faction])
    && (forall i, j :: 0 <= i < j < |rows| ==> rows[i].faction != rows[j].faction)
    && (forall f :: f in source ==> exists i :: 0 <= i < |rows| && rows[i].faction == f)
    && (forall i, j :: 0 <= i < j < |rows| ==> rows[i].amount >= rows[j].amount)
  }

  /** A non-empty set of factions has one with the largest amount. */
  lemma {:induction false} LargestExists(source: Tally, rest: set<string>)
    requires rest != {} && rest <= source.Keys
    ensures exists f :: Largest(source, rest, f)
    decreases |rest|
  {
    var f :| f in rest;
    if rest == {f} {
      assert Largest(source, rest, f);
    } else {
      LargestExists(source, rest - {f});
      var h :| Largest(source, rest - {f}, h);
      if source[f] <= source[h] {
        assert Largest(source, rest, h);
      } else {
        assert Largest(source, rest, f);
      }
    }
  }

  /** The rows so far: factions of `source` not in `rest`, each once, with its amount. */
  predicate Listed(source: Tally, rows: seq<Row>, rest: set<string>) {
    && (forall i :: 0 <= i < |rows| ==> rows[i].faction in source && rows[i].amount == source[rows[i].faction])
    && (forall i :: 0 <= i < |rows| ==> rows[i].faction !in rest)
    && (forall i, j :: 0 <= i < j < |rows| ==> rows[i].faction != rows[j].faction)
  }

  /** The rows so far are largest first, and none is smaller than a faction still to come. */
  predicate Ordered(source: Tally, rows: seq<Row>, rest: set<string>)
    requires rest <= source.Keys
  {
    && (forall i, j :: 0 <= i < j < |rows| ==> rows[i].amount >= rows[j].amount)
    && (forall i, g :: 0 <= i < |rows| && g in rest ==> rows[i].amount >= source[g])
  }

  /** Every faction of `source` is either listed or still to come. */
  predicate Covered(source: Tally, rows: seq<Row>, rest: set<string>) {
    && rest <= source.Keys
    && |rows| + |rest| == |source|
    && (forall f :: f in source && f !in rest ==> exists i :: 0 <= i < |rows| && rows[i].faction == f)
  }

  /** A faction with the largest amount among those still to come. */
  predicate Largest(source: Tally, rest: set<string>, f: string)
    requires rest <= source.Keys
  {
    f in rest && forall g :: g in rest ==> source[g] <= source[f]
  }

  lemma AppendKeepsListed(source: Tally, rows: seq<Row>, rest: set<string>, f: string)
    requires Listed(source, rows, rest) && rest <= source.Keys && f in rest
    ensures Listed(source, rows + [Row(f, source[f])], rest - {f})
  {
    var rows' := rows + [Row(f, source[f])];
    assert forall i :: 0 <= i < |rows| ==> rows'[i] == rows[i];
  }

  lemma AppendKeepsOrdered(source: Tally, rows: seq<Row>, rest: set<string>, f: string)
    requires rest <= source.Keys && Ordered(source, rows, rest) && Largest(source, rest, f)
    ensures Ordered(source, rows + [Row(f, source[f])], rest - {f})
  {
    var rows' := rows + [Row(f, source[f])];
    assert forall i :: 0 <= i < |rows| ==> rows'[i] == rows[i];
  }

  lemma AppendKeepsCovered(source: Tally, rows: seq<Row>, rest: set<string>, f: string)
    requires Covered(source, rows, rest) && f in rest
    ensures Covered(source, rows + [Row(f, source[f])], rest - {f})
  {
    var rows' := rows + [Row(f, source[f])];
    forall h | h in source && h !in rest - {f}
      ensures exists i :: 0 <= i < |rows'| && rows'[i].faction == h
    {
      if h == f {
        assert rows'[|rows|].faction == h;
      } else {
        var i :| 0 <= i < |rows| && rows[i].faction == h;
        assert rows'[i].faction == h;
      }
    }
  }

  /** `update_treeview(source)`: the rows the table is filled with, largest amount first. */
  method UpdateTreeview(source: Tally) returns (rows: seq<Row>)
    ensures TableOrder(source, rows)
  {
    rows := [];
    var rest := source.Keys;
    while rest != {}
      invariant Covered(source, rows, rest)
      invariant Listed(source, rows, rest)
      invariant Ordered(source, rows, rest)
      decreases rest
    {
      LargestExists(source, rest);
      var f :| Largest(source, rest, f);
      AppendKeepsListed(source, rows, rest, f);
      AppendKeepsOrdered(source, rows, rest, f);
      AppendKeepsCovered(source, rows, rest, f);
      rows := rows + [Row(f, source[f])];
      rest := rest - {f};
    }
  }

  // ---------------------------------------------------------------- reports

  /** `reportfields`: form key to the name of the field it carries. */
  const REPORT_FIELDS: map<string, string> := map[
    "entry.1329248460" := "Commander",
    "entry.248483210" := "Activity",
    "entry.1839481350" := "Amount",
    "entry.1757640172" := "System",
    "entry.1498245084" := "Faction"
  ]

  /** The form keys whose field is present in `d`, each with that field's value. */
  function ReportFieldsOf(d: map<string, Value>): (r: map<string, Value>)
    ensures r.Keys <= REPORT_FIELDS.Keys
  {
    map key | key in REPORT_FIELDS && REPORT_FIELDS[key] in d :: d[REPORT_FIELDS[key]]
  }

  /** Only the five named fields of a record reach the report. */
  lemma ReportIgnoresOthers(d: map<string, Value>, k: string, v: Value)
    requires k !in REPORT_FIELDS.Values
    ensures ReportFieldsOf(d[k := v]) == ReportFieldsOf(d)
  {
    assert forall key :: key in REPORT_FIELDS ==> REPORT_FIELDS[key] != k by {
      forall key | key in REPORT_FIELDS ensures REPORT_FIELDS[key] != k {
        assert REPORT_FIELDS[key] in REPORT_FIELDS.Values;
      }
    }
  }

  /** A record with all five fields fills every form key. */
  lemma ReportComplete(d: map<string, Value>)
    requires forall key :: key in REPORT_FIELDS ==> REPORT_FIELDS[key] in d
    ensures ReportFieldsOf(d).Keys == REPORT_FIELDS.Keys
  {
  }

  /** A `Value` for a name that may be missing. */
  function Named(name: Option<string>): Value {
    if name.Some? then Str(name.value) else Value.Null
  }

  /** `{"Commander": cmdr, "System": system, "Activity": activity}`, then updated with `extra`. */
  function Record(cmdr: Option<string>, system: Option<string>, activity: string, extra: map<string, Value>): map<string, Value> {
    map["Commander" := Named(cmdr), "System" := Named(system), "Activity" := Str(activity)] + extra
  }

  /** Commander, system and activity always reach the report, unless the voucher overrides them. */
  lemma ReportHasBase(cmdr: Option<string>, system: Option<string>, activity: string, extra: map<string, Value>)
    ensures var r := ReportFieldsOf(Record(cmdr, system, activity, extra));
      && r["entry.1329248460"] == (if "Commander" in extra then extra["Commander"] else Named(cmdr))
      && r["entry.1757640172"] == (if "System" in extra then extra["System"] else Named(system))
      && r["entry.248483210"] == (if "Activity" in extra then extra["Activity"] else Str(activity))
      && ("entry.1839481350" in r <==> "Amount" in extra)
      && ("entry.1498245084" in r <==> "Faction" in extra)
  {
  }

  /**
    The report fields a `RedeemVoucher` sends: one report per faction of a
    bounty voucher, one for the whole entry of a combat bond voucher, none for
    other vouchers.
   */
  method VoucherReports(cmdr: Option<string>, system: Option<string>, voucherType: string,
                        factions: seq<map<string, Value>>, fields: map<string, Value>)
    returns (reports: seq<map<string, Value>>)
    ensures voucherType == "bounty" ==>
      |reports| == |factions| &&
      forall i :: 0 <= i < |factions| ==> reports[i] == ReportFieldsOf(Record(cmdr, system, "Bounties", factions[i]))
    ensures voucherType == "CombatBond" ==> reports == [ReportFieldsOf(Record(cmdr, system, "Combat Bonds", fields))]
    ensures voucherType != "bounty" && voucherType != "CombatBond" ==> reports == []
  {
    reports := [];
    if voucherType == "bounty" {
      var i := 0;
      while i < |factions|
        invariant 0 <= i <= |factions|
        invariant |reports| == i
        invariant forall j :: 0 <= j < i ==> reports[j] == ReportFieldsOf(Record(cmdr, system, "Bounties", factions[j]))
      {
        var d := Record(cmdr, system, "Bounties", factions[i]);
        reports := reports + [ReportFieldsOf(d)];
        i := i + 1;
      }
    } else if voucherType == "CombatBond" {
      var d := Record(cmdr, system, "Combat Bonds", fields);
      reports := [ReportFieldsOf(d)];
    }
  }

  // ---------------------------------------------------------------- plugin state

  /** The plugin's three module-level tallies. */
  class BountyTally {
    var victims: Tally
    var bounties: Tally
    var bonds: Tally

    constructor()
      ensures victims == map[] && bounties == map[] && bonds == map[]
    {
      victims := map[];
      bounties := map[];
      bonds := map[];
    }

    /** A `Bounty`: one more victim of the faction, and each reward credited to its faction. */
    method CountBounty(victimFaction: string, rewards: seq<BountyReward>)
      modifies this`victims, this`bounties
      ensures victims == Bumped(old(victims), victimFaction, 1)
      ensures bounties == Credited(old(bounties), rewards)
    {
      victims := Bumped(victims, victimFaction, 1);
      var i := 0;
      while i < |rewards|
        invariant 0 <= i <= |rewards|
        invariant bounties == Credited(old(bounties), rewards[..i])
        invariant victims == Bumped(old(victims), victimFaction, 1)
      {
        assert rewards[..i + 1][..i] == rewards[..i];
        bounties := Bumped(bounties, rewards[i].faction, rewards[i].reward);
        i := i + 1;
      }
      assert rewards[..i] == rewards;
    }

    /**
      The tally branches of `journal_entry`: `SupercruiseExit` empties the
      tallies; `Bounty` counts one victim and credits each reward, then shows the
      bounties; `FactionKillBond` credits the bond, then shows the bonds. Other
      entries change nothing and show nothing.
     */
    method Track(e: Entry) returns (shown: Option<seq<Row>>)
      modifies this
      ensures e.SupercruiseExit? ==> victims == map[] && bounties == map[] && bonds == map[]
      ensures e.Bounty? ==>
        && victims == Bumped(old(victims), e.victimFaction, 1)
        && bounties == Credited(old(bounties), e.rewards)
        && bonds == old(bonds)
      ensures e.FactionKillBond? ==>
        && bonds == Bumped(old(bonds), e.awardingFaction, e.reward)
        && victims == old(victims) && bounties == old(bounties)
      ensures !e.SupercruiseExit? && !e.Bounty? && !e.FactionKillBond? ==>
        victims == old(victims) && bounties == old(bounties) && bonds == old(bonds)
      ensures shown.Some? <==> e.Bounty? || e.FactionKillBond?
      ensures shown.Some? && e.Bounty? ==> TableOrder(bounties, shown.value)
      ensures shown.Some? && e.FactionKillBond? ==> TableOrder(bonds, shown.value)
    {
      shown := None;
      if e.SupercruiseExit? {
        victims := map[];
        bounties := map[];
        bonds := map[];
      } else if e.Bounty? {
        CountBounty(e.victimFaction, e.rewards);
        var rows := UpdateTreeview(bounties);
        shown := Some(rows);
      } else if e.FactionKillBond? {
        bonds := Bumped(bonds, e.awardingFaction, e.reward);
        var rows := UpdateTreeview(bonds);
        shown := Some(rows);
      }
    }

    /**
      `journal_entry`: the tally branches, and for `RedeemVoucher` the reports
      it sends. Other entries change nothing and show nothing.
     */
    method JournalEntry(cmdr: Option<string>, system: Option<string>, e: Entry)
      returns (shown: Option<seq<Row>>, reports: seq<map<string, Value>>)
      modifies this
      ensures e.SupercruiseExit? ==> victims == map[] && bounties == map[] && bonds == map[]
      ensures e.Bounty? ==>
        && victims == Bumped(old(victims), e.victimFaction, 1)
        && bounties == Credited(old(bounties), e.rewards)
        && bonds == old(bonds)
      ensures e.FactionKillBond? ==>
        && bonds == Bumped(old(bonds), e.awardingFaction, e.reward)
        && victims == old(victims) && bounties == old(bounties)
      ensures !e.SupercruiseExit? && !e.Bounty? && !e.FactionKillBond? ==>
        victims == old(victims) && bounties == old(bounties) && bonds == old(bonds)
      ensures shown.Some? <==> e.Bounty? || e.FactionKillBond?
      ensures shown.Some? && e.Bounty? ==> TableOrder(bounties, shown.value)
      ensures shown.Some? && e.FactionKillBond? ==> TableOrder(bonds, shown.value)
      ensures !e.RedeemVoucher? ==> reports == []
      ensures e.RedeemVoucher? && e.voucherType == "bounty" ==>
        |reports| == |e.factions| &&
        forall i :: 0 <= i < |e.factions| ==> reports[i] == ReportFieldsOf(Record(cmdr, system, "Bounties", e.factions[i]))
      ensures e.RedeemVoucher? && e.voucherType == "CombatBond" ==>
        reports == [ReportFieldsOf(Record(cmdr, system, "Combat Bonds", e.fields))]
      ensures e.RedeemVoucher? && e.voucherType != "bounty" && e.voucherType != "CombatBond" ==> reports == []
    {
      if e.RedeemVoucher? {
        shown := None;
        reports := VoucherReports(cmdr, system, e.voucherType, e.factions, e.fields);
      } else {
        reports := [];
        shown := Track(e);
      }
    }
  }
}
