/** The TB_ table run (archive/To_be_delete/process_tb_tables.py): list the tables whose
    name starts with 'TB_', select the fifteen important ones (padding with other TB_
    tables when some are missing), and generate KPIs for each selected table. */
module TbTables {
  import opened Wrappers
  import opened Text
  import opened Py
  import opened KpiParser
  import opened ArchiveExtractor
  import Seqs

  // ---- get_tb_tables ----

  /** `table.get('name', '')` as a string; None when the table is not a dict or the
      name is not a string (the `.upper()` raises). */
  function TbName(t: Json): Option<string> {
    match Get(t, "name", JStr(""))
    case Some(JStr(s)) => Some(s)
    case _ => None
  }

  predicate IsTbName(s: string) { StartsWith(Upper(s), "TB_") }

  /** The filter condition on a table whose name reads without raising. */
  predicate IsTbTable(t: Json) { TbName(t).Some? && IsTbName(TbName(t).value) }

  /** The filtering loop; None when a table raises. */
  function TbFilter(ts: seq<Json>): (r: Option<seq<Json>>)
    ensures r.Some? <==> forall t :: t in ts ==> TbName(t).Some?
    ensures r.Some? ==> |r.value| <= |ts|
    decreases |ts|
  {
    if |ts| == 0 then Some([])
    else
      var t := ts[|ts| - 1];
      assert forall x :: x in ts[..|ts| - 1] ==> x in ts;
      assert ts == ts[..|ts| - 1] + [t];
      match TbFilter(ts[..|ts| - 1])
      case None => None
      case Some(acc) =>
        match TbName(t)
        case None => None
        case Some(s) => Some(if IsTbName(s) then acc + [t] else acc)
  }

  /** The kept tables are exactly those whose upper-cased name starts with 'TB_', in
      the order of the catalog. */
  lemma {:induction false} TbFilterIff(ts: seq<Json>, t: Json)
    requires TbFilter(ts).Some?
    ensures t in TbFilter(ts).value <==> t in ts && IsTbName(TbName(t).value)
    ensures TbFilter(ts).value == Seqs.Filter(ts, IsTbTable)
    decreases |ts|
  {
    if |ts| > 0 {
      var pre := ts[..|ts| - 1];
      assert ts == pre + [ts[|ts| - 1]];
      TbFilterIff(pre, t);
    }
  }

  /** `get_tb_tables`: the TB_ tables of the listing in its order; [] on a failing
      status or when anything raises. */
  function GetTbTables(reply: Reply): (r: seq<Json>)
    ensures forall t :: t in r ==> TbName(t).Some? && IsTbName(TbName(t).value)
    ensures reply.status != 200 || reply.body.None? ==> r == []
    ensures reply.status == 200 && reply.body.Some? && reply.body.value.JList? ==>
      var ts := reply.body.value.items;
      if forall t :: t in ts ==> TbName(t).Some? then r == Seqs.Filter(ts, IsTbTable) else r == []
  {
    if reply.status != 200 || reply.body.None? then []
    else match Iter(reply.body.value)
      case None => []
      case Some(ts) =>
        match TbFilter(ts)
        case None => []
        case Some(r) =>
          assert forall t :: t in r ==> t in ts && IsTbName(TbName(t).value) by {
            forall t | t in r ensures t in ts && IsTbName(TbName(t).value) {
              TbFilterIff(ts, t);
            }
          }
          assert r == Seqs.Filter(ts, IsTbTable) by { TbFilterIff(ts, JNull); }
          r
  }

  method GetTbTablesLoop(reply: Reply) returns (tb: seq<Json>)
    ensures tb == GetTbTables(reply)
  {
    if reply.status != 200 || reply.body.None? {
      return [];
    }
    var all := Iter(reply.body.value);
    if all.None? {
      return [];
    }
    var ts := all.value;
    tb := [];
    var i := 0;
    while i < |ts|
      invariant 0 <= i <= |ts|
      invariant TbFilter(ts[..i]) == Some(tb)
    {
      assert ts[..i + 1][..i] == ts[..i];
      var name := TbName(ts[i]);
      if name.None? {
        FilterNoneStays(ts, i + 1);
        return [];
      }
      if IsTbName(name.value) {
        tb := tb + [ts[i]];
      }
      i := i + 1;
    }
    assert ts[..|ts|] == ts;
  }

  lemma FilterNoneStays(ts: seq<Json>, i: nat)
    requires i <= |ts| && TbFilter(ts[..i]).None?
    ensures TbFilter(ts).None?
  {
    var x :| x in ts[..i] && TbName(x).None?;
    assert x in ts;
  }

  // ---- the important-table selection ----

  const ImportantNames: seq<string> := [
    "tb_user", "tb_payment", "tb_market_order", "tb_partner", "tb_market_product",
    "tb_user_activity_log", "tb_user_statistics", "tb_partner_statistics",
    "tb_market_cart", "tb_payment_method", "tb_rfq", "tb_quotation",
    "tb_subscribe_plan", "tb_point", "tb_notification"]

  const Target: nat := 15

  predicate Distinct<T(==)>(s: seq<T>) { forall i, j :: 0 <= i < j < |s| ==> s[i] != s[j] }

  /** `table.get('name') == name` */
  predicate NameIs(t: Json, name: string) { Get0(t, "name") == Some(JStr(name)) }

  /** The position of the first table named `name` at or after `from`. */
  function FirstNamed(ts: seq<Json>, name: string, from: nat): (r: Option<nat>)
    requires from <= |ts|
    ensures r.Some? ==> from <= r.value < |ts| && NameIs(ts[r.value], name)
    ensures r.Some? ==> forall j :: from <= j < r.value ==> !NameIs(ts[j], name)
    ensures r.None? ==> forall j :: from <= j < |ts| ==> !NameIs(ts[j], name)
    decreases |ts| - from
  {
    if from == |ts| then None
    else if NameIs(ts[from], name) then Some(from)
    else FirstNamed(ts, name, from + 1)
  }

  /** For each name in order, the first table carrying it (the loop with `break`). */
  function Picks(names: seq<string>, ts: seq<Json>): (r: seq<Json>)
    ensures |r| <= |names|
    ensures forall t :: t in r ==> t in ts
    decreases |names|
  {
    if |names| == 0 then []
    else
      var acc := Picks(names[..|names| - 1], ts);
      match FirstNamed(ts, names[|names| - 1], 0)
      case None => acc
      case Some(k) => acc + [ts[k]]
  }

  /** The condition on a name that some table of the listing carries. */
  function PresentIn(ts: seq<Json>): string -> bool {
    n => FirstNamed(ts, n, 0).Some?
  }

  /** A picked table is the first one named by some important name, every present
      important name has its first table picked, and the picks follow the order of the
      names: the k-th pick is the first table carrying the k-th present name. */
  lemma {:induction false} PicksFirstMatches(names: seq<string>, ts: seq<Json>)
    ensures forall t :: t in Picks(names, ts) ==>
      exists n :: n in names && FirstNamed(ts, n, 0).Some? && t == ts[FirstNamed(ts, n, 0).value]
    ensures forall n :: n in names && FirstNamed(ts, n, 0).Some? ==> ts[FirstNamed(ts, n, 0).value] in Picks(names, ts)
    ensures var present := Seqs.Filter(names, PresentIn(ts));
      |Picks(names, ts)| == |present|
      && forall k :: 0 <= k < |present| ==>
        FirstNamed(ts, present[k], 0).Some? && Picks(names, ts)[k] == ts[FirstNamed(ts, present[k], 0).value]
  {
    PicksMembership(names, ts);
    PicksInNameOrder(names, ts);
  }

  lemma {:induction false} PicksMembership(names: seq<string>, ts: seq<Json>)
    ensures forall t :: t in Picks(names, ts) ==>
      exists n :: n in names && FirstNamed(ts, n, 0).Some? && t == ts[FirstNamed(ts, n, 0).value]
    ensures forall n :: n in names && FirstNamed(ts, n, 0).Some? ==> ts[FirstNamed(ts, n, 0).value] in Picks(names, ts)
    decreases |names|
  {
    if |names| > 0 {
      var pre := names[..|names| - 1];
      var last := names[|names| - 1];
      PicksMembership(pre, ts);
      assert names == pre + [last];
      assert forall t :: t in Picks(pre, ts) ==> t in Picks(names, ts);
      forall t | t in Picks(names, ts)
        ensures exists n :: n in names && FirstNamed(ts, n, 0).Some? && t == ts[FirstNamed(ts, n, 0).value]
      {
        if t in Picks(pre, ts) {
          var n :| n in pre && FirstNamed(ts, n, 0).Some? && t == ts[FirstNamed(ts, n, 0).value];
          assert n in names;
        } else {
          assert last in names;
        }
      }
    }
  }

  lemma {:induction false} PicksInNameOrder(names: seq<string>, ts: seq<Json>)
    ensures var present := Seqs.Filter(names, PresentIn(ts));
      |Picks(names, ts)| == |present|
      && forall k :: 0 <= k < |present| ==>
        FirstNamed(ts, present[k], 0).Some? && Picks(names, ts)[k] == ts[FirstNamed(ts, present[k], 0).value]
    decreases |names|
  {
    if |names| > 0 {
      var pre := names[..|names| - 1];
      var last := names[|names| - 1];
      PicksInNameOrder(pre, ts);
      assert PresentIn(ts)(last) == FirstNamed(ts, last, 0).Some?;
    }
  }

  /** With distinct names, no table is picked twice: each pick carries its own name. */
  lemma {:induction false} PicksDistinct(names: seq<string>, ts: seq<Json>)
    requires Distinct(names)
    ensures Distinct(Picks(names, ts))
    ensures forall t :: t in Picks(names, ts) ==> exists n :: n in names && NameIs(t, n)
    decreases |names|
  {
    if |names| > 0 {
      var pre := names[..|names| - 1];
      var last := names[|names| - 1];
      assert Distinct(pre);
      PicksDistinct(pre, ts);
      var acc := Picks(pre, ts);
      match FirstNamed(ts, last, 0)
      case None =>
      case Some(k) =>
        forall i | 0 <= i < |acc| ensures acc[i] != ts[k] {
          assert acc[i] in acc;
          var n :| n in pre && NameIs(acc[i], n);
          assert n != last;
        }
        assert forall t :: t in acc + [ts[k]] ==> t in acc || t == ts[k];
    }
  }

  /** The padding loop: tables not yet chosen, in order, while fewer than fifteen. */
  function Pad(ts: seq<Json>, chosen: seq<Json>): seq<Json>
    decreases |ts|
  {
    if |ts| == 0 then chosen
    else
      var acc := Pad(ts[..|ts| - 1], chosen);
      var t := ts[|ts| - 1];
      if t !in acc && |acc| < Target then acc + [t] else acc
  }

  /** The positions of the listing whose tables the padding loop appends. */
  function PadAt(ts: seq<Json>, chosen: seq<Json>): (idx: seq<nat>)
    ensures forall k :: 0 <= k < |idx| ==> idx[k] < |ts|
    decreases |ts|
  {
    if |ts| == 0 then []
    else
      var acc := Pad(ts[..|ts| - 1], chosen);
      if ts[|ts| - 1] !in acc && |acc| < Target then PadAt(ts[..|ts| - 1], chosen) + [|ts| - 1]
      else PadAt(ts[..|ts| - 1], chosen)
  }

  /** Padding keeps the chosen tables in front, adds only tables of the list, stops at
      fifteen, adds every table when it stops short, and adds no duplicate; the added
      tables are not among the chosen ones and follow the order of the listing (they sit
      at strictly increasing positions of it). */
  lemma PadProps(ts: seq<Json>, chosen: seq<Json>)
    requires |chosen| <= Target
    ensures var r := Pad(ts, chosen);
      |chosen| <= |r| <= Target && r[..|chosen|] == chosen
      && (forall t :: t in r ==> t in chosen || t in ts)
      && (|r| < Target ==> forall t :: t in ts ==> t in r)
      && (Distinct(chosen) ==> Distinct(r))
    ensures var r, idx := Pad(ts, chosen), PadAt(ts, chosen);
      |r| == |chosen| + |idx|
      && (forall k :: 0 <= k < |idx| ==> r[|chosen| + k] == ts[idx[k]] && ts[idx[k]] !in chosen)
      && (forall k, l :: 0 <= k < l < |idx| ==> idx[k] < idx[l])
  {
    PadBounds(ts, chosen);
    PadInOrder(ts, chosen);
  }

  lemma {:induction false} PadInOrder(ts: seq<Json>, chosen: seq<Json>)
    ensures var r, idx := Pad(ts, chosen), PadAt(ts, chosen);
      |r| == |chosen| + |idx| && r[..|chosen|] == chosen
      && (forall k :: 0 <= k < |idx| ==> r[|chosen| + k] == ts[idx[k]] && ts[idx[k]] !in chosen)
      && (forall k, l :: 0 <= k < l < |idx| ==> idx[k] < idx[l])
    decreases |ts|
  {
    if |ts| > 0 {
      var n := |ts| - 1;
      var pre := ts[..n];
      PadInOrder(pre, chosen);
      var acc := Pad(pre, chosen);
      assert forall j :: 0 <= j < n ==> pre[j] == ts[j];
      if ts[n] !in acc && |acc| < Target {
        assert (acc + [ts[n]])[..|chosen|] == acc[..|chosen|];
        assert forall t :: t in chosen ==> t in acc by {
          forall t | t in chosen ensures t in acc {
            var i :| 0 <= i < |chosen| && chosen[i] == t;
            assert acc[i] == t;
          }
        }
      }
    }
  }

  lemma {:induction false} PadBounds(ts: seq<Json>, chosen: seq<Json>)
    requires |chosen| <= Target
    ensures var r := Pad(ts, chosen);
      |chosen| <= |r| <= Target && r[..|chosen|] == chosen
      && (forall t :: t in r ==> t in chosen || t in ts)
      && (|r| < Target ==> forall t :: t in ts ==> t in r)
      && (Distinct(chosen) ==> Distinct(r))
    decreases |ts|
  {
    if |ts| > 0 {
      var pre := ts[..|ts| - 1];
      PadBounds(pre, chosen);
      var acc := Pad(pre, chosen);
      assert ts == pre + [ts[|ts| - 1]];
      if ts[|ts| - 1] !in acc && |acc| < Target {
        assert (acc + [ts[|ts| - 1]])[..|chosen|] == acc[..|chosen|];
      }
    }
  }

  lemma ImportantNamesDistinct()
    ensures |ImportantNames| == Target && Distinct(ImportantNames)
  {
  }

  /** The selection: the important tables, padded when fewer than fifteen were found. */
  function Select(ts: seq<Json>): seq<Json> {
    var c := Picks(ImportantNames, ts);
    if |c| < Target then Pad(ts, c) else c
  }

  /** At most fifteen distinct tables of the list, the important ones first; when fewer
      than fifteen, every table of the list is selected. */
  lemma SelectProps(ts: seq<Json>)
    ensures var r := Select(ts);
      var c := Picks(ImportantNames, ts);
      |c| <= |r| <= Target && r[..|c|] == c && Distinct(r)
      && (forall t :: t in r ==> t in ts)
      && (|r| < Target ==> forall t :: t in ts ==> t in r)
  {
    ImportantNamesDistinct();
    PicksDistinct(ImportantNames, ts);
    var c := Picks(ImportantNames, ts);
    if |c| < Target {
      PadProps(ts, c);
    } else {
      assert c[..|c|] == c;
    }
  }

  method FindFirstNamed(ts: seq<Json>, name: string) returns (k: Option<nat>)
    ensures k == FirstNamed(ts, name, 0)
  {
    var j := 0;
    while j < |ts|
      invariant 0 <= j <= |ts|
      invariant FirstNamed(ts, name, j) == FirstNamed(ts, name, 0)
    {
      if NameIs(ts[j], name) {
        return Some(j);
      }
      j := j + 1;
    }
    return None;
  }

  method PickLoop(names: seq<string>, ts: seq<Json>) returns (chosen: seq<Json>)
    ensures chosen == Picks(names, ts)
  {
    chosen := [];
    var i := 0;
    while i < |names|
      invariant 0 <= i <= |names|
      invariant chosen == Picks(names[..i], ts)
    {
      assert names[..i + 1][..i] == names[..i];
      var k := FindFirstNamed(ts, names[i]);
      if k.Some? {
        chosen := chosen + [ts[k.value]];
      }
      i := i + 1;
    }
    assert names[..|names|] == names;
  }

  method PadLoop(ts: seq<Json>, chosen0: seq<Json>) returns (chosen: seq<Json>)
    ensures chosen == Pad(ts, chosen0)
  {
    chosen := chosen0;
    var i := 0;
    while i < |ts|
      invariant 0 <= i <= |ts|
      invariant chosen == Pad(ts[..i], chosen0)
    {
      assert ts[..i + 1][..i] == ts[..i];
      if ts[i] !in chosen && |chosen| < Target {
        chosen := chosen + [ts[i]];
      }
      i := i + 1;
    }
    assert ts[..|ts|] == ts;
  }

  method ChooseTables(ts: seq<Json>) returns (sel: seq<Json>)
    ensures sel == Select(ts)
  {
    sel := PickLoop(ImportantNames, ts);
    if |sel| < Target {
      sel := PadLoop(ts, sel);
    }
  }

  // ---- process_tb_table and the result map ----

  /** What `process_tb_table` does with one table: it raises (the run stops), no result
      (empty metadata or no KPIs), or the table's result dict. */
  datatype TableRun = Crash | NoResult | Produced(result: Json)

  function MetadataOf(t: Json, env: Env): Option<Json>
    requires t.JObj?
  {
    TableMetadata(Get0(t, "id").value, env.catalog)
  }

  function KpisFor(m: Json, env: Env): seq<Kpi> {
    GenerateKpisWithLlm(m, env.hasClient, env.llm(m), env.loads)
  }

  /** The reads of the table summary printed before generation (lines 62-70) do not raise:
      'table_info' is a dict, 'fields' and 'related_tables' have a length, and a non-empty
      'fields' is a list whose first eight entries are dicts with a string 'name', which
      `', '.join` needs. */
  predicate SummaryReadable(m: Json) {
    var fields := Get(m, "fields", JList([]));
    var related := Get(m, "related_tables", JList([]));
    m.JObj? && Get(m, "table_info", JObj([])).value.JObj?
    && Len(fields.value).Some? && Len(related.value).Some?
    && (Truthy(fields.value) ==> fields.value.JList? && StringNames(Take(fields.value.items, 8)))
  }

  /** `fs[:n]` */
  function Take(fs: seq<Json>, n: nat): (r: seq<Json>)
    ensures |r| <= n && r <= fs
  {
    if |fs| <= n then fs else fs[..n]
  }

  /** Every entry is a dict whose 'name' (default '') is a string. */
  predicate StringNames(fs: seq<Json>)
    decreases |fs|
  {
    |fs| == 0 || (fs[0].JObj? && Get(fs[0], "name", JStr("")).value.JStr? && StringNames(fs[1..]))
  }

  /** `process_tb_table`. */
  function TbTableResult(t: Json, env: Env): TableRun
    requires t.JObj?
  {
    match MetadataOf(t, env)
    case None => Crash
    case Some(m) =>
      if !Truthy(m) then NoResult
      else if !SummaryReadable(m) then Crash
      else
        var kpis := KpisFor(m, env);
        if kpis == [] then NoResult else Produced(TableResult(t, m, kpis))
  }

  /** `process_tb_table` raises iff the metadata fetch raises or the printed summary of
      non-empty metadata cannot be read; it returns None iff the metadata is empty or no
      KPI comes back; otherwise the result dict, which carries the table's name and id,
      its metadata and the non-empty list of generated KPIs. */
  lemma TbTableResultMeaning(t: Json, env: Env)
    requires t.JObj?
    ensures var r := TbTableResult(t, env);
      var m := MetadataOf(t, env);
      (r.Crash? <==> m.None? || (Truthy(m.value) && !SummaryReadable(m.value)))
      && (r.NoResult? <==> m.Some? && (!Truthy(m.value) || (SummaryReadable(m.value) && KpisFor(m.value, env) == [])))
      && (r.Produced? ==> m.Some? && KpisFor(m.value, env) != [] && r.result == TableResult(t, m.value, KpisFor(m.value, env)))
    ensures var r := TbTableResult(t, env);
      r.Produced? ==>
        Index(r.result, "table_name") == Get(t, "name", JStr("Unknown")) && Index(r.result, "table_id") == Get0(t, "id")
        && Index(r.result, "metadata") == MetadataOf(t, env)
        && Index(r.result, "kpis") == Some(KpisJson(KpisFor(MetadataOf(t, env).value, env)))
  {
    var m := MetadataOf(t, env);
    if m.Some? {
      TableResultFields(t, m.value, KpisFor(m.value, env));
    }
  }

  /** A field without a string name among the first eight stops the run. */
  lemma UnnamedSampleFieldRaises(t: Json, env: Env)
    requires t.JObj? && MetadataOf(t, env).Some?
    requires var m := MetadataOf(t, env).value;
      m.JObj? && Lookup(m.members, "fields") == Some(JList([JObj([Member("name", JNull)])]))
    ensures TbTableResult(t, env).Crash?
  {
    var m := MetadataOf(t, env).value;
    var f := JObj([Member("name", JNull)]);
    assert Get(m, "fields", JList([])) == Some(JList([f]));
    assert Get(f, "name", JStr("")) == Some(JNull);
    assert Take([f], 8) == [f];
    assert !SummaryReadable(m);
  }

  /** A stored result carries its table's name and id, the metadata and the KPI list. */
  lemma TableResultFields(t: Json, m: Json, kpis: seq<Kpi>)
    requires t.JObj?
    ensures var res := TableResult(t, m, kpis);
      Index(res, "table_name") == Get(t, "name", JStr("Unknown")) && Index(res, "table_id") == Get0(t, "id")
      && Index(res, "metadata") == Some(m) && Index(res, "kpis") == Some(KpisJson(kpis))
  {
    assert "table_name"[6] != "table_id"[6];
    assert "table_name"[0] != "metadata"[0] && "table_name"[0] != "kpis"[0];
    assert "table_id"[0] != "metadata"[0] && "table_id"[0] != "kpis"[0] && "metadata"[0] != "kpis"[0];
    LookupFour("table_name", "table_id", "metadata", "kpis",
               Get(t, "name", JStr("Unknown")).value, Get0(t, "id").value, m, KpisJson(kpis));
  }

  /** What one listed table gives the loop; a non-dict table makes `table.get` raise. */
  function RunOf(t: Json, env: Env): TableRun {
    if t.JObj? then TbTableResult(t, env) else Crash
  }

  /** One iteration of the result loop, given what the table gave. */
  function AddRun(acc: map<Json, Json>, t: Json, run: TableRun): Option<map<Json, Json>> {
    match run
    case Crash => None
    case NoResult => Some(acc)
    case Produced(res) => if t.JObj? then Some(acc[Get0(t, "name").value := res]) else None
  }

  /** One iteration of the result loop. */
  function AddResult(acc: map<Json, Json>, t: Json, env: Env): Option<map<Json, Json>> {
    AddRun(acc, t, RunOf(t, env))
  }

  /** The result loop over `tables` for any per-table outcome `run`. */
  function ResultsWith(tables: seq<Json>, run: Json -> TableRun): Option<map<Json, Json>>
    decreases |tables|
  {
    if |tables| == 0 then Some(map[])
    else
      match ResultsWith(tables[..|tables| - 1], run)
      case None => None
      case Some(acc) => AddRun(acc, tables[|tables| - 1], run(tables[|tables| - 1]))
  }

  /** `all_results` after the loop over `tables`; None when the run stops. */
  function TbResults(tables: seq<Json>, env: Env): (r: Option<map<Json, Json>>)
  {
    ResultsWith(tables, t => RunOf(t, env))
  }

  /** Every key of the map is the name of a table whose outcome was a result. */
  lemma {:induction false} KeysProducedWith(tables: seq<Json>, run: Json -> TableRun, k: Json)
    requires ResultsWith(tables, run).Some? && k in ResultsWith(tables, run).value
    ensures exists i :: 0 <= i < |tables| && tables[i].JObj? && run(tables[i]).Produced?
                         && Get0(tables[i], "name") == Some(k)
    decreases |tables|
  {
    var pre := tables[..|tables| - 1];
    var t := tables[|tables| - 1];
    assert ResultsWith(pre, run).Some?;
    if t.JObj? && run(t).Produced? && Get0(t, "name") == Some(k) {
      assert tables[|tables| - 1] == t;
    } else {
      KeysProducedWith(pre, run, k);
      var i :| 0 <= i < |pre| && pre[i].JObj? && run(pre[i]).Produced? && Get0(pre[i], "name") == Some(k);
      assert tables[i] == pre[i];
    }
  }

  /** The entry of a table whose outcome was a result is that result, unless a later table
      of the same name also gave one. */
  lemma {:induction false} LastProducedWinsWith(tables: seq<Json>, run: Json -> TableRun, i: nat)
    requires ResultsWith(tables, run).Some? && i < |tables| && tables[i].JObj? && run(tables[i]).Produced?
    requires forall j :: i < j < |tables| && tables[j].JObj? && run(tables[j]).Produced?
                         ==> Get0(tables[j], "name") != Get0(tables[i], "name")
    ensures Get0(tables[i], "name").value in ResultsWith(tables, run).value
    ensures ResultsWith(tables, run).value[Get0(tables[i], "name").value] == run(tables[i]).result
    decreases |tables|
  {
    var pre := tables[..|tables| - 1];
    var last := tables[|tables| - 1];
    assert ResultsWith(pre, run).Some?;
    if i < |tables| - 1 {
      assert pre[i] == tables[i];
      assert forall j :: i < j < |pre| ==> pre[j] == tables[j];
      LastProducedWinsWith(pre, run, i);
      if last.JObj? && run(last).Produced? {
        assert Get0(last, "name") != Get0(tables[i], "name");
      }
    }
  }

  /** Every key of the map is the name of a table that produced a result. */
  lemma TbKeysProduced(tables: seq<Json>, env: Env, k: Json)
    requires TbResults(tables, env).Some? && k in TbResults(tables, env).value
    ensures exists i :: 0 <= i < |tables| && tables[i].JObj? && TbTableResult(tables[i], env).Produced?
                         && Get0(tables[i], "name") == Some(k)
  {
    var run := t => RunOf(t, env);
    KeysProducedWith(tables, run, k);
    var i :| 0 <= i < |tables| && tables[i].JObj? && run(tables[i]).Produced? && Get0(tables[i], "name") == Some(k);
    assert TbTableResult(tables[i], env).Produced?;
  }

  /** A table that produced a result is in the map under its name, with its own result,
      unless a later selected table of the same name produced one. */
  lemma TbLastProducedWins(tables: seq<Json>, env: Env, i: nat)
    requires TbResults(tables, env).Some? && i < |tables| && tables[i].JObj?
    requires TbTableResult(tables[i], env).Produced?
    requires forall j :: i < j < |tables| && tables[j].JObj? && TbTableResult(tables[j], env).Produced?
                         ==> Get0(tables[j], "name") != Get0(tables[i], "name")
    ensures Get0(tables[i], "name").value in TbResults(tables, env).value
    ensures TbResults(tables, env).value[Get0(tables[i], "name").value] == TbTableResult(tables[i], env).result
  {
    var run := t => RunOf(t, env);
    LastProducedWinsWith(tables, run, i);
  }

  method TbResultsLoop(tables: seq<Json>, env: Env) returns (results: Option<map<Json, Json>>)
    ensures results == TbResults(tables, env)
  {
    var all: map<Json, Json> := map[];
    var i := 0;
    while i < |tables|
      invariant 0 <= i <= |tables|
      invariant TbResults(tables[..i], env) == Some(all)
    {
      TbResultsStep(tables, i, env);
      var t := tables[i];
      if !t.JObj? {
        TbResultsNoneStays(tables, i + 1, env);
        return None;
      }
      var run := TbTableResult(t, env);
      if run.Crash? {
        TbResultsNoneStays(tables, i + 1, env);
        return None;
      }
      if run.Produced? {
        all := all[Get0(t, "name").value := run.result];
      }
      i := i + 1;
    }
    assert tables[..|tables|] == tables;
    results := Some(all);
  }

  lemma TbResultsStep(tables: seq<Json>, i: nat, env: Env)
    requires i < |tables|
    ensures TbResults(tables[..i + 1], env) ==
      match TbResults(tables[..i], env) case None => None case Some(acc) => AddResult(acc, tables[i], env)
  {
    assert tables[..i + 1][..i] == tables[..i];
  }

  lemma {:induction false} TbResultsNoneStays(tables: seq<Json>, i: nat, env: Env)
    requires i <= |tables| && TbResults(tables[..i], env).None?
    ensures TbResults(tables, env).None?
    decreases |tables| - i
  {
    if i < |tables| {
      assert tables[..i + 1][..i] == tables[..i];
      TbResultsNoneStays(tables, i + 1, env);
    } else {
      assert tables[..i] == tables;
    }
  }

  /** `main`: stop without authentication or without TB_ tables; otherwise the listing
      loop, which recomputes the selection once per TB_ table, then the result map; the
      file is written iff the map is non-empty.  `results` is None when the run stops
      on a raise. */
  method TbMain(authenticated: bool, tablesReply: Reply, env: Env)
    returns (selected: seq<Json>, results: Option<map<Json, Json>>, saved: bool)
    ensures var tb := GetTbTables(tablesReply);
      if !authenticated || tb == [] then selected == [] && results == Some(map[]) && !saved
      else selected == Select(tb) && results == TbResults(selected, env)
           && saved == (results.Some? && |results.value| > 0)
  {
    selected, results, saved := [], Some(map[]), false;
    if !authenticated {
      return;
    }
    var tb := GetTbTablesLoop(tablesReply);
    if tb == [] {
      return;
    }
    var i := 0;
    while i < |tb|
      invariant 0 <= i <= |tb|
      invariant i > 0 ==> selected == Select(tb)
    {
      selected := ChooseTables(tb);
      i := i + 1;
    }
    results := TbResultsLoop(selected, env);
    saved := results.Some? && |results.value| > 0;
  }
}
