/** The resumable phase run (archive/To_be_delete/process_phase_tables.py): the 25 phase-1
    and phase-2 tables are generated one by one and merged into the loaded results map.
    A table already in the map is skipped; a new entry is stored only when the generation
    result is a dict carrying 'kpis'. */
module PhaseTables {
  import opened Wrappers
  import opened Text
  import opened Py
  import opened KpiParser
  import opened ArchiveExtractor

  const Phase1: seq<string> := [
    "tb_rfq", "tb_quotation", "tb_market_product", "tb_purchase_order", "tb_oem_market_product",
    "tb_payment_root", "tb_partner", "tb_user_info", "tb_market_category", "tb_statistics_partner"]

  const Phase2: seq<string> := [
    "tb_market_seller", "tb_oem_market_order", "tb_subscribe_partner", "tb_sales_factory",
    "tb_type_service", "tb_payment_method", "tb_market_cart", "tb_user_delivery",
    "tb_partner_equipment", "tb_statistics_user", "tb_payment_tax_invoice", "tb_oem_market_payment",
    "tb_market_order_address", "tb_rfq_file", "tb_partner_product"]

  /** The work list: phase 1, then phase 2. */
  const AllPhaseTables: seq<string> := Phase1 + Phase2

  lemma PhaseListShape()
    ensures |Phase1| == 10 && |Phase2| == 15 && |AllPhaseTables| == 25
    ensures AllPhaseTables[..10] == Phase1 && AllPhaseTables[10..] == Phase2
  {
  }

  /** What one run sees: the `/api/table` reply of each name's search, the catalog, and
      the generation result per table name and metadata (None: it raises). */
  datatype PhaseEnv = PhaseEnv(tables: string -> Reply, catalog: Catalog, generate: (string, Json) -> Option<Json>)

  /** The `table_info` part of a stored entry. */
  function EntryInfo(name: string, basic: Json, result: Json, related: nat): (r: Json)
    requires basic.JObj? && result.JObj?
    ensures Index(r, "name") == Some(JStr(name))
    ensures Index(r, "description") == Get(basic, "description", JStr("Phase table: " + name))
  {
    var desc := Get(basic, "description", JStr("Phase table: " + name)).value;
    var ms := [Member("name", JStr(name)), Member("description", desc),
               Member("total_fields", Get(result, "total_fields", JInt(0)).value),
               Member("fields_used", Get(result, "fields_used", JInt(0)).value),
               Member("foreign_keys", Get(result, "foreign_keys", JInt(0)).value),
               Member("related_tables", JInt(related))];
    assert Lookup(ms[1..], "description") == Some(desc);
    JObj(ms)
  }

  /** The entry stored for a table (lines 119-130); None when building it raises: the
      result is not a dict, or the metadata's related tables have no length.  The entry
      names the requested table and takes its description from the search hit given. */
  function NewEntry(name: string, basic: Json, metadata: Json, result: Json): (r: Option<Json>)
    requires basic.JObj? && metadata.JObj?
    ensures r.Some? <==> result.JObj? && "kpis" in Keys(result.members)
                         && Len(Get(metadata, "related_tables", JList([])).value).Some?
    ensures r.Some? ==> r.value.JObj? && Keys(r.value.members) == ["table_info", "field_details", "kpis"]
    ensures r.Some? ==> Index(r.value, "kpis") == Index(result, "kpis")
    ensures r.Some? ==> var info := Index(r.value, "table_info");
      info.Some? && Index(info.value, "name") == Some(JStr(name))
      && Index(info.value, "description") == Get(basic, "description", JStr("Phase table: " + name))
  {
    if !result.JObj? || "kpis" !in Keys(result.members) then None
    else match Len(Get(metadata, "related_tables", JList([])).value)
      case None => None
      case Some(n) =>
        var ms := [Member("table_info", EntryInfo(name, basic, result, n)),
                   Member("field_details", Get(result, "field_details", JList([])).value),
                   Member("kpis", Index(result, "kpis").value)];
        EntryMembers(ms[0].value, ms[1].value, ms[2].value);
        Some(JObj(ms))
  }

  /** The three members of a stored entry, found under their own keys. */
  lemma EntryMembers(info: Json, fields: Json, kpis: Json)
    ensures var ms := [Member("table_info", info), Member("field_details", fields), Member("kpis", kpis)];
      Keys(ms) == ["table_info", "field_details", "kpis"]
      && Lookup(ms, "table_info") == Some(info) && Lookup(ms, "kpis") == Some(kpis)
  {
    assert "table_info"[0] != "field_details"[0] && "table_info"[0] != "kpis"[0] && "field_details"[0] != "kpis"[0];
    LookupThree("table_info", "field_details", "kpis", info, fields, kpis);
    var ms := [Member("table_info", info), Member("field_details", fields), Member("kpis", kpis)];
    assert Keys(ms)[0] == "table_info" && Keys(ms)[1] == "field_details" && Keys(ms)[2] == "kpis";
  }

  /** What happens to one table of the work list. */
  datatype Outcome = Skipped | Added(entry: Json) | Failed

  /** Metadata, generation and entry for the first search hit `basic`. */
  function FromHit(name: string, basic: Json, env: PhaseEnv): (r: Outcome)
    requires basic.JObj?
    ensures !r.Skipped?
    ensures r.Added? ==> var m := TableMetadata(Get0(basic, "id").value, env.catalog);
      m.Some? && Truthy(m.value) && env.generate(name, m.value).Some?
      && NewEntry(name, basic, m.value, env.generate(name, m.value).value).Some?
      && r == Added(NewEntry(name, basic, m.value, env.generate(name, m.value).value).value)
    ensures var m := TableMetadata(Get0(basic, "id").value, env.catalog);
      (m.Some? && Truthy(m.value) && env.generate(name, m.value).Some?
       && NewEntry(name, basic, m.value, env.generate(name, m.value).value).Some?) ==> r.Added?
  {
    match TableMetadata(Get0(basic, "id").value, env.catalog)
    case None => Failed
    case Some(m) =>
      if !Truthy(m) then Failed
      else match env.generate(name, m)
        case None => Failed
        case Some(result) =>
          if !Truthy(result) || HasKey(result, "kpis") != Some(true) then Failed
          else match NewEntry(name, basic, m, result)
            case None => Failed
            case Some(e) => Added(e)
  }

  /** One iteration of the loop (lines 82-146): skip a present table; otherwise search,
      fetch the metadata of the first hit, generate, and add when the result is a truthy
      value that has 'kpis'.  Every raise inside the `try` counts as a failure. */
  function TableOutcome(data: map<string, Json>, name: string, env: PhaseEnv): (r: Outcome)
    ensures r.Skipped? <==> name in data
    ensures r.Added? ==> var hits := SearchResult(env.tables(name), [name]);
      |hits| > 0 && hits[0].JObj? && r == FromHit(name, hits[0], env)
    ensures var hits := SearchResult(env.tables(name), [name]);
      name !in data && |hits| > 0 && hits[0].JObj? ==> r == FromHit(name, hits[0], env)
  {
    if name in data then Skipped
    else
      var hits := SearchResult(env.tables(name), [name]);
      if |hits| == 0 then Failed
      else
        assert hits[0] in hits;
        FromHit(name, hits[0], env)
  }

  /** A generation result whose 'kpis' is the empty list is stored all the same: the
      test of line 117 asks for the key, not for KPIs. */
  lemma EmptyKpisStored(st: PhaseState, name: string, env: PhaseEnv)
    requires name !in st.data
    requires |SearchResult(env.tables(name), [name])| > 0 && SearchResult(env.tables(name), [name])[0].JObj?
    requires var m := TableMetadata(Get0(SearchResult(env.tables(name), [name])[0], "id").value, env.catalog);
      m.Some? && Truthy(m.value) && env.generate(name, m.value) == Some(JObj([Member("kpis", JList([]))]))
      && Len(Get(m.value, "related_tables", JList([])).value).Some?
    ensures var r := Apply(st, name, env);
      name in r.data && Index(r.data[name], "kpis") == Some(JList([]))
      && r.processed == st.processed + 1 && r.skipped == st.skipped && r.errors == st.errors
  {
    var basic := SearchResult(env.tables(name), [name])[0];
    assert basic in SearchResult(env.tables(name), [name]);
    var m := TableMetadata(Get0(basic, "id").value, env.catalog).value;
    var result := JObj([Member("kpis", JList([]))]);
    assert Keys(result.members) == ["kpis"];
    assert NewEntry(name, basic, m, result).Some?;
  }

  /** The merged map and the three counters. */
  datatype PhaseState = PhaseState(data: map<string, Json>, processed: nat, skipped: nat, errors: nat)

  function Apply(st: PhaseState, name: string, env: PhaseEnv): PhaseState {
    match TableOutcome(st.data, name, env)
    case Skipped => st.(skipped := st.skipped + 1)
    case Added(e) => st.(data := st.data[name := e], processed := st.processed + 1)
    case Failed => st.(errors := st.errors + 1)
  }

  /** The state after working through `names` from `st`. */
  function Merge(names: seq<string>, st: PhaseState, env: PhaseEnv): PhaseState
    decreases |names|
  {
    if |names| == 0 then st else Apply(Merge(names[..|names| - 1], st, env), names[|names| - 1], env)
  }

  /** Each table moves exactly one counter. */
  lemma {:induction false} MergeCounts(names: seq<string>, st: PhaseState, env: PhaseEnv)
    ensures var r := Merge(names, st, env);
      r.processed + r.skipped + r.errors == st.processed + st.skipped + st.errors + |names|
    decreases |names|
  {
    if |names| > 0 {
      MergeCounts(names[..|names| - 1], st, env);
    }
  }

  /** Existing entries are never overwritten, and every new key is a name of the work
      list whose generation gave a stored entry with 'kpis'. */
  lemma {:induction false} MergeOnlyAdds(names: seq<string>, st: PhaseState, env: PhaseEnv)
    ensures var r := Merge(names, st, env);
      (forall k :: k in st.data ==> k in r.data && r.data[k] == st.data[k])
      && (forall k :: k in r.data && k !in st.data ==> k in names && r.data[k].JObj? && "kpis" in Keys(r.data[k].members))
    decreases |names|
  {
    if |names| > 0 {
      MergeOnlyAdds(names[..|names| - 1], st, env);
    }
  }

  /** When a generation result never carries 'kpis', the run stores nothing and
      processes nothing. */
  lemma {:induction false} NoKpisKeyAddsNothing(names: seq<string>, st: PhaseState, env: PhaseEnv)
    requires forall n: string, m: Json :: env.generate(n, m).None? || !env.generate(n, m).value.JObj?
                                         || "kpis" !in Keys(env.generate(n, m).value.members)
    ensures Merge(names, st, env).data == st.data && Merge(names, st, env).processed == st.processed
    decreases |names|
  {
    if |names| > 0 {
      MergeNoKpisStep(Merge(names[..|names| - 1], st, env), names[|names| - 1], env);
      NoKpisKeyAddsNothing(names[..|names| - 1], st, env);
    }
  }

  lemma MergeNoKpisStep(st: PhaseState, name: string, env: PhaseEnv)
    requires forall n: string, m: Json :: env.generate(n, m).None? || !env.generate(n, m).value.JObj?
                                         || "kpis" !in Keys(env.generate(n, m).value.members)
    ensures !TableOutcome(st.data, name, env).Added?
  {
  }

  /** The archived `generate_kpis_for_table`, which the script imports: building the
      prompt outside its `try` raises on a field without 'name'/'type' or a related table
      without 'name'/'id'; otherwise it returns the parsed KPI list ([] when the call fails). */
  function ArchiveGenerate(name: string, metadata: Json, hasClient: bool, llm: Option<string>,
                           loads: string -> Option<Json>): (r: Option<Json>)
    ensures r.Some? ==> r.value.JList?
  {
    if !metadata.JObj? || !AllHaveKeys(Get(metadata, "fields", JList([])).value, "name", "type")
       || !AllHaveKeys(Get(metadata, "related_tables", JList([])).value, "name", "id") then None
    else if !hasClient || llm.None? then Some(KpisJson([]))
    else Some(KpisJson(ParseSpec(llm.value, JStr(name), loads)))
  }

  /** With the imported generator, whose result is a list, `'kpis' in result` never holds:
      the run as written adds no table. */
  lemma ArchiveRunAddsNothing(names: seq<string>, st: PhaseState, env: PhaseEnv, hasClient: bool,
                              llm: string -> Option<string>, loads: string -> Option<Json>)
    requires forall n: string, m: Json :: env.generate(n, m) == ArchiveGenerate(n, m, hasClient, llm(n), loads)
    ensures Merge(names, st, env).data == st.data && Merge(names, st, env).processed == st.processed
  {
    NoKpisKeyAddsNothing(names, st, env);
  }

  /** The loop of `process_phase_tables`: the map is updated in place and exactly one
      counter moves per table. */
  method MergeLoop(names: seq<string>, existing0: map<string, Json>, env: PhaseEnv) returns (st: PhaseState)
    ensures st == Merge(names, PhaseState(existing0, 0, 0, 0), env)
  {
    ghost var st0 := PhaseState(existing0, 0, 0, 0);
    var existing := existing0;
    var processed, skipped, errors := 0, 0, 0;
    var i := 0;
    while i < |names|
      invariant 0 <= i <= |names|
      invariant Merge(names[..i], st0, env) == PhaseState(existing, processed, skipped, errors)
    {
      assert names[..i + 1][..i] == names[..i];
      var name := names[i];
      var outcome := TableOutcome(existing, name, env);
      match outcome {
        case Skipped =>
          skipped := skipped + 1;
        case Added(e) =>
          existing := existing[name := e];
          processed := processed + 1;
        case Failed =>
          errors := errors + 1;
      }
      i := i + 1;
    }
    assert names[..|names|] == names;
    st := PhaseState(existing, processed, skipped, errors);
  }

  /** `process_phase_tables`: None when authentication fails; a missing results file
      (None) starts from the empty map. */
  method ProcessPhaseTables(authenticated: bool, loaded: Option<map<string, Json>>, env: PhaseEnv)
    returns (r: Option<PhaseState>)
    ensures !authenticated ==> r.None?
    ensures authenticated ==>
      r == Some(Merge(AllPhaseTables, PhaseState(if loaded.Some? then loaded.value else map[], 0, 0, 0), env))
  {
    if !authenticated {
      return None;
    }
    var existing: map<string, Json> := if loaded.Some? then loaded.value else map[];
    var st := MergeLoop(AllPhaseTables, existing, env);
    r := Some(st);
  }
}
