/** The archived extractor (archive/To_be_delete/metabase_kpi_extractor.py): its
    configuration check, database-list normalisation, table search, metadata
    optimisation with related tables, the LLM wrapper and the per-table result map.
    Unlike the current extractor it lets everything but request errors propagate. */
module ArchiveExtractor {
  import opened Wrappers
  import opened Text
  import opened Py
  import opened KpiParser
  import Extractor
  import Seqs

  // ---- configuration ----

  const ConfigNames: seq<string> := ["METABASE_URL", "METABASE_USERNAME", "METABASE_PASSWORD"]

  /** An environment value counts as set when it is a non-empty string (`os.getenv` gives None when unset). */
  predicate IsSet(v: Option<string>) { v.Some? && |v.value| > 0 }

  /** The condition on a variable name that its value is unset. */
  function Unset(url: Option<string>, user: Option<string>, password: Option<string>): string -> bool {
    n => (n == "METABASE_URL" && !IsSet(url)) || (n == "METABASE_USERNAME" && !IsSet(user))
      || (n == "METABASE_PASSWORD" && !IsSet(password))
  }

  /** The names of the unset variables, in the fixed order URL, username, password. */
  function MissingVars(url: Option<string>, user: Option<string>, password: Option<string>): (r: seq<string>)
    ensures |r| <= 3
    ensures "METABASE_URL" in r <==> !IsSet(url)
    ensures "METABASE_USERNAME" in r <==> !IsSet(user)
    ensures "METABASE_PASSWORD" in r <==> !IsSet(password)
    ensures forall i, j :: 0 <= i < j < |r| ==> r[i] != r[j]
  {
    (if IsSet(url) then [] else ["METABASE_URL"])
    + (if IsSet(user) then [] else ["METABASE_USERNAME"])
    + (if IsSet(password) then [] else ["METABASE_PASSWORD"])
  }

  /** The unset names keep the order of the configuration list, for every input. */
  lemma MissingVarsInOrder(url: Option<string>, user: Option<string>, password: Option<string>)
    ensures MissingVars(url, user, password) == Seqs.Filter(ConfigNames, Unset(url, user, password))
  {
  }

  /** `_validate_config`: Some(message) when it raises ValueError. */
  /** The start of the configuration error's message. */
  const ConfigPrefix := "Missing required environment variables: "

  function ValidateConfig(url: Option<string>, user: Option<string>, password: Option<string>): (r: Option<string>)
    ensures r.Some? <==> !IsSet(url) || !IsSet(user) || !IsSet(password)
    ensures r.Some? ==> r.value == ConfigPrefix + Join(MissingVars(url, user, password), ", ")
  {
    var missing := MissingVars(url, user, password);
    if |missing| > 0 then Some(ConfigPrefix + Join(missing, ", ")) else None
  }

  /** Only the password unset: the message names just that variable. */
  lemma ConfigMessagePasswordOnly()
    ensures ValidateConfig(Some("u"), Some("n"), Some(""))
      == Some(ConfigPrefix + "METABASE_PASSWORD")
  {
    var missing := MissingVars(Some("u"), Some("n"), Some(""));
    assert missing == ["METABASE_PASSWORD"];
    assert Join(missing, ", ") == "METABASE_PASSWORD";
  }

  /** URL and password unset: both are named, in the fixed order. */
  lemma ConfigMessageTwoMissing()
    ensures ValidateConfig(None, Some("n"), None)
      == Some(ConfigPrefix + "METABASE_URL, METABASE_PASSWORD")
  {
    var url, pw := "METABASE_URL", "METABASE_PASSWORD";
    assert MissingVars(None, Some("n"), None) == [url, pw];
    JoinTwo(url, pw, ", ");
    assert url + ", " + pw == "METABASE_URL, METABASE_PASSWORD";
  }

  lemma JoinTwo(a: string, b: string, sep: string)
    ensures Join([a, b], sep) == a + sep + b
  {
    assert [a, b][1..] == [b];
  }

  // ---- database list ----

  /** `raise_for_status()` raises for client and server errors. */
  predicate RaisesForStatus(r: Reply) { 400 <= r.status < 600 }

  /** The archived `get_database_list`: request errors (a failing status, an unreadable
      body) give []; a value without a length makes the `len` raise, which is not caught (None). */
  function DatabaseList(reply: Reply): (r: Option<Json>)
    ensures RaisesForStatus(reply) || reply.body.None? ==> r == Some(JList([]))
    ensures r.Some? ==> Len(r.value).Some?
    ensures !RaisesForStatus(reply) && reply.body.Some? && reply.body.value.JList? ==> r == reply.body
    ensures !RaisesForStatus(reply) && reply.body.Some? && reply.body.value.JObj? ==>
      var ms := reply.body.value.members;
      if "data" in Keys(ms) then
        (if Len(Lookup(ms, "data").value).Some? then r == Lookup(ms, "data") else r.None?)
      else r == Some(JList([reply.body.value]))
  {
    if RaisesForStatus(reply) || reply.body.None? then Some(JList([]))
    else
      var dbs := match reply.body.value
        case JObj(ms) => (match Lookup(ms, "data") case Some(v) => v case None => JList([reply.body.value]))
        case other => other;
      if Len(dbs).Some? then Some(dbs) else None
  }

  // ---- table search ----

  /** The log line of a match reads `table['name']` and `table['id']`. */
  predicate HasNameAndId(t: Json) { t.JObj? && "name" in Keys(t.members) && "id" in Keys(t.members) }

  /** What the archived `search_tables_by_name` returns: the same filter as the current
      one, but a matching table without 'name' or 'id' raises KeyError and empties the result. */
  function SearchResult(reply: Reply, names: seq<string>): (r: seq<Json>)
    ensures forall t :: t in r ==> HasNameAndId(t)
  {
    if reply.status != 200 || reply.body.None? then []
    else match Iter(reply.body.value)
      case None => []
      case Some(tables) => SearchOf(tables, names)
  }

  /** The search over the listed tables. */
  function SearchOf(tables: seq<Json>, names: seq<string>): (r: seq<Json>)
    ensures forall t :: t in r ==> HasNameAndId(t)
  {
    match Extractor.Matching(tables, names)
    case None => []
    case Some(m) => if forall t :: t in m ==> HasNameAndId(t) then m else []
  }

  /** The search loop, with the KeyError of the log line. */
  method SearchTablesByName(reply: Reply, names: seq<string>) returns (matching: seq<Json>)
    ensures matching == SearchResult(reply, names)
  {
    if reply.status != 200 || reply.body.None? {
      return [];
    }
    var all := Iter(reply.body.value);
    if all.None? {
      return [];
    }
    matching := SearchLoop(all.value, names);
  }

  method SearchLoop(tables: seq<Json>, names: seq<string>) returns (matching: seq<Json>)
    ensures matching == SearchOf(tables, names)
  {
    matching := [];
    var i := 0;
    while i < |tables|
      invariant 0 <= i <= |tables|
      invariant Extractor.Matching(tables[..i], names) == Some(matching)
      invariant forall t :: t in matching ==> HasNameAndId(t)
    {
      assert tables[..i + 1][..i] == tables[..i];
      var name := Extractor.TableName(tables[i]);
      if name.None? {
        assert tables[i] in tables;
        return [];
      }
      if Extractor.NameMatches(name.value, names) {
        if !HasNameAndId(tables[i]) {
          KeyErrorEmpties(tables, names, i);
          return [];
        }
        matching := matching + [tables[i]];
      }
      i := i + 1;
    }
    assert tables[..|tables|] == tables;
  }

  /** A matching table without 'name' or 'id' at position i: the final result is []. */
  lemma {:induction false} KeyErrorEmpties(tables: seq<Json>, names: seq<string>, i: nat)
    requires i < |tables| && Extractor.Matching(tables[..i + 1], names).Some?
    requires Extractor.NameMatches(Extractor.TableName(tables[i]).value, names) && !HasNameAndId(tables[i])
    ensures match Extractor.Matching(tables, names)
      case None => true
      case Some(m) => exists t :: t in m && !HasNameAndId(t)
  {
    Extractor.MatchingIsFilter(tables[..i + 1], names);
    assert tables[i] in tables[..i + 1];
    if Extractor.Matching(tables, names).Some? {
      Extractor.MatchingIsFilter(tables, names);
      assert tables[i] in tables;
    }
  }

  /** The archived search keeps the matching tables, in catalog order, when they all
      carry 'name' and 'id'. */
  lemma SearchKeepsFilter(reply: Reply, names: seq<string>, tables: seq<Json>, t: Json)
    requires reply.status == 200 && reply.body == Some(JList(tables))
    requires forall x :: x in tables ==> HasNameAndId(x) && Extractor.TableName(x).Some?
    ensures t in SearchResult(reply, names) <==> t in tables && Extractor.NameMatches(Extractor.TableName(t).value, names)
    ensures SearchResult(reply, names) == Seqs.Filter(tables, Extractor.MatchesNames(names))
  {
    Extractor.MatchingIsFilter(tables, names);
  }

  // ---- table metadata ----

  /** The catalog's replies for a table id: `/api/table/{id}` and `/api/table/{id}/query_metadata`. */
  datatype Catalog = Catalog(table: Json -> Reply, fields: Json -> Reply)

  /** The optimised copy of one field; the type is `effective_type` when that key is
      present, otherwise `database_type`.  None when the field is not a dict. */
  function OptimizeField(f: Json): (r: Option<Json>)
    ensures r.Some? <==> f.JObj?
    ensures r.Some? ==>
      r.value.JObj?
      && Keys(r.value.members) == ["name", "type", "semantic_type", "description", "position"]
      && Lookup(r.value.members, "type") ==
           Some(if "effective_type" in Keys(f.members) then Lookup(f.members, "effective_type").value
                else Get0(f, "database_type").value)
  {
    if !f.JObj? then None
    else Some(JObj([Member("name", Get0(f, "name").value),
                    Member("type", Get(f, "effective_type", Get0(f, "database_type").value).value),
                    Member("semantic_type", Get0(f, "semantic_type").value),
                    Member("description", Get0(f, "description").value),
                    Member("position", Get0(f, "position").value)]))
  }

  /** The field loop: one optimised entry per field, in order; None when one raises. */
  function OptimizedFields(fs: seq<Json>): (r: Option<seq<Json>>)
    ensures r.Some? ==> |r.value| == |fs|
  {
    if |fs| == 0 then Some([])
    else
      match OptimizedFields(fs[..|fs| - 1])
      case None => None
      case Some(p) =>
        match OptimizeField(fs[|fs| - 1]) case None => None case Some(o) => Some(p + [o])
  }

  /** The field loop fails exactly when some field is not a dict. */
  lemma {:induction false} OptimizedFieldsSomeIff(fs: seq<Json>)
    ensures OptimizedFields(fs).Some? <==> forall f :: f in fs ==> f.JObj?
  {
    if |fs| > 0 {
      var pre := fs[..|fs| - 1];
      assert fs == pre + [fs[|fs| - 1]];
      OptimizedFieldsSomeIff(pre);
    }
  }

  /** The i-th optimised entry is the optimisation of the i-th field. */
  lemma {:induction false} OptimizedFieldsAt(fs: seq<Json>, i: nat)
    requires OptimizedFields(fs).Some? && i < |fs|
    ensures OptimizeField(fs[i]) == Some(OptimizedFields(fs).value[i])
  {
    if i < |fs| - 1 {
      OptimizedFieldsAt(fs[..|fs| - 1], i);
    }
  }

  /** The four table properties kept for a table, no 'id' among them. */
  function TableInfo(t: Json): (r: Json)
    requires t.JObj?
    ensures r.JObj? && Keys(r.members) == ["name", "description", "schema", "entity_type"]
  {
    JObj([Member("name", Get0(t, "name").value), Member("description", Get0(t, "description").value),
          Member("schema", Get0(t, "schema").value), Member("entity_type", Get0(t, "entity_type").value)])
  }

  /** The related-table fields block: only run on a 200 reply, and it raises (None) when
      that reply is not a dict with an iterable list of dict fields. */
  function RelatedFieldsOk(fr: Reply): bool {
    fr.status != 200
    || (fr.body.Some? && fr.body.value.JObj?
        && match Iter(Get(fr.body.value, "fields", JList([])).value)
           case None => false
           case Some(fs) => OptimizedFields(fs).Some?)
  }

  /** The entry appended for one foreign key with a truthy destination id; None when the
      entry is skipped (non-200 reply, or an error the per-key `except` swallows). */
  function RelatedEntry(id: Json, c: Catalog): (r: Option<Json>)
    ensures r.Some? ==> c.table(id).status == 200
    ensures r.Some? ==> r.value.JObj? && "id" !in Keys(r.value.members)
  {
    var tr := c.table(id);
    if tr.status != 200 || tr.body.None? || !tr.body.value.JObj? || !RelatedFieldsOk(c.fields(id)) then None
    else Some(TableInfo(tr.body.value))
  }

  /** The related-table loop over `table_data["fks"]`; None when a key is not a dict. */
  function RelatedTables(fks: seq<Json>, c: Catalog): (r: Option<seq<Json>>)
    ensures r.Some? ==> |r.value| <= |fks|
    ensures r.Some? ==> forall e :: e in r.value ==> e.JObj? && "id" !in Keys(e.members)
  {
    if |fks| == 0 then Some([])
    else
      match RelatedTables(fks[..|fks| - 1], c)
      case None => None
      case Some(p) => RelatedStep(p, fks[|fks| - 1], c)
  }

  /** One pass of the related-table loop: None when the key is not a dict; the entry is
      appended when the destination id is truthy and the entry is not skipped. */
  function RelatedStep(p: seq<Json>, fk: Json, c: Catalog): (r: Option<seq<Json>>)
    requires forall e :: e in p ==> e.JObj? && "id" !in Keys(e.members)
    ensures r.Some? ==> |r.value| <= |p| + 1
    ensures r.Some? ==> forall e :: e in r.value ==> e.JObj? && "id" !in Keys(e.members)
    ensures r.Some? ==> fk.JObj?
  {
    if !fk.JObj? then None
    else
      var id := Get0(fk, "destination_table_id").value;
      if !Truthy(id) then Some(p)
      else match RelatedEntry(id, c) case None => Some(p) case Some(e) => Some(p + [e])
  }

  /** Every related entry is the entry built from some foreign key whose destination table
      answered 200. */
  lemma {:induction false} RelatedOnlyFrom200(fks: seq<Json>, c: Catalog)
    requires RelatedTables(fks, c).Some?
    ensures forall e :: e in RelatedTables(fks, c).value ==>
      exists fk :: fk in fks && fk.JObj? && c.table(Get0(fk, "destination_table_id").value).status == 200
                   && RelatedEntry(Get0(fk, "destination_table_id").value, c) == Some(e)
  {
    if |fks| > 0 {
      var pre := fks[..|fks| - 1];
      RelatedOnlyFrom200(pre, c);
      assert forall fk :: fk in pre ==> fk in fks;
      assert fks[|fks| - 1] in fks;
    }
  }

  /** The metadata dict `get_table_metadata` builds, from its parts. */
  function MetadataJson(info: Json, fields: seq<Json>, related: seq<Json>): Json {
    JObj([Member("table_info", info), Member("fields", JList(fields)), Member("related_tables", JList(related))])
  }

  /** What `get_table_metadata(id)` returns: {} on a request error, None when another
      error escapes. */
  function TableMetadata(id: Json, c: Catalog): (r: Option<Json>)
    ensures r.Some? ==> r.value.JObj?
    ensures RaisesForStatus(c.table(id)) ==> r == Some(JObj([]))
  {
    var tr := c.table(id);
    var fr := c.fields(id);
    if RaisesForStatus(tr) || tr.body.None? || RaisesForStatus(fr) || fr.body.None? then Some(JObj([]))
    else
      var td := tr.body.value;
      var fd := fr.body.value;
      if !td.JObj? || !fd.JObj? then None
      else match Iter(Get(fd, "fields", JList([])).value)
        case None => None
        case Some(fs) =>
          match OptimizedFields(fs)
          case None => None
          case Some(ofs) =>
            var related := if "fks" in Keys(td.members) then
                             match Iter(Index(td, "fks").value)
                             case None => None
                             case Some(fks) => RelatedTables(fks, c)
                           else Some([]);
            match related
            case None => None
            case Some(rel) => Some(MetadataJson(TableInfo(td), ofs, rel))
  }

  /** The loops of `get_table_metadata`: field optimisation, then related-table collection. */
  method GetTableMetadata(id: Json, c: Catalog) returns (m: Option<Json>)
    ensures m == TableMetadata(id, c)
  {
    var tr := c.table(id);
    var fr := c.fields(id);
    if RaisesForStatus(tr) || tr.body.None? || RaisesForStatus(fr) || fr.body.None? {
      return Some(JObj([]));
    }
    var td := tr.body.value;
    var fd := fr.body.value;
    if !td.JObj? || !fd.JObj? {
      return None;
    }
    var fieldIter := Iter(Get(fd, "fields", JList([])).value);
    if fieldIter.None? {
      return None;
    }
    var optimized := OptimizeFields(fieldIter.value);
    if optimized.None? {
      return None;
    }
    var related: seq<Json> := [];
    if "fks" in Keys(td.members) {
      var fkIter := Iter(Index(td, "fks").value);
      if fkIter.None? {
        return None;
      }
      var rel := CollectRelated(fkIter.value, c);
      if rel.None? {
        return None;
      }
      related := rel.value;
    }
    m := Some(MetadataJson(TableInfo(td), optimized.value, related));
  }

  /** The field-optimisation loop of `get_table_metadata`. */
  method OptimizeFields(fs: seq<Json>) returns (r: Option<seq<Json>>)
    ensures r == OptimizedFields(fs)
  {
    var optimized: seq<Json> := [];
    var i := 0;
    while i < |fs|
      invariant 0 <= i <= |fs|
      invariant OptimizedFields(fs[..i]) == Some(optimized)
    {
      var o := OptimizeField(fs[i]);
      OptimizedStep(fs, i);
      if o.None? {
        OptimizedNoneStays(fs, i + 1);
        return None;
      }
      optimized := optimized + [o.value];
      i := i + 1;
    }
    assert fs[..|fs|] == fs;
    r := Some(optimized);
  }

  lemma OptimizedStep(fs: seq<Json>, i: nat)
    requires i < |fs|
    ensures OptimizedFields(fs[..i + 1]) ==
      match OptimizedFields(fs[..i])
      case None => None
      case Some(p) => (match OptimizeField(fs[i]) case None => None case Some(o) => Some(p + [o]))
  {
    assert fs[..i + 1][..i] == fs[..i];
  }

  lemma {:induction false} OptimizedNoneStays(fs: seq<Json>, i: nat)
    requires i <= |fs| && OptimizedFields(fs[..i]).None?
    ensures OptimizedFields(fs).None?
    decreases |fs| - i
  {
    if i < |fs| {
      assert fs[..i + 1][..i] == fs[..i];
      OptimizedNoneStays(fs, i + 1);
    } else {
      assert fs[..i] == fs;
    }
  }

  /** The related-table loop of `get_table_metadata`. */
  method CollectRelated(fks: seq<Json>, c: Catalog) returns (r: Option<seq<Json>>)
    ensures r == RelatedTables(fks, c)
  {
    var related: seq<Json> := [];
    var j := 0;
    while j < |fks|
      invariant 0 <= j <= |fks|
      invariant RelatedTables(fks[..j], c) == Some(related)
    {
      assert fks[..j + 1][..j] == fks[..j];
      var next := RelatedAt(related, fks[j], c);
      if next.None? {
        RelatedNoneStays(fks, j + 1, c);
        return None;
      }
      related := next.value;
      j := j + 1;
    }
    assert fks[..|fks|] == fks;
    r := Some(related);
  }

  /** The body of the related-table loop of `get_table_metadata`. */
  method RelatedAt(related: seq<Json>, fk: Json, c: Catalog) returns (next: Option<seq<Json>>)
    requires forall e :: e in related ==> e.JObj? && "id" !in Keys(e.members)
    ensures next == RelatedStep(related, fk, c)
  {
    if !fk.JObj? {
      return None;
    }
    next := Some(related);
    var rid := Get0(fk, "destination_table_id").value;
    if Truthy(rid) {
      var e := RelatedEntry(rid, c);
      if e.Some? {
        next := Some(related + [e.value]);
      }
    }
  }

  lemma {:induction false} RelatedNoneStays(fks: seq<Json>, i: nat, c: Catalog)
    requires i <= |fks| && RelatedTables(fks[..i], c).None?
    ensures RelatedTables(fks, c).None?
    decreases |fks| - i
  {
    if i < |fks| {
      assert fks[..i + 1][..i] == fks[..i];
      RelatedNoneStays(fks, i + 1, c);
    } else {
      assert fks[..i] == fks;
    }
  }

  /** The optimised fields are the fields in order, each typed by the effective-type rule. */
  lemma FieldTypeRule(fs: seq<Json>, i: nat)
    requires OptimizedFields(fs).Some? && i < |fs|
    ensures fs[i].JObj?
    ensures OptimizeField(fs[i]) == Some(OptimizedFields(fs).value[i])
    ensures Lookup(OptimizedFields(fs).value[i].members, "type") ==
      Some(if "effective_type" in Keys(fs[i].members) then Lookup(fs[i].members, "effective_type").value
           else Get0(fs[i], "database_type").value)
  {
    OptimizedFieldsAt(fs, i);
  }

  // ---- KPI generation ----

  /** A list of dicts that all carry the given keys (what the prompt's comprehensions index). */
  predicate AllHaveKeys(v: Json, k1: string, k2: string) {
    match Iter(v)
    case None => false
    case Some(xs) => forall x :: x in xs ==> x.JObj? && k1 in Keys(x.members) && k2 in Keys(x.members)
  }

  /** `generate_kpis_with_llm(metadata)`: [] without a client, and [] whenever building the
      prompt raises (a field without 'name'/'type', a related table without 'name'/'id'),
      or the LLM call raises (`llm` is None). */
  function GenerateKpisWithLlm(metadata: Json, hasClient: bool, llm: Option<string>, loads: string -> Option<Json>)
    : (r: seq<Kpi>)
    ensures !hasClient || llm.None? ==> r == []
    ensures hasClient && llm.Some? ==>
      if metadata.JObj? && Get(metadata, "table_info", JObj([])).value.JObj?
         && AllHaveKeys(Get(metadata, "fields", JList([])).value, "name", "type")
         && AllHaveKeys(Get(metadata, "related_tables", JList([])).value, "name", "id")
      then r == ParseSpec(llm.value, Get(Get(metadata, "table_info", JObj([])).value, "name", JStr("Unknown")).value, loads)
      else r == []
  {
    if !hasClient || !metadata.JObj? then []
    else
      var info := Get(metadata, "table_info", JObj([])).value;
      if !info.JObj? then []
      else
        var tableName := Get(info, "name", JStr("Unknown")).value;
        if !AllHaveKeys(Get(metadata, "fields", JList([])).value, "name", "type")
           || !AllHaveKeys(Get(metadata, "related_tables", JList([])).value, "name", "id") then []
        else match llm case None => [] case Some(text) => ParseSpec(text, tableName, loads)
  }

  /** Metadata with at least one related table never yields a KPI: the prompt reads
      `rt['id']`, which the related entries do not carry. */
  lemma {:induction false} RelatedTablesEmptyKpis(id: Json, c: Catalog, hasClient: bool, llm: Option<string>,
                                                  loads: string -> Option<Json>)
    requires TableMetadata(id, c).Some?
    requires var m := TableMetadata(id, c).value;
      "related_tables" in Keys(m.members) && Lookup(m.members, "related_tables").value != JList([])
    ensures GenerateKpisWithLlm(TableMetadata(id, c).value, hasClient, llm, loads) == []
  {
    var tr := c.table(id);
    var fr := c.fields(id);
    var m := TableMetadata(id, c).value;
    if !(RaisesForStatus(tr) || tr.body.None? || RaisesForStatus(fr) || fr.body.None?) {
      var td := tr.body.value;
      var fks := Iter(Index(td, "fks").value).value;
      var rel := RelatedTables(fks, c).value;
      assert m == MetadataJson(TableInfo(td), OptimizedFields(Iter(Get(fr.body.value, "fields", JList([])).value).value).value, rel);
      assert Get(m, "related_tables", JList([])).value == JList(rel);
      assert rel[0] in rel;
    }
  }

  // ---- per-table result map ----

  /** One entry of `all_results`. */
  function TableResult(t: Json, metadata: Json, kpis: seq<Kpi>): Json
    requires t.JObj?
  {
    JObj([Member("table_name", Get(t, "name", JStr("Unknown")).value), Member("table_id", Get0(t, "id").value),
          Member("metadata", metadata), Member("kpis", KpisJson(kpis))])
  }

  /** The environment of one run: the catalog, the LLM (its reply per metadata) and the parser. */
  datatype Env = Env(catalog: Catalog, hasClient: bool, llm: Json -> Option<string>, loads: string -> Option<Json>)

  /** The result map after the loop over `tables`; None when a metadata fetch raises. */
  function ResultsSpec(tables: seq<Json>, env: Env): (r: Option<map<Json, Json>>)
    ensures r.Some? ==> forall t :: t in tables ==> t.JObj?
  {
    if |tables| == 0 then Some(map[])
    else
      var t := tables[|tables| - 1];
      var pre := tables[..|tables| - 1];
      assert forall x :: x in pre ==> x in tables;
      match ResultsSpec(pre, env)
      case None => None
      case Some(acc) => ResultsStep(acc, t, env)
  }

  /** One pass of the loop over the matching tables; None when the table is not a dict or
      its metadata fetch raises. */
  function ResultsStep(acc: map<Json, Json>, t: Json, env: Env): (r: Option<map<Json, Json>>)
    ensures r.Some? ==> t.JObj?
  {
    if !t.JObj? then None
    else
      match TableMetadata(Get0(t, "id").value, env.catalog)
      case None => None
      case Some(m) =>
        if !Truthy(m) then Some(acc)
        else
          var kpis := GenerateKpisWithLlm(m, env.hasClient, env.llm(m), env.loads);
          Some(acc[Get(t, "name", JStr("Unknown")).value := TableResult(t, m, kpis)])
  }

  /** The table's metadata when it is truthy (the loop goes on to the LLM), None otherwise. */
  function UsableMetadata(t: Json, env: Env): (r: Option<Json>)
    ensures r.Some? ==> t.JObj?
  {
    if !t.JObj? then None
    else match TableMetadata(Get0(t, "id").value, env.catalog)
      case Some(m) => if Truthy(m) then Some(m) else None
      case None => None
  }

  /** The entry a table contributes, given usable metadata. */
  function EntryOf(t: Json, m: Json, env: Env): Json
    requires t.JObj?
  {
    TableResult(t, m, GenerateKpisWithLlm(m, env.hasClient, env.llm(m), env.loads))
  }

  function NameKey(t: Json): Json
    requires t.JObj?
  {
    Get(t, "name", JStr("Unknown")).value
  }

  /** A table with empty metadata adds no key; otherwise the entry of the LAST table with
      a given name is the one kept, so a later duplicate overwrites an earlier one. */
  lemma {:induction false} LastDuplicateWins(tables: seq<Json>, env: Env, i: nat)
    requires ResultsSpec(tables, env).Some? && i < |tables|
    requires UsableMetadata(tables[i], env).Some?
    requires forall j :: i < j < |tables| && UsableMetadata(tables[j], env).Some? ==> NameKey(tables[j]) != NameKey(tables[i])
    ensures NameKey(tables[i]) in ResultsSpec(tables, env).value
    ensures ResultsSpec(tables, env).value[NameKey(tables[i])] == EntryOf(tables[i], UsableMetadata(tables[i], env).value, env)
    decreases |tables|
  {
    var pre := tables[..|tables| - 1];
    if i < |tables| - 1 {
      assert pre[i] == tables[i];
      assert forall j :: i < j < |pre| ==> pre[j] == tables[j];
      LastDuplicateWins(pre, env, i);
    }
  }

  /** A key is present only for a table whose metadata was usable. */
  lemma {:induction false} KeysNeedMetadata(tables: seq<Json>, env: Env, k: Json)
    requires ResultsSpec(tables, env).Some? && k in ResultsSpec(tables, env).value
    ensures exists i :: 0 <= i < |tables| && UsableMetadata(tables[i], env).Some? && NameKey(tables[i]) == k
    decreases |tables|
  {
    var pre := tables[..|tables| - 1];
    var t := tables[|tables| - 1];
    if UsableMetadata(t, env).Some? && NameKey(t) == k {
      assert tables[|tables| - 1] == t;
    } else {
      KeysNeedMetadata(pre, env, k);
      var i :| 0 <= i < |pre| && UsableMetadata(pre[i], env).Some? && NameKey(pre[i]) == k;
      assert tables[i] == pre[i];
    }
  }

  /** `process_table_list`: {} when authentication fails or nothing matches. */
  function ProcessTableListSpec(authenticated: bool, tablesReply: Reply, names: seq<string>, env: Env)
    : Option<map<Json, Json>>
  {
    if !authenticated then Some(map[])
    else
      var matching := SearchResult(tablesReply, names);
      if |matching| == 0 then Some(map[]) else ResultsSpec(matching, env)
  }

  /** The loop of `process_table_list` filling `all_results`. */
  method ProcessTableList(authenticated: bool, tablesReply: Reply, names: seq<string>, env: Env)
    returns (results: Option<map<Json, Json>>)
    ensures results == ProcessTableListSpec(authenticated, tablesReply, names, env)
  {
    if !authenticated {
      return Some(map[]);
    }
    var matching := SearchTablesByName(tablesReply, names);
    if |matching| == 0 {
      return Some(map[]);
    }
    results := ProcessTables(matching, env);
  }

  /** The loop over the matching tables. */
  method ProcessTables(matching: seq<Json>, env: Env) returns (results: Option<map<Json, Json>>)
    ensures results == ResultsSpec(matching, env)
  {
    var all: map<Json, Json> := map[];
    var i := 0;
    while i < |matching|
      invariant 0 <= i <= |matching|
      invariant ResultsSpec(matching[..i], env) == Some(all)
    {
      assert matching[..i + 1][..i] == matching[..i];
      var next := ProcessTable(all, matching[i], env);
      if next.None? {
        ResultsNoneStays(matching, i + 1, env);
        return None;
      }
      all := next.value;
      i := i + 1;
    }
    assert matching[..|matching|] == matching;
    results := Some(all);
  }

  /** The body of the loop of `process_table_list`: fetch the metadata and, when it is
      truthy, ask the LLM and record the table's entry. */
  method ProcessTable(all: map<Json, Json>, t: Json, env: Env) returns (next: Option<map<Json, Json>>)
    ensures next == ResultsStep(all, t, env)
  {
    if !t.JObj? {
      return None;
    }
    var m := GetTableMetadata(Get0(t, "id").value, env.catalog);
    if m.None? {
      return None;
    }
    next := Some(all);
    if Truthy(m.value) {
      var kpis := GenerateKpisWithLlm(m.value, env.hasClient, env.llm(m.value), env.loads);
      next := Some(all[Get(t, "name", JStr("Unknown")).value := TableResult(t, m.value, kpis)]);
    }
  }

  lemma {:induction false} ResultsNoneStays(tables: seq<Json>, i: nat, env: Env)
    requires i <= |tables| && ResultsSpec(tables[..i], env).None?
    ensures ResultsSpec(tables, env).None?
    decreases |tables| - i
  {
    if i < |tables| {
      assert tables[..i + 1][..i] == tables[..i];
      ResultsNoneStays(tables, i + 1, env);
    } else {
      assert tables[..i] == tables;
    }
  }
}
