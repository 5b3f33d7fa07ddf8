/** The catalog rules of the current extractor (src/kpi_extractor.py): normalising the
    database list, the case-insensitive table search, and the field projection wrapped
    around the LLM call in `generate_kpis_for_table`. */
module Extractor {
  import opened Wrappers
  import opened Text
  import opened Py
  import opened KpiParser
  import Seqs

  /** `get_database_list`: a dict with 'data' gives that value, any other dict a
      one-element list, anything else is kept; a failed request, an unreadable body or a
      value without a length (the `len` in the log line raises) gives []. */
  function DatabaseList(reply: Reply): (r: Json)
    ensures Len(r).Some?
    ensures reply.status != 200 || reply.body.None? ==> r == JList([])
    ensures reply.status == 200 && reply.body.Some? && reply.body.value.JList? ==> r == reply.body.value
    ensures reply.status == 200 && reply.body.Some? && reply.body.value.JObj? ==>
      var ms := reply.body.value.members;
      if "data" in Keys(ms) then
        (if Len(Lookup(ms, "data").value).Some? then r == Lookup(ms, "data").value else r == JList([]))
      else r == JList([reply.body.value])
  {
    if reply.status != 200 || reply.body.None? then JList([])
    else
      var dbs := match reply.body.value
        case JObj(ms) => (match Lookup(ms, "data") case Some(v) => v case None => JList([reply.body.value]))
        case other => other;
      if Len(dbs).Some? then dbs else JList([])
  }

  /** The search condition: some requested name, lower-cased, occurs in the lower-cased table name. */
  predicate NameMatches(tableName: string, names: seq<string>) {
    exists j :: 0 <= j < |names| && Contains(Lower(tableName), Lower(names[j]))
  }

  /** `table.get('name', '')` when it is a string; None when it raises. */
  function TableName(t: Json): Option<string> {
    match Get(t, "name", JStr(""))
    case Some(JStr(n)) => Some(n)
    case _ => None
  }

  /** The search condition on a table, as a predicate on the catalog's elements. */
  function MatchesNames(names: seq<string>): Json -> bool {
    t => TableName(t).Some? && NameMatches(TableName(t).value, names)
  }

  /** The tables kept by the search loop, in order; None when some element is not a dict
      or has a non-string name (the loop raises and the search returns []). */
  function Matching(tables: seq<Json>, names: seq<string>): (r: Option<seq<Json>>)
    ensures r.Some? <==> forall t :: t in tables ==> TableName(t).Some?
  {
    if |tables| == 0 then Some([])
    else
      var pre := tables[..|tables| - 1];
      var t := tables[|tables| - 1];
      assert tables == pre + [t];
      match Matching(pre, names)
      case None => None
      case Some(p) =>
        match TableName(t)
        case None => None
        case Some(n) => Some(if NameMatches(n, names) then p + [t] else p)
  }

  /** What `search_tables_by_name` returns for the /api/table reply. */
  function SearchResult(reply: Reply, names: seq<string>): seq<Json> {
    if reply.status != 200 || reply.body.None? then []
    else match Iter(reply.body.value)
      case None => []
      case Some(tables) => match Matching(tables, names) case None => [] case Some(r) => r
  }

  /** The search loop of `search_tables_by_name`. */
  method SearchTablesByName(reply: Reply, names: seq<string>) returns (matching: seq<Json>)
    ensures matching == SearchResult(reply, names)
  {
    if reply.status != 200 || reply.body.None? {
      return [];
    }
    var all := Iter(reply.body.value);
    if all.None? {
      return [];
    }
    var tables := all.value;
    matching := [];
    var i := 0;
    while i < |tables|
      invariant 0 <= i <= |tables|
      invariant Matching(tables[..i], names) == Some(matching)
    {
      assert tables[..i + 1][..i] == tables[..i];
      var name := TableName(tables[i]);
      if name.None? {
        assert tables[i] in tables;
        return [];
      }
      if NameMatches(name.value, names) {
        matching := matching + [tables[i]];
      }
      i := i + 1;
    }
    assert tables[..|tables|] == tables;
  }

  /** The loop keeps exactly the matching tables, in catalog order (the order-keeping
      filter of the catalog by the search condition), each at most as often as it occurs
      in the catalog. */
  lemma {:induction false} MatchingIsFilter(tables: seq<Json>, names: seq<string>)
    requires Matching(tables, names).Some?
    ensures var r := Matching(tables, names).value;
      multiset(r) <= multiset(tables)
      && (forall t :: t in r <==> t in tables && NameMatches(TableName(t).value, names))
      && r == Seqs.Filter(tables, MatchesNames(names))
  {
    if |tables| > 0 {
      var pre := tables[..|tables| - 1];
      var t := tables[|tables| - 1];
      assert tables == pre + [t];
      MatchingIsFilter(pre, names);
      assert MatchesNames(names)(t) == NameMatches(TableName(t).value, names);
    }
  }

  /** An empty list of search names finds nothing. */
  lemma NoNamesNoTables(reply: Reply)
    ensures SearchResult(reply, []) == []
  {
    if reply.status == 200 && reply.body.Some? && Iter(reply.body.value).Some? {
      var tables := Iter(reply.body.value).value;
      MatchingNoNames(tables);
    }
  }

  lemma {:induction false} MatchingNoNames(tables: seq<Json>)
    ensures Matching(tables, []).Some? ==> Matching(tables, []).value == []
  {
    if |tables| > 0 {
      MatchingNoNames(tables[..|tables| - 1]);
    }
  }

  /** A search result holds exactly the matching tables of the catalog, in catalog order,
      each at most as often as it occurs there. */
  lemma SearchIsFilter(reply: Reply, names: seq<string>, tables: seq<Json>, t: Json)
    requires reply.status == 200 && reply.body == Some(JList(tables))
    requires forall x :: x in tables ==> TableName(x).Some?
    ensures t in SearchResult(reply, names) <==> t in tables && NameMatches(TableName(t).value, names)
    ensures multiset(SearchResult(reply, names)) <= multiset(tables)
    ensures SearchResult(reply, names) == Seqs.Filter(tables, MatchesNames(names))
  {
    MatchingIsFilter(tables, names);
  }

  // ---- field projection ----

  const MaxFields: nat := 20

  datatype ForeignKey = ForeignKey(targetTable: Json, targetField: Json)

  /** One entry of `field_details`. */
  datatype FieldDetail = FieldDetail(
    name: Json, fieldType: Json, description: Json, semanticType: Json, foreignKey: Option<ForeignKey>)

  /** One line of `simplified_fields`: `name (type)`, or the overflow note. */
  datatype PromptLine = FieldLine(name: Json, fieldType: Json) | MoreFields(count: nat)

  function PromptLineText(l: PromptLine): string {
    match l
    case FieldLine(JStr(n), JStr(t)) => n + " (" + t + ")"
    case FieldLine(_, _) => ""
    case MoreFields(n) => "... and " + NatToString(n) + " more fields"
  }

  /** The foreign-key annotation of a field: present when `fk_target_field_id` and
      `target` are both truthy; Some(None) when absent, None when `target.get` raises. */
  function ForeignKeyOf(field: Json): (r: Option<Option<ForeignKey>>)
    requires field.JObj?
    ensures r.Some? && r.value.Some? ==> Truthy(Get0(field, "fk_target_field_id").value)
    ensures var target := Get(field, "target", JObj([])).value;
      Truthy(Get0(field, "fk_target_field_id").value) && Truthy(target) && target.JObj? ==>
        r == Some(Some(ForeignKey(Get(target, "table_id", JStr("Unknown")).value, Get(target, "name", JStr("Unknown")).value)))
    ensures var target := Get(field, "target", JObj([])).value;
      !Truthy(Get0(field, "fk_target_field_id").value) || !Truthy(target) ==> r == Some(None)
  {
    if !Truthy(Get0(field, "fk_target_field_id").value) then Some(None)
    else
      var target := Get(field, "target", JObj([])).value;
      if !Truthy(target) then Some(None)
      else match target
        case JObj(_) =>
          Some(Some(ForeignKey(Get(target, "table_id", JStr("Unknown")).value,
                               Get(target, "name", JStr("Unknown")).value)))
        case _ => None
  }

  /** `f"FK to {target name}"` for a string target name. */
  function Relationship(fk: ForeignKey): string {
    match fk.targetField case JStr(n) => "FK to " + n case _ => "FK to "
  }

  /** The detail of one field, None for an empty name, or an error when the field is not a dict. */
  function Detail(field: Json): Option<Option<FieldDetail>> {
    if !field.JObj? then None
    else
      var name := Get(field, "name", JStr("")).value;
      if !Truthy(name) then Some(None)
      else match ForeignKeyOf(field)
        case None => None
        case Some(fk) =>
          var desc := Get(field, "description", JStr("")).value;
          Some(Some(FieldDetail(name, Get(field, "effective_type", JStr("Unknown")).value,
                                if Truthy(desc) then desc else JStr("No description"),
                                Get(field, "semantic_type", JStr("")).value, fk)))
  }

  datatype Projection = Projection(lines: seq<PromptLine>, details: seq<FieldDetail>)

  /** The field loop over `fields[:20]`; None when it raises. */
  function ProjectSpec(important: seq<Json>): (r: Option<Projection>)
    ensures r.Some? ==> |r.value.details| == |r.value.lines| <= |important|
  {
    if |important| == 0 then Some(Projection([], []))
    else
      var f := important[|important| - 1];
      match ProjectSpec(important[..|important| - 1])
      case None => None
      case Some(p) =>
        match Detail(f)
        case None => None
        case Some(None) => Some(p)
        case Some(Some(d)) => Some(Projection(p.lines + [FieldLine(d.name, d.fieldType)], p.details + [d]))
  }

  /** The field-projection loop of `generate_kpis_for_table`, with the overflow note. */
  method ProjectFields(fields: seq<Json>) returns (r: Option<Projection>)
    ensures r.Some? <==> ProjectSpec(Important(fields)).Some?
    ensures r.Some? ==> r.value.details == ProjectSpec(Important(fields)).value.details
    ensures r.Some? ==>
      r.value.lines == ProjectSpec(Important(fields)).value.lines
      + (if |fields| > MaxFields then [MoreFields(|fields| - MaxFields)] else [])
  {
    var important := Important(fields);
    var lines: seq<PromptLine> := [];
    var details: seq<FieldDetail> := [];
    var i := 0;
    while i < |important|
      invariant 0 <= i <= |important|
      invariant ProjectSpec(important[..i]) == Some(Projection(lines, details))
    {
      assert important[..i + 1][..i] == important[..i];
      var d := Detail(important[i]);
      if d.None? {
        ProjectNoneStays(important, i + 1);
        return None;
      }
      if d.value.Some? {
        lines := lines + [FieldLine(d.value.value.name, d.value.value.fieldType)];
        details := details + [d.value.value];
      }
      i := i + 1;
    }
    assert important[..|important|] == important;
    if |fields| > MaxFields {
      lines := lines + [MoreFields(|fields| - MaxFields)];
    }
    r := Some(Projection(lines, details));
  }

  lemma {:induction false} ProjectNoneStays(xs: seq<Json>, i: nat)
    requires i <= |xs| && ProjectSpec(xs[..i]).None?
    ensures ProjectSpec(xs).None?
    decreases |xs| - i
  {
    if i < |xs| {
      assert xs[..i + 1][..i] == xs[..i];
      ProjectNoneStays(xs, i + 1);
    } else {
      assert xs[..i] == xs;
    }
  }

  /** `fields[:20] if len(fields) > 20 else fields` */
  function Important(fields: seq<Json>): (r: seq<Json>)
    ensures |r| == if |fields| > MaxFields then MaxFields else |fields|
    ensures r <= fields
  {
    if |fields| > MaxFields then fields[..MaxFields] else fields
  }

  /** Only fields with a truthy name get a detail, and each detail keeps that name. */
  lemma {:induction false} DetailsHaveNames(important: seq<Json>)
    requires ProjectSpec(important).Some?
    ensures forall d :: d in ProjectSpec(important).value.details ==> Truthy(d.name)
  {
    if |important| > 0 {
      ProjectDetailsHaveNamesStep(important);
    }
  }

  lemma {:induction false} ProjectDetailsHaveNamesStep(important: seq<Json>)
    requires |important| > 0 && ProjectSpec(important).Some?
    ensures forall d :: d in ProjectSpec(important).value.details ==> Truthy(d.name)
    decreases |important|
  {
    var pre := important[..|important| - 1];
    if |pre| > 0 {
      ProjectDetailsHaveNamesStep(pre);
    }
  }

  /** `len([f for f in fields if f.get('fk_target_field_id')])`, over all fields; None
      when some field is not a dict. */
  function ForeignKeyCount(fields: seq<Json>): (r: Option<nat>)
    ensures r.Some? ==> r.value <= |fields|
    ensures r.Some? <==> forall f :: f in fields ==> f.JObj?
  {
    if |fields| == 0 then Some(0)
    else
      var f := fields[|fields| - 1];
      var pre := fields[..|fields| - 1];
      assert forall x :: x in fields <==> x in pre || x == f;
      match ForeignKeyCount(pre)
      case None => None
      case Some(n) =>
        if !f.JObj? then None
        else Some(n + if Truthy(Get0(f, "fk_target_field_id").value) then 1 else 0)
  }

  /** The count is additive, so fields past the first 20 are counted too. */
  lemma {:induction false} ForeignKeyCountSplit(a: seq<Json>, b: seq<Json>)
    requires ForeignKeyCount(a + b).Some?
    ensures ForeignKeyCount(a).Some? && ForeignKeyCount(b).Some?
    ensures ForeignKeyCount(a + b).value == ForeignKeyCount(a).value + ForeignKeyCount(b).value
    decreases |b|
  {
    assert forall x :: x in a ==> x in a + b;
    assert forall x :: x in b ==> x in a + b;
    if |b| > 0 {
      var pre := b[..|b| - 1];
      assert (a + b)[..|a + b| - 1] == a + pre;
      ForeignKeyCountSplit(a, pre);
    } else {
      assert a + b == a;
    }
  }

  /** What `generate_kpis_for_table` returns. */
  datatype Generated = Generated(
    kpis: seq<Kpi>, details: seq<FieldDetail>, totalFields: nat, fieldsUsed: nat, foreignKeys: nat)

  /** The `fields` value as a list: `fields[:20]` and `len` work on a list, and an empty
      string or dict has no element to visit; None where slicing, or `field.get` on a
      visited key or character, raises. */
  function FieldList(v: Json): (r: Option<seq<Json>>)
    ensures v.JList? ==> r == Some(v.items)
    ensures r.Some? <==> v.JList? || v == JStr("") || v == JObj([])
  {
    match v
    case JList(xs) => Some(xs)
    case JStr(s) => if s == "" then Some([]) else None
    case JObj(ms) => if ms == [] then Some([]) else None
    case _ => None
  }

  /** `', '.join(rt.get('name', 'Unknown') for rt in related)` raises unless every related
      table is a dict whose name is a string. */
  predicate RelatedNamesJoin(related: seq<Json>) {
    forall rt :: rt in related ==> rt.JObj? && Get(rt, "name", JStr("Unknown")).value.JStr?
  }

  /** `generate_kpis_for_table(table_name, metadata)`: `llm` is the LLM's reply text
      (None: the call raised).  None when the code before the guarded call raises. */
  function GenerateForTable(tableName: Json, metadata: Json, llm: Option<string>, loads: string -> Option<Json>)
    : (r: Option<Generated>)
    ensures r.Some? ==> metadata.JObj? && FieldList(Get(metadata, "fields", JList([])).value).Some?
    ensures r.Some? ==>
      var related := Iter(Get(metadata, "related_tables", JList([])).value);
      related.Some? && RelatedNamesJoin(related.value)
    ensures r.Some? ==>
      r == FromFields(tableName, FieldList(Get(metadata, "fields", JList([])).value).value, llm, loads)
    ensures r.Some? ==> Get(metadata, "table_info", JObj([])).value.JObj?
    ensures (metadata.JObj? && FieldList(Get(metadata, "fields", JList([])).value).Some?
             && Iter(Get(metadata, "related_tables", JList([])).value).Some?
             && RelatedNamesJoin(Iter(Get(metadata, "related_tables", JList([])).value).value)
             && Get(metadata, "table_info", JObj([])).value.JObj?) ==>
      r == FromFields(tableName, FieldList(Get(metadata, "fields", JList([])).value).value, llm, loads)
  {
    if !metadata.JObj? then None
    else
      var related := Iter(Get(metadata, "related_tables", JList([])).value);
      var info := Get(metadata, "table_info", JObj([])).value;
      match FieldList(Get(metadata, "fields", JList([])).value)
      case None => None
      case Some(fields) =>
        if related.None? || !RelatedNamesJoin(related.value) || !info.JObj? then None
        else FromFields(tableName, fields, llm, loads)
  }

  /** The field loop, the guarded LLM call and the result dict, over the field list. */
  function FromFields(tableName: Json, fields: seq<Json>, llm: Option<string>, loads: string -> Option<Json>)
    : (r: Option<Generated>)
    ensures r.Some? <==> ProjectSpec(Important(fields)).Some?
    ensures r.Some? && llm.None? ==> r.value == Generated([], [], 0, 0, 0)
    ensures r.Some? && llm.Some? && ForeignKeyCount(fields).None? ==> r.value == Generated([], [], 0, 0, 0)
    ensures r.Some? && llm.Some? && ForeignKeyCount(fields).Some? ==>
      r.value.totalFields == |fields|
      && r.value.fieldsUsed == (if |fields| > MaxFields then MaxFields else |fields|)
      && r.value.kpis == ParseSpec(llm.value, tableName, loads)
      && |r.value.details| <= r.value.fieldsUsed
      && r.value.details == ProjectSpec(Important(fields)).value.details
      && r.value.foreignKeys == ForeignKeyCount(fields).value
  {
    match ProjectSpec(Important(fields))
    case None => None
    case Some(p) =>
      match llm
      case None => Some(Generated([], [], 0, 0, 0))
      case Some(text) =>
        match ForeignKeyCount(fields)
        case None => Some(Generated([], [], 0, 0, 0))
        case Some(fk) =>
          Some(Generated(ParseSpec(text, tableName, loads), p.details, |fields|, |Important(fields)|, fk))
  }

  /** Metadata whose 'fields' is an empty dict goes through: no details, no counts, and the
      parser's KPIs. */
  lemma EmptyFieldsDictGenerates(tableName: Json, text: string, loads: string -> Option<Json>)
    ensures GenerateForTable(tableName, JObj([Member("fields", JObj([]))]), Some(text), loads)
      == Some(Generated(ParseSpec(text, tableName, loads), [], 0, 0, 0))
  {
    var md := JObj([Member("fields", JObj([]))]);
    assert Get(md, "fields", JList([])).value == JObj([]);
    assert Get(md, "related_tables", JList([])).value == JList([]);
    assert Get(md, "table_info", JObj([])).value == JObj([]);
  }

  /** A field past the first twenty with a truthy `fk_target_field_id` is counted: the
      count exceeds the count over the first twenty fields. */
  lemma LateForeignKeyCounted(fields: seq<Json>, i: nat)
    requires ForeignKeyCount(fields).Some?
    requires MaxFields <= i < |fields| && Truthy(Get0(fields[i], "fk_target_field_id").value)
    ensures ForeignKeyCount(Important(fields)).Some?
    ensures ForeignKeyCount(fields).value > ForeignKeyCount(Important(fields)).value
  {
    assert fields == fields[..MaxFields] + fields[MaxFields..];
    ForeignKeyCountSplit(fields[..MaxFields], fields[MaxFields..]);
    ForeignKeyCountPositive(fields[MaxFields..], i - MaxFields);
  }

  /** A list holding a field with a truthy `fk_target_field_id` has a positive count. */
  lemma {:induction false} ForeignKeyCountPositive(fields: seq<Json>, j: nat)
    requires ForeignKeyCount(fields).Some? && j < |fields|
    requires Truthy(Get0(fields[j], "fk_target_field_id").value)
    ensures ForeignKeyCount(fields).value > 0
    decreases |fields|
  {
    var pre := fields[..|fields| - 1];
    if j < |fields| - 1 {
      ForeignKeyCountSplit(pre, [fields[|fields| - 1]]);
      assert pre + [fields[|fields| - 1]] == fields;
      ForeignKeyCountPositive(pre, j);
    }
  }

  /** A field past the first twenty that is not a dict makes the fk comprehension raise
      inside the guarded block, so the whole result collapses to zeros. */
  lemma LateBadFieldZeroes(tableName: Json, metadata: Json, text: string, loads: string -> Option<Json>, i: nat)
    requires GenerateForTable(tableName, metadata, Some(text), loads).Some?
    requires var fields := FieldList(Get(metadata, "fields", JList([])).value).value; i < |fields| && !fields[i].JObj?
    ensures GenerateForTable(tableName, metadata, Some(text), loads).value == Generated([], [], 0, 0, 0)
  {
    var fields := FieldList(Get(metadata, "fields", JList([])).value).value;
    assert fields[i] in fields;
  }
}
