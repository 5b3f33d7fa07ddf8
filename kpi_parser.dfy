/** How an LLM reply becomes KPI records (`parse_kpis_from_response`, the same code in
    the current extractor and in the archived one): cut the text from the first `[` to
    the last `]`, parse it as JSON, keep the objects of the array and fill each missing
    key with a fixed default. */
module KpiParser {
  import opened Wrappers
  import opened Text
  import opened Py

  /** One normalised KPI; every value except the SQL is copied from the reply as is. */
  datatype Kpi = Kpi(
    kpiName: Json,
    description: Json,
    businessValue: Json,
    sqlQuery: string,
    outputFormat: Json,
    tableName: Json)

  /** The KPI as the dict the parser builds, keys in the order it writes them. */
  function KpiJson(k: Kpi): (r: Json)
    ensures r.JObj? && Keys(r.members) == ["kpi_name", "description", "business_value", "sql_query", "output_format", "table_name"]
  {
    JObj([Member("kpi_name", k.kpiName), Member("description", k.description),
          Member("business_value", k.businessValue), Member("sql_query", JStr(k.sqlQuery)),
          Member("output_format", k.outputFormat), Member("table_name", k.tableName)])
  }

  function KpisJson(ks: seq<Kpi>): (r: Json)
    ensures r.JList? && |r.items| == |ks|
  {
    JList(seq(|ks|, i requires 0 <= i < |ks| => KpiJson(ks[i])))
  }

  const DefaultName: string := "Unnamed KPI"
  const DefaultDescription: string := "No description provided"
  const DefaultBusinessValue: string := "Business value not specified"
  const DefaultSql: string := "SELECT 1"
  const DefaultOutputFormat: string := "Not specified"

  /** `kpi.get(k, dflt)` on the members of one array element. */
  function Field(ms: seq<Member>, k: string, dflt: string): (r: Json)
    ensures k in Keys(ms) ==> Some(r) == Lookup(ms, k)
    ensures k !in Keys(ms) ==> r == JStr(dflt)
  {
    match Lookup(ms, k) case Some(v) => v case None => JStr(dflt)
  }

  /** One object of the array as a KPI.  None when its `sql_query` is not a string:
      `.strip()` then raises and the whole parse falls into its `except`. */
  function Normalise(ms: seq<Member>, tableName: Json): (r: Option<Kpi>)
    ensures r.Some? <==> Field(ms, "sql_query", DefaultSql).JStr?
    ensures r.Some? ==>
      r.value.tableName == tableName
      && r.value.kpiName == Field(ms, "kpi_name", DefaultName)
      && r.value.description == Field(ms, "description", DefaultDescription)
      && r.value.businessValue == Field(ms, "business_value", DefaultBusinessValue)
      && JStr(r.value.sqlQuery) == Field(ms, "sql_query", DefaultSql)
      && r.value.outputFormat == Field(ms, "output_format", DefaultOutputFormat)
  {
    match Field(ms, "sql_query", DefaultSql)
    case JStr(q) =>
      Some(Kpi(Field(ms, "kpi_name", DefaultName), Field(ms, "description", DefaultDescription),
               Field(ms, "business_value", DefaultBusinessValue), q,
               Field(ms, "output_format", DefaultOutputFormat), tableName))
    case _ => None
  }

  /** A KPI whose trimmed SQL is non-empty and does not start with SELECT: only a warning is printed. */
  predicate SqlWarning(k: Kpi) {
    var q := Strip(k.sqlQuery); |q| > 0 && !StartsWith(q, "SELECT")
  }

  /** The members of the array's object elements, in order. */
  function DictElements(xs: seq<Json>): (r: seq<seq<Member>>)
    ensures |r| <= |xs|
    ensures forall m :: m in r ==> JObj(m) in xs
  {
    if |xs| == 0 then []
    else
      var last := xs[|xs| - 1];
      DictElements(xs[..|xs| - 1]) + (if last.JObj? then [last.members] else [])
  }

  /** Every object of the array has a string `sql_query` (or none, so the default). */
  predicate AllSqlStrings(xs: seq<Json>) {
    forall x :: x in xs && x.JObj? ==> Field(x.members, "sql_query", DefaultSql).JStr?
  }

  /** The loop over the parsed array; None when some object's SQL is not a string. */
  function NormaliseItems(xs: seq<Json>, tableName: Json): (r: Option<seq<Kpi>>)
    ensures r.Some? <==> AllSqlStrings(xs)
    ensures r.Some? ==> |r.value| <= |xs| && forall k :: k in r.value ==> k.tableName == tableName
  {
    if |xs| == 0 then Some([])
    else
      var last := xs[|xs| - 1];
      assert forall x :: x in xs <==> x in xs[..|xs| - 1] || x == last;
      match NormaliseItems(xs[..|xs| - 1], tableName)
      case None => None
      case Some(p) =>
        if last.JObj? then
          match Normalise(last.members, tableName)
          case None => None
          case Some(k) => Some(p + [k])
        else Some(p)
  }

  /** The output is the normalised objects of the array, in array order. */
  lemma {:induction false} NormaliseItemsInOrder(xs: seq<Json>, tableName: Json)
    requires AllSqlStrings(xs)
    ensures var r := NormaliseItems(xs, tableName).value;
      |r| == |DictElements(xs)|
      && forall i :: 0 <= i < |r| ==> Normalise(DictElements(xs)[i], tableName) == Some(r[i])
  {
    if |xs| > 0 {
      var pre := xs[..|xs| - 1];
      assert forall x :: x in pre ==> x in xs;
      NormaliseItemsInOrder(pre, tableName);
    }
  }

  /** The text handed to `json.loads`: `s[s.find('['):s.rfind(']') + 1]`, or None when
      either bracket is missing (the parser then returns []). */
  function JsonSlice(s: string): (r: Option<string>)
    ensures r.None? <==> !Contains(s, "[") || !Contains(s, "]")
    ensures r.Some? && Find(s, "[").value <= RFind(s, "]").value ==>
      r.value == s[Find(s, "[").value..RFind(s, "]").value + 1]
      && r.value[0] == '[' && r.value[|r.value| - 1] == ']'
    ensures r.Some? && Find(s, "[").value > RFind(s, "]").value ==> r.value == ""
  {
    match (Find(s, "["), RFind(s, "]"))
    case (Some(a), Some(b)) =>
      assert MatchAt(s, "[", a) && MatchAt(s, "]", b);
      Some(if a <= b then s[a..b + 1] else "")
    case _ => None
  }

  /** What `parse_kpis_from_response` returns; every failure path gives []. */
  function ParseSpec(s: string, tableName: Json, loads: string -> Option<Json>): seq<Kpi> {
    match JsonSlice(s)
    case None => []
    case Some(text) =>
      match loads(text)
      case None => []
      case Some(v) =>
        match Iter(v)
        case None => []
        case Some(xs) => match NormaliseItems(xs, tableName) case None => [] case Some(ks) => ks
  }

  /** The loop of `parse_kpis_from_response`, proved to compute ParseSpec. */
  method ParseKpisFromResponse(s: string, tableName: Json, loads: string -> Option<Json>)
    returns (kpis: seq<Kpi>)
    ensures kpis == ParseSpec(s, tableName, loads)
  {
    var slice := JsonSlice(s);
    if slice.None? {
      return [];
    }
    var parsed := loads(slice.value);
    if parsed.None? {
      return [];
    }
    var elems := Iter(parsed.value);
    if elems.None? {
      return [];
    }
    kpis := ValidateItems(elems.value, tableName);
  }

  /** The validating loop over the parsed array; [] as soon as one object's SQL is not a string. */
  method ValidateItems(xs: seq<Json>, tableName: Json) returns (kpis: seq<Kpi>)
    ensures kpis == match NormaliseItems(xs, tableName) case None => [] case Some(ks) => ks
  {
    var validated: seq<Kpi> := [];
    var i := 0;
    while i < |xs|
      invariant 0 <= i <= |xs|
      invariant NormaliseItems(xs[..i], tableName) == Some(validated)
    {
      NormaliseStep(xs, i, tableName);
      if xs[i].JObj? {
        var k := Normalise(xs[i].members, tableName);
        if k.None? {
          NormaliseNoneStays(xs, i + 1, tableName);
          return [];
        }
        validated := validated + [k.value];
      }
      i := i + 1;
    }
    assert xs[..|xs|] == xs;
    kpis := validated;
  }

  /** One more element of the parsed array. */
  lemma NormaliseStep(xs: seq<Json>, i: nat, tableName: Json)
    requires i < |xs|
    ensures NormaliseItems(xs[..i + 1], tableName) ==
      match NormaliseItems(xs[..i], tableName)
      case None => None
      case Some(p) =>
        if xs[i].JObj? then
          match Normalise(xs[i].members, tableName)
          case None => None
          case Some(k) => Some(p + [k])
        else Some(p)
  {
    assert xs[..i + 1][..i] == xs[..i];
  }

  /** Once an object's SQL is not a string, the whole array fails. */
  lemma {:induction false} NormaliseNoneStays(xs: seq<Json>, i: nat, tableName: Json)
    requires i <= |xs| && NormaliseItems(xs[..i], tableName).None?
    ensures NormaliseItems(xs, tableName).None?
    decreases |xs| - i
  {
    if i < |xs| {
      NormaliseStep(xs, i, tableName);
      NormaliseNoneStays(xs, i + 1, tableName);
    } else {
      assert xs[..i] == xs;
    }
  }

  /** No `[` or no `]` in the reply: the result is the empty list. */
  lemma NoArrayGivesEmpty(s: string, tableName: Json, loads: string -> Option<Json>)
    requires !Contains(s, "[") || !Contains(s, "]")
    ensures ParseSpec(s, tableName, loads) == []
  {
  }

  /** A slice that does not parse gives the empty list. */
  lemma ParseFailureGivesEmpty(s: string, tableName: Json, loads: string -> Option<Json>)
    requires JsonSlice(s).Some? && loads(JsonSlice(s).value).None?
    ensures ParseSpec(s, tableName, loads) == []
  {
  }

  /** From a parsed array, the output is the normalised objects in array order. */
  lemma ParseOfArray(s: string, tableName: Json, loads: string -> Option<Json>, xs: seq<Json>)
    requires JsonSlice(s).Some? && loads(JsonSlice(s).value) == Some(JList(xs))
    requires AllSqlStrings(xs)
    ensures var r := ParseSpec(s, tableName, loads);
      |r| == |DictElements(xs)| <= |xs|
      && forall i :: 0 <= i < |r| ==> Normalise(DictElements(xs)[i], tableName) == Some(r[i])
  {
    NormaliseItemsInOrder(xs, tableName);
  }

  /** An object whose SQL is not a string empties the whole result. */
  lemma NonStringSqlEmpties(s: string, tableName: Json, loads: string -> Option<Json>, xs: seq<Json>, i: nat)
    requires JsonSlice(s).Some? && loads(JsonSlice(s).value) == Some(JList(xs))
    requires i < |xs| && xs[i].JObj? && !Field(xs[i].members, "sql_query", DefaultSql).JStr?
    ensures ParseSpec(s, tableName, loads) == []
  {
    assert xs[i] in xs;
  }

  /** Every KPI the parser returns carries the caller's table name. */
  lemma TableNameOverridden(s: string, tableName: Json, loads: string -> Option<Json>)
    ensures forall k :: k in ParseSpec(s, tableName, loads) ==> k.tableName == tableName
  {
  }

  /** An object whose SQL only draws the warning is still a KPI of the output. */
  lemma WarningKeepsKpi(xs: seq<Json>, tableName: Json, i: nat)
    requires AllSqlStrings(xs) && i < |DictElements(xs)|
    requires Normalise(DictElements(xs)[i], tableName).Some?
    requires SqlWarning(Normalise(DictElements(xs)[i], tableName).value)
    ensures Normalise(DictElements(xs)[i], tableName).value in NormaliseItems(xs, tableName).value
  {
    NormaliseItemsInOrder(xs, tableName);
    assert NormaliseItems(xs, tableName).value[i] == Normalise(DictElements(xs)[i], tableName).value;
  }
}
