/** The results file the extractors write and the registrars, testers and fixers read:
    table name -> table entry with a 'kpis' list.  A KPI's text values are either absent
    or strings; the scripts read them with `.get` and a default. */
module Results {
  import opened Wrappers
  import opened Text

  datatype KpiEntry = KpiEntry(
    name: Option<string>, description: Option<string>, businessValue: Option<string>, sql: Option<string>)

  /** A table's entry; `kpis` is None when the key is absent. */
  datatype TableEntry = TableEntry(kpis: Option<seq<KpiEntry>>)

  /** The file's tables in `data.items()` order. */
  datatype TableRecord = TableRecord(tableName: string, entry: TableEntry)

  /** `table_data.get('kpis', [])` */
  function KpisOf(e: TableEntry): seq<KpiEntry> {
    match e.kpis case Some(ks) => ks case None => []
  }

  /** `kpi.get(k, dflt)` for a text value. */
  function OrDefault(v: Option<string>, dflt: string): (r: string)
    ensures v.Some? ==> r == v.value
    ensures v.None? ==> r == dflt
  {
    match v case Some(s) => s case None => dflt
  }

  /** One KPI together with the table it was read from. */
  datatype KpiInfo = KpiInfo(tableName: string, kpi: KpiEntry)

  /** Every KPI of the file, table by table and, within a table, in list order. */
  function AllKpis(data: seq<TableRecord>): (r: seq<KpiInfo>)
    ensures |r| == TotalKpis(data)
  {
    if |data| == 0 then []
    else AllKpis(data[..|data| - 1]) + TableKpis(data[|data| - 1])
  }

  /** One more table appends its KPIs. */
  lemma AllKpisStep(data: seq<TableRecord>, i: nat)
    requires i < |data|
    ensures AllKpis(data[..i + 1]) == AllKpis(data[..i]) + TableKpis(data[i])
  {
    assert data[..i + 1][..i] == data[..i];
  }

  function TableKpis(t: TableRecord): (r: seq<KpiInfo>)
    ensures |r| == |KpisOf(t.entry)|
    ensures forall j :: 0 <= j < |r| ==> r[j] == KpiInfo(t.tableName, KpisOf(t.entry)[j])
  {
    seq(|KpisOf(t.entry)|, j requires 0 <= j < |KpisOf(t.entry)| => KpiInfo(t.tableName, KpisOf(t.entry)[j]))
  }

  function TotalKpis(data: seq<TableRecord>): nat {
    if |data| == 0 then 0 else TotalKpis(data[..|data| - 1]) + |KpisOf(data[|data| - 1].entry)|
  }

  /** The collecting loop: for each table, for each of its KPIs, append. */
  method CollectAllKpis(data: seq<TableRecord>) returns (all: seq<KpiInfo>)
    ensures all == AllKpis(data)
  {
    all := [];
    var i := 0;
    while i < |data|
      invariant 0 <= i <= |data|
      invariant all == AllKpis(data[..i])
    {
      AllKpisStep(data, i);
      var ks := KpisOf(data[i].entry);
      var j := 0;
      ghost var before := all;
      while j < |ks|
        invariant 0 <= j <= |ks|
        invariant all == before + TableKpis(data[i])[..j]
      {
        assert TableKpis(data[i])[..j + 1] == TableKpis(data[i])[..j] + [KpiInfo(data[i].tableName, ks[j])];
        all := all + [KpiInfo(data[i].tableName, ks[j])];
        j := j + 1;
      }
      assert TableKpis(data[i])[..j] == TableKpis(data[i]);
      i := i + 1;
    }
    assert data[..|data|] == data;
  }

  /** Every collected KPI comes from its table's list, and every KPI of the file is collected. */
  lemma {:induction false} AllKpisMembership(data: seq<TableRecord>, info: KpiInfo)
    ensures info in AllKpis(data) <==>
      exists t :: t in data && t.tableName == info.tableName && info.kpi in KpisOf(t.entry)
  {
    if |data| > 0 {
      var pre := data[..|data| - 1];
      var last := data[|data| - 1];
      AllKpisMembership(pre, info);
      assert data == pre + [last];
      if info in TableKpis(last) {
        var j :| 0 <= j < |TableKpis(last)| && TableKpis(last)[j] == info;
        assert info.kpi == KpisOf(last.entry)[j];
      }
      if info.tableName == last.tableName && info.kpi in KpisOf(last.entry) {
        var j :| 0 <= j < |KpisOf(last.entry)| && KpisOf(last.entry)[j] == info.kpi;
        assert TableKpis(last)[j] == info;
      }
    }
  }
}
