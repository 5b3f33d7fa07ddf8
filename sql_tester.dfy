/** The archived random SQL tester (archive/To_be_delete/test_tb_market_order_sql.py):
    collecting every KPI query from the results file, classifying the platform's reply to
    one query, and tallying a random sample. */
module SqlTester {
  import opened Wrappers
  import opened Text
  import opened Py
  import opened Results
  import Registrar

  /** One entry of `all_sqls`. */
  datatype SqlItem = SqlItem(tableName: string, kpiName: string, sql: string)

  /** A KPI is collected iff its `sql_query` is present and non-empty. */
  predicate HasSql(info: KpiInfo) { info.kpi.sql.Some? && |info.kpi.sql.value| > 0 }

  function ItemOf(info: KpiInfo): SqlItem
    requires HasSql(info)
  {
    SqlItem(info.tableName, OrDefault(info.kpi.name, "Unknown KPI"), info.kpi.sql.value)
  }

  /** The KPIs with a query, in table-then-list order. */
  function SqlsOf(infos: seq<KpiInfo>): (r: seq<SqlItem>)
    ensures |r| <= |infos|
    decreases |infos|
  {
    if |infos| == 0 then []
    else
      var last := infos[|infos| - 1];
      SqlsOf(infos[..|infos| - 1]) + (if HasSql(last) then [ItemOf(last)] else [])
  }

  /** Exactly the KPIs with a non-empty query are collected, the name defaulting to 'Unknown KPI'. */
  lemma {:induction false} SqlsOfMembership(infos: seq<KpiInfo>, x: SqlItem)
    ensures x in SqlsOf(infos) <==> exists info :: info in infos && HasSql(info) && x == ItemOf(info)
    decreases |infos|
  {
    if |infos| > 0 {
      var init := infos[..|infos| - 1];
      var last := infos[|infos| - 1];
      SqlsOfMembership(init, x);
      assert infos == init + [last];
      if x in SqlsOf(infos) && x !in SqlsOf(init) {
        assert HasSql(last) && x == ItemOf(last);
      }
      if exists info :: info in infos && HasSql(info) && x == ItemOf(info) {
        var info :| info in infos && HasSql(info) && x == ItemOf(info);
        if info != last {
          assert info in init;
        }
      }
    }
  }

  /** Collection keeps the order of the file: a prefix of the KPIs gives a prefix of the queries. */
  lemma {:induction false} SqlsOfPrefix(infos: seq<KpiInfo>, n: nat)
    requires n <= |infos|
    ensures SqlsOf(infos[..n]) <= SqlsOf(infos)
    decreases |infos| - n
  {
    if n < |infos| {
      SqlsOfPrefix(infos, n + 1);
      assert infos[..n + 1][..n] == infos[..n];
    } else {
      assert infos[..n] == infos;
    }
  }

  /** The appending loop of `collect_all_sqls` over the KPIs in file order. */
  method KeepWithSql(infos: seq<KpiInfo>) returns (all: seq<SqlItem>)
    ensures all == SqlsOf(infos)
  {
    all := [];
    var i := 0;
    while i < |infos|
      invariant 0 <= i <= |infos|
      invariant all == SqlsOf(infos[..i])
    {
      assert infos[..i + 1][..i] == infos[..i];
      if HasSql(infos[i]) {
        all := all + [ItemOf(infos[i])];
      }
      i := i + 1;
    }
    assert infos[..|infos|] == infos;
  }

  /** `collect_all_sqls`: for each table, for each KPI, append the ones with a query. */
  method CollectAllSqls(data: seq<TableRecord>) returns (all: seq<SqlItem>)
    ensures all == SqlsOf(AllKpis(data))
  {
    var infos := CollectAllKpis(data);
    all := KeepWithSql(infos);
  }

  /** The result of `test_sql_execution_detailed`. */
  datatype TestStatus =
    | Success(rowCount: nat)
    | Partial(response: Json)
    | Failed(errorCode: int, errorDetails: Option<Json>)
    | Exception

  /** The classification of the reply to POST /api/dataset (None: the request raised). */
  function TestSqlExecutionDetailed(reply: Option<Reply>): (r: TestStatus)
    ensures reply.Some? && reply.value.status != 200 ==> r == Failed(reply.value.status, reply.value.body)
    ensures reply.None? ==> r == Exception
  {
    match reply
    case None => Exception
    case Some(resp) =>
      if resp.status != 200 then Failed(resp.status, resp.body)
      else
        match resp.body
        case None => Exception
        case Some(result) =>
          match HasKey(result, "data")
          case None => Exception
          case Some(false) => Partial(result)
          case Some(true) =>
            match Index(result, "data")
            case None => Exception
            case Some(data) =>
              match HasKey(data, "rows")
              case None => Exception
              case Some(false) => Partial(result)
              case Some(true) =>
                match Index(data, "rows")
                case None => Exception
                case Some(rows) =>
                  match Len(rows)
                  case None => Exception
                  case Some(n) => Success(n)
  }

  /** A 200 dict reply whose `data` is a dict with `rows` is a success carrying the length
      of `rows` (the number of rows when it is a list, zero included); a `rows` without a
      length raises. */
  lemma SuccessCountsRows(result: Json)
    requires result.JObj? && "data" in Keys(result.members)
    requires Lookup(result.members, "data").value.JObj?
    requires "rows" in Keys(Lookup(result.members, "data").value.members)
    ensures var rows := Lookup(Lookup(result.members, "data").value.members, "rows").value;
      TestSqlExecutionDetailed(Some(Reply(200, Some(result))))
        == (if Len(rows).Some? then Success(Len(rows).value) else Exception)
    ensures var rows := Lookup(Lookup(result.members, "data").value.members, "rows").value;
      rows.JList? ==> TestSqlExecutionDetailed(Some(Reply(200, Some(result)))) == Success(|rows.items|)
  {
  }

  /** A 200 dict reply without `data`, or with a dict `data` lacking `rows`, is partial. */
  lemma PartialWithoutRows(result: Json)
    requires result.JObj?
    requires "data" !in Keys(result.members)
      || (Lookup(result.members, "data").value.JObj? && "rows" !in Keys(Lookup(result.members, "data").value.members))
    ensures TestSqlExecutionDetailed(Some(Reply(200, Some(result)))) == Partial(result)
  {
  }

  /** The three counters of the tally. */
  datatype Counts = Counts(success: nat, partial: nat, failure: nat)

  /** The counters after one more result: 'success', 'partial', and every other status
      (failed or exception) as a failure. */
  function Bump(c: Counts, x: TestStatus): Counts {
    if x.Success? then c.(success := c.success + 1)
    else if x.Partial? then c.(partial := c.partial + 1)
    else c.(failure := c.failure + 1)
  }

  /** The tally of a run. */
  function Tally(results: seq<TestStatus>): (r: Counts)
    ensures r.success + r.partial + r.failure == |results|
    decreases |results|
  {
    if |results| == 0 then Counts(0, 0, 0)
    else Bump(Tally(results[..|results| - 1]), results[|results| - 1])
  }

  /** Exceptions count as failures: without successes and partials everything is a failure. */
  lemma {:induction false} TallyFailures(results: seq<TestStatus>)
    requires forall i :: 0 <= i < |results| ==> results[i].Failed? || results[i].Exception?
    ensures Tally(results) == Counts(0, 0, |results|)
    decreases |results|
  {
    if |results| > 0 {
      TallyFailures(results[..|results| - 1]);
    }
  }

  /** Tallying one more result bumps exactly its own counter. */
  lemma TallyAppend(results: seq<TestStatus>, x: TestStatus)
    ensures Tally(results + [x]) == Bump(Tally(results), x)
  {
    assert (results + [x])[..|results|] == results;
  }

  lemma AppendAssoc(a: seq<TestRecord>, b: seq<TestRecord>, x: TestRecord)
    ensures (a + b) + [x] == a + (b + [x])
  {
  }

  /** One stored entry of `self.test_results`. */
  datatype TestRecord = TestRecord(item: SqlItem, result: TestStatus)

  function RecordOf(item: SqlItem, exec: SqlItem -> Option<Reply>): TestRecord {
    TestRecord(item, TestSqlExecutionDetailed(exec(item)))
  }

  /** The records the testing loop appends, one per tested query, in order. */
  function RecordsOf(items: seq<SqlItem>, exec: SqlItem -> Option<Reply>): (r: seq<TestRecord>)
    ensures |r| == |items|
    decreases |items|
  {
    if |items| == 0 then [] else RecordsOf(items[..|items| - 1], exec) + [RecordOf(items[|items| - 1], exec)]
  }

  /** The i-th record is the i-th query with its classification. */
  lemma {:induction false} RecordsOfAt(items: seq<SqlItem>, exec: SqlItem -> Option<Reply>, i: nat)
    requires i < |items|
    ensures RecordsOf(items, exec)[i] == TestRecord(items[i], TestSqlExecutionDetailed(exec(items[i])))
    decreases |items|
  {
    if i < |items| - 1 {
      RecordsOfAt(items[..|items| - 1], exec, i);
    }
  }

  /** The statuses of the records, in order. */
  function StatusesOf(records: seq<TestRecord>): (r: seq<TestStatus>)
    ensures |r| == |records|
    decreases |records|
  {
    if |records| == 0 then [] else StatusesOf(records[..|records| - 1]) + [records[|records| - 1].result]
  }

  /** The i-th status is the i-th record's. */
  lemma {:induction false} StatusesOfAt(records: seq<TestRecord>, i: nat)
    requires i < |records|
    ensures StatusesOf(records)[i] == records[i].result
    decreases |records|
  {
    if i < |records| - 1 {
      StatusesOfAt(records[..|records| - 1], i);
    }
  }

  lemma RecordsStep(items: seq<SqlItem>, exec: SqlItem -> Option<Reply>, i: nat)
    requires i < |items|
    ensures RecordsOf(items[..i + 1], exec) == RecordsOf(items[..i], exec) + [RecordOf(items[i], exec)]
    ensures StatusesOf(RecordsOf(items[..i + 1], exec))
      == StatusesOf(RecordsOf(items[..i], exec)) + [RecordOf(items[i], exec).result]
  {
    assert items[..i + 1][..i] == items[..i];
    var recs := RecordsOf(items[..i + 1], exec);
    assert recs[..|recs| - 1] == RecordsOf(items[..i], exec);
  }

  /** The drawn sample: `random.sample(all, k)` is given as the drawn positions. */
  function Sample(all: seq<SqlItem>, picks: seq<nat>): (r: seq<SqlItem>)
    requires forall j :: 0 <= j < |picks| ==> picks[j] < |all|
    ensures |r| == |picks| && forall x :: x in r ==> x in all
  {
    seq(|picks|, j requires 0 <= j < |picks| => all[picks[j]])
  }

  class SqlTester {
    var testResults: seq<TestRecord>

    constructor ()
      ensures testResults == []
    {
      testResults := [];
    }

    /** `test_random_sqls(limit)`: after authentication and the database lookup, test a
        sample of min(limit, |all|) queries and tally them.  `picks` is the draw. */
    method TestRandomSqls(data: seq<TableRecord>, limit: nat, authenticated: bool, databaseId: Json,
                          picks: seq<nat>, exec: SqlItem -> Option<Reply>)
      returns (tested: nat, success: nat, partial: nat, failure: nat)
      requires Registrar.IsDraw(picks, |SqlsOf(AllKpis(data))|, Registrar.Min(limit, |SqlsOf(AllKpis(data))|))
      modifies this
      ensures var all := SqlsOf(AllKpis(data));
        if !authenticated || !Truthy(databaseId) || |all| == 0 then
          testResults == old(testResults) && tested == 0 && success == 0 && partial == 0 && failure == 0
        else
          var recs := RecordsOf(Sample(all, picks), exec);
          testResults == old(testResults) + recs
          && tested == Registrar.Min(limit, |all|)
          && Counts(success, partial, failure) == Tally(StatusesOf(recs))
      ensures success + partial + failure == tested
    {
      tested, success, partial, failure := 0, 0, 0, 0;
      if !authenticated || !Truthy(databaseId) {
        return;
      }
      var all := CollectAllSqls(data);
      if |all| == 0 {
        return;
      }
      var selected := Sample(all, picks);
      success, partial, failure := TestSelected(selected, exec);
      tested := |selected|;
    }

    /** The counter update of the testing loop for one result. */
    static method Count(success: nat, partial: nat, failure: nat, result: TestStatus)
      returns (success': nat, partial': nat, failure': nat)
      ensures Counts(success', partial', failure') == Bump(Counts(success, partial, failure), result)
    {
      success', partial', failure' := success, partial, failure;
      if result.Success? {
        success' := success + 1;
      } else if result.Partial? {
        partial' := partial + 1;
      } else {
        failure' := failure + 1;
      }
    }

    /** The testing loop of `test_random_sqls` over the drawn sample. */
    method TestSelected(selected: seq<SqlItem>, exec: SqlItem -> Option<Reply>)
      returns (success: nat, partial: nat, failure: nat)
      modifies this
      ensures var recs := RecordsOf(selected, exec);
        testResults == old(testResults) + recs && Counts(success, partial, failure) == Tally(StatusesOf(recs))
    {
      success, partial, failure := 0, 0, 0;
      ghost var start := testResults;
      var i := 0;
      while i < |selected|
        invariant 0 <= i <= |selected|
        invariant testResults == start + RecordsOf(selected[..i], exec)
        invariant Counts(success, partial, failure) == Tally(StatusesOf(RecordsOf(selected[..i], exec)))
      {
        RecordsStep(selected, exec, i);
        TallyAppend(StatusesOf(RecordsOf(selected[..i], exec)), RecordOf(selected[i], exec).result);
        var result := TestSqlExecutionDetailed(exec(selected[i]));
        AppendAssoc(start, RecordsOf(selected[..i], exec), RecordOf(selected[i], exec));
        testResults := testResults + [TestRecord(selected[i], result)];
        success, partial, failure := Count(success, partial, failure, result);
        i := i + 1;
      }
      assert selected[..|selected|] == selected;
    }
  }
}
