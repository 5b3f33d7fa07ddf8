/** The archived quick registrar (archive/To_be_delete/register_kpis_to_metabase.py): every
    KPI of the results file becomes a question in the "jae's quick analysis" collection,
    with no SQL check.  Database and collection lookup and the description text are the
    ones of the main registrar. */
module QuickRegistrar {
  import opened Wrappers
  import opened Text
  import opened Py
  import opened Results
  import opened Registrar

  const QuickCollection: string := "jae's quick analysis"

  /** The quick collection is the first listed collection named exactly "jae's quick analysis";
      no create request is sent then. */
  lemma QuickCollectionFound(cs: seq<Json>, createReply: Reply, k: nat)
    requires k < |cs| && cs[k].JObj? && Get0(cs[k], "name").value == JStr(QuickCollection)
    requires NoMatchBefore(cs, QuickCollection, k)
    ensures GetOrCreateCollection(Reply(200, Some(JList(cs))), QuickCollection, createReply)
      == CollectionOutcome(Get0(cs[k], "id").value, false)
  {
    CollectionFirstMatch(cs, QuickCollection, createReply, k);
  }

  /** The collection is created only when no listed collection carries the name. */
  lemma QuickCollectionCreated(cs: seq<Json>, createReply: Reply)
    ensures GetOrCreateCollection(Reply(200, Some(JList(cs))), QuickCollection, createReply).createSent
      <==> NoMatchBefore(cs, QuickCollection, |cs|)
  {
    CollectionCreateOnlyWithoutMatch(cs, QuickCollection, createReply);
  }

  /** The question `create_question` posts: name defaulting to 'Unknown KPI', SQL to ''. */
  function QuickQuestion(info: KpiInfo): (q: Question)
    ensures q.name == OrDefault(info.kpi.name, "Unknown KPI")
    ensures q.sql == OrDefault(info.kpi.sql, "")
    ensures q.description == FullDescription(OrDefault(info.kpi.description, ""), OrDefault(info.kpi.businessValue, ""), info.tableName)
  {
    QuestionFor(info.kpi, info.tableName, OrDefault(info.kpi.sql, ""))
  }

  /** The questions posted for a run over `infos`, in order. */
  function QuestionsOf(infos: seq<KpiInfo>): (r: seq<Question>)
    ensures |r| == |infos|
    decreases |infos|
  {
    if |infos| == 0 then [] else QuestionsOf(infos[..|infos| - 1]) + [QuickQuestion(infos[|infos| - 1])]
  }

  /** The i-th question posted is the one for the i-th KPI. */
  lemma {:induction false} QuestionsOfIndex(infos: seq<KpiInfo>, i: nat)
    requires i < |infos|
    ensures QuestionsOf(infos)[i] == QuickQuestion(infos[i])
    decreases |infos|
  {
    if i < |infos| - 1 {
      QuestionsOfIndex(infos[..|infos| - 1], i);
    }
  }

  /** How many of the KPIs are registered, given the reply each create request gets. */
  function Successes(infos: seq<KpiInfo>, createReply: KpiInfo -> Option<Reply>): (r: nat)
    ensures r <= |infos|
    decreases |infos|
  {
    if |infos| == 0 then 0
    else Successes(infos[..|infos| - 1], createReply) + (if CreateSucceeds(createReply(infos[|infos| - 1])) then 1 else 0)
  }

  /** Every create succeeding registers every KPI; every one failing registers none. */
  lemma {:induction false} SuccessesBounds(infos: seq<KpiInfo>, createReply: KpiInfo -> Option<Reply>)
    ensures (forall i :: 0 <= i < |infos| ==> CreateSucceeds(createReply(infos[i]))) ==> Successes(infos, createReply) == |infos|
    ensures (forall i :: 0 <= i < |infos| ==> !CreateSucceeds(createReply(infos[i]))) ==> Successes(infos, createReply) == 0
    decreases |infos|
  {
    if |infos| > 0 {
      SuccessesBounds(infos[..|infos| - 1], createReply);
    }
  }

  /** One more KPI adds its question and, when its create succeeds, one success. */
  lemma AppendOne(infos: seq<KpiInfo>, info: KpiInfo, createReply: KpiInfo -> Option<Reply>)
    ensures QuestionsOf(infos + [info]) == QuestionsOf(infos) + [QuickQuestion(info)]
    ensures Successes(infos + [info], createReply) == Successes(infos, createReply) + (if CreateSucceeds(createReply(info)) then 1 else 0)
  {
    assert (infos + [info])[..|infos|] == infos;
  }

  /** A table with no KPIs adds nothing to the run. */
  lemma EmptyTableAddsNothing(data: seq<TableRecord>, t: TableRecord)
    requires KpisOf(t.entry) == []
    ensures AllKpis(data + [t]) == AllKpis(data)
  {
    assert (data + [t])[..|data|] == data;
  }

  lemma PrefixStep(done: seq<KpiInfo>, here: seq<KpiInfo>, j: nat)
    requires j < |here|
    ensures done + here[..j + 1] == (done + here[..j]) + [here[j]]
  {
    assert here[..j + 1] == here[..j] + [here[j]];
  }

  /** One create request of the inner loop: post the KPI's question and count the outcome. */
  method PostOne(info: KpiInfo, ghost done: seq<KpiInfo>, sent0: seq<Question>, total0: nat, successful0: nat,
                 failed0: nat, createReply: KpiInfo -> Option<Reply>)
    returns (sent: seq<Question>, total: nat, successful: nat, failed: nat)
    requires sent0 == QuestionsOf(done) && successful0 == Successes(done, createReply)
    requires total0 == successful0 + failed0 && |sent0| == total0
    ensures sent == QuestionsOf(done + [info]) && successful == Successes(done + [info], createReply)
    ensures total == successful + failed && |sent| == total
  {
    AppendOne(done, info, createReply);
    sent, total, successful, failed := sent0 + [QuickQuestion(info)], total0 + 1, successful0, failed0;
    if CreateSucceeds(createReply(info)) {
      successful := successful + 1;
    } else {
      failed := failed + 1;
    }
  }

  /** The inner loop of `register_kpis_from_json`: one create request per KPI of a table;
      a table whose KPI list is empty is skipped. */
  method PostTable(t: TableRecord, ghost done: seq<KpiInfo>, sent0: seq<Question>, total0: nat, successful0: nat, failed0: nat,
                   createReply: KpiInfo -> Option<Reply>)
    returns (sent: seq<Question>, total: nat, successful: nat, failed: nat)
    requires sent0 == QuestionsOf(done) && successful0 == Successes(done, createReply)
    requires total0 == successful0 + failed0 && |sent0| == total0
    ensures sent == QuestionsOf(done + TableKpis(t)) && successful == Successes(done + TableKpis(t), createReply)
    ensures total == successful + failed && |sent| == total
  {
    sent, total, successful, failed := sent0, total0, successful0, failed0;
    var kpis := KpisOf(t.entry);
    ghost var here := TableKpis(t);
    if |kpis| == 0 {
      // a table without KPIs is skipped
      assert done + here == done;
      return;
    }
    ghost var acc := done;
    var j := 0;
    while j < |kpis|
      invariant 0 <= j <= |kpis|
      invariant acc == done + here[..j]
      invariant sent == QuestionsOf(acc) && successful == Successes(acc, createReply)
      invariant total == successful + failed && |sent| == total
    {
      var info := KpiInfo(t.tableName, kpis[j]);
      sent, total, successful, failed := PostOne(info, acc, sent, total, successful, failed, createReply);
      PrefixStep(done, here, j);
      acc := acc + [info];
      j := j + 1;
    }
    assert here[..|kpis|] == here;
  }

  /** The outer loop of `register_kpis_from_json`, table after table. */
  method PostTables(data: seq<TableRecord>, createReply: KpiInfo -> Option<Reply>)
    returns (sent: seq<Question>, total: nat, successful: nat, failed: nat)
    ensures sent == QuestionsOf(AllKpis(data)) && successful == Successes(AllKpis(data), createReply)
    ensures total == successful + failed && |sent| == total
  {
    sent, total, successful, failed := [], 0, 0, 0;
    ghost var done: seq<KpiInfo> := [];
    var i := 0;
    while i < |data|
      invariant 0 <= i <= |data|
      invariant done == AllKpis(data[..i])
      invariant sent == QuestionsOf(done) && successful == Successes(done, createReply)
      invariant total == successful + failed && |sent| == total
    {
      AllKpisStep(data, i);
      sent, total, successful, failed := PostTable(data[i], done, sent, total, successful, failed, createReply);
      done := done + TableKpis(data[i]);
      i := i + 1;
    }
    assert data[..|data|] == data;
  }

  /** `register_kpis_from_json`: stop unless authentication, the database id, the collection
      id and loading the results file (`loaded`, None when it is missing or not JSON) all
      succeed; then post one question per KPI, table after table. */
  method RegisterKpisFromJson(loaded: Option<seq<TableRecord>>, setup: Setup, createReply: KpiInfo -> Option<Reply>)
    returns (sent: seq<Question>, total: nat, successful: nat, failed: nat)
    ensures total == successful + failed && |sent| == total
    ensures var coll := GetOrCreateCollection(setup.collections, QuickCollection, setup.createCollection);
      if !setup.authenticated || !Truthy(DatabaseId(setup.databases)) || !Truthy(coll.id) || loaded.None? then
        sent == [] && total == 0
      else sent == QuestionsOf(AllKpis(loaded.value)) && successful == Successes(AllKpis(loaded.value), createReply)
  {
    sent, total, successful, failed := [], 0, 0, 0;
    if !setup.authenticated {
      return;
    }
    var dbId := DatabaseId(setup.databases);
    if !Truthy(dbId) {
      return;
    }
    var coll := GetOrCreateCollection(setup.collections, QuickCollection, setup.createCollection);
    if !Truthy(coll.id) || loaded.None? {
      return;
    }
    sent, total, successful, failed := PostTables(loaded.value, createReply);
  }
}
