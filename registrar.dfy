/** The validating registrar (src/kpi_registrar.py, byte-identical to
    register_kpis_enhanced.py): it classifies each query reply, composes the question
    description, and keeps the bookkeeping of one registration run. */
module Registrar {
  import opened Wrappers
  import opened Text
  import opened Py
  import opened Results
  import Extractor

  // ---- database, collection and cleanup ----

  /** `get_database_id`: the 'id' of the first database after normalisation; JNull
      (Python None) when there is none or when anything raises. */
  function DatabaseId(reply: Reply): (r: Json)
    ensures reply.status != 200 || reply.body.None? ==> r == JNull
    ensures reply.status == 200 && reply.body == Some(JList([])) ==> r == JNull
    ensures forall db, rest :: reply.status == 200 && reply.body == Some(JList([db] + rest)) && db.JObj? ==>
      r == Get0(db, "id").value
  {
    if reply.status != 200 || reply.body.None? then JNull
    else
      var dbs := match reply.body.value
        case JObj(ms) => (match Lookup(ms, "data") case Some(v) => v case None => JList([reply.body.value]))
        case other => other;
      if !Truthy(dbs) || Len(dbs).None? then JNull
      else
        var first: Option<Json> := match dbs
          case JList(items) => Some(items[0])
          case JStr(s) => Some(JStr([s[0]]))
          case _ => None; // a dict indexed by 0 raises KeyError
        match first
        case Some(JObj(ms)) => Get0(JObj(ms), "id").value
        case _ => JNull
  }

  /** A dict body with a 'data' list: the id of the list's first database, None for an
      empty list. */
  lemma DatabaseIdOfData(ms: seq<Member>, dbs: seq<Json>)
    requires Lookup(ms, "data") == Some(JList(dbs))
    ensures |dbs| == 0 ==> DatabaseId(Reply(200, Some(JObj(ms)))) == JNull
    ensures |dbs| > 0 && dbs[0].JObj? ==> DatabaseId(Reply(200, Some(JObj(ms)))) == Get0(dbs[0], "id").value
    ensures |dbs| > 0 && !dbs[0].JObj? ==> DatabaseId(Reply(200, Some(JObj(ms)))) == JNull
  {
  }

  /** A dict body without 'data' is read as the single database `[body]`: its own id. */
  lemma DatabaseIdOfSingleDict(ms: seq<Member>)
    requires "data" !in Keys(ms)
    ensures DatabaseId(Reply(200, Some(JObj(ms)))) == Get0(JObj(ms), "id").value
  {
  }

  /** The outcome of `get_or_create_collection`: the id (JNull for None) and whether a
      create request was sent. */
  datatype CollectionOutcome = CollectionOutcome(id: Json, createSent: bool)

  /** How the search loop over the listing ends: at the first collection named exactly
      `name`, after the whole listing, or raising at the first entry that is not a dict. */
  datatype Scan = Found(index: nat) | NotFound | Raises

  /** No dict among the first n entries is named `name`, and all of them are dicts. */
  predicate NoMatchBefore(cs: seq<Json>, name: string, n: nat)
    requires n <= |cs|
  {
    forall j :: 0 <= j < n ==> cs[j].JObj? && Get0(cs[j], "name").value != JStr(name)
  }

  function ScanCollections(cs: seq<Json>, name: string): (r: Scan)
    ensures r.Found? ==>
      r.index < |cs| && cs[r.index].JObj? && Get0(cs[r.index], "name").value == JStr(name) && NoMatchBefore(cs, name, r.index)
    ensures r.NotFound? ==> NoMatchBefore(cs, name, |cs|)
    ensures r.Raises? ==> exists j :: 0 <= j < |cs| && !cs[j].JObj? && NoMatchBefore(cs, name, j)
  {
    if |cs| == 0 then NotFound
    else if !cs[0].JObj? then
      assert NoMatchBefore(cs, name, 0);
      Raises
    else if Get0(cs[0], "name").value == JStr(name) then Found(0)
    else
      match ScanCollections(cs[1..], name)
      case Found(k) =>
        assert forall j :: 1 <= j < k + 1 ==> cs[j] == cs[1..][j - 1];
        Found(k + 1)
      case NotFound =>
        assert forall j :: 1 <= j < |cs| ==> cs[j] == cs[1..][j - 1];
        NotFound
      case Raises =>
        var j :| 0 <= j < |cs[1..]| && !cs[1..][j].JObj? && NoMatchBefore(cs[1..], name, j);
        assert forall l :: 1 <= l < j + 1 ==> cs[l] == cs[1..][l - 1];
        assert NoMatchBefore(cs, name, j + 1);
        Raises
  }

  /** `get_or_create_collection(name)` given the list reply and the create reply. */
  function GetOrCreateCollection(listReply: Reply, name: string, createReply: Reply): (r: CollectionOutcome)
    ensures r.createSent ==> listReply.status == 200
    ensures listReply.status != 200 ==> r == CollectionOutcome(JNull, false)
  {
    if listReply.status != 200 || listReply.body.None? then CollectionOutcome(JNull, false)
    else match Iter(listReply.body.value)
      case None => CollectionOutcome(JNull, false)
      case Some(cs) =>
        match ScanCollections(cs, name)
        case Raises => CollectionOutcome(JNull, false)
        case Found(k) => CollectionOutcome(Get0(cs[k], "id").value, false)
        case NotFound =>
          if createReply.status == 200 && createReply.body.Some? && createReply.body.value.JObj?
          then CollectionOutcome(Get0(createReply.body.value, "id").value, true)
          else CollectionOutcome(JNull, true)
  }

  /** The scan stops at the first dict named `name` when every entry before it is a dict
      with another name. */
  lemma {:induction false} ScanFindsFirst(cs: seq<Json>, name: string, k: nat)
    requires k < |cs| && cs[k].JObj? && Get0(cs[k], "name").value == JStr(name)
    requires NoMatchBefore(cs, name, k)
    ensures ScanCollections(cs, name) == Found(k)
    decreases k
  {
    if k > 0 {
      assert cs[0].JObj? && Get0(cs[0], "name").value != JStr(name);
      assert forall j :: 0 <= j < k - 1 ==> cs[1..][j] == cs[j + 1];
      ScanFindsFirst(cs[1..], name, k - 1);
    }
  }

  /** The scan runs through a listing of dicts none of which is named `name`. */
  lemma {:induction false} ScanRunsThrough(cs: seq<Json>, name: string)
    requires NoMatchBefore(cs, name, |cs|)
    ensures ScanCollections(cs, name) == NotFound
    decreases |cs|
  {
    if |cs| > 0 {
      assert cs[0].JObj? && Get0(cs[0], "name").value != JStr(name);
      assert forall j :: 0 <= j < |cs| - 1 ==> cs[1..][j] == cs[j + 1];
      ScanRunsThrough(cs[1..], name);
    }
  }

  /** The lookup returns the first exact name match and sends no create request. */
  lemma CollectionFirstMatch(cs: seq<Json>, name: string, createReply: Reply, k: nat)
    requires k < |cs| && cs[k].JObj? && Get0(cs[k], "name").value == JStr(name)
    requires NoMatchBefore(cs, name, k)
    ensures GetOrCreateCollection(Reply(200, Some(JList(cs))), name, createReply) == CollectionOutcome(Get0(cs[k], "id").value, false)
  {
    ScanFindsFirst(cs, name, k);
  }

  /** A create request is sent exactly when every listed collection is a dict with another name. */
  lemma CollectionCreateOnlyWithoutMatch(cs: seq<Json>, name: string, createReply: Reply)
    ensures GetOrCreateCollection(Reply(200, Some(JList(cs))), name, createReply).createSent <==>
      NoMatchBefore(cs, name, |cs|)
  {
    if NoMatchBefore(cs, name, |cs|) {
      ScanRunsThrough(cs, name);
    }
  }

  predicate AllDicts(xs: seq<Json>) { forall x :: x in xs ==> x.JObj? }

  /** `item.get('model') == 'card'` */
  predicate IsCard(item: Json) requires item.JObj? { Get0(item, "model").value == JStr("card") }

  /** The items of a collection that cleanup deletes. */
  function CardsToRemove(items: seq<Json>): (r: seq<Json>)
    requires AllDicts(items)
    ensures |r| <= |items| && AllDicts(r)
  {
    if |items| == 0 then []
    else (if IsCard(items[0]) then [items[0]] else []) + CardsToRemove(items[1..])
  }

  /** `remove_existing_kpis` after its collection lookup: `deleteStatus` gives the status
      of DELETE /api/card/{id}.  Returns whether cleanup reports success, the card ids it
      deleted, and how many deletions answered 204. */
  method RemoveExistingKpis(collectionId: Json, itemsReply: Reply, deleteStatus: Json -> int)
    returns (ok: bool, deleted: seq<Json>, removed: nat)
    ensures !Truthy(collectionId) || itemsReply.status != 200 ==> !ok && deleted == []
    ensures ok ==> itemsReply.body.Some? && Iter(itemsReply.body.value).Some?
    ensures ok ==>
      var items := Iter(itemsReply.body.value).value;
      AllDicts(items) && deleted == CardIds(CardsToRemove(items))
    ensures (Truthy(collectionId) && itemsReply.status == 200 && itemsReply.body.Some?
             && Iter(itemsReply.body.value).Some? && AllDicts(Iter(itemsReply.body.value).value)) ==> ok
    ensures removed <= |deleted| && removed == Accepted(deleted, deleteStatus)
  {
    deleted := [];
    removed := 0;
    if !Truthy(collectionId) || itemsReply.status != 200 || itemsReply.body.None? {
      return false, [], 0;
    }
    var it := Iter(itemsReply.body.value);
    if it.None? || !AllDicts(it.value) {
      return false, [], 0;
    }
    deleted, removed := DeleteCards(CardsToRemove(it.value), deleteStatus);
    ok := true;
  }

  /** How many of the deletions of `ids` were answered with 204, the count the cleanup reports. */
  function Accepted(ids: seq<Json>, deleteStatus: Json -> int): (r: nat)
    ensures r <= |ids|
    ensures (forall k :: 0 <= k < |ids| ==> deleteStatus(ids[k]) == 204) <==> r == |ids|
    decreases |ids|
  {
    if |ids| == 0 then 0
    else Accepted(ids[..|ids| - 1], deleteStatus) + (if deleteStatus(ids[|ids| - 1]) == 204 then 1 else 0)
  }

  /** The deleting loop of `remove_existing_kpis`: one DELETE per card, in order, counting
      the answers 204. */
  method DeleteCards(cards: seq<Json>, deleteStatus: Json -> int) returns (deleted: seq<Json>, removed: nat)
    requires AllDicts(cards)
    ensures deleted == CardIds(cards) && removed <= |deleted|
    ensures removed == Accepted(deleted, deleteStatus)
  {
    deleted := [];
    removed := 0;
    var i := 0;
    while i < |cards|
      invariant 0 <= i <= |cards|
      invariant AllDicts(cards[..i]) && deleted == CardIds(cards[..i])
      invariant removed <= i && removed == Accepted(deleted, deleteStatus)
    {
      CardIdsStep(cards, i);
      var id := Get0(cards[i], "id").value;
      deleted := deleted + [id];
      if deleteStatus(id) == 204 {
        removed := removed + 1;
      }
      i := i + 1;
    }
    assert cards[..|cards|] == cards;
  }

  lemma CardIdsStep(cards: seq<Json>, i: nat)
    requires AllDicts(cards) && i < |cards|
    ensures AllDicts(cards[..i]) && AllDicts(cards[..i + 1]) && cards[i].JObj?
    ensures CardIds(cards[..i + 1]) == CardIds(cards[..i]) + [Get0(cards[i], "id").value]
  {
    assert cards[i] in cards;
    assert forall x :: x in cards[..i + 1] ==> x in cards;
    assert cards[..i + 1][..i] == cards[..i];
  }

  /** The ids of cards, in order. */
  function CardIds(cards: seq<Json>): (r: seq<Json>)
    requires AllDicts(cards)
    ensures |r| == |cards|
    ensures forall j :: 0 <= j < |cards| ==> r[j] == Get0(cards[j], "id").value
  {
    if |cards| == 0 then []
    else
      assert forall x :: x in cards[..|cards| - 1] ==> x in cards;
      CardIds(cards[..|cards| - 1]) + [Get0(cards[|cards| - 1], "id").value]
  }

  /** The cards are exactly the items whose model is 'card'. */
  lemma {:induction false} CardsAreCardItems(items: seq<Json>)
    requires forall x :: x in items ==> x.JObj?
    ensures forall x :: x in CardsToRemove(items) <==> x in items && IsCard(x)
  {
    if |items| > 0 {
      assert forall x :: x in items[1..] ==> x in items;
      CardsAreCardItems(items[1..]);
      assert items == [items[0]] + items[1..];
    }
  }

  /** Cleanup deletes a card only: every deleted id is the id of an item whose model is 'card'. */
  lemma {:induction false} OnlyCardsDeleted(items: seq<Json>, k: nat)
    requires forall x :: x in items ==> x.JObj?
    requires k < |CardIds(CardsToRemove(items))|
    ensures exists x :: x in items && IsCard(x) && Get0(x, "id").value == CardIds(CardsToRemove(items))[k]
  {
    var cards := CardsToRemove(items);
    CardsAreCardItems(items);
    assert cards[k] in cards;
  }

  // ---- SQL validation ----

  /** What `validate_sql_execution` returns: 'valid' with the rows and columns, or 'failed'
      with its 'error' and 'message' (Raised: an exception, reported with its text). */
  datatype Validation = Valid(rows: Json, cols: Json) | Failed(error: Json, message: Message) | Raised

  /** Which 'message' a failed validation carries. */
  datatype Message =
    | HttpErrorMessage(status: int)
    | ExecutionFailedMessage(errorInfo: Json)
    | InvalidStructureMessage
    | UnexpectedFormatMessage

  /** The message text; `responseText` is the reply's raw text (`response.text`). */
  function MessageText(m: Message, responseText: string): (r: string)
    ensures m.HttpErrorMessage? ==> StartsWith(r, "HTTP error " + IntToString(m.status) + ": ")
    ensures m.ExecutionFailedMessage? ==> StartsWith(r, "SQL execution failed: ")
  {
    match m
    case HttpErrorMessage(status) => "HTTP error " + IntToString(status) + ": " + responseText
    case ExecutionFailedMessage(e) => "SQL execution failed: " + PyStr(e)
    case InvalidStructureMessage => "SQL executed but returned invalid result structure"
    case UnexpectedFormatMessage => "SQL execution returned unexpected response format"
  }

  function StatusOf(v: Validation): string { if v.Valid? then "valid" else "failed" }

  /** `validate_sql_execution` on the reply of POST /api/dataset (None: the request raised). */
  function ValidateSqlExecution(reply: Option<Reply>): (v: Validation)
    ensures reply.None? ==> v == Raised
    ensures v.Valid? ==>
      reply.Some? && (reply.value.status == 200 || reply.value.status == 202)
      && reply.value.body.Some? && reply.value.body.value.JObj?
      && Get0(reply.value.body.value, "status").value != JStr("failed")
    ensures reply.Some? && reply.value.status != 200 && reply.value.status != 202 ==>
      v == Failed(JStr("HTTP " + IntToString(reply.value.status)), HttpErrorMessage(reply.value.status))
  {
    match reply
    case None => Raised
    case Some(r) =>
      if r.status != 200 && r.status != 202 then Failed(JStr("HTTP " + IntToString(r.status)), HttpErrorMessage(r.status))
      else if r.body.None? || !r.body.value.JObj? then Raised
      else
        var result := r.body.value;
        var status := Get0(result, "status").value;
        if status == JStr("completed") then Completed(result)
        else if status == JStr("failed") then
          var e := Get(result, "error", JStr("Unknown error")).value;
          Failed(e, ExecutionFailedMessage(e))
        else OtherStatus(result)
  }

  /** The 'completed' branch: rows and cols default to [] and only an explicit null fails. */
  function Completed(result: Json): Validation
    requires result.JObj?
  {
    var data := Get(result, "data", JObj([])).value;
    if !data.JObj? then Raised
    else
      var rows := Get(data, "rows", JList([])).value;
      var cols := Get(data, "cols", JList([])).value;
      if rows != JNull && cols != JNull then
        (if Len(rows).Some? then Valid(rows, cols) else Raised)
      else Failed(JStr("Invalid result structure"), InvalidStructureMessage)
  }

  /** Any other status: valid only when 'data' holds 'rows'. */
  function OtherStatus(result: Json): Validation
    requires result.JObj?
  {
    match Index(result, "data")
    case None => Failed(JStr("Unexpected response format"), UnexpectedFormatMessage)
    case Some(data) =>
      match HasKey(data, "rows")
      case None => Raised
      case Some(false) => Failed(JStr("Unexpected response format"), UnexpectedFormatMessage)
      case Some(true) =>
        if !data.JObj? then Raised // a list or a string indexed by 'rows'
        else
          var rows := Index(data, "rows").value;
          if Len(rows).Some? then Valid(rows, Get(data, "cols", JList([])).value) else Raised
  }

  /** A completed query is valid with missing data, rows or cols read as []: zero rows is valid. */
  lemma CompletedDefaultsValid(status: int, members: seq<Member>)
    requires status == 200 || status == 202
    requires Lookup(members, "status") == Some(JStr("completed")) && "data" !in Keys(members)
    ensures ValidateSqlExecution(Some(Reply(status, Some(JObj(members))))) == Valid(JList([]), JList([]))
  {
    DispatchCompleted(status, members);
    assert Get(JObj(members), "data", JObj([])).value == JObj([]);
  }

  /** A dict reply whose status is 'completed' takes the 'completed' branch. */
  lemma DispatchCompleted(status: int, members: seq<Member>)
    requires status == 200 || status == 202
    requires Lookup(members, "status") == Some(JStr("completed"))
    ensures ValidateSqlExecution(Some(Reply(status, Some(JObj(members))))) == Completed(JObj(members))
  {
    assert Get0(JObj(members), "status").value == JStr("completed");
  }

  /** A completed query whose rows or cols are explicitly null fails with 'Invalid result structure'. */
  lemma CompletedNullFails(status: int, members: seq<Member>, data: seq<Member>)
    requires status == 200 || status == 202
    requires Lookup(members, "status") == Some(JStr("completed")) && Lookup(members, "data") == Some(JObj(data))
    requires Lookup(data, "rows") == Some(JNull) || Lookup(data, "cols") == Some(JNull)
    ensures ValidateSqlExecution(Some(Reply(status, Some(JObj(members))))) == Failed(JStr("Invalid result structure"), InvalidStructureMessage)
  {
    var result := JObj(members);
    DispatchCompleted(status, members);
    assert Get(result, "data", JObj([])).value == JObj(data);
    assert Get(JObj(data), "rows", JList([])).value == JNull || Get(JObj(data), "cols", JList([])).value == JNull;
  }

  /** A failed query carries the reply's error, or 'Unknown error'. */
  lemma FailedCarriesError(status: int, members: seq<Member>)
    requires status == 200 || status == 202
    requires Lookup(members, "status") == Some(JStr("failed"))
    ensures ValidateSqlExecution(Some(Reply(status, Some(JObj(members))))) ==
      var e := if "error" in Keys(members) then Lookup(members, "error").value else JStr("Unknown error");
      Failed(e, ExecutionFailedMessage(e))
  {
  }

  /** Any other status without 'data': 'Unexpected response format'. */
  lemma OtherStatusWithoutData(status: int, members: seq<Member>)
    requires status == 200 || status == 202
    requires var s := Lookup(members, "status"); s != Some(JStr("completed")) && s != Some(JStr("failed"))
    requires "data" !in Keys(members)
    ensures ValidateSqlExecution(Some(Reply(status, Some(JObj(members))))) == Failed(JStr("Unexpected response format"), UnexpectedFormatMessage)
  {
  }

  /** Any other status with a 'data' dict: valid iff it holds 'rows'. */
  lemma OtherStatusWithData(status: int, members: seq<Member>, data: seq<Member>)
    requires status == 200 || status == 202
    requires var s := Lookup(members, "status"); s != Some(JStr("completed")) && s != Some(JStr("failed"))
    requires Lookup(members, "data") == Some(JObj(data))
    requires Lookup(data, "rows").Some? ==> Lookup(data, "rows").value.JList?
    ensures ValidateSqlExecution(Some(Reply(status, Some(JObj(members))))) ==
      if "rows" in Keys(data) then Valid(Lookup(data, "rows").value, Get(JObj(data), "cols", JList([])).value)
      else Failed(JStr("Unexpected response format"), UnexpectedFormatMessage)
  {
    DispatchOther(status, members);
    OtherStatusOfData(members, data);
  }

  /** A dict reply whose status is neither 'completed' nor 'failed' takes the last branch. */
  lemma DispatchOther(status: int, members: seq<Member>)
    requires status == 200 || status == 202
    requires var s := Lookup(members, "status"); s != Some(JStr("completed")) && s != Some(JStr("failed"))
    ensures ValidateSqlExecution(Some(Reply(status, Some(JObj(members))))) == OtherStatus(JObj(members))
  {
    var result := JObj(members);
    assert Get0(result, "status").value != JStr("completed") && Get0(result, "status").value != JStr("failed");
  }

  lemma OtherStatusOfData(members: seq<Member>, data: seq<Member>)
    requires Lookup(members, "data") == Some(JObj(data))
    requires Lookup(data, "rows").Some? ==> Lookup(data, "rows").value.JList?
    ensures OtherStatus(JObj(members)) ==
      if "rows" in Keys(data) then Valid(Lookup(data, "rows").value, Get(JObj(data), "cols", JList([])).value)
      else Failed(JStr("Unexpected response format"), UnexpectedFormatMessage)
  {
    if "rows" in Keys(data) {
      OtherStatusWithRows(members, data, Lookup(data, "rows").value.items);
    } else {
      OtherStatusWithoutRows(members, data);
    }
  }

  lemma OtherStatusWithRows(members: seq<Member>, data: seq<Member>, rows: seq<Json>)
    requires Lookup(members, "data") == Some(JObj(data)) && Lookup(data, "rows") == Some(JList(rows))
    ensures OtherStatus(JObj(members)) == Valid(JList(rows), Get(JObj(data), "cols", JList([])).value)
  {
    assert Index(JObj(members), "data") == Some(JObj(data));
    assert HasKey(JObj(data), "rows") == Some(true);
  }

  lemma OtherStatusWithoutRows(members: seq<Member>, data: seq<Member>)
    requires Lookup(members, "data") == Some(JObj(data)) && "rows" !in Keys(data)
    ensures OtherStatus(JObj(members)) == Failed(JStr("Unexpected response format"), UnexpectedFormatMessage)
  {
    assert Index(JObj(members), "data") == Some(JObj(data));
    assert HasKey(JObj(data), "rows") == Some(false);
  }

  // ---- question creation ----

  /** `create_question`'s description: "Description: d", then the business value only when
      it is non-empty, then the table. */
  function FullDescription(description: string, businessValue: string, tableName: string): (r: string)
    ensures |"Description: " + description| + |"\n\nTable: " + tableName| <= |r|
    ensures StartsWith(r, "Description: " + description)
    ensures EndsWith(r, "\n\nTable: " + tableName)
    ensures |businessValue| == 0 ==> r == "Description: " + description + "\n\nTable: " + tableName
    ensures |businessValue| > 0 ==>
      r[|"Description: " + description|..|r| - |"\n\nTable: " + tableName|] == "\n\nBusiness Value: " + businessValue
  {
    var head := "Description: " + description;
    var middle := if |businessValue| > 0 then "\n\nBusiness Value: " + businessValue else "";
    var tail := "\n\nTable: " + tableName;
    var r := head + middle + tail;
    assert r[..|head|] == head;
    assert r[|r| - |tail|..] == tail;
    assert r[|head|..|r| - |tail|] == middle;
    r
  }

  /** The card a question creation posts. */
  datatype Question = Question(name: string, description: string, sql: string)

  function QuestionFor(kpi: KpiEntry, tableName: string, finalSql: string): Question {
    Question(OrDefault(kpi.name, "Unknown KPI"),
             FullDescription(OrDefault(kpi.description, ""), OrDefault(kpi.businessValue, ""), tableName),
             finalSql)
  }

  /** `create_question` succeeds iff the POST answers 200 with a readable dict body. */
  predicate CreateSucceeds(reply: Option<Reply>) {
    reply.Some? && reply.value.status == 200 && reply.value.body.Some? && reply.value.body.value.JObj?
  }

  // ---- the registration run ----

  /** One KPI of the run together with the replies its requests get; `execText` is the
      raw text of the validation reply. */
  datatype Attempt = Attempt(info: KpiInfo, execReply: Option<Reply>, execText: string, createReply: Option<Reply>)

  /** A KPI that was not registered, with its reason. */
  datatype Rejected = Rejected(kpiName: string, tableName: string, sql: string, error: string)

  /** The 'error' recorded for a query that did not validate: the validation's message, or
      for a raise the exception prefix (the exception's own text is not modelled). */
  function InvalidReason(v: Validation, responseText: string): string
    requires !v.Valid?
  {
    if v.Failed? then MessageText(v.message, responseText) else "Exception during SQL execution: "
  }

  /** The state `register_kpis_with_validation` updates: the registered set, the two
      failure lists, the four counters, the questions created so far and, beside them, the
      registration key (`kpi_name` or `KPI_i`) under which each was registered. */
  datatype RunState = RunState(
    registered: set<string>, failed: seq<Rejected>, invalid: seq<Rejected>,
    totalProcessed: nat, successfullyRegistered: nat, validationFailed: nat, creationFailed: nat,
    created: seq<Question>, createdKeys: seq<string>)

  const Initial: RunState := RunState({}, [], [], 0, 0, 0, 0, [], [])

  /** `kpi.get('kpi_name', f'KPI_{i}')` */
  function KpiName(kpi: KpiEntry, i: nat): string { OrDefault(kpi.name, "KPI_" + NatToString(i)) }

  function Names(qs: seq<Question>): (r: seq<string>)
    ensures |r| == |qs| && forall j :: 0 <= j < |qs| ==> r[j] == qs[j].name
  {
    seq(|qs|, j requires 0 <= j < |qs| => qs[j].name)
  }

  /** One iteration of the loop, for the i-th KPI (counting from 1). */
  function Step(s: RunState, i: nat, a: Attempt): RunState {
    var name := KpiName(a.info.kpi, i);
    var sql := OrDefault(a.info.kpi.sql, "");
    if name in s.registered then s
    else
      var v := ValidateSqlExecution(a.execReply);
      if v.Valid? then
        if CreateSucceeds(a.createReply) then
          s.(registered := s.registered + {name}, successfullyRegistered := s.successfullyRegistered + 1,
             created := s.created + [QuestionFor(a.info.kpi, a.info.tableName, sql)],
             createdKeys := s.createdKeys + [name],
             totalProcessed := s.totalProcessed + 1)
        else
          s.(failed := s.failed + [Rejected(name, a.info.tableName, sql, "Failed to create question in Metabase")],
             totalProcessed := s.totalProcessed + 1)
      else
        s.(invalid := s.invalid + [Rejected(name, a.info.tableName, sql, InvalidReason(v, a.execText))],
           validationFailed := s.validationFailed + 1, totalProcessed := s.totalProcessed + 1)
  }

  /** The bookkeeping invariants of the run. */
  predicate Inv(s: RunState) {
    |s.registered| == s.successfullyRegistered
    && s.totalProcessed == s.successfullyRegistered + s.validationFailed + |s.failed|
    && s.validationFailed == |s.invalid|
    && s.creationFailed == 0
    && |s.created| == s.successfullyRegistered && |s.createdKeys| == |s.created|
    && (forall j, k :: 0 <= j < k < |s.createdKeys| ==> s.createdKeys[j] != s.createdKeys[k])
    && (forall key :: key in s.createdKeys ==> key in s.registered)
    && (forall key :: key in s.registered ==> key in s.createdKeys)
  }

  /** Each iteration keeps the invariants; `creation_failed` is never incremented. */
  lemma StepKeepsInv(s: RunState, i: nat, a: Attempt)
    requires Inv(s)
    ensures Inv(Step(s, i, a))
  {
    var name := KpiName(a.info.kpi, i);
    var t := Step(s, i, a);
    if name !in s.registered && t.createdKeys != s.createdKeys {
      assert t.createdKeys == s.createdKeys + [name];
      forall j | 0 <= j < |s.createdKeys| ensures s.createdKeys[j] != name {
        assert s.createdKeys[j] in s.createdKeys;
      }
    }
  }

  /** A name already registered is skipped: nothing changes, not even `total_processed`. */
  lemma SkipChangesNothing(s: RunState, i: nat, a: Attempt)
    requires KpiName(a.info.kpi, i) in s.registered
    ensures Step(s, i, a) == s
  {
  }

  /** A query refused with a non-2xx status is filed under invalid_sqls with the message
      "HTTP error <status>: <reply text>". */
  lemma HttpErrorRecordsMessage(s: RunState, i: nat, a: Attempt)
    requires KpiName(a.info.kpi, i) !in s.registered
    requires a.execReply.Some? && a.execReply.value.status != 200 && a.execReply.value.status != 202
    ensures Step(s, i, a).invalid == s.invalid + [Rejected(KpiName(a.info.kpi, i), a.info.tableName,
      OrDefault(a.info.kpi.sql, ""), "HTTP error " + IntToString(a.execReply.value.status) + ": " + a.execText)]
    ensures Step(s, i, a).validationFailed == s.validationFailed + 1
  {
  }

  /** Two valid KPIs without a 'kpi_name' are registered under the distinct keys KPI_1 and
      KPI_2, yet both questions are posted under the same name 'Unknown KPI'. */
  lemma UnnamedKpisShareName(a1: Attempt, a2: Attempt)
    requires a1.info.kpi.name.None? && a2.info.kpi.name.None?
    requires ValidateSqlExecution(a1.execReply).Valid? && CreateSucceeds(a1.createReply)
    requires ValidateSqlExecution(a2.execReply).Valid? && CreateSucceeds(a2.createReply)
    ensures var t := Run(Initial, 1, [a1, a2]);
      t.createdKeys == ["KPI_1", "KPI_2"] && t.registered == {"KPI_1", "KPI_2"}
      && Names(t.created) == ["Unknown KPI", "Unknown KPI"]
  {
    assert KpiName(a1.info.kpi, 1) == "KPI_1" by { assert NatToString(1) == "1"; }
    assert KpiName(a2.info.kpi, 2) == "KPI_2" by { assert NatToString(2) == "2"; }
    assert "KPI_1" != "KPI_2" by { assert "KPI_1"[4] != "KPI_2"[4]; }
    var s1 := Step(Initial, 1, a1);
    RegisterValid(Initial, 1, a1);
    RegisterValid(s1, 2, a2);
    RunTwo(Initial, 1, a1, a2);
    var t := Step(s1, 2, a2);
    assert t.created == [QuestionFor(a1.info.kpi, a1.info.tableName, OrDefault(a1.info.kpi.sql, "")),
                         QuestionFor(a2.info.kpi, a2.info.tableName, OrDefault(a2.info.kpi.sql, ""))];
  }

  /** A new name whose query validates and whose question is created is registered. */
  lemma RegisterValid(s: RunState, i: nat, a: Attempt)
    requires KpiName(a.info.kpi, i) !in s.registered
    requires ValidateSqlExecution(a.execReply).Valid? && CreateSucceeds(a.createReply)
    ensures var name := KpiName(a.info.kpi, i);
      Step(s, i, a) == s.(registered := s.registered + {name}, successfullyRegistered := s.successfullyRegistered + 1,
        created := s.created + [QuestionFor(a.info.kpi, a.info.tableName, OrDefault(a.info.kpi.sql, ""))],
        createdKeys := s.createdKeys + [name], totalProcessed := s.totalProcessed + 1)
  {
  }

  lemma RunTwo(s: RunState, first: nat, a1: Attempt, a2: Attempt)
    ensures Run(s, first, [a1, a2]) == Step(Step(s, first, a1), first + 1, a2)
  {
    var s1 := Step(s, first, a1);
    assert [a1, a2][1..] == [a2];
    assert Run(s, first, [a1, a2]) == Run(s1, first + 1, [a2]);
    assert [a2][1..] == [];
    assert Run(s1, first + 1, [a2]) == Run(Step(s1, first + 1, a2), first + 2, []);
  }

  /** The run over the selected KPIs, numbered from `first`. */
  function Run(s: RunState, first: nat, attempts: seq<Attempt>): RunState
    decreases |attempts|
  {
    if |attempts| == 0 then s else Run(Step(s, first, attempts[0]), first + 1, attempts[1..])
  }

  /** After any run: |registered| = successfully_registered, total = registered +
      validation failures + creation failures, creation_failed = 0, and no name was
      created twice. */
  lemma {:induction false} RunKeepsInv(s: RunState, first: nat, attempts: seq<Attempt>)
    requires Inv(s)
    ensures Inv(Run(s, first, attempts))
    decreases |attempts|
  {
    if |attempts| > 0 {
      StepKeepsInv(s, first, attempts[0]);
      RunKeepsInv(Step(s, first, attempts[0]), first + 1, attempts[1..]);
    }
  }

  /** Registration only grows the set and the lists. */
  lemma {:induction false} RunOnlyGrows(s: RunState, first: nat, attempts: seq<Attempt>)
    ensures var t := Run(s, first, attempts);
      s.registered <= t.registered && s.failed <= t.failed && s.invalid <= t.invalid
      && s.created <= t.created && s.totalProcessed <= t.totalProcessed
    decreases |attempts|
  {
    if |attempts| > 0 {
      RunOnlyGrows(Step(s, first, attempts[0]), first + 1, attempts[1..]);
    }
  }

  // ---- selection and naming of the run ----

  /** "jae's test SQL" in test mode, "jae's validated SQL" otherwise. */
  function CollectionName(testMode: bool): string {
    if testMode then "jae's test SQL" else "jae's validated SQL"
  }

  /** A draw of `random.sample(all, k)`: k distinct positions of `all`. */
  predicate IsDraw(picks: seq<nat>, n: nat, k: nat) {
    |picks| == k && (forall j :: 0 <= j < |picks| ==> picks[j] < n)
    && forall j, l :: 0 <= j < l < |picks| ==> picks[j] != picks[l]
  }

  function Min(a: nat, b: nat): nat { if a < b then a else b }

  /** The KPIs the loop processes: all of them, or in test mode the drawn sample of size
      min(test_limit, |all|). */
  function Selected(all: seq<KpiInfo>, testMode: bool, testLimit: nat, picks: seq<nat>): (r: seq<KpiInfo>)
    requires testMode ==> IsDraw(picks, |all|, Min(testLimit, |all|))
    ensures !testMode ==> r == all
    ensures testMode ==> |r| == Min(testLimit, |all|) && forall x :: x in r ==> x in all
  {
    if !testMode then all
    else seq(|picks|, j requires 0 <= j < |picks| => all[picks[j]])
  }

  /** The files `save_detailed_results` writes: the invalid-SQL file only when there are invalid SQLs. */
  function FilesWritten(s: RunState): (r: seq<string>)
    ensures "invalid_sqls_for_analysis.json" in r <==> |s.invalid| > 0
  {
    ["enhanced_kpi_validation_results.json"] + (if |s.invalid| > 0 then ["invalid_sqls_for_analysis.json"] else [])
  }

  /** The replies a run gets before it reaches the KPIs: whether authentication succeeds,
      GET /api/database, GET /api/collection and the reply to creating the collection. */
  datatype Setup = Setup(authenticated: bool, databases: Reply, collections: Reply, createCollection: Reply)

  /** The registrar object: the run state lives in its fields. */
  class KpiRegistrar {
    var state: RunState

    ghost predicate Valid() reads this { Inv(state) }

    constructor ()
      ensures Valid() && state == Initial
    {
      state := Initial;
    }

    /** One iteration of the loop body. */
    method ProcessKpi(i: nat, a: Attempt)
      requires Valid()
      modifies this
      ensures Valid() && state == Step(old(state), i, a)
    {
      var name := KpiName(a.info.kpi, i);
      var sql := OrDefault(a.info.kpi.sql, "");
      StepKeepsInv(state, i, a);
      if name in state.registered {
        return;
      }
      var v := ValidateSqlExecution(a.execReply);
      if v.Valid? {
        if CreateSucceeds(a.createReply) {
          var q := QuestionFor(a.info.kpi, a.info.tableName, sql);
          state := state.(registered := state.registered + {name},
                          successfullyRegistered := state.successfullyRegistered + 1,
                          created := state.created + [q], createdKeys := state.createdKeys + [name]);
        } else {
          state := state.(failed := state.failed + [Rejected(name, a.info.tableName, sql,
                                                             "Failed to create question in Metabase")]);
        }
      } else {
        state := state.(invalid := state.invalid + [Rejected(name, a.info.tableName, sql,
                                                             InvalidReason(v, a.execText))],
                        validationFailed := state.validationFailed + 1);
      }
      state := state.(totalProcessed := state.totalProcessed + 1);
    }

    /** `for i, kpi_info in enumerate(all_kpis, 1)` over the selected KPIs. */
    method RegisterAll(attempts: seq<Attempt>)
      requires Valid()
      modifies this
      ensures Valid() && state == Run(old(state), 1, attempts)
    {
      var i := 0;
      while i < |attempts|
        invariant 0 <= i <= |attempts|
        invariant Valid()
        invariant Run(old(state), 1, attempts) == Run(state, i + 1, attempts[i..])
      {
        assert attempts[i..][1..] == attempts[i + 1..];
        ProcessKpi(i + 1, attempts[i]);
        i := i + 1;
      }
    }

    /** `register_kpis_with_validation`: stop unless authentication, the database id, the
        collection id and loading the results file all succeed (the cleanup's outcome only
        warns); then run the loop over the selected KPIs, whose replies `attempts` carries. */
    method RegisterKpisWithValidation(setup: Setup, loaded: Option<seq<TableRecord>>, testMode: bool,
                                      testLimit: nat, picks: seq<nat>, attempts: seq<Attempt>)
      returns (ran: bool)
      requires Valid()
      requires loaded.Some? && testMode ==> IsDraw(picks, |AllKpis(loaded.value)|, Min(testLimit, |AllKpis(loaded.value)|))
      requires loaded.Some? ==>
        var sel := Selected(AllKpis(loaded.value), testMode, testLimit, picks);
        |attempts| == |sel| && forall j :: 0 <= j < |attempts| ==> attempts[j].info == sel[j]
      modifies this
      ensures Valid()
      ensures ran <==> (setup.authenticated && Truthy(DatabaseId(setup.databases)) && loaded.Some?
        && Truthy(GetOrCreateCollection(setup.collections, CollectionName(testMode), setup.createCollection).id))
      ensures ran ==> state == Run(old(state), 1, attempts)
      ensures !ran ==> state == old(state)
    {
      if !setup.authenticated || !Truthy(DatabaseId(setup.databases)) {
        return false;
      }
      var coll := GetOrCreateCollection(setup.collections, CollectionName(testMode), setup.createCollection);
      if !Truthy(coll.id) || loaded.None? {
        return false;
      }
      RegisterAll(attempts);
      ran := true;
    }
  }

  // ---- command line ----

  /** Position of the first `--test` (`sys.argv.index('--test')`). */
  function IndexOf(argv: seq<string>, x: string): (r: Option<nat>)
    ensures r.Some? ==> r.value < |argv| && argv[r.value] == x && forall j :: 0 <= j < r.value ==> argv[j] != x
    ensures r.None? <==> x !in argv
  {
    if |argv| == 0 then None
    else if argv[0] == x then Some(0)
    else match IndexOf(argv[1..], x) case Some(k) => Some(k + 1) case None => None
  }

  /** `main`'s test limit: 50, or the all-digit token right after the first `--test`. */
  function TestLimit(argv: seq<string>): (r: nat)
    ensures "--test" !in argv ==> r == 50
    ensures ("--test" in argv && IndexOf(argv, "--test").value + 1 < |argv|
             && IsDigits(argv[IndexOf(argv, "--test").value + 1]))
            ==> r == DigitsValue(argv[IndexOf(argv, "--test").value + 1])
    ensures ("--test" in argv && !(IndexOf(argv, "--test").value + 1 < |argv|
             && IsDigits(argv[IndexOf(argv, "--test").value + 1]))) ==> r == 50
  {
    match IndexOf(argv, "--test")
    case None => 50
    case Some(k) => if k + 1 < |argv| && IsDigits(argv[k + 1]) then DigitsValue(argv[k + 1]) else 50
  }

  /** `--test 7` sets the limit to 7; `--test x` keeps 50. */
  lemma TestLimitExamples()
    ensures TestLimit(["register_kpis_enhanced.py", "--test", "7"]) == 7
    ensures TestLimit(["register_kpis_enhanced.py", "--test", "x"]) == 50
  {
    assert IndexOf(["register_kpis_enhanced.py", "--test", "7"], "--test") == Some(1);
    assert IndexOf(["register_kpis_enhanced.py", "--test", "x"], "--test") == Some(1);
    assert DigitsValue("7") == DigitsValue("") * 10 + 7;
  }
}
