/** The archived SQL validator and business assessor
    (archive/To_be_delete/sql_validator_and_business_assessor.py): the rating parse, the
    schema checks, the rule-based and LLM fixes, output cleaning, the range selector and
    the per-KPI loop with its counters. */
module Assessor {
  import opened Wrappers
  import opened Text
  import opened Py
  import opened Results

  // ---- the business-value rating ----

  const AssessmentFailedReason: string := "Assessment failed - defaulting to high value"

  /** `assess_business_value` after the LLM call: `reply` is the message content, None when
      the call raised.  The rating is high iff "HIGH VALUE" occurs in the upper-cased reply;
      the reason is the trimmed text after the last "REASON:". */
  function ParseRating(reply: Option<string>): (r: (bool, string))
    ensures reply.None? ==> r == (true, AssessmentFailedReason)
    ensures reply.Some? ==> (r.0 <==> Contains(Upper(Strip(reply.value)), "HIGH VALUE"))
    ensures reply.Some? && !Contains(Strip(reply.value), "REASON:") ==> r.1 == "No reason provided"
  {
    match reply
    case None => (true, AssessmentFailedReason)
    case Some(text) =>
      var result := Strip(text);
      var rating := Contains(Upper(result), "HIGH VALUE");
      var reason := if Contains(result, "REASON:") then Strip(AfterLast(result, "REASON:")) else "No reason provided";
      (rating, reason)
  }

  /** The text after the last separator holds no further separator. */
  lemma AfterLastHasNoSep(s: string, sep: string)
    requires |sep| > 0 && RFind(s, sep).Some?
    ensures !Contains(AfterLast(s, sep), sep)
  {
    var k := RFind(s, sep).value;
    var rest := AfterLast(s, sep);
    if Contains(rest, sep) {
      var j := Find(rest, sep).value;
      assert rest[j..j + |sep|] == s[k + |sep| + j..k + |sep| + j + |sep|];
      assert MatchAt(s, sep, k + |sep| + j);
    }
  }

  /** A reason that was found is the trimmed text after the LAST "REASON:" marker of the
      trimmed reply. */
  lemma ReasonAfterLastMarker(text: string)
    requires Contains(Strip(text), "REASON:")
    ensures exists rest :: ParseRating(Some(text)).1 == Strip(rest) && !Contains(rest, "REASON:")
    ensures var s := Strip(text); var k := RFind(s, "REASON:");
      k.Some? && MatchAt(s, "REASON:", k.value)
      && (forall j :: k.value < j ==> !MatchAt(s, "REASON:", j))
      && ParseRating(Some(text)).1 == Strip(s[k.value + 7..])
  {
    var result := Strip(text);
    var m := "REASON:";
    assert |m| == 7;
    assert MatchAt(result, m, Find(result, m).value);
    assert RFind(result, m).Some?;
    var k := RFind(result, m).value;
    assert forall j :: k < j ==> !MatchAt(result, m, j) by {
      forall j | k < j ensures !MatchAt(result, m, j) {
        if j + |m| <= |result| {
          assert !MatchAt(result, m, j);
        }
      }
    }
    AfterLastHasNoSep(result, m);
    var rest := AfterLast(result, m);
    assert rest == result[k + 7..];
    assert ParseRating(Some(text)).1 == Strip(rest);
  }

  // ---- accepting the LLM's SQL ----

  /** `fix_sql_with_llm` after the LLM call: both fence markers are removed everywhere and the
      rest is trimmed; the text is accepted only if its upper-case form starts with SELECT or WITH. */
  function AcceptLlmSql(reply: Option<string>): (r: Option<string>)
    ensures reply.None? ==> r.None?
    ensures r.Some? ==> StartsWith(Upper(r.value), "SELECT") || StartsWith(Upper(r.value), "WITH")
    ensures r.Some? ==> r.value == Strip(Replace(Replace(Strip(reply.value), "```sql", ""), "```", ""))
    ensures r.Some? ==> !Contains(r.value, "```")
    ensures reply.Some? ==>
      var t := Strip(Replace(Replace(Strip(reply.value), "```sql", ""), "```", ""));
      (StartsWith(Upper(t), "SELECT") || StartsWith(Upper(t), "WITH")) ==> r == Some(t)
  {
    match reply
    case None => None
    case Some(text) =>
      var unfenced := Replace(Replace(Strip(text), "```sql", ""), "```", "");
      ReplaceFenceClears(Replace(Strip(text), "```sql", ""));
      StripAbsent(unfenced, "```");
      var t := Strip(unfenced);
      if StartsWith(Upper(t), "SELECT") || StartsWith(Upper(t), "WITH") then Some(t) else None
  }

  /** An accepted text is never empty. */
  lemma AcceptedIsNonEmpty(reply: Option<string>)
    requires AcceptLlmSql(reply).Some?
    ensures |AcceptLlmSql(reply).value| >= 4
  {
    var t := AcceptLlmSql(reply).value;
    assert |Upper(t)| == |t|;
  }

  /** A reply without fences or surrounding whitespace is accepted unchanged when it is a query. */
  lemma PlainQueryAccepted(text: string)
    requires |text| > 0 && !IsSpace(text[0]) && !IsSpace(text[|text| - 1])
    requires !Contains(text, "```sql") && !Contains(text, "```")
    requires StartsWith(Upper(text), "SELECT")
    ensures AcceptLlmSql(Some(text)) == Some(text)
  {
    StripFixed(text);
    ReplaceAbsent(text, "```sql", "");
    ReplaceAbsent(text, "```", "");
  }

  /** A fenced reply is accepted as the query between its fences. */
  lemma FencedQueryAccepted(body: string)
    requires '`' !in body && |body| > 0 && !IsSpace(body[0]) && !IsSpace(body[|body| - 1])
    requires StartsWith(Upper(body), "SELECT") || StartsWith(Upper(body), "WITH")
    ensures AcceptLlmSql(Some("```sql" + body + "```")) == Some(body)
  {
    Unfence(body);
    StripFixed(body);
  }

  /** Cleaning a fenced reply leaves the text between the fences. */
  lemma Unfence(body: string)
    requires '`' !in body && |body| > 0
    ensures Replace(Replace(Strip("```sql" + body + "```"), "```sql", ""), "```", "") == body
  {
    var u := body + "```";
    var text := "```sql" + u;
    assert "```sql" + body + "```" == text;
    StripFixed(text);
    ReplaceAtHead("```sql", u, "");
    NoOpeningBeforeFence(body);
    ReplaceAbsent(u, "```sql", "");
    assert Replace(text, "```sql", "") == u;
    ReplaceTrailingFence(body);
  }

  // ---- output cleaning ----

  /** `clean_string`: drop every "/n", turn a backslash-n pair into a newline, trim. */
  function CleanString(s: string): (r: string)
    ensures |r| == 0 || (!IsSpace(r[0]) && !IsSpace(r[|r| - 1]))
  {
    var t := TrimStart(Replace(Replace(s, "/n", ""), "\\n", "\n"));
    assert |TrimEnd(t)| > 0 ==> TrimEnd(t)[0] == t[0];
    Strip(Replace(Replace(s, "/n", ""), "\\n", "\n"))
  }

  /** `clean_dict`: strings are cleaned; dicts and lists are rebuilt member by member. */
  function CleanJson(j: Json): (r: Json)
    ensures r.JStr? <==> j.JStr?
    ensures j.JList? <==> r.JList?
    ensures j.JList? ==> |r.items| == |j.items|
    ensures j.JObj? <==> r.JObj?
    ensures j.JObj? ==> Keys(r.members) == Keys(j.members)
    ensures !(j.JStr? || j.JList? || j.JObj?) ==> r == j
    decreases j, 1
  {
    match j
    case JStr(s) => JStr(CleanString(s))
    case JList(items) => JList(CleanItems(items))
    case JObj(ms) => JObj(CleanMembers(ms))
    case _ => j
  }

  function CleanItems(items: seq<Json>): (r: seq<Json>)
    ensures |r| == |items|
    decreases items, 0
  {
    if |items| == 0 then [] else [CleanJson(items[0])] + CleanItems(items[1..])
  }

  function CleanMembers(ms: seq<Member>): (r: seq<Member>)
    ensures Keys(r) == Keys(ms)
    decreases ms, 0
  {
    if |ms| == 0 then [] else [Member(ms[0].key, CleanJson(ms[0].value))] + CleanMembers(ms[1..])
  }

  /** Two values with the same structure: same kind, same keys, same lengths, all the way down. */
  predicate SameShape(a: Json, b: Json)
    decreases a, 1
  {
    match a
    case JStr(_) => b.JStr?
    case JList(xs) => b.JList? && |xs| == |b.items| && SameShapeItems(xs, b.items)
    case JObj(ms) => b.JObj? && Keys(ms) == Keys(b.members) && SameShapeMembers(ms, b.members)
    case _ => a == b
  }

  predicate SameShapeItems(xs: seq<Json>, ys: seq<Json>)
    requires |xs| == |ys|
    decreases xs, 0
  {
    |xs| == 0 || (SameShape(xs[0], ys[0]) && SameShapeItems(xs[1..], ys[1..]))
  }

  predicate SameShapeMembers(ms: seq<Member>, ns: seq<Member>)
    requires |ms| == |ns|
    decreases ms, 0
  {
    |ms| == 0 || (SameShape(ms[0].value, ns[0].value) && SameShapeMembers(ms[1..], ns[1..]))
  }

  /** Cleaning keeps the structure: the same dict keys in the same order and the same list
      lengths at every level; only string leaves change, and every other leaf is kept. */
  lemma {:induction false} CleanKeepsShape(j: Json)
    ensures SameShape(j, CleanJson(j))
    decreases j, 1
  {
    match j
    case JList(items) => CleanItemsKeepShape(items);
    case JObj(ms) => CleanMembersKeepShape(ms);
    case _ =>
  }

  lemma {:induction false} CleanItemsKeepShape(items: seq<Json>)
    ensures SameShapeItems(items, CleanItems(items))
    decreases items, 0
  {
    if |items| > 0 {
      CleanKeepsShape(items[0]);
      CleanItemsKeepShape(items[1..]);
      assert CleanItems(items)[1..] == CleanItems(items[1..]);
    }
  }

  lemma {:induction false} CleanMembersKeepShape(ms: seq<Member>)
    ensures |CleanMembers(ms)| == |ms|
    ensures SameShapeMembers(ms, CleanMembers(ms))
    decreases ms, 0
  {
    if |ms| > 0 {
      CleanKeepsShape(ms[0].value);
      CleanMembersKeepShape(ms[1..]);
      assert CleanMembers(ms)[1..] == CleanMembers(ms[1..]);
    }
  }

  /** A string with neither marker and no surrounding whitespace is left as it is. */
  lemma CleanStringFixed(s: string)
    requires !Contains(s, "/n") && !Contains(s, "\\n")
    requires |s| > 0 && !IsSpace(s[0]) && !IsSpace(s[|s| - 1])
    ensures CleanString(s) == s
  {
    ReplaceAbsent(s, "/n", "");
    ReplaceAbsent(s, "\\n", "\n");
    StripFixed(s);
  }

  // ---- range selection in main ----

  const StartIndex: int := 1
  const EndIndex: int := 536

  /** The 1-based inclusive range check and slice; None when `main` returns early. */
  function SelectRange(all: seq<KpiInfo>, start: int, end: int): (r: Option<seq<KpiInfo>>)
    ensures r.Some? <==> 1 <= start <= end <= |all|
    ensures r.Some? ==> |r.value| == end - start + 1
    ensures r.Some? ==> forall i :: 0 <= i < |r.value| ==> r.value[i] == all[start - 1 + i]
  {
    if start < 1 || end > |all| then None
    else if start > end then None
    else Some(all[start - 1..end])
  }

  /** With the constants as shipped, the run goes ahead iff the file holds at least 536 KPIs,
      and then it takes the first 536. */
  lemma ShippedRange(all: seq<KpiInfo>)
    ensures SelectRange(all, StartIndex, EndIndex).Some? <==> |all| >= 536
    ensures |all| >= 536 ==> SelectRange(all, StartIndex, EndIndex).value == all[..536]
  {
  }

  // ---- schema checks (validate_sql_against_schema) ----

  /** Keys of `{field.get('name', '').lower(): field for field in fields}` in first-insertion
      order; None when building the dict raises (a field that is not a dict, a name that is
      not a string). */
  function FieldKeys(fields: seq<Json>): (r: Option<seq<string>>)
    decreases |fields|
  {
    if |fields| == 0 then Some([])
    else
      match FieldKeys(fields[..|fields| - 1])
      case None => None
      case Some(keys) =>
        match Get(fields[|fields| - 1], "name", JStr(""))
        case Some(JStr(n)) => var k := Lower(n); Some(if k in keys then keys else keys + [k])
        case _ => None
  }

  predicate Distinct(xs: seq<string>) { forall i, j :: 0 <= i < j < |xs| ==> xs[i] != xs[j] }

  /** The keys of a dict are distinct. */
  lemma {:induction false} FieldKeysDistinct(fields: seq<Json>)
    requires FieldKeys(fields).Some?
    ensures Distinct(FieldKeys(fields).value)
    decreases |fields|
  {
    if |fields| > 0 {
      FieldKeysDistinct(fields[..|fields| - 1]);
    }
  }

  /** The field keys of a schema: `table_schema.get('fields', [])`, then the dict above. */
  function SchemaKeys(schema: Json): (r: Option<seq<string>>)
    ensures r.Some? ==> schema.JObj?
  {
    match Get(schema, "fields", JList([]))
    case None => None
    case Some(fields) =>
      match Iter(fields)
      case None => None
      case Some(xs) => FieldKeys(xs)
  }

  /** The lower-cased text from the first "select" up to the first "from", when "from" comes later. */
  function SelectClause(sl: string): (r: Option<string>)
    ensures r.Some? ==> Contains(sl, "select") && Contains(sl, "from")
  {
    if !Contains(sl, "select") then None
    else
      var ss := Find(sl, "select").value;
      match Find(sl, "from")
      case Some(fs) => if fs > ss then Some(sl[ss..fs]) else None
      case None => None
  }

  /** The lower-cased text from the first "where" on. */
  function WhereClause(sl: string): Option<string> {
    if Contains(sl, "where") then Some(sl[Find(sl, "where").value..]) else None
  }

  predicate HasAggregateCall(clause: string) {
    Contains(clause, "count(") || Contains(clause, "sum(") || Contains(clause, "avg(")
    || Contains(clause, "min(") || Contains(clause, "max(")
  }

  /** A key the SELECT check reports. */
  predicate SelectFlagged(k: string, clause: string) {
    Contains(clause, k) && k !in ["count", "sum", "avg", "min", "max"] && !HasAggregateCall(clause)
    && !Contains(clause, " " + k + " ") && !Contains(clause, " " + k + ",")
  }

  /** A key the WHERE check reports. */
  predicate WhereFlagged(k: string, clause: string) {
    Contains(clause, k) && !Contains(clause, " " + k + " ") && !Contains(clause, " " + k + "=")
  }

  function SelectIssue(k: string): string { "Column '" + k + "' referenced " + "but may not " + "be properly formatted" }
  function WhereIssue(k: string): string { "Column '" + k + "' in " + "WHERE clause may not " + "be properly formatted" }

  function SelectIssues(keys: seq<string>, clause: string): (r: seq<string>)
    ensures |r| <= |keys|
    decreases |keys|
  {
    if |keys| == 0 then []
    else
      var k := keys[|keys| - 1];
      SelectIssues(keys[..|keys| - 1], clause) + (if SelectFlagged(k, clause) then [SelectIssue(k)] else [])
  }

  function WhereIssues(keys: seq<string>, clause: string): (r: seq<string>)
    ensures |r| <= |keys|
    decreases |keys|
  {
    if |keys| == 0 then []
    else
      var k := keys[|keys| - 1];
      WhereIssues(keys[..|keys| - 1], clause) + (if WhereFlagged(k, clause) then [WhereIssue(k)] else [])
  }

  /** A key is reported by the SELECT check exactly when it is flagged there. */
  lemma {:induction false} SelectIssuesIff(keys: seq<string>, clause: string, k: string)
    ensures SelectIssue(k) in SelectIssues(keys, clause) <==> k in keys && SelectFlagged(k, clause)
    decreases |keys|
  {
    if |keys| > 0 {
      SelectIssuesIff(keys[..|keys| - 1], clause, k);
      var last := keys[|keys| - 1];
      assert keys == keys[..|keys| - 1] + [last];
      if SelectIssue(k) == SelectIssue(last) {
        IssueNameInjective("Column '", k, last, "' referenced ", "but may not ", "be properly formatted");
      }
    }
  }

  /** The key can be read back from the issue text. */
  lemma IssueNameInjective(pre: string, k1: string, k2: string, a: string, b: string, c: string)
    requires pre + k1 + a + b + c == pre + k2 + a + b + c
    ensures k1 == k2
  {
    var s1, s2 := pre + k1 + a + b + c, pre + k2 + a + b + c;
    assert |k1| == |k2|;
    assert s1[|pre|..|pre| + |k1|] == k1;
    assert s2[|pre|..|pre| + |k2|] == k2;
  }

  function SyntaxIssues(sl: string): seq<string> {
    (if Count(sl, "select") != 1 then ["Multiple SELECT statements detected"] else [])
    + (if !Contains(sl, "from") then ["Missing FROM clause"] else [])
    + (if Count(sl, "from") != 1 then ["Multiple FROM clauses detected"] else [])
  }

  predicate SyntaxOk(sl: string) { Count(sl, "select") == 1 && Contains(sl, "from") && Count(sl, "from") == 1 }

  lemma SyntaxIssuesIff(sl: string)
    ensures SyntaxIssues(sl) == [] <==> SyntaxOk(sl)
  {
  }

  function TableIssue(tn: string): string { "Table '" + tn + "' not referenced in FROM clause" }

  /** The issue filed when the check raises; the script appends the exception's text,
      which the model does not have. */
  const SchemaErrorIssue: string := "Schema validation error: "

  datatype SchemaCheck = SchemaCheck(isValid: bool, issues: seq<string>, suggestion: Option<string>)

  /** The issues of the column, syntax and table checks before the table-name lookup. */
  function ColumnAndSyntaxIssues(keys: seq<string>, sl: string): seq<string> {
    (match SelectClause(sl) case Some(c) => SelectIssues(keys, c) case None => [])
    + (match WhereClause(sl) case Some(c) => WhereIssues(keys, c) case None => [])
    + SyntaxIssues(sl)
  }

  /** `validate_sql_against_schema(sql, schema)`; a raise inside the check becomes a
      last issue and an invalid verdict. */
  function SchemaCheckOf(sql: string, schema: Json): (r: SchemaCheck)
    ensures r.suggestion.None?
    ensures r.isValid <==>
      SchemaKeys(schema).Some? && Get(schema, "name", JStr("")).value.JStr?
      && SyntaxOk(Lower(sql))
      && var tn := Lower(Get(schema, "name", JStr("")).value.s); (|tn| == 0 || Contains(Lower(sql), tn))
    ensures !r.isValid ==> r.issues != []
  {
    var sl := Lower(sql);
    match SchemaKeys(schema)
    case None => SchemaCheck(false, [SchemaErrorIssue], None)
    case Some(keys) =>
      var issues := ColumnAndSyntaxIssues(keys, sl);
      SyntaxIssuesIff(sl);
      match Get(schema, "name", JStr("")).value
      case JStr(n) =>
        var tn := Lower(n);
        if |tn| > 0 && !Contains(sl, tn) then SchemaCheck(false, issues + [TableIssue(tn)], None)
        else SchemaCheck(SyntaxOk(sl), issues, None)
      case _ => SchemaCheck(false, issues + [SchemaErrorIssue], None)
  }

  /** A SQL text without "from" draws both FROM issues: the count check fires as well. */
  lemma MissingFromReportedTwice(sql: string, schema: Json)
    requires SchemaKeys(schema).Some? && !Contains(Lower(sql), "from")
    ensures "Missing FROM clause" in SchemaCheckOf(sql, schema).issues
    ensures "Multiple FROM clauses detected" in SchemaCheckOf(sql, schema).issues
  {
    var sl := Lower(sql);
    CountZeroIffAbsent(sl, "from");
    SyntaxIssueReported(sql, schema, "Missing FROM clause");
    SyntaxIssueReported(sql, schema, "Multiple FROM clauses detected");
  }

  /** Every syntax issue is among the issues of the check, once the schema's fields are read. */
  lemma SyntaxIssueReported(sql: string, schema: Json, x: string)
    requires SchemaKeys(schema).Some? && x in SyntaxIssues(Lower(sql))
    ensures x in SchemaCheckOf(sql, schema).issues
  {
    var sl := Lower(sql);
    var keys := SchemaKeys(schema).value;
    var front := (match SelectClause(sl) case Some(c) => SelectIssues(keys, c) case None => [])
      + (match WhereClause(sl) case Some(c) => WhereIssues(keys, c) case None => []);
    assert ColumnAndSyntaxIssues(keys, sl) == front + SyntaxIssues(sl);
    assert x in ColumnAndSyntaxIssues(keys, sl);
  }

  /** The SELECT loop: one issue per flagged key, in key order. */
  method SelectLoop(keys: seq<string>, clause: string) returns (issues: seq<string>)
    ensures issues == SelectIssues(keys, clause)
  {
    issues := [];
    var i := 0;
    while i < |keys|
      invariant 0 <= i <= |keys|
      invariant issues == SelectIssues(keys[..i], clause)
    {
      assert keys[..i + 1][..i] == keys[..i];
      if SelectFlagged(keys[i], clause) {
        issues := issues + [SelectIssue(keys[i])];
      }
      i := i + 1;
    }
    assert keys[..|keys|] == keys;
  }

  /** The WHERE loop. */
  method WhereLoop(keys: seq<string>, clause: string) returns (issues: seq<string>)
    ensures issues == WhereIssues(keys, clause)
  {
    issues := [];
    var i := 0;
    while i < |keys|
      invariant 0 <= i <= |keys|
      invariant issues == WhereIssues(keys[..i], clause)
    {
      assert keys[..i + 1][..i] == keys[..i];
      if WhereFlagged(keys[i], clause) {
        issues := issues + [WhereIssue(keys[i])];
      }
      i := i + 1;
    }
    assert keys[..|keys|] == keys;
  }

  /** `validate_sql_against_schema`: the two column loops, then the syntax and table checks. */
  method ValidateSqlAgainstSchema(sql: string, schema: Json) returns (isValid: bool, issues: seq<string>, suggestion: Option<string>)
    ensures SchemaCheck(isValid, issues, suggestion) == SchemaCheckOf(sql, schema)
  {
    var sl := Lower(sql);
    var keysOrNone := SchemaKeys(schema);
    if keysOrNone.None? {
      return false, [SchemaErrorIssue], None;
    }
    var keys := keysOrNone.value;
    var selectIssues: seq<string> := [];
    var whereIssues: seq<string> := [];
    var select := SelectClause(sl);
    if select.Some? {
      selectIssues := SelectLoop(keys, select.value);
    }
    var where := WhereClause(sl);
    if where.Some? {
      whereIssues := WhereLoop(keys, where.value);
    }
    issues := selectIssues + whereIssues + SyntaxIssues(sl);
    assert issues == ColumnAndSyntaxIssues(keys, sl);
    var name := Get(schema, "name", JStr("")).value;
    if !name.JStr? {
      return false, issues + [SchemaErrorIssue], None;
    }
    var tn := Lower(name.s);
    if |tn| > 0 && !Contains(sl, tn) {
      return false, issues + [TableIssue(tn)], None;
    }
    return SyntaxOk(sl), issues, None;
  }

  // ---- rule-based and LLM fixes (fix_sql_issues) ----

  predicate IsWordChar(c: char) { 'a' <= c <= 'z' || 'A' <= c <= 'Z' || '0' <= c <= '9' || c == '_' }

  /** End of the run of word characters starting at i. */
  function WordEnd(s: string, i: nat): (r: nat)
    requires i <= |s|
    ensures i <= r <= |s|
    ensures forall j :: i <= j < r ==> IsWordChar(s[j])
    ensures r < |s| ==> !IsWordChar(s[r])
    decreases |s| - i
  {
    if i < |s| && IsWordChar(s[i]) then WordEnd(s, i + 1) else i
  }

  /** `from\s+\w+`, ignoring case, matches at p. */
  predicate FromMatchAt(s: string, p: nat) {
    p + 4 <= |s|
    && LowerChar(s[p]) == 'f' && LowerChar(s[p + 1]) == 'r' && LowerChar(s[p + 2]) == 'o' && LowerChar(s[p + 3]) == 'm'
    && var q := SpaceEnd(s, p + 4); q > p + 4 && q < |s| && IsWordChar(s[q])
  }

  /** Where that match ends. */
  function FromMatchEnd(s: string, p: nat): (r: nat)
    requires FromMatchAt(s, p)
    ensures p + 6 <= r <= |s|
  {
    WordEnd(s, SpaceEnd(s, p + 4))
  }

  /** `re.sub(r'from\s+\w+', rep, s[i..], flags=re.IGNORECASE)` */
  function FromSub(s: string, i: nat, rep: string): string
    requires i <= |s|
    decreases |s| - i
  {
    if i == |s| then ""
    else if FromMatchAt(s, i) then rep + FromSub(s, FromMatchEnd(s, i), rep)
    else [s[i]] + FromSub(s, i + 1, rep)
  }

  /** Without a match the substitution changes nothing. */
  lemma {:induction false} FromSubNoMatch(s: string, i: nat, rep: string)
    requires i <= |s|
    requires forall p :: i <= p < |s| ==> !FromMatchAt(s, p)
    ensures FromSub(s, i, rep) == s[i..]
    decreases |s| - i
  {
    if i < |s| {
      FromSubNoMatch(s, i + 1, rep);
      assert s[i..] == [s[i]] + s[i + 1..];
    }
  }

  /** The first match is replaced, the text before it is kept, and the scan resumes after it. */
  lemma {:induction false} FromSubFirstMatch(s: string, i: nat, p: nat, rep: string)
    requires i <= p < |s| && FromMatchAt(s, p)
    requires forall j :: i <= j < p ==> !FromMatchAt(s, j)
    ensures FromSub(s, i, rep) == s[i..p] + rep + FromSub(s, FromMatchEnd(s, p), rep)
    decreases p - i
  {
    var tail := FromSub(s, FromMatchEnd(s, p), rep);
    if i == p {
      assert FromSub(s, i, rep) == rep + tail;
      SliceEmpty(s, i, rep, tail);
    } else {
      assert !FromMatchAt(s, i);
      assert FromSub(s, i, rep) == [s[i]] + FromSub(s, i + 1, rep);
      FromSubFirstMatch(s, i + 1, p, rep);
      SliceCons(s, i, p, rep, tail);
    }
  }

  lemma SliceEmpty(s: string, i: nat, a: string, b: string)
    requires i <= |s|
    ensures a + b == s[i..i] + a + b
  {
    assert s[i..i] == [];
  }

  /** Peeling the first character off a slice, in front of any text. */
  lemma SliceCons(s: string, i: nat, p: nat, a: string, b: string)
    requires i < p <= |s|
    ensures [s[i]] + (s[i + 1..p] + a + b) == s[i..p] + a + b
  {
    assert s[i..p] == [s[i]] + s[i + 1..p];
  }

  function SpacingPattern(k: string): string { " " + k + " " }
  function SpacingFix(k: string): string { "Fixed spacing around column '" + k + "'" }
  function TableFix(t: string): string { "Fixed table reference to '" + t + "'" }
  /** The entry filed when fixing raises, without the exception's text that follows it. */
  const FixErrorEntry: string := "Error during SQL fixing: "
  const LlmFixEntry: string := "Applied LLM-based SQL fixes"

  /** The spacing loop run for one formatting issue: the padded form of each key found in
      the SQL is replaced by itself. */
  function SpacingPass(fixed: string, sql: string, keys: seq<string>): (r: (string, seq<string>))
    ensures |r.1| <= |keys|
    decreases |keys|
  {
    if |keys| == 0 then (fixed, [])
    else
      var prev := SpacingPass(fixed, sql, keys[..|keys| - 1]);
      var k := keys[|keys| - 1];
      if Contains(Lower(sql), k) && Contains(sql, SpacingPattern(k))
      then (Replace(prev.0, SpacingPattern(k), SpacingPattern(k)), prev.1 + [SpacingFix(k)])
      else prev
  }

  /** The spacing "fix" replaces a pattern with the identical string: the SQL never changes,
      although a fix entry is recorded.  The branch is taken only for an issue holding
      "not properly formatted", which the schema check's own issues do not hold unless the
      column name does (SchemaIssuesSkipSpacing). */
  lemma {:induction false} SpacingPassKeepsSql(fixed: string, sql: string, keys: seq<string>)
    ensures SpacingPass(fixed, sql, keys).0 == fixed
    decreases |keys|
  {
    if |keys| > 0 {
      SpacingPassKeepsSql(fixed, sql, keys[..|keys| - 1]);
      ReplaceSame(fixed, SpacingPattern(keys[|keys| - 1]));
    }
  }

  /** The issues of the schema check say "may not be properly formatted", which does not
      hold "not properly formatted": the spacing branch fires on one of them only when the
      column name itself holds that phrase. */
  lemma SchemaIssuesSkipSpacing(k: string)
    requires !Contains(k, "not properly formatted")
    ensures !Contains(SelectIssue(k), "not properly formatted")
    ensures !Contains(WhereIssue(k), "not properly formatted")
  {
    var t := "not properly formatted";
    PhraseFacts();
    IssueAvoids(k, "' referenced ", "but may not ", "be properly formatted", t);
    IssueAvoids(k, "' in ", "WHERE clause may not ", "be properly formatted", t);
  }

  /** The characters that cut the issue texts lie outside the phrase. */
  lemma PhraseFacts()
    ensures var t := "not properly formatted";
      |t| == 22 && '\'' !in t && 'b' !in t && 'W' !in t
    ensures "' referenced "[0] == '\'' && "but may not "[0] == 'b' && "be properly formatted"[0] == 'b'
    ensures "' in "[0] == '\'' && "WHERE clause may not "[0] == 'W'
  {
  }

  /** An issue text `Column '<k>` + `a` + `b` + `c`, where `a` opens with the closing
      quote and each piece opens with a character outside `t` and is no longer than `t`,
      holds `t` only if the name does. */
  lemma IssueAvoids(k: string, a: string, b: string, c: string, t: string)
    requires |a| > 0 && |b| > 0 && |c| > 0 && a[0] == '\'' && b[0] !in t && c[0] !in t && '\'' !in t
    requires 7 < |t| && |a| <= |t| && |b| <= |t| && |c| <= |t|
    requires !Contains(k, t)
    ensures !Contains("Column '" + k + a + b + c, t)
  {
    ShortAbsent(a[1..], t);
    ShortAbsent(b[1..], t);
    ShortAbsent(c[1..], t);
    ShortAbsent("Column ", t);
    AbsentAround(b[1..], c[0], c[1..], t);
    assert b[1..] + [c[0]] + c[1..] == b[1..] + c;
    AbsentAround(a[1..], b[0], b[1..] + c, t);
    assert a[1..] + [b[0]] + (b[1..] + c) == a[1..] + b + c;
    AbsentAround("Column ", '\'', k, t);
    assert "Column " + ['\''] + k == "Column '" + k;
    AbsentAround("Column '" + k, a[0], a[1..] + b + c, t);
    assert ("Column '" + k) + [a[0]] + (a[1..] + b + c) == "Column '" + k + a + b + c;
  }

  datatype FixAcc = FixAcc(fixedSql: string, fixes: seq<string>, raised: bool)

  /** One issue of the rule-based loop; `name` is `table_schema.get('name', '')`. */
  function FixIssue(acc: FixAcc, sql: string, keys: seq<string>, name: Json, issue: string): FixAcc {
    if Contains(issue, "Column") && Contains(issue, "not properly formatted") then
      var pass := SpacingPass(acc.fixedSql, sql, keys);
      FixAcc(pass.0, acc.fixes + pass.1, false)
    else if Contains(issue, "Table") && Contains(issue, "not referenced") then
      if !Truthy(name) then acc
      else if !name.JStr? then acc.(raised := true) // `name not in sql` raises TypeError
      else if !Contains(sql, name.s) && Contains(Lower(sql), "from") then
        FixAcc(FromSub(sql, 0, "FROM " + name.s), acc.fixes + [TableFix(name.s)], false)
      else acc
    else acc
  }

  /** The rule-based loop over the issues, stopping at a raise. */
  function FixRules(sql: string, keys: seq<string>, name: Json, issues: seq<string>): FixAcc
    decreases |issues|
  {
    if |issues| == 0 then FixAcc(sql, [], false)
    else
      var acc := FixRules(sql, keys, name, issues[..|issues| - 1]);
      if acc.raised then acc else FixIssue(acc, sql, keys, name, issues[|issues| - 1])
  }

  /** The rule-based result is the SQL itself or its FROM rewrite. */
  lemma {:induction false} FixRulesSources(sql: string, keys: seq<string>, name: Json, issues: seq<string>)
    ensures var f := FixRules(sql, keys, name, issues).fixedSql;
      f == sql || (name.JStr? && f == FromSub(sql, 0, "FROM " + name.s))
    decreases |issues|
  {
    if |issues| > 0 {
      var acc := FixRules(sql, keys, name, issues[..|issues| - 1]);
      FixRulesSources(sql, keys, name, issues[..|issues| - 1]);
      SpacingPassKeepsSql(acc.fixedSql, sql, keys);
    }
  }

  /** Formatting issues alone never change the SQL. */
  lemma {:induction false} FormattingIssuesKeepSql(sql: string, keys: seq<string>, name: Json, issues: seq<string>)
    requires forall i :: 0 <= i < |issues| ==> !(Contains(issues[i], "Table") && Contains(issues[i], "not referenced"))
    ensures FixRules(sql, keys, name, issues).fixedSql == sql
    decreases |issues|
  {
    if |issues| > 0 {
      var acc := FixRules(sql, keys, name, issues[..|issues| - 1]);
      FormattingIssuesKeepSql(sql, keys, name, issues[..|issues| - 1]);
      SpacingPassKeepsSql(acc.fixedSql, sql, keys);
    }
  }

  datatype FixResult = FixResult(fixedSql: string, fixesApplied: seq<string>)

  /** `fix_sql_issues(sql, schema, issues)`; `llm` is what `fix_sql_with_llm` returned. */
  function FixSqlIssuesOf(sql: string, schema: Json, issues: seq<string>, llm: Option<string>): (r: FixResult)
    ensures SchemaKeys(schema).None? ==> r == FixResult(sql, [FixErrorEntry])
  {
    match SchemaKeys(schema)
    case None => FixResult(sql, [FixErrorEntry])
    case Some(keys) =>
      var acc := FixRules(sql, keys, Get(schema, "name", JStr("")).value, issues);
      if acc.raised then FixResult(acc.fixedSql, acc.fixes + [FixErrorEntry])
      else if |issues| > 0 && llm.Some? && |llm.value| > 0 && llm.value != sql then
        FixResult(llm.value, acc.fixes + [LlmFixEntry])
      else FixResult(acc.fixedSql, acc.fixes)
  }

  /** When the rules run through and the LLM offers a different non-empty query, that query
      replaces any rule-based fix. */
  lemma LlmOverridesRules(sql: string, schema: Json, issues: seq<string>, llm: Option<string>)
    requires SchemaKeys(schema).Some?
    requires !FixRules(sql, SchemaKeys(schema).value, Get(schema, "name", JStr("")).value, issues).raised
    requires |issues| > 0 && llm.Some? && |llm.value| > 0 && llm.value != sql
    ensures FixSqlIssuesOf(sql, schema, issues, llm).fixedSql == llm.value
    ensures LlmFixEntry in FixSqlIssuesOf(sql, schema, issues, llm).fixesApplied
  {
  }

  /** The fixed SQL is the SQL itself, its FROM rewrite, or the LLM's query. */
  lemma FixedSqlSources(sql: string, schema: Json, issues: seq<string>, llm: Option<string>)
    ensures var f := FixSqlIssuesOf(sql, schema, issues, llm).fixedSql;
      f == sql || (llm.Some? && f == llm.value)
      || (Get(schema, "name", JStr("")).Some? && Get(schema, "name", JStr("")).value.JStr?
          && f == FromSub(sql, 0, "FROM " + Get(schema, "name", JStr("")).value.s))
  {
    if SchemaKeys(schema).Some? {
      FixRulesSources(sql, SchemaKeys(schema).value, Get(schema, "name", JStr("")).value, issues);
    }
  }

  // ---- the per-KPI loop (validate_and_fix_kpis) ----

  /** One element of `kpis_to_process`; `fixesApplied` is the `sql_fixes_applied` key the
      loop adds to the KPI dict. */
  datatype Item = Item(info: KpiInfo, fixesApplied: Option<seq<string>>)

  /** What the run sees besides the KPIs: the rating LLM's reply for a KPI (None when the
      call raised), `get_table_schema` for a table (JNull for None), and the fixing LLM's reply. */
  datatype AssessEnv = AssessEnv(assessReply: Item -> Option<string>, schemaOf: string -> Json,
                                 fixReply: Item -> Option<string>)

  datatype Assessment = Assessment(kpiName: string, tableName: string, highValue: bool, reason: string)
  datatype ValidationStatus = Skipped | Passed | Unfixable
  datatype SqlValidation = SqlValidation(kpiName: string, tableName: string, sql: string, issues: seq<string>,
                                         status: ValidationStatus)
  datatype SqlFix = SqlFix(kpiName: string, tableName: string, originalSql: string, fixedSql: string,
                           fixesApplied: seq<string>)
  datatype Removal = Removal(kpiName: string, tableName: string, reason: string)

  /** `self.validation_results` */
  datatype Counters = Counters(
    totalKpis: nat, businessValueAssessed: nat, highValue: nat, lowValue: nat,
    passed: nat, failed: nat, fixesApplied: nat, unfixable: nat, removed: nat)

  const ZeroCounters: Counters := Counters(0, 0, 0, 0, 0, 0, 0, 0, 0)

  /** The four lists the method returns. */
  datatype Outputs = Outputs(assessments: seq<Assessment>, validations: seq<SqlValidation>,
                             fixes: seq<SqlFix>, removals: seq<Removal>)

  const NoOutputs: Outputs := Outputs([], [], [], [])

  datatype Run = Run(counters: Counters, out: Outputs)

  /** `any("Error" not in fix for fix in fixes)` */
  predicate AnyWithoutError(fixes: seq<string>) { exists i :: 0 <= i < |fixes| && !Contains(fixes[i], "Error") }

  /** The loop body for one KPI: the new run state and the KPI as the loop leaves it.  The
      rating, the table schema, the schema check and the fix are computed here; each is used
      only on the branch of the loop that asks for it. */
  function Step(run: Run, item: Item, env: AssessEnv): (Run, Item) {
    var sql := OrDefault(item.info.kpi.sql, "");
    var schema := env.schemaOf(item.info.tableName);
    var check := SchemaCheckOf(sql, schema);
    StepWith(run, item, ParseRating(env.assessReply(item)), schema, check,
             FixSqlIssuesOf(sql, schema, check.issues, AcceptLlmSql(env.fixReply(item))))
  }

  /** The loop body given the KPI's rating, its table schema, the schema check of its SQL
      and what `fix_sql_issues` returns for it. */
  function StepWith(run: Run, item: Item, rating: (bool, string), schema: Json, check: SchemaCheck, fix: FixResult): (Run, Item) {
    var name := OrDefault(item.info.kpi.name, "KPI_N/A");
    var sql := OrDefault(item.info.kpi.sql, "");
    if !rating.0 then LowStep(run, item, name, rating.1)
    else
      var high := run.(counters := run.counters.(highValue := run.counters.highValue + 1));
      if !Truthy(schema) then SkipStep(high, item, name, sql)
      else CheckedStep(high, item, name, sql, rating.1, check, fix)
  }

  /** A low-value KPI: logged for removal, nothing else. */
  function LowStep(run: Run, item: Item, name: string, reason: string): (Run, Item) {
    var c := run.counters;
    var o := run.out;
    (Run(c.(lowValue := c.lowValue + 1),
         o.(removals := o.removals + [Removal(name, item.info.tableName, "Low business value: " + reason)])), item)
  }

  /** A high-value KPI whose table has no schema: recorded as skipped. */
  function SkipStep(run: Run, item: Item, name: string, sql: string): (Run, Item) {
    var o := run.out;
    (Run(run.counters, o.(validations := o.validations + [SqlValidation(name, item.info.tableName, sql, ["Could not get table schema"], Skipped)])), item)
  }

  /** A high-value KPI whose schema was found: passed, or handed to the fixing step with its
      assessment logged.  `fix` is what `fix_sql_issues` returns for it, used only when the
      check fails. */
  function CheckedStep(run: Run, item: Item, name: string, sql: string, reason: string,
                       check: SchemaCheck, fix: FixResult): (Run, Item) {
    var table := item.info.tableName;
    var o := run.out.(assessments := run.out.assessments + [Assessment(name, table, true, reason)]);
    if check.isValid && |check.issues| == 0 then
      (Run(run.counters.(passed := run.counters.passed + 1),
           o.(validations := o.validations + [SqlValidation(name, table, sql, [], Passed)])), item)
    else
      FixStep(Run(run.counters, o), item, name, sql, check.issues, fix)
  }

  /** A KPI whose validation failed, with its assessment already logged: filed as fixed
      (its SQL rewritten) when some fix entry is not an error, as unfixable otherwise. */
  function FixStep(run: Run, item: Item, name: string, sql: string, issues: seq<string>, fix: FixResult): (Run, Item) {
    var table := item.info.tableName;
    var o := run.out;
    var c := run.counters.(failed := run.counters.failed + 1, totalKpis := run.counters.totalKpis + 1,
                           businessValueAssessed := run.counters.businessValueAssessed + 1);
    if |fix.fixesApplied| > 0 && AnyWithoutError(fix.fixesApplied) then
      var fixed := Item(item.info.(kpi := item.info.kpi.(sql := Some(fix.fixedSql))), Some(fix.fixesApplied));
      (Run(c.(fixesApplied := c.fixesApplied + 1),
           o.(fixes := o.fixes + [SqlFix(name, table, sql, fix.fixedSql, fix.fixesApplied)])), fixed)
    else
      (Run(c.(unfixable := c.unfixable + 1),
           o.(validations := o.validations + [SqlValidation(name, table, sql, issues, Unfixable)],
              removals := o.removals + [Removal(name, table, "Unfixable SQL issues: " + Join(issues, ", "))])), item)
  }

  /** The loop over all KPIs, in order. */
  function RunAll(run: Run, items: seq<Item>, env: AssessEnv): (r: (Run, seq<Item>))
    ensures |r.1| == |items|
    decreases |items|
  {
    if |items| == 0 then (run, [])
    else
      var prev := RunAll(run, items[..|items| - 1], env);
      var st := Step(prev.0, items[|items| - 1], env);
      (st.0, prev.1 + [st.1])
  }

  /** Running the loop over one more KPI is one more step. */
  lemma RunAllSnoc(run: Run, items: seq<Item>, i: nat, env: AssessEnv)
    requires i < |items|
    ensures var prev := RunAll(run, items[..i], env);
      RunAll(run, items[..i + 1], env) == (Step(prev.0, items[i], env).0, prev.1 + [Step(prev.0, items[i], env).1])
  {
    assert items[..i + 1][..i] == items[..i];
  }

  /** What the counters and lists keep in step: `total_kpis` and `business_value_assessed`
      move only with failed validations, `removed_kpis` never moves although removals are
      logged, and every high-value KPI is either validated, skipped or fixed. */
  predicate Inv(run: Run) { InvGap(run, 0, 0) }

  /** `Inv` part-way through one KPI: `pendingHigh` high-value KPIs not yet filed as validated,
      skipped or fixed, and `pendingAssess` assessments logged ahead of their counter. */
  predicate InvGap(run: Run, pendingHigh: nat, pendingAssess: nat) {
    var c := run.counters;
    var o := run.out;
    c.totalKpis == c.businessValueAssessed == c.failed == c.fixesApplied + c.unfixable
    && c.removed == 0
    && |o.removals| == c.lowValue + c.unfixable
    && |o.assessments| == c.passed + c.failed + pendingAssess
    && |o.validations| + c.fixesApplied + pendingHigh == c.highValue
    && |o.fixes| == c.fixesApplied
  }

  lemma LowStepKeepsInv(run: Run, item: Item, name: string, reason: string)
    requires Inv(run)
    ensures Inv(LowStep(run, item, name, reason).0)
    ensures LowStep(run, item, name, reason).0.counters.highValue == run.counters.highValue
    ensures LowStep(run, item, name, reason).0.counters.lowValue == run.counters.lowValue + 1
  {
  }

  lemma FixStepKeepsInv(run: Run, item: Item, name: string, sql: string, issues: seq<string>, fix: FixResult)
    requires InvGap(run, 1, 1)
    ensures Inv(FixStep(run, item, name, sql, issues, fix).0)
    ensures FixStep(run, item, name, sql, issues, fix).0.counters.highValue == run.counters.highValue
    ensures FixStep(run, item, name, sql, issues, fix).0.counters.lowValue == run.counters.lowValue
  {
  }

  lemma CheckedStepKeepsInv(run: Run, item: Item, name: string, sql: string, reason: string, check: SchemaCheck, fix: FixResult)
    requires InvGap(run, 1, 0)
    ensures Inv(CheckedStep(run, item, name, sql, reason, check, fix).0)
    ensures CheckedStep(run, item, name, sql, reason, check, fix).0.counters.highValue == run.counters.highValue
    ensures CheckedStep(run, item, name, sql, reason, check, fix).0.counters.lowValue == run.counters.lowValue
  {
    if !(check.isValid && |check.issues| == 0) {
      var o := run.out.(assessments := run.out.assessments + [Assessment(name, item.info.tableName, true, reason)]);
      FixStepKeepsInv(Run(run.counters, o), item, name, sql, check.issues, fix);
    }
  }

  lemma StepWithKeepsInv(run: Run, item: Item, rating: (bool, string), schema: Json, check: SchemaCheck, fix: FixResult)
    requires Inv(run)
    ensures Inv(StepWith(run, item, rating, schema, check, fix).0)
    ensures var c := StepWith(run, item, rating, schema, check, fix).0.counters;
      c.highValue + c.lowValue == run.counters.highValue + run.counters.lowValue + 1
  {
    var name := OrDefault(item.info.kpi.name, "KPI_N/A");
    var sql := OrDefault(item.info.kpi.sql, "");
    if !rating.0 {
      LowStepKeepsInv(run, item, name, rating.1);
    } else if Truthy(schema) {
      CheckedStepKeepsInv(run.(counters := run.counters.(highValue := run.counters.highValue + 1)), item, name, sql, rating.1, check, fix);
    }
  }

  lemma StepKeepsInv(run: Run, item: Item, env: AssessEnv)
    requires Inv(run)
    ensures Inv(Step(run, item, env).0)
    ensures var c := Step(run, item, env).0.counters;
      c.highValue + c.lowValue == run.counters.highValue + run.counters.lowValue + 1
  {
    var sql := OrDefault(item.info.kpi.sql, "");
    var schema := env.schemaOf(item.info.tableName);
    var check := SchemaCheckOf(sql, schema);
    StepWithKeepsInv(run, item, ParseRating(env.assessReply(item)), schema, check,
                     FixSqlIssuesOf(sql, schema, check.issues, AcceptLlmSql(env.fixReply(item))));
  }

  lemma {:induction false} RunAllKeepsInv(run: Run, items: seq<Item>, env: AssessEnv)
    requires Inv(run)
    ensures Inv(RunAll(run, items, env).0)
    ensures var c := RunAll(run, items, env).0.counters;
      c.highValue + c.lowValue == run.counters.highValue + run.counters.lowValue + |items|
    decreases |items|
  {
    if |items| > 0 {
      RunAllKeepsInv(run, items[..|items| - 1], env);
      StepKeepsInv(RunAll(run, items[..|items| - 1], env).0, items[|items| - 1], env);
    }
  }

  /** A low-value KPI is logged for removal and skipped: no assessment entry, no validation,
      and the KPI is left as it was. */
  lemma LowValueSkipped(run: Run, item: Item, env: AssessEnv)
    requires !ParseRating(env.assessReply(item)).0
    ensures Step(run, item, env).1 == item
    ensures Step(run, item, env).0.out.assessments == run.out.assessments
    ensures Step(run, item, env).0.out.validations == run.out.validations
    ensures |Step(run, item, env).0.out.removals| == |run.out.removals| + 1
  {
  }

  /** A KPI whose table has no schema is recorded as skipped and never assessed. */
  lemma NoSchemaSkipped(run: Run, item: Item, env: AssessEnv)
    requires ParseRating(env.assessReply(item)).0 && !Truthy(env.schemaOf(item.info.tableName))
    ensures Step(run, item, env).1 == item
    ensures Step(run, item, env).0.out.assessments == run.out.assessments
    ensures Step(run, item, env).0.out.validations[|run.out.validations|].status == Skipped
  {
  }

  /** What the loop may do to a KPI: keep it, or rewrite only its SQL to the fixed SQL
      filed at index `k` of the fix list. */
  predicate RewritesOnlySql(item: Item, st: (Run, Item), k: nat) {
    st.1.info.tableName == item.info.tableName
    && st.1.info.kpi.name == item.info.kpi.name
    && st.1.info.kpi.description == item.info.kpi.description
    && st.1.info.kpi.businessValue == item.info.kpi.businessValue
    && (st.1 != item ==> k < |st.0.out.fixes| && st.1.info.kpi.sql == Some(st.0.out.fixes[k].fixedSql))
  }

  lemma CheckedStepRewritesOnlySql(run: Run, item: Item, name: string, sql: string, reason: string, check: SchemaCheck, fix: FixResult)
    ensures RewritesOnlySql(item, CheckedStep(run, item, name, sql, reason, check, fix), |run.out.fixes|)
  {
  }

  lemma StepWithRewritesOnlySql(run: Run, item: Item, rating: (bool, string), schema: Json, check: SchemaCheck, fix: FixResult)
    ensures RewritesOnlySql(item, StepWith(run, item, rating, schema, check, fix), |run.out.fixes|)
  {
    if rating.0 && Truthy(schema) {
      CheckedStepRewritesOnlySql(run.(counters := run.counters.(highValue := run.counters.highValue + 1)), item,
                                 OrDefault(item.info.kpi.name, "KPI_N/A"), OrDefault(item.info.kpi.sql, ""), rating.1, check, fix);
    }
  }

  /** The loop rewrites only the SQL of a KPI, and only when it files a fix for it. */
  lemma StepRewritesOnlySql(run: Run, item: Item, env: AssessEnv)
    ensures RewritesOnlySql(item, Step(run, item, env), |run.out.fixes|)
  {
    var sql := OrDefault(item.info.kpi.sql, "");
    var schema := env.schemaOf(item.info.tableName);
    var check := SchemaCheckOf(sql, schema);
    StepWithRewritesOnlySql(run, item, ParseRating(env.assessReply(item)), schema, check,
                            FixSqlIssuesOf(sql, schema, check.issues, AcceptLlmSql(env.fixReply(item))));
  }

  class BusinessAssessor {
    var counters: Counters

    constructor ()
      ensures counters == ZeroCounters
    {
      counters := ZeroCounters;
    }

    /** `validate_and_fix_kpis`: nothing happens unless authentication succeeded and a
        database id was found; then each KPI is processed in order and its SQL rewritten
        in place when a fix is filed. */
    method ValidateAndFixKpis(items: array<Item>, authenticated: bool, databaseId: Json, env: AssessEnv)
      returns (out: Outputs)
      modifies this, items
      ensures !authenticated || !Truthy(databaseId) ==>
        out == NoOutputs && counters == old(counters) && items[..] == old(items[..])
      ensures authenticated && Truthy(databaseId) ==>
        (Run(counters, out), items[..]) == RunAll(Run(old(counters), NoOutputs), old(items[..]), env)
    {
      out := NoOutputs;
      if !authenticated || !Truthy(databaseId) {
        return;
      }
      out := ProcessAll(items, env);
    }

    /** The loop over `kpis_to_process`, rewriting each KPI's SQL in place. */
    method ProcessAll(items: array<Item>, env: AssessEnv) returns (out: Outputs)
      modifies this, items
      ensures Run(counters, out) == RunAll(Run(old(counters), NoOutputs), old(items[..]), env).0
      ensures items[..] == RunAll(Run(old(counters), NoOutputs), old(items[..]), env).1
    {
      out := NoOutputs;
      ghost var start := items[..];
      ghost var run0 := Run(counters, NoOutputs);
      ghost var done: seq<Item> := [];
      var i := 0;
      while i < items.Length
        invariant 0 <= i <= items.Length && |done| == i
        invariant forall j :: i <= j < items.Length ==> items[j] == start[j]
        invariant forall j :: 0 <= j < i ==> items[j] == done[j]
        invariant Run(counters, out) == RunAll(run0, start[..i], env).0
        invariant done == RunAll(run0, start[..i], env).1
      {
        RunAllSnoc(run0, start, i, env);
        out := ProcessAt(items, i, out, env);
        done := done + [items[i]];
        i := i + 1;
      }
      assert items[..] == done;
      assert start[..items.Length] == start;
    }

    /** One iteration: KPI `i` is processed and, when a fix is filed, its SQL rewritten. */
    method ProcessAt(items: array<Item>, i: nat, out0: Outputs, env: AssessEnv) returns (out: Outputs)
      requires i < items.Length
      modifies this, items
      ensures (Run(counters, out), items[i]) == Step(Run(old(counters), out0), old(items[i]), env)
      ensures forall j :: 0 <= j < items.Length && j != i ==> items[j] == old(items[j])
    {
      var st := Step(Run(counters, out0), items[i], env);
      counters := st.0.counters;
      out := st.0.out;
      items[i] := st.1;
    }
  }
}
