/** The archived SQL validator and fixer (archive/To_be_delete/sql_validator_and_fixer.py):
    lexical checks, the default one-month duration rewrite (including the
    `WHERE\s+(.+)` substitution), code-fence stripping of LLM output, the execution test,
    and the loop that files every KPI into exactly one of three buckets. */
module SqlFixer {
  import opened Wrappers
  import opened Text
  import opened Py
  import opened Results

  // ---- lexical checks ----

  datatype SyntaxCheck = SyntaxCheck(
    hasIssues: bool, hasWarnings: bool, issues: seq<string>, warnings: seq<string>, suggestions: seq<string>)

  function CaseWarning(f: string): string {
    "Column '" + f + "' referenced but may have case sensitivity issues"
  }

  /** The fields whose lower-case form occurs in the lower-cased SQL but whose exact spelling does not. */
  function CaseWarnings(sql: string, fields: seq<string>): (r: seq<string>)
    ensures |r| <= |fields|
    ensures forall f :: f in fields && Contains(Lower(sql), Lower(f)) && !Contains(sql, f) ==> CaseWarning(f) in r
    ensures forall w :: w in r ==>
      (exists f :: f in fields && w == CaseWarning(f) && Contains(Lower(sql), Lower(f)) && !Contains(sql, f))
  {
    if |fields| == 0 then []
    else
      var f := fields[0];
      assert forall g :: g in fields ==> g == f || g in fields[1..];
      (if Contains(Lower(sql), Lower(f)) && !Contains(sql, f) then [CaseWarning(f)] else []) + CaseWarnings(sql, fields[1..])
  }

  function IssuesOf(sql: string): (r: seq<string>)
    ensures "Missing SELECT statement" in r <==> !Contains(Upper(sql), "SELECT")
    ensures "Missing FROM clause" in r <==> !Contains(Upper(sql), "FROM")
    ensures "JOIN statement missing ON clause" in r <==> Contains(Upper(sql), "JOIN") && !Contains(Upper(sql), "ON")
    ensures forall x :: x in r ==> x in ["Missing SELECT statement", "Missing FROM clause", "JOIN statement missing ON clause"]
  {
    var u := Upper(sql);
    (if Contains(u, "SELECT") then [] else ["Missing SELECT statement"])
    + (if Contains(u, "FROM") then [] else ["Missing FROM clause"])
    + (if Contains(u, "JOIN") && !Contains(u, "ON") then ["JOIN statement missing ON clause"] else [])
  }

  function SuggestionsOf(sql: string): seq<string> {
    var u := Upper(sql);
    (if (Contains(u, "AVG(") || Contains(u, "SUM(") || Contains(u, "COUNT("))
        && !Contains(u, "IS NOT NULL") && !Contains(u, "COALESCE")
     then ["Consider adding NULL checks for aggregate functions"] else [])
    + (if (Contains(u, "DATEDIFF") || Contains(u, "DATE_ADD") || Contains(u, "DATE_SUB") || Contains(u, "DATE_TRUNC"))
          && !Contains(u, "IS NOT NULL")
       then ["Consider adding NULL checks for date operations"] else [])
    + (if Contains(u, "CAST(") || Contains(u, "CONVERT(") then ["Verify type conversions are appropriate for the data"] else [])
    + (if (Contains(u, "INTERVAL") || Contains(u, "MONTH") || Contains(u, "WEEK"))
          && !Contains(sql, "1 MONTH") && !Contains(sql, "30 DAY")
       then ["Duration not specified - consider adding time window"] else [])
  }

  /** `check_sql_syntax_and_common_issues(sql, table)` with the table's cached field names. */
  function CheckSql(sql: string, fields: seq<string>): (r: SyntaxCheck)
    ensures r.hasIssues <==> r.issues != []
    ensures r.hasWarnings <==> r.warnings != []
    ensures "Missing SELECT statement" in r.issues <==> !Contains(Upper(sql), "SELECT")
    ensures "Missing FROM clause" in r.issues <==> !Contains(Upper(sql), "FROM")
    ensures "JOIN statement missing ON clause" in r.issues <==> Contains(Upper(sql), "JOIN") && !Contains(Upper(sql), "ON")
  {
    var issues := IssuesOf(sql);
    var warnings := CaseWarnings(sql, fields);
    SyntaxCheck(|issues| > 0, |warnings| > 0, issues, warnings, SuggestionsOf(sql))
  }

  /** Suggestions never raise either flag: two checks that differ only in suggestions agree on both. */
  lemma SuggestionsDoNotFlag(sql: string, fields: seq<string>)
    ensures CheckSql(sql, fields).hasIssues == (IssuesOf(sql) != [])
    ensures CheckSql(sql, fields).hasWarnings == (CaseWarnings(sql, fields) != [])
  {
  }

  /** A field that only differs in case draws its warning. */
  lemma CaseWarningIssued(sql: string, fields: seq<string>, f: string)
    requires f in fields && Contains(Lower(sql), Lower(f)) && !Contains(sql, f)
    ensures CaseWarning(f) in CheckSql(sql, fields).warnings && CheckSql(sql, fields).hasWarnings
  {
  }

  // ---- the `WHERE\s+(.+)` substitution ----

  /** `WHERE`, in any case, at position p. */
  predicate WhereAt(s: string, p: nat) { p + 5 <= |s| && Upper(s[p..p + 5]) == "WHERE" }

  /** The last position in [lo, hi) that is not a newline. */
  function LastNonNewline(s: string, lo: nat, hi: nat): (r: Option<nat>)
    requires lo <= hi <= |s|
    ensures r.Some? ==> lo <= r.value < hi && s[r.value] != '\n'
    ensures r.Some? ==> forall j :: r.value < j < hi ==> s[j] == '\n'
    ensures r.None? ==> forall j :: lo <= j < hi ==> s[j] == '\n'
    decreases hi
  {
    if hi == lo then None
    else if s[hi - 1] != '\n' then Some(hi - 1)
    else LastNonNewline(s, lo, hi - 1)
  }

  /** End of the line starting at k (`.+` stops before a newline). */
  function LineEnd(s: string, k: nat): (r: nat)
    requires k <= |s|
    ensures k <= r <= |s|
    ensures forall j :: k <= j < r ==> s[j] != '\n'
    ensures r < |s| ==> s[r] == '\n'
    decreases |s| - k
  {
    if k < |s| && s[k] != '\n' then LineEnd(s, k + 1) else k
  }

  /** Where group 1 starts for a match at p: greedy `\s+` takes the whole whitespace run
      and gives back characters only when `.+` would otherwise find nothing to match. */
  function GroupStart(s: string, p: nat): (r: Option<nat>)
    requires WhereAt(s, p)
    ensures r.Some? ==> p + 6 <= r.value < |s| && s[r.value] != '\n'
    ensures r.Some? ==> forall j :: p + 5 <= j < r.value ==> IsSpace(s[j])
  {
    var q := SpaceEnd(s, p + 5);
    if q == p + 5 then None
    else if q < |s| then Some(q)
    else LastNonNewline(s, p + 6, q)
  }

  const DurationFilter: string := "create_date >= DATE_SUB(CURRENT_DATE, INTERVAL 1 MONTH)"

  /** `re.sub(r'WHERE\s+(.+)', r'WHERE \1 AND <filter>', s[i..], flags=re.IGNORECASE)`:
      every non-overlapping leftmost match, scanning from i. */
  function WhereSub(s: string, i: nat): string
    requires i <= |s|
    decreases |s| - i
  {
    if i == |s| then ""
    else if WhereAt(s, i) && GroupStart(s, i).Some? then
      var k := GroupStart(s, i).value;
      var e := LineEnd(s, k);
      "WHERE " + s[k..e] + " AND " + DurationFilter + WhereSub(s, e)
    else [s[i]] + WhereSub(s, i + 1)
  }

  lemma FilterHasInterval()
    ensures Contains(DurationFilter, "INTERVAL 1 MONTH")
  {
    assert DurationFilter == "create_date >= DATE_SUB(CURRENT_DATE, " + "INTERVAL 1 MONTH" + ")";
    ContainsMiddle("create_date >= DATE_SUB(CURRENT_DATE, ", "INTERVAL 1 MONTH", ")");
  }

  /** The substitution either changes nothing or leaves the one-month filter in the text. */
  lemma {:induction false} WhereSubChangesOrFilters(s: string, i: nat)
    requires i <= |s|
    ensures WhereSub(s, i) == s[i..] || Contains(WhereSub(s, i), "INTERVAL 1 MONTH")
    decreases |s| - i
  {
    if i < |s| {
      if WhereAt(s, i) && GroupStart(s, i).Some? {
        var k := GroupStart(s, i).value;
        var e := LineEnd(s, k);
        FilterHasInterval();
        ContainsInfix("WHERE " + s[k..e] + " AND ", DurationFilter, WhereSub(s, e), "INTERVAL 1 MONTH");
      } else {
        WhereSubChangesOrFilters(s, i + 1);
        if WhereSub(s, i + 1) == s[i + 1..] {
          assert s[i..] == [s[i]] + s[i + 1..];
        } else {
          ContainsInfix([s[i]], WhereSub(s, i + 1), "", "INTERVAL 1 MONTH");
          assert [s[i]] + WhereSub(s, i + 1) + "" == WhereSub(s, i);
        }
      }
    }
  }

  /** On single-line SQL a match runs to the end of the text: the filter is appended to
      the whole condition. */
  lemma SingleLineMatch(s: string, p: nat)
    requires forall j :: 0 <= j < |s| ==> s[j] != '\n'
    requires WhereAt(s, p) && GroupStart(s, p).Some?
    ensures WhereSub(s, p) == "WHERE " + s[GroupStart(s, p).value..] + " AND " + DurationFilter
  {
    var k := GroupStart(s, p).value;
    assert LineEnd(s, k) == |s|;
  }

  // ---- default duration ----

  const DurationSuffix: string := " WHERE " + DurationFilter

  predicate HasDurationUnit(sql: string) {
    var u := Upper(sql);
    Contains(u, "INTERVAL") || Contains(u, "MONTH") || Contains(u, "WEEK") || Contains(u, "DAY")
  }

  lemma SuffixHasInterval(sql: string)
    ensures Contains(sql + DurationSuffix, "INTERVAL 1 MONTH")
  {
    FilterHasInterval();
    ContainsInfix(sql + " WHERE ", DurationFilter, "", "INTERVAL 1 MONTH");
    assert sql + " WHERE " + DurationFilter + "" == sql + DurationSuffix;
  }

  /** `add_default_duration(sql)` */
  function AddDefaultDuration(sql: string): (r: string)
    ensures HasDurationUnit(sql) ==> r == sql
    ensures !HasDurationUnit(sql) && !Contains(Upper(sql), "WHERE") ==> r == sql + DurationSuffix
    ensures r == sql || Contains(r, "INTERVAL 1 MONTH")
  {
    if HasDurationUnit(sql) then sql
    else if Contains(Upper(sql), "WHERE") then
      WhereSubChangesOrFilters(sql, 0);
      WhereSub(sql, 0)
    else
      SuffixHasInterval(sql);
      sql + DurationSuffix
  }

  /** Upper-casing keeps any occurrence of a text without lower-case letters, here a prefix
      of an occurrence of t. */
  lemma UpperKeepsInfix(s: string, t: string, p: string)
    requires Contains(s, t) && p <= t
    requires forall j :: 0 <= j < |p| ==> !('a' <= p[j] <= 'z')
    ensures Contains(Upper(s), p)
  {
    var i := Find(s, t).value;
    assert s[i..i + |p|] == p;
    assert forall j :: 0 <= j < |p| ==> Upper(s)[i + j] == p[j];
    assert Upper(s)[i..i + |p|] == p;
    assert MatchAt(Upper(s), p, i);
    ContainsIff(Upper(s), p);
  }

  /** Adding the default duration twice is the same as adding it once. */
  lemma AddDefaultDurationIdempotent(sql: string)
    ensures AddDefaultDuration(AddDefaultDuration(sql)) == AddDefaultDuration(sql)
  {
    var r := AddDefaultDuration(sql);
    if r != sql {
      UpperKeepsInfix(r, "INTERVAL 1 MONTH", "INTERVAL");
    }
  }

  // ---- code fences in LLM output ----

  /** The text after an opening "```sql" fence, dropping `drop` characters (a Python slice
      `a[drop:]`, empty when too short). */
  function AfterOpenFence(a: string, drop: nat): string {
    if StartsWith(a, "```sql") then (if |a| >= drop then a[drop..] else "") else a
  }

  /** The text before a closing "```" fence. */
  function BeforeCloseFence(b: string): string {
    if EndsWith(b, "```") then b[..|b| - 3] else b
  }

  /** The fence stripping as written: a leading "```sql" drops SEVEN characters. */
  function StripFenceAsWritten(text: string): (r: string)
    ensures |r| <= |text|
    ensures |r| == 0 || (!IsSpace(r[0]) && !IsSpace(r[|r| - 1]))
  {
    var t := TrimStart(BeforeCloseFence(AfterOpenFence(Strip(text), 7)));
    assert |TrimEnd(t)| > 0 ==> TrimEnd(t)[0] == t[0];
    Strip(BeforeCloseFence(AfterOpenFence(Strip(text), 7)))
  }

  /** The evidently intended stripping: drop exactly the six characters of "```sql". */
  function StripFence(text: string): (r: string)
    ensures |r| <= |text|
    ensures |r| == 0 || (!IsSpace(r[0]) && !IsSpace(r[|r| - 1]))
  {
    var t := TrimStart(BeforeCloseFence(AfterOpenFence(Strip(text), 6)));
    assert |TrimEnd(t)| > 0 ==> TrimEnd(t)[0] == t[0];
    Strip(BeforeCloseFence(AfterOpenFence(Strip(text), 6)))
  }

  /** A fenced text is its own strip. */
  lemma FencedStrip(body: string)
    ensures Strip("```sql" + body + "```") == "```sql" + body + "```"
  {
    var t := "```sql" + body + "```";
    assert t[0] == '`' && t[|t| - 1] == '`';
    StripFixed(t);
  }

  /** The opening fence of a fenced text is recognised. */
  lemma FencedOpen(body: string, drop: nat)
    requires drop <= 6 + |body|
    ensures AfterOpenFence("```sql" + body + "```", drop) == ("```sql" + body + "```")[drop..]
  {
    var t := "```sql" + body + "```";
    assert t[..6] == "```sql";
  }

  /** Both together. */
  lemma FencedText(body: string, drop: nat)
    requires drop <= 6 + |body|
    ensures AfterOpenFence(Strip("```sql" + body + "```"), drop) == ("```sql" + body + "```")[drop..]
  {
    FencedStrip(body);
    FencedOpen(body, drop);
  }

  /** The corrected stripping returns the fenced body, trimmed. */
  lemma StripFenceBody(body: string)
    ensures StripFence("```sql" + body + "```") == Strip(body)
  {
    var t := "```sql" + body + "```";
    var b := t[6..];
    assert b == body + "```";
    assert b[|b| - 3..] == "```";
    assert b[..|b| - 3] == body;
    assert BeforeCloseFence(b) == body;
    assert AfterOpenFence(Strip(t), 6) == b by {
      FencedText(body, 6);
    }
  }

  /** As written, the character right after the fence is lost; harmless when it is whitespace. */
  lemma StripFenceAsWrittenBody(body: string)
    requires |body| > 0
    ensures StripFenceAsWritten("```sql" + body + "```") == Strip(body[1..])
  {
    var t := "```sql" + body + "```";
    var b := t[7..];
    assert b == body[1..] + "```";
    assert b[|b| - 3..] == "```";
    assert b[..|b| - 3] == body[1..];
    assert BeforeCloseFence(b) == body[1..];
    assert AfterOpenFence(Strip(t), 7) == b by {
      FencedText(body, 7);
    }
  }

  /** A fence followed directly by the query ("```sqlSELECT 1```") loses the query's first
      character as written ("ELECT 1"), while the corrected stripping returns the query. */
  lemma FenceOffByOne(body: string)
    requires |body| >= 2 && !IsSpace(body[0]) && !IsSpace(body[1]) && !IsSpace(body[|body| - 1])
    ensures StripFenceAsWritten("```sql" + body + "```") == body[1..]
    ensures StripFence("```sql" + body + "```") == body
    ensures StripFenceAsWritten("```sql" + body + "```") != StripFence("```sql" + body + "```")
  {
    StripFenceAsWrittenBody(body);
    StripFenceBody(body);
    StripFixed(body[1..]);
    StripFixed(body);
  }

  /** `fix_sql_with_llm`: None without an API key or when the call raises (`reply` None);
      otherwise the reply with its fences stripped, by the corrected stripping. */
  function FixSqlWithLlm(hasKey: bool, reply: Option<string>): (r: Option<string>)
    ensures !hasKey || reply.None? ==> r.None?
    ensures hasKey && reply.Some? ==> r.Some?
    ensures forall body :: hasKey && reply == Some("```sql" + body + "```") ==> r == Some(Strip(body))
  {
    if !hasKey || reply.None? then None
    else
      assert forall body :: reply == Some("```sql" + body + "```") ==> StripFence(reply.value) == Strip(body) by {
        forall body | reply == Some("```sql" + body + "```") ensures StripFence(reply.value) == Strip(body) {
          StripFenceBody(body);
        }
      }
      Some(StripFence(reply.value))
  }

  /** `fix_sql_with_llm` as shipped, with the seven-character slice. */
  function FixSqlWithLlmAsWritten(hasKey: bool, reply: Option<string>): (r: Option<string>)
    ensures !hasKey || reply.None? ==> r.None?
    ensures hasKey && reply.Some? ==> r.Some?
    ensures forall body :: hasKey && reply == Some("```sql" + body + "```") && |body| > 0 ==> r == Some(Strip(body[1..]))
  {
    if !hasKey || reply.None? then None
    else
      assert forall body :: reply == Some("```sql" + body + "```") && |body| > 0 ==>
          StripFenceAsWritten(reply.value) == Strip(body[1..]) by {
        forall body | reply == Some("```sql" + body + "```") && |body| > 0
          ensures StripFenceAsWritten(reply.value) == Strip(body[1..]) {
          StripFenceAsWrittenBody(body);
        }
      }
      Some(StripFenceAsWritten(reply.value))
  }

  /** As shipped, the fix for a reply fenced directly around the query is the query without
      its first character, so the re-test runs a different query than the corrected run. */
  lemma AsWrittenFixDiffers(body: string)
    requires |body| >= 2 && !IsSpace(body[0]) && !IsSpace(body[1]) && !IsSpace(body[|body| - 1])
    ensures FixSqlWithLlmAsWritten(true, Some("```sql" + body + "```")) == Some(body[1..])
    ensures FixSqlWithLlm(true, Some("```sql" + body + "```")) == Some(body)
  {
    FenceOffByOne(body);
  }

  // ---- execution test ----

  /** The outcome of `test_sql_execution`, one per message it returns. */
  datatype ExecOutcome = Rows(count: nat) | ZeroRows | NoData | HttpFailure(status: int) | ExecError

  /** `test_sql_execution` on the reply of POST /api/dataset (None: the request raised). */
  function TestSqlExecution(reply: Option<Reply>): (r: ExecOutcome)
    ensures reply.None? ==> r == ExecError
    ensures reply.Some? && reply.value.status != 200 ==> r == HttpFailure(reply.value.status)
    ensures r.Rows? ==> r.count > 0 && reply.Some? && reply.value.status == 200
  {
    match reply
    case None => ExecError
    case Some(r) =>
      if r.status != 200 then HttpFailure(r.status)
      else if r.body.None? then ExecError
      else
        var result := r.body.value;
        match HasKey(result, "data")
        case None => ExecError
        case Some(false) => NoData
        case Some(true) =>
          match Index(result, "data")
          case None => ExecError // a list or string indexed by 'data'
          case Some(data) =>
            match HasKey(data, "rows")
            case None => ExecError
            case Some(false) => NoData
            case Some(true) =>
              match Index(data, "rows")
              case None => ExecError
              case Some(rows) =>
                match Len(rows)
                case None => ExecError
                case Some(n) => if n > 0 then Rows(n) else ZeroRows
  }

  /** The Boolean half of the result. */
  predicate Succeeded(o: ExecOutcome) { o.Rows? }

  /** Success iff status 200 and `data.rows` is present with at least one row: zero rows fail. */
  lemma ExecSuccessIff(reply: Option<Reply>)
    ensures Succeeded(TestSqlExecution(reply)) <==>
      reply.Some? && reply.value.status == 200 && reply.value.body.Some?
      && reply.value.body.value.JObj? && "data" in Keys(reply.value.body.value.members)
      && Lookup(reply.value.body.value.members, "data").value.JObj?
      && "rows" in Keys(Lookup(reply.value.body.value.members, "data").value.members)
      && var rows := Lookup(Lookup(reply.value.body.value.members, "data").value.members, "rows").value;
         Len(rows).Some? && Len(rows).value > 0
  {
  }

  // ---- the bucket loop ----

  datatype ValidRecord = ValidRecord(table: string, kpiName: string, sql: string)
  datatype FixedRecord = FixedRecord(table: string, kpiName: string, originalSql: string, fixedSql: string, fixType: string)
  datatype ProblemRecord = ProblemRecord(table: string, kpiName: string, originalSql: string, error: ExecOutcome,
                                         llmFixAttempted: bool)

  /** Where one KPI is filed. */
  datatype Bucket = ValidSql(v: ValidRecord) | FixedSql(f: FixedRecord) | ProblematicSql(p: ProblemRecord)

  /** What the run sees: the cached field names per table, the database's reply to a query
      text, whether an API key is set, and the LLM's reply to a failing query. */
  datatype FixEnv = FixEnv(fieldNames: string -> seq<string>, exec: string -> Option<Reply>,
                           hasKey: bool, llm: string -> Option<string>)

  /** The loop body for one KPI. */
  function Classify(info: KpiInfo, env: FixEnv): (b: Bucket)
    ensures b.ValidSql? ==> AddDefaultDuration(OrDefault(info.kpi.sql, "")) == OrDefault(info.kpi.sql, "")
    ensures b.FixedSql? && b.f.fixType == "default_duration_added" ==> b.f.fixedSql != b.f.originalSql
  {
    var name := OrDefault(info.kpi.name, "Unknown");
    var sql := OrDefault(info.kpi.sql, "");
    var modified := AddDefaultDuration(sql);
    var first := TestSqlExecution(env.exec(modified));
    if Succeeded(first) then
      if modified != sql then FixedSql(FixedRecord(info.tableName, name, sql, modified, "default_duration_added"))
      else ValidSql(ValidRecord(info.tableName, name, sql))
    else
      match FixSqlWithLlm(env.hasKey, env.llm(modified))
      case Some(fixed) =>
        if |fixed| > 0 then
          if Succeeded(TestSqlExecution(env.exec(fixed))) then FixedSql(FixedRecord(info.tableName, name, sql, fixed, "llm_fixed"))
          else ProblematicSql(ProblemRecord(info.tableName, name, sql, first, true))
        else ProblematicSql(ProblemRecord(info.tableName, name, sql, first, false))
      case None => ProblematicSql(ProblemRecord(info.tableName, name, sql, first, false))
  }

  /** When the rewritten query runs, the KPI is valid exactly when the rewrite changed nothing,
      and fixed (by the duration default) otherwise. */
  lemma FirstRunDecides(info: KpiInfo, env: FixEnv)
    requires Succeeded(TestSqlExecution(env.exec(AddDefaultDuration(OrDefault(info.kpi.sql, "")))))
    ensures Classify(info, env).ValidSql? <==> AddDefaultDuration(OrDefault(info.kpi.sql, "")) == OrDefault(info.kpi.sql, "")
    ensures Classify(info, env).FixedSql? <==> AddDefaultDuration(OrDefault(info.kpi.sql, "")) != OrDefault(info.kpi.sql, "")
  {
  }

  /** When the rewritten query fails, the LLM's fix decides: the KPI is filed as fixed
      by the LLM exactly when a non-empty fix came back and ran with rows; otherwise it is
      problematic, with the first run's error, and the attempt is recorded exactly when
      a non-empty fix came back. */
  lemma LlmBranch(info: KpiInfo, env: FixEnv)
    requires !Succeeded(TestSqlExecution(env.exec(AddDefaultDuration(OrDefault(info.kpi.sql, "")))))
    ensures var modified := AddDefaultDuration(OrDefault(info.kpi.sql, ""));
      var fix := FixSqlWithLlm(env.hasKey, env.llm(modified));
      var b := Classify(info, env);
      (b.FixedSql? <==> fix.Some? && |fix.value| > 0 && Succeeded(TestSqlExecution(env.exec(fix.value))))
      && (b.FixedSql? ==> b == FixedSql(FixedRecord(info.tableName, OrDefault(info.kpi.name, "Unknown"),
                                                    OrDefault(info.kpi.sql, ""), fix.value, "llm_fixed")))
      && (!b.FixedSql? ==> b == ProblematicSql(ProblemRecord(info.tableName, OrDefault(info.kpi.name, "Unknown"),
                                                             OrDefault(info.kpi.sql, ""), TestSqlExecution(env.exec(modified)),
                                                             fix.Some? && |fix.value| > 0)))
  {
  }

  /** Every query filed as fixed is one the database ran with rows. */
  lemma FixedQueriesRun(info: KpiInfo, env: FixEnv)
    requires Classify(info, env).FixedSql?
    ensures Succeeded(TestSqlExecution(env.exec(Classify(info, env).f.fixedSql)))
  {
  }

  /** Without an API key a query that fails is filed as problematic, with no fix attempted. */
  lemma NoKeyNoFix(info: KpiInfo, env: FixEnv)
    requires !env.hasKey
    requires !Succeeded(TestSqlExecution(env.exec(AddDefaultDuration(OrDefault(info.kpi.sql, "")))))
    ensures Classify(info, env).ProblematicSql? && !Classify(info, env).p.llmFixAttempted
  {
  }

  /** The three result lists. */
  datatype Buckets = Buckets(valid: seq<ValidRecord>, fixed: seq<FixedRecord>, problematic: seq<ProblemRecord>)

  function Count(b: Buckets): nat { |b.valid| + |b.fixed| + |b.problematic| }

  function File(b: Buckets, x: Bucket): Buckets {
    match x
    case ValidSql(v) => b.(valid := b.valid + [v])
    case FixedSql(f) => b.(fixed := b.fixed + [f])
    case ProblematicSql(p) => b.(problematic := b.problematic + [p])
  }

  function FileAll(b: Buckets, items: seq<KpiInfo>, env: FixEnv): (r: Buckets)
    ensures Count(r) == Count(b) + |items|
    decreases |items|
  {
    if |items| == 0 then b else FileAll(File(b, Classify(items[0], env)), items[1..], env)
  }

  /** Every KPI lands in exactly one list: the lists grow by one entry in total per KPI. */
  lemma {:induction false} FileAllCounts(b: Buckets, items: seq<KpiInfo>, env: FixEnv)
    ensures Count(FileAll(b, items, env)) == Count(b) + |items|
    ensures b.valid <= FileAll(b, items, env).valid && b.fixed <= FileAll(b, items, env).fixed
      && b.problematic <= FileAll(b, items, env).problematic
    decreases |items|
  {
    if |items| > 0 {
      FileAllCounts(File(b, Classify(items[0], env)), items[1..], env);
    }
  }

  /** The report's total is the sum of the three list lengths; the problematic file is
      written only when that list is non-empty. */
  datatype Report = Report(totalProcessed: nat, validCount: nat, fixedCount: nat, problematicCount: nat,
                           files: seq<string>)

  function ValidationReport(b: Buckets): (r: Report)
    ensures r.totalProcessed == r.validCount + r.fixedCount + r.problematicCount
    ensures "problematic_sql_queries.json" in r.files <==> |b.problematic| > 0
  {
    Report(Count(b), |b.valid|, |b.fixed|, |b.problematic|,
           ["sql_validation_report.json"] + (if |b.problematic| > 0 then ["problematic_sql_queries.json"] else []))
  }

  class SqlValidatorAndFixer {
    var results: Buckets

    constructor ()
      ensures results == Buckets([], [], [])
    {
      results := Buckets([], [], []);
    }

    /** `validate_and_fix_all_sql` after its setup: the table and KPI loops with their
        four counters. */
    method ValidateAndFixAll(data: seq<TableRecord>, env: FixEnv)
      returns (total: nat, valid: nat, fixed: nat, problematic: nat)
      modifies this
      ensures results == FileAll(old(results), AllKpis(data), env)
      ensures total == |AllKpis(data)| && total == valid + fixed + problematic
      ensures |results.valid| == |old(results).valid| + valid
      ensures |results.fixed| == |old(results).fixed| + fixed
      ensures |results.problematic| == |old(results).problematic| + problematic
    {
      var items := CollectAllKpis(data);
      total, valid, fixed, problematic := 0, 0, 0, 0;
      var i := 0;
      while i < |items|
        invariant 0 <= i <= |items|
        invariant FileAll(old(results), items, env) == FileAll(results, items[i..], env)
        invariant total == i && total == valid + fixed + problematic
        invariant |results.valid| == |old(results).valid| + valid
        invariant |results.fixed| == |old(results).fixed| + fixed
        invariant |results.problematic| == |old(results).problematic| + problematic
      {
        assert items[i..][1..] == items[i + 1..];
        var b := Classify(items[i], env);
        results := File(results, b);
        if b.ValidSql? {
          valid := valid + 1;
        } else if b.FixedSql? {
          fixed := fixed + 1;
        } else {
          problematic := problematic + 1;
        }
        total := total + 1;
        i := i + 1;
      }
    }
  }
}
