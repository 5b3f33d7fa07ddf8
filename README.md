# KPI_Creation, modelled in Dafny

KPI_Creation is a set of Python scripts around a Metabase instance. They do four things:

- list the catalog's tables and pick the ones to work on (the "TB_" tables, a fixed list of important tables, two phase lists);
- have an LLM write KPI definitions (name, description, business value, SQL) for each table, then parse the reply into KPI records;
- check those SQL queries, rewrite them and classify the database's reply to each one;
- register each KPI as a Metabase question ("card") in a collection, keeping counters and failure lists.

This project models the deterministic core of these scripts. Every HTTP reply and every LLM reply is an input value, not a call:

- an HTTP reply is a status code plus the JSON body `response.json()` would give (`Py.Reply`);
- JSON values are `Py.Json`, with dicts as ordered member lists, as Python dicts keep insertion order;
- `json.loads` is an abstract partial function `string -> Option<Json>`;
- a Python operation that raises (`TypeError`, `KeyError`, `AttributeError`) returns `None`, so the caller's `except` branch can be modelled exactly.

Modules follow the scripts:

| module | file | models |
|---|---|---|
| `Wrappers`, `Text` | text.dfy | the `str` operations the scripts use: `find`, `rfind`, `in`, `count`, `replace`, `strip`, `upper`, `lower`, and `isdigit` over ASCII digits |
| `Py` | py.dfy | JSON values, replies, truthiness, `d.get`, `d[k]`, `k in d`, `len`, iteration |
| `Results` | results.dfy | the results file `tb_tables_kpis.json` as the registrars, tester and fixer read it |
| `KpiParser` | kpi_parser.dfy | `parse_kpis_from_response`; the archived extractor has the same text |
| `Extractor` | extractor.dfy | database list, table search and field projection of src/kpi_extractor.py |
| `ArchiveExtractor` | archive_extractor.dfy | the archived extractor: config check, database list, search, metadata, KPI generation, `process_table_list` |
| `Registrar` | registrar.dfy | src/kpi_registrar.py. register_kpis_enhanced.py is the same text, so one model covers both files |
| `QuickRegistrar` | quick_registrar.dfy | the archived quick registrar, which has no SQL check |
| `SqlFixer` | sql_fixer.dfy | the archived SQL validator and fixer |
| `Assessor` | assessor.dfy | the archived SQL validator and business assessor |
| `SqlTester` | sql_tester.dfy | the archived random SQL tester |
| `PhaseTables` | phase_tables.dfy | the resumable phase-1/phase-2 run |
| `TbTables` | tb_tables.dfy | the TB_ table run |
| `Discover` | discover.dfy | TB_ table discovery |

The source mixes styles, and so does the model:

- Loops that append to lists or fill dicts are `method`s with `while` loops. Each is proved equal to a recursive specification function. Lemmas about that function state what the source promises.
- Branching code and straight-line string building are `function`s.
- Objects that keep state across calls are `class`es: `Registrar.KpiRegistrar`, `SqlFixer.SqlValidatorAndFixer`, `Assessor.BusinessAssessor` and `SqlTester.SqlTester`.
- The assessor rewrites each KPI's SQL in place, so its KPI list is an `array`.

Quirks of the source that the proofs pin down:

- The fence stripping drops one character too many (see Findings).
- The business assessor's column-spacing "fix" replaces a text with itself, so it never changes the SQL. Its branch is taken only for an issue holding "not properly formatted", while the schema check's own issues say "may not be properly formatted"; so it fires only for a column name that itself holds the phrase (`Assessor.SchemaIssuesSkipSpacing`).
- The registrar's `creation_failed` counter is never incremented.
- The archived `generate_kpis_with_llm` reads `rt['id']` from related-table entries that never carry an `id`. So any table with a related table gets no KPIs.
- `process_phase_tables` imports the archived extractor. That extractor's `generate_kpis_for_table` returns a list, so `'kpis' in result` never holds and the run adds nothing.
- A matching table without `name` or `id` makes the archived search raise a `KeyError`, which empties the whole result.
- `discover_tb_tables` passes the string "TB_" where a list of names is expected. The search iterates it character by character, so it matches every table whose name contains `t`, `b` or `_`.
- `process_tb_table`'s selection block sits inside the listing loop, so the model recomputes the selection once per TB table.

## Model

| member | source | states |
|---|---|---|
| Results.OrDefault | src/kpi_registrar.py:413-414 | `kpi.get(k, dflt)` for a text value: the stored value when the key is present, otherwise the default |
| Results.AllKpis | src/kpi_registrar.py:384-393 | the flattened KPI list has one entry per KPI of the file, so its length is the sum of the tables' list lengths |
| Results.TableKpis | src/kpi_registrar.py:386-393 | a table contributes exactly its own KPIs, in list order, each tagged with the table's name |
| Results.CollectAllKpis | src/kpi_registrar.py:384-393 | the nested collecting loop produces exactly the table-by-table, list-order flattening |
| Results.AllKpisMembership | src/kpi_registrar.py:386-393 | a KPI is collected iff some table of the file with that name lists it |
| KpiParser.KpiJson | src/kpi_extractor.py:361-368 | a normalised KPI is a dict with exactly the six keys the parser writes, in its order |
| KpiParser.KpisJson | src/kpi_extractor.py:357-378 | the returned list has one dict per normalised KPI |
| KpiParser.Field | src/kpi_extractor.py:362-366 | a present key is copied unchanged; a missing key takes the fixed default |
| KpiParser.Normalise | src/kpi_extractor.py:359-375 | an object becomes a KPI iff its `sql_query` (after the 'SELECT 1' default) is a string. The table name is the caller's; the other five fields follow the default rule ('Unnamed KPI', 'No description provided', 'Business value not specified', 'SELECT 1', 'Not specified') |
| KpiParser.DictElements | src/kpi_extractor.py:358-359 | only the dict elements of the array are kept, so there are at most as many as the array has elements |
| KpiParser.NormaliseItems | src/kpi_extractor.py:357-378 | the loop succeeds iff every dict's SQL is a string (`.strip()` otherwise raises); on success every KPI carries the caller's table name and there are at most as many KPIs as array elements |
| KpiParser.NormaliseItemsInOrder | src/kpi_extractor.py:357-375 | the output is the normalised dict elements, one for one, in array order |
| KpiParser.JsonSlice | src/kpi_extractor.py:345-353 | no text is handed on iff `[` or `]` is missing; otherwise the text runs from the first `[` to the last `]`, both included (empty when the last `]` comes first) |
| KpiParser.ParseKpisFromResponse | src/kpi_extractor.py:341-386 | the parser computes the specification: slice, parse, keep the dicts and normalise; every failure gives [] |
| KpiParser.ParseSpec | src/kpi_extractor.py:341-386 | the parser's specification; ParseKpisFromResponse, NoArrayGivesEmpty, ParseFailureGivesEmpty and ParseOfArray state it |
| KpiParser.ValidateItems | src/kpi_extractor.py:357-378 | the validating loop computes the normalised dicts of the array in order, and [] as soon as one fails |
| KpiParser.NoArrayGivesEmpty | src/kpi_extractor.py:345-351 | a reply without `[` or without `]` gives the empty list |
| KpiParser.ParseFailureGivesEmpty | src/kpi_extractor.py:353-354 | a slice that does not parse as JSON gives the empty list |
| KpiParser.ParseOfArray | src/kpi_extractor.py:357-378 | from a parsed array, the output is the normalised dict elements in order, and no longer than the array |
| KpiParser.NonStringSqlEmpties | src/kpi_extractor.py:371 | one object whose SQL is not a string makes `.strip()` raise, and the whole result becomes [] |
| KpiParser.TableNameOverridden | src/kpi_extractor.py:367 | every returned KPI carries the caller's table name, whatever the LLM wrote |
| KpiParser.WarningKeepsKpi | src/kpi_extractor.py:370-375 | a KPI whose SQL does not start with SELECT only draws a warning and is still returned |
| Extractor.DatabaseList | src/kpi_extractor.py:87-113 | a non-200 reply or unreadable body gives []. A list is kept. A dict with 'data' gives that value (a value with no length makes `len` raise, caught as []). Any other dict becomes a one-element list |
| Extractor.Matching | src/kpi_extractor.py:132-135 | the search loop completes iff every table's name is a string (`.lower()` raises otherwise) |
| Extractor.SearchTablesByName | src/kpi_extractor.py:115-142 | the search loop computes the filter specification, with [] on a failing status or a raise |
| Extractor.MatchingIsFilter | src/kpi_extractor.py:132-135 | the kept tables are exactly those whose lower-cased name contains a lower-cased search string, each at most as often as in the catalog, and the result is the catalog filtered in its own order (`Seqs.Filter`) |
| Extractor.NoNamesNoTables | src/kpi_extractor.py:134 | an empty list of search names finds no table |
| Extractor.SearchIsFilter | src/kpi_extractor.py:115-142 | for a 200 list reply whose tables all have string names, the result is the catalog filtered by the name match, in catalog order; a table is returned iff it is in the catalog and matches |
| Extractor.SearchResult | src/kpi_extractor.py:115-142 | the search; SearchIsFilter and NoNamesNoTables state what it returns |
| Extractor.ForeignKeyOf | src/kpi_extractor.py:227-235 | an annotation is attached only when `fk_target_field_id` is truthy; a truthy id with a truthy dict `target` gives the target's table_id and name (each defaulting to 'Unknown'); a falsy id or target gives no annotation |
| Extractor.ProjectSpec | src/kpi_extractor.py:209-237 | there are as many details as prompt lines, and no more than the fields considered |
| Extractor.ProjectFields | src/kpi_extractor.py:207-241 | the projection loop gives the details and prompt lines of the first 20 fields, plus the note "... and N more fields" (N = count - 20) iff there are more than 20 |
| Extractor.ProjectNoneStays | src/kpi_extractor.py:209-237 | once a field raises, the projection fails whatever follows |
| Extractor.Important | src/kpi_extractor.py:207 | the fields considered are a prefix of the list, of length min(20, count), so `fields_used` = min(20, count) |
| Extractor.DetailsHaveNames | src/kpi_extractor.py:215-237 | only fields with a truthy name get a detail, so empty-named fields are skipped |
| Extractor.ForeignKeyCount | src/kpi_extractor.py:328 | the count is at most the number of fields, and exists iff every field is a dict |
| Extractor.ForeignKeyCountSplit | src/kpi_extractor.py:328 | the count is additive over a split of the list, so fields beyond the first 20 are counted too |
| Extractor.LateForeignKeyCounted | src/kpi_extractor.py:328 | a field past the first 20 with a truthy `fk_target_field_id` raises the count above the count over the first 20, so `foreign_keys` counts every field |
| Extractor.ForeignKeyCountPositive | src/kpi_extractor.py:328 | a list holding a field with a truthy `fk_target_field_id` has a positive count |
| Extractor.FieldList | src/kpi_extractor.py:202-215 | the fields value is usable iff it is a list (its items), an empty string or an empty dict (no element to visit); any other value makes slicing or `field.get` raise |
| Extractor.FromFields | src/kpi_extractor.py:207-339 | a result exists iff the projection of the first 20 fields succeeds; a failed LLM call or an uncountable field list gives the all-zero result; otherwise the parsed KPIs, the projection's details, `total_fields` = count, `fields_used` = min(20, count) and `foreign_keys` = the count over all fields |
| Extractor.GenerateForTable | src/kpi_extractor.py:185-339 | a result exists if and only if the metadata is a dict, its fields value is a list (or an empty string or dict), its related tables are iterable and all have string names, and its `table_info` is a dict; the result is then the field-level result: `total_fields` = count, `fields_used` = min(20, count), the KPIs are the parser's output, the details are the projection's and `foreign_keys` counts all fields |
| Extractor.LateBadFieldZeroes | src/kpi_extractor.py:326-339 | a non-dict field past the first 20 makes the foreign-key count raise, and the result is the all-zero one |
| Extractor.EmptyFieldsDictGenerates | src/kpi_extractor.py:202-207 | metadata whose fields value is `{}` goes through: the parser's KPIs with no details and zero counts |
| ArchiveExtractor.MissingVars | archive/To_be_delete/metabase_kpi_extractor.py:47-53 | a variable is listed iff it is unset or empty, each at most once; `MissingVarsInOrder` states the order URL, username, password for all inputs |
| ArchiveExtractor.MissingVarsInOrder | archive/To_be_delete/metabase_kpi_extractor.py:47-53 | for every input, the missing names are the configuration list URL, username, password filtered to the unset ones, in that order |
| ArchiveExtractor.ValidateConfig | archive/To_be_delete/metabase_kpi_extractor.py:45-56 | the check raises iff one of the three variables is unset, and the message joins the missing names with ", " |
| ArchiveExtractor.ConfigMessagePasswordOnly | archive/To_be_delete/metabase_kpi_extractor.py:53-55 | only the password unset: the message names just METABASE_PASSWORD |
| ArchiveExtractor.ConfigMessageTwoMissing | archive/To_be_delete/metabase_kpi_extractor.py:53-55 | URL and password unset: both are named, URL first |
| ArchiveExtractor.DatabaseList | archive/To_be_delete/metabase_kpi_extractor.py:92-114 | a 4xx/5xx status or unreadable body gives []. A list is kept. A dict with 'data' gives that value (a value with no length makes the uncaught `len` raise). Any other dict becomes a one-element list |
| ArchiveExtractor.SearchResult | archive/To_be_delete/metabase_kpi_extractor.py:225-232 | every returned table carries both 'name' and 'id' |
| ArchiveExtractor.SearchTablesByName | archive/To_be_delete/metabase_kpi_extractor.py:210-236 | the search loop computes the specification, including the KeyError of its log line |
| ArchiveExtractor.SearchLoop | archive/To_be_delete/metabase_kpi_extractor.py:225-236 | the loop over the listed tables computes the search over them, including the KeyError that empties it |
| ArchiveExtractor.KeyErrorEmpties | archive/To_be_delete/metabase_kpi_extractor.py:227-236 | a matching table without 'name' or 'id' makes the loop raise, so the search returns [] |
| ArchiveExtractor.SearchKeepsFilter | archive/To_be_delete/metabase_kpi_extractor.py:225-229 | when all tables carry 'name' and 'id', a table is returned iff its lower-cased name contains a lower-cased search string, and the result is the catalog filtered in its own order |
| ArchiveExtractor.OptimizeField | archive/To_be_delete/metabase_kpi_extractor.py:144-150 | a field dict becomes a dict with the five kept keys; its type is `effective_type` when that key is present, otherwise `database_type` |
| ArchiveExtractor.OptimizedFields | archive/To_be_delete/metabase_kpi_extractor.py:142-151 | when the field loop completes it yields exactly one entry per field |
| ArchiveExtractor.OptimizedFieldsSomeIff | archive/To_be_delete/metabase_kpi_extractor.py:142-151 | the field loop fails if and only if some field is not a dict |
| ArchiveExtractor.OptimizedFieldsAt | archive/To_be_delete/metabase_kpi_extractor.py:142-151 | the i-th optimised entry is the optimisation of the i-th field, so order is kept |
| ArchiveExtractor.TableInfo | archive/To_be_delete/metabase_kpi_extractor.py:134-139 | the kept table info has exactly name, description, schema and entity_type |
| ArchiveExtractor.RelatedEntry | archive/To_be_delete/metabase_kpi_extractor.py:163-201 | a related entry exists only after a 200 reply for the related table, and it carries no 'id' |
| ArchiveExtractor.RelatedTables | archive/To_be_delete/metabase_kpi_extractor.py:160-201 | at most one entry per foreign key, each a dict without 'id' |
| ArchiveExtractor.RelatedOnlyFrom200 | archive/To_be_delete/metabase_kpi_extractor.py:161-199 | every related entry is the entry built from one of the foreign keys, whose destination table answered 200 |
| ArchiveExtractor.TableMetadata | archive/To_be_delete/metabase_kpi_extractor.py:116-208 | the metadata is always a dict, and a request error on the table gives {} |
| ArchiveExtractor.GetTableMetadata | archive/To_be_delete/metabase_kpi_extractor.py:116-208 | the two loops and the combining code compute the metadata specification |
| ArchiveExtractor.OptimizeFields | archive/To_be_delete/metabase_kpi_extractor.py:142-151 | the field-optimisation loop computes the per-field specification |
| ArchiveExtractor.CollectRelated | archive/To_be_delete/metabase_kpi_extractor.py:160-201 | the related-table loop computes the related-table specification |
| ArchiveExtractor.RelatedNoneStays | archive/To_be_delete/metabase_kpi_extractor.py:161-201 | once a foreign key raises, the related-table loop fails whatever follows |
| ArchiveExtractor.FieldTypeRule | archive/To_be_delete/metabase_kpi_extractor.py:143-151 | the i-th optimised field is typed from the i-th input field by the effective-type rule |
| ArchiveExtractor.GenerateKpisWithLlm | archive/To_be_delete/metabase_kpi_extractor.py:238-313 | no client, or a failing LLM call, gives []; otherwise the parsed KPIs of the reply under the table_info name (default 'Unknown') when the metadata is a dict, its table_info a dict, every field has 'name' and 'type' and every related table 'name' and 'id', and [] when building the prompt raises |
| ArchiveExtractor.RelatedTablesEmptyKpis | archive/To_be_delete/metabase_kpi_extractor.py:259 | metadata with a related table never yields a KPI: the prompt reads `rt['id']`, which no related entry has |
| ArchiveExtractor.ResultsSpec | archive/To_be_delete/metabase_kpi_extractor.py:333-363 | the result map is built only when every matching table is a dict |
| ArchiveExtractor.UsableMetadata | archive/To_be_delete/metabase_kpi_extractor.py:342-345 | a table goes on to the LLM only with truthy metadata |
| ArchiveExtractor.LastDuplicateWins | archive/To_be_delete/metabase_kpi_extractor.py:342-358 | a table with usable metadata is in the map under its name, with its own entry, unless a later usable table has the same name |
| ArchiveExtractor.KeysNeedMetadata | archive/To_be_delete/metabase_kpi_extractor.py:342-358 | every key is the name of a table whose metadata was usable; tables with empty metadata add nothing |
| ArchiveExtractor.ProcessTableList | archive/To_be_delete/metabase_kpi_extractor.py:315-363 | the loop computes the result map; without authentication or a match it is {} |
| ArchiveExtractor.ProcessTables | archive/To_be_delete/metabase_kpi_extractor.py:333-363 | the loop over the matching tables computes the result map, None once a table raises |
| ArchiveExtractor.ResultsNoneStays | archive/To_be_delete/metabase_kpi_extractor.py:333-363 | once a metadata fetch raises, the run fails whatever follows |
| PhaseTables.ArchiveGenerate | archive/To_be_delete/metabase_kpi_extractor.py:374-444 | the archived `generate_kpis_for_table` returns a list whenever it returns |
| Registrar.DatabaseId | src/kpi_registrar.py:78-111 | a failing status or unreadable body gives None; a list body gives the id of its first database (None when empty); `DatabaseIdOfData` and `DatabaseIdOfSingleDict` cover a dict with and without 'data' |
| Registrar.DatabaseIdOfData | src/kpi_registrar.py:89-97 | a dict body with a 'data' list: the id of its first database (None when it is not a dict), None for an empty list |
| Registrar.DatabaseIdOfSingleDict | src/kpi_registrar.py:89-97 | a dict body without 'data' is read as the one-element list `[body]`, so the id is the body's own 'id' |
| Registrar.ScanCollections | src/kpi_registrar.py:175-179 | the scan stops at the first dict named exactly `name` (all entries before it are dicts with other names), runs through when none is, or raises at the first non-dict |
| Registrar.GetOrCreateCollection | src/kpi_registrar.py:165-204 | a create request is sent only after a 200 listing; a failing listing gives None with no create |
| Registrar.ScanFindsFirst | src/kpi_registrar.py:175-179 | the scan finds the first exact match |
| Registrar.ScanRunsThrough | src/kpi_registrar.py:175-181 | a listing of dicts with other names is scanned to the end |
| Registrar.CollectionFirstMatch | src/kpi_registrar.py:175-179 | the lookup returns the id of the first exact name match and sends no create request |
| Registrar.CollectionCreateOnlyWithoutMatch | register_kpis_enhanced.py:175-188 | a create request is sent iff every listed collection is a dict with another name |
| Registrar.CardsToRemove | src/kpi_registrar.py:133 | the cleanup's card list is a sub-list of the collection items |
| Registrar.RemoveExistingKpis | src/kpi_registrar.py:113-163 | without a collection, or on a non-200 listing, cleanup fails and deletes nothing. After a 200 listing whose items are all dicts it succeeds, also when no item is a card. On success it deletes exactly the ids of the card items, in order. The reported count is the number of deletions answered 204 (`Registrar.Accepted`) |
| Registrar.DeleteCards | src/kpi_registrar.py:140-155 | one deletion per card, in card order, with the ids of the cards; the count is the number of deletions answered 204 |
| Registrar.Accepted | src/kpi_registrar.py:150-152 | the count of deletions answered 204: never more than the deletions, and all of them exactly when every answer is 204 |
| Registrar.CardIds | src/kpi_registrar.py:142-143 | one id per card, in order |
| Registrar.CardsAreCardItems | register_kpis_enhanced.py:133 | the cards are exactly the items whose `model` is 'card' |
| Registrar.OnlyCardsDeleted | register_kpis_enhanced.py:142-148 | every deleted id belongs to an item whose `model` is 'card' |
| Registrar.ValidateSqlExecution | src/kpi_registrar.py:206-287 | a raised request gives the exception result; 'valid' needs a 200 or 202 reply whose body is a dict with a status other than 'failed'; any HTTP status other than 200 and 202 fails with error 'HTTP N' and the 'HTTP error' message |
| Registrar.StatusOf | src/kpi_registrar.py:206-287 | the result's 'status': 'valid' for a valid query, 'failed' otherwise; which replies are valid is stated by ValidateSqlExecution and the lemmas below it |
| Registrar.CompletedDefaultsValid | src/kpi_registrar.py:228-241 | a completed query without 'data' is valid with rows and cols read as [], so zero rows is valid |
| Registrar.CompletedNullFails | src/kpi_registrar.py:234-247 | a completed query with explicitly null rows or cols fails with 'Invalid result structure' |
| Registrar.FailedCarriesError | src/kpi_registrar.py:248-255 | a failed query carries the reply's error, or 'Unknown error' when it has none, and its message is 'SQL execution failed: ' followed by that error |
| Registrar.OtherStatusWithoutData | src/kpi_registrar.py:256-273 | any other status without 'data' fails with 'Unexpected response format' |
| Registrar.OtherStatusWithData | src/kpi_registrar.py:256-273 | any other status with a 'data' dict is valid iff 'data' holds 'rows' (cols default to []) |
| Registrar.MessageText | src/kpi_registrar.py:245-278 | the 'message' of a failed validation: 'HTTP error N: reply text' for an HTTP error and 'SQL execution failed: ' plus the error for a failed query |
| Registrar.FullDescription | src/kpi_registrar.py:301-304 | the description starts "Description: d" and ends "\n\nTable: t"; between them is "\n\nBusiness Value: b" when b is non-empty, and nothing otherwise |
| Registrar.Names | src/kpi_registrar.py:429 | the names of the created questions, one per question |
| Registrar.StepKeepsInv | src/kpi_registrar.py:404-455 | one iteration keeps the invariants: \|registered\| = successfully_registered; total = successes + validation failures + \|failed_kpis\|; validation_failed = \|invalid_sqls\|; creation_failed = 0; one registration key per created question, no key twice, and the keys are exactly the registered set |
| Registrar.Step | src/kpi_registrar.py:404-455 | one KPI of the registration loop; StepKeepsInv, SkipChangesNothing, HttpErrorRecordsMessage and RegisterValid state what it does |
| Registrar.SkipChangesNothing | src/kpi_registrar.py:418-421 | a name already registered is skipped; no counter or list changes, not even total_processed |
| Registrar.HttpErrorRecordsMessage | src/kpi_registrar.py:440-452 | a query refused with a status other than 200 and 202 is filed under invalid_sqls with the 'HTTP error N: reply text' message, and validation_failed grows by one |
| Registrar.RegisterValid | src/kpi_registrar.py:426-452 | a new key whose query validates and whose question is created is registered: the set, the success counter, the created questions and total_processed grow, nothing else changes |
| Registrar.UnnamedKpisShareName | src/kpi_registrar.py:413-431 | two valid KPIs without 'kpi_name' are registered under the keys KPI_1 and KPI_2, yet both questions are posted as 'Unknown KPI' (line 297) |
| Registrar.RunKeepsInv | src/kpi_registrar.py:404-455 | the invariants hold after any run, so creation_failed stays 0 and no registration key is used twice |
| Registrar.Run | src/kpi_registrar.py:404-455 | the registration loop; RunKeepsInv and RunOnlyGrows state what it keeps |
| Registrar.RunOnlyGrows | src/kpi_registrar.py:404-455 | a run only grows the registered set, the two failure lists, the created questions and total_processed |
| Registrar.Selected | register_kpis_enhanced.py:396-398 | outside test mode every KPI is processed; in test mode min(test_limit, \|all\|) KPIs drawn from the list |
| Registrar.FilesWritten | register_kpis_enhanced.py:505-519 | the invalid-SQL side file is written iff there are invalid SQLs |
| Registrar.KpiRegistrar.constructor | src/kpi_registrar.py:40 | a new registrar starts with an empty set, empty lists and zero counters, and the invariants hold |
| Registrar.KpiRegistrar.ProcessKpi | src/kpi_registrar.py:404-455 | one loop iteration updates the fields as the step function says and keeps the invariants; the posted question keeps `kpi.get('kpi_name', 'Unknown KPI')` and a failed validation files its message |
| Registrar.KpiRegistrar.RegisterAll | src/kpi_registrar.py:403-455 | the loop numbered from 1 leaves the state of the whole run and keeps the invariants |
| Registrar.KpiRegistrar.RegisterKpisWithValidation | src/kpi_registrar.py:340-459 | the loop runs iff authentication, the database id, the collection id ("jae's test SQL" or "jae's validated SQL") and the file load all succeed; otherwise nothing changes |
| Registrar.IndexOf | register_kpis_enhanced.py:532 | the position of the first '--test', absent iff there is none |
| Registrar.TestLimit | register_kpis_enhanced.py:526-536 | the limit is 50 unless the token right after the first '--test' exists and is all digits; then it is that number |
| Registrar.TestLimitExamples | register_kpis_enhanced.py:530-536 | '--test 7' gives 7 and '--test x' gives 50 |
| QuickRegistrar.QuickCollectionFound | archive/To_be_delete/register_kpis_to_metabase.py:106-150 | the quick collection is the first listed collection named exactly "jae's quick analysis", with no create request |
| QuickRegistrar.QuickCollectionCreated | archive/To_be_delete/register_kpis_to_metabase.py:106-150 | the collection is created iff no listed collection carries the name |
| QuickRegistrar.QuickQuestion | archive/To_be_delete/register_kpis_to_metabase.py:152-164 | the name defaults to 'Unknown KPI' and the SQL to ''; the description follows the registrar's rule |
| QuickRegistrar.QuestionsOf | archive/To_be_delete/register_kpis_to_metabase.py:255-263 | one question per KPI |
| QuickRegistrar.QuestionsOfIndex | archive/To_be_delete/register_kpis_to_metabase.py:255-258 | the i-th question posted is the one for the i-th KPI |
| QuickRegistrar.Successes | archive/To_be_delete/register_kpis_to_metabase.py:258-261 | the successes number at most the KPIs |
| QuickRegistrar.SuccessesBounds | archive/To_be_delete/register_kpis_to_metabase.py:258-261 | all creates succeeding registers every KPI; all failing registers none |
| QuickRegistrar.AppendOne | archive/To_be_delete/register_kpis_to_metabase.py:255-263 | one more KPI adds its question, plus one success when its create succeeds |
| QuickRegistrar.EmptyTableAddsNothing | archive/To_be_delete/register_kpis_to_metabase.py:247-250 | a table without KPIs contributes nothing |
| QuickRegistrar.PostOne | archive/To_be_delete/register_kpis_to_metabase.py:255-263 | one create request appends the KPI's question, counts it as a success iff creation succeeded, and keeps total = successful + failed |
| QuickRegistrar.PostTable | archive/To_be_delete/register_kpis_to_metabase.py:255-263 | the inner loop extends the posted questions and successes by the table's KPIs, keeping total = successful + failed |
| QuickRegistrar.PostTables | archive/To_be_delete/register_kpis_to_metabase.py:243-263 | the outer loop posts one question per KPI of the file, in order; total = successful + failed = number posted |
| QuickRegistrar.RegisterKpisFromJson | archive/To_be_delete/register_kpis_to_metabase.py:202-263 | nothing is posted unless authentication, the database id, the collection id and the file load succeed; otherwise every KPI is posted and total = successful + failed |
| SqlFixer.CaseWarnings | archive/To_be_delete/sql_validator_and_fixer.py:162-164 | a case warning is issued for a field iff its lower-case form occurs in the lower-cased SQL but its exact spelling does not |
| SqlFixer.IssuesOf | archive/To_be_delete/sql_validator_and_fixer.py:155-188 | 'Missing SELECT statement' iff no SELECT in the upper-cased SQL; 'Missing FROM clause' likewise; 'JOIN statement missing ON clause' iff JOIN occurs and no ON does; no other issue |
| SqlFixer.CheckSql | archive/To_be_delete/sql_validator_and_fixer.py:140-196 | has_issues iff issues are non-empty, has_warnings iff warnings are non-empty; the three issues exactly as above |
| SqlFixer.SuggestionsDoNotFlag | archive/To_be_delete/sql_validator_and_fixer.py:166-195 | the flags depend only on issues and warnings, never on suggestions |
| SqlFixer.CaseWarningIssued | archive/To_be_delete/sql_validator_and_fixer.py:162-164 | a field differing only in case draws its warning and sets has_warnings |
| SqlFixer.LastNonNewline | archive/To_be_delete/sql_validator_and_fixer.py:306 | where the greedy `.+` group backtracks to: the last non-newline position of a range |
| SqlFixer.LineEnd | archive/To_be_delete/sql_validator_and_fixer.py:306 | `.+` stops at the first newline |
| SqlFixer.GroupStart | archive/To_be_delete/sql_validator_and_fixer.py:306 | group 1 starts after at least one whitespace character past WHERE, at a non-newline character |
| SqlFixer.FilterHasInterval | archive/To_be_delete/sql_validator_and_fixer.py:307 | the appended filter holds 'INTERVAL 1 MONTH' |
| SqlFixer.WhereSubChangesOrFilters | archive/To_be_delete/sql_validator_and_fixer.py:305-310 | the WHERE substitution either changes nothing or leaves the one-month filter in the text |
| SqlFixer.WhereSub | archive/To_be_delete/sql_validator_and_fixer.py:305-310 | the WHERE substitution; WhereSubChangesOrFilters and SingleLineMatch state what it does |
| SqlFixer.SingleLineMatch | archive/To_be_delete/sql_validator_and_fixer.py:305-310 | on single-line SQL the match runs to the end, so the filter is appended after the condition |
| SqlFixer.SuffixHasInterval | archive/To_be_delete/sql_validator_and_fixer.py:313 | the no-WHERE suffix holds 'INTERVAL 1 MONTH' |
| SqlFixer.AddDefaultDuration | archive/To_be_delete/sql_validator_and_fixer.py:294-315 | identity when the upper-cased SQL has INTERVAL, MONTH, WEEK or DAY; without WHERE, the fixed suffix is appended; the output is the input or holds 'INTERVAL 1 MONTH' |
| SqlFixer.UpperKeepsInfix | archive/To_be_delete/sql_validator_and_fixer.py:296-299 | upper-casing keeps any occurrence of a text without lower-case letters, so an added filter makes MONTH visible to the next call |
| SqlFixer.AddDefaultDurationIdempotent | archive/To_be_delete/sql_validator_and_fixer.py:294-315 | adding the default duration twice equals adding it once |
| SqlFixer.FencedStrip | archive/To_be_delete/sql_validator_and_fixer.py:245 | a fenced reply is unchanged by the initial strip |
| SqlFixer.FencedOpen | archive/To_be_delete/sql_validator_and_fixer.py:248-249 | a leading fence (three backticks, then 'sql') is recognised and the slice drops the given count |
| SqlFixer.FencedText | archive/To_be_delete/sql_validator_and_fixer.py:245-249 | strip and opening slice together |
| SqlFixer.StripFenceBody | archive/To_be_delete/sql_validator_and_fixer.py:248-253 | corrected stripping returns the fenced body, trimmed |
| SqlFixer.StripFenceAsWrittenBody | archive/To_be_delete/sql_validator_and_fixer.py:248-253 | as written, the first character after the fence is lost, then the rest is trimmed |
| SqlFixer.StripFence | archive/To_be_delete/sql_validator_and_fixer.py:248-253 | corrected stripping: the result is no longer than the reply and is trimmed at both ends |
| SqlFixer.StripFenceAsWritten | archive/To_be_delete/sql_validator_and_fixer.py:248-253 | as written: the result is no longer than the reply and is trimmed at both ends |
| SqlFixer.FenceOffByOne | archive/To_be_delete/sql_validator_and_fixer.py:248-249 | a fence followed directly by the query loses the query's first character, unlike the corrected stripping |
| SqlFixer.FixSqlWithLlm | archive/To_be_delete/sql_validator_and_fixer.py:198-257 | no API key, or a failing call, gives None; with a key and a reply there is always a text, and a reply fenced around a body gives the trimmed body (corrected stripping) |
| SqlFixer.FixSqlWithLlmAsWritten | archive/To_be_delete/sql_validator_and_fixer.py:198-257 | as shipped: no API key, or a failing call, gives None; a reply fenced around a non-empty body gives the body without its first character, trimmed |
| SqlFixer.AsWrittenFixDiffers | archive/To_be_delete/sql_validator_and_fixer.py:248-249 | for a body fenced directly, the shipped fix is the body minus its first character while the corrected fix is the body, so the two runs re-test different queries |
| SqlFixer.ExecSuccessIff | archive/To_be_delete/sql_validator_and_fixer.py:259-292 | success iff status 200 and `data.rows` is present with at least one row, so zero rows fails |
| SqlFixer.TestSqlExecution | archive/To_be_delete/sql_validator_and_fixer.py:259-292 | a raised request is an exception; any status other than 200 is an HTTP failure with that status; a success comes from a 200 reply with a positive row count |
| SqlFixer.Classify | archive/To_be_delete/sql_validator_and_fixer.py:363-439 | a KPI is filed valid only when the duration rewrite left its SQL unchanged; a 'default_duration_added' fix always differs from the original; the LLM branch is stated by LlmBranch |
| SqlFixer.FirstRunDecides | archive/To_be_delete/sql_validator_and_fixer.py:380-398 | when the rewritten query runs, the KPI is valid iff the rewrite changed nothing and fixed iff it changed something |
| SqlFixer.LlmBranch | archive/To_be_delete/sql_validator_and_fixer.py:398-439 | when the rewritten query fails, the KPI is filed 'llm_fixed' with the fix iff a non-empty fix came back and ran with rows; otherwise it is problematic with the first run's error, and llm_fix_attempted is true iff a non-empty fix came back |
| SqlFixer.FixedQueriesRun | archive/To_be_delete/sql_validator_and_fixer.py:380-418 | every query filed as fixed is one the database ran with rows |
| SqlFixer.NoKeyNoFix | archive/To_be_delete/sql_validator_and_fixer.py:399-439 | without an API key a failing query is problematic, with no fix attempted |
| SqlFixer.FileAllCounts | archive/To_be_delete/sql_validator_and_fixer.py:351-442 | every KPI lands in exactly one of the three lists; each list only grows |
| SqlFixer.FileAll | archive/To_be_delete/sql_validator_and_fixer.py:351-442 | the lists grow by exactly one entry in total per KPI |
| SqlFixer.ValidationReport | archive/To_be_delete/sql_validator_and_fixer.py:458-487 | total_processed is the sum of the three counts; the problematic file is written iff there are problematic queries |
| SqlFixer.SqlValidatorAndFixer.constructor | archive/To_be_delete/sql_validator_and_fixer.py:317-350 | the three result lists start empty |
| SqlFixer.SqlValidatorAndFixer.ValidateAndFixAll | archive/To_be_delete/sql_validator_and_fixer.py:345-442 | the loops file every KPI of the file; total = valid + fixed + problematic, and each count is how much its list grew |
| Assessor.ParseRating | archive/To_be_delete/sql_validator_and_business_assessor.py:169-194 | high iff "HIGH VALUE" occurs in the upper-cased reply; 'No reason provided' without "REASON:"; a failing call defaults to high with 'Assessment failed - defaulting to high value' |
| Assessor.AfterLastHasNoSep | archive/To_be_delete/sql_validator_and_business_assessor.py:177 | the text after the last separator holds no separator |
| Assessor.ReasonAfterLastMarker | archive/To_be_delete/sql_validator_and_business_assessor.py:177 | when the trimmed reply holds "REASON:", the reason is the trimmed text after its last occurrence k: no occurrence starts after k, and the reason is `Strip(s[k+7..])` |
| Assessor.AcceptLlmSql | archive/To_be_delete/sql_validator_and_business_assessor.py:357-366 | no reply gives None; the reply is cleaned (trim, remove the fences, trim) and accepted exactly when the cleaned text's upper-case form starts with SELECT or WITH, and the accepted text holds no fence marker (three backticks) |
| Assessor.AcceptedIsNonEmpty | archive/To_be_delete/sql_validator_and_business_assessor.py:363-364 | an accepted text has at least four characters |
| Assessor.PlainQueryAccepted | archive/To_be_delete/sql_validator_and_business_assessor.py:357-364 | a trimmed, unfenced SELECT reply is accepted unchanged |
| Assessor.FencedQueryAccepted | archive/To_be_delete/sql_validator_and_business_assessor.py:357-366 | a reply fenced as three backticks and 'sql' around a trimmed SELECT or WITH query without backticks is accepted as that query |
| Assessor.Unfence | archive/To_be_delete/sql_validator_and_business_assessor.py:360-362 | cleaning such a fenced reply leaves exactly the text between the fences |
| Assessor.CleanItems | archive/To_be_delete/sql_validator_and_business_assessor.py:547-548 | cleaning a list keeps its length |
| Assessor.CleanString | archive/To_be_delete/sql_validator_and_business_assessor.py:536-542 | the cleaned string is trimmed: it neither starts nor ends with whitespace |
| Assessor.CleanJson | archive/To_be_delete/sql_validator_and_business_assessor.py:534-552 | strings stay strings, lists stay lists of the same length, dicts stay dicts with the same keys, other values are unchanged |
| Assessor.CleanMembers | archive/To_be_delete/sql_validator_and_business_assessor.py:545-546 | cleaning a dict keeps its keys, in order |
| Assessor.CleanKeepsShape | archive/To_be_delete/sql_validator_and_business_assessor.py:534-552 | cleaning keeps the structure all the way down: same kinds, same keys, same lengths |
| Assessor.CleanItemsKeepShape | archive/To_be_delete/sql_validator_and_business_assessor.py:547-548 | list elements keep their structure |
| Assessor.CleanMembersKeepShape | archive/To_be_delete/sql_validator_and_business_assessor.py:545-546 | dict values keep their structure |
| Assessor.CleanStringFixed | archive/To_be_delete/sql_validator_and_business_assessor.py:536-542 | a trimmed string with neither marker is left as it is |
| Assessor.SelectRange | archive/To_be_delete/sql_validator_and_business_assessor.py:639-650 | the range is rejected iff start < 1, end > n or start > end; otherwise it is `all[start-1:end]`, of length end - start + 1 |
| Assessor.ShippedRange | archive/To_be_delete/sql_validator_and_business_assessor.py:635-650 | with 1 and 536 the run goes ahead iff the file holds at least 536 KPIs, and then takes the first 536 |
| Assessor.FieldKeysDistinct | archive/To_be_delete/sql_validator_and_business_assessor.py:204 | the lower-cased field-name keys are distinct |
| Assessor.SchemaKeys | archive/To_be_delete/sql_validator_and_business_assessor.py:203-204 | field keys exist only for a dict schema |
| Assessor.SelectClause | archive/To_be_delete/sql_validator_and_business_assessor.py:210-216 | a SELECT clause exists only when both 'select' and 'from' occur |
| Assessor.SelectIssues | archive/To_be_delete/sql_validator_and_business_assessor.py:219-228 | at most one SELECT issue per key |
| Assessor.WhereIssues | archive/To_be_delete/sql_validator_and_business_assessor.py:235-241 | at most one WHERE issue per key |
| Assessor.SelectIssuesIff | archive/To_be_delete/sql_validator_and_business_assessor.py:219-228 | a key is reported by the SELECT check iff it is flagged there |
| Assessor.IssueNameInjective | archive/To_be_delete/sql_validator_and_business_assessor.py:228 | the key can be read back from the issue text |
| Assessor.SyntaxIssuesIff | archive/To_be_delete/sql_validator_and_business_assessor.py:244-254 | no syntax issue iff 'select' and 'from' each occur exactly once |
| Assessor.SchemaCheckOf | archive/To_be_delete/sql_validator_and_business_assessor.py:196-266 | is_valid iff the select and from counts are 1, 'from' occurs and a non-empty table name occurs (column findings never matter); an invalid result has issues; the third value is always None |
| Assessor.MissingFromReportedTwice | archive/To_be_delete/sql_validator_and_business_assessor.py:248-254 | SQL without 'from' draws both 'Missing FROM clause' and 'Multiple FROM clauses detected' |
| Assessor.SelectLoop | archive/To_be_delete/sql_validator_and_business_assessor.py:219-228 | the SELECT loop computes the issue specification |
| Assessor.WhereLoop | archive/To_be_delete/sql_validator_and_business_assessor.py:235-241 | the WHERE loop computes the issue specification |
| Assessor.ValidateSqlAgainstSchema | archive/To_be_delete/sql_validator_and_business_assessor.py:196-266 | the loops and checks compute the schema-check specification |
| Assessor.WordEnd | archive/To_be_delete/sql_validator_and_business_assessor.py:299 | `\w+` stops at the first non-word character |
| Assessor.FromMatchEnd | archive/To_be_delete/sql_validator_and_business_assessor.py:299 | a `from\s+\w+` match covers at least six characters |
| Assessor.FromSubNoMatch | archive/To_be_delete/sql_validator_and_business_assessor.py:299-301 | without a match the FROM substitution changes nothing |
| Assessor.FromSub | archive/To_be_delete/sql_validator_and_business_assessor.py:299-301 | the FROM substitution; FromSubNoMatch and FromSubFirstMatch state what it does |
| Assessor.FromSubFirstMatch | archive/To_be_delete/sql_validator_and_business_assessor.py:299-301 | the first match is replaced, the text before it is kept, and the scan resumes after it |
| Assessor.SpacingPass | archive/To_be_delete/sql_validator_and_business_assessor.py:282-289 | at most one spacing fix per key |
| Assessor.SpacingPassKeepsSql | archive/To_be_delete/sql_validator_and_business_assessor.py:285-289 | the spacing "fix" replaces a pattern with the same string, so the SQL never changes |
| Assessor.FixRulesSources | archive/To_be_delete/sql_validator_and_business_assessor.py:279-302 | the rule-based result is the SQL itself or its FROM rewrite to the schema's table name |
| Assessor.FixRules | archive/To_be_delete/sql_validator_and_business_assessor.py:279-302 | the rule-based loop over the issues; FixRulesSources, FormattingIssuesKeepSql and SchemaIssuesSkipSpacing state what it returns |
| Assessor.FixIssue | archive/To_be_delete/sql_validator_and_business_assessor.py:279-302 | one issue of that loop; its effect is stated by the FixRules lemmas and SpacingPass |
| Assessor.FormattingIssuesKeepSql | archive/To_be_delete/sql_validator_and_business_assessor.py:279-289 | formatting issues alone never change the SQL |
| Assessor.SchemaIssuesSkipSpacing | archive/To_be_delete/sql_validator_and_business_assessor.py:280 | the schema check's issues ("may not be properly formatted", lines 228 and 241) do not hold "not properly formatted" unless the column name does, so the spacing branch never fires on them |
| Assessor.FixSqlIssuesOf | archive/To_be_delete/sql_validator_and_business_assessor.py:268-314 | a schema whose fields cannot be read gives the SQL back with the error entry |
| Assessor.LlmOverridesRules | archive/To_be_delete/sql_validator_and_business_assessor.py:305-309 | with issues and a different accepted LLM query, that query replaces any rule-based fix and is logged |
| Assessor.FixedSqlSources | archive/To_be_delete/sql_validator_and_business_assessor.py:268-314 | the fixed SQL is the SQL itself, its FROM rewrite or the LLM's query |
| Assessor.RunAll | archive/To_be_delete/sql_validator_and_business_assessor.py:394-515 | the loop leaves one KPI per input KPI |
| Assessor.StepKeepsInv | archive/To_be_delete/sql_validator_and_business_assessor.py:394-515 | each iteration keeps the counter and list invariants and moves exactly one of high/low value |
| Assessor.Step | archive/To_be_delete/sql_validator_and_business_assessor.py:394-515 | one KPI of the loop; StepKeepsInv, LowValueSkipped, NoSchemaSkipped and StepRewritesOnlySql state what it does |
| Assessor.RunAllKeepsInv | archive/To_be_delete/sql_validator_and_business_assessor.py:394-515 | after the run the invariants hold, and high + low value grew by the number of KPIs |
| Assessor.LowValueSkipped | archive/To_be_delete/sql_validator_and_business_assessor.py:410-424 | a low-value KPI is logged for removal and skipped: no assessment entry, no validation, KPI unchanged |
| Assessor.NoSchemaSkipped | archive/To_be_delete/sql_validator_and_business_assessor.py:427-438 | a KPI without a schema is recorded as skipped and gets no assessment entry |
| Assessor.StepRewritesOnlySql | archive/To_be_delete/sql_validator_and_business_assessor.py:462-478 | the loop rewrites only a KPI's SQL, and only to the fixed SQL it files |
| Assessor.BusinessAssessor.constructor | archive/To_be_delete/sql_validator_and_business_assessor.py:372-392 | all counters start at zero |
| Assessor.BusinessAssessor.ValidateAndFixKpis | archive/To_be_delete/sql_validator_and_business_assessor.py:372-532 | without authentication or a database id: empty outputs, nothing changed; otherwise the counters, outputs and rewritten KPI array are those of the whole run |
| SqlTester.SqlsOf | archive/To_be_delete/test_tb_market_order_sql.py:112-122 | at most one query entry per KPI |
| SqlTester.SqlsOfMembership | archive/To_be_delete/test_tb_market_order_sql.py:112-122 | exactly the KPIs with a non-empty query are collected, the name defaulting to 'Unknown KPI' |
| SqlTester.SqlsOfPrefix | archive/To_be_delete/test_tb_market_order_sql.py:112-122 | collection keeps file order: a prefix of the KPIs gives a prefix of the queries |
| SqlTester.KeepWithSql | archive/To_be_delete/test_tb_market_order_sql.py:114-122 | the appending loop computes the collection specification |
| SqlTester.CollectAllSqls | archive/To_be_delete/test_tb_market_order_sql.py:102-129 | the nested loops collect the queries of the file in table-then-KPI order |
| SqlTester.TestSqlExecutionDetailed | archive/To_be_delete/test_tb_market_order_sql.py:131-201 | a non-200 status fails carrying the status; a raise is 'exception' |
| SqlTester.SuccessCountsRows | archive/To_be_delete/test_tb_market_order_sql.py:154-166 | a 200 dict reply whose `data` is a dict with `rows` is a success carrying `len(rows)` (the row count of a list, zero included); a `rows` without a length is an exception |
| SqlTester.PartialWithoutRows | archive/To_be_delete/test_tb_market_order_sql.py:167-174 | a 200 reply without `data.rows` is 'partial' |
| SqlTester.Tally | archive/To_be_delete/test_tb_market_order_sql.py:257-262 | success + partial + failure is the number of results |
| SqlTester.TallyFailures | archive/To_be_delete/test_tb_market_order_sql.py:257-262 | exceptions count as failures |
| SqlTester.RecordsOf | archive/To_be_delete/test_tb_market_order_sql.py:236-254 | one stored record per tested query |
| SqlTester.RecordsOfAt | archive/To_be_delete/test_tb_market_order_sql.py:245-254 | the i-th stored record holds the i-th tested query and its classification |
| SqlTester.StatusesOf | archive/To_be_delete/test_tb_market_order_sql.py:257 | one status per record |
| SqlTester.StatusesOfAt | archive/To_be_delete/test_tb_market_order_sql.py:257 | the i-th status is the i-th record's classification |
| SqlTester.TallyAppend | archive/To_be_delete/test_tb_market_order_sql.py:257-262 | counting one more result bumps exactly the counter of its status |
| SqlTester.SqlTester.Count | archive/To_be_delete/test_tb_market_order_sql.py:257-262 | success counts 'success', partial counts 'partial', everything else is a failure |
| SqlTester.SqlTester.TestSelected | archive/To_be_delete/test_tb_market_order_sql.py:236-262 | the loop appends one record per selected query, in order, and its counters are the tally of their statuses |
| SqlTester.Sample | archive/To_be_delete/test_tb_market_order_sql.py:226 | the sample is drawn from the collected queries |
| SqlTester.SqlTester.constructor | archive/To_be_delete/test_tb_market_order_sql.py:236-254 | the stored results start empty |
| SqlTester.SqlTester.TestRandomSqls | archive/To_be_delete/test_tb_market_order_sql.py:203-288 | nothing is tested without authentication, a database id or any query. Otherwise min(limit, \|all\|) queries are tested and recorded, the counters are the tally, and success + partial + failure = tested |
| PhaseTables.PhaseListShape | archive/To_be_delete/process_phase_tables.py:16-48 | the work list is the 10 phase-1 names followed by the 15 phase-2 names |
| PhaseTables.EntryInfo | archive/To_be_delete/process_phase_tables.py:120-127 | the stored name is the requested one; the description defaults to 'Phase table: <name>' |
| PhaseTables.NewEntry | archive/To_be_delete/process_phase_tables.py:117-130 | an entry is built iff the result is a dict with 'kpis' (even an empty list); it has table_info, field_details and kpis, with the result's kpis |
| PhaseTables.FromHit | archive/To_be_delete/process_phase_tables.py:98-130 | a table is added if and only if the first hit's id gives truthy metadata, the generation returns, and an entry can be built from its result; the entry is then the one stored |
| PhaseTables.TableOutcome | archive/To_be_delete/process_phase_tables.py:82-146 | a table is skipped iff it is already in the map; an absent table with a search hit is decided by its first hit, and one without a hit fails |
| PhaseTables.EmptyKpisStored | archive/To_be_delete/process_phase_tables.py:117-132 | a generated dict whose 'kpis' is the empty list is stored, with that empty list, and counts as processed |
| PhaseTables.MergeCounts | archive/To_be_delete/process_phase_tables.py:82-146 | each table moves exactly one of processed, skipped, errors |
| PhaseTables.MergeOnlyAdds | archive/To_be_delete/process_phase_tables.py:82-130 | existing entries are never overwritten; every new key is a work-list name whose entry holds 'kpis' |
| PhaseTables.NoKpisKeyAddsNothing | archive/To_be_delete/process_phase_tables.py:117-142 | when no generation result holds 'kpis', the run stores nothing and processes nothing |
| PhaseTables.MergeNoKpisStep | archive/To_be_delete/process_phase_tables.py:117-142 | one table without 'kpis' in its result is not added |
| PhaseTables.ArchiveRunAddsNothing | archive/To_be_delete/process_phase_tables.py:115-117 | with the imported generator, whose result is a list, the run adds nothing |
| PhaseTables.MergeLoop | archive/To_be_delete/process_phase_tables.py:77-151 | the loop computes the merge specification from zero counters |
| PhaseTables.Merge | archive/To_be_delete/process_phase_tables.py:77-151 | the state after the loop; its promises are stated by MergeCounts, MergeOnlyAdds and NoKpisKeyAddsNothing |
| PhaseTables.ProcessPhaseTables | archive/To_be_delete/process_phase_tables.py:12-173 | nothing without authentication; otherwise the merge over the 25 names, from the loaded map or {} when the file is missing |
| TbTables.TbFilter | archive/To_be_delete/process_tb_tables.py:32-35 | the filter completes iff every table has a string name, and keeps at most all tables |
| TbTables.TbFilterIff | archive/To_be_delete/process_tb_tables.py:32-35 | a table is kept iff its upper-cased name starts with 'TB_', and the kept tables are the catalog filtered in its own order |
| TbTables.GetTbTables | archive/To_be_delete/process_tb_tables.py:17-42 | every returned table has a name starting with 'TB_' after upper-casing; a failing status or no body gives []; a listing whose names are all strings gives its TB_ tables in listing order, and [] otherwise |
| TbTables.GetTbTablesLoop | archive/To_be_delete/process_tb_tables.py:17-42 | the loop computes the filter specification |
| TbTables.FilterNoneStays | archive/To_be_delete/process_tb_tables.py:32-35 | once a table raises, the filter fails whatever follows |
| TbTables.FirstNamed | archive/To_be_delete/process_tb_tables.py:137-140 | the first table with exactly that name, or none |
| TbTables.Picks | archive/To_be_delete/process_tb_tables.py:135-140 | at most one pick per name, all from the list |
| TbTables.PicksFirstMatches | archive/To_be_delete/process_tb_tables.py:135-140 | the k-th pick is the first table carrying the k-th important name that has a table, so picks follow the name list; every such name is picked, and nothing else |
| TbTables.PicksDistinct | archive/To_be_delete/process_tb_tables.py:137-147 | with distinct names no table is picked twice |
| TbTables.PadProps | archive/To_be_delete/process_tb_tables.py:142-148 | padding keeps the picks first, adds only listed tables not already chosen, at strictly increasing listing positions, stops at 15, takes every table when it stays below 15, and keeps distinctness |
| TbTables.Pad | archive/To_be_delete/process_tb_tables.py:142-148 | the padding; PadProps states it |
| TbTables.ImportantNamesDistinct | archive/To_be_delete/process_tb_tables.py:127-132 | the 15 important names are distinct |
| TbTables.SelectProps | archive/To_be_delete/process_tb_tables.py:127-150 | at most 15 distinct listed tables, important ones first; below 15, every table is selected |
| TbTables.Select | archive/To_be_delete/process_tb_tables.py:127-150 | the selection; SelectProps states it |
| TbTables.FindFirstNamed | archive/To_be_delete/process_tb_tables.py:137-140 | the inner loop with `break` finds the first table with the name |
| TbTables.PickLoop | archive/To_be_delete/process_tb_tables.py:135-140 | the loop computes the picks |
| TbTables.PadLoop | archive/To_be_delete/process_tb_tables.py:142-148 | the padding loop computes the padding |
| TbTables.ChooseTables | archive/To_be_delete/process_tb_tables.py:127-150 | the selection block computes the selection |
| TbTables.TbTableResultMeaning | archive/To_be_delete/process_tb_tables.py:44-98 | a raise iff the metadata fetch raises or non-empty metadata has an unreadable summary (a non-dict table_info, a sizeless fields or related_tables value, or a non-empty fields value that is not a list whose first eight entries are dicts with string names); None iff the metadata is empty or no KPI comes back; otherwise a dict whose table_name (default 'Unknown'), table_id, metadata and kpis are the table's |
| TbTables.UnnamedSampleFieldRaises | archive/To_be_delete/process_tb_tables.py:67-70 | a field whose name is null among the first eight stops the run |
| TbTables.TbTableResult | archive/To_be_delete/process_tb_tables.py:44-98 | one table of the run; TbTableResultMeaning states it |
| TbTables.TableResultFields | archive/To_be_delete/process_tb_tables.py:90-95 | a result carries the table's name (default 'Unknown'), id, metadata and KPIs |
| TbTables.TbKeysProduced | archive/To_be_delete/process_tb_tables.py:153-158 | every key names a table that produced a result |
| TbTables.TbResults | archive/To_be_delete/process_tb_tables.py:153-158 | the result map; TbKeysProduced and TbLastProducedWins state it |
| TbTables.TbLastProducedWins | archive/To_be_delete/process_tb_tables.py:153-158 | a table that produced a result is in the map under its name, with its own result, unless a later one has the same name |
| TbTables.TbResultsLoop | archive/To_be_delete/process_tb_tables.py:153-158 | the loop computes the results map |
| TbTables.TbResultsNoneStays | archive/To_be_delete/process_tb_tables.py:155-156 | once a table's processing raises, the run fails whatever follows |
| TbTables.TbMain | archive/To_be_delete/process_tb_tables.py:100-184 | nothing without authentication or TB tables; otherwise the selection, its results map, and a save iff the map is non-empty |
| Discover.SearchTermsAreChars | archive/To_be_delete/discover_tb_tables.py:25 | iterating the string "TB_" gives "T", "B" and "_" |
| Discover.ContainsChar | archive/To_be_delete/metabase_kpi_extractor.py:227 | a one-character search string occurs iff the character does |
| Discover.SearchMatchesAnyChar | archive/To_be_delete/discover_tb_tables.py:25 | a table matches the "TB_" search iff its lower-cased name contains 't', 'b' or '_' |
| Discover.Summary | archive/To_be_delete/discover_tb_tables.py:48-63 | a summary has exactly name, id and description (defaults 'Unknown', 'Unknown', 'No description') |
| Discover.Split | archive/To_be_delete/discover_tb_tables.py:47-63 | \|processed\| + \|not processed\| = number of tables |
| Discover.SplitMembership | archive/To_be_delete/discover_tb_tables.py:47-63 | a table is in the processed list iff its name is a key of the results file, and in the other list otherwise; each list holds the summaries of its tables in search order |
| Discover.NoFileNoneProcessed | archive/To_be_delete/discover_tb_tables.py:40-41 | without a results file every table is not processed |
| Discover.SplitComplete | archive/To_be_delete/discover_tb_tables.py:47-63 | every table's summary lands in the list its name selects |
| Discover.SplitSound | archive/To_be_delete/discover_tb_tables.py:47-63 | every summary in a list comes from a table that list's rule selects |
| Discover.SplitLoop | archive/To_be_delete/discover_tb_tables.py:47-63 | the loop computes the split |
| Discover.DiscoverAllTbTables | archive/To_be_delete/discover_tb_tables.py:11-102 | nothing without authentication or search results; otherwise the split against the loaded file's keys, or no keys when it is missing |

## Left out

- HTTP transport, authentication, headers and timeouts: every reply is an input value, and authentication is a Boolean.
- The OpenAI calls and prompt texts: the model keeps only the post-processing of the returned text, an input of type `Option<string>` (None when the call raises).
- JSON parsing: `json.loads` is an abstract partial function from text to value.
- File reads and writes: a loaded file is an input `Option`. The model states which files are written (`Registrar.FilesWritten`, `SqlFixer.ValidationReport`), not their contents. JSON errors other than a missing file propagate in the source and are not modelled.
- Logging text, console printing, `time.sleep`, timestamps, floating-point percentages and success rates.
- Randomness: `random.sample` is a given list of distinct positions of the right size.
- Case mapping is ASCII-only. `\w` is ASCII word characters. `\s` and `strip` use the `str.isspace` set.
- The `re.sub` replacement `\1` is modelled as the matched group's text. Other backslash escapes in replacement strings are not modelled; the FROM rewrite's replacement embeds the schema's table name, which would be read for escapes.
- Values in the results file that are not strings (for name, description, business value and SQL) are left out.
- `analyze_schema_from_json` and the schema cache of the SQL fixer: the fixer receives field names per table directly.
- `get_table_schema` in the assessor is an input (`schemaOf`).
- The exception texts of `validate_sql_execution` and `test_sql_execution` are abstract (`Raised`, `ExecError`).
- SqlFixer.TestSqlExecution: the message strings are modelled as the outcome datatype, not as text.
- SqlFixer.SqlValidatorAndFixer.ValidateAndFixAll: starts after authentication, the database lookup and the file load. These are the same early returns as the registrars', which are modelled.
- Registrar.KpiRegistrar.RegisterKpisWithValidation: the cleanup's deletions are modelled separately by `Registrar.RemoveExistingKpis`; their success only prints a warning.
- Registrar.Step: a query whose validation raised is filed with the message prefix 'Exception during SQL execution: ' only, because the exception's text is abstract; the 'validation_details' copy of each invalid_sqls entry is not kept.
- Registrar.TestLimit: `isdigit` is modelled over the ASCII digits only. Python also accepts other Unicode digits: '--test ٣' gives 3 in the script and 50 in the model, and a digit such as '²' passes `isdigit` but makes `int()` raise.
- Py.Json has no floating-point numbers: float values in replies and files (such as 'running_time') are not represented.
- Py.Repr: strings are quoted without escaping backslashes, newlines or mixed quotes.
- TbTables.PadProps: the membership test `table not in selected_tables` compares dicts regardless of key order, while `Py.Json` object equality compares members in order; two dicts with the same members in another order count as different here.
- SqlFixer.FixSqlWithLlm: the run uses the corrected fence stripping (see Findings). As shipped, the seven-character slice is modelled by `SqlFixer.FixSqlWithLlmAsWritten`, and `SqlFixer.AsWrittenFixDiffers` shows where the two re-test different queries.
- SqlFixer.Classify: an LLM fix is re-tested as the corrected stripping returns it, not as the shipped slice does; a reply fenced directly around its query is filed here as the query's own result, where the script re-tests the query without its first character.
- SqlFixer.SqlValidatorAndFixer.ValidateAndFixAll: inherits `SqlFixer.Classify`'s use of the corrected stripping.
- The assessor's `main` lists the selected KPIs with `kpi_info['kpi']['kpi_name']` (archive/To_be_delete/sql_validator_and_business_assessor.py:655), which raises KeyError for a KPI without a name; the listing is not modelled.
- The exception texts after 'Schema validation error: ' and 'Error during SQL fixing: ' (lines 263 and 312 of the assessor) are not modelled: `Assessor.SchemaErrorIssue` and `Assessor.FixErrorEntry` hold the prefixes only.
- The results file's shape is assumed: every table is a dict whose 'kpis', when present, is a list, and every KPI is a dict (`Results.TableEntry`, `Results.KpiEntry`). The scripts raise on other shapes.
- Registrar.CollectionName: test mode and the collection name are one expression; no separate contract.
- `print_final_summary`, `save_detailed_logs` and the assessor's log lists (`business_assessment_logs` and the others) are output only.
- PhaseTables.ProcessPhaseTables: the save after each add is left out. So is an exception raised after an entry was added, which would move both the processed and the error counter.
- process_tb_table's display of fields and KPIs is not modelled as text; the reads it performs on the metadata are (`TbTables.SummaryReadable`), and the KPI lines only read normalised dicts. The listing print loop only recomputes the selection.
- The `new_tables` printout at the end of the phase run.
- The prompt text of src/kpi_extractor.py (lines 243-300) is not modelled. Its reads run before the guarded LLM call, and the ones that can raise are: `fields[:20]` and `field.get` (`Extractor.FieldList`), `table_info.get` on a non-dict, and `', '.join` over related-table names that are not all strings (`Extractor.RelatedNamesJoin`). Each makes `Extractor.GenerateForTable` return None, the raise that escapes the function; when none of them raises, the function returns the field-level result.
- The archived `save_results` (lines 365-372 of the archived extractor) only writes a file.
- Unmodelled files: setup.py, explore_api.py, test_step1_auth.py through test_step4_integration.py, test_openai.py and test_enhanced_registration.py are interactive probes; regenerate_kpis*.py are orchestration; sql_validation_config.py holds only unused constants.

## Findings

| source | as written | input that shows it | evidently intended | confidence | as-written member | corrected member |
|---|---|---|---|---|---|---|
| archive/To_be_delete/sql_validator_and_fixer.py:248-249 | a reply opening with the six-character fence (three backticks, then 'sql') is sliced from index 7, one character past the fence | the fenced reply whose body is 'SELECT 1' comes out as 'ELECT 1' | drop exactly the fence, giving 'SELECT 1' | high (not executed) | SqlFixer.FenceOffByOne | SqlFixer.StripFenceBody |
