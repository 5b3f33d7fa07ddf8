/** Table discovery (archive/To_be_delete/discover_tb_tables.py): search the catalog for
    TB tables and split them into those already in the results file and the rest. */
module Discover {
  import opened Wrappers
  import opened Text
  import opened Py
  import opened ArchiveExtractor
  import Extractor
  import Seqs

  /** The search is handed the string "TB_", which it iterates character by character. */
  const SearchTerms: seq<string> := Chars("TB_")

  lemma SearchTermsAreChars()
    ensures SearchTerms == ["T", "B", "_"]
  {
  }

  /** `c in s` for a one-character `c`. */
  lemma ContainsChar(s: string, c: char)
    ensures Contains(s, [c]) <==> exists i :: 0 <= i < |s| && s[i] == c
  {
    ContainsIff(s, [c]);
    if Contains(s, [c]) {
      var i :| MatchAt(s, [c], i);
      assert s[i..i + 1][0] == s[i];
    }
    if exists i :: 0 <= i < |s| && s[i] == c {
      var i :| 0 <= i < |s| && s[i] == c;
      assert MatchAt(s, [c], i);
    }
  }

  /** A table matches the "TB_" search iff its lower-cased name contains 't', 'b' or '_'. */
  lemma SearchMatchesAnyChar(name: string)
    ensures Extractor.NameMatches(name, SearchTerms)
      <==> exists i :: 0 <= i < |name| && LowerChar(name[i]) in {'t', 'b', '_'}
  {
    SearchTermsAreChars();
    assert Lower("T") == "t" && Lower("B") == "b" && Lower("_") == "_";
    ContainsChar(Lower(name), 't');
    ContainsChar(Lower(name), 'b');
    ContainsChar(Lower(name), '_');
    if Extractor.NameMatches(name, SearchTerms) {
      var j :| 0 <= j < |SearchTerms| && Contains(Lower(name), Lower(SearchTerms[j]));
      assert j == 0 || j == 1 || j == 2;
    }
    if exists i :: 0 <= i < |name| && LowerChar(name[i]) in {'t', 'b', '_'} {
      var i :| 0 <= i < |name| && LowerChar(name[i]) in {'t', 'b', '_'};
      assert Lower(name)[i] == LowerChar(name[i]);
      if LowerChar(name[i]) == 't' {
        assert Contains(Lower(name), Lower(SearchTerms[0]));
      } else if LowerChar(name[i]) == 'b' {
        assert Contains(Lower(name), Lower(SearchTerms[1]));
      } else {
        assert Contains(Lower(name), Lower(SearchTerms[2]));
      }
    }
  }

  /** The summary dict written for a table. */
  function Summary(t: Json): (r: Json)
    requires t.JObj?
    ensures r.JObj? && Keys(r.members) == ["name", "id", "description"]
  {
    JObj([Member("name", Get(t, "name", JStr("Unknown")).value),
          Member("id", Get(t, "id", JStr("Unknown")).value),
          Member("description", Get(t, "description", JStr("No description")).value)])
  }

  /** `table_name in processed_tables`, the name against the results file's keys. */
  predicate IsProcessed(t: Json, keys: set<string>)
    requires t.JObj?
  {
    var n := Get(t, "name", JStr("Unknown")).value;
    n.JStr? && n.s in keys
  }

  datatype Discovery = Discovery(processed: seq<Json>, notProcessed: seq<Json>)

  /** The categorising loop over `tables`. */
  function Split(tables: seq<Json>, keys: set<string>): (r: Discovery)
    requires forall t :: t in tables ==> t.JObj?
    ensures |r.processed| + |r.notProcessed| == |tables|
    decreases |tables|
  {
    if |tables| == 0 then Discovery([], [])
    else
      var pre := tables[..|tables| - 1];
      var t := tables[|tables| - 1];
      assert forall x :: x in pre ==> x in tables;
      var acc := Split(pre, keys);
      if IsProcessed(t, keys) then acc.(processed := acc.processed + [Summary(t)])
      else acc.(notProcessed := acc.notProcessed + [Summary(t)])
  }

  /** The rule of the processed list (`processed`) or of the other list (`!processed`). */
  function ProcessedIs(keys: set<string>, processed: bool): Json -> bool {
    (t: Json) => t.JObj? && IsProcessed(t, keys) == processed
  }

  /** The summaries of a list of tables, in its order. */
  function Summaries(ts: seq<Json>): (r: seq<Json>)
    requires forall t :: t in ts ==> t.JObj?
    ensures |r| == |ts| && forall k :: 0 <= k < |ts| ==> r[k] == Summary(ts[k])
  {
    seq(|ts|, k requires 0 <= k < |ts| => Summary(ts[k]))
  }

  /** A table lands in the processed list iff its name is a key of the results file, and
      in the other list otherwise; each list keeps the order of the search result. */
  lemma SplitMembership(tables: seq<Json>, keys: set<string>)
    requires forall t :: t in tables ==> t.JObj?
    ensures forall t :: t in tables && IsProcessed(t, keys) ==> Summary(t) in Split(tables, keys).processed
    ensures forall t :: t in tables && !IsProcessed(t, keys) ==> Summary(t) in Split(tables, keys).notProcessed
    ensures forall x :: x in Split(tables, keys).processed ==>
      exists t :: t in tables && IsProcessed(t, keys) && x == Summary(t)
    ensures forall x :: x in Split(tables, keys).notProcessed ==>
      exists t :: t in tables && !IsProcessed(t, keys) && x == Summary(t)
    ensures Split(tables, keys).processed == Summaries(Seqs.Filter(tables, ProcessedIs(keys, true)))
    ensures Split(tables, keys).notProcessed == Summaries(Seqs.Filter(tables, ProcessedIs(keys, false)))
  {
    SplitComplete(tables, keys);
    SplitSound(tables, keys);
    SplitInOrder(tables, keys);
  }

  lemma {:induction false} SplitInOrder(tables: seq<Json>, keys: set<string>)
    requires forall t :: t in tables ==> t.JObj?
    ensures Split(tables, keys).processed == Summaries(Seqs.Filter(tables, ProcessedIs(keys, true)))
    ensures Split(tables, keys).notProcessed == Summaries(Seqs.Filter(tables, ProcessedIs(keys, false)))
    decreases |tables|
  {
    if |tables| > 0 {
      var pre := tables[..|tables| - 1];
      var t := tables[|tables| - 1];
      assert forall x :: x in pre ==> x in tables;
      SplitInOrder(pre, keys);
      var yes, no := Seqs.Filter(pre, ProcessedIs(keys, true)), Seqs.Filter(pre, ProcessedIs(keys, false));
      if IsProcessed(t, keys) {
        assert Seqs.Filter(tables, ProcessedIs(keys, true)) == yes + [t];
        assert Seqs.Filter(tables, ProcessedIs(keys, false)) == no;
        SummariesSnoc(yes, t);
      } else {
        assert Seqs.Filter(tables, ProcessedIs(keys, true)) == yes;
        assert Seqs.Filter(tables, ProcessedIs(keys, false)) == no + [t];
        SummariesSnoc(no, t);
      }
    }
  }

  lemma SummariesSnoc(ts: seq<Json>, t: Json)
    requires forall x :: x in ts ==> x.JObj?
    requires t.JObj?
    ensures Summaries(ts + [t]) == Summaries(ts) + [Summary(t)]
  {
  }

  /** Every table's summary is in the list its name selects. */
  lemma SplitComplete(tables: seq<Json>, keys: set<string>)
    requires forall t :: t in tables ==> t.JObj?
    ensures forall t :: t in tables && IsProcessed(t, keys) ==> Summary(t) in Split(tables, keys).processed
    ensures forall t :: t in tables && !IsProcessed(t, keys) ==> Summary(t) in Split(tables, keys).notProcessed
  {
    forall u | u in tables
      ensures IsProcessed(u, keys) ==> Summary(u) in Split(tables, keys).processed
      ensures !IsProcessed(u, keys) ==> Summary(u) in Split(tables, keys).notProcessed
    {
      SplitCompleteAt(tables, keys, u);
    }
  }

  lemma {:induction false} SplitCompleteAt(tables: seq<Json>, keys: set<string>, u: Json)
    requires forall t :: t in tables ==> t.JObj?
    requires u in tables
    ensures IsProcessed(u, keys) ==> Summary(u) in Split(tables, keys).processed
    ensures !IsProcessed(u, keys) ==> Summary(u) in Split(tables, keys).notProcessed
    decreases |tables|
  {
    var pre := tables[..|tables| - 1];
    var t := tables[|tables| - 1];
    if u != t {
      assert tables == pre + [t];
      assert u in pre;
      assert forall x :: x in pre ==> x in tables;
      SplitCompleteAt(pre, keys, u);
    }
  }

  /** Every summary in a list comes from a table that list's rule selects. */
  lemma {:induction false} SplitSound(tables: seq<Json>, keys: set<string>)
    requires forall t :: t in tables ==> t.JObj?
    ensures forall x :: x in Split(tables, keys).processed ==>
      exists t :: t in tables && IsProcessed(t, keys) && x == Summary(t)
    ensures forall x :: x in Split(tables, keys).notProcessed ==>
      exists t :: t in tables && !IsProcessed(t, keys) && x == Summary(t)
    decreases |tables|
  {
    if |tables| > 0 {
      var pre := tables[..|tables| - 1];
      var t := tables[|tables| - 1];
      assert forall x :: x in pre ==> x in tables;
      SplitSound(pre, keys);
      var acc := Split(pre, keys);
      var r := Split(tables, keys);
      forall x | x in r.processed
        ensures exists u :: u in tables && IsProcessed(u, keys) && x == Summary(u)
      {
        if x in acc.processed {
          var u :| u in pre && IsProcessed(u, keys) && x == Summary(u);
          assert u in tables;
        } else {
          assert t in tables;
        }
      }
      forall x | x in r.notProcessed
        ensures exists u :: u in tables && !IsProcessed(u, keys) && x == Summary(u)
      {
        if x in acc.notProcessed {
          var u :| u in pre && !IsProcessed(u, keys) && x == Summary(u);
          assert u in tables;
        } else {
          assert t in tables;
        }
      }
    }
  }

  /** Without a results file no table counts as processed. */
  lemma {:induction false} NoFileNoneProcessed(tables: seq<Json>)
    requires forall t :: t in tables ==> t.JObj?
    ensures Split(tables, {}).processed == [] && |Split(tables, {}).notProcessed| == |tables|
    decreases |tables|
  {
    if |tables| > 0 {
      var pre := tables[..|tables| - 1];
      assert forall x :: x in pre ==> x in tables;
      NoFileNoneProcessed(pre);
    }
  }

  /** `discover_all_tb_tables`: None when authentication fails or the search finds
      nothing; a missing results file (None) counts nothing as processed. */
  method DiscoverAllTbTables(authenticated: bool, tablesReply: Reply, loaded: Option<map<string, Json>>)
    returns (r: Option<Discovery>)
    ensures var found := SearchResult(tablesReply, SearchTerms);
      if !authenticated || found == [] then r.None?
      else r == Some(Split(found, if loaded.Some? then loaded.value.Keys else {}))
  {
    if !authenticated {
      return None;
    }
    var all := SearchTablesByName(tablesReply, SearchTerms);
    if all == [] {
      return None;
    }
    var keys: set<string> := if loaded.Some? then loaded.value.Keys else {};
    var d := SplitLoop(all, keys);
    r := Some(d);
  }

  method SplitLoop(tables: seq<Json>, keys: set<string>) returns (d: Discovery)
    requires forall t :: t in tables ==> t.JObj?
    ensures d == Split(tables, keys)
  {
    var processed, notProcessed := [], [];
    var i := 0;
    while i < |tables|
      invariant 0 <= i <= |tables|
      invariant Split(tables[..i], keys) == Discovery(processed, notProcessed)
    {
      SplitStep(tables, i, keys);
      var t := tables[i];
      if IsProcessed(t, keys) {
        processed := processed + [Summary(t)];
      } else {
        notProcessed := notProcessed + [Summary(t)];
      }
      i := i + 1;
    }
    assert tables[..|tables|] == tables;
    d := Discovery(processed, notProcessed);
  }

  lemma SplitStep(tables: seq<Json>, i: nat, keys: set<string>)
    requires forall t :: t in tables ==> t.JObj?
    requires i < |tables|
    ensures forall t :: t in tables[..i + 1] ==> t in tables
    ensures var acc := Split(tables[..i], keys);
      Split(tables[..i + 1], keys) ==
        if IsProcessed(tables[i], keys) then acc.(processed := acc.processed + [Summary(tables[i])])
        else acc.(notProcessed := acc.notProcessed + [Summary(tables[i])])
  {
    assert tables[..i + 1][..i] == tables[..i];
  }
}
