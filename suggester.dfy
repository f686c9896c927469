/**
 * The suggestion query (`make_main_query`, `make_meta_filter`) and the
 * reading of its answer (`get_suggestions`). The builders are single nested
 * dict literals; each is paired with a reader that walks a JSON tree, checks
 * every key and constant, and gives back the builder's arguments, so that
 * "the reader accepts `q` with these arguments" and "`q` is what the builder
 * makes of them" are proved to be the same statement.
 */
module Suggester {
  import opened Wrappers
  import opened Json

  const TieBreaker: real := 0.5
  const PrefixBoost: real := 100.0
  const PhraseBoost: real := 10.0
  const PhraseSlop: int := 2
  const MinimumShouldMatch: int := 1
  const PageSize: int := 20

  /** The one-entry dict `{k: v}`. */
  function Obj1(k: string, v: Json): Json
  {
    JObj(map[k := v])
  }

  /** `v` when `j` is exactly the one-entry dict `{k: v}`. */
  function Only(j: Json, k: string): (r: Option<Json>)
    ensures r.Some? ==> j == Obj1(k, r.value)
  {
    if j.JObj? && j.fields.Keys == {k} then Some(j.fields[k]) else None
  }

  /** `{"range": {field: {"gte": bound}}}`. */
  function Range(field: string, bound: Json): Json
  {
    Obj1("range", Obj1(field, Obj1("gte", bound)))
  }

  function ReadRange(j: Json, field: string): (r: Option<Json>)
    ensures r.Some? ==> j == Range(field, r.value)
  {
    var inner :- Only(j, "range");
    var f :- Only(inner, field);
    Only(f, "gte")
  }

  // ------------------------------------------------------------ meta filter

  /** `make_meta_filter(min_viewcount, min_answercount)`. */
  function MakeMetaFilter(minViewcount: int, minAnswercount: int): Json
  {
    Obj1("nested", JObj(map[
      "path" := JStr("meta"),
      "query" := Obj1("bool", Obj1("must", JArr([
        Range("meta.viewcount", JInt(minViewcount)),
        Range("meta.answercount", JInt(minAnswercount))])))]))
  }

  /**
   * The two lower bounds of a meta filter: a `nested` query on path `meta`
   * whose `bool.must` is exactly a range on `meta.viewcount` and one on
   * `meta.answercount`, in that order.
   */
  function ReadMetaFilter(f: Json): Option<(int, int)>
  {
    var nested :- Only(f, "nested");
    if !(nested.JObj? && nested.fields.Keys == {"path", "query"} && nested.fields["path"] == JStr("meta")) then None
    else
      var b :- Only(nested.fields["query"], "bool");
      var must :- Only(b, "must");
      if !(must.JArr? && |must.items| == 2) then None
      else
        var views :- ReadRange(must.items[0], "meta.viewcount");
        var answers :- ReadRange(must.items[1], "meta.answercount");
        if views.JInt? && answers.JInt? then Some((views.i, answers.i)) else None
  }

  lemma OnlyObj1(k: string, v: Json)
    ensures Only(Obj1(k, v), k) == Some(v)
  {
    assert Obj1(k, v).fields.Keys == {k};
  }

  lemma RangeRoundTrip(field: string, bound: Json)
    ensures ReadRange(Range(field, bound), field) == Some(bound)
  {
    OnlyObj1("range", Obj1(field, Obj1("gte", bound)));
    OnlyObj1(field, Obj1("gte", bound));
    OnlyObj1("gte", bound);
  }

  lemma MetaFilterRoundTrip(minViewcount: int, minAnswercount: int)
    ensures ReadMetaFilter(MakeMetaFilter(minViewcount, minAnswercount)) == Some((minViewcount, minAnswercount))
  {
    var f := MakeMetaFilter(minViewcount, minAnswercount);
    var must := JArr([Range("meta.viewcount", JInt(minViewcount)), Range("meta.answercount", JInt(minAnswercount))]);
    var nested := JObj(map["path" := JStr("meta"), "query" := Obj1("bool", Obj1("must", must))]);
    OnlyObj1("nested", nested);
    assert nested.fields.Keys == {"path", "query"};
    OnlyObj1("bool", Obj1("must", must));
    OnlyObj1("must", must);
    RangeRoundTrip("meta.viewcount", JInt(minViewcount));
    RangeRoundTrip("meta.answercount", JInt(minAnswercount));
  }

  /** Only the filters `make_meta_filter` builds are read as meta filters. */
  lemma MetaFilterExact(f: Json, minViewcount: int, minAnswercount: int)
    requires ReadMetaFilter(f) == Some((minViewcount, minAnswercount))
    ensures f == MakeMetaFilter(minViewcount, minAnswercount)
  {
    var nested := Only(f, "nested").value;
    var must := Only(Only(nested.fields["query"], "bool").value, "must").value;
    assert must == JArr([must.items[0], must.items[1]]);
    assert nested.fields == map["path" := JStr("meta"), "query" := nested.fields["query"]];
  }

  // ------------------------------------------------------------ main query

  /** The three `dis_max` sub-queries, each carrying `partial` unchanged. */
  function SubQueries(partial: string): seq<Json>
  {
    [ Obj1("prefix", Obj1("suggestion.kw", JObj(map["value" := JStr(partial), "boost" := JFloat(PrefixBoost)]))),
      Obj1("match_phrase_prefix", Obj1("suggestion", JObj(map[
        "query" := JStr(partial), "slop" := JInt(PhraseSlop), "boost" := JFloat(PhraseBoost)]))),
      Obj1("match", Obj1("suggestion", JObj(map["query" := JStr(partial), "minimum_should_match" := JInt(MinimumShouldMatch)]))) ]
  }

  /** The `function_score` wrapper: relevance times the log of the shingle's `freq` (1 when missing). */
  function Scored(partial: string): Json
  {
    Obj1("function_score", JObj(map[
      "query" := Obj1("dis_max", JObj(map["tie_breaker" := JFloat(TieBreaker), "queries" := JArr(SubQueries(partial))])),
      "boost_mode" := JStr("multiply"),
      "field_value_factor" := JObj(map["field" := JStr("freq"), "missing" := JInt(1), "modifier" := JStr("log")])]))
  }

  /** The filter: the shingle is at least as long as `partial`, and `metaFilter` holds. */
  function Filter(partial: string, metaFilter: Json): Json
  {
    Obj1("bool", Obj1("must", JArr([Range("length", JInt(|partial|)), metaFilter])))
  }

  /** `make_main_query(partial, meta_filter)`. */
  function MakeMainQuery(partial: string, metaFilter: Json): Json
  {
    JObj(map[
      "query" := Obj1("bool", JObj(map["must" := Scored(partial), "filter" := Filter(partial, metaFilter)])),
      "size" := JInt(PageSize),
      "_source" := JArr([JStr("suggestion")])])
  }

  /** The parameters of a `{kind: {field: params}}` sub-query whose parameters have exactly the keys given. */
  function ReadParams(j: Json, kind: string, field: string, keys: set<string>): (r: Option<map<string, Json>>)
    ensures r.Some? ==> j == Obj1(kind, Obj1(field, JObj(r.value))) && r.value.Keys == keys
  {
    var inner :- Only(j, kind);
    var params :- Only(inner, field);
    if params.JObj? && params.fields.Keys == keys then Some(params.fields) else None
  }

  /** The text the three sub-queries all search for, with every boost and option checked. */
  function ReadSubQueries(qs: seq<Json>): Option<string>
  {
    if |qs| != 3 then None
    else
      var p :- ReadParams(qs[0], "prefix", "suggestion.kw", {"value", "boost"});
      var mpp :- ReadParams(qs[1], "match_phrase_prefix", "suggestion", {"query", "slop", "boost"});
      var m :- ReadParams(qs[2], "match", "suggestion", {"query", "minimum_should_match"});
      if !(p["value"].JStr? && p["boost"] == JFloat(PrefixBoost)) then None
      else if !(mpp["query"] == p["value"] && mpp["slop"] == JInt(PhraseSlop) && mpp["boost"] == JFloat(PhraseBoost)) then None
      else if !(m["query"] == p["value"] && m["minimum_should_match"] == JInt(MinimumShouldMatch)) then None
      else Some(p["value"].s)
  }

  /** The searched text of the `function_score` part, with the scoring constants checked. */
  function ReadScored(j: Json): Option<string>
  {
    var fs :- Only(j, "function_score");
    if !(fs.JObj? && fs.fields.Keys == {"query", "boost_mode", "field_value_factor"}) then None
    else if fs.fields["boost_mode"] != JStr("multiply") then None
    else if fs.fields["field_value_factor"] != JObj(map["field" := JStr("freq"), "missing" := JInt(1), "modifier" := JStr("log")]) then None
    else
      var dm :- Only(fs.fields["query"], "dis_max");
      if !(dm.JObj? && dm.fields.Keys == {"tie_breaker", "queries"} && dm.fields["tie_breaker"] == JFloat(TieBreaker) && dm.fields["queries"].JArr?) then None
      else ReadSubQueries(dm.fields["queries"].items)
  }

  /** The meta filter of the filter part, when its length bound is `|partial|`. */
  function ReadFilter(j: Json, partial: string): Option<Json>
  {
    var b :- Only(j, "bool");
    var must :- Only(b, "must");
    if !(must.JArr? && |must.items| == 2) then None
    else
      var bound :- ReadRange(must.items[0], "length");
      if bound == JInt(|partial|) then Some(must.items[1]) else None
  }

  /** The searched text and the meta filter of a main query. */
  function ReadMainQuery(q: Json): Option<(string, Json)>
  {
    if !(q.JObj? && q.fields.Keys == {"query", "size", "_source"}) then None
    else if !(q.fields["size"] == JInt(PageSize) && q.fields["_source"] == JArr([JStr("suggestion")])) then None
    else
      var b :- Only(q.fields["query"], "bool");
      if !(b.JObj? && b.fields.Keys == {"must", "filter"}) then None
      else
        var partial :- ReadScored(b.fields["must"]);
        var metaFilter :- ReadFilter(b.fields["filter"], partial);
        Some((partial, metaFilter))
  }

  lemma ParamsRoundTrip(kind: string, field: string, params: map<string, Json>)
    ensures ReadParams(Obj1(kind, Obj1(field, JObj(params))), kind, field, params.Keys) == Some(params)
  {
    OnlyObj1(kind, Obj1(field, JObj(params)));
    OnlyObj1(field, JObj(params));
  }

  lemma SubQueriesRoundTrip(partial: string)
    ensures ReadSubQueries(SubQueries(partial)) == Some(partial)
  {
    var p := map["value" := JStr(partial), "boost" := JFloat(PrefixBoost)];
    var mpp := map["query" := JStr(partial), "slop" := JInt(PhraseSlop), "boost" := JFloat(PhraseBoost)];
    var m := map["query" := JStr(partial), "minimum_should_match" := JInt(MinimumShouldMatch)];
    ParamsRoundTrip("prefix", "suggestion.kw", p);
    ParamsRoundTrip("match_phrase_prefix", "suggestion", mpp);
    ParamsRoundTrip("match", "suggestion", m);
    assert p.Keys == {"value", "boost"};
    assert mpp.Keys == {"query", "slop", "boost"};
    assert m.Keys == {"query", "minimum_should_match"};
  }

  /** Reading the scored part only looks at the sub-queries through `ReadSubQueries`. */
  lemma ReadScoredParts(queries: seq<Json>, partial: string)
    requires ReadSubQueries(queries) == Some(partial)
    ensures ReadScored(Obj1("function_score", JObj(map[
      "query" := Obj1("dis_max", JObj(map["tie_breaker" := JFloat(TieBreaker), "queries" := JArr(queries)])),
      "boost_mode" := JStr("multiply"),
      "field_value_factor" := JObj(map["field" := JStr("freq"), "missing" := JInt(1), "modifier" := JStr("log")])]))) == Some(partial)
  {
    var dm := map["tie_breaker" := JFloat(TieBreaker), "queries" := JArr(queries)];
    var factor := JObj(map["field" := JStr("freq"), "missing" := JInt(1), "modifier" := JStr("log")]);
    var fs := map["query" := Obj1("dis_max", JObj(dm)), "boost_mode" := JStr("multiply"), "field_value_factor" := factor];
    OnlyObj1("function_score", JObj(fs));
    assert fs.Keys == {"query", "boost_mode", "field_value_factor"};
    assert fs["boost_mode"] == JStr("multiply") && fs["field_value_factor"] == factor;
    OnlyObj1("dis_max", JObj(dm));
    assert dm.Keys == {"tie_breaker", "queries"};
    assert dm["tie_breaker"] == JFloat(TieBreaker) && dm["queries"] == JArr(queries);
  }

  lemma ScoredRoundTrip(partial: string)
    ensures ReadScored(Scored(partial)) == Some(partial)
  {
    SubQueriesRoundTrip(partial);
    ReadScoredParts(SubQueries(partial), partial);
  }

  lemma FilterRoundTrip(partial: string, metaFilter: Json)
    ensures ReadFilter(Filter(partial, metaFilter), partial) == Some(metaFilter)
  {
    var must := JArr([Range("length", JInt(|partial|)), metaFilter]);
    OnlyObj1("bool", Obj1("must", must));
    OnlyObj1("must", must);
    RangeRoundTrip("length", JInt(|partial|));
  }

  /** Reading a main query only looks at its two parts through `ReadScored` and `ReadFilter`. */
  lemma ReadMainQueryParts(scored: Json, filter: Json, partial: string, metaFilter: Json)
    requires ReadScored(scored) == Some(partial)
    requires ReadFilter(filter, partial) == Some(metaFilter)
    ensures ReadMainQuery(JObj(map[
      "query" := Obj1("bool", JObj(map["must" := scored, "filter" := filter])),
      "size" := JInt(PageSize),
      "_source" := JArr([JStr("suggestion")])])) == Some((partial, metaFilter))
  {
    var b := JObj(map["must" := scored, "filter" := filter]);
    var q := map["query" := Obj1("bool", b), "size" := JInt(PageSize), "_source" := JArr([JStr("suggestion")])];
    assert q.Keys == {"query", "size", "_source"};
    assert q["size"] == JInt(PageSize) && q["_source"] == JArr([JStr("suggestion")]);
    OnlyObj1("bool", b);
    assert b.fields.Keys == {"must", "filter"};
    assert b.fields["must"] == scored && b.fields["filter"] == filter;
  }

  /** The query is read back as the text and the meta filter it was built from. */
  lemma MainQueryRoundTrip(partial: string, metaFilter: Json)
    ensures ReadMainQuery(MakeMainQuery(partial, metaFilter)) == Some((partial, metaFilter))
  {
    ScoredRoundTrip(partial);
    FilterRoundTrip(partial, metaFilter);
    ReadMainQueryParts(Scored(partial), Filter(partial, metaFilter), partial, metaFilter);
  }

  /** A dict with exactly the keys `k1`, `k2` is the display of its own entries. */
  lemma Dict2(m: map<string, Json>, k1: string, k2: string)
    requires m.Keys == {k1, k2}
    ensures m == map[k1 := m[k1], k2 := m[k2]]
  {
  }

  lemma Dict3(m: map<string, Json>, k1: string, k2: string, k3: string)
    requires m.Keys == {k1, k2, k3}
    ensures m == map[k1 := m[k1], k2 := m[k2], k3 := m[k3]]
  {
  }

  lemma SubQueriesExact(qs: seq<Json>, partial: string)
    requires ReadSubQueries(qs) == Some(partial)
    ensures qs == SubQueries(partial)
  {
    var p := ReadParams(qs[0], "prefix", "suggestion.kw", {"value", "boost"}).value;
    var mpp := ReadParams(qs[1], "match_phrase_prefix", "suggestion", {"query", "slop", "boost"}).value;
    var m := ReadParams(qs[2], "match", "suggestion", {"query", "minimum_should_match"}).value;
    Dict2(p, "value", "boost");
    Dict3(mpp, "query", "slop", "boost");
    Dict2(m, "query", "minimum_should_match");
    assert qs == [qs[0], qs[1], qs[2]];
  }

  /** An accepted scored part is the fixed `function_score` shape around accepted sub-queries. */
  lemma ScoredParts(j: Json, partial: string) returns (queries: seq<Json>)
    requires ReadScored(j) == Some(partial)
    ensures ReadSubQueries(queries) == Some(partial)
    ensures j == Obj1("function_score", JObj(map[
      "query" := Obj1("dis_max", JObj(map["tie_breaker" := JFloat(TieBreaker), "queries" := JArr(queries)])),
      "boost_mode" := JStr("multiply"),
      "field_value_factor" := JObj(map["field" := JStr("freq"), "missing" := JInt(1), "modifier" := JStr("log")])]))
  {
    var fs := Only(j, "function_score").value;
    var dm := Only(fs.fields["query"], "dis_max").value;
    queries := dm.fields["queries"].items;
    Dict2(dm.fields, "tie_breaker", "queries");
    Dict3(fs.fields, "query", "boost_mode", "field_value_factor");
  }

  lemma ScoredExact(j: Json, partial: string)
    requires ReadScored(j) == Some(partial)
    ensures j == Scored(partial)
  {
    var queries := ScoredParts(j, partial);
    SubQueriesExact(queries, partial);
  }

  lemma FilterExact(j: Json, partial: string, metaFilter: Json)
    requires ReadFilter(j, partial) == Some(metaFilter)
    ensures j == Filter(partial, metaFilter)
  {
    var must := Only(Only(j, "bool").value, "must").value;
    assert must.items == [must.items[0], must.items[1]];
  }

  /** An accepted main query is the fixed outer shape around an accepted scored part and filter. */
  lemma MainQueryParts(q: Json, partial: string, metaFilter: Json) returns (scored: Json, filter: Json)
    requires ReadMainQuery(q) == Some((partial, metaFilter))
    ensures ReadScored(scored) == Some(partial) && ReadFilter(filter, partial) == Some(metaFilter)
    ensures q == JObj(map[
      "query" := Obj1("bool", JObj(map["must" := scored, "filter" := filter])),
      "size" := JInt(PageSize),
      "_source" := JArr([JStr("suggestion")])])
  {
    var b := Only(q.fields["query"], "bool").value;
    scored, filter := b.fields["must"], b.fields["filter"];
    Dict2(b.fields, "must", "filter");
    Dict3(q.fields, "query", "size", "_source");
  }

  /** Only the queries `make_main_query` builds are read as main queries. */
  lemma MainQueryExact(q: Json, partial: string, metaFilter: Json)
    requires ReadMainQuery(q) == Some((partial, metaFilter))
    ensures q == MakeMainQuery(partial, metaFilter)
  {
    var scored, filter := MainQueryParts(q, partial, metaFilter);
    ScoredExact(scored, partial);
    FilterExact(filter, partial, metaFilter);
  }

  // ------------------------------------------------------------ the answer

  /** Where a hit keeps its suggestion: `hit["_source"]["suggestion"]`. */
  const SuggestionPath: seq<string> := ["_source", "suggestion"]

  /**
   * The list comprehension over the hits: one suggestion per hit, in hit
   * order; None when some hit lacks `_source.suggestion` (a KeyError or
   * TypeError in Python).
   */
  function SuggestionsOf(hits: seq<Json>): (r: Option<seq<Json>>)
    ensures r.Some? <==> forall i :: 0 <= i < |hits| ==> At(hits[i], SuggestionPath).Some?
    ensures r.Some? ==> |r.value| == |hits| && forall i :: 0 <= i < |hits| ==> At(hits[i], SuggestionPath) == Some(r.value[i])
    decreases |hits|
  {
    if hits == [] then Some([])
    else
      var first :- At(hits[0], SuggestionPath);
      var rest :- SuggestionsOf(hits[1..]);
      assert forall i :: 1 <= i < |hits| ==> hits[i] == hits[1..][i - 1];
      Some([first] + rest)
  }

  /**
   * `[hit["_source"]["suggestion"] for hit in response["hits"]["hits"]]`.
   * Python iterates whatever `hits` is: an empty dict or an empty string
   * yields no hits, the keys or characters of a non-empty one are strings
   * that cannot be indexed by a key, and other scalars are not iterable.
   */
  function Suggestions(response: Json): Option<seq<Json>>
  {
    var hits :- At(response, ["hits", "hits"]);
    match hits
    case JArr(items) => SuggestionsOf(items)
    case JObj(fields) => if fields == map[] then Some([]) else None
    case JStr(s) => if s == [] then Some([]) else None
    case _ => None
  }

  /**
   * `get_suggestions(partial, min_viewcount, min_answercount)`: `search`
   * stands for posting the query and decoding the answer, None when the
   * request fails or `raise_for_status` raises.
   */
  function GetSuggestions(partial: string, minViewcount: int, minAnswercount: int, search: Json -> Option<Json>): Option<seq<Json>>
  {
    var response :- search(MakeMainQuery(partial, MakeMetaFilter(minViewcount, minAnswercount)));
    Suggestions(response)
  }

  /**
   * The query posted is the one that reads back as `partial` and a meta
   * filter with the two bounds; the suggestions are those of the answer.
   */
  lemma GetSuggestionsAsks(partial: string, minViewcount: int, minAnswercount: int, search: Json -> Option<Json>, q: Json, f: Json)
    requires ReadMainQuery(q) == Some((partial, f)) && ReadMetaFilter(f) == Some((minViewcount, minAnswercount))
    ensures GetSuggestions(partial, minViewcount, minAnswercount, search) ==
      (if search(q).Some? then Suggestions(search(q).value) else None)
  {
    MainQueryExact(q, partial, f);
    MetaFilterExact(f, minViewcount, minAnswercount);
  }
}
