/**
 * The five research-graph nodes as maps from the state to a partial
 * update. Each model or search call is an input: `Reply` is what the call
 * returned (its text) or the message of the exception it raised. JSON
 * decoding is the parameter `decode`, None meaning a decode error.
 */
module Nodes {
  import opened Wrappers
  import opened Text
  import opened Seqs
  import opened Json
  import opened State
  import opened Config
  import SearchUtils
  import Prompts

  /** The outcome of an awaited model or search call. */
  datatype Reply = Replied(content: string) | Raised(message: string)

  /**
   * Python raises these on the malformed values the nodes index or measure;
   * the model writes the exception class in place of the interpreter's text.
   */
  const TypeErrorText: string := "TypeError"
  const AttributeErrorText: string := "AttributeError"

  // ---------------------------------------------------------------------------
  // generate_queries_node

  /**
   * The question: `original_question`, else the first message's content.
   * None when that message has no `content` attribute (an AttributeError).
   */
  function QuestionOf(s: OverallState): (q: Option<string>)
    ensures s.originalQuestion != "" ==> q == Some(s.originalQuestion)
    ensures s.originalQuestion == "" && s.messages == [] ==> q == Some("")
  {
    if s.originalQuestion != "" || s.messages == [] then Some(s.originalQuestion)
    else match s.messages[0]
      case Human(c) => Some(c)
      case Ai(c) => Some(c)
      case OtherMessage(_) => None
  }

  /**
   * The part of a reply handed to the JSON decoder: from the first `{` to
   * the last `}` when both occur in that order, else the whole reply.
   */
  function JsonCandidate(content: string): (c: string)
    ensures Contains(content, c)
    ensures c != content ==> |c| >= 2 && c[0] == '{' && c[|c| - 1] == '}'
    ensures ('{' !in content || '}' !in content) ==> c == content
    ensures '{' in content && '}' in content && FindFirst(content, '{').value < FindLast(content, '}').value ==>
      c == content[FindFirst(content, '{').value..FindLast(content, '}').value + 1]
  {
    if '{' in content && '}' in content then
      var start := FindFirst(content, '{').value;
      var end := FindLast(content, '}').value;
      if start < end then
        SearchUtils.ContainsSlice(content, start, end + 1);
        content[start..end + 1]
      else
        SearchUtils.ContainsSlice(content, 0, |content|);
        assert content[0..|content|] == content;
        content
    else
      SearchUtils.ContainsSlice(content, 0, |content|);
      assert content[0..|content|] == content;
      content
  }

  /** The three queries used when the reply gives none. */
  function FallbackQueries(question: string): seq<string>
  {
    [question + " research", question + " analysis", question + " facts"]
  }

  function StringValues(qs: seq<string>): (items: seq<Json>)
    ensures |items| == |qs| && AllStrings(items) && StringItems(items) == qs
  {
    if qs == [] then [] else [JStr(qs[0])] + StringValues(qs[1..])
  }

  /** A non-empty list of strings. */
  predicate QueryListValue(v: Json)
  {
    v.JArr? && v.items != [] && AllStrings(v.items)
  }

  /** The first field whose value is a non-empty list of strings. */
  function FirstQueryList(fields: seq<(string, Json)>): (r: Option<Json>)
    ensures r.Some? ==> QueryListValue(r.value)
    ensures r.Some? ==> exists i :: (0 <= i < |fields| && fields[i].1 == r.value &&
      forall j :: 0 <= j < i ==> !QueryListValue(fields[j].1))
    ensures r.None? ==> forall i :: 0 <= i < |fields| ==> !QueryListValue(fields[i].1)
  {
    if fields == [] then None
    else if QueryListValue(fields[0].1) then Some(fields[0].1)
    else
      var r := FirstQueryList(fields[1..]);
      assert r.Some? ==> exists i :: (0 <= i < |fields| && fields[i].1 == r.value &&
        forall j :: 0 <= j < i ==> !QueryListValue(fields[j].1)) by {
        if r.Some? {
          var i :| 0 <= i < |fields[1..]| && fields[1..][i].1 == r.value &&
            forall j :: 0 <= j < i ==> !QueryListValue(fields[1..][j].1);
          assert fields[i + 1].1 == r.value;
          assert forall j :: 1 <= j < i + 1 ==> !QueryListValue(fields[j].1) by {
            forall j | 1 <= j < i + 1 ensures !QueryListValue(fields[j].1) {
              assert fields[j] == fields[1..][j - 1];
            }
          }
        }
      }
      r
  }

  /** The `queries` value of a decoded object, before truncation. */
  function QueriesValue(fields: seq<(string, Json)>, question: string): (v: Json)
    ensures HasKey(fields, "queries") ==> Some(v) == Get(fields, "queries")
    ensures !HasKey(fields, "queries") ==> QueryListValue(v)
  {
    if HasKey(fields, "queries") then Get(fields, "queries").value
    else match FirstQueryList(fields)
      case Some(v) => v
      case None => JArr(StringValues(FallbackQueries(question)))
  }

  /** The rationale of a decoded object: `rationale`, else the first present of four alternative keys. */
  function RationaleValue(fields: seq<(string, Json)>): Json
  {
    var r := Get(fields, "rationale").GetOr(JStr(""));
    if Truthy(r) then r
    else if HasKey(fields, "thought") then Get(fields, "thought").value
    else if HasKey(fields, "thoughts") then Get(fields, "thoughts").value
    else if HasKey(fields, "reasoning") then Get(fields, "reasoning").value
    else if HasKey(fields, "explanation") then Get(fields, "explanation").value
    else r
  }

  /**
   * `queries[:n]`: a list keeps its first `n` elements (the model keeps
   * their strings), a string its first `n` characters, each one a query;
   * any other value cannot be sliced (None, a TypeError).
   */
  function Truncate(v: Json, n: nat): (qs: Option<seq<string>>)
    ensures qs.Some? ==> |qs.value| <= n
    ensures v.JArr? && AllStrings(v.items) ==>
      qs.Some? && qs.value == StringItems(v.items)[..if |v.items| <= n then |v.items| else n]
  {
    match v
    case JArr(items) =>
      var k := if |items| <= n then |items| else n;
      assert AllStrings(items) ==> StringItems(items)[..k] == StringItems(items[..k]) by {
        if AllStrings(items) {
          assert AllStrings(items[..k]);
          assert forall i :: 0 <= i < k ==> items[..k][i] == items[i];
        }
      }
      Some(StringItems(items[..k]))
    case JStr(s) =>
      var k := if |s| <= n then |s| else n;
      Some(seq(k, i requires 0 <= i < k => [s[i]]))
    case _ => None
  }

  /** The update of the error path. */
  function QueryGenerationFailure(question: string, detail: string): Update
  {
    NoUpdate.(
      errors := ["Query generation failed: " + detail],
      queryList := Some([question]),
      rationale := Some(JStr("Fallback to original question due to error")),
      originalQuestion := Some(question))
  }

  /** `generate_queries_node(state)`, with the model's reply as an input. */
  function GenerateQueries(s: OverallState, cfg: ResearchAgentConfig, reply: Reply,
                           decode: string -> Option<Json>): (u: Update)
    ensures u.queryList.Some? && u.originalQuestion.Some? && u.rationale.Some?
    ensures u.researchLoopCount.None? && u.followUpQueries.None? && u.isSufficient.None?
    ensures u.searchResults == [] && u.sourcesGathered == [] && u.citations == [] && u.warnings == []
    ensures |u.errors| <= 1
    ensures u.errors == [] ==> |u.queryList.value| <= cfg.initialQueriesCount && u.currentPhase == Some(SearchWeb)
    ensures u.errors != [] ==>
      u.queryList == Some([u.originalQuestion.value]) && u.currentPhase.None? &&
      u.rationale == Some(JStr("Fallback to original question due to error"))
    ensures reply.Raised? && QuestionOf(s).Some? ==>
      u.errors == ["Query generation failed: " + reply.message] && u.originalQuestion == QuestionOf(s)
  {
    match QuestionOf(s)
    case None => QueryGenerationFailure(s.originalQuestion, AttributeErrorText)
    case Some(question) =>
      match reply
      case Raised(m) => QueryGenerationFailure(question, m)
      case Replied(content) =>
        var (queries, rationale) :=
          match decode(JsonCandidate(content))
          case Some(JObj(fields)) => (QueriesValue(fields, question), RationaleValue(fields))
          case _ => (JArr(StringValues(FallbackQueries(question))), JStr("Generated basic research queries"));
        match Truncate(queries, cfg.initialQueriesCount)
        case None => QueryGenerationFailure(question, TypeErrorText)
        case Some(qs) =>
          NoUpdate.(
            queryList := Some(qs),
            rationale := Some(rationale),
            originalQuestion := Some(question),
            currentPhase := Some(SearchWeb))
  }

  /** A reply that does not decode to an object yields the fallback queries, truncated. */
  lemma GenerateQueriesFallback(s: OverallState, cfg: ResearchAgentConfig, content: string,
                                decode: string -> Option<Json>)
    requires QuestionOf(s).Some?
    requires !decode(JsonCandidate(content)).Some? || !decode(JsonCandidate(content)).value.JObj?
    ensures var u := GenerateQueries(s, cfg, Replied(content), decode);
      var fb := FallbackQueries(QuestionOf(s).value);
      u.queryList == Some(fb[..if 3 <= cfg.initialQueriesCount then 3 else cfg.initialQueriesCount]) &&
      u.rationale == Some(JStr("Generated basic research queries")) && u.errors == []
  {
    var v := JArr(StringValues(FallbackQueries(QuestionOf(s).value)));
    assert Truncate(v, cfg.initialQueriesCount).Some?;
  }

  /** A `queries` list of strings is used, truncated to the configured count. */
  lemma GenerateQueriesFromKey(s: OverallState, cfg: ResearchAgentConfig, content: string,
                               decode: string -> Option<Json>, fields: seq<(string, Json)>, items: seq<Json>)
    requires QuestionOf(s).Some?
    requires decode(JsonCandidate(content)) == Some(JObj(fields))
    requires Get(fields, "queries") == Some(JArr(items)) && AllStrings(items)
    ensures var u := GenerateQueries(s, cfg, Replied(content), decode);
      var n := cfg.initialQueriesCount;
      u.queryList == Some(StringItems(items)[..if |items| <= n then |items| else n]) && u.errors == []
  {
    assert QueriesValue(fields, QuestionOf(s).value) == JArr(items);
    assert Truncate(JArr(items), cfg.initialQueriesCount).Some?;
  }

  /**
   * Without a `queries` key, the first non-empty list of strings among the
   * values is used; with none, the fallback queries.
   */
  lemma GenerateQueriesFromFirstList(s: OverallState, cfg: ResearchAgentConfig, content: string,
                                     decode: string -> Option<Json>, fields: seq<(string, Json)>)
    requires QuestionOf(s).Some?
    requires decode(JsonCandidate(content)) == Some(JObj(fields))
    requires !HasKey(fields, "queries")
    ensures var u := GenerateQueries(s, cfg, Replied(content), decode);
      var v := QueriesValue(fields, QuestionOf(s).value);
      var n := cfg.initialQueriesCount;
      && u.queryList == Some(StringItems(v.items)[..if |v.items| <= n then |v.items| else n])
      && (FirstQueryList(fields).Some? ==> v == FirstQueryList(fields).value)
      && (FirstQueryList(fields).None? ==> StringItems(v.items) == FallbackQueries(QuestionOf(s).value))
      && u.errors == []
  {
    var v := QueriesValue(fields, QuestionOf(s).value);
    assert Truncate(v, cfg.initialQueriesCount).Some?;
  }

  // ---------------------------------------------------------------------------
  // web_search_node

  /** What `state["messages"][0]` yields as a query: its content, or its text. */
  function MessageText(m: Message): string
  {
    match m
    case Human(c) => c
    case Ai(c) => c
    case OtherMessage(t) => t
  }

  /** The value of the first of `query`, `current_query` and `original_question` the task holds, else "". */
  function KeyedQuery(w: WebSearchState): Json
  {
    if w.query.Some? then w.query.value
    else if w.currentQuery.Some? then w.currentQuery.value
    else if w.originalQuestion.Some? then w.originalQuestion.value
    else JStr("")
  }

  /**
   * The search query: the first present of `query`, `current_query` and
   * `original_question`, taken even when it is empty; when it is falsy, the
   * first message's text; when that is empty too, "General research query".
   */
  function SearchQuery(w: WebSearchState): (q: Json)
    ensures Truthy(q)
    ensures Truthy(KeyedQuery(w)) ==> q == KeyedQuery(w)
    ensures !Truthy(KeyedQuery(w)) && w.messages != [] && MessageText(w.messages[0]) != "" ==>
      q == JStr(MessageText(w.messages[0]))
    ensures !Truthy(KeyedQuery(w)) && (w.messages == [] || MessageText(w.messages[0]) == "") ==>
      q == JStr("General research query")
  {
    var fromKeys := KeyedQuery(w);
    var q := if !Truthy(fromKeys) && w.messages != [] then JStr(MessageText(w.messages[0])) else fromKeys;
    if !Truthy(q) then JStr("General research query") else q
  }

  /**
   * A present key is taken even when it is empty: with an empty `query`, a
   * non-empty `current_query` or `original_question` is never searched.
   */
  lemma EmptyQueryKeyShadows(w: WebSearchState)
    requires w.query == Some(JStr(""))
    ensures w.messages != [] && MessageText(w.messages[0]) != "" ==> SearchQuery(w) == JStr(MessageText(w.messages[0]))
    ensures w.messages == [] ==> SearchQuery(w) == JStr("General research query")
  {
  }

  /** The task id: the `task_id` key, else one made from the clock. */
  function SearchTaskId(w: WebSearchState, stamp: string): string
  {
    if w.taskId.Some? then w.taskId.value else "task-" + stamp
  }

  /**
   * `web_search_node(state)`, with the search reply and the clock reading
   * (`stamp`) as inputs: exactly one result, with the sources found in the
   * reply text on success, or an error record and one error string.
   */
  function WebSearch(w: WebSearchState, reply: Reply, stamp: string): (u: Update)
    ensures u.OnlyAppends()
    ensures |u.searchResults| == 1 && u.searchResults[0].Single?
    ensures u.citations == [] && u.warnings == []
    ensures var r := u.searchResults[0].result;
      && r.query == SearchQuery(w) && r.taskId == SearchTaskId(w, stamp)
      && r.citations == [] && r.url == ""
      && (reply.Replied? ==>
            && r.relevance == Relevant && r.summary == reply.content
            && r.sources == SearchUtils.ExtractUrls(reply.content)
            && |u.sourcesGathered| == |r.sources|
            && (forall i :: 0 <= i < |r.sources| ==> u.sourcesGathered[i] == Url(r.sources[i]))
            && u.errors == [])
      && (reply.Raised? ==>
            && r.relevance == Irrelevant && r.summary == reply.message && r.sources == []
            && u.sourcesGathered == []
            && u.errors == ["Web search failed: " + reply.message])
  {
    var query := SearchQuery(w);
    var taskId := SearchTaskId(w, stamp);
    match reply
    case Replied(content) =>
      var urls := SearchUtils.ExtractUrls(content);
      var result := SearchResult("search-" + stamp + "-" + taskId, query, content, urls, taskId, Relevant, [], "");
      NoUpdate.(
        searchResults := [Single(result)],
        sourcesGathered := seq(|urls|, i requires 0 <= i < |urls| => Url(urls[i])))
    case Raised(m) =>
      var result := SearchResult("error-" + stamp + "-" + taskId, query, m, [], taskId, Irrelevant, [], "");
      NoUpdate.(
        searchResults := [Single(result)],
        errors := ["Web search failed: " + m])
  }

  /** How many of the replies raised: none exactly when all replied, all exactly when all raised. */
  function FailureCount(replies: seq<Reply>): (n: nat)
    ensures n <= |replies|
    ensures n == 0 <==> forall i :: 0 <= i < |replies| ==> replies[i].Replied?
    ensures n == |replies| <==> forall i :: 0 <= i < |replies| ==> replies[i].Raised?
  {
    if replies == [] then 0 else (if replies[0].Raised? then 1 else 0) + FailureCount(replies[1..])
  }

  /** The failures of two batches of replies add up. */
  lemma {:induction false} FailureCountAppend(a: seq<Reply>, b: seq<Reply>)
    ensures FailureCount(a + b) == FailureCount(a) + FailureCount(b)
  {
    if a == [] {
      assert a + b == b;
    } else {
      assert (a + b)[1..] == a[1..] + b;
      FailureCountAppend(a[1..], b);
    }
  }

  function SearchUpdates(ws: seq<WebSearchState>, replies: seq<Reply>, stamp: string): seq<Update>
    requires |ws| == |replies|
  {
    seq(|ws|, i requires 0 <= i < |ws| => WebSearch(ws[i], replies[i], stamp))
  }

  lemma {:induction false} SearchUpdatesCounts(ws: seq<WebSearchState>, replies: seq<Reply>, stamp: string)
    requires |ws| == |replies|
    ensures |ConcatMap(SearchUpdates(ws, replies, stamp), ResultsOf)| == |ws|
    ensures |ConcatMap(SearchUpdates(ws, replies, stamp), ErrorsOf)| == FailureCount(replies)
  {
    if ws != [] {
      SearchUpdatesCounts(ws[1..], replies[1..], stamp);
      assert SearchUpdates(ws, replies, stamp)[1..] == SearchUpdates(ws[1..], replies[1..], stamp);
    }
  }

  /**
   * The fan-out join of the search tasks: merged in any order, the state
   * gains exactly one result per task and one error per failed search, and
   * nothing else changes but the sources.
   */
  lemma SearchFanOut(s: OverallState, ws: seq<WebSearchState>, replies: seq<Reply>, stamp: string)
    requires |ws| == |replies|
    ensures var t := ApplyAll(s, SearchUpdates(ws, replies, stamp));
      && SameScalars(s, t)
      && |t.searchResults| == |s.searchResults| + |ws|
      && |t.errors| == |s.errors| + FailureCount(replies)
      && t.citations == s.citations && t.warnings == s.warnings
  {
    var us := SearchUpdates(ws, replies, stamp);
    ApplyAllKeepsScalars(s, us);
    ApplyAllAppends(s, us);
    SearchUpdatesCounts(ws, replies, stamp);
    assert ConcatMap(us, CitationsOf) == [] by { NoAppendedCitations(us); }
    assert ConcatMap(us, WarningsOf) == [] by { NoAppendedWarnings(us); }
  }

  lemma {:induction false} NoAppendedCitations(us: seq<Update>)
    requires forall i :: 0 <= i < |us| ==> us[i].citations == []
    ensures ConcatMap(us, CitationsOf) == []
  {
    if us != [] { NoAppendedCitations(us[1..]); }
  }

  lemma {:induction false} NoAppendedWarnings(us: seq<Update>)
    requires forall i :: 0 <= i < |us| ==> us[i].warnings == []
    ensures ConcatMap(us, WarningsOf) == []
  {
    if us != [] { NoAppendedWarnings(us[1..]); }
  }

  // ---------------------------------------------------------------------------
  // aggregate_search_results

  /** What one entry contributes when flattening: a result dict itself, a list's elements, nothing else. */
  function Spread(e: ResultEntry): seq<ResultEntry>
  {
    match e
    case Single(_) => [e]
    case Batch(entries) => entries
    case Stray => []
  }

  /** The flattened results, one list level removed. */
  function Flatten(es: seq<ResultEntry>): seq<ResultEntry>
  {
    if es == [] then [] else Flatten(es[..|es| - 1]) + Spread(es[|es| - 1])
  }

  /** The URLs of a source entry: a string itself, a list's elements. */
  function EntryUrls(e: SourceEntry): seq<string>
  {
    match e
    case Url(u) => [u]
    case UrlBatch(us) => us
  }

  function SourceStrings(es: seq<SourceEntry>): seq<string>
  {
    if es == [] then [] else SourceStrings(es[..|es| - 1]) + EntryUrls(es[|es| - 1])
  }

  function AsUrls(xs: seq<string>): (es: seq<SourceEntry>)
    ensures |es| == |xs| && forall i :: 0 <= i < |xs| ==> es[i] == Url(xs[i])
  {
    seq(|xs|, i requires 0 <= i < |xs| => Url(xs[i]))
  }

  /**
   * The update aggregation returns: the flattened results, the distinct
   * URLs (in order of first occurrence; the source returns set order), the
   * query counter advanced by the number of flattened results, and the
   * reflection phase.
   */
  function AggregateUpdate(s: OverallState): Update
  {
    var flattened := Flatten(s.searchResults);
    NoUpdate.(
      searchResults := flattened,
      sourcesGathered := AsUrls(Dedup(SourceStrings(s.sourcesGathered))),
      totalQueriesRun := Some(s.totalQueriesRun + |flattened|),
      currentPhase := Some(ReflectionPhase))
  }

  lemma DedupSnoc<T(!new)>(xs: seq<T>, x: T)
    ensures Dedup(xs + [x]) == if x in Dedup(xs) then Dedup(xs) else Dedup(xs) + [x]
  {
    assert (xs + [x])[..|xs + [x]| - 1] == xs;
  }

  /** The flattening loop of aggregation. */
  method FlattenResults(es: seq<ResultEntry>) returns (flattened: seq<ResultEntry>)
    ensures flattened == Flatten(es)
  {
    flattened := [];
    for i := 0 to |es|
      invariant flattened == Flatten(es[..i])
    {
      assert es[..i + 1][..i] == es[..i];
      match es[i]
      case Single(_) =>
        flattened := flattened + [es[i]];
      case Batch(entries) =>
        flattened := flattened + entries;
      case Stray =>
    }
    assert es[..|es|] == es;
  }

  /** Adds the URLs not yet seen, in order. */
  method AddUnseen(allSources: seq<string>, seen: set<string>, urls: seq<string>, ghost before: seq<string>)
    returns (allSources': seq<string>, seen': set<string>)
    requires allSources == Dedup(before)
    requires forall x :: x in seen <==> x in allSources
    ensures allSources' == Dedup(before + urls)
    ensures forall x :: x in seen' <==> x in allSources'
  {
    allSources', seen' := allSources, seen;
    assert before + urls[..0] == before;
    for j := 0 to |urls|
      invariant allSources' == Dedup(before + urls[..j])
      invariant forall x :: x in seen' <==> x in allSources'
    {
      DedupSnoc(before + urls[..j], urls[j]);
      AppendSliceSnoc(before, urls, j);
      if urls[j] !in seen' {
        allSources' := allSources' + [urls[j]];
        seen' := seen' + {urls[j]};
      }
    }
    assert urls[..|urls|] == urls;
  }

  /** The source-union loop of aggregation. */
  method UnionSources(es: seq<SourceEntry>) returns (allSources: seq<string>)
    ensures allSources == Dedup(SourceStrings(es))
  {
    allSources := [];
    var seen: set<string> := {};
    for i := 0 to |es|
      invariant allSources == Dedup(SourceStrings(es[..i]))
      invariant forall x :: x in seen <==> x in allSources
    {
      assert es[..i + 1][..i] == es[..i];
      allSources, seen := AddUnseen(allSources, seen, EntryUrls(es[i]), SourceStrings(es[..i]));
    }
    assert es[..|es|] == es;
  }

  /** `aggregate_search_results(state)`. */
  method Aggregate(s: OverallState) returns (u: Update)
    ensures u == AggregateUpdate(s)
  {
    var flattened := FlattenResults(s.searchResults);
    var allSources := UnionSources(s.sourcesGathered);
    u := NoUpdate.(
      searchResults := flattened,
      sourcesGathered := AsUrls(allSources),
      totalQueriesRun := Some(s.totalQueriesRun + |flattened|),
      currentPhase := Some(ReflectionPhase));
  }

  /** Flattening distributes over concatenation: each entry is spread in place. */
  lemma {:induction false} FlattenAppend(xs: seq<ResultEntry>, ys: seq<ResultEntry>)
    ensures Flatten(xs + ys) == Flatten(xs) + Flatten(ys)
    decreases |ys|
  {
    if ys == [] {
      assert xs + ys == xs;
    } else {
      var init, last := ys[..|ys| - 1], ys[|ys| - 1];
      assert (xs + ys)[..|xs + ys| - 1] == xs + init;
      assert (xs + ys)[|xs + ys| - 1] == last;
      calc {
        Flatten(xs + ys);
        Flatten(xs + init) + Spread(last);
        { FlattenAppend(xs, init); }
        (Flatten(xs) + Flatten(init)) + Spread(last);
        Flatten(xs) + (Flatten(init) + Spread(last));
        Flatten(xs) + Flatten(ys);
      }
    }
  }

  /** A list of result dicts flattens to itself. */
  lemma {:induction false} FlattenSingles(es: seq<ResultEntry>)
    requires forall i :: 0 <= i < |es| ==> es[i].Single?
    ensures Flatten(es) == es
  {
    if es != [] {
      FlattenSingles(es[..|es| - 1]);
    }
  }

  /** A URL is gathered exactly when some source entry is that URL or a list holding it. */
  lemma {:induction false} SourceStringsMembers(es: seq<SourceEntry>, x: string)
    ensures x in SourceStrings(es) <==> exists i :: 0 <= i < |es| && x in EntryUrls(es[i])
  {
    if es != [] {
      var init := es[..|es| - 1];
      SourceStringsMembers(init, x);
      if x in SourceStrings(es) && x !in EntryUrls(es[|es| - 1]) {
        var i :| 0 <= i < |init| && x in EntryUrls(init[i]);
        assert es[i] == init[i];
      }
      if exists i :: 0 <= i < |es| && x in EntryUrls(es[i]) {
        var i :| 0 <= i < |es| && x in EntryUrls(es[i]);
        if i < |es| - 1 { assert init[i] == es[i]; }
      }
    }
  }

  /**
   * The aggregated sources are duplicate-free and are exactly the URLs held
   * by the gathered entries, strings and lists alike.
   */
  lemma AggregatedSources(s: OverallState)
    ensures var urls := Dedup(SourceStrings(s.sourcesGathered));
      && AggregateUpdate(s).sourcesGathered == AsUrls(urls)
      && NoDuplicates(urls)
      && forall x :: x in urls <==> exists i :: 0 <= i < |s.sourcesGathered| && x in EntryUrls(s.sourcesGathered[i])
  {
    forall x ensures x in Dedup(SourceStrings(s.sourcesGathered)) <==>
      exists i :: 0 <= i < |s.sourcesGathered| && x in EntryUrls(s.sourcesGathered[i]) {
      SourceStringsMembers(s.sourcesGathered, x);
    }
  }

  /**
   * Because the update's results go through the `add` reducer, merging the
   * aggregation of a state whose results are all dicts repeats every result:
   * the merged list is the old list twice, and the query counter grows by
   * the number of results already counted.
   */
  lemma AggregateMergeRepeats(s: OverallState)
    requires forall i :: 0 <= i < |s.searchResults| ==> s.searchResults[i].Single?
    ensures var t := Apply(s, AggregateUpdate(s));
      && t.searchResults == s.searchResults + s.searchResults
      && t.totalQueriesRun == s.totalQueriesRun + |s.searchResults|
      && t.sourcesGathered == s.sourcesGathered + AsUrls(Dedup(SourceStrings(s.sourcesGathered)))
      && t.currentPhase == ReflectionPhase
  {
    FlattenSingles(s.searchResults);
  }

  /**
   * Aggregation as its purpose, "aggregate and deduplicate", evidently
   * intends: the flattened results and the distinct sources take the place
   * of the gathered lists instead of being appended to them.
   */
  function AggregateReplacing(s: OverallState): OverallState
  {
    var u := AggregateUpdate(s);
    s.(searchResults := u.searchResults, sourcesGathered := u.sourcesGathered,
       totalQueriesRun := u.totalQueriesRun.value, currentPhase := ReflectionPhase)
  }

  /** A list of plain URL entries holds exactly those URLs. */
  lemma {:induction false} SourceStringsOfUrls(xs: seq<string>)
    ensures SourceStrings(AsUrls(xs)) == xs
  {
    if xs != [] {
      var init := xs[..|xs| - 1];
      SourceStringsOfUrls(init);
      assert AsUrls(xs)[..|xs| - 1] == AsUrls(init);
      assert xs == init + [xs[|xs| - 1]];
    }
  }

  /**
   * With replacement, a state of result dicts keeps each result once and
   * counts it once, its sources become duplicate-free without losing any,
   * and aggregating again changes neither list.
   */
  lemma AggregateReplacingOnce(s: OverallState)
    requires forall i :: 0 <= i < |s.searchResults| ==> s.searchResults[i].Single?
    ensures var t := AggregateReplacing(s);
      && t.searchResults == s.searchResults
      && t.totalQueriesRun == s.totalQueriesRun + |s.searchResults|
      && NoDuplicates(SourceStrings(t.sourcesGathered))
      && (forall x :: x in SourceStrings(t.sourcesGathered) <==> x in SourceStrings(s.sourcesGathered))
      && AggregateReplacing(t).searchResults == t.searchResults
      && AggregateReplacing(t).sourcesGathered == t.sourcesGathered
  {
    FlattenSingles(s.searchResults);
    var urls := Dedup(SourceStrings(s.sourcesGathered));
    SourceStringsOfUrls(urls);
    DedupOfDistinct(urls);
  }

  // ---------------------------------------------------------------------------
  // reflection_node

  /**
   * The part of a reflection reply handed to the decoder: from the first `{`
   * to the last `}` when both occur in that order, the whole reply when both
   * occur the other way round, and the stripped reply wrapped in braces when
   * either is missing.
   */
  function ReflectionCandidate(raw: string): (c: string)
    ensures c == raw || (|c| >= 2 && c[0] == '{' && c[|c| - 1] == '}')
    ensures ('{' !in raw || '}' !in raw) ==> c == "{" + Strip(raw) + "}"
    ensures '{' in raw && '}' in raw ==> Contains(raw, c)
  {
    if '{' in raw && '}' in raw then JsonCandidate(raw)
    else "{" + Strip(raw) + "}"
  }

  /** The three fields read from the decoded reply. */
  datatype Reflected = Reflected(isSufficient: Json, knowledgeGap: Json, followUps: Json)

  /**
   * A decoded object gives `is_sufficient` (default true), `knowledge_gaps`
   * or else `knowledge_gap` (default "") and `follow_up_queries` (default []);
   * a decode failure or a value that is not an object gives the defaults.
   */
  function ParseReflection(content: string, decode: string -> Option<Json>): (p: Reflected)
    ensures (!decode(ReflectionCandidate(content)).Some? || !decode(ReflectionCandidate(content)).value.JObj?) ==>
      p == Reflected(JBool(true), JStr(""), JArr([]))
    ensures decode(ReflectionCandidate(content)).Some? && decode(ReflectionCandidate(content)).value.JObj? ==>
      var fields := decode(ReflectionCandidate(content)).value.fields;
      && (HasKey(fields, "is_sufficient") ==> Some(p.isSufficient) == Get(fields, "is_sufficient"))
      && (!HasKey(fields, "is_sufficient") ==> p.isSufficient == JBool(true))
      && (HasKey(fields, "knowledge_gaps") ==> Some(p.knowledgeGap) == Get(fields, "knowledge_gaps"))
      && (!HasKey(fields, "knowledge_gaps") && HasKey(fields, "knowledge_gap") ==>
            Some(p.knowledgeGap) == Get(fields, "knowledge_gap"))
      && (HasKey(fields, "follow_up_queries") ==> Some(p.followUps) == Get(fields, "follow_up_queries"))
      && (!HasKey(fields, "follow_up_queries") ==> p.followUps == JArr([]))
  {
    match decode(ReflectionCandidate(content))
    case Some(JObj(fields)) =>
      Reflected(
        Get(fields, "is_sufficient").GetOr(JBool(true)),
        Get(fields, "knowledge_gaps").GetOr(Get(fields, "knowledge_gap").GetOr(JStr(""))),
        Get(fields, "follow_up_queries").GetOr(JArr([])))
    case _ => Reflected(JBool(true), JStr(""), JArr([]))
  }

  /** The update of the error path: sufficient, no follow-ups, one error. */
  function ReflectionFailure(s: OverallState, detail: string): Update
  {
    NoUpdate.(
      isSufficient := Some(JBool(true)),
      knowledgeGap := Some(JStr("Reflection error: " + detail)),
      followUpQueries := Some(JArr([])),
      researchLoopCount := Some(s.researchLoopCount + 1),
      currentPhase := Some(GeneratingAnswer),
      errors := ["Reflection failed: " + detail])
  }

  /** Every entry of the results is a result dict (the prompt formatters index each one). */
  predicate AllResultDicts(es: seq<ResultEntry>)
  {
    forall i :: 0 <= i < |es| ==> es[i].Single?
  }

  /**
   * What `reflection_node` does once its prompt is built, with the model's
   * reply as an input. The node as written never gets here (see
   * `ReflectionNode`): its template raises first.
   */
  function Reflection(s: OverallState, cfg: ResearchAgentConfig, reply: Reply,
                      decode: string -> Option<Json>): (u: Update)
    ensures u.researchLoopCount == Some(s.researchLoopCount + 1)
    ensures u.isSufficient.Some? && u.knowledgeGap.Some? && u.followUpQueries.Some?
    ensures u.currentPhase == Some(if Truthy(u.isSufficient.value) then GeneratingAnswer else SearchWeb)
    ensures u.searchResults == [] && u.sourcesGathered == [] && u.citations == [] && u.warnings == []
    ensures |u.errors| <= 1
    ensures u.errors != [] ==> u.isSufficient == Some(JBool(true)) && u.followUpQueries == Some(JArr([]))
    ensures reply.Replied? && u.errors == [] ==>
      u.followUpQueries == Some(ParseReflection(reply.content, decode).followUps)
    ensures !Sized(u.followUpQueries.value) ==>
      Truthy(u.isSufficient.value) || s.researchLoopCount >= cfg.maxResearchLoops
    ensures reply.Raised? && AllResultDicts(s.searchResults) ==> u.errors == ["Reflection failed: " + reply.message]
  {
    if !AllResultDicts(s.searchResults) then ReflectionFailure(s, TypeErrorText)
    else match reply
      case Raised(m) => ReflectionFailure(s, m)
      case Replied(content) =>
        var p := ParseReflection(content, decode);
        if !Truthy(p.isSufficient) && s.researchLoopCount < cfg.maxResearchLoops && !Sized(p.followUps) then
          ReflectionFailure(s, TypeErrorText)
        else
          NoUpdate.(
            isSufficient := Some(p.isSufficient),
            knowledgeGap := Some(p.knowledgeGap),
            followUpQueries := Some(p.followUps),
            researchLoopCount := Some(s.researchLoopCount + 1),
            currentPhase := Some(if Truthy(p.isSufficient) then GeneratingAnswer else SearchWeb))
  }

  /** The results as the reflection formatter reads them, each entry a result dict. */
  function ResultDicts(es: seq<ResultEntry>): (rs: seq<SearchResult>)
    requires AllResultDicts(es)
    ensures |rs| == |es| && forall i :: 0 <= i < |es| ==> es[i] == Single(rs[i])
  {
    seq(|es|, i requires 0 <= i < |es| => es[i].result)
  }

  /** The keyword arguments of the reflection prompt: question, formatted results, source count, loop count. */
  function ReflectionPromptArgs(s: OverallState): map<string, string>
    requires AllResultDicts(s.searchResults)
  {
    Prompts.ReflectionArgs(s.originalQuestion, Prompts.FormatForReflection(ResultDicts(s.searchResults)),
                           |s.sourcesGathered|, s.researchLoopCount)
  }

  /**
   * `reflection_node(state)` with its user prompt built from `template`. The
   * results are formatted first (a TypeError for an entry that is not a
   * dict), then the template; a KeyError there is raised before the model is
   * called, and `str()` of a KeyError is the key's `repr`. A prompt that
   * renders goes on as `Reflection`.
   */
  function ReflectionNode(s: OverallState, cfg: ResearchAgentConfig, template: seq<Prompts.Piece>,
                          reply: Reply, decode: string -> Option<Json>): (u: Update)
    ensures u.researchLoopCount == Some(s.researchLoopCount + 1)
    ensures u.isSufficient.Some? && u.knowledgeGap.Some? && u.followUpQueries.Some?
    ensures u.currentPhase == Some(if Truthy(u.isSufficient.value) then GeneratingAnswer else SearchWeb)
    ensures u.searchResults == [] && u.sourcesGathered == [] && u.citations == [] && u.warnings == []
    ensures |u.errors| <= 1
    ensures !AllResultDicts(s.searchResults) ==> u.errors == ["Reflection failed: " + TypeErrorText]
    ensures AllResultDicts(s.searchResults) ==>
      var f := Prompts.FormatPieces(template, ReflectionPromptArgs(s));
      && (f.MissingKey? ==>
            && u.isSufficient == Some(JBool(true)) && u.followUpQueries == Some(JArr([]))
            && u.errors == ["Reflection failed: " + StrRepr(f.key)])
      && (f.Rendered? ==> u == Reflection(s, cfg, reply, decode))
  {
    if !AllResultDicts(s.searchResults) then ReflectionFailure(s, TypeErrorText)
    else match Prompts.FormatPieces(template, ReflectionPromptArgs(s))
      case MissingKey(k) => ReflectionFailure(s, StrRepr(k))
      case Rendered(_) => Reflection(s, cfg, reply, decode)
  }

  /** The detail of the as-written node's error: the KeyError for the example's key. */
  const ReflectionKeyError: string := StrRepr(Prompts.ExampleKey)

  /**
   * As written, reflection never reaches the model: whatever the reply, the
   * research counts as sufficient with no follow-ups, the next phase is
   * answer generation, and the error recorded is the template's KeyError
   * (or the formatter's TypeError).
   */
  lemma ReflectionAsWrittenFails(s: OverallState, cfg: ResearchAgentConfig, reply: Reply,
                                 decode: string -> Option<Json>)
    ensures var u := ReflectionNode(s, cfg, Prompts.ReflectionUserTemplate, reply, decode);
      && u.isSufficient == Some(JBool(true)) && u.followUpQueries == Some(JArr([]))
      && u.currentPhase == Some(GeneratingAnswer)
      && u.errors == ["Reflection failed: " + (if AllResultDicts(s.searchResults) then ReflectionKeyError else TypeErrorText)]
  {
    if AllResultDicts(s.searchResults) {
      Prompts.ReflectionTemplateRaises(s.originalQuestion, Prompts.FormatForReflection(ResultDicts(s.searchResults)),
                                       |s.sourcesGathered|, s.researchLoopCount);
    }
  }

  /** With the example's braces doubled the prompt renders, and the node reads the reply. */
  lemma ReflectionFixedReadsReply(s: OverallState, cfg: ResearchAgentConfig, reply: Reply,
                                  decode: string -> Option<Json>)
    ensures ReflectionNode(s, cfg, Prompts.ReflectionUserTemplateFixed, reply, decode) == Reflection(s, cfg, reply, decode)
  {
    if AllResultDicts(s.searchResults) {
      Prompts.FixedReflectionTemplateRenders(s.originalQuestion, Prompts.FormatForReflection(ResultDicts(s.searchResults)),
                                             |s.sourcesGathered|, s.researchLoopCount);
    }
  }

  /**
   * With the template fixed, a reply that does not decode, or decodes to
   * something other than an object, means "sufficient", without an error.
   */
  lemma ReflectionParseFailureIsSufficient(s: OverallState, cfg: ResearchAgentConfig, content: string,
                                            decode: string -> Option<Json>)
    requires AllResultDicts(s.searchResults)
    requires !decode(ReflectionCandidate(content)).Some? || !decode(ReflectionCandidate(content)).value.JObj?
    ensures var u := ReflectionNode(s, cfg, Prompts.ReflectionUserTemplateFixed, Replied(content), decode);
      && u.isSufficient == Some(JBool(true)) && u.knowledgeGap == Some(JStr(""))
      && u.followUpQueries == Some(JArr([])) && u.currentPhase == Some(GeneratingAnswer) && u.errors == []
  {
    ReflectionFixedReadsReply(s, cfg, Replied(content), decode);
  }

  // ---------------------------------------------------------------------------
  // answer_generation_node

  /** The citations one result contributes: `citations`, else `url`, else `sources`. */
  function ResultCitations(r: SearchResult): seq<string>
  {
    if r.citations != [] then r.citations
    else if r.url != "" then [r.url]
    else r.sources
  }

  function EntryCitations(e: ResultEntry): seq<string>
  {
    if e.Single? then ResultCitations(e.result) else []
  }

  /** The citations collected from the results, in order. */
  function CollectCitations(es: seq<ResultEntry>): seq<string>
  {
    if es == [] then [] else CollectCitations(es[..|es| - 1]) + EntryCitations(es[|es| - 1])
  }

  /** The non-empty strings of `xs`, in order. */
  function NonEmpty(xs: seq<string>): (r: seq<string>)
    ensures forall x :: x in r <==> x in xs && x != ""
  {
    if xs == [] then []
    else
      var init := xs[..|xs| - 1];
      assert forall x :: x in xs <==> x in init || x == xs[|xs| - 1] by {
        assert xs == init + [xs[|xs| - 1]];
      }
      NonEmpty(init) + (if xs[|xs| - 1] != "" then [xs[|xs| - 1]] else [])
  }

  /**
   * The de-duplicated citations: no empty string, no repeat, every
   * non-empty input kept at its first occurrence, in input order.
   */
  function UniqueCitations(xs: seq<string>): (r: seq<string>)
    ensures NoDuplicates(r)
    ensures forall x :: x in r <==> x in xs && x != ""
  {
    Dedup(NonEmpty(xs))
  }

  /** Adding more citations never disturbs the ones already kept. */
  lemma UniqueCitationsPrefix(xs: seq<string>, ys: seq<string>)
    ensures UniqueCitations(xs) <= UniqueCitations(xs + ys)
  {
    NonEmptyAppend(xs, ys);
    DedupPrefix(NonEmpty(xs), NonEmpty(ys));
  }

  lemma {:induction false} NonEmptyAppend(xs: seq<string>, ys: seq<string>)
    ensures NonEmpty(xs + ys) == NonEmpty(xs) + NonEmpty(ys)
    decreases |ys|
  {
    if ys == [] {
      assert xs + ys == xs;
    } else {
      var init := ys[..|ys| - 1];
      NonEmptyAppend(xs, init);
      assert (xs + ys)[..|xs + ys| - 1] == xs + init;
    }
  }

  /** Every entry of the sources is a string (a list entry cannot go into the prompt's set). */
  predicate AllUrlEntries(es: seq<SourceEntry>)
  {
    forall i :: 0 <= i < |es| ==> es[i].Url?
  }

  function AnswerFailure(detail: string): Update
  {
    NoUpdate.(
      finalAnswer := Some("I apologize, but I encountered an error while generating the final answer: " + detail),
      researchSummary := Some(SummaryError(detail)),
      currentPhase := Some(ErrorPhase),
      errors := ["Answer generation failed: " + detail])
  }

  /**
   * The update answer generation returns: on success the reply as the
   * answer, the de-duplicated citations, the totals, the completed phase and
   * the question and answer as the new messages.
   */
  function AnswerUpdate(s: OverallState, reply: Reply): (u: Update)
    ensures u.finalAnswer.Some? && u.researchSummary.Some? && u.currentPhase.Some?
    ensures u.searchResults == [] && u.sourcesGathered == [] && u.warnings == []
    ensures u.currentPhase == Some(Completed) <==> u.errors == []
    ensures u.errors == [] ==>
      && reply.Replied? && u.finalAnswer == Some(reply.content)
      && u.citations == UniqueCitations(CollectCitations(s.searchResults))
      && u.researchSummary == Some(Totals(|s.queryList|, |s.searchResults|, |u.citations|, s.researchLoopCount))
      && u.messages == Some([Human(s.originalQuestion), Ai(reply.content)])
    ensures u.errors != [] ==> |u.errors| == 1 && u.citations == [] && u.currentPhase == Some(ErrorPhase)
    ensures reply.Raised? && AllResultDicts(s.searchResults) && AllUrlEntries(s.sourcesGathered) ==>
      u.errors == ["Answer generation failed: " + reply.message]
  {
    if !AllResultDicts(s.searchResults) || !AllUrlEntries(s.sourcesGathered) then AnswerFailure(TypeErrorText)
    else match reply
      case Raised(m) => AnswerFailure(m)
      case Replied(content) =>
        var unique := UniqueCitations(CollectCitations(s.searchResults));
        NoUpdate.(
          finalAnswer := Some(content),
          citations := unique,
          researchSummary := Some(Totals(|s.queryList|, |s.searchResults|, |unique|, s.researchLoopCount)),
          currentPhase := Some(Completed),
          messages := Some([Human(s.originalQuestion), Ai(content)]))
  }

  /** The citation-collecting loop of answer generation. */
  method GatherCitations(es: seq<ResultEntry>) returns (citations: seq<string>)
    requires AllResultDicts(es)
    ensures citations == CollectCitations(es)
  {
    citations := [];
    for i := 0 to |es|
      invariant citations == CollectCitations(es[..i])
    {
      assert es[..i + 1][..i] == es[..i];
      var r := es[i].result;
      if r.citations != [] {
        citations := citations + r.citations;
      } else if r.url != "" {
        citations := citations + [r.url];
      } else if r.sources != [] {
        citations := citations + r.sources;
      }
    }
    assert es[..|es|] == es;
  }

  /** The order-preserving de-duplication loop of answer generation. */
  method DedupCitations(citations: seq<string>) returns (unique: seq<string>)
    ensures unique == UniqueCitations(citations)
  {
    unique := [];
    var seen: set<string> := {};
    for j := 0 to |citations|
      invariant unique == Dedup(NonEmpty(citations[..j]))
      invariant forall x :: x in seen <==> x in unique
    {
      assert citations[..j + 1][..j] == citations[..j];
      var citation := citations[j];
      if citation != "" {
        assert NonEmpty(citations[..j + 1]) == NonEmpty(citations[..j]) + [citation];
        DedupSnoc(NonEmpty(citations[..j]), citation);
        if citation !in seen {
          unique := unique + [citation];
          seen := seen + {citation};
        }
      } else {
        assert NonEmpty(citations[..j + 1]) == NonEmpty(citations[..j]);
      }
    }
    assert citations[..|citations|] == citations;
  }

  /** `answer_generation_node(state)`, with the model's reply as an input. */
  method AnswerGeneration(s: OverallState, reply: Reply) returns (u: Update)
    ensures u == AnswerUpdate(s, reply)
  {
    if !AllResultDicts(s.searchResults) || !AllUrlEntries(s.sourcesGathered) {
      return AnswerFailure(TypeErrorText);
    }
    if reply.Raised? {
      return AnswerFailure(reply.message);
    }
    var citations := GatherCitations(s.searchResults);
    var unique := DedupCitations(citations);
    u := NoUpdate.(
      finalAnswer := Some(reply.content),
      citations := unique,
      researchSummary := Some(Totals(|s.queryList|, |s.searchResults|, |unique|, s.researchLoopCount)),
      currentPhase := Some(Completed),
      messages := Some([Human(s.originalQuestion), Ai(reply.content)]));
  }
}
