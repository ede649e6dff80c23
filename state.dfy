/**
 * The workflow state (`OverallState`), the per-task search state
 * (`WebSearchState`), the `SearchResult` record, and the merge rule that
 * applies a node's partial update: the five fields annotated with the `add`
 * reducer are concatenated, every other field a node returns replaces the
 * old value.
 */
module State {
  import opened Wrappers
  import opened Json

  /** The relevance score a search result carries: 0.9 on success, 0.0 on failure. */
  datatype Relevance = Relevant | Irrelevant

  /**
   * One search result. `citations` and `url` are keys no node writes but the
   * answer node reads when a result dict carries them; an absent key reads as
   * empty. `query` is whatever value the task was routed with (a follow-up
   * query need not be a string). The creation timestamp is not modelled.
   */
  datatype SearchResult = SearchResult(
    id: string,
    query: Json,
    summary: string,
    sources: seq<string>,
    taskId: string,
    relevance: Relevance,
    citations: seq<string>,
    url: string)

  /**
   * An element of the `search_results` list: a result dict, a nested list
   * (which aggregation splices), or anything else (which aggregation drops).
   */
  datatype ResultEntry = Single(result: SearchResult) | Batch(entries: seq<ResultEntry>) | Stray

  /** An element of the `sources_gathered` list: a URL or a nested list of URLs. */
  datatype SourceEntry = Url(url: string) | UrlBatch(urls: seq<string>)

  /** A chat message of the `messages` list. */
  datatype Message = Human(content: string) | Ai(content: string) | OtherMessage(text: string)

  /** The values `current_phase` takes. */
  datatype Phase = GeneratingQueries | SearchWeb | ReflectionPhase | GeneratingAnswer | Completed | ErrorPhase
  {
    function Name(): string
    {
      match this
      case GeneratingQueries => "generating_queries"
      case SearchWeb => "search_web"
      case ReflectionPhase => "reflection"
      case GeneratingAnswer => "generating_answer"
      case Completed => "completed"
      case ErrorPhase => "error"
    }
  }

  /** `research_summary`: empty, the answer node's totals, or its error record. */
  datatype ResearchSummary =
    | EmptySummary
    | Totals(totalQueries: nat, totalSearchResults: nat, totalSources: nat, researchLoops: nat)
    | SummaryError(error: string)

  /**
   * `OverallState`. Every key is present from the initial state on, so the
   * nodes' `state.get(key, default)` always finds it. `timeline_updates`,
   * which no node reads or writes, is not modelled.
   */
  datatype OverallState = OverallState(
    messages: seq<Message>,
    originalQuestion: string,
    queryList: seq<string>,
    rationale: Json,
    searchResults: seq<ResultEntry>,     // add reducer
    sourcesGathered: seq<SourceEntry>,   // add reducer
    isSufficient: Json,
    knowledgeGap: Json,
    followUpQueries: Json,
    researchLoopCount: nat,
    totalQueriesRun: nat,
    finalAnswer: string,
    citations: seq<string>,              // add reducer
    researchSummary: ResearchSummary,
    currentPhase: Phase,
    errors: seq<string>,                 // add reducer
    warnings: seq<string>)               // add reducer

  /**
   * `WebSearchState`, the payload of one fan-out task. Keys are optional
   * because the search node reads them defensively, and their values are
   * whatever the router sent; `messages` is consulted
   * only when no query was found.
   */
  datatype WebSearchState = WebSearchState(
    query: Option<Json>,
    currentQuery: Option<Json>,
    originalQuestion: Option<Json>,
    taskId: Option<string>,
    isFollowup: bool,
    messages: seq<Message>)

  /**
   * A node's partial update. Reducer fields hold the list to append (an
   * absent key appends nothing); the others are None when the node does not
   * return the key.
   */
  datatype Update = Update(
    messages: Option<seq<Message>>,
    originalQuestion: Option<string>,
    queryList: Option<seq<string>>,
    rationale: Option<Json>,
    searchResults: seq<ResultEntry>,
    sourcesGathered: seq<SourceEntry>,
    isSufficient: Option<Json>,
    knowledgeGap: Option<Json>,
    followUpQueries: Option<Json>,
    researchLoopCount: Option<nat>,
    totalQueriesRun: Option<nat>,
    finalAnswer: Option<string>,
    citations: seq<string>,
    researchSummary: Option<ResearchSummary>,
    currentPhase: Option<Phase>,
    errors: seq<string>,
    warnings: seq<string>)
  {
    /** The update touches only the five reducer fields (as a search task's does). */
    predicate OnlyAppends()
    {
      && messages.None? && originalQuestion.None? && queryList.None? && rationale.None?
      && isSufficient.None? && knowledgeGap.None? && followUpQueries.None?
      && researchLoopCount.None? && totalQueriesRun.None? && finalAnswer.None?
      && researchSummary.None? && currentPhase.None?
    }
  }

  /** The update that returns no key at all. */
  const NoUpdate: Update := Update(None, None, None, None, [], [], None, None, None, None, None, None, [], None, None, [], [])

  /** The five append-only fields of `s` are prefixes of those of `t`. */
  predicate Grows(s: OverallState, t: OverallState)
  {
    && s.searchResults <= t.searchResults
    && s.sourcesGathered <= t.sourcesGathered
    && s.citations <= t.citations
    && s.errors <= t.errors
    && s.warnings <= t.warnings
  }

  /** The fields without a reducer are the same in `s` and `t`. */
  predicate SameScalars(s: OverallState, t: OverallState)
  {
    && s.messages == t.messages && s.originalQuestion == t.originalQuestion
    && s.queryList == t.queryList && s.rationale == t.rationale
    && s.isSufficient == t.isSufficient && s.knowledgeGap == t.knowledgeGap
    && s.followUpQueries == t.followUpQueries && s.researchLoopCount == t.researchLoopCount
    && s.totalQueriesRun == t.totalQueriesRun && s.finalAnswer == t.finalAnswer
    && s.researchSummary == t.researchSummary && s.currentPhase == t.currentPhase
  }

  /**
   * The merge of one update into the state: reducer fields become
   * old + new (`operator.add`), every returned scalar field replaces the old
   * value, and fields the update does not return are left as they were.
   */
  function Apply(s: OverallState, u: Update): (t: OverallState)
    ensures Grows(s, t)
    ensures t.searchResults[|s.searchResults|..] == u.searchResults
    ensures t.sourcesGathered[|s.sourcesGathered|..] == u.sourcesGathered
    ensures t.citations[|s.citations|..] == u.citations
    ensures t.errors[|s.errors|..] == u.errors
    ensures t.warnings[|s.warnings|..] == u.warnings
    ensures u.OnlyAppends() ==> SameScalars(s, t)
    ensures u.queryList.Some? ==> t.queryList == u.queryList.value
    ensures u.researchLoopCount.Some? ==> t.researchLoopCount == u.researchLoopCount.value
    ensures u.currentPhase.Some? ==> t.currentPhase == u.currentPhase.value
  {
    OverallState(
      messages := u.messages.GetOr(s.messages),
      originalQuestion := u.originalQuestion.GetOr(s.originalQuestion),
      queryList := u.queryList.GetOr(s.queryList),
      rationale := u.rationale.GetOr(s.rationale),
      searchResults := s.searchResults + u.searchResults,
      sourcesGathered := s.sourcesGathered + u.sourcesGathered,
      isSufficient := u.isSufficient.GetOr(s.isSufficient),
      knowledgeGap := u.knowledgeGap.GetOr(s.knowledgeGap),
      followUpQueries := u.followUpQueries.GetOr(s.followUpQueries),
      researchLoopCount := u.researchLoopCount.GetOr(s.researchLoopCount),
      totalQueriesRun := u.totalQueriesRun.GetOr(s.totalQueriesRun),
      finalAnswer := u.finalAnswer.GetOr(s.finalAnswer),
      citations := s.citations + u.citations,
      researchSummary := u.researchSummary.GetOr(s.researchSummary),
      currentPhase := u.currentPhase.GetOr(s.currentPhase),
      errors := s.errors + u.errors,
      warnings := s.warnings + u.warnings)
  }

  /** The merge of several updates, one after another. */
  function ApplyAll(s: OverallState, us: seq<Update>): OverallState
    decreases |us|
  {
    if us == [] then s else ApplyAll(Apply(s, us[0]), us[1..])
  }

  /** The five append-only fields never shrink, however many updates are merged. */
  lemma {:induction false} ApplyAllGrows(s: OverallState, us: seq<Update>)
    ensures Grows(s, ApplyAll(s, us))
    decreases |us|
  {
    if us != [] {
      ApplyAllGrows(Apply(s, us[0]), us[1..]);
    }
  }

  /** The concatenation of `f(x)` over the elements `x` of `xs`, in order. */
  function ConcatMap<X, T>(xs: seq<X>, f: X -> seq<T>): seq<T>
  {
    if xs == [] then [] else f(xs[0]) + ConcatMap(xs[1..], f)
  }

  lemma {:induction false} ConcatMapAppend<X, T>(xs: seq<X>, ys: seq<X>, f: X -> seq<T>)
    ensures ConcatMap(xs + ys, f) == ConcatMap(xs, f) + ConcatMap(ys, f)
  {
    if xs == [] {
      assert xs + ys == ys;
    } else {
      assert (xs + ys)[1..] == xs[1..] + ys;
      ConcatMapAppend(xs[1..], ys, f);
    }
  }

  /** Taking element `j` out of a sequence takes one copy of it out of its multiset. */
  lemma RemoveAt<X>(ys: seq<X>, j: nat)
    requires j < |ys|
    ensures multiset(ys[..j] + ys[j + 1..]) == multiset(ys) - multiset{ys[j]}
  {
    assert ys == ys[..j] + [ys[j]] + ys[j + 1..];
  }

  /** Concatenating the images with element `j` moved to the front keeps the elements. */
  lemma {:induction false} ConcatMapMoveFront<X, T>(ys: seq<X>, j: nat, f: X -> seq<T>)
    requires j < |ys|
    ensures multiset(ConcatMap(ys, f)) == multiset(f(ys[j]) + ConcatMap(ys[..j] + ys[j + 1..], f))
  {
    if j == 0 {
      assert ys[..0] + ys[1..] == ys[1..];
    } else {
      var tl := ys[1..];
      var rest := tl[..j - 1] + tl[j..];
      ConcatMapMoveFront(tl, j - 1, f);
      assert tl[j - 1] == ys[j];
      assert ys[..j] + ys[j + 1..] == [ys[0]] + rest;
      assert ([ys[0]] + rest)[1..] == rest;
      var a, b, c := f(ys[0]), f(ys[j]), ConcatMap(rest, f);
      calc {
        multiset(ConcatMap(ys, f));
        multiset(a + ConcatMap(tl, f));
        multiset(a) + multiset(ConcatMap(tl, f));
        multiset(a) + multiset(b + c);
        multiset(b + (a + c));
        multiset(b + ConcatMap([ys[0]] + rest, f));
      }
    }
  }

  /** Reordering the inputs reorders the concatenation but keeps its elements. */
  lemma {:induction false} ConcatMapPermutation<X, T>(xs: seq<X>, ys: seq<X>, f: X -> seq<T>)
    requires multiset(xs) == multiset(ys)
    ensures multiset(ConcatMap(xs, f)) == multiset(ConcatMap(ys, f))
    decreases |xs|
  {
    if xs != [] {
      var x := xs[0];
      assert x in multiset(ys);
      var j :| 0 <= j < |ys| && ys[j] == x;
      var rest := ys[..j] + ys[j + 1..];
      RemoveAt(ys, j);
      assert xs == [x] + xs[1..];
      assert multiset(xs[1..]) == multiset(xs) - multiset{x};
      ConcatMapPermutation(xs[1..], rest, f);
      ConcatMapMoveFront(ys, j, f);
    }
  }

  /** Merging append-only updates leaves the fields without a reducer alone. */
  lemma {:induction false} ApplyAllKeepsScalars(s: OverallState, us: seq<Update>)
    requires forall i :: 0 <= i < |us| ==> us[i].OnlyAppends()
    ensures SameScalars(s, ApplyAll(s, us))
    decreases |us|
  {
    if us != [] {
      ApplyAllKeepsScalars(Apply(s, us[0]), us[1..]);
    }
  }

  /**
   * Merging updates appends, to a field with the `add` reducer (read by `field`),
   * the updates' lists (read by `part`) in merge order.
   */
  lemma {:induction false} ApplyAllAppendsTo<T>(s: OverallState, us: seq<Update>,
                                                 field: OverallState -> seq<T>, part: Update -> seq<T>)
    requires forall s0, u :: field(Apply(s0, u)) == field(s0) + part(u)
    ensures field(ApplyAll(s, us)) == field(s) + ConcatMap(us, part)
    decreases |us|
  {
    if us == [] {
      assert ApplyAll(s, us) == s;
    } else {
      ApplyAllAppendsTo(Apply(s, us[0]), us[1..], field, part);
      assert ApplyAll(s, us) == ApplyAll(Apply(s, us[0]), us[1..]);
    }
  }

  /** Merging updates appends, to each of the five reducer fields, the updates' lists in merge order. */
  lemma ApplyAllAppends(s: OverallState, us: seq<Update>)
    ensures ApplyAll(s, us).searchResults == s.searchResults + ConcatMap(us, ResultsOf)
    ensures ApplyAll(s, us).sourcesGathered == s.sourcesGathered + ConcatMap(us, SourcesOf)
    ensures ApplyAll(s, us).citations == s.citations + ConcatMap(us, CitationsOf)
    ensures ApplyAll(s, us).errors == s.errors + ConcatMap(us, ErrorsOf)
    ensures ApplyAll(s, us).warnings == s.warnings + ConcatMap(us, WarningsOf)
  {
    ApplyAllAppendsTo(s, us, (t: OverallState) => t.searchResults, ResultsOf);
    ApplyAllAppendsTo(s, us, (t: OverallState) => t.sourcesGathered, SourcesOf);
    ApplyAllAppendsTo(s, us, (t: OverallState) => t.citations, CitationsOf);
    ApplyAllAppendsTo(s, us, (t: OverallState) => t.errors, ErrorsOf);
    ApplyAllAppendsTo(s, us, (t: OverallState) => t.warnings, WarningsOf);
  }

  function ResultsOf(u: Update): seq<ResultEntry> { u.searchResults }
  function SourcesOf(u: Update): seq<SourceEntry> { u.sourcesGathered }
  function CitationsOf(u: Update): seq<string> { u.citations }
  function ErrorsOf(u: Update): seq<string> { u.errors }
  function WarningsOf(u: Update): seq<string> { u.warnings }

  /** `t` differs from `s` at most in the order of the elements of its reducer fields. */
  predicate SameUpToOrder(s: OverallState, t: OverallState)
  {
    && SameScalars(s, t)
    && multiset(s.searchResults) == multiset(t.searchResults)
    && multiset(s.sourcesGathered) == multiset(t.sourcesGathered)
    && multiset(s.citations) == multiset(t.citations)
    && multiset(s.errors) == multiset(t.errors)
    && multiset(s.warnings) == multiset(t.warnings)
  }

  /**
   * The fan-out join: the parallel search tasks' updates may be merged in any
   * order; every order gives the same state up to the order of list elements.
   */
  lemma FanOutOrderIrrelevant(s: OverallState, us: seq<Update>, vs: seq<Update>)
    requires forall i :: 0 <= i < |us| ==> us[i].OnlyAppends()
    requires multiset(us) == multiset(vs)
    ensures SameUpToOrder(ApplyAll(s, us), ApplyAll(s, vs))
  {
    forall i | 0 <= i < |vs| ensures vs[i].OnlyAppends() {
      assert vs[i] in multiset(us);
    }
    ApplyAllKeepsScalars(s, us);
    ApplyAllKeepsScalars(s, vs);
    ApplyAllAppends(s, us);
    ApplyAllAppends(s, vs);
    ConcatMapPermutation(us, vs, ResultsOf);
    ConcatMapPermutation(us, vs, SourcesOf);
    ConcatMapPermutation(us, vs, CitationsOf);
    ConcatMapPermutation(us, vs, ErrorsOf);
    ConcatMapPermutation(us, vs, WarningsOf);
  }
}
