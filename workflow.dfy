/**
 * The research workflow around the nodes: the fan-out of one search task
 * per query, the rule that ends or repeats the research loop, the loop
 * itself with its bound, the initial state, the cleaning of chat messages
 * for the state stream, and the event stream with its closing `complete`
 * event.
 */
module Workflow {
  import opened Wrappers
  import opened Text
  import opened Json
  import opened State
  import opened Config
  import opened Nodes
  import Prompts

  // ---------------------------------------------------------------------------
  // _route_to_parallel_searches

  /**
   * The keys routing and the loop decision read with `state.get(key,
   * default)`; None stands for an absent key.
   */
  datatype LoopKeys = LoopKeys(
    queryList: Option<seq<string>>,
    followUpQueries: Option<Json>,
    researchLoopCount: Option<nat>,
    originalQuestion: Option<string>,
    isSufficient: Option<Json>)

  /** The keys of a workflow state, where every key is present. */
  function KeysOf(s: OverallState): LoopKeys
  {
    LoopKeys(Some(s.queryList), Some(s.followUpQueries), Some(s.researchLoopCount),
             Some(s.originalQuestion), Some(s.isSufficient))
  }

  /** `state.get("follow_up_queries", [])`: whatever value reflection stored. */
  function FollowUpValue(k: LoopKeys): Json
  {
    k.followUpQueries.GetOr(JArr([]))
  }

  /** Whether the follow-up queries are searched (`if follow_up_queries:`). */
  predicate UsesFollowUps(k: LoopKeys)
  {
    Truthy(FollowUpValue(k))
  }

  /** The query list as the values routing sends. */
  function AsValues(qs: seq<string>): (vs: seq<Json>)
    ensures |vs| == |qs| && forall i :: 0 <= i < |qs| ==> vs[i] == JStr(qs[i])
  {
    seq(|qs|, i requires 0 <= i < |qs| => JStr(qs[i]))
  }

  /**
   * The queries to search: what iterating the follow-ups visits when they
   * are truthy, else the query list. None when the follow-ups are truthy but
   * cannot be iterated (a TypeError).
   */
  function ChosenQueries(k: LoopKeys): Option<seq<Json>>
  {
    if UsesFollowUps(k) then Items(FollowUpValue(k)) else Some(AsValues(k.queryList.GetOr([])))
  }

  /** "followup_<loop>" (the loop count defaulting to 1) or "initial". */
  function TaskPrefix(k: LoopKeys): string
  {
    if UsesFollowUps(k) then "followup_" + NatToString(k.researchLoopCount.GetOr(1)) else "initial"
  }

  function TaskId(prefix: string, i: nat): string
  {
    prefix + "_" + NatToString(i)
  }

  /**
   * The `web_search` payloads: one per chosen query, in order; task `i`
   * carries query `i`, the id `<prefix>_<i>`, the original question (or "")
   * and whether follow-ups were used. None when routing raises: the
   * follow-ups are truthy but not a list, string or object.
   */
  function Routed(k: LoopKeys): (tasks: Option<seq<WebSearchState>>)
    ensures tasks.None? <==> UsesFollowUps(k) && !Sized(FollowUpValue(k))
    ensures tasks.Some? ==> ChosenQueries(k).Some?
    ensures UsesFollowUps(k) && FollowUpValue(k).JArr? ==> tasks.Some? && |tasks.value| == |FollowUpValue(k).items|
    ensures !UsesFollowUps(k) ==> tasks.Some? && |tasks.value| == |k.queryList.GetOr([])|
    ensures tasks.Some? ==>
      var qs := ChosenQueries(k).value;
      && |tasks.value| == |qs|
      && forall i :: 0 <= i < |qs| ==>
        && tasks.value[i].query == Some(qs[i])
        && tasks.value[i].taskId == Some(TaskId(TaskPrefix(k), i))
        && tasks.value[i].originalQuestion == Some(JStr(k.originalQuestion.GetOr("")))
        && (tasks.value[i].isFollowup <==> UsesFollowUps(k))
        && tasks.value[i].currentQuery.None? && tasks.value[i].messages == []
  {
    match ChosenQueries(k)
    case None => None
    case Some(qs) =>
      Some(seq(|qs|, i requires 0 <= i < |qs| =>
        WebSearchState(Some(qs[i]), None, Some(JStr(k.originalQuestion.GetOr(""))),
                       Some(TaskId(TaskPrefix(k), i)), UsesFollowUps(k), [])))
  }

  /** `_route_to_parallel_searches(state)`: the `Send("web_search", ...)` payloads it builds, or None when it raises. */
  method RouteToParallelSearches(k: LoopKeys) returns (sends: Option<seq<WebSearchState>>)
    ensures sends == Routed(k)
  {
    var queries := k.queryList.GetOr([]);
    var followUpQueries := k.followUpQueries.GetOr(JArr([]));
    var searchQueries: seq<Json>;
    var taskPrefix: string;
    if Truthy(followUpQueries) {
      if !Sized(followUpQueries) {
        assert Routed(k).None?;
        return None;
      }
      searchQueries := Items(followUpQueries).value;
      assert searchQueries == ChosenQueries(k).value;
      taskPrefix := "followup_" + NatToString(k.researchLoopCount.GetOr(1));
    } else {
      searchQueries := AsValues(queries);
      taskPrefix := "initial";
    }
    assert Routed(k).Some? && |Routed(k).value| == |searchQueries|;
    var built: seq<WebSearchState> := [];
    for i := 0 to |searchQueries|
      invariant |built| == i
      invariant forall j :: 0 <= j < i ==> built[j] == Routed(k).value[j]
    {
      built := built + [WebSearchState(Some(searchQueries[i]), None, Some(JStr(k.originalQuestion.GetOr(""))),
                                       Some(taskPrefix + "_" + NatToString(i)), Truthy(followUpQueries), [])];
    }
    assert built == Routed(k).value;
    sends := Some(built);
  }

  /**
   * Task ids name their round and their position: the same id comes from
   * the same kind of round, the same loop count (for follow-ups) and the
   * same position, so no two tasks of a run share an id.
   */
  lemma TaskIdsUnique(k1: LoopKeys, k2: LoopKeys, i: nat, j: nat)
    requires TaskId(TaskPrefix(k1), i) == TaskId(TaskPrefix(k2), j)
    ensures i == j
    ensures UsesFollowUps(k1) <==> UsesFollowUps(k2)
    ensures UsesFollowUps(k1) ==> k1.researchLoopCount.GetOr(1) == k2.researchLoopCount.GetOr(1)
  {
    TaskIdInitial(k1, i);
    TaskIdInitial(k2, j);
    if !UsesFollowUps(k1) && !UsesFollowUps(k2) {
      InitialIdsUnique(i, j);
    } else if UsesFollowUps(k1) && UsesFollowUps(k2) {
      FollowUpIdsUnique(k1.researchLoopCount.GetOr(1), k2.researchLoopCount.GetOr(1), i, j);
    }
  }

  /** `initial_<i>` names its position. */
  lemma InitialIdsUnique(i: nat, j: nat)
    requires TaskId("initial", i) == TaskId("initial", j)
    ensures i == j
  {
    var id := TaskId("initial", i);
    assert id[8..] == NatToString(i) && TaskId("initial", j)[8..] == NatToString(j);
    NatToStringInjective(i, j);
  }

  /** `followup_<loop>_<i>` names its loop count and its position. */
  lemma FollowUpIdsUnique(m: nat, n: nat, i: nat, j: nat)
    requires TaskId("followup_" + NatToString(m), i) == TaskId("followup_" + NatToString(n), j)
    ensures m == n && i == j
  {
    FollowUpIdSplits(m, i);
    FollowUpIdSplits(n, j);
    DropPrefix("followup_", NatToString(m) + "_" + NatToString(i), NatToString(n) + "_" + NatToString(j));
    SeparatedUnique(NatToString(m), NatToString(i), NatToString(n), NatToString(j), '_');
    NatToStringInjective(m, n);
    NatToStringInjective(i, j);
  }

  /** `followup_<m>_<i>` is "followup_" before `<m>_<i>`, and `<m>` has no '_'. */
  lemma FollowUpIdSplits(m: nat, i: nat)
    ensures TaskId("followup_" + NatToString(m), i) == "followup_" + (NatToString(m) + "_" + NatToString(i))
    ensures '_' !in NatToString(m)
  {
  }

  lemma DropPrefix(p: string, s: string, t: string)
    requires p + s == p + t
    ensures s == t
  {
    assert s == (p + s)[|p|..];
  }

  /** Two strings joined at their first `c` come from the same two halves. */
  lemma SeparatedUnique(a: string, x: string, b: string, y: string, c: char)
    requires c !in a && c !in b
    requires a + [c] + x == b + [c] + y
    ensures a == b && x == y
  {
    var s := a + [c] + x;
    IndexOfFirst(a, c, x);
    IndexOfFirst(b, c, y);
    assert a == s[..|a|] && x == s[|a| + 1..];
  }

  /** A task id starts with 'f' in a follow-up round and with 'i' in the first one. */
  lemma TaskIdInitial(k: LoopKeys, i: nat)
    ensures TaskId(TaskPrefix(k), i)[0] == if UsesFollowUps(k) then 'f' else 'i'
  {
  }

  /** The tasks of one fan-out have pairwise distinct ids. */
  lemma RoutedIdsDistinct(k: LoopKeys)
    ensures Routed(k).Some? ==> var tasks := Routed(k).value;
      forall i, j :: 0 <= i < j < |tasks| ==> tasks[i].taskId != tasks[j].taskId
  {
    if Routed(k).Some? {
      var tasks := Routed(k).value;
      forall i, j | 0 <= i < j < |tasks|
        ensures tasks[i].taskId != tasks[j].taskId
      {
        if tasks[i].taskId == tasks[j].taskId {
          TaskIdsUnique(k, k, i, j);
        }
      }
    }
  }

  /**
   * The search node searches the routed query (when it is truthy) and
   * files the result under the routed task id.
   */
  lemma RoutedTaskSearched(k: LoopKeys, i: nat, reply: Reply, stamp: string)
    requires Routed(k).Some? && i < |Routed(k).value|
    requires Truthy(ChosenQueries(k).value[i])
    ensures var r := WebSearch(Routed(k).value[i], reply, stamp).searchResults[0].result;
      r.query == ChosenQueries(k).value[i] && r.taskId == TaskId(TaskPrefix(k), i)
  {
  }

  // ---------------------------------------------------------------------------
  // _decide_research_complete

  /** The two successors of the reflection node. */
  datatype Next = QueryAgain | Answer
  {
    function Name(): string
    {
      match this
      case QueryAgain => "generate_queries"
      case Answer => "answer_generation"
    }
  }

  /**
   * `_decide_research_complete(state)`: answer when the research is
   * sufficient (absent means sufficient), when the loop budget is used up,
   * or when there is nothing to follow up; otherwise query again. None when
   * `len(follow_up_queries)` raises, which it does whatever the other two
   * conditions say, because all three are computed before the test.
   */
  function Decide(k: LoopKeys, maxLoops: nat): (next: Option<Next>)
    ensures next.None? <==> !Sized(FollowUpValue(k))
    ensures next == Some(Answer) <==>
      && Sized(FollowUpValue(k))
      && (|| Truthy(k.isSufficient.GetOr(JBool(true)))
          || k.researchLoopCount.GetOr(0) >= maxLoops
          || !Truthy(FollowUpValue(k)))
    ensures k.isSufficient.None? && Sized(FollowUpValue(k)) ==> next == Some(Answer)
    ensures next == Some(QueryAgain) ==>
      k.researchLoopCount.GetOr(0) < maxLoops && UsesFollowUps(k) && Routed(k).Some? && Routed(k).value != []
  {
    var isSufficient := Truthy(k.isSufficient.GetOr(JBool(true)));
    var maxLoopsReached := k.researchLoopCount.GetOr(0) >= maxLoops;
    match Items(FollowUpValue(k))
    case None => None
    case Some(followUps) =>
      var noFollowUps := |followUps| == 0;
      if isSufficient || maxLoopsReached || noFollowUps then Some(Answer) else Some(QueryAgain)
  }

  // ---------------------------------------------------------------------------
  // The initial state of `stream_research` and `stream_research_events`

  /** The state a run starts from: the question as the only message, all lists empty, counters 0. */
  function InitialState(question: string): (s: OverallState)
    ensures s.researchLoopCount == 0 && s.totalQueriesRun == 0
    ensures s.messages == [Human(question)] && QuestionOf(s) == Some(question)
    ensures s.searchResults == [] && s.sourcesGathered == [] && s.citations == []
    ensures s.errors == [] && s.warnings == [] && s.followUpQueries == JArr([])
    ensures !Truthy(s.isSufficient) && s.currentPhase == GeneratingQueries
  {
    OverallState(
      messages := [Human(question)],
      originalQuestion := question,
      queryList := [],
      rationale := JStr(""),
      searchResults := [],
      sourcesGathered := [],
      isSufficient := JBool(false),
      knowledgeGap := JStr(""),
      followUpQueries := JArr([]),
      researchLoopCount := 0,
      totalQueriesRun := 0,
      finalAnswer := "",
      citations := [],
      researchSummary := EmptySummary,
      currentPhase := GeneratingQueries,
      errors := [],
      warnings := [])
  }

  // ---------------------------------------------------------------------------
  // The research loop: generate_queries, the search fan-out, aggregation,
  // reflection, then the decision

  /** The replies one round consumes: the query model's, one per search task, the reflection model's. */
  datatype Round = Round(queryReply: Reply, searchReply: nat -> Reply, reflectionReply: Reply)

  /** The replies of the first `n` search tasks of a round. */
  function SearchReplies(r: Round, n: nat): (rs: seq<Reply>)
    ensures |rs| == n
  {
    if n == 0 then [] else SearchReplies(r, n - 1) + [r.searchReply(n - 1)]
  }

  /** The state after the query node. */
  function AfterQueries(s: OverallState, cfg: ResearchAgentConfig, r: Round,
                        decode: string -> Option<Json>): OverallState
  {
    Apply(s, GenerateQueries(s, cfg, r.queryReply, decode))
  }

  /** The state after the search tasks routed from `s` have been merged. */
  function AfterSearches(s: OverallState, r: Round, stamp: string): OverallState
    requires Routed(KeysOf(s)).Some?
  {
    var tasks := Routed(KeysOf(s)).value;
    ApplyAll(s, SearchUpdates(tasks, SearchReplies(r, |tasks|), stamp))
  }

  /**
   * The state after the searches, the aggregation and the reflection, whose
   * prompt is built from `template` (`Prompts.ReflectionUserTemplate` as
   * written).
   */
  function AfterReflection(s: OverallState, cfg: ResearchAgentConfig, template: seq<Prompts.Piece>, r: Round,
                           decode: string -> Option<Json>, stamp: string): OverallState
    requires Routed(KeysOf(s)).Some?
  {
    var searched := AfterSearches(s, r, stamp);
    var aggregated := Apply(searched, AggregateUpdate(searched));
    Apply(aggregated, ReflectionNode(aggregated, cfg, template, r.reflectionReply, decode))
  }

  /** The query node leaves the loop count and the follow-ups in place. */
  lemma QueriesKeepLoopKeys(s: OverallState, cfg: ResearchAgentConfig, r: Round, decode: string -> Option<Json>)
    ensures var queried := AfterQueries(s, cfg, r, decode);
      && queried.researchLoopCount == s.researchLoopCount
      && queried.followUpQueries == s.followUpQueries
  {
  }

  /**
   * One round adds exactly one to the loop count: only the reflection
   * node writes it, and the query node leaves the follow-ups in place.
   */
  lemma RoundCountsOnce(s: OverallState, cfg: ResearchAgentConfig, template: seq<Prompts.Piece>, r: Round,
                        decode: string -> Option<Json>, stamp: string)
    requires Routed(KeysOf(AfterQueries(s, cfg, r, decode))).Some?
    ensures var queried := AfterQueries(s, cfg, r, decode);
      && queried.researchLoopCount == s.researchLoopCount
      && queried.followUpQueries == s.followUpQueries
      && AfterReflection(queried, cfg, template, r, decode, stamp).researchLoopCount == s.researchLoopCount + 1
  {
    QueriesKeepLoopKeys(s, cfg, r, decode);
    var queried := AfterQueries(s, cfg, r, decode);
    var tasks := Routed(KeysOf(queried)).value;
    SearchFanOut(queried, tasks, SearchReplies(r, |tasks|), stamp);
  }

  /**
   * After a decision to query again, the next round searches exactly what
   * iterating the stored follow-ups visits (every item of a list, whatever
   * its type), as follow-up tasks of the current loop count.
   */
  lemma NextRoundSearchesFollowUps(s: OverallState, cfg: ResearchAgentConfig, r: Round,
                                   decode: string -> Option<Json>)
    requires Decide(KeysOf(s), cfg.maxResearchLoops) == Some(QueryAgain)
    ensures Items(s.followUpQueries).Some?
    ensures var tasks := Routed(KeysOf(AfterQueries(s, cfg, r, decode)));
      var xs := Items(s.followUpQueries).value;
      && tasks.Some? && |tasks.value| == |xs| > 0
      && forall i :: 0 <= i < |xs| ==>
           && tasks.value[i].query == Some(xs[i]) && tasks.value[i].isFollowup
           && tasks.value[i].taskId == Some("followup_" + NatToString(s.researchLoopCount) + "_" + NatToString(i))
  {
    QueriesKeepLoopKeys(s, cfg, r, decode);
  }

  /**
   * How a run ends: at the answer node, with no search task to run, or with
   * an exception raised by routing or by the loop decision.
   */
  datatype Outcome = Answered(reflections: nat) | NoSearchTasks(reflections: nat) | Failed(reflections: nat)

  /** What one round leads to: routing raised, routing gave no task, or the state after reflection. */
  datatype RoundEnd = RoutingFailed | NoTasks | RoundDone(state: OverallState)

  /**
   * One round from `s`: the query node, the routing, the fan-out, the
   * aggregation and the reflection. A completed round adds exactly one to
   * the loop count.
   */
  function PlayRound(s: OverallState, cfg: ResearchAgentConfig, template: seq<Prompts.Piece>, r: Round,
                     decode: string -> Option<Json>, stamp: string): (e: RoundEnd)
    ensures e.RoundDone? ==> e.state.researchLoopCount == s.researchLoopCount + 1
  {
    var queried := AfterQueries(s, cfg, r, decode);
    match Routed(KeysOf(queried))
    case None => RoutingFailed
    case Some(tasks) =>
      if tasks == [] then NoTasks
      else
        RoundCountsOnce(s, cfg, template, r, decode, stamp);
        RoundDone(AfterReflection(queried, cfg, template, r, decode, stamp))
  }

  /** The most reflections a run may still make from loop count `count`. */
  function LoopBudget(count: nat, maxLoops: nat): nat
  {
    if count < maxLoops then maxLoops - count else 1
  }

  /**
   * The loop of rounds from state `s` and round `k`, for a round function
   * `play` under which every completed round adds one to the loop count.
   * After each completed round the loop decision answers, raises or plays
   * the next round.
   */
  function RunRounds(play: (OverallState, nat) -> RoundEnd, s: OverallState, k: nat, maxLoops: nat): (o: Outcome)
    requires forall t: OverallState, j: nat :: play(t, j).RoundDone? ==>
      play(t, j).state.researchLoopCount == t.researchLoopCount + 1
    ensures o.reflections <= LoopBudget(s.researchLoopCount, maxLoops)
    ensures o.Answered? ==> o.reflections >= 1
    decreases LoopBudget(s.researchLoopCount, maxLoops)
  {
    match play(s, k)
    case RoutingFailed => Failed(0)
    case NoTasks => NoSearchTasks(0)
    case RoundDone(reflected) =>
      match Decide(KeysOf(reflected), maxLoops)
      case None => Failed(1)
      case Some(Answer) => Answered(1)
      case Some(QueryAgain) =>
        var o := RunRounds(play, reflected, k + 1, maxLoops);
        o.(reflections := o.reflections + 1)
  }

  /**
   * The run from state `s`, with the model replies of round `k` onwards
   * given by `rounds`. A round whose routing yields no task schedules no
   * node, and the run ends there. The run always ends, after at most
   * `LoopBudget` reflections.
   */
  function RunFrom(s: OverallState, cfg: ResearchAgentConfig, template: seq<Prompts.Piece>, rounds: nat -> Round, k: nat,
                   decode: string -> Option<Json>, stamp: string): (o: Outcome)
    ensures o.reflections <= LoopBudget(s.researchLoopCount, cfg.maxResearchLoops)
    ensures o.Answered? ==> o.reflections >= 1
  {
    var play := (t: OverallState, j: nat) => PlayRound(t, cfg, template, rounds(j), decode, stamp);
    assert forall t: OverallState, j: nat :: play(t, j) == PlayRound(t, cfg, template, rounds(j), decode, stamp);
    RunRounds(play, s, k, cfg.maxResearchLoops)
  }

  /**
   * A follow-up value `len()` rejects (null, a number, a boolean), stored
   * by a reflection that found the research sufficient or the budget used
   * up, makes the loop decision raise: the run fails instead of answering.
   */
  lemma UnsizedFollowUpsFailRun(s: OverallState, cfg: ResearchAgentConfig, template: seq<Prompts.Piece>,
                                rounds: nat -> Round, k: nat,
                                decode: string -> Option<Json>, stamp: string)
    requires PlayRound(s, cfg, template, rounds(k), decode, stamp).RoundDone?
    requires !Sized(PlayRound(s, cfg, template, rounds(k), decode, stamp).state.followUpQueries)
    ensures RunFrom(s, cfg, template, rounds, k, decode, stamp) == Failed(1)
  {
  }

  /**
   * Whatever the models reply, a research run from the initial state
   * reflects at most max(1, `max_research_loops`) times.
   */
  lemma ResearchTerminates(question: string, cfg: ResearchAgentConfig, template: seq<Prompts.Piece>,
                           rounds: nat -> Round,
                           decode: string -> Option<Json>, stamp: string)
    ensures RunFrom(InitialState(question), cfg, template, rounds, 0, decode, stamp).reflections
      <= if cfg.maxResearchLoops > 0 then cfg.maxResearchLoops else 1
  {
  }

  /**
   * The state the as-written reflection leaves: sufficient, no follow-ups,
   * answer generation next, the reflection's error last in `errors`, and a
   * loop decision that answers.
   */
  predicate SettledAsWritten(t: OverallState, maxLoops: nat)
  {
    && t.isSufficient == JBool(true) && t.followUpQueries == JArr([])
    && t.currentPhase == GeneratingAnswer
    && |t.errors| >= 1
    && (|| t.errors[|t.errors| - 1] == "Reflection failed: " + ReflectionKeyError
        || t.errors[|t.errors| - 1] == "Reflection failed: " + TypeErrorText)
    && Decide(KeysOf(t), maxLoops) == Some(Answer)
  }

  /**
   * Merging the as-written reflection into any state appends the
   * reflection's error (the template's KeyError, or the formatter's
   * TypeError) and leaves the state settled for answering.
   */
  lemma ReflectedAsWritten(y: OverallState, cfg: ResearchAgentConfig, reply: Reply, decode: string -> Option<Json>)
    ensures var t := Apply(y, ReflectionNode(y, cfg, Prompts.ReflectionUserTemplate, reply, decode));
      && t.errors == y.errors + ["Reflection failed: " + (if AllResultDicts(y.searchResults) then ReflectionKeyError else TypeErrorText)]
      && SettledAsWritten(t, cfg.maxResearchLoops)
  {
    ReflectionAsWrittenFails(y, cfg, reply, decode);
  }

  /** As written, a round that gets through routing leaves the state settled for answering. */
  lemma AsWrittenRoundAnswers(s: OverallState, cfg: ResearchAgentConfig, r: Round,
                              decode: string -> Option<Json>, stamp: string)
    requires PlayRound(s, cfg, Prompts.ReflectionUserTemplate, r, decode, stamp).RoundDone?
    ensures SettledAsWritten(PlayRound(s, cfg, Prompts.ReflectionUserTemplate, r, decode, stamp).state, cfg.maxResearchLoops)
  {
    var queried := AfterQueries(s, cfg, r, decode);
    var searched := AfterSearches(queried, r, stamp);
    var aggregated := Apply(searched, AggregateUpdate(searched));
    ReflectedAsWritten(aggregated, cfg, r.reflectionReply, decode);
    assert PlayRound(s, cfg, Prompts.ReflectionUserTemplate, r, decode, stamp).state
      == Apply(aggregated, ReflectionNode(aggregated, cfg, Prompts.ReflectionUserTemplate, r.reflectionReply, decode));
  }

  /**
   * As written, every run reflects at most once: it fails when routing
   * raises, ends when routing yields no search task, and otherwise answers
   * after its one reflection.
   */
  lemma AsWrittenRunReflectsOnce(s: OverallState, cfg: ResearchAgentConfig, rounds: nat -> Round, k: nat,
                                 decode: string -> Option<Json>, stamp: string)
    ensures var o := RunFrom(s, cfg, Prompts.ReflectionUserTemplate, rounds, k, decode, stamp);
      match PlayRound(s, cfg, Prompts.ReflectionUserTemplate, rounds(k), decode, stamp)
      case RoutingFailed => o == Failed(0)
      case NoTasks => o == NoSearchTasks(0)
      case RoundDone(_) => o == Answered(1)
  {
    if PlayRound(s, cfg, Prompts.ReflectionUserTemplate, rounds(k), decode, stamp).RoundDone? {
      AsWrittenRoundAnswers(s, cfg, rounds(k), decode, stamp);
    }
  }

  /**
   * As written, a research run from the initial state answers after
   * exactly one reflection, or ends with no query to search: routing from
   * it cannot raise, because no follow-ups are stored.
   */
  lemma AsWrittenResearchAnswersOnce(question: string, cfg: ResearchAgentConfig, rounds: nat -> Round,
                                     decode: string -> Option<Json>, stamp: string)
    ensures var o := RunFrom(InitialState(question), cfg, Prompts.ReflectionUserTemplate, rounds, 0, decode, stamp);
      o == Answered(1) || o == NoSearchTasks(0)
  {
    var s0 := InitialState(question);
    AsWrittenRunReflectsOnce(s0, cfg, rounds, 0, decode, stamp);
    QueriesKeepLoopKeys(s0, cfg, rounds(0), decode);
    assert !UsesFollowUps(KeysOf(AfterQueries(s0, cfg, rounds(0), decode)));
    assert !PlayRound(s0, cfg, Prompts.ReflectionUserTemplate, rounds(0), decode, stamp).RoutingFailed?;
  }

  // ---------------------------------------------------------------------------
  // Message cleaning in `stream_research`

  /** A message as the state stream sends it: a typed dict, or the message's text. */
  function CleanMessage(m: Message): Json
  {
    match m
    case Human(c) => JObj([("type", JStr("human")), ("content", JStr(c))])
    case Ai(c) => JObj([("type", JStr("ai")), ("content", JStr(c))])
    case OtherMessage(t) => JStr(t)
  }

  /** Reads a cleaned message back. */
  function RestoreMessage(j: Json): Option<Message>
  {
    match j
    case JStr(t) => Some(OtherMessage(t))
    case JObj(fields) =>
      if |fields| == 2 && fields[0] == ("type", JStr("human")) && fields[1].0 == "content" && fields[1].1.JStr?
      then Some(Human(fields[1].1.s))
      else if |fields| == 2 && fields[0] == ("type", JStr("ai")) && fields[1].0 == "content" && fields[1].1.JStr?
      then Some(Ai(fields[1].1.s))
      else None
    case _ => None
  }

  /** The messages loop of `stream_research`: one cleaned entry per message, from which it can be read back. */
  method CleanMessages(messages: seq<Message>) returns (cleaned: seq<Json>)
    ensures |cleaned| == |messages|
    ensures forall i :: 0 <= i < |messages| ==> cleaned[i] == CleanMessage(messages[i])
    ensures forall i :: 0 <= i < |messages| ==> RestoreMessage(cleaned[i]) == Some(messages[i])
  {
    cleaned := [];
    for i := 0 to |messages|
      invariant |cleaned| == i
      invariant forall j :: 0 <= j < i ==> cleaned[j] == CleanMessage(messages[j])
    {
      var msg := messages[i];
      match msg
      case Human(c) => cleaned := cleaned + [JObj([("type", JStr("human")), ("content", JStr(c))])];
      case Ai(c) => cleaned := cleaned + [JObj([("type", JStr("ai")), ("content", JStr(c))])];
      case OtherMessage(t) => cleaned := cleaned + [JStr(t)];
    }
    forall i | 0 <= i < |messages|
      ensures RestoreMessage(cleaned[i]) == Some(messages[i])
    {
      MessageRoundTrip(messages[i]);
    }
  }

  /** Cleaning loses nothing: every message can be read back from its cleaned form. */
  lemma MessageRoundTrip(m: Message)
    ensures RestoreMessage(CleanMessage(m)) == Some(m)
  {
  }

  // ---------------------------------------------------------------------------
  // stream_research_events

  /** A raw graph event: its `event` and `name` keys, and its `data` (None when absent). */
  datatype GraphEvent = GraphEvent(event: string, name: string, data: Option<Json>)

  /** The events the workflow streams. Timestamps are not modelled. */
  datatype StreamEvent =
    | NodeStart(node: string, message: string)
    | NodeComplete(node: string, data: Json)
    | NodeStream(node: string, data: Json)
    | LlmToken(node: string, data: Json)
    | Forwarded(eventType: string, node: string, data: Json)
    | ErrorEvent(error: string)
    | Complete(finalResult: seq<(string, Json)>)
  {
    /** The event's `type`. */
    function TypeName(): string
    {
      match this
      case NodeStart(_, _) => "node_start"
      case NodeComplete(_, _) => "node_complete"
      case NodeStream(_, _) => "node_stream"
      case LlmToken(_, _) => "llm_token"
      case Forwarded(_, _, _) => "event"
      case ErrorEvent(_) => "error"
      case Complete(_) => "complete"
    }

    /** `event.get("node", "")`: the error and complete events carry no node. */
    function NodeName(): string
    {
      match this
      case NodeStart(n, _) => n
      case NodeComplete(n, _) => n
      case NodeStream(n, _) => n
      case LlmToken(n, _) => n
      case Forwarded(_, n, _) => n
      case ErrorEvent(_) => ""
      case Complete(_) => ""
    }
  }

  /** `event.get("data", {})`. */
  function DataOf(e: GraphEvent): Json
  {
    e.data.GetOr(JObj([]))
  }

  /** The typed event for a raw graph event. */
  function MapEvent(e: GraphEvent): (out: StreamEvent)
    ensures e.event == "on_chain_start" ==> out == NodeStart(e.name, "Starting " + e.name)
    ensures e.event == "on_chain_end" ==> out == NodeComplete(e.name, DataOf(e))
    ensures e.event == "on_chain_stream" ==> out == NodeStream(e.name, DataOf(e))
    ensures e.event == "on_chat_model_stream" ==> out == LlmToken(e.name, DataOf(e))
    ensures e.event !in {"on_chain_start", "on_chain_end", "on_chain_stream", "on_chat_model_stream"} ==>
      out == Forwarded(e.event, e.name, DataOf(e))
    ensures out.NodeName() == e.name && !out.ErrorEvent? && !out.Complete?
  {
    if e.event == "on_chain_start" then NodeStart(e.name, "Starting " + e.name)
    else if e.event == "on_chain_end" then NodeComplete(e.name, DataOf(e))
    else if e.event == "on_chain_stream" then NodeStream(e.name, DataOf(e))
    else if e.event == "on_chat_model_stream" then LlmToken(e.name, DataOf(e))
    else Forwarded(e.event, e.name, DataOf(e))
  }

  /**
   * `captured.update(output)`: an object's keys overwrite; an empty list or
   * string adds nothing; any other value raises (None).
   */
  function Absorb(captured: map<string, Json>, output: Json): (r: Option<map<string, Json>>)
    ensures output.JObj? ==> r == Some(captured + ToMap(output.fields))
  {
    match output
    case JObj(fields) => Some(captured + ToMap(fields))
    case JArr(items) => if items == [] then Some(captured) else None
    case JStr(t) => if t == "" then Some(captured) else None
    case _ => None
  }

  /**
   * What an event does to the captured answer-node output: only the end of
   * `answer_generation` with a non-empty data dict merges its `output`
   * (default {}).
   */
  function Capture(captured: map<string, Json>, e: GraphEvent): Option<map<string, Json>>
  {
    if e.event == "on_chain_end" && e.name == "answer_generation" && DataOf(e).JObj? && DataOf(e).fields != [] then
      Absorb(captured, Get(DataOf(e).fields, "output").GetOr(JObj([])))
    else Some(captured)
  }

  /** The state of the event loop: the events yielded, the captured output, the exception if one was raised. */
  datatype Progress = Progress(events: seq<StreamEvent>, captured: map<string, Json>, failure: Option<string>)

  /** The event loop after the first `n` raw events. */
  function EventsPrefix(events: seq<GraphEvent>, n: nat): Progress
    requires n <= |events|
  {
    if n == 0 then Progress([], map[], None)
    else
      var p := EventsPrefix(events, n - 1);
      if p.failure.Some? then p
      else
        match Capture(p.captured, events[n - 1])
        case None => p.(failure := Some(TypeErrorText))
        case Some(c) => Progress(p.events + [MapEvent(events[n - 1])], c, None)
  }

  /**
   * The loop yields the mapped events in order, one per raw event until an
   * exception, which stops it.
   */
  lemma {:induction false} EventsPrefixMapped(events: seq<GraphEvent>, n: nat)
    requires n <= |events|
    ensures var p := EventsPrefix(events, n);
      && |p.events| <= n
      && (p.failure.None? ==> |p.events| == n)
      && forall i :: 0 <= i < |p.events| ==> p.events[i] == MapEvent(events[i])
  {
    if n > 0 {
      EventsPrefixMapped(events, n - 1);
    }
  }

  /** After an exception nothing more happens in the loop. */
  lemma {:induction false} FailureSticks(events: seq<GraphEvent>, i: nat, j: nat)
    requires i <= j <= |events|
    requires EventsPrefix(events, i).failure.Some?
    ensures EventsPrefix(events, j) == EventsPrefix(events, i)
    decreases j
  {
    if j > i {
      FailureSticks(events, i, j - 1);
    }
  }

  /** What `aget_state` gives after the loop: the state's values, nothing usable, or an exception. */
  datatype StateRead = StateValues(values: seq<(string, Json)>) | NoState | ReadFailed

  /** `m.get(key, default)`. */
  function Lookup(m: map<string, Json>, key: string, default: Json): Json
  {
    if key in m then m[key] else default
  }

  /**
   * The `final_result` of the closing event: the state's values merged
   * over the captured output (state values winning) with six keys; or,
   * when the state cannot be read, three keys of the captured output.
   */
  function FinalResult(captured: map<string, Json>, read: StateRead): seq<(string, Json)>
  {
    match read
    case ReadFailed =>
      [("final_answer", Lookup(captured, "final_answer", JStr("Research completed."))),
       ("citations", Lookup(captured, "citations", JArr([]))),
       ("research_summary", Lookup(captured, "research_summary", JObj([])))]
    case _ =>
      var finalData := if read.StateValues? then captured + ToMap(read.values) else captured;
      [("final_answer", Lookup(finalData, "final_answer", JStr(""))),
       ("citations", Lookup(finalData, "citations", JArr([]))),
       ("research_summary", Lookup(finalData, "research_summary", JObj([]))),
       ("sources_gathered", Lookup(finalData, "sources_gathered", JArr([]))),
       ("total_queries_run", Lookup(finalData, "total_queries_run", JInt(0))),
       ("research_loop_count", Lookup(finalData, "research_loop_count", JInt(0)))]
  }

  /** The keys of the closing event when the graph state was read. */
  predicate FinalKey(key: string)
  {
    key in ["final_answer", "citations", "research_summary", "sources_gathered", "total_queries_run",
            "research_loop_count"]
  }

  /**
   * In the closing event a key of the graph state wins over the captured
   * answer output, which wins over the default.
   */
  lemma StateValuesWin(captured: map<string, Json>, values: seq<(string, Json)>, key: string)
    requires FinalKey(key)
    ensures var r := FinalResult(captured, StateValues(values));
      && HasKey(r, key)
      && (HasKey(values, key) ==> Get(r, key) == Some(ToMap(values)[key]))
      && (!HasKey(values, key) && key in captured ==> Get(r, key) == Some(captured[key]))
  {
    var r := FinalResult(captured, StateValues(values));
    var i :=
      if key == "final_answer" then 0 else if key == "citations" then 1
      else if key == "research_summary" then 2 else if key == "sources_gathered" then 3
      else if key == "total_queries_run" then 4 else 5;
    assert r[i].0 == key;
    GetAt(r, i);
  }

  /** Without the graph state, the answer falls back to the captured one, else "Research completed.". */
  lemma ReadFailureFallback(captured: map<string, Json>)
    ensures var r := FinalResult(captured, ReadFailed);
      && |r| == 3
      && Get(r, "final_answer") == Some(if "final_answer" in captured then captured["final_answer"]
                                        else JStr("Research completed."))
  {
  }

  /**
   * The whole event stream: the mapped events up to an exception, then an
   * error event if there was one (raised by the loop body or by the graph
   * stream `raised`), then always exactly one `complete` event, last.
   */
  function EventStream(events: seq<GraphEvent>, raised: Option<string>, read: StateRead): (out: seq<StreamEvent>)
    ensures |out| >= 1 && out[|out| - 1] == Complete(FinalResult(EventsPrefix(events, |events|).captured, read))
    ensures forall i :: 0 <= i < |out| - 1 ==> !out[i].Complete?
    ensures forall i :: 0 <= i < |out| - 2 ==> !out[i].ErrorEvent?
    ensures |out| - 1 <= |events| + 1
  {
    var p := EventsPrefix(events, |events|);
    EventsPrefixMapped(events, |events|);
    var failure := if p.failure.Some? then p.failure else raised;
    p.events + (if failure.Some? then [ErrorEvent(failure.value)] else []) + [Complete(FinalResult(p.captured, read))]
  }

  /**
   * One turn of the event loop: the typed event to yield and the captured
   * output after the event, None when capturing raised (nothing is yielded then).
   */
  method HandleEvent(captured: map<string, Json>, event: GraphEvent)
    returns (out: StreamEvent, captured': Option<map<string, Json>>)
    ensures captured' == Capture(captured, event)
    ensures captured'.Some? ==> out == MapEvent(event)
  {
    captured' := Some(captured);
    if event.event == "on_chain_start" {
      out := NodeStart(event.name, "Starting " + event.name);
    } else if event.event == "on_chain_end" {
      if event.name == "answer_generation" {
        var outputData := DataOf(event);
        if outputData.JObj? && outputData.fields != [] {
          captured' := Absorb(captured, Get(outputData.fields, "output").GetOr(JObj([])));
        }
      }
      out := NodeComplete(event.name, DataOf(event));
    } else if event.event == "on_chain_stream" {
      out := NodeStream(event.name, DataOf(event));
    } else if event.event == "on_chat_model_stream" {
      out := LlmToken(event.name, DataOf(event));
    } else {
      out := Forwarded(event.event, event.name, DataOf(event));
    }
  }

  /** The `async for` loop over the graph's events, up to its end or an exception. */
  method EventLoop(events: seq<GraphEvent>)
    returns (out: seq<StreamEvent>, finalStateData: map<string, Json>, failure: Option<string>)
    ensures Progress(out, finalStateData, failure) == EventsPrefix(events, |events|)
  {
    finalStateData, failure, out := map[], None, [];
    var i := 0;
    while i < |events| && failure.None?
      invariant i <= |events|
      invariant Progress(out, finalStateData, failure) == EventsPrefix(events, i)
    {
      var event, updated := HandleEvent(finalStateData, events[i]);
      if updated.None? {
        failure := Some(TypeErrorText);
      } else {
        finalStateData := updated.value;
        out := out + [event];
      }
      i := i + 1;
    }
    if failure.Some? {
      FailureSticks(events, i, |events|);
    }
  }

  /**
   * `stream_research_events(question)`, given the raw events the graph
   * yields, the exception (if any) it raises after them, and the outcome of
   * reading its final state.
   */
  method StreamResearchEvents(events: seq<GraphEvent>, raised: Option<string>, read: StateRead)
    returns (out: seq<StreamEvent>)
    ensures out == EventStream(events, raised, read)
  {
    var finalStateData, failure;
    out, finalStateData, failure := EventLoop(events);
    if failure.None? && raised.Some? {
      failure := raised;
    }
    if failure.Some? {
      out := out + [ErrorEvent(failure.value)];
    }
    out := out + [Complete(FinalResult(finalStateData, read))];
  }
}
