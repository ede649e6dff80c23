/**
 * The text formatters that lay out search results and sources for the
 * reflection and answer prompts.
 */
module Prompts {
  import opened Text
  import opened Seqs
  import opened State
  import opened Json

  // ---------------------------------------------------------------------------
  // format_search_results_for_reflection

  /** The first source, or "No sources" when there is none. */
  function KeyUrl(r: SearchResult): string
  {
    if r.sources != [] then r.sources[0] else "No sources"
  }

  /** The block for the `n`-th result (counting from 1), with its source count and key URL. */
  function ReflectionBlock(n: nat, r: SearchResult): string
  {
    "\nResearch Area " + NatToString(n) + ": " + Show(r.query) +
    "\nSummary: " + r.summary +
    "\nSources: " + NatToString(|r.sources|) + " sources" +
    "\nKey URL: " + KeyUrl(r) + "\n"
  }

  function ReflectionBlocks(rs: seq<SearchResult>): seq<string>
  {
    seq(|rs|, i requires 0 <= i < |rs| => ReflectionBlock(i + 1, rs[i]))
  }

  /** `format_search_results_for_reflection(search_results)`. */
  function FormatForReflection(rs: seq<SearchResult>): (text: string)
    ensures text == "" <==> rs == []
  {
    var blocks := ReflectionBlocks(rs);
    assert rs != [] ==> blocks[0][0] == '\n' && Join(blocks, "\n")[0] == '\n';
    Join(blocks, "\n")
  }

  /**
   * The blocks come in the order of the results and are numbered on from
   * 1: one more result adds one more block, numbered one past the last.
   */
  lemma ReflectionAppend(rs: seq<SearchResult>, r: SearchResult)
    requires rs != []
    ensures FormatForReflection(rs + [r]) == FormatForReflection(rs) + "\n" + ReflectionBlock(|rs| + 1, r)
  {
    assert ReflectionBlocks(rs + [r]) == ReflectionBlocks(rs) + [ReflectionBlock(|rs| + 1, r)];
    JoinAppend(ReflectionBlocks(rs), "\n", ReflectionBlock(|rs| + 1, r));
  }

  /** Result `i` appears as block number `i + 1`, with its source count and first source. */
  lemma ReflectionMentionsEach(rs: seq<SearchResult>, i: nat)
    requires i < |rs|
    ensures Contains(FormatForReflection(rs), ReflectionBlock(i + 1, rs[i]))
  {
    JoinContainsPart(ReflectionBlocks(rs), "\n", i);
  }

  // ---------------------------------------------------------------------------
  // format_search_results_for_answer

  function AnswerBlock(r: SearchResult): string
  {
    "\nQuery: " + Show(r.query) + "\nFindings: " + r.summary + "\n"
  }

  function AnswerBlocks(rs: seq<SearchResult>): seq<string>
  {
    seq(|rs|, i requires 0 <= i < |rs| => AnswerBlock(rs[i]))
  }

  /** `format_search_results_for_answer(search_results)`. */
  function FormatForAnswer(rs: seq<SearchResult>): (text: string)
    ensures text == "" <==> rs == []
  {
    var blocks := AnswerBlocks(rs);
    assert rs != [] ==> blocks[0][0] == '\n' && Join(blocks, "\n")[0] == '\n';
    Join(blocks, "\n")
  }

  /** One more result adds its block at the end. */
  lemma AnswerAppend(rs: seq<SearchResult>, r: SearchResult)
    requires rs != []
    ensures FormatForAnswer(rs + [r]) == FormatForAnswer(rs) + "\n" + AnswerBlock(r)
  {
    assert AnswerBlocks(rs + [r]) == AnswerBlocks(rs) + [AnswerBlock(r)];
    JoinAppend(AnswerBlocks(rs), "\n", AnswerBlock(r));
  }

  /** Every result's query and findings appear. */
  lemma AnswerMentionsEach(rs: seq<SearchResult>, i: nat)
    requires i < |rs|
    ensures Contains(FormatForAnswer(rs), "\nQuery: " + Show(rs[i].query) + "\nFindings: " + rs[i].summary + "\n")
  {
    JoinContainsPart(AnswerBlocks(rs), "\n", i);
  }

  // ---------------------------------------------------------------------------
  // format_sources_list

  const MaxListedSources: nat := 20

  /**
   * The lines of the sources list: the distinct sources (in order of first
   * occurrence; the source uses set order), at most 20, each after "- ".
   */
  function SourceLines(sources: seq<string>): (lines: seq<string>)
    ensures |lines| <= MaxListedSources
    ensures NoDuplicates(lines)
    ensures forall i :: 0 <= i < |lines| ==> |lines[i]| >= 2 && lines[i][..2] == "- " && lines[i][2..] in sources
    ensures |Dedup(sources)| <= MaxListedSources ==> forall s :: s in sources ==> "- " + s in lines
  {
    var unique := Dedup(sources);
    var kept := if |unique| <= MaxListedSources then unique else unique[..MaxListedSources];
    var lines := seq(|kept|, i requires 0 <= i < |kept| => "- " + kept[i]);
    assert forall i :: 0 <= i < |lines| ==> lines[i][2..] == kept[i];
    assert |Dedup(sources)| <= MaxListedSources ==> forall s :: s in sources ==> "- " + s in lines by {
      if |unique| <= MaxListedSources {
        forall s | s in sources ensures "- " + s in lines {
          var i :| 0 <= i < |kept| && kept[i] == s;
          assert lines[i] == "- " + s;
        }
      }
    }
    lines
  }

  /** `format_sources_list(sources)`. */
  function FormatSourcesList(sources: seq<string>): (text: string)
    ensures sources == [] ==> text == ""
  {
    Join(SourceLines(sources), "\n")
  }

  /**
   * When no source contains a line break, the lines of the list are exactly
   * the source lines: distinct, at most 20, each "- " and an input source.
   */
  lemma SourcesListLines(sources: seq<string>)
    requires sources != []
    requires forall i :: 0 <= i < |sources| ==> '\n' !in sources[i]
    ensures Split(FormatSourcesList(sources), "\n") == SourceLines(sources)
  {
    var lines := SourceLines(sources);
    assert Dedup(sources) != [] by {
      assert sources[0] in Dedup(sources);
    }
    forall i | 0 <= i < |lines|
      ensures '\n' !in lines[i]
    {
      assert lines[i] == lines[i][..2] + lines[i][2..];
      var j :| 0 <= j < |sources| && sources[j] == lines[i][2..];
    }
    SplitJoin(lines, '\n');
  }

  // ---------------------------------------------------------------------------
  // str.format on the prompt templates

  /**
   * A template as Python's `str.format` parser splits it: literal text, and
   * replacement fields `{name:spec}`. A `{` that is not doubled opens a
   * field whose name runs to the first `:`, `!` or `}`.
   */
  datatype Piece = Literal(text: string) | Field(name: string, spec: string)

  /** What `template.format(**args)` gives: the text, or the KeyError of a field name that is not an argument. */
  datatype Formatted = Rendered(text: string) | MissingKey(key: string)

  /** Every field of `ps` names one of the arguments. */
  predicate Bound(ps: seq<Piece>, args: map<string, string>)
  {
    forall i :: 0 <= i < |ps| && ps[i].Field? ==> ps[i].name in args
  }

  /**
   * `template.format(**args)`, left to right: the first field whose name is
   * not an argument raises KeyError. A field's format spec is not applied
   * (the only spec in the templates belongs to a field whose lookup fails).
   */
  function FormatPieces(ps: seq<Piece>, args: map<string, string>): (r: Formatted)
    ensures r.Rendered? <==> Bound(ps, args)
    ensures r.MissingKey? ==>
      && r.key !in args
      && exists i :: 0 <= i < |ps| && ps[i].Field? && ps[i].name == r.key && Bound(ps[..i], args)
  {
    if ps == [] then Rendered("")
    else
      var head := match ps[0]
        case Literal(t) => Rendered(t)
        case Field(n, _) => if n in args then Rendered(args[n]) else MissingKey(n);
      if head.MissingKey? then
        assert ps[..0] == [];
        head
      else
        match FormatPieces(ps[1..], args)
        case MissingKey(k) =>
          var i :| 0 <= i < |ps[1..]| && ps[1..][i].Field? && ps[1..][i].name == k && Bound(ps[1..][..i], args);
          assert ps[..i + 1] == [ps[0]] + ps[1..][..i];
          MissingKey(k)
        case Rendered(t) =>
          assert forall j :: 1 <= j < |ps| ==> ps[j] == ps[1..][j - 1];
          Rendered(head.text + t)
  }

  /** Every literal piece of a template that renders appears in the text. */
  lemma {:induction false} RenderedKeepsLiterals(ps: seq<Piece>, args: map<string, string>, i: nat)
    requires Bound(ps, args) && i < |ps| && ps[i].Literal?
    ensures Contains(FormatPieces(ps, args).text, ps[i].text)
  {
    var head := if ps[0].Literal? then ps[0].text else args[ps[0].name];
    assert Bound(ps[1..], args) by {
      assert forall j :: 0 <= j < |ps[1..]| ==> ps[1..][j] == ps[j + 1];
    }
    assert FormatPieces(ps, args).text == head + FormatPieces(ps[1..], args).text;
    if i == 0 {
      assert ps[0].text <= FormatPieces(ps, args).text;
    } else {
      RenderedKeepsLiterals(ps[1..], args, i - 1);
      ContainsAfter(head, FormatPieces(ps[1..], args).text, ps[i].text);
    }
  }

  /** The JSON example of `REFLECTION_USER_TEMPLATE`: its opening `{` is not doubled. */
  const ExampleKey: string := "\n  \"is_sufficient\""
  const ExampleSpec: string :=
    " true/false,\n  \"analysis\": \"Your evaluation of the research completeness\",\n" +
    "  \"knowledge_gaps\": \"Specific gaps identified (if any)\",\n" +
    "  \"follow_up_queries\": [\"additional query 1\", \"additional query 2\"] // Only if is_sufficient is false\n"

  /** The JSON example as the text shows it. */
  const JsonExample: string := "{" + ExampleKey + ":" + ExampleSpec + "}"

  /** The pieces before the JSON example. */
  const ReflectionTemplateHead: seq<Piece> := [
    Literal("Original Question: "), Field("question", ""),
    Literal("\n\nResearch Findings:\n"), Field("research_summary", ""),
    Literal("\n\nSources Gathered: "), Field("source_count", ""),
    Literal("\nResearch Loops Completed: "), Field("loop_count", ""),
    Literal("\n\nEvaluate if this information is sufficient to provide a comprehensive answer. " +
            "Format your response as JSON:\n\n")]

  /** `REFLECTION_USER_TEMPLATE` as the parser reads it: the example is a field named `\n  "is_sufficient"`. */
  const ReflectionUserTemplate: seq<Piece> := ReflectionTemplateHead + [Field(ExampleKey, ExampleSpec)]

  /** The template with the example's braces doubled, so that it is literal text. */
  const ReflectionUserTemplateFixed: seq<Piece> := ReflectionTemplateHead + [Literal(JsonExample)]

  /** The keyword arguments `reflection_node` passes to the template. */
  function ReflectionArgs(question: string, summary: string, sourceCount: nat, loops: nat): (args: map<string, string>)
    ensures args.Keys == {"question", "research_summary", "source_count", "loop_count"}
  {
    map["question" := question, "research_summary" := summary,
        "source_count" := NatToString(sourceCount), "loop_count" := NatToString(loops)]
  }

  /** Whatever the arguments, formatting the template as written raises KeyError on the example's key. */
  lemma ReflectionTemplateRaises(question: string, summary: string, sourceCount: nat, loops: nat)
    ensures FormatPieces(ReflectionUserTemplate, ReflectionArgs(question, summary, sourceCount, loops))
      == MissingKey(ExampleKey)
  {
    var args := ReflectionArgs(question, summary, sourceCount, loops);
    var ps := ReflectionUserTemplate;
    assert ExampleKey !in args;
    assert !Bound(ps, args) by { assert ps[9] == Field(ExampleKey, ExampleSpec); }
    assert forall i :: 0 <= i < 9 && ps[i].Field? ==> ps[i].name in args;
  }

  /** With the braces doubled, the template renders, and the text shows the JSON example. */
  lemma FixedReflectionTemplateRenders(question: string, summary: string, sourceCount: nat, loops: nat)
    ensures var r := FormatPieces(ReflectionUserTemplateFixed, ReflectionArgs(question, summary, sourceCount, loops));
      r.Rendered? && Contains(r.text, JsonExample)
  {
    var args := ReflectionArgs(question, summary, sourceCount, loops);
    var ps := ReflectionUserTemplateFixed;
    assert Bound(ps, args) by {
      assert forall i :: 0 <= i < |ps| && ps[i].Field? ==> ps[i].name in args;
    }
    assert ps[9] == Literal(JsonExample);
    RenderedKeepsLiterals(ps, args, 9);
  }
}
