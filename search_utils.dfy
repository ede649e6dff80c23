/**
 * Search result and citation helpers: numbering grounding chunks into short
 * URL identifiers, building citation records, appending citation markers to
 * the paragraphs they support, formatting citations for display, and
 * finding URLs in free text.
 */
module SearchUtils {
  import opened Wrappers
  import opened Text
  import opened Seqs

  // ---------------------------------------------------------------------------
  // resolve_urls

  /** The `web_search` record of a grounding chunk; each key may be missing. */
  datatype WebInfo = WebInfo(url: Option<string>, title: Option<string>, snippet: Option<string>)

  /** A grounding chunk: `webSearch` is None when `web_search` is missing or empty. */
  datatype Chunk = Chunk(webSearch: Option<WebInfo>)

  /** One resolved URL record (its wall-clock `timestamp` is not modelled). */
  datatype ResolvedUrl = ResolvedUrl(
    origUrl: string,
    shortUrl: string,
    title: string,
    snippet: string,
    value: string,
    id: string)

  /** The chunk's URL, "" when there is none. */
  function ChunkUrl(c: Chunk): string
  {
    match c.webSearch
    case None => ""
    case Some(w) => w.url.GetOr("")
  }

  /** The identifier of the chunk at (0-based) position `i`: `<task>-<i+1>`. */
  function ShortId(taskId: string, i: nat): string
  {
    taskId + "-" + NatToString(i + 1)
  }

  /** The record built for the chunk at position `i`. */
  function ResolveChunk(c: Chunk, taskId: string, i: nat): ResolvedUrl
    requires c.webSearch.Some?
  {
    var w := c.webSearch.value;
    var id := ShortId(taskId, i);
    ResolvedUrl(ChunkUrl(c), "[" + id + "]", w.title.GetOr("Unknown Source"), w.snippet.GetOr(""), ChunkUrl(c), id)
  }

  /** The records built from the first `n` chunks: one per chunk with a non-empty URL. */
  function ResolvedPrefix(chunks: seq<Chunk>, taskId: string, n: nat): seq<ResolvedUrl>
    requires n <= |chunks|
  {
    if n == 0 then []
    else if ChunkUrl(chunks[n - 1]) == "" then ResolvedPrefix(chunks, taskId, n - 1)
    else ResolvedPrefix(chunks, taskId, n - 1) + [ResolveChunk(chunks[n - 1], taskId, n - 1)]
  }

  /** The positions, below `n`, of the chunks with a non-empty URL, in increasing order. */
  function UrlPositions(chunks: seq<Chunk>, n: nat): (ps: seq<nat>)
    requires n <= |chunks|
    ensures |ps| <= n
  {
    if n == 0 then []
    else if ChunkUrl(chunks[n - 1]) == "" then UrlPositions(chunks, n - 1)
    else UrlPositions(chunks, n - 1) + [n - 1]
  }

  /** The positions kept are exactly those of the chunks with a URL, increasing. */
  lemma {:induction false} UrlPositionsExact(chunks: seq<Chunk>, n: nat)
    requires n <= |chunks|
    ensures var ps := UrlPositions(chunks, n);
      (forall k :: 0 <= k < |ps| ==> ps[k] < n && ChunkUrl(chunks[ps[k]]) != "") &&
      (forall k, l :: 0 <= k < l < |ps| ==> ps[k] < ps[l]) &&
      (forall i :: 0 <= i < n && ChunkUrl(chunks[i]) != "" ==> i in ps)
  {
    if n > 0 {
      UrlPositionsExact(chunks, n - 1);
    }
  }

  /** `resolve_urls(chunks, task_id)`. */
  method ResolveUrls(chunks: seq<Chunk>, taskId: string) returns (resolved: seq<ResolvedUrl>)
    ensures resolved == ResolvedPrefix(chunks, taskId, |chunks|)
  {
    resolved := [];
    if chunks == [] {
      return;
    }
    for i := 0 to |chunks|
      invariant resolved == ResolvedPrefix(chunks, taskId, i)
    {
      var chunk := chunks[i];
      if chunk.webSearch.None? {
        continue;
      }
      var url := chunk.webSearch.value.url.GetOr("");
      if url == "" {
        continue;
      }
      var id := taskId + "-" + NatToString(i + 1);
      resolved := resolved + [ResolvedUrl(
        url, "[" + id + "]",
        chunk.webSearch.value.title.GetOr("Unknown Source"),
        chunk.webSearch.value.snippet.GetOr(""),
        url, id)];
    }
  }

  /**
   * `r` is the record of the chunk at position `i`: it keeps that chunk's
   * URL, is numbered by the chunk's own position (skipped chunks still use
   * up a number), its short URL is its id in brackets, and a missing title
   * or snippet becomes "Unknown Source" or "".
   */
  predicate RecordOf(chunks: seq<Chunk>, taskId: string, r: ResolvedUrl, i: nat)
  {
    i < |chunks| && r.origUrl == ChunkUrl(chunks[i]) != "" && r.value == r.origUrl &&
    r.id == ShortId(taskId, i) && r.shortUrl == "[" + r.id + "]" &&
    r.title == chunks[i].webSearch.value.title.GetOr("Unknown Source") &&
    r.snippet == chunks[i].webSearch.value.snippet.GetOr("")
  }

  /** Record `k` comes from the chunk at the `k`-th URL-bearing position. */
  lemma {:induction false} ResolvedRecords(chunks: seq<Chunk>, taskId: string, n: nat)
    requires n <= |chunks|
    ensures |ResolvedPrefix(chunks, taskId, n)| == |UrlPositions(chunks, n)|
    ensures forall k :: 0 <= k < |ResolvedPrefix(chunks, taskId, n)| ==>
      RecordOf(chunks, taskId, ResolvedPrefix(chunks, taskId, n)[k], UrlPositions(chunks, n)[k])
  {
    if n > 0 {
      ResolvedRecords(chunks, taskId, n - 1);
      var rs, ps := ResolvedPrefix(chunks, taskId, n - 1), UrlPositions(chunks, n - 1);
      if ChunkUrl(chunks[n - 1]) != "" {
        var rs', ps' := rs + [ResolveChunk(chunks[n - 1], taskId, n - 1)], ps + [n - 1];
        assert ResolvedPrefix(chunks, taskId, n) == rs';
        assert UrlPositions(chunks, n) == ps';
        forall k | 0 <= k < |rs'| ensures RecordOf(chunks, taskId, rs'[k], ps'[k]) {
          if k < |rs| {
            assert rs'[k] == rs[k] && ps'[k] == ps[k];
          }
        }
      }
    }
  }

  /** Distinct chunk positions give distinct identifiers. */
  lemma ShortIdInjective(taskId: string, i: nat, j: nat)
    requires ShortId(taskId, i) == ShortId(taskId, j)
    ensures i == j
  {
    var p := taskId + "-";
    assert ShortId(taskId, i)[|p|..] == NatToString(i + 1);
    assert ShortId(taskId, j)[|p|..] == NatToString(j + 1);
    NatToStringInjective(i + 1, j + 1);
  }

  lemma BracketedDistinct(a: string, b: string)
    requires a != b
    ensures "[" + a + "]" != "[" + b + "]"
  {
    var x, y := "[" + a + "]", "[" + b + "]";
    assert x[1..|x| - 1] == a;
    assert y[1..|y| - 1] == b;
  }

  /** The identifiers (and so the citation markers) of one call are pairwise distinct. */
  lemma ResolvedIdsDistinct(chunks: seq<Chunk>, taskId: string)
    ensures var r := ResolvedPrefix(chunks, taskId, |chunks|);
      forall k, l :: 0 <= k < l < |r| ==> r[k].id != r[l].id && r[k].shortUrl != r[l].shortUrl
  {
    var r := ResolvedPrefix(chunks, taskId, |chunks|);
    var ps := UrlPositions(chunks, |chunks|);
    ResolvedRecords(chunks, taskId, |chunks|);
    UrlPositionsExact(chunks, |chunks|);
    forall k, l | 0 <= k < l < |r|
      ensures r[k].id != r[l].id && r[k].shortUrl != r[l].shortUrl
    {
      if r[k].id == r[l].id {
        ShortIdInjective(taskId, ps[k], ps[l]);
      }
      BracketedDistinct(r[k].id, r[l].id);
    }
  }

  // ---------------------------------------------------------------------------
  // get_citations

  /** A citation record. */
  datatype Citation = Citation(
    citation: string,
    shortUrl: string,
    url: string,
    title: string,
    textSegments: seq<string>,
    segments: seq<ResolvedUrl>)

  /**
   * `get_citations(response, resolved_urls)`: one citation per resolved URL,
   * in order (the response argument is unused by the source and left out).
   */
  method GetCitations(resolved: seq<ResolvedUrl>) returns (cs: seq<Citation>)
    ensures |cs| == |resolved|
    ensures forall k :: 0 <= k < |cs| ==>
      cs[k].citation == resolved[k].id && cs[k].shortUrl == resolved[k].shortUrl &&
      cs[k].url == resolved[k].origUrl && cs[k].title == resolved[k].title &&
      cs[k].textSegments == [] && cs[k].segments == [resolved[k]]
  {
    if resolved == [] {
      return [];
    }
    cs := [];
    for k := 0 to |resolved|
      invariant |cs| == k
      invariant forall j :: 0 <= j < k ==>
        cs[j].citation == resolved[j].id && cs[j].shortUrl == resolved[j].shortUrl &&
        cs[j].url == resolved[j].origUrl && cs[j].title == resolved[j].title &&
        cs[j].textSegments == [] && cs[j].segments == [resolved[j]]
    {
      var u := resolved[k];
      cs := cs + [Citation(u.id, u.shortUrl, u.origUrl, u.title, [], [u])];
    }
  }

  // ---------------------------------------------------------------------------
  // insert_citation_markers

  const ParagraphBreak: string := "\n\n"

  /** A paragraph can take the marker: it shares more than three words with the snippet and lacks the marker. */
  predicate Relevant(para: string, snippetWords: set<string>, marker: string)
  {
    |Words(para) * snippetWords| > 3 && !Contains(para, marker)
  }

  /** The first paragraph at or after `from` that can take the marker. */
  function FirstRelevant(paras: seq<string>, snippetWords: set<string>, marker: string, from: nat): (r: Option<nat>)
    requires from <= |paras|
    ensures r.Some? ==> from <= r.value < |paras| && Relevant(paras[r.value], snippetWords, marker)
    ensures r.Some? ==> forall j :: from <= j < r.value ==> !Relevant(paras[j], snippetWords, marker)
    ensures r.None? ==> forall j :: from <= j < |paras| ==> !Relevant(paras[j], snippetWords, marker)
    decreases |paras| - from
  {
    if from == |paras| then None
    else if Relevant(paras[from], snippetWords, marker) then Some(from)
    else FirstRelevant(paras, snippetWords, marker, from + 1)
  }

  /** One snippet: a snippet longer than 20 characters appends " <marker>" to the first paragraph that can take it. */
  function MarkForSnippet(text: string, marker: string, snippet: string): string
  {
    if |snippet| > 20 then
      var paras := Split(text, ParagraphBreak);
      match FirstRelevant(paras, Words(snippet), marker, 0)
      case None => text
      case Some(i) => Join(paras[i := paras[i] + (" " + marker)], ParagraphBreak)
    else text
  }

  /** The first `n` snippets, one after another. */
  function MarkForSnippets(text: string, marker: string, snippets: seq<string>, n: nat): string
    requires n <= |snippets|
  {
    if n == 0 then text
    else MarkForSnippet(MarkForSnippets(text, marker, snippets, n - 1), marker, snippets[n - 1])
  }

  function Snippets(c: Citation): seq<string>
  {
    seq(|c.segments|, k requires 0 <= k < |c.segments| => c.segments[k].snippet)
  }

  /** One citation: nothing when its marker already occurs in the text. */
  function MarkCitation(text: string, c: Citation): string
  {
    if Contains(text, c.shortUrl) then text
    else MarkForSnippets(text, c.shortUrl, Snippets(c), |Snippets(c)|)
  }

  /** The first `n` citations, one after another. */
  function MarkedPrefix(text: string, cs: seq<Citation>, n: nat): string
    requires n <= |cs|
  {
    if n == 0 then text else MarkCitation(MarkedPrefix(text, cs, n - 1), cs[n - 1])
  }

  /**
   * The paragraph scan for one snippet of `insert_citation_markers`: split
   * on blank lines, append the marker to the first paragraph that can take
   * it, and re-join.
   */
  method MarkOneSnippet(text: string, marker: string, snippet: string) returns (modified: string)
    ensures modified == MarkForSnippet(text, marker, snippet)
  {
    modified := text;
    if snippet != [] && |snippet| > 20 {
      var snippetWords := Words(snippet);
      var paragraphs := Split(modified, ParagraphBreak);
      ghost var paras := paragraphs;
      var i := 0;
      while i < |paragraphs|
        invariant i <= |paragraphs| && paragraphs == paras && modified == text
        invariant FirstRelevant(paras, snippetWords, marker, 0) == FirstRelevant(paras, snippetWords, marker, i)
      {
        var paraWords := Words(paragraphs[i]);
        if |paraWords * snippetWords| > 3 && !Contains(paragraphs[i], marker) {
          paragraphs := paragraphs[i := paragraphs[i] + (" " + marker)];
          modified := Join(paragraphs, ParagraphBreak);
          break;
        }
        i := i + 1;
      }
    }
  }

  /** `insert_citation_markers(text, citations)`. */
  method InsertCitationMarkers(text: string, citations: seq<Citation>) returns (modified: string)
    ensures modified == MarkedPrefix(text, citations, |citations|)
  {
    modified := text;
    for ci := 0 to |citations|
      invariant modified == MarkedPrefix(text, citations, ci)
    {
      var citation := citations[ci];
      var marker := citation.shortUrl;
      if Contains(modified, marker) {
        continue;
      }
      var snippets := Snippets(citation);
      ghost var start := modified;
      for si := 0 to |snippets|
        invariant modified == MarkForSnippets(start, marker, snippets, si)
      {
        modified := MarkOneSnippet(modified, marker, snippets[si]);
      }
    }
  }

  /** Appending to one paragraph of `text` inserts the addition at one position. */
  lemma AppendToParagraph(text: string, i: nat, x: string) returns (k: nat)
    requires i < |Split(text, ParagraphBreak)|
    ensures k <= |text|
    ensures Join(Split(text, ParagraphBreak)[i := Split(text, ParagraphBreak)[i] + x], ParagraphBreak) == text[..k] + x + text[k..]
  {
    JoinSplit(text, ParagraphBreak);
    k := JoinAppendToPart(Split(text, ParagraphBreak), ParagraphBreak, i, x);
  }

  /**
   * One snippet either leaves the text alone or inserts " <marker>" at a
   * single position: the rest of the text is kept in order.
   */
  lemma MarkForSnippetInserts(text: string, marker: string, snippet: string) returns (k: nat)
    ensures MarkForSnippet(text, marker, snippet) == text ||
      (k <= |text| && MarkForSnippet(text, marker, snippet) == text[..k] + (" " + marker) + text[k..])
  {
    k := 0;
    var found := FirstRelevant(Split(text, ParagraphBreak), Words(snippet), marker, 0);
    if |snippet| > 20 && found.Some? {
      k := AppendToParagraph(text, found.value, " " + marker);
    }
  }

  lemma {:induction false} MarkForSnippetsKeeps(a: string, text: string, marker: string, snippets: seq<string>, n: nat)
    requires n <= |snippets| && Subseq(a, text)
    ensures Subseq(a, MarkForSnippets(text, marker, snippets, n))
  {
    if n > 0 {
      var t := MarkForSnippets(text, marker, snippets, n - 1);
      MarkForSnippetsKeeps(a, text, marker, snippets, n - 1);
      var k := MarkForSnippetInserts(t, marker, snippets[n - 1]);
      if MarkForSnippet(t, marker, snippets[n - 1]) != t {
        SubseqInsert(a, t, k, " " + marker);
      }
    }
  }

  lemma {:induction false} MarkedPrefixKeeps(a: string, text: string, cs: seq<Citation>, n: nat)
    requires n <= |cs| && Subseq(a, text)
    ensures Subseq(a, MarkedPrefix(text, cs, n))
  {
    if n > 0 {
      var t := MarkedPrefix(text, cs, n - 1);
      MarkedPrefixKeeps(a, text, cs, n - 1);
      if !Contains(t, cs[n - 1].shortUrl) {
        var c := cs[n - 1];
        MarkForSnippetsKeeps(a, t, c.shortUrl, Snippets(c), |Snippets(c)|);
      }
    }
  }

  /**
   * Inserting markers never deletes or reorders anything: the original text
   * is a subsequence of the result.
   */
  lemma MarkersOnlyInsert(text: string, cs: seq<Citation>)
    ensures Subseq(text, MarkedPrefix(text, cs, |cs|))
  {
    SubseqRefl(text);
    MarkedPrefixKeeps(text, text, cs, |cs|);
  }

  /** A citation whose snippets are all 20 characters or shorter never changes the text. */
  lemma {:induction false} ShortSnippetsChangeNothing(text: string, marker: string, snippets: seq<string>, n: nat)
    requires n <= |snippets|
    requires forall k :: 0 <= k < |snippets| ==> |snippets[k]| <= 20
    ensures MarkForSnippets(text, marker, snippets, n) == text
  {
    if n > 0 {
      ShortSnippetsChangeNothing(text, marker, snippets, n - 1);
    }
  }

  // ---------------------------------------------------------------------------
  // format_citations_for_display

  /** The two keys display formatting reads; either may be missing. */
  datatype CitationView = CitationView(title: Option<string>, url: Option<string>)

  datatype DisplayCitation = DisplayCitation(title: string, url: string)

  /** `format_citations_for_display(citations)`. */
  method FormatCitationsForDisplay(cs: seq<CitationView>) returns (out: seq<DisplayCitation>)
    ensures |out| == |cs|
    ensures forall k :: 0 <= k < |cs| ==>
      out[k].title == cs[k].title.GetOr("Unknown Source") && out[k].url == cs[k].url.GetOr("")
  {
    out := [];
    for k := 0 to |cs|
      invariant |out| == k
      invariant forall j :: 0 <= j < k ==>
        out[j].title == cs[j].title.GetOr("Unknown Source") && out[j].url == cs[j].url.GetOr("")
    {
      out := out + [DisplayCitation(cs[k].title.GetOr("Unknown Source"), cs[k].url.GetOr(""))];
    }
  }

  // ---------------------------------------------------------------------------
  // extract_urls_from_text

  predicate IsAsciiLetter(c: char)
  {
    ('a' <= c <= 'z') || ('A' <= c <= 'Z')
  }

  /** Characters of the host part of the URL pattern. */
  predicate IsHostChar(c: char)
  {
    IsWordChar(c) || c == '-' || c == '.'
  }

  /** Characters of the path part of the URL pattern. */
  predicate IsPathChar(c: char)
  {
    IsWordChar(c) || c in "-._~:/?#[]@!$&'()*+,;="
  }

  /** The length of the run of host characters starting at `p`; the run is maximal. */
  function HostRun(s: string, p: nat): (n: nat)
    requires p <= |s|
    ensures p + n <= |s|
    ensures forall i :: p <= i < p + n ==> IsHostChar(s[i])
    ensures p + n < |s| ==> !IsHostChar(s[p + n])
    decreases |s| - p
  {
    if p < |s| && IsHostChar(s[p]) then 1 + HostRun(s, p + 1) else 0
  }

  /** The length of the run of path characters starting at `p`; the run is maximal. */
  function PathRun(s: string, p: nat): (n: nat)
    requires p <= |s|
    ensures p + n <= |s|
    ensures forall i :: p <= i < p + n ==> IsPathChar(s[i])
    ensures p + n < |s| ==> !IsPathChar(s[p + n])
    decreases |s| - p
  {
    if p < |s| && IsPathChar(s[p]) then 1 + PathRun(s, p + 1) else 0
  }

  /**
   * The whole host run must read `<something>.<two or more ASCII letters>`:
   * the letters follow its last dot and the dot is not its first character.
   */
  predicate ValidHost(h: string)
  {
    match FindLast(h, '.')
    case None => false
    case Some(d) => d >= 1 && |h| - d - 1 >= 2 && forall i :: d < i < |h| ==> IsAsciiLetter(h[i])
  }

  predicate HasScheme(u: string)
  {
    "http://" <= u || "https://" <= u
  }

  /** The length of the `https?://` prefix at `p`, 0 when there is none. */
  function SchemeLength(s: string, p: nat): (k: nat)
    requires p <= |s|
    ensures p + k <= |s|
    ensures k > 0 ==> HasScheme(s[p..p + k])
  {
    if "https://" <= s[p..] then
      assert s[p..p + 8] == s[p..][..8];
      8
    else if "http://" <= s[p..] then
      assert s[p..p + 7] == s[p..][..7];
      7
    else 0
  }

  /**
   * The length of the `host.tld/path` part starting at `q`, 0 when the host
   * run does not end in a dot and two letters followed by a slash.
   */
  function HostAndPathLength(s: string, q: nat): (m: nat)
    requires q <= |s|
    ensures q + m <= |s|
  {
    var h := HostRun(s, q);
    if ValidHost(s[q..q + h]) && q + h < |s| && s[q + h] == '/' then
      h + 1 + PathRun(s, q + h + 1)
    else 0
  }

  /** A slice that starts with a scheme keeps it when it is extended. */
  lemma SchemeExtends(s: string, p: nat, k: nat, n: nat)
    requires k <= n && p + n <= |s| && HasScheme(s[p..p + k])
    ensures HasScheme(s[p..p + n])
  {
    assert s[p..p + k] <= s[p..p + n];
  }

  /** The length of the URL match that starts at `p`, 0 when none does. */
  function UrlLengthAt(s: string, p: nat): (n: nat)
    requires p <= |s|
    ensures p + n <= |s|
    ensures n > 0 ==> 0 < SchemeLength(s, p) <= n
  {
    var k := SchemeLength(s, p);
    if k == 0 then 0
    else
      var m := HostAndPathLength(s, p + k);
      if m == 0 then 0 else k + m
  }

  lemma {:induction false} ContainsSlice(s: string, i: nat, j: nat)
    requires i <= j <= |s|
    ensures Contains(s, s[i..j])
    decreases i
  {
    if i > 0 {
      ContainsSlice(s[1..], i - 1, j - 1);
      assert s[1..][i - 1..j - 1] == s[i..j];
    }
  }

  /** Every element of `us` starts with a scheme and occurs in `s`. */
  predicate UrlsOf(s: string, us: seq<string>)
  {
    forall k :: 0 <= k < |us| ==> HasScheme(us[k]) && Contains(s, us[k])
  }

  /** A match found at `p` may be put in front of the later matches. */
  lemma ScanHead(s: string, p: nat, n: nat, rest: seq<string>)
    requires p + n <= |s| && HasScheme(s[p..p + n]) && UrlsOf(s, rest)
    ensures UrlsOf(s, [s[p..p + n]] + rest)
  {
    ContainsSlice(s, p, p + n);
    var us := [s[p..p + n]] + rest;
    forall k | 0 <= k < |us| ensures HasScheme(us[k]) && Contains(s, us[k]) {
      if k > 0 {
        assert us[k] == rest[k - 1];
      }
    }
  }

  /**
   * `re.findall` of the URL pattern from `p` on: leftmost matches, without
   * overlap. Every match starts with a scheme and occurs in the text.
   */
  function ScanUrls(s: string, p: nat): (us: seq<string>)
    requires p <= |s|
    ensures UrlsOf(s, us)
    decreases |s| - p
  {
    if p == |s| then []
    else
      var n := UrlLengthAt(s, p);
      if n > 0 then
        var rest := ScanUrls(s, p + n);
        SchemeExtends(s, p, SchemeLength(s, p), n);
        ScanHead(s, p, n, rest);
        [s[p..p + n]] + rest
      else ScanUrls(s, p + 1)
  }

  /**
   * `extract_urls_from_text(text)`: the distinct matches. The source returns
   * them in set order; the model keeps the order of first occurrence.
   */
  function ExtractUrls(text: string): (urls: seq<string>)
    ensures NoDuplicates(urls)
    ensures UrlsOf(text, urls)
    ensures forall u :: u in urls <==> u in ScanUrls(text, 0)
  {
    var all := ScanUrls(text, 0);
    var urls := Dedup(all);
    assert UrlsOf(text, urls) by {
      forall k | 0 <= k < |urls| ensures HasScheme(urls[k]) && Contains(text, urls[k]) {
        assert urls[k] in all;
        var j :| 0 <= j < |all| && all[j] == urls[k];
      }
    }
    urls
  }
}
