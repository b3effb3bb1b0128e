/** Shaping of the AI gateway's responses (services/geminiService.ts). The
    network call is not modelled: its result arrives as an `Outcome`, either
    the response object or a failure, and what the service does with it is
    pure. */
module GeminiService {
  import opened Types

  // ---------------------------------------------------------------------
  // The parts of a `generateContent` response the service reads. Every
  // field it reaches through `?.` is optional.

  datatype Web = Web(uri: Option<string>, title: Option<string>)
  datatype GroundingChunk = GroundingChunk(web: Option<Web>)
  datatype GroundingMetadata = GroundingMetadata(groundingChunks: Option<seq<GroundingChunk>>)
  datatype Candidate = Candidate(groundingMetadata: Option<GroundingMetadata>)
  datatype GenerateResponse = GenerateResponse(
    text: Option<string>,
    candidates: Option<seq<Candidate>>)

  /** What the awaited call produced: a response, or a thrown error. */
  datatype Outcome = Ok(response: GenerateResponse) | Err

  /** Title used when a chunk has none (services/geminiService.ts:13). */
  const DefaultTitle := "External Source"

  // ---------------------------------------------------------------------
  // extractSources (services/geminiService.ts:11-16)

  /** `response.candidates?.[0]?.groundingMetadata?.groundingChunks`: only
      the first candidate is consulted, and an empty candidate list reads
      as missing. */
  function Chunks(response: GenerateResponse): Option<seq<GroundingChunk>>
  {
    match response.candidates
    case None => None
    case Some(cs) =>
      if |cs| == 0 then None
      else match cs[0].groundingMetadata
        case None => None
        case Some(m) => m.groundingChunks
  }

  /** The source one chunk contributes: none unless `web.uri` is present and
      non-empty; the title falls back to `DefaultTitle` when it is missing
      or empty. */
  function SourceOf(chunk: GroundingChunk): (r: Option<GroundingSource>)
    ensures r.Some? <==>
      chunk.web.Some? && chunk.web.value.uri.Some? && chunk.web.value.uri.value != ""
    ensures r.Some? ==> r.value.uri == chunk.web.value.uri.value
    ensures r.Some? ==>
      var t := chunk.web.value.title;
      r.value.title == if t.Some? && t.value != "" then t.value else DefaultTitle
  {
    match chunk.web
    case None => None
    case Some(web) =>
      var title := match web.title
        case Some(t) => if t != "" then t else DefaultTitle
        case None => DefaultTitle;
      match web.uri
      case Some(u) => if u != "" then Some(GroundingSource(title, u)) else None
      case None => None
  }

  /** A source worth a link: non-empty title and non-empty uri. */
  predicate Usable(s: GroundingSource)
  {
    s.title != "" && s.uri != ""
  }

  /** The `map(...).filter(s => s.uri)` pass over the chunks, in order. */
  function ChunkSources(chunks: seq<GroundingChunk>): (r: seq<GroundingSource>)
    ensures |r| <= |chunks|
    ensures forall s :: s in r ==> Usable(s)
    decreases |chunks|
  {
    if |chunks| == 0 then []
    else
      var rest := ChunkSources(chunks[1..]);
      match SourceOf(chunks[0])
      case Some(s) => [s] + rest
      case None => rest
  }

  /** `extractSources(response)`: the `|| []` turns a missing chunk list
      into no sources. */
  function ExtractSources(response: GenerateResponse): (r: seq<GroundingSource>)
    ensures Chunks(response).None? ==> r == []
    ensures Chunks(response).Some? ==> |r| <= |Chunks(response).value|
    ensures forall s :: s in r ==> Usable(s)
  {
    match Chunks(response)
    case None => []
    case Some(chunks) => ChunkSources(chunks)
  }

  /** The pass preserves chunk order: the sources of two runs of chunks are
      the sources of the first followed by those of the second. */
  lemma {:induction false} ChunkSourcesAppend(a: seq<GroundingChunk>, b: seq<GroundingChunk>)
    ensures ChunkSources(a + b) == ChunkSources(a) + ChunkSources(b)
    decreases |a|
  {
    if |a| == 0 {
      assert a + b == b;
    } else {
      assert (a + b)[0] == a[0] && (a + b)[1..] == a[1..] + b;
      ChunkSourcesAppend(a[1..], b);
    }
  }

  /** A source is extracted exactly when some chunk yields it. */
  lemma {:induction false} ChunkSourcesMembers(chunks: seq<GroundingChunk>, s: GroundingSource)
    ensures s in ChunkSources(chunks) <==>
      exists k :: 0 <= k < |chunks| && SourceOf(chunks[k]) == Some(s)
    decreases |chunks|
  {
    if |chunks| > 0 {
      ChunkSourcesMembers(chunks[1..], s);
      assert forall k :: 1 <= k < |chunks| ==> chunks[k] == chunks[1..][k - 1];
      if exists k :: 0 <= k < |chunks| && SourceOf(chunks[k]) == Some(s) {
        var k :| 0 <= k < |chunks| && SourceOf(chunks[k]) == Some(s);
        if k > 0 { assert SourceOf(chunks[1..][k - 1]) == Some(s); }
      }
    }
  }

  /** Every chunk with a usable uri yields exactly one source, so nothing is
      dropped but the chunks without a uri. */
  lemma {:induction false} ChunkSourcesCount(chunks: seq<GroundingChunk>)
    ensures (forall k :: 0 <= k < |chunks| ==> SourceOf(chunks[k]).Some?) ==>
      |ChunkSources(chunks)| == |chunks|
    ensures (forall k :: 0 <= k < |chunks| ==> SourceOf(chunks[k]).None?) ==>
      ChunkSources(chunks) == []
    decreases |chunks|
  {
    if |chunks| > 0 {
      ChunkSourcesCount(chunks[1..]);
      assert forall k :: 1 <= k < |chunks| ==> chunks[k] == chunks[1..][k - 1];
    }
  }

  /** Candidates after the first never matter. */
  lemma OnlyFirstCandidate(text: Option<string>, first: Candidate, rest: seq<Candidate>)
    ensures ExtractSources(GenerateResponse(text, Some([first] + rest))) ==
      ExtractSources(GenerateResponse(None, Some([first])))
  {
  }

  /** A missing candidate list, first candidate, metadata or chunk list
      yields no sources. */
  lemma MissingLevelsGiveNoSources(text: Option<string>, c: Candidate)
    ensures ExtractSources(GenerateResponse(text, None)) == []
    ensures ExtractSources(GenerateResponse(text, Some([]))) == []
    ensures c.groundingMetadata.None? ==> ExtractSources(GenerateResponse(text, Some([c]))) == []
    ensures c.groundingMetadata.Some? && c.groundingMetadata.value.groundingChunks.None? ==>
      ExtractSources(GenerateResponse(text, Some([c]))) == []
  {
  }

  // ---------------------------------------------------------------------
  // The call sites (services/geminiService.ts:18-78)

  /** `{ text: response.text || emptyText, sources: extractSources(response) }`
      on success and `{ text: failureText, sources: [] }` on a thrown error. */
  function Shape(outcome: Outcome, emptyText: string, failureText: string): (r: AIResponse)
    ensures outcome.Err? ==> r == AIResponse(failureText, [])
    ensures outcome.Ok? ==> r.sources == ExtractSources(outcome.response)
    ensures outcome.Ok? ==>
      var t := outcome.response.text;
      r.text == if t.Some? && t.value != "" then t.value else emptyText
  {
    match outcome
    case Err => AIResponse(failureText, [])
    case Ok(response) =>
      var text := match response.text
        case Some(t) => if t != "" then t else emptyText
        case None => emptyText;
      AIResponse(text, ExtractSources(response))
  }

  const TerminalEmptyText := "Command executed."
  const TerminalFailureText := "Error: Kernel panic in AI sub-process."
  const ChatEmptyText := "..."
  const ChatFailureText := "Neural link interrupted. Please retry."
  const SearchEmptyText := "No data found on the grid."
  const SearchFailureText := "Search matrix unreachable."

  /** `executeTerminalCommand` once its call has settled. */
  function ExecuteTerminalCommand(outcome: Outcome): (r: AIResponse)
    ensures r.text != ""
    ensures outcome.Err? ==> r == AIResponse("Error: Kernel panic in AI sub-process.", [])
    ensures outcome.Ok? && (outcome.response.text.None? || outcome.response.text == Some("")) ==>
      r.text == "Command executed."
  {
    Shape(outcome, TerminalEmptyText, TerminalFailureText)
  }

  /** `assistantChat` once its call has settled. */
  function AssistantChat(outcome: Outcome): (r: AIResponse)
    ensures r.text != ""
    ensures outcome.Err? ==> r == AIResponse("Neural link interrupted. Please retry.", [])
    ensures outcome.Ok? && (outcome.response.text.None? || outcome.response.text == Some("")) ==>
      r.text == "..."
  {
    Shape(outcome, ChatEmptyText, ChatFailureText)
  }

  /** `searchTheGrid` once its call has settled. */
  function SearchTheGrid(outcome: Outcome): (r: AIResponse)
    ensures r.text != ""
    ensures outcome.Err? ==> r == AIResponse("Search matrix unreachable.", [])
    ensures outcome.Ok? && (outcome.response.text.None? || outcome.response.text == Some("")) ==>
      r.text == "No data found on the grid."
  {
    Shape(outcome, SearchEmptyText, SearchFailureText)
  }

  /** On success every call site passes a non-empty reply through verbatim,
      with the extracted sources. */
  lemma SuccessPassesTextThrough(response: GenerateResponse)
    requires response.text.Some? && response.text.value != ""
    ensures ExecuteTerminalCommand(Ok(response)) == AIResponse(response.text.value, ExtractSources(response))
    ensures AssistantChat(Ok(response)) == AIResponse(response.text.value, ExtractSources(response))
    ensures SearchTheGrid(Ok(response)) == AIResponse(response.text.value, ExtractSources(response))
  {
  }

  // ---------------------------------------------------------------------
  // The chat request (services/geminiService.ts:43)

  datatype Role = User | Model
  datatype Part = Part(text: string)
  datatype Turn = Turn(role: Role, parts: seq<Part>)

  /** `[...history, { role: 'user', parts: [{ text: message }] }]`. */
  function ChatContents(message: string, history: seq<Turn>): (r: seq<Turn>)
    ensures |r| == |history| + 1
    ensures r[..|history|] == history
    ensures r[|history|] == Turn(User, [Part(message)])
  {
    history + [Turn(User, [Part(message)])]
  }
}
