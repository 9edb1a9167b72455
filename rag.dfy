/**
 * The retrieval-answer endpoint `POST /chatbot/query`, between its foreign
 * clients: the query check, the rerank filter over the retrieved documents,
 * the choice of the top documents, the snippets and prompt given to the
 * language model, and the response with its truncated sources.  The vector
 * store's reply, the reranker's reply, the JSON encoding of metadata, the
 * API key and the language model are inputs.
 */
module Rag {
  import opened Wrappers
  import opened Text

  /** A metadata dictionary, as its key/value pairs in order. */
  type Metadata = seq<(string, string)>

  /** What the vector store returned for the query: the documents and their metadata. */
  datatype Retrieval = Retrieval(docs: seq<string>, metas: seq<Metadata>)

  /**
   * The reranker's part: not configured (no client library or no key),
   * raised, or a reply with its `ranks` list and, when `results` is a list,
   * each entry's `index` (`None` for an entry that is not a dictionary or
   * has no index).
   */
  datatype RerankReply =
    | NotConfigured
    | Raised
    | Reply(ranks: seq<nat>, results: Option<seq<Option<nat>>>)

  /** The JSON body the endpoint answers with: an answer and its sources (200), or an error (500). */
  datatype ChatResponse =
    | Answer(answer: string, sources: seq<string>)
    | ErrorJson(error: string, details: Option<string>)

  const EmptyQuery := HttpError(400, "Query cannot be empty")
  const DefaultMaxResults: nat := 5
  const SourceLimit: nat := 800

  const SystemPrompt: string :=
    "You are a helpful, concise grammar tutor. Use the provided " +
    "source snippets to answer the user's question. " +
    "Give a clear explanation, and one short example sentence. Cite which source lines you used."

  function Min(a: nat, b: nat): nat {
    if a <= b then a else b
  }

  function ChatStatus(r: ChatResponse): nat {
    if r.Answer? then 200 else 500
  }

  // ---------------------------------------------------------------------
  // Rerank
  // ---------------------------------------------------------------------

  /** `[docs[i] for i in indices if i < len(docs)]`. */
  function Pick(docs: seq<string>, indices: seq<nat>): (r: seq<string>)
    ensures |r| <= |indices|
    ensures forall k :: 0 <= k < |r| ==> r[k] in docs
    decreases |indices|
  {
    if |indices| == 0 then []
    else (if indices[0] < |docs| then [docs[indices[0]]] else []) + Pick(docs, indices[1..])
  }

  /** With every index in range, the picked documents are exactly `docs[indices[k]]`, in the order of `indices`. */
  lemma {:induction false} PickInRange(docs: seq<string>, indices: seq<nat>)
    requires forall k :: 0 <= k < |indices| ==> indices[k] < |docs|
    ensures |Pick(docs, indices)| == |indices|
    ensures forall k :: 0 <= k < |indices| ==> Pick(docs, indices)[k] == docs[indices[k]]
    decreases |indices|
  {
    if |indices| > 0 {
      PickInRange(docs, indices[1..]);
    }
  }

  /** The indices below `n`, in their order: the `if i < len(docs)` filter on its own. */
  function InRange(n: nat, indices: seq<nat>): (r: seq<nat>)
    ensures |r| <= |indices|
    ensures forall k :: 0 <= k < |r| ==> r[k] < n
    ensures forall i :: i in r <==> i in indices && i < n
    decreases |indices|
  {
    if |indices| == 0 then []
    else (if indices[0] < n then [indices[0]] else []) + InRange(n, indices[1..])
  }

  /**
   * Picking is `docs[i]` for each index that is in range, in the order of
   * the indices: an out-of-range index contributes nothing.
   */
  lemma {:induction false} PickFilters(docs: seq<string>, indices: seq<nat>)
    ensures Pick(docs, indices) == Pick(docs, InRange(|docs|, indices))
    ensures |Pick(docs, indices)| == |InRange(|docs|, indices)|
    ensures forall k :: 0 <= k < |InRange(|docs|, indices)| ==>
      Pick(docs, indices)[k] == docs[InRange(|docs|, indices)[k]]
    decreases |indices|
  {
    if |indices| > 0 {
      PickFilters(docs, indices[1..]);
      var rest := InRange(|docs|, indices[1..]);
      if indices[0] < |docs| {
        assert ([indices[0]] + rest)[1..] == rest;
      }
    }
    PickInRange(docs, InRange(|docs|, indices));
  }

  /** Picking concatenated index lists concatenates the picks: the rank order is kept and an out-of-range index is dropped. */
  lemma {:induction false} PickAppend(docs: seq<string>, a: seq<nat>, b: seq<nat>)
    ensures Pick(docs, a + b) == Pick(docs, a) + Pick(docs, b)
    decreases |a|
  {
    if |a| == 0 {
      assert a + b == b;
    } else {
      assert (a + b)[1..] == a[1..] + b;
      PickAppend(docs, a[1..], b);
    }
  }

  /** The ranks `0, 1, ..., n - 1`. */
  function Identity(n: nat): (r: seq<nat>)
    ensures |r| == n && forall k :: 0 <= k < n ==> r[k] == k
  {
    seq(n, k requires 0 <= k < n => k)
  }

  /** Ranking every document in its own place keeps the retrieval order. */
  lemma PickIdentity(docs: seq<string>)
    ensures Pick(docs, Identity(|docs|)) == docs
  {
    PickInRange(docs, Identity(|docs|));
  }

  /** The indices found among the reranker's result entries, in order. */
  function Present(entries: seq<Option<nat>>): seq<nat>
    decreases |entries|
  {
    if |entries| == 0 then []
    else
      var last := entries[|entries| - 1];
      Present(entries[..|entries| - 1]) + (if last.Some? then [last.value] else [])
  }

  /** An index is collected exactly when some entry carries it. */
  lemma {:induction false} PresentMembers(entries: seq<Option<nat>>, i: nat)
    ensures i in Present(entries) <==> Some(i) in entries
    decreases |entries|
  {
    if |entries| > 0 {
      var init := entries[..|entries| - 1];
      PresentMembers(init, i);
      assert entries == init + [entries[|entries| - 1]];
    }
  }

  /** The `rr.results` loop: each entry's index, when it has one. */
  method CollectIndices(entries: seq<Option<nat>>) returns (ranked: seq<nat>)
    ensures ranked == Present(entries)
  {
    ranked := [];
    for k := 0 to |entries|
      invariant ranked == Present(entries[..k])
    {
      assert entries[..k + 1][..k] == entries[..k];
      var idx := entries[k];
      if idx.Some? {
        ranked := ranked + [idx.value];
      }
    }
    assert entries[..|entries|] == entries;
  }

  /**
   * `reranked_docs`: the documents in the reranker's `ranks` order when
   * that list is not empty, otherwise in the order of the indices of its
   * `results` when there are any; the retrieval order when the reranker is
   * not configured, raised, or gave neither.
   */
  function Rerank(docs: seq<string>, reply: RerankReply): seq<string> {
    match reply
    case NotConfigured => docs
    case Raised => docs
    case Reply(ranks, results) =>
      if |ranks| > 0 then Pick(docs, ranks)
      else if results.Some? && |Present(results.value)| > 0 then Pick(docs, Present(results.value))
      else docs
  }

  /** The reranked list as `chatbot_query` builds it, collecting the result indices in a loop. */
  method RerankDocs(docs: seq<string>, reply: RerankReply) returns (reranked: seq<string>)
    ensures reranked == Rerank(docs, reply)
  {
    reranked := docs;
    if reply.Reply? {
      if |reply.ranks| > 0 {
        reranked := Pick(docs, reply.ranks);
      } else if reply.results.Some? {
        var ranked := CollectIndices(reply.results.value);
        if |ranked| > 0 {
          reranked := Pick(docs, ranked);
        }
      }
    }
  }

  /**
   * Every reranked document is a retrieved one; a non-empty rank list, or
   * failing that a non-empty list of result indices, gives `docs[i]` for
   * each of its in-range indices in order; a reranker that is not
   * configured or raised, an empty rerank, or one ranking every document in
   * its own place, leaves the retrieval order.
   */
  lemma RerankFacts(docs: seq<string>, reply: RerankReply)
    ensures forall k :: 0 <= k < |Rerank(docs, reply)| ==> Rerank(docs, reply)[k] in docs
    ensures reply.Reply? && |reply.ranks| > 0 && (forall k :: 0 <= k < |reply.ranks| ==> reply.ranks[k] < |docs|) ==>
      |Rerank(docs, reply)| == |reply.ranks| &&
      forall k :: 0 <= k < |reply.ranks| ==> Rerank(docs, reply)[k] == docs[reply.ranks[k]]
    ensures reply.Reply? && |reply.ranks| == 0 && (reply.results.None? || forall e :: e in reply.results.value ==> e.None?) ==>
      Rerank(docs, reply) == docs
    ensures reply.Reply? && |docs| > 0 && reply.ranks == Identity(|docs|) ==> Rerank(docs, reply) == docs
    ensures reply.NotConfigured? || reply.Raised? ==> Rerank(docs, reply) == docs
    ensures reply.Reply? && |reply.ranks| > 0 ==>
      var kept := InRange(|docs|, reply.ranks);
      |Rerank(docs, reply)| == |kept| && forall k :: 0 <= k < |kept| ==> Rerank(docs, reply)[k] == docs[kept[k]]
    ensures reply.Reply? && |reply.ranks| == 0 && reply.results.Some? && |Present(reply.results.value)| > 0 ==>
      var kept := InRange(|docs|, Present(reply.results.value));
      |Rerank(docs, reply)| == |kept| && forall k :: 0 <= k < |kept| ==> Rerank(docs, reply)[k] == docs[kept[k]]
  {
    if reply.Reply? {
      if |reply.ranks| > 0 {
        PickFilters(docs, reply.ranks);
      } else if reply.results.Some? && |Present(reply.results.value)| > 0 {
        PickFilters(docs, Present(reply.results.value));
      }
    }
    if reply.Reply? && |docs| > 0 && reply.ranks == Identity(|docs|) {
      PickIdentity(docs);
    }
    if reply.Reply? && |reply.ranks| > 0 && (forall k :: 0 <= k < |reply.ranks| ==> reply.ranks[k] < |docs|) {
      PickInRange(docs, reply.ranks);
    }
    if reply.Reply? && |reply.ranks| == 0 && reply.results.Some? && forall e :: e in reply.results.value ==> e.None? {
      if |Present(reply.results.value)| > 0 {
        var i := Present(reply.results.value)[0];
        PresentMembers(reply.results.value, i);
      }
    }
  }

  // ---------------------------------------------------------------------
  // Snippets, prompt and sources
  // ---------------------------------------------------------------------

  /** `metas[i] if i < len(metas) else {}`: metadata by position in the reranked list. */
  function MetaAt(metas: seq<Metadata>, i: nat): Metadata {
    if i < |metas| then metas[i] else []
  }

  /** The head of snippet `i`: `Source {i+1}: ` and the document text. */
  function SnippetHead(i: nat, text: string): string {
    "Source " + NatToString(i + 1) + ": " + text
  }

  /** Snippet `i`: its head, then the encoded metadata when there is any. */
  function Snippet(i: nat, text: string, meta: Metadata, dumps: Metadata -> string): string {
    SnippetHead(i, text) + (if |meta| > 0 then "\nMetadata: " + dumps(meta) else "")
  }

  /** The snippets of the first `topK` reranked documents. */
  function Snippets(reranked: seq<string>, metas: seq<Metadata>, topK: nat, dumps: Metadata -> string): seq<string>
    requires topK <= |reranked|
  {
    seq(topK, i requires 0 <= i < topK => Snippet(i, reranked[i], MetaAt(metas, i), dumps))
  }

  /** The context loop of `chatbot_query`. */
  method BuildSnippets(reranked: seq<string>, metas: seq<Metadata>, topK: nat, dumps: Metadata -> string)
    returns (snippets: seq<string>)
    requires topK <= |reranked|
    ensures snippets == Snippets(reranked, metas, topK, dumps)
  {
    snippets := [];
    for i := 0 to topK
      invariant |snippets| == i
      invariant forall k :: 0 <= k < i ==> snippets[k] == Snippet(k, reranked[k], MetaAt(metas, k), dumps)
    {
      var text := reranked[i];
      var meta := MetaAt(metas, i);
      var snippet := SnippetHead(i, text);
      if |meta| > 0 {
        snippet := snippet + "\nMetadata: " + dumps(meta);
      }
      snippets := snippets + [snippet];
    }
  }

  /**
   * Exactly `topK` snippets; snippet `i` starts with `Source {i+1}: ` and
   * the `i`-th reranked document, and is nothing more exactly when the
   * metadata at position `i` is empty.
   */
  lemma SnippetsShape(reranked: seq<string>, metas: seq<Metadata>, topK: nat, dumps: Metadata -> string)
    requires topK <= |reranked|
    ensures |Snippets(reranked, metas, topK, dumps)| == topK
    ensures forall i :: 0 <= i < topK ==>
      var s := Snippets(reranked, metas, topK, dumps)[i];
      StartsWith(s, "Source " + NatToString(i + 1) + ": " + reranked[i]) &&
      (s == SnippetHead(i, reranked[i]) <==> |MetaAt(metas, i)| == 0)
  {
    forall i | 0 <= i < topK
      ensures var s := Snippets(reranked, metas, topK, dumps)[i];
        StartsWith(s, "Source " + NatToString(i + 1) + ": " + reranked[i]) &&
        (s == SnippetHead(i, reranked[i]) <==> |MetaAt(metas, i)| == 0)
    {
      var head := SnippetHead(i, reranked[i]);
      var s := Snippet(i, reranked[i], MetaAt(metas, i), dumps);
      assert s[..|head|] == head;
      if |MetaAt(metas, i)| > 0 {
        assert |s| > |head|;
      }
    }
  }

  /** The user message: the question, the snippets separated by blank lines, and the answer cue. */
  function UserPrompt(query: string, snippets: seq<string>): string {
    "User question: " + query + "\n\nProvided sources:\n" + Join(snippets, "\n\n") + "\n\nAnswer:"
  }

  /** `sub` occurs somewhere in `s`. */
  ghost predicate Infix(sub: string, s: string) {
    exists a, b :: s == a + sub + b
  }

  /** What occurs in `mid` occurs in anything built around it. */
  lemma InfixWrap(sub: string, head: string, mid: string, tail: string)
    requires Infix(sub, mid)
    ensures Infix(sub, head + mid + tail)
  {
    var a, b :| mid == a + sub + b;
    assert head + mid + tail == (head + a) + sub + (b + tail);
  }

  /** Every word of a join occurs in it. */
  lemma {:induction false} JoinContains(words: seq<string>, sep: string, k: nat)
    requires k < |words|
    ensures Infix(words[k], Join(words, sep))
    decreases |words|
  {
    if |words| == 1 {
      assert Join(words, sep) == "" + words[0] + "";
    } else if k == 0 {
      assert Join(words, sep) == "" + words[0] + (sep + Join(words[1..], sep));
    } else {
      JoinContains(words[1..], sep, k - 1);
      assert words[1..][k - 1] == words[k];
      InfixWrap(words[k], words[0] + sep, Join(words[1..], sep), "");
      assert Join(words, sep) == (words[0] + sep) + Join(words[1..], sep) + "";
    }
  }

  /** The prompt opens with the question, ends with the answer cue, and carries every snippet. */
  lemma PromptCarriesSnippets(query: string, snippets: seq<string>)
    ensures StartsWith(UserPrompt(query, snippets), "User question: " + query + "\n\nProvided sources:\n")
    ensures EndsWith(UserPrompt(query, snippets), "\n\nAnswer:")
    ensures forall k :: 0 <= k < |snippets| ==> Infix(snippets[k], UserPrompt(query, snippets))
  {
    var head := "User question: " + query + "\n\nProvided sources:\n";
    var joined := Join(snippets, "\n\n");
    var p := UserPrompt(query, snippets);
    assert p == head + joined + "\n\nAnswer:";
    assert p[..|head|] == head;
    assert p[|p| - |"\n\nAnswer:"|..] == "\n\nAnswer:";
    forall k | 0 <= k < |snippets| ensures Infix(snippets[k], p) {
      JoinContains(snippets, "\n\n", k);
      InfixWrap(snippets[k], head, joined, "\n\nAnswer:");
    }
  }

  /** `s[:800]`. */
  function Truncate(s: string): string {
    s[..Min(|s|, SourceLimit)]
  }

  /** The response's `sources`: the first `topK` reranked documents, truncated. */
  function Sources(reranked: seq<string>, topK: nat): (sources: seq<string>)
    requires topK <= |reranked|
    ensures |sources| == topK
    ensures forall i :: 0 <= i < topK ==>
      StartsWith(reranked[i], sources[i]) && |sources[i]| == Min(|reranked[i]|, SourceLimit)
  {
    seq(topK, i requires 0 <= i < topK => Truncate(reranked[i]))
  }

  // ---------------------------------------------------------------------
  // The endpoint
  // ---------------------------------------------------------------------

  /** Everything after the prompt: the key check, the model's construction and the call. */
  function Respond(prompt: string, sources: seq<string>, groqKey: Option<string>, llmInit: Option<string>,
                   llm: (string, string) -> Result<string, string>): ChatResponse
  {
    if groqKey.None? || |groqKey.value| == 0 then ErrorJson("GROQ_API_KEY is not set on the server", None)
    else if llmInit.Some? then ErrorJson("Failed to initialize LLM", Some(llmInit.value))
    else match llm(SystemPrompt, prompt)
      case Failure(e) => ErrorJson("LLM request failed", Some(e))
      case Success(answer) => Answer(answer, sources)
  }

  /**
   * `chatbot_query`.  `query` is `None` when the payload has none;
   * `not query.strip()` holds exactly for a blank query
   * (`Text.StripEmptyIffBlank`).  `llmInit` is the error raised when the
   * model client is built, if any.
   */
  function ChatbotAnswer(query: Option<string>, maxResults: Option<nat>, chroma: Result<Retrieval, string>,
                         reply: RerankReply, dumps: Metadata -> string, groqKey: Option<string>,
                         llmInit: Option<string>, llm: (string, string) -> Result<string, string>)
    : Result<ChatResponse, HttpError>
  {
    if query.None? || AllSpace(query.value) then Failure(EmptyQuery)
    else
      var n := if maxResults.Some? then maxResults.value else DefaultMaxResults;
      match chroma
      case Failure(e) => Failure(HttpError(500, "Failed to query ChromaDB: " + e))
      case Success(retrieval) =>
        var reranked := Rerank(retrieval.docs, reply);
        var topK := Min(|reranked|, n);
        var prompt := UserPrompt(query.value, Snippets(reranked, retrieval.metas, topK, dumps));
        Success(Respond(prompt, Sources(reranked, topK), groqKey, llmInit, llm))
  }

  /** `chatbot_query` as the handler runs it. */
  method ChatbotQuery(query: Option<string>, maxResults: Option<nat>, chroma: Result<Retrieval, string>,
                      reply: RerankReply, dumps: Metadata -> string, groqKey: Option<string>,
                      llmInit: Option<string>, llm: (string, string) -> Result<string, string>)
    returns (r: Result<ChatResponse, HttpError>)
    ensures r == ChatbotAnswer(query, maxResults, chroma, reply, dumps, groqKey, llmInit, llm)
  {
    if query.None? || AllSpace(query.value) {
      return Failure(EmptyQuery);
    }
    var n := if maxResults.Some? then maxResults.value else DefaultMaxResults;
    if chroma.Failure? {
      return Failure(HttpError(500, "Failed to query ChromaDB: " + chroma.error));
    }
    var docs := chroma.value.docs;
    var metas := chroma.value.metas;
    var reranked := RerankDocs(docs, reply);
    var topK := Min(|reranked|, n);
    var snippets := BuildSnippets(reranked, metas, topK, dumps);
    var prompt := UserPrompt(query.value, snippets);
    r := Success(Respond(prompt, Sources(reranked, topK), groqKey, llmInit, llm));
  }

  /** A missing or blank query is a 400 whatever the store, the reranker and the model would do. */
  lemma BlankQueryRejectedFirst(query: Option<string>, maxResults: Option<nat>, chroma: Result<Retrieval, string>,
                                reply: RerankReply, dumps: Metadata -> string, groqKey: Option<string>,
                                llmInit: Option<string>, llm: (string, string) -> Result<string, string>)
    requires query.None? || |Strip(query.value)| == 0
    ensures ChatbotAnswer(query, maxResults, chroma, reply, dumps, groqKey, llmInit, llm) == Failure(EmptyQuery)
  {
    if query.Some? {
      StripEmptyIffBlank(query.value);
    }
  }

  /**
   * Without the model's API key the answer is the 500 key error, and the
   * model is never consulted: any model, built or not, gives the same
   * response.
   */
  lemma MissingKeyNoModelCall(query: Option<string>, maxResults: Option<nat>, chroma: Result<Retrieval, string>,
                              reply: RerankReply, dumps: Metadata -> string, groqKey: Option<string>,
                              llmInit: Option<string>, llmInit': Option<string>,
                              llm: (string, string) -> Result<string, string>,
                              llm': (string, string) -> Result<string, string>)
    requires query.Some? && !AllSpace(query.value) && chroma.Success?
    requires groqKey.None? || |groqKey.value| == 0
    ensures var r := ChatbotAnswer(query, maxResults, chroma, reply, dumps, groqKey, llmInit, llm);
      r == Success(ErrorJson("GROQ_API_KEY is not set on the server", None)) && ChatStatus(r.value) == 500 &&
      r == ChatbotAnswer(query, maxResults, chroma, reply, dumps, groqKey, llmInit', llm')
  {
  }

  /**
   * An answer is the model's reply to the system prompt and the user
   * prompt built from the first `min(len, max_results)` reranked documents,
   * and its sources are those documents cut to 800 characters.
   */
  lemma AnswerFacts(query: Option<string>, maxResults: Option<nat>, chroma: Result<Retrieval, string>,
                    reply: RerankReply, dumps: Metadata -> string, groqKey: Option<string>,
                    llmInit: Option<string>, llm: (string, string) -> Result<string, string>)
    requires ChatbotAnswer(query, maxResults, chroma, reply, dumps, groqKey, llmInit, llm).Success?
    requires ChatbotAnswer(query, maxResults, chroma, reply, dumps, groqKey, llmInit, llm).value.Answer?
    ensures var a := ChatbotAnswer(query, maxResults, chroma, reply, dumps, groqKey, llmInit, llm).value;
      var reranked := Rerank(chroma.value.docs, reply);
      var n := if maxResults.Some? then maxResults.value else DefaultMaxResults;
      var topK := Min(|reranked|, n);
      query.Some? && chroma.Success? && groqKey.Some? && |groqKey.value| > 0 && llmInit.None? &&
      llm(SystemPrompt, UserPrompt(query.value, Snippets(reranked, chroma.value.metas, topK, dumps))) ==
        Success(a.answer) &&
      |a.sources| == topK && topK <= n && topK <= |reranked| &&
      forall i :: 0 <= i < topK ==> StartsWith(reranked[i], a.sources[i]) && |a.sources[i]| <= SourceLimit
  {
  }
}
