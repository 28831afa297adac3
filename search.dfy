/** The question-answering pipeline: similarity search, context assembly, prompt rendering,
    the model call and the masking of every failure into one fixed reply. */
module Search {
  import opened Wrappers
  import opened Settings
  import opened Providers
  import opened Backends
  import PyStr

  /** The number of hits generate_response asks the store for. */
  const DefaultK: nat := 10

  const Refusal: string := "Não tenho informações necessárias para responder sua pergunta."
  const ErrorReply: string := "Erro ao processar sua pergunta. Tente novamente."
  const ContextSeparator: string := "\n\n"

  /** A template with the two substitution points {contexto} and {pergunta}, as the fixed text
      before, between and after them. */
  datatype Template = Template(head: string, middle: string, tail: string)

  /** The template with the context and the question put in at its two substitution points. */
  function Format(t: Template, context: string, query: string): string {
    t.head + context + t.middle + query + t.tail
  }

  const PromptHead: string := "\nCONTEXTO:\n"

  /** The fixed text between {contexto} and {pergunta}, line by line: the answering rules, the
      disambiguation rules and the worked examples. */
  const PromptMiddleLines: seq<string> := [
    "",
    "",
    "INSTRUÇÕES DE RESPOSTA:",
    "1. Responda **somente** com base no CONTEXTO fornecido.",
    "2. Responda **apenas** sobre o que foi perguntado especificamente",
    "   (faturamento, fundação, etc.).",
    "3. **NÃO** inclua informações extras não solicitadas na pergunta.",
    "4. Se a informação **não estiver no CONTEXTO**, responda:",
    "   \"Não tenho informações necessárias para responder sua pergunta.\"",
    "5. Para **nomes similares**:",
    "   - Se houver uma empresa que contém as palavras-chave principais",
    "     da busca, responda sobre essa empresa específica.",
    "   - Se houver múltiplas empresas sem uma correspondência clara",
    "     dominante, liste no máximo 3 com a informação solicitada.",
    "   - Quando listar múltiplas, explique que não encontrou o nome",
    "     exato e sugira ser mais específico.",
    "6. Não invente informações e não use conhecimento externo.",
    "7. Não produza opiniões, hipóteses ou interpretações além do que está escrito.",
    "",
    "---",
    "",
    "EXEMPLO 1 — PERGUNTA DENTRO DO CONTEXTO:",
    "Pergunta: \"Qual o faturamento da empresa Alfa Agronegócio Indústria?\"",
    "",
    "Se no CONTEXTO houver:",
    "- \"Alfa Agronegócio Indústria — R$ 85.675.568,77 (fundada em 2005)\"",
    "",
    "Resposta:",
    "\"O faturamento foi de R$ 85.675.568,77.\"",
    "",
    "---",
    "",
    "EXEMPLO 2 — CORRESPONDÊNCIA CLARA (NÃO LISTAR MÚLTIPLAS):",
    "Pergunta: \"Qual o faturamento da empresa Vector Comércio?\"",
    "",
    "Se no CONTEXTO houver:",
    "- \"Vector Mineração Comércio — R$ 365.800,05 (fundada em 2010)\"",
    "- \"Vector E-commerce Holding — R$ 451.268,78 (fundada em 2015)\"",
    "",
    "Resposta:",
    "\"O faturamento foi de R$ 365.800,05.\"",
    "",
    "Explicação: \"Vector Comércio\" tem correspondência clara com",
    "\"Vector Mineração Comércio\" (contém os termos principais da busca).",
    "Não é ambíguo.",
    "",
    "---",
    "",
    "EXEMPLO 3 — MÚLTIPLAS EMPRESAS SIMILARES:",
    "Pergunta: \"Qual o faturamento da Vale?\"",
    "",
    "Se no CONTEXTO houver muitas empresas \"Vale\":",
    "- Vale Fármacos Holding — R$ 1.058.327.479,55",
    "- Vale E-commerce Comércio — R$ 847.706.494,69",
    "- Vale Educação EPP — R$ 933.348.306,15",
    "- [+ outras empresas Vale]",
    "",
    "Resposta:",
    "\"Não encontrei exatamente uma empresa chamada \"Vale\",",
    "mas encontrei algumas empresas com esse nome:",
    "- Vale Fármacos Holding: R$ 1.058.327.479,55",
    "- Vale Educação EPP: R$ 933.348.306,15",
    "- Vale E-commerce Comércio: R$ 847.706.494,69",
    "",
    "Para uma resposta mais precisa, seja mais específico sobre qual",
    "empresa Vale você procura.\"",
    "",
    "---",
    "",
    "EXEMPLO 4 — PERGUNTAS FORA DO CONTEXTO:",
    "",
    "Pergunta: \"Qual é a capital da França?\"",
    "Resposta: \"Não tenho informações necessárias para responder sua pergunta.\"",
    "",
    "Pergunta: \"Quantos clientes temos em 2024?\"",
    "Resposta: \"Não tenho informações necessárias para responder sua pergunta.\"",
    "",
    "Pergunta: \"Você acha isso bom ou ruim?\"",
    "Resposta: \"Não tenho informações necessárias para responder sua pergunta.\"",
    "",
    "---",
    "",
    "",
    "PERGUNTA DO USUÁRIO:",
    ""]

  const PromptTail: string := "\n\nRESPONDA A \"PERGUNTA DO USUÁRIO\"\n"

  /** PROMPT_TEMPLATE. */
  function PromptTemplate(): Template {
    Template(PromptHead, PyStr.Join(PromptMiddleLines, "\n"), PromptTail)
  }

  /** search_documents: one similarity query to the configured collection, its hits
      returned as they come. */
  function SearchDocuments(query: string, embeddings: Client, k: nat, env: Env, world: World): Result<seq<ScoredDocument>, string> {
    world.similaritySearch(ConfiguredStore(env), embeddings, query, k)
  }

  /** The search goes to the store the two database settings name, and to no other; the
      query, the embeddings client and k are passed through unchanged. */
  lemma SearchReadsOnlyStoreSettings(query: string, embeddings: Client, k: nat, env1: Env, env2: Env, world: World)
    requires forall v :: v in DatabaseVars ==> Getenv(env1, v) == Getenv(env2, v)
    ensures SearchDocuments(query, embeddings, k, env1, world) == SearchDocuments(query, embeddings, k, env2, world)
    ensures SearchDocuments(query, embeddings, k, env1, world) ==
              world.similaritySearch(Store(Getenv(env1, DatabaseUrl), Getenv(env1, PgVectorCollectionName)), embeddings, query, k)
  {
    assert DatabaseUrl in DatabaseVars && PgVectorCollectionName in DatabaseVars;
  }

  /** The page contents of the hits, in the order returned; the scores are dropped. */
  function PageContents(results: seq<ScoredDocument>): (r: seq<string>)
    ensures |r| == |results|
    ensures forall i :: 0 <= i < |results| ==> r[i] == results[i].0.pageContent
  {
    seq(|results|, i requires 0 <= i < |results| => results[i].0.pageContent)
  }

  /** The context block: the page contents joined by a blank line. */
  function Context(results: seq<ScoredDocument>): string {
    PyStr.Join(PageContents(results), ContextSeparator)
  }


  /** A call the pipeline makes on a foreign collaborator, in the order it makes them. */
  datatype Call =
    | Construct(client: Client)
    | SimilaritySearch(store: Store, embeddings: Client, query: string, k: nat)
    | Invoke(llm: Client, prompt: string)

  /** What generate_response returns, with the calls it made on the way. */
  datatype Reply = Reply(answer: string, calls: seq<Call>)

  /** generate_response over a given prompt template: build both clients, search for the
      query, refuse on no hits, otherwise render the prompt and return the model's text; any
      exception on the way becomes the fixed error reply. */
  function GenerateResponseWith(t: Template, query: string, p: Provider, env: Env, world: World): (r: Reply)
    ensures 1 <= |r.calls| <= 4
    ensures r.calls[0] == Construct(GetEmbeddings(p, env))
    ensures |r.calls| >= 2 ==> r.calls[1] == Construct(GetLlm(p, env))
    ensures |r.calls| >= 3 ==>
              r.calls[2] == SimilaritySearch(ConfiguredStore(env), GetEmbeddings(p, env), query, DefaultK)
    ensures |r.calls| == 4 ==> r.calls[3].Invoke? && r.calls[3].llm == GetLlm(p, env)
    ensures r.answer == Refusal || r.answer == ErrorReply ||
              (|r.calls| == 4 && world.invoke(GetLlm(p, env), r.calls[3].prompt) == Success(r.answer))
  {
    var embeddings := GetEmbeddings(p, env);
    var llm := GetLlm(p, env);
    var search := SimilaritySearch(ConfiguredStore(env), embeddings, query, DefaultK);
    if world.clientError(embeddings).Some? then
      Reply(ErrorReply, [Construct(embeddings)])
    else if world.clientError(llm).Some? then
      Reply(ErrorReply, [Construct(embeddings), Construct(llm)])
    else
      match SearchDocuments(query, embeddings, DefaultK, env, world)
      case Failure(_) => Reply(ErrorReply, [Construct(embeddings), Construct(llm), search])
      case Success(results) =>
        if results == [] then
          Reply(Refusal, [Construct(embeddings), Construct(llm), search])
        else
          var prompt := Format(t, Context(results), query);
          var calls := [Construct(embeddings), Construct(llm), search, Invoke(llm, prompt)];
          match world.invoke(llm, prompt)
          case Failure(_) => Reply(ErrorReply, calls)
          case Success(content) => Reply(content, calls)
  }

  /** generate_response, with PROMPT_TEMPLATE. */
  function GenerateResponse(query: string, p: Provider, env: Env, world: World): Reply {
    GenerateResponseWith(PromptTemplate(), query, p, env, world)
  }

  /** Both clients build and the search succeeds with these hits. */
  predicate SearchReturns(query: string, p: Provider, env: Env, world: World, results: seq<ScoredDocument>) {
    && world.clientError(GetEmbeddings(p, env)).None?
    && world.clientError(GetLlm(p, env)).None?
    && world.similaritySearch(ConfiguredStore(env), GetEmbeddings(p, env), query, DefaultK) == Success(results)
  }

  /** No hits: the fixed refusal, and the model is never called. */
  lemma EmptySearchRefuses(t: Template, query: string, p: Provider, env: Env, world: World)
    requires SearchReturns(query, p, env, world, [])
    ensures GenerateResponseWith(t, query, p, env, world).answer == Refusal
    ensures forall c :: c in GenerateResponseWith(t, query, p, env, world).calls ==> !c.Invoke?
  {
  }

  /** With hits, the model is called once, on the rendered prompt, and its text is the answer. */
  lemma ModelOutputReturnedVerbatim(t: Template, query: string, p: Provider, env: Env, world: World,
                                    results: seq<ScoredDocument>, content: string)
    requires SearchReturns(query, p, env, world, results) && results != []
    requires world.invoke(GetLlm(p, env), Format(t, Context(results), query)) == Success(content)
    ensures GenerateResponseWith(t, query, p, env, world).answer == content
    ensures GenerateResponseWith(t, query, p, env, world).calls[3] == Invoke(GetLlm(p, env), Format(t, Context(results), query))
    ensures forall i :: 0 <= i < 3 ==> !GenerateResponseWith(t, query, p, env, world).calls[i].Invoke?
  {
  }

  /** A failure at any step (either client, the search, the model call) gives the fixed
      error reply; no failure escapes. */
  lemma EveryFailureMasked(t: Template, query: string, p: Provider, env: Env, world: World)
    requires || world.clientError(GetEmbeddings(p, env)).Some?
             || world.clientError(GetLlm(p, env)).Some?
             || world.similaritySearch(ConfiguredStore(env), GetEmbeddings(p, env), query, DefaultK).Failure?
             || (exists results :: SearchReturns(query, p, env, world, results) && results != [] &&
                   world.invoke(GetLlm(p, env), Format(t, Context(results), query)).Failure?)
    ensures GenerateResponseWith(t, query, p, env, world).answer == ErrorReply
  {
  }

  /** The scores play no part: hits with the same documents give the same context. */
  lemma ScoresIgnored(a: seq<ScoredDocument>, b: seq<ScoredDocument>)
    requires |a| == |b| && forall i :: 0 <= i < |a| ==> a[i].0 == b[i].0
    ensures Context(a) == Context(b)
  {
    assert PageContents(a) == PageContents(b);
  }

  /** n hits give a context of their page contents plus n - 1 blank-line separators. */
  lemma ContextLength(results: seq<ScoredDocument>)
    requires results != []
    ensures |Context(results)| == PyStr.TotalLength(PageContents(results)) + 2 * (|results| - 1)
  {
    PyStr.JoinLength(PageContents(results), ContextSeparator);
  }

  /** Hit i's page content stands at its offset in the context, and a blank line separates it
      from hit i + 1. */
  lemma ContextLayout(results: seq<ScoredDocument>, i: nat)
    requires i < |results|
    ensures PyStr.ContainsAt(Context(results), results[i].0.pageContent,
                             PyStr.JoinOffset(PageContents(results), ContextSeparator, i))
    ensures i + 1 < |results| ==>
              PyStr.ContainsAt(Context(results), ContextSeparator,
                               PyStr.JoinOffset(PageContents(results), ContextSeparator, i) + |results[i].0.pageContent|)
  {
    PyStr.JoinLayout(PageContents(results), ContextSeparator, i);
  }

  /** The rendered prompt is the template's fixed text with the context and the question,
      verbatim, at the two substitution points. */
  lemma FormatLayout(t: Template, context: string, query: string)
    ensures PyStr.ContainsAt(Format(t, context, query), t.head, 0)
    ensures PyStr.ContainsAt(Format(t, context, query), context, |t.head|)
    ensures PyStr.ContainsAt(Format(t, context, query), t.middle, |t.head| + |context|)
    ensures PyStr.ContainsAt(Format(t, context, query), query, |t.head| + |context| + |t.middle|)
    ensures PyStr.ContainsAt(Format(t, context, query), t.tail, |t.head| + |context| + |t.middle| + |query|)
    ensures |Format(t, context, query)| == |t.head| + |context| + |t.middle| + |query| + |t.tail|
  {
    var r := Format(t, context, query);
    var a := |t.head|;
    var b := a + |context|;
    var c := b + |t.middle|;
    var d := c + |query|;
    assert r[..a] == t.head;
    assert r[a..b] == context;
    assert r[b..c] == t.middle;
    assert r[c..d] == query;
    assert r[d..d + |t.tail|] == t.tail;
  }

  /** Rendering loses nothing: for contexts of one length, the prompt determines both the
      context and the question. */
  lemma FormatDeterminesInputs(t: Template, c1: string, q1: string, c2: string, q2: string)
    requires |c1| == |c2|
    requires Format(t, c1, q1) == Format(t, c2, q2)
    ensures c1 == c2 && q1 == q2
  {
    FormatLayout(t, c1, q1);
    FormatLayout(t, c2, q2);
  }

  /** The fixed text around the two substitution points of PROMPT_TEMPLATE. */
  lemma PromptTemplateFrame()
    ensures PromptTemplate().head == "\nCONTEXTO:\n"
    ensures PromptTemplate().tail == "\n\nRESPONDA A \"PERGUNTA DO USUÁRIO\"\n"
    ensures |PromptMiddleLines| == 85
    ensures PromptMiddleLines[83] == "PERGUNTA DO USUÁRIO:"
  {
  }
}
