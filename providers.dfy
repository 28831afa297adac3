/** The two AI provider families: which settings each uses for its clients, its
    description string, its token count, and the interactive choice between them. */
module Providers {
  import opened Wrappers
  import opened Settings
  import PyStr
  import PyInt

  datatype Provider = OpenAI | Gemini

  /** What get_embeddings and get_llm construct: the client class of the family and the
      model setting handed to it (chat models are built with temperature 0). */
  datatype Client =
    | EmbeddingsClient(family: Provider, model: Option<string>)
    | ChatClient(family: Provider, model: Option<string>, temperature: int)

  /** tiktoken: the token count of a text under the encoding registered for a model name,
      or None when the lookup or the encoding raises. */
  type Tokenizer = (Option<string>, string) -> Option<nat>

  function EmbeddingModelVar(p: Provider): string {
    match p
    case OpenAI => OpenAIEmbeddingModel
    case Gemini => GoogleEmbeddingModel
  }

  function LlmModelVar(p: Provider): string {
    match p
    case OpenAI => OpenAILlmModel
    case Gemini => GoogleLlmModel
  }

  function FamilyVars(p: Provider): set<string> {
    match p
    case OpenAI => OpenAIVars
    case Gemini => GoogleVars
  }

  function GetEmbeddings(p: Provider, env: Env): (c: Client)
    ensures c.EmbeddingsClient? && c.family == p
  {
    EmbeddingsClient(p, Getenv(env, EmbeddingModelVar(p)))
  }

  function GetLlm(p: Provider, env: Env): (c: Client)
    ensures c.ChatClient? && c.family == p && c.temperature == 0
  {
    ChatClient(p, Getenv(env, LlmModelVar(p)), 0)
  }

  /** Each family builds its clients from its own settings only. */
  lemma ClientsReadOwnFamilySettings(p: Provider, env1: Env, env2: Env)
    requires forall v :: v in FamilyVars(p) ==> Getenv(env1, v) == Getenv(env2, v)
    ensures GetEmbeddings(p, env1) == GetEmbeddings(p, env2)
    ensures GetLlm(p, env1) == GetLlm(p, env2)
  {
    assert EmbeddingModelVar(p) in FamilyVars(p) && LlmModelVar(p) in FamilyVars(p);
  }

  /** The embeddings client is given the family's embedding model setting and the chat client
      its LLM model setting; neither depends on the other's setting. */
  lemma ClientsUseTheirModelSetting(p: Provider, env: Env, x: string)
    ensures EmbeddingModelVar(OpenAI) == "OPENAI_EMBEDDING_MODEL" && LlmModelVar(OpenAI) == "OPENAI_LLM_MODEL"
    ensures EmbeddingModelVar(Gemini) == "GOOGLE_EMBEDDING_MODEL" && LlmModelVar(Gemini) == "GOOGLE_LLM_MODEL"
    ensures GetEmbeddings(p, env).model == Getenv(env, EmbeddingModelVar(p))
    ensures GetLlm(p, env).model == Getenv(env, LlmModelVar(p))
    ensures GetEmbeddings(p, env[LlmModelVar(p) := x]) == GetEmbeddings(p, env)
    ensures GetLlm(p, env[EmbeddingModelVar(p) := x]) == GetLlm(p, env)
  {
    assert EmbeddingModelVar(p) != LlmModelVar(p);
  }

  // ---------------------------------------------------------------- get_info

  function DisplayName(p: Provider): string {
    match p
    case OpenAI => "OpenAI"
    case Gemini => "Gemini"
  }

  /** How an f-string shows an optional setting. */
  function Show(v: Option<string>): string {
    match v
    case None => "None"
    case Some(s) => s
  }

  /** get_info: "<family> (<embedding model> + <llm model>)". */
  function GetInfo(p: Provider, env: Env): (info: string)
    ensures PyStr.ContainsAt(info, DisplayName(p) + " (", 0)
    ensures |info| > 0 && info[|info| - 1] == ')'
  {
    var s := DisplayName(p) + " (" + Show(Getenv(env, EmbeddingModelVar(p))) + " + "
             + Show(Getenv(env, LlmModelVar(p))) + ")";
    assert s[..|DisplayName(p) + " ("|] == DisplayName(p) + " (";
    s
  }

  /** The description shows the configured embedding model, then " + ", then the llm model,
      verbatim. */
  lemma InfoShowsModels(p: Provider, env: Env)
    requires EmbeddingModelVar(p) in env && LlmModelVar(p) in env
    ensures var emb := env[EmbeddingModelVar(p)];
            var llm := env[LlmModelVar(p)];
            var start := |DisplayName(p)| + 2;
            && PyStr.ContainsAt(GetInfo(p, env), emb, start)
            && PyStr.ContainsAt(GetInfo(p, env), " + ", start + |emb|)
            && PyStr.ContainsAt(GetInfo(p, env), llm, start + |emb| + 3)
            && |GetInfo(p, env)| == start + |emb| + 3 + |llm| + 1
  {
    var emb := env[EmbeddingModelVar(p)];
    var llm := env[LlmModelVar(p)];
    var head := DisplayName(p) + " (";
    var info := GetInfo(p, env);
    assert info == head + emb + " + " + llm + ")";
    assert info[|head|..|head| + |emb|] == emb;
    assert info[|head| + |emb|..|head| + |emb| + 3] == " + ";
    assert info[|head| + |emb| + 3..|head| + |emb| + 3 + |llm|] == llm;
  }

  /** The two families never describe themselves alike, whatever the settings. */
  lemma InfoDistinguishesProviders(env1: Env, env2: Env)
    ensures GetInfo(OpenAI, env1) != GetInfo(Gemini, env2)
  {
    assert GetInfo(OpenAI, env1)[0] == 'O';
    assert GetInfo(Gemini, env2)[0] == 'G';
  }

  // ---------------------------------------------------------------- count_tokens

  /** A quarter of the length, rounded down. */
  function EstimateTokens(text: string): (n: nat)
    ensures 4 * n <= |text| < 4 * n + 4
    ensures n <= |text|
  {
    |text| / 4
  }

  /** count_tokens: OpenAI asks tiktoken for the encoding of the EMBEDDING model and falls
      back to the estimate when that fails; Gemini always estimates. */
  function CountTokens(p: Provider, env: Env, tiktoken: Tokenizer, text: string): (n: nat)
    ensures p == Gemini ==> n == EstimateTokens(text)
    ensures p == OpenAI && tiktoken(Getenv(env, OpenAIEmbeddingModel), text).Some? ==>
              n == tiktoken(Getenv(env, OpenAIEmbeddingModel), text).value
    ensures p == OpenAI && tiktoken(Getenv(env, OpenAIEmbeddingModel), text).None? ==>
              n == EstimateTokens(text)
  {
    match p
    case Gemini => EstimateTokens(text)
    case OpenAI =>
      match tiktoken(Getenv(env, OpenAIEmbeddingModel), text)
      case Some(k) => k
      case None => EstimateTokens(text)
  }

  /** The OpenAI count does not depend on the LLM model setting, and the Gemini count does
      not depend on the tokenizer at all. */
  lemma TokenizerKeyedByEmbeddingModel(env: Env, tiktoken: Tokenizer, other: Tokenizer, text: string, llm: string)
    ensures CountTokens(OpenAI, env[OpenAILlmModel := llm], tiktoken, text) == CountTokens(OpenAI, env, tiktoken, text)
    ensures CountTokens(Gemini, env, tiktoken, text) == CountTokens(Gemini, env, other, text)
  {
    assert Getenv(env[OpenAILlmModel := llm], OpenAIEmbeddingModel) == Getenv(env, OpenAIEmbeddingModel);
  }

  /** A 4000-character text is estimated at 1000 tokens. */
  lemma EstimateOf4000Characters(text: string)
    requires |text| == 4000
    ensures EstimateTokens(text) == 1000
  {
  }

  // ---------------------------------------------------------------- get_provider_choice

  /** How one input line is read: int() of the stripped line, 1 or 2 choosing a family. */
  function ChoiceOf(line: string): Option<Provider> {
    match PyInt.ParseInt(PyStr.Strip(line))
    case Some(1) => Some(OpenAI)
    case Some(2) => Some(Gemini)
    case _ => None
  }

  /** The outcome of the choice loop: a family after `consumed` lines (the earlier ones each
      answered with the invalid-option message), or the end of input (input() raising EOFError). */
  datatype Selection = Selected(provider: Provider, consumed: nat) | InputExhausted

  /** How each line reads, in input order. */
  function Readings(lines: seq<string>): (r: seq<Option<Provider>>)
    ensures |r| == |lines| && forall j :: 0 <= j < |lines| ==> r[j] == ChoiceOf(lines[j])
  {
    seq(|lines|, j requires 0 <= j < |lines| => ChoiceOf(lines[j]))
  }

  /** The loop from reading number i on. */
  function SelectFrom(readings: seq<Option<Provider>>, i: nat): (r: Selection)
    requires i <= |readings|
    ensures r.Selected? ==> i < r.consumed <= |readings|
    decreases |readings| - i
  {
    if i == |readings| then InputExhausted
    else match readings[i]
      case Some(p) => Selected(p, i + 1)
      case None => SelectFrom(readings, i + 1)
  }

  function ProviderSelection(lines: seq<string>): (r: Selection)
    ensures r.Selected? ==> 0 < r.consumed <= |lines|
  {
    SelectFrom(Readings(lines), 0)
  }

  lemma {:induction false} SelectFromIsFirstValid(readings: seq<Option<Provider>>, i: nat)
    requires i <= |readings|
    ensures var r := SelectFrom(readings, i);
      && (r.Selected? ==>
            && readings[r.consumed - 1] == Some(r.provider)
            && forall j :: i <= j < r.consumed - 1 ==> readings[j] == None)
      && (r.InputExhausted? <==> forall j :: i <= j < |readings| ==> readings[j] == None)
    decreases |readings| - i
  {
    if i < |readings| && readings[i].None? {
      SelectFromIsFirstValid(readings, i + 1);
    }
  }

  /** The loop returns on the first line that reads as 1 or 2, with that line's family;
      every earlier line was rejected. */
  lemma SelectionIsFirstValidLine(lines: seq<string>)
    requires ProviderSelection(lines).Selected?
    ensures ChoiceOf(lines[ProviderSelection(lines).consumed - 1]) == Some(ProviderSelection(lines).provider)
    ensures forall j :: 0 <= j < ProviderSelection(lines).consumed - 1 ==> ChoiceOf(lines[j]) == None
  {
    var readings := Readings(lines);
    SelectFromIsFirstValid(readings, 0);
    var n := ProviderSelection(lines).consumed;
    assert readings[n - 1] == ChoiceOf(lines[n - 1]);
    forall j | 0 <= j < n - 1
      ensures ChoiceOf(lines[j]) == None
    {
      assert readings[j] == None;
    }
  }

  /** The loop ends without a provider exactly when no line reads as 1 or 2. */
  lemma SelectionExhaustedIffNoValidLine(lines: seq<string>)
    ensures ProviderSelection(lines).InputExhausted? <==> forall j :: 0 <= j < |lines| ==> ChoiceOf(lines[j]) == None
  {
    var readings := Readings(lines);
    SelectFromIsFirstValid(readings, 0);
    assert (forall j :: 0 <= j < |lines| ==> readings[j] == None) <==>
           (forall j :: 0 <= j < |lines| ==> ChoiceOf(lines[j]) == None);
  }

  /** The numeral of any integer other than 1 and 2 is rejected; "1" and "2" choose. */
  lemma ChoiceOfNumeral(n: int)
    ensures ChoiceOf(PyInt.ShowInt(n)) == if n == 1 then Some(OpenAI) else if n == 2 then Some(Gemini) else None
  {
    var s := PyInt.ShowInt(n);
    assert !PyStr.IsSpace(s[0]) && !PyStr.IsSpace(s[|s| - 1]);
    PyStr.StripUnchanged(s);
    PyInt.ParseShowInt(n);
  }

  /** get_provider_choice: reads lines until one selects a family. */
  method GetProviderChoice(lines: seq<string>) returns (sel: Selection)
    ensures sel == ProviderSelection(lines)
  {
    var i := 0;
    while i < |lines|
      invariant 0 <= i <= |lines|
      invariant SelectFrom(Readings(lines), i) == ProviderSelection(lines)
    {
      var choice := ChoiceOf(lines[i]);
      if choice.Some? {
        return Selected(choice.value, i + 1);
      }
      i := i + 1;
    }
    return InputExhausted;
  }
}
