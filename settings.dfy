/** The process configuration: nine required names read from the environment, and the
    start-up check that every one of them has a non-empty value. */
module Settings {
  import opened Wrappers
  import PyStr

  /** The process environment after the .env file has been loaded. */
  type Env = map<string, string>

  const OpenAIApiKey: string := "OPENAI_API_KEY"
  const OpenAIEmbeddingModel: string := "OPENAI_EMBEDDING_MODEL"
  const OpenAILlmModel: string := "OPENAI_LLM_MODEL"
  const GoogleApiKey: string := "GOOGLE_API_KEY"
  const GoogleEmbeddingModel: string := "GOOGLE_EMBEDDING_MODEL"
  const GoogleLlmModel: string := "GOOGLE_LLM_MODEL"
  const DatabaseUrl: string := "DATABASE_URL"
  const PgVectorCollectionName: string := "PG_VECTOR_COLLECTION_NAME"
  const PdfPath: string := "PDF_PATH"

  const DatabaseVars: set<string> := {DatabaseUrl, PgVectorCollectionName}
  const GoogleVars: set<string> := {GoogleApiKey, GoogleEmbeddingModel, GoogleLlmModel}
  const OpenAIVars: set<string> := {OpenAIApiKey, OpenAIEmbeddingModel, OpenAILlmModel}

  /** Every required name, for both provider families whichever is chosen later. */
  const AllVars: set<string> := DatabaseVars + GoogleVars + OpenAIVars + {PdfPath}

  const MessagePrefix: string := "❌ Variáveis obrigatórias não configuradas: "
  const MessageSuffix: string := "\nConfigure todas as variáveis no arquivo .env"
  const NameSeparator: string := ", "

  /** os.getenv(name): the value, or None when the name is unset. */
  function Getenv(env: Env, name: string): Option<string> {
    if name in env then Some(env[name]) else None
  }

  /** Truthiness of an optional string: neither None nor empty. */
  predicate IsConfigured(v: Option<string>) {
    v.Some? && v.value != ""
  }

  /** The required names whose setting is absent or empty. */
  function Missing(env: Env): (m: set<string>)
    ensures m <= AllVars
    ensures forall v :: v in m <==> v in AllVars && !IsConfigured(Getenv(env, v))
  {
    set v | v in AllVars && !IsConfigured(Getenv(env, v))
  }

  /** The missing names as the error message lists them: each once, in ascending order. */
  function MissingNames(env: Env): (names: seq<string>)
    ensures forall v :: v in names <==> v in AllVars && !IsConfigured(Getenv(env, v))
    ensures |names| == |Missing(env)|
    ensures PyStr.StrictlyIncreasing(names)
    ensures forall i, j :: 0 <= i < j < |names| ==> names[i] != names[j]
  {
    PyStr.Sorted(Missing(env))
  }

  /** validate_environment: passes exactly when no required name is missing, and otherwise
      fails with a message that lists all the missing names. */
  function ValidateEnvironment(env: Env): (r: Outcome<string>)
    ensures r.Pass? <==> forall v :: v in AllVars ==> IsConfigured(Getenv(env, v))
    ensures r.Fail? ==> r.error == MessagePrefix + PyStr.Join(MissingNames(env), NameSeparator) + MessageSuffix
  {
    var missing := Missing(env);
    if missing != {} then
      Fail(MessagePrefix + PyStr.Join(PyStr.Sorted(missing), NameSeparator) + MessageSuffix)
    else
      assert forall v :: v in AllVars ==> v !in missing;
      Pass
  }

  lemma RequiredNamesAreNine()
    ensures AllVars == {"DATABASE_URL", "PG_VECTOR_COLLECTION_NAME",
                        "GOOGLE_API_KEY", "GOOGLE_EMBEDDING_MODEL", "GOOGLE_LLM_MODEL",
                        "OPENAI_API_KEY", "OPENAI_EMBEDDING_MODEL", "OPENAI_LLM_MODEL",
                        "PDF_PATH"}
    ensures |AllVars| == 9
  {
  }

  /** The failure message names every missing variable: each stands between the prefix and
      the suffix, at its place in the sorted, comma-separated list. */
  lemma {:induction false} MessageNamesEveryMissingVariable(env: Env, v: string)
    requires v in Missing(env)
    ensures ValidateEnvironment(env).Fail?
    ensures exists k :: PyStr.ContainsAt(ValidateEnvironment(env).error, v, k)
  {
    var names := MissingNames(env);
    var i :| 0 <= i < |names| && names[i] == v;
    var joined := PyStr.Join(names, NameSeparator);
    PyStr.JoinLayout(names, NameSeparator, i);
    var k := PyStr.JoinOffset(names, NameSeparator, i);
    PyStr.ContainsAtShift(MessagePrefix, joined, v, k);
    PyStr.ContainsAtPrefix(MessagePrefix + joined, MessageSuffix, v, |MessagePrefix| + k);
    assert PyStr.ContainsAt(ValidateEnvironment(env).error, v, |MessagePrefix| + k);
  }

  /** Validation reads only the nine required names: environments that agree on them
      validate alike. */
  lemma ValidationReadsOnlyRequiredNames(env1: Env, env2: Env)
    requires forall v :: v in AllVars ==> Getenv(env1, v) == Getenv(env2, v)
    ensures ValidateEnvironment(env1) == ValidateEnvironment(env2)
  {
    assert Missing(env1) == Missing(env2);
  }

  /** Configuring only one provider family is not enough: a missing Google setting fails
      validation even when every OpenAI setting is present, and the other way round. */
  lemma BothFamiliesRequired(env: Env, v: string)
    requires v in GoogleVars + OpenAIVars
    requires !IsConfigured(Getenv(env, v))
    ensures ValidateEnvironment(env).Fail?
  {
  }
}
