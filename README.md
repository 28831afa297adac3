# PDF question answering over PGVector: a Dafny model

This project models the core of a small retrieval-augmented question answering tool. The tool has
two entry points:

- **Ingestion** (`ingest_pdf`) checks that the nine required settings are present and asks the user
  to choose a provider family (OpenAI or Gemini). It then builds that family's embeddings client,
  loads the PDF and splits it into chunks. It drops empty metadata values from every chunk, logs a
  token estimate and stores all the chunks in a PGVector collection in one batch.
- **Chat** (`main` in `chat.py`) does the same validation and provider choice. It then reads
  questions until the user types `sair` or input ends. Each non-blank question goes through
  `generate_response`: a similarity search for the question, then a refusal when nothing is found,
  otherwise a prompt made from the hits and the question and sent to the chat model. Any failure
  becomes a fixed error reply.

## How the model is organised

Each Python module becomes a Dafny module of the same name: `Settings`, `Providers`, `Search`,
`Ingest` and `Chat`. Supporting modules:

- `Wrappers`: `Option`, `Result` and `Outcome`.
- `PyStr`: the Python string built-ins the code relies on: `strip`, `lower`, `join`, `<` and `sorted`.
- `PyInt`: `int()` on a stripped string.
- `Backends`: documents, metadata, the store handle, and a `World` record of functions.

`World` stands for everything outside the program:

- client construction;
- the PGVector similarity search and insert;
- the chat model call;
- `os.path.exists`;
- the PDF loader;
- the text splitter;
- tiktoken.

Each of these is a function of its inputs. A failure is a `Failure` or a `Some(error)` value, which
stands for the exception the library raises.

Input is a sequence of lines. Each `input()` call takes the next line; an exhausted sequence is
`EOFError`. The process environment (after `.env` is loaded) is a `map<string, string>`.

The code's effects are modelled as traces:

- `Search.Reply.calls` records the constructor, search and model calls of `generate_response`, in order.
- `Ingest.IngestReport.steps` records the stages of ingestion.
- `Chat.ChatEvent` is what the chat shows for each line.

The operations that run step by step are imperative methods, each proved equal to a functional
specification; the properties are proved about those specifications. They are the `while` loop of
`get_provider_choice` (`Providers.GetProviderChoice`) and the straight-line sequence of calls of
`ingest_pdf` (`Ingest.IngestPdf`, `Ingest.IngestChosen`). They also include `main` of the chat
(`Chat.RunChat`) with its `while` loop (`Chat.ChatLoop`).

The prompt pipeline is stated for any template `t` that has the two substitution points
(`Search.GenerateResponseWith`). `Search.GenerateResponse` instantiates it with
`Search.PromptTemplate()`, which is the template text of `search.py` held line by line.
`Search.PromptTemplateFrame` pins down that instance.

## Model

| member | source | states |
|---|---|---|
| Settings.Getenv | src/settings.py:7-17 | os.getenv: the setting's value, or None when it is unset; BothFamiliesRequired and ValidationReadsOnlyRequiredNames state how validation reads it |
| Settings.IsConfigured | src/settings.py:28 | the truthiness test of a setting: neither None nor empty; Missing states the set it selects |
| Settings.Missing | src/settings.py:28 | the missing set is exactly the required names whose setting is unset or empty, and no other name |
| Settings.MissingNames | src/settings.py:32 | sorted() of the missing set: every missing name exactly once, strictly ascending |
| Settings.ValidateEnvironment | src/settings.py:26-34 | passes if and only if all nine settings are non-empty; otherwise fails with the fixed prefix, the sorted missing names joined by ", " and the fixed suffix |
| Settings.RequiredNamesAreNine | src/settings.py:19-23 | ALL_VARS is exactly the nine names of the three groups plus PDF_PATH |
| Settings.MessageNamesEveryMissingVariable | src/settings.py:28-33 | for any missing name, validation fails and the name occurs in the error message |
| Settings.ValidationReadsOnlyRequiredNames | src/settings.py:28 | two environments that agree on the nine required names validate identically |
| Settings.BothFamiliesRequired | src/settings.py:20-23 | an unset or empty setting of either family fails validation, whichever family is used later |
| Providers.GetEmbeddings | src/providers.py:40-42 | builds the embeddings client of the chosen family (lines 65-67 for Gemini) |
| Providers.GetLlm | src/providers.py:44-46 | builds the chat client of the chosen family with temperature 0 (lines 69-71 for Gemini) |
| Providers.ClientsUseTheirModelSetting | src/providers.py:40-71 | the embeddings client gets the family's *_EMBEDDING_MODEL setting and the chat client its *_LLM_MODEL setting, and neither depends on the other's setting |
| Providers.ClientsReadOwnFamilySettings | src/providers.py:40-71 | both clients depend only on the chosen family's own settings |
| Providers.Show | src/providers.py:50 | how the f-strings at lines 50 and 75 show a setting: its text, or "None" when unset; InfoShowsModels states where it stands |
| Providers.GetInfo | src/providers.py:48-51 | the description starts with the family name and " (" and ends with ")" |
| Providers.InfoShowsModels | src/providers.py:48-51 | the embedding model, then " + ", then the llm model appear verbatim, at fixed offsets, and nothing else |
| Providers.InfoDistinguishesProviders | src/providers.py:48-76 | the descriptions of the two families never coincide, whatever the settings |
| Providers.EstimateTokens | src/providers.py:59 | len(text) // 4: the largest n with 4n <= len(text) |
| Providers.CountTokens | src/providers.py:53-59 | OpenAI uses tiktoken for the embedding model and falls back to the estimate when tiktoken fails; Gemini (lines 78-81) always estimates |
| Providers.TokenizerKeyedByEmbeddingModel | src/providers.py:55 | the OpenAI count ignores the LLM model setting; the Gemini count ignores the tokenizer |
| Providers.EstimateOf4000Characters | src/providers.py:81 | a text of 4000 characters is estimated at 1000 tokens |
| Providers.ChoiceOf | src/providers.py:93-101 | how one input line reads: int() of the stripped line, 1 choosing OpenAI, 2 Gemini, anything else rejected (ChoiceOfNumeral states it for every numeral) |
| PyInt.ParseInt | src/providers.py:93 | int() on the stripped line: an optional sign, then digits with single underscores between them, or ValueError; ParseShowInt and the ParseAccepts/ParseRejects lemmas state it |
| Providers.SelectFrom | src/providers.py:91-101 | a selection made from reading i on consumes at least one and at most all of the remaining lines |
| Providers.ProviderSelection | src/providers.py:84-101 | a selection consumes between 1 and all of the input lines |
| Providers.SelectFromIsFirstValid | src/providers.py:91-101 | the selected line is the first valid one from position i; the loop ends without a provider if and only if no line from i on is valid |
| Providers.SelectionIsFirstValidLine | src/providers.py:93-99 | the line that selects reads as 1 or 2 for that family, and every earlier line was rejected |
| Providers.SelectionExhaustedIffNoValidLine | src/providers.py:91-101 | input runs out before a choice (EOFError) if and only if no line reads as 1 or 2 |
| Providers.ChoiceOfNumeral | src/providers.py:93-101 | the numeral of n selects OpenAI if n is 1, Gemini if n is 2, and is rejected for every other integer |
| Providers.GetProviderChoice | src/providers.py:84-101 | the while loop returns the selection of the first valid line, or the end of input |
| PyStr.IsSpace | src/chat.py:25 | the whitespace strip() removes: the characters for which str.isspace() holds |
| PyStr.Strip | src/chat.py:25 | str.strip(), also used at src/providers.py:93; StripMeaning, StripIdempotent, StripUnchanged and StripPadded state it |
| PyStr.TrimStart | src/chat.py:25 | leading part of strip(): the longest suffix starting with a non-space, with only whitespace cut |
| PyStr.TrimEnd | src/chat.py:25 | trailing part of strip(): the longest prefix ending with a non-space, with only whitespace cut |
| PyStr.StripMeaning | src/chat.py:25 | strip() leaves no whitespace at either end and cuts only whitespace; its result is empty exactly for a whitespace-only string |
| PyStr.StripIdempotent | src/chat.py:25 | stripping twice is stripping once |
| PyStr.StripUnchanged | src/providers.py:93 | a string with no whitespace at either end is its own strip |
| PyStr.StripPadded | src/chat.py:25 | any whitespace around a string that has none at its ends is exactly what strip() removes |
| PyStr.Lower | src/chat.py:27 | str.lower() on ASCII letters; LowerMeaning states it |
| PyStr.LowerMeaning | src/chat.py:27 | the model's ASCII-only lower keeps the length and maps each character on its own (Python's full lower() is under Left out) |
| PyStr.Join | src/settings.py:32 | sep.join(parts), also used at src/search.py:132; JoinLength and JoinLayout state its layout |
| PyStr.JoinLength | src/search.py:132 | join of n parts has their total length plus n - 1 separators |
| PyStr.JoinLayout | src/settings.py:32 | every part stands at its offset in the joined string, with exactly one separator before the next part |
| PyStr.Less | src/settings.py:32 | the string order sorted() uses: lexicographic by code point, a proper prefix first; LessTotal and its companions make it a strict total order |
| PyStr.Sorted | src/settings.py:32 | sorted(set): each element exactly once, strictly increasing under Python's string order |
| PyStr.LessTotal | src/settings.py:32 | Python's string order is total on distinct strings (with LessIrreflexive, LessAsymmetric, LessTransitive: a strict total order) |
| PyStr.LeastExists | src/settings.py:32 | a non-empty set of strings has a least element, the one sorted() puts first |
| PyInt.ParseShowInt | src/providers.py:93 | the model's int() reads back every numeral str() writes (Python's digit limit is under Left out) |
| PyInt.ParseAcceptsLeadingZero | src/providers.py:93 | int("01") is 1 |
| PyInt.ParseAcceptsSign | src/providers.py:93 | int("+2") is 2 |
| PyInt.ParseAcceptsUnderscore | src/providers.py:93 | int("1_0") is 10 |
| PyInt.ParseRejectsExamples | src/providers.py:100-101 | "", "a", "1__0" and "_1" raise ValueError |
| Backends.ConfiguredStore | src/search.py:107-112 | the PGVector handle built here and at src/ingest.py:62-67: the DATABASE_URL and PG_VECTOR_COLLECTION_NAME settings; SearchReadsOnlyStoreSettings and StoreDocuments state its use |
| Search.SearchDocuments | src/search.py:103-118 | one similarity search with score, for the query, the embeddings client and k, on the store of the current settings |
| Search.SearchReadsOnlyStoreSettings | src/search.py:107-115 | the search depends on DATABASE_URL and PG_VECTOR_COLLECTION_NAME only among the settings, and passes the query, the client and k through unchanged |
| Search.PageContents | src/search.py:132 | one page content per hit, in the order returned |
| Search.Context | src/search.py:132 | the page contents joined by a blank line; ContextLength and ContextLayout state its layout |
| Search.Format | src/search.py:134 | the template with the context and the question at its two substitution points; FormatLayout and FormatDeterminesInputs state its properties |
| Search.PromptTemplate | src/search.py:11-100 | PROMPT_TEMPLATE, split at its two substitution points; PromptTemplateFrame pins down its frame |
| Search.GenerateResponse | src/search.py:121-142 | generate_response with PROMPT_TEMPLATE: GenerateResponseWith and the lemmas about it, for that template |
| Search.GenerateResponseWith | src/search.py:121-142 | calls happen in the order embeddings, llm, search with k = 10, invoke with the llm; the answer is the refusal, the error reply or the model's own text |
| Search.EmptySearchRefuses | src/search.py:129-130 | no hits: the fixed refusal, and the model is never called |
| Search.ModelOutputReturnedVerbatim | src/search.py:132-138 | with hits, the model is called once, last, on the rendered prompt, and its text is returned unchanged |
| Search.EveryFailureMasked | src/search.py:123-142 | a failure of either client, the search or the model call gives the fixed error reply |
| Search.ScoresIgnored | src/search.py:132 | the context depends on the hit documents only, not their scores |
| Search.ContextLength | src/search.py:132 | the context is the page contents plus a two-character separator between consecutive hits |
| Search.ContextLayout | src/search.py:132 | each hit's page content stands verbatim at its offset, with a blank line before the next hit |
| Search.FormatLayout | src/search.py:134 | the prompt is the template text with the context and the question verbatim at the two substitution points |
| Search.FormatDeterminesInputs | src/search.py:134 | for contexts of equal length, the prompt determines both the context and the question |
| Search.PromptTemplateFrame | src/search.py:11-100 | the template opens with "CONTEXTO:" and closes with the instruction echoing "PERGUNTA DO USUÁRIO" |
| Ingest.Retained | src/ingest.py:50 | the comprehension's test: a value is kept unless it is "" or None; FilteredLookup states its effect |
| Ingest.FilterMetadata | src/ingest.py:50 | the filtered metadata keeps, in order, exactly the entries whose value is neither "" nor None |
| Ingest.FilterKeepsDistinctKeys | src/ingest.py:50 | the dict comprehension keeps keys unique |
| Ingest.FilteredLookup | src/ingest.py:50 | a key keeps its value if and only if that value is neither "" nor None, otherwise it is absent |
| Ingest.LookupFound | src/ingest.py:50 | in a dict, looking a key up finds exactly the value stored for it |
| Ingest.FilterIdempotent | src/ingest.py:50 | filtering twice is filtering once |
| Ingest.CleanDocuments | src/ingest.py:47-53 | one cleaned document per chunk, in order, with the page content unchanged and the metadata filtered |
| Ingest.ProcessDocuments | src/ingest.py:32-53 | FileNotFoundError if and only if the path is missing; a loader failure is passed on; ValueError if and only if the split is empty; otherwise, and only then, Success with the cleaned chunks of the loaded PDF, never empty |
| Ingest.ErrorMessage | src/ingest.py:33-44 | the message of a missing file is the fixed prefix followed by the path; the empty split gives its fixed message |
| Ingest.TotalTokens | src/ingest.py:59 | the sum of the per-document token counts; Gemini's bound is GeminiTotalIsBounded and its only use is stated by TokenTotalOnlyLogged |
| Ingest.Ingestion | src/ingest.py:15-29 | validate (line 17), then choose (line 18), then the rest of the run with the chosen family and PDF_PATH; the lemmas below state its properties |
| Ingest.GeminiTotalIsBounded | src/ingest.py:59 | with Gemini, four times the token total is at most the total number of characters |
| Ingest.StoreDocuments | src/ingest.py:56-71 | logs the token total, then adds every document to the configured store in one call; the outcome is that call's |
| Ingest.IngestWith | src/ingest.py:21-23 | the rest of the run once family p was chosen: the trace it returns always opens with the validation and choice steps that preceded it |
| Ingest.ValidationComesFirst | src/ingest.py:17 | a configuration failure ends the run before any line is read or any other step taken |
| Ingest.IngestWithInFixedOrder | src/ingest.py:21-23 | after the choice, step i of the run is the i-th of the fixed sequence |
| Ingest.StepsInFixedOrder | src/ingest.py:15-29 | the steps are a prefix of validate, choose, embeddings, process, count, store: each at most once, in that order |
| Ingest.SuccessStoresEveryChunk | src/ingest.py:15-29 | a successful run validated, chose, took all six steps, and stored every processed chunk in one batch through the chosen family's embeddings |
| Ingest.IngestWithOutcome | src/ingest.py:21-29 | after the choice, a failing client, process_documents or add_documents ends the run with that stage's own exception, re-raised unchanged; the run passes if and only if all three succeed |
| Ingest.ExhaustedChoiceEndsRun | src/ingest.py:18-29 | input that runs out during the choice ends the run with the EOFError, after validation and before any other step |
| Ingest.IngestionAfterChoice | src/ingest.py:17-22 | after validation and a choice, the run goes on with the chosen family and the PDF_PATH setting |
| Ingest.PassesIffEveryStageSucceeds | src/ingest.py:15-29 | ingest_pdf passes if and only if validation, the choice, the embeddings client, process_documents on PDF_PATH and the store call all succeed |
| Ingest.IngestWithSuccess | src/ingest.py:21-23 | a successful run after the choice took all six steps and its store call succeeded on the processed chunks |
| Ingest.MissingPdfStopsBeforeLoading | src/ingest.py:33-34 | a missing PDF fails the run, never with the empty-split error, and the loader and splitter make no difference; once validation, the choice and the client have passed, the run fails with FileNotFoundError for PDF_PATH, whose message names the path after the fixed prefix |
| Ingest.TokenTotalOnlyLogged | src/ingest.py:59-60 | the tokenizer never changes how a run ends |
| Ingest.IngestPdf | src/ingest.py:15-29 | the sequence of calls gives the report of the specification |
| Ingest.IngestChosen | src/ingest.py:21-23 | the calls after the choice give the report of the specification |
| Chat.IsExit | src/chat.py:27 | the exit test on a stripped line; ExitSpellings states which lines pass it |
| Chat.LineEvent | src/chat.py:31-37 | a blank question re-prompts; any other question is answered by generate_response |
| Chat.Conversation | src/chat.py:24-37 | the events of the question loop; ConversationEvents and NothingReadAfterExit state its properties |
| Chat.ChatSession | src/chat.py:13-40 | validate, choose, show the banner, then the question loop on the remaining lines; a failure of the first two is the only event |
| Chat.Questions | src/chat.py:25 | each line read is stripped, one question per line, in order |
| Chat.FirstExit | src/chat.py:24-29 | the position of the first exit command, or the number of lines when there is none |
| Chat.ConversationEvents | src/chat.py:24-37 | one event per line before the first exit, in order; then Goodbye, or the EOFError when input ends first |
| Chat.NothingReadAfterExit | src/chat.py:27-29 | lines after the exit command are never read |
| Chat.ExitSpellings | src/chat.py:27 | a stripped line exits if and only if it is "sair" in any letter case |
| Chat.ExitInCapitals | src/chat.py:27 | "SAIR" exits |
| Chat.ExitWithSurroundingSpaces | src/chat.py:25-27 | "Sair" with any whitespace around it exits |
| Chat.BlankLineReprompts | src/chat.py:31-33 | a whitespace-only line is not the exit; it re-prompts without calling the pipeline |
| Chat.ValidationBeforeChoice | src/chat.py:14 | a configuration failure is shown before any line is read |
| Chat.ExhaustedChoiceCrashes | src/chat.py:15 | input that runs out during the choice gives the EOFError as the only event |
| Chat.ChoiceStartsConversation | src/chat.py:15-25 | a choice made on line n shows the chosen family's banner, then the loop runs on the stripped lines after line n, one event per question up to the first exit |
| Chat.ConversationStep | src/chat.py:24-37 | one turn of the loop: the next stripped line ends the loop or gives its own event |
| Chat.RunChat | src/chat.py:7-40 | validation, then the choice, then the banner, then the loop on the remaining lines, with PROMPT_TEMPLATE |
| Chat.ChatLoop | src/chat.py:24-37 | the while loop yields the events of the specification over the stripped remaining lines |

## Left out

- Logging, `print` output and `load_dotenv` are left out. No control flow depends on them; the
  environment map is taken as it stands after `.env` is loaded.
- `Ingest.TotalTokens` is computed as in the source, but only TokenTotalOnlyLogged states that it
  affects nothing else; the printed format (`{:,}`) is not modelled.
- The internals of the collaborators are left out: PyPDFLoader, RecursiveCharacterTextSplitter
  (chunk size 1000, overlap 150), PGVector, the embeddings and chat model services and tiktoken.
  Each is a function in `Backends.World`. The splitter is assumed total: it returns a list and
  never raises.
- The `World` functions are stateless and deterministic. A store that changes between calls, or a
  model that answers the same prompt differently, is not modelled.
- Client configuration beyond the model name and temperature is left out: API keys are read by
  the client libraries themselves, so a missing key shows up only as a construction failure.
- Whether the model follows the prompt's rules (answer only from the context, refuse otherwise)
  is outside the program and cannot be proved. Only the prompt's text and layout are.
- The invalid-option messages of `get_provider_choice` are not a separate output. Their number is
  `consumed - 1` of the selection.
- `PyStr.LowerChar`: only ASCII letters are folded. Python's `lower()` also folds other scripts,
  but no non-ASCII character lowers to an ASCII letter other than 'İ' (U+0130, which lowers to
  "i̇", two characters) and the Kelvin sign (U+212A, which lowers to "k"). Neither can turn a
  four-character string into "sair", so the exit test is not affected.
- `PyInt.ParseInt`: only ASCII digits are accepted. `int()` also accepts other Unicode decimal
  digits. Python 3.11 and later also reject numerals of more than 4300 digits (leading zeros
  included) with ValueError; the model has no such limit. So a line of 4300 zeros followed by "1" is
  rejected by `get_provider_choice` but selects OpenAI in the model, and `PyInt.ParseShowInt`
  holds in Python only for numerals within the limit.
- Input is taken to be piped, not typed at a terminal. At the end of piped input, `input()` raises
  EOFError with the message "EOF when reading a line" (`Backends.EofMessage`). At an interactive
  terminal the EOFError carries no message, so the chat would print an empty error text there.
- `KeyboardInterrupt` and other exceptions outside `Exception` are left out.
- A metadata dict is modelled as a sequence of (key, value) pairs in insertion order, and metadata
  values as null, string, int, bool or float. Nested values are left out.
- The lemmas about prompt rendering are stated for any template with two substitution points.
  The concrete text of `PROMPT_TEMPLATE` is held as line constants, and only its frame is pinned
  down (`Search.PromptTemplateFrame`).
