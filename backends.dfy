/** The foreign collaborators the program drives: documents and their metadata, the
    PGVector store handle, and the oracles standing for the client libraries, the PDF
    loader, the text splitter, the vector store and the model endpoints. */
module Backends {
  import opened Wrappers
  import opened Settings
  import opened Providers

  /** The metadata values a loader or splitter attaches to a chunk. */
  datatype Scalar = Null | Str(s: string) | Int(i: int) | Bool(b: bool) | Float(x: real)

  /** A metadata dict, as its (key, value) pairs in insertion order. */
  type Metadata = seq<(string, Scalar)>

  /** The message of the EOFError input() raises when piped input is exhausted. */
  const EofMessage: string := "EOF when reading a line"

  datatype Document = Document(pageContent: string, metadata: Metadata)

  /** One similarity-search hit: the document and its distance score. */
  type ScoredDocument = (Document, real)

  /** The vector store handle: the database connection setting and the collection name setting. */
  datatype Store = Store(connection: Option<string>, collection: Option<string>)

  function ConfiguredStore(env: Env): Store {
    Store(Getenv(env, DatabaseUrl), Getenv(env, PgVectorCollectionName))
  }

  /** Everything outside the program, as functions of their inputs. A `Some` error or a
      `Failure` stands for the exception the library raises. */
  datatype World = World(
    clientError: Client -> Option<string>,
    similaritySearch: (Store, Client, string, nat) -> Result<seq<ScoredDocument>, string>,
    invoke: (Client, string) -> Result<string, string>,
    pathExists: string -> bool,
    loadPdf: string -> Result<seq<Document>, string>,
    splitDocuments: seq<Document> -> seq<Document>,
    addDocuments: (Store, Client, seq<Document>) -> Option<string>,
    tiktoken: Tokenizer)
}
