/** Values shared by every component: optional values, the error taxonomy of
    app/core/exceptions.py folded into one datatype, results that carry either a
    value or an error, and the reply of a call into code outside the model. */
module Common {

  datatype Option<T> = None | Some(value: T)

  /** The exception classes the core raises or lets through. The first five are
      the repository's own kinds; the others are the Python built-ins the core
      can raise outside a handler. */
  datatype ErrorKind =
    | FileValidation
    | DocumentParsing
    | EmbeddingGeneration
    | VectorStore
    | LLM
    | Runtime
    | NameError
    | KeyError
    | ValueError
    | Other

  /** An exception: its class and the text that `str(e)` gives. */
  datatype Error = Error(kind: ErrorKind, message: string)

  datatype Result<T> = Ok(value: T) | Err(error: Error)

  /** A call into a collaborator outside the model (a model provider, the
      storage engine, a file-format reader): it returns a value or raises an
      exception whose text is `message`. */
  datatype Call<T> = Returned(value: T) | Raised(message: string)

  /** A numeric vector produced by the embedding provider. */
  type Vector = seq<real>

  /** A metadata value: the repository stores page numbers (ints) and
      identifiers (strings) in chunk metadata. */
  datatype MetaValue = IntValue(i: int) | TextValue(s: string)

  /** A metadata dictionary. */
  type Metadata = map<string, MetaValue>
}
