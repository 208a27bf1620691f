/**
 * Values shared by the semantic-search rewriting cascade: the query trees it
 * builds, the k-NN scoring scripts it attaches, the errors it raises and the
 * embedding service it consults.
 */
module Queries {

  /** An embedding vector. It is carried opaquely and never computed with. */
  type Vector = seq<real>

  /** The failures the cascade can end in, one per exception the code raises. */
  datatype Error =
    | InvalidQuery(message: string)  // InvalidQueryException: no sentence vector came back
    | NoSuchElement                  // Optional.get() on an empty findFirst()
    | NullPointer                    // a method reference on an unset vectorizer
    | IndexOutOfBounds               // scripts[0] on an empty script array

  datatype Result<+T> = Success(value: T) | Failure(error: Error)

  datatype Option<+T> = None | Some(value: T)

  /** How a script is given to the engine; the cascade only builds inline ones. */
  datatype ScriptType = Inline

  /** The parameter map of a k-NN scoring script. */
  datatype KnnParams = KnnParams(field: string, queryValue: Vector, spaceType: string)

  /** A scoring script: type, script language, script id and parameters. */
  datatype Script = Script(scriptType: ScriptType, lang: string, id: string, params: KnnParams)

  /** One entry of a function-score query: a script score function with no filter. */
  datatype ScoreFunction = ScriptFunction(script: Script)

  /** A sort specification added to a query context. */
  datatype SortSpec = SortSpec(field: string, descending: bool)

  /** A callback handed to the context to edit a query under construction; opaque here. */
  datatype Consumer = Consumer(id: nat)

  /**
   * The query trees the cascade produces. Lexical(field, text, boost) is a
   * term query of the kind the host's lexical conversion builds (match
   * phrase, term, prefix, wildcard, fuzzy); Absent is the null it returns for
   * a term it only records on the context, such as a sort.
   */
  datatype Query =
    | MatchAll
    | Absent
    | Lexical(field: string, text: string, boost: real)
    | ScriptScore(base: Query, script: Script)
    | FunctionScore(base: Query, functions: seq<ScoreFunction>)

  /**
   * The embedding service: which languages it supports, and the field-to-vector
   * map it answers for a request map (language tag under "lang", text per field).
   */
  datatype Vectorizer = Vectorizer(
    isSupportedLanguage: string -> bool,
    vectorize: map<string, string> -> map<string, Vector>)
}
