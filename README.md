# Semantic-search query rewriting in fess-webapp-vectorizer, modelled in Dafny

This project models the part of the Fess vectorizer plugin that turns a query
on the reserved pseudo-field `semantic` into k-NN vector scoring. It has three
pieces:

- **The decorator** (`contexts.dfy`, module `Contexts`). `VectorisingQueryContext`
  wraps a query-build context by reference. It holds its own nullable script
  array and forwards every other read and write to the wrapped context. The
  wrapped context may itself be a decorator. The host's `QueryContext` is
  reduced to the state behind the forwarded operations.
- **The term command** (`command.dfy`, module `TermCommand`). `Convert` is the
  per-term decision of `convertTermQuery`, written as a value. The steps are:
  pass non-`semantic` fields to the host's conversion; fall back to the host's
  conversion of the default field without a
  decorator or without configured languages; pick the first supported
  language; build the request map; read the `content` vector or fail with
  `InvalidQuery`; build one `knn_score` script per field. The class
  `VectorisingTermQueryCommand` holds the vectorizer, the field suffix, the
  space type and the host's conversion it inherits. Its `GetScripts` fills the request map in a loop. Its
  `ConvertTermQuery` stashes the scripts on the decorator, and each is proved
  equal to its pure counterpart.
- **The filter** (`filter.dfy`, module `QueryFilter`). `Execute` wraps the
  incoming context in a fresh decorator. It runs the chain's term conversions
  against that decorator and reads the scripts back. `Rewrite` then leaves the
  chain's query unchanged, wraps it in a script-score query, or wraps it in a
  function-score query.

Shared values are in `queries.dfy` (module `Queries`): the query trees, the
scripts, the errors, and the embedding service as an oracle. The oracle is a
`Vectorizer` value with an `isSupportedLanguage` predicate and a `vectorize`
map function. The host's term conversion, which the command inherits and
defers to, is an oracle too: `Settings.lexical` maps a field, a text and a
boost to a query, to `Absent` (the host's null, as for a sort term), or to a
failure (as for a sort on an unknown field).

Exceptions are modelled as `Failure` results: `InvalidQuery` (the
`InvalidQueryException`), `NoSuchElement` (`findFirst().get()` on no supported
language), `NullPointer` (`vectorizer::isSupportedLanguage` with no vectorizer
set up) and `IndexOutOfBounds` (`scripts[0]` on an empty array).

Two error paths of the semantic branch are not fallbacks:

- Configured languages with none of them supported do not fall back to a
  lexical query: `findFirst().get()` throws. The model fails with
  `NoSuchElement`; see `TermCommand.ConvertFailsWithoutSupportedLanguage`.
- Configured languages with no vectorizer set up (the engine was not
  supported at initialisation) dereference null. The model fails with
  `NullPointer`; see `TermCommand.ConvertFailsWithoutVectorizer`.

Two consequences of the code are proved:

- The command always requests exactly `["content"]`, so every stash holds one
  script. The function-score branch and the filter's own empty-array failure
  therefore never arise from this command: every failure of the filter is a
  term conversion's (`QueryFilter.ExecuteSpec`, `QueryFilter.ExecuteOutcomes`).
- The `scripts.length > 0` fallback in `convertTermQuery` is dead for the same
  reason: "semantic" on a decorator with languages configured never ends in the
  host's conversion (the last clause of `TermCommand.Convert`).

## Model

| member | source | states |
|---|---|---|
| `Contexts.VectorisingQueryContext.constructor` | src/main/java/org/codelibs/fess/webapp/vectorizer/VectorisingQueryContext.java:34-37 | a fresh decorator wraps the given context, forwards to its plain session and holds no scripts (null) |
| `Contexts.VectorisingQueryContext.SetScripts` | src/main/java/org/codelibs/fess/webapp/vectorizer/VectorisingQueryContext.java:39-41 | the held scripts become exactly the argument (last write wins); only this decorator's slot may change |
| `Contexts.VectorisingQueryContext.HashCode` | src/main/java/org/codelibs/fess/webapp/vectorizer/VectorisingQueryContext.java:49-52 | the hash code is the wrapped session's, through any number of stacked decorators |
| `Contexts.VectorisingQueryContext.Equals` | src/main/java/org/codelibs/fess/webapp/vectorizer/VectorisingQueryContext.java:69-72 | equality is the wrapped session's: true exactly for the wrapped session itself |
| `Contexts.VectorisingQueryContext.ToString` | src/main/java/org/codelibs/fess/webapp/vectorizer/VectorisingQueryContext.java:134-137 | the rendering is the wrapped session's |
| `Contexts.VectorisingQueryContext.GetQueryString` | src/main/java/org/codelibs/fess/webapp/vectorizer/VectorisingQueryContext.java:109-112 | answers the wrapped session's current query string |
| `Contexts.VectorisingQueryContext.GetDefaultField` | src/main/java/org/codelibs/fess/webapp/vectorizer/VectorisingQueryContext.java:124-127 | answers the wrapped session's current default field |
| `Contexts.VectorisingQueryContext.HasSorts` | src/main/java/org/codelibs/fess/webapp/vectorizer/VectorisingQueryContext.java:79-82 | true exactly when the wrapped session holds sorts |
| `Contexts.VectorisingQueryContext.SortBuilders` | src/main/java/org/codelibs/fess/webapp/vectorizer/VectorisingQueryContext.java:84-87 | answers the wrapped session's current sorts |
| `Contexts.VectorisingQueryContext.GetQueryBuilder` | src/main/java/org/codelibs/fess/webapp/vectorizer/VectorisingQueryContext.java:89-92 | answers the wrapped session's current query builder (None for null) |
| `Contexts.VectorisingQueryContext.RoleQueryEnabled` | src/main/java/org/codelibs/fess/webapp/vectorizer/VectorisingQueryContext.java:114-117 | answers the wrapped session's role-query flag |
| `Contexts.VectorisingQueryContext.GetDefaultKeyword` | src/main/java/org/codelibs/fess/webapp/vectorizer/VectorisingQueryContext.java:99-102 | answers the wrapped session's default keywords |
| `Contexts.VectorisingQueryContext.AddSorts` | src/main/java/org/codelibs/fess/webapp/vectorizer/VectorisingQueryContext.java:74-77 | appends the sorts to the wrapped session only; reading through the decorator shows them |
| `Contexts.VectorisingQueryContext.SetQueryBuilder` | src/main/java/org/codelibs/fess/webapp/vectorizer/VectorisingQueryContext.java:64-67 | sets the wrapped session's query builder only; reading through the decorator shows it |
| `Contexts.VectorisingQueryContext.SetDefaultField` | src/main/java/org/codelibs/fess/webapp/vectorizer/VectorisingQueryContext.java:129-132 | sets the wrapped session's default field only; `GetDefaultField` then answers it |
| `Contexts.VectorisingQueryContext.SkipRoleQuery` | src/main/java/org/codelibs/fess/webapp/vectorizer/VectorisingQueryContext.java:119-122 | turns off the wrapped session's role query only; `RoleQueryEnabled` then answers false |
| `Contexts.VectorisingQueryContext.AddFieldLog` | src/main/java/org/codelibs/fess/webapp/vectorizer/VectorisingQueryContext.java:94-97 | appends (field, text) to the wrapped session's field log only |
| `Contexts.VectorisingQueryContext.AddHighlightedQuery` | src/main/java/org/codelibs/fess/webapp/vectorizer/VectorisingQueryContext.java:104-107 | appends the text to the wrapped session's highlighted queries only |
| `Contexts.VectorisingQueryContext.AddQuery` | src/main/java/org/codelibs/fess/webapp/vectorizer/VectorisingQueryContext.java:59-62 | hands the bool-query callback to the wrapped session only |
| `Contexts.VectorisingQueryContext.AddFunctionScore` | src/main/java/org/codelibs/fess/webapp/vectorizer/VectorisingQueryContext.java:54-57 | hands the function-score callback to the wrapped session only |
| `Contexts.DecoratorNotSelfEqual` | src/main/java/org/codelibs/fess/webapp/vectorizer/VectorisingQueryContext.java:69-72 | because equality is delegated, a decorator is never equal to itself |
| `Contexts.VectorisingQueryContext.GetScripts` | src/main/java/org/codelibs/fess/webapp/vectorizer/VectorisingQueryContext.java:43-45 | answers the decorator's own slot, never the wrapped context's; with `SetScripts`, the last value set on this decorator |
| `Contexts.NestedDecoratorsHoldIndependentScripts` | src/main/java/org/codelibs/fess/webapp/vectorizer/VectorisingQueryContext.java:30-45 | over a new session, a decorator wrapping a decorator has its own slot: each answers the last value set on it, not the other's, and the session still answers its own query string and default field |
| `TermCommand.FirstSupported` | src/main/java/org/codelibs/fess/webapp/vectorizer/VectorisingTermQueryCommand.java:91 | no language is chosen exactly when none is supported; a chosen language is supported and configured |
| `TermCommand.FirstSupportedIsFirst` | src/main/java/org/codelibs/fess/webapp/vectorizer/VectorisingTermQueryCommand.java:91 | a supported language with only unsupported ones before it, in configured order, is the one chosen |
| `TermCommand.FirstSupportedHasNoSupportedPredecessor` | src/main/java/org/codelibs/fess/webapp/vectorizer/VectorisingTermQueryCommand.java:91 | the chosen language sits at a position preceded only by unsupported languages |
| `TermCommand.RequestMap` | src/main/java/org/codelibs/fess/webapp/vectorizer/VectorisingTermQueryCommand.java:113-117 | the request holds "lang", and every requested field mapped to the text |
| `TermCommand.RequestMapContents` | src/main/java/org/codelibs/fess/webapp/vectorizer/VectorisingTermQueryCommand.java:113-117 | the request holds "lang" and each requested field and nothing else; each field maps to the text, "lang" to the language unless a field named "lang" overwrote it |
| `TermCommand.ContentRequest` | src/main/java/org/codelibs/fess/webapp/vectorizer/VectorisingTermQueryCommand.java:112-117 | for the command's field list ["content"] the request is exactly {"lang": lang, "content": text} |
| `TermCommand.VectorFieldInjective` | src/main/java/org/codelibs/fess/webapp/vectorizer/VectorisingTermQueryCommand.java:125 | for one language and suffix, `<field>_<lang><suffix>` determines the field |
| `TermCommand.KnnScripts` | src/main/java/org/codelibs/fess/webapp/vectorizer/VectorisingTermQueryCommand.java:124-128 | one script per field, in field order: inline, "knn", "knn_score", field `<f>_<lang><suffix>`, the content vector, the space type |
| `TermCommand.KnnScriptsDistinctTargets` | src/main/java/org/codelibs/fess/webapp/vectorizer/VectorisingTermQueryCommand.java:124-128 | distinct requested fields give scripts over distinct vector index fields |
| `TermCommand.ScriptsFor` | src/main/java/org/codelibs/fess/webapp/vectorizer/VectorisingTermQueryCommand.java:118-128 | a null dereference exactly when no vectorizer is set up; otherwise only InvalidQuery can fail (the vectorizer's answer is total, see Left out); a success has one script per field, over `<field>_<lang><suffix>`, the "content" vector the vectorizer answered, and the space type |
| `TermCommand.Convert` | src/main/java/org/codelibs/fess/webapp/vectorizer/VectorisingTermQueryCommand.java:80-110 | a stash is always one script and comes with match_all; a failure stashes nothing; without a stash the result is the host's conversion (of the term's field, or of the default field for "semantic") or one of the command's own three errors; "semantic" on a decorator with languages never ends in the host's conversion |
| `TermCommand.ConvertPassesOtherFieldsThrough` | src/main/java/org/codelibs/fess/webapp/vectorizer/VectorisingTermQueryCommand.java:83-109 | a field other than "semantic" yields exactly the host's conversion of that field, text and boost, its failure or null included, and stashes nothing |
| `TermCommand.ConvertFallsBackToDefaultField` | src/main/java/org/codelibs/fess/webapp/vectorizer/VectorisingTermQueryCommand.java:84-107 | "semantic" without a decorator, or without configured languages, yields exactly the host's conversion on the default field and stashes nothing |
| `TermCommand.ConvertFailsWithoutSupportedLanguage` | src/main/java/org/codelibs/fess/webapp/vectorizer/VectorisingTermQueryCommand.java:90-91 | configured languages with none supported fail with NoSuchElement; there is no lexical fallback |
| `TermCommand.ConvertFailsWithoutVectorizer` | src/main/java/org/codelibs/fess/webapp/vectorizer/VectorisingTermQueryCommand.java:90-91 | configured languages with no vectorizer set up fail with a null dereference |
| `TermCommand.ConvertSemantic` | src/main/java/org/codelibs/fess/webapp/vectorizer/VectorisingTermQueryCommand.java:90-128 | with the first supported language, a missing content vector is InvalidQuery, else match_all and exactly one script over `content_<lang><suffix>` |
| `TermCommand.VectorisingTermQueryCommand.constructor` | src/main/java/org/codelibs/fess/webapp/vectorizer/VectorisingTermQueryCommand.java:51-55 | the suffix defaults to "_vector" and the space type to "cosinesimil"; the command keeps the vectorizer and the host conversion it is given |
| `TermCommand.VectorisingTermQueryCommand.SetFieldSuffix` | src/main/java/org/codelibs/fess/webapp/vectorizer/VectorisingTermQueryCommand.java:131-133 | replaces the field suffix and nothing else |
| `TermCommand.VectorisingTermQueryCommand.SetScriptSpaceType` | src/main/java/org/codelibs/fess/webapp/vectorizer/VectorisingTermQueryCommand.java:135-137 | replaces the space type and nothing else |
| `TermCommand.VectorisingTermQueryCommand.GetScripts` | src/main/java/org/codelibs/fess/webapp/vectorizer/VectorisingTermQueryCommand.java:112-129 | the loop-built request and the answer give exactly ScriptsFor: null dereference without a vectorizer, InvalidQuery without a content vector, else KnnScripts |
| `TermCommand.VectorisingTermQueryCommand.ConvertTermQuery` | src/main/java/org/codelibs/fess/webapp/vectorizer/VectorisingTermQueryCommand.java:80-110 | returns Convert's query; on a decorator, sets its scripts to Convert's stash when there is one and otherwise leaves them |
| `QueryFilter.ScoreFunctions` | src/main/java/org/codelibs/fess/webapp/vectorizer/VectorisingQueryFilter.java:45-48 | one script function per script, same length, i-th over the i-th script |
| `QueryFilter.Rewrite` | src/main/java/org/codelibs/fess/webapp/vectorizer/VectorisingQueryFilter.java:41-55 | null scripts keep the chain's query; only an empty array fails, with an index error; any wrapper built scores the chain's query |
| `QueryFilter.RewriteCases` | src/main/java/org/codelibs/fess/webapp/vectorizer/VectorisingQueryFilter.java:42-55 | null scripts return the chain's query unchanged; one makes script_score over it; several make function_score with one function per script; an empty array fails |
| `QueryFilter.RewriteRoundTrip` | src/main/java/org/codelibs/fess/webapp/vectorizer/VectorisingQueryFilter.java:40-49 | from any wrapper built, the inner query is exactly the chain's query and the scripts read back are exactly the stashed ones |
| `QueryFilter.RunTerms` | src/main/java/org/codelibs/fess/webapp/vectorizer/VectorisingQueryFilter.java:38-40 | a successful run of the chain against one decorator has one clause per term; a failed run fails with the error of some term's conversion; whatever the decorator holds is one script |
| `QueryFilter.RunFailurePersists` | src/main/java/org/codelibs/fess/webapp/vectorizer/VectorisingQueryFilter.java:38-40 | a failed term conversion ends the chain run with that error and the scripts held at that point |
| `QueryFilter.RunHoldsNoStash` | src/main/java/org/codelibs/fess/webapp/vectorizer/VectorisingQueryContext.java:39-41 | after a successful run the decorator holds no scripts exactly when no term stashed any |
| `QueryFilter.RunKeepsLastStash` | src/main/java/org/codelibs/fess/webapp/vectorizer/VectorisingQueryContext.java:39-41 | scripts held after a successful run are exactly the last stashing term's, with no accumulation |
| `QueryFilter.RunWithoutSemanticTerms` | src/main/java/org/codelibs/fess/webapp/vectorizer/VectorisingTermQueryCommand.java:109 | a chain with no "semantic" term stashes nothing, succeeds exactly when the host converts every term, and then its clauses are the host's queries for the terms on their own fields, in order |
| `QueryFilter.ExecuteSpec` | src/main/java/org/codelibs/fess/webapp/vectorizer/VectorisingQueryFilter.java:38-56 | fails exactly when a term conversion fails, and with that conversion's error, so never with the fold's empty-array index error; once scripts were stashed the result is script_score over the chain's query |
| `QueryFilter.ExecuteOutcomes` | src/main/java/org/codelibs/fess/webapp/vectorizer/VectorisingQueryFilter.java:38-56 | the filter returns the chain's failure, the chain's query unchanged, or script_score over it with the one stashed script |
| `QueryFilter.SemanticEnScenario` | src/test/java/org/codelibs/fess/webapp/vectorizer/VectorisingTermQueryCommandTest.java:105-114 | "semantic:aaa" with ["en"] and defaults gives script_score over match_all scoring "content_en_vector" by "cosinesimil" |
| `QueryFilter.TitleScenario` | src/test/java/org/codelibs/fess/webapp/vectorizer/VectorisingTermQueryCommandTest.java:131-133 | "title:aaa", which the host converts to a match-phrase query on "title", gives that query unchanged by the filter |
| `QueryFilter.InvalidSortScenario` | src/test/java/org/codelibs/fess/webapp/vectorizer/VectorisingTermQueryCommandTest.java:154-159 | "sort:xxx", which the host rejects with InvalidQueryException, makes the filter fail with that same error |
| `QueryFilter.Execute` | src/main/java/org/codelibs/fess/webapp/vectorizer/VectorisingQueryFilter.java:38-56 | wraps the context in a fresh decorator, runs the chain once and folds its scripts: the result is ExecuteSpec; the fresh decorator wraps exactly the given context and ends holding the run's scripts; a decorator passed in keeps its scripts |

## Left out

- The host's term conversion (`TermQueryCommand.convertTermQuery`) is not part of this model. It is the oracle `Settings.lexical`, which may fail or return `Absent`. Its side effects on the context (a sort term adds a sort), and the concrete match_phrase, fuzzy, wildcard, term and prefix shapes, are not modelled; `Lexical(field, text, boost)` is one such shape.
- The host's `QueryContext` is not part of this model. It is reduced to the state behind the forwarded operations. Its equality and hash code are taken as Java's identity defaults, and its rendering as fixed per object. The callbacks given to `addQuery` and `addFunctionScore` are recorded, not applied.
- The decorator's own inherited `QueryContext` state, which `super(context.getQueryString(), false)` sets up and the forwarding shadows, is not modelled.
- The rest of the build chain is modelled as the term conversions it performs, in order, plus a `combine` oracle for how it assembles the clauses. Other filters and other query commands are not modelled. Each term carries the boost it is converted at.
- `getQueryLanguages()` is a host call that reads the request. It is a parameter, the same for every term of one build.
- `init` and `getEngineType` are configuration and client setup. The command's constructor takes the vectorizer they would leave (None when the engine is not supported). `DEFAULT_FIELD` is the host's constant, taken as `"_default"`.
- The embedding service's network call is an oracle (`Vectorizer.vectorize`). Vectors are carried as opaque `seq<real>` and never computed with. Float boosts are `real`.
- `TermCommand.ScriptsFor`: the vectorizer's answer is modelled as a total map function, so a failure of the service itself (an I/O error, an unreachable server) is not modelled. Only the missing-vector `InvalidQuery` and the missing-vectorizer null dereference are.
- Script arrays are sequences. The aliasing of the one array that the command creates and the decorator holds is not modelled; nothing writes to that array after it is created.
- `ScriptType`, `Script`, score-function and query builders and their JSON rendering are plain datatypes. Only the inline script type appears.
- `VectorisingQueryFilter.register` and all logging are left out. `register` is global processor wiring and has no behaviour to state.
- `QueryFilter.Execute`: the chain's writes through the decorator into the caller's context (sorts, field logs, highlighted queries, for instance from a `sort:` term) are not modelled, because the chain is modelled as term conversions with no effect on the context. Its empty modifies frame follows from that, not from the source.
