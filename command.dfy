/**
 * The term interception command: per query term, either defer to the host's
 * lexical conversion or negotiate a language, ask the embedding service for a
 * vector and stash k-NN scoring scripts on the decorator.
 */
module TermCommand {
  import opened Queries
  import opened Contexts

  /** The reserved pseudo-field that asks for semantic search. */
  const SemanticField := "semantic"
  /** The one input field the command asks the embedding service for. */
  const ContentField := "content"
  /** The request-map key carrying the language tag. */
  const LangField := "lang"
  /** The host's default search field, used when the semantic query falls back. */
  const DefaultField := "_default"
  const DefaultFieldSuffix := "_vector"
  const DefaultScriptSpaceType := "cosinesimil"
  const VectorMissingMessage := "Failed to get a sentence vector."

  /**
   * The command's configuration: its vectorizer (None when none was set up),
   * suffix and space type, and the host's lexical term conversion it inherits,
   * which may fail or return Absent.
   */
  datatype Settings = Settings(vectorizer: Option<Vectorizer>, fieldSuffix: string, scriptSpaceType: string,
                               lexical: (string, string, real) -> Result<Query>)

  /** The errors the command raises on its own semantic path. */
  predicate CommandError(e: Error) {
    e == NullPointer || e == NoSuchElement || e == InvalidQuery(VectorMissingMessage)
  }

  /** What converting one term does: the query it returns, and the scripts it stashes (None: no stash). */
  datatype Outcome = Outcome(query: Result<Query>, stash: Option<seq<Script>>)

  /** The first language, in configured order, that `supported` accepts. */
  function FirstSupported(langs: seq<string>, supported: string -> bool): (r: Option<string>)
    ensures r.None? <==> forall j :: 0 <= j < |langs| ==> !supported(langs[j])
    ensures r.Some? ==> supported(r.value) && r.value in langs
  {
    if langs == [] then None
    else if supported(langs[0]) then Some(langs[0])
    else FirstSupported(langs[1..], supported)
  }

  /** A supported language with no supported language before it is the one chosen. */
  lemma {:induction false} FirstSupportedIsFirst(langs: seq<string>, supported: string -> bool, i: nat)
    requires i < |langs| && supported(langs[i])
    requires forall j :: 0 <= j < i ==> !supported(langs[j])
    ensures FirstSupported(langs, supported) == Some(langs[i])
  {
    if i > 0 {
      FirstSupportedIsFirst(langs[1..], supported, i - 1);
    }
  }

  /** The chosen language is preceded only by unsupported ones. */
  lemma {:induction false} FirstSupportedHasNoSupportedPredecessor(langs: seq<string>, supported: string -> bool)
    requires FirstSupported(langs, supported).Some?
    ensures exists i :: 0 <= i < |langs| && langs[i] == FirstSupported(langs, supported).value
                        && forall j :: 0 <= j < i ==> !supported(langs[j])
  {
    if !supported(langs[0]) {
      FirstSupportedHasNoSupportedPredecessor(langs[1..], supported);
      var k :| 0 <= k < |langs[1..]| && langs[1..][k] == FirstSupported(langs[1..], supported).value
               && forall j :: 0 <= j < k ==> !supported(langs[1..][j]);
      assert langs[k + 1] == FirstSupported(langs, supported).value;
      assert forall j :: 0 <= j < k + 1 ==> !supported(langs[j]) by {
        forall j | 0 <= j < k + 1 ensures !supported(langs[j]) {
          if j > 0 { assert langs[j] == langs[1..][j - 1]; }
        }
      }
    } else {
      assert langs[0] == FirstSupported(langs, supported).value;
    }
  }

  /** The request map as the code fills it: the language tag first, then each field's text in field order. */
  function RequestMap(lang: string, fields: seq<string>, text: string): (m: map<string, string>)
    ensures LangField in m
    ensures forall f :: f in fields ==> f in m && m[f] == text
    decreases |fields|
  {
    if fields == [] then map[LangField := lang]
    else RequestMap(lang, fields[..|fields| - 1], text)[fields[|fields| - 1] := text]
  }

  /**
   * The request map holds "lang" and every requested field and nothing else;
   * each field maps to the text, and "lang" to the language tag unless a field
   * of that name overwrote it.
   */
  lemma {:induction false} RequestMapContents(lang: string, fields: seq<string>, text: string)
    ensures RequestMap(lang, fields, text).Keys == {LangField} + (set f | f in fields)
    ensures forall f :: f in fields ==> RequestMap(lang, fields, text)[f] == text
    ensures LangField !in fields ==> RequestMap(lang, fields, text)[LangField] == lang
    decreases |fields|
  {
    if fields != [] {
      var init := fields[..|fields| - 1];
      RequestMapContents(lang, init, text);
      assert fields == init + [fields[|fields| - 1]];
      assert forall f :: f in fields <==> f in init || f == fields[|fields| - 1];
    }
  }

  /** The command's own request: exactly the language tag and the text under "content". */
  lemma ContentRequest(lang: string, text: string)
    ensures RequestMap(lang, [ContentField], text) == map[LangField := lang, ContentField := text]
  {
  }

  /** The vector index field a script scores against: `<field>_<lang><suffix>`. */
  function VectorField(field: string, lang: string, suffix: string): string {
    field + "_" + lang + suffix
  }

  /** Distinct fields give distinct vector index fields, for one language and suffix. */
  lemma VectorFieldInjective(f1: string, f2: string, lang: string, suffix: string)
    requires VectorField(f1, lang, suffix) == VectorField(f2, lang, suffix)
    ensures f1 == f2
  {
    var tail := "_" + lang + suffix;
    assert VectorField(f1, lang, suffix) == f1 + tail;
    assert VectorField(f2, lang, suffix) == f2 + tail;
    assert (f1 + tail)[..|f1|] == f1;
    assert (f2 + tail)[..|f2|] == f2;
  }

  /** One inline k-NN script: language "knn", id "knn_score", scoring `field`'s vector index. */
  function KnnScript(field: string, lang: string, suffix: string, vector: Vector, spaceType: string): Script {
    Script(Inline, "knn", "knn_score", KnnParams(VectorField(field, lang, suffix), vector, spaceType))
  }

  /** One script per field, in field order, all carrying the same vector. */
  function KnnScripts(fields: seq<string>, lang: string, suffix: string, vector: Vector, spaceType: string)
    : (r: seq<Script>)
    ensures |r| == |fields|
    ensures forall i :: 0 <= i < |fields| ==> r[i] == KnnScript(fields[i], lang, suffix, vector, spaceType)
  {
    if fields == [] then []
    else [KnnScript(fields[0], lang, suffix, vector, spaceType)] + KnnScripts(fields[1..], lang, suffix, vector, spaceType)
  }

  /** Scripts for distinct fields score distinct vector index fields. */
  lemma KnnScriptsDistinctTargets(fields: seq<string>, lang: string, suffix: string, vector: Vector, spaceType: string)
    requires forall i, j :: 0 <= i < j < |fields| ==> fields[i] != fields[j]
    ensures var r := KnnScripts(fields, lang, suffix, vector, spaceType);
      forall i, j :: 0 <= i < j < |r| ==> r[i].params.field != r[j].params.field
  {
    var r := KnnScripts(fields, lang, suffix, vector, spaceType);
    forall i, j | 0 <= i < j < |r| ensures r[i].params.field != r[j].params.field {
      if r[i].params.field == r[j].params.field {
        VectorFieldInjective(fields[i], fields[j], lang, suffix);
      }
    }
  }

  /**
   * What fetching scripts yields: no vectorizer is a null dereference; an
   * answer without a "content" vector is an invalid query; otherwise one
   * script per requested field over the "content" vector.
   */
  function ScriptsFor(s: Settings, lang: string, fields: seq<string>, text: string): (r: Result<seq<Script>>)
    ensures r == Failure(NullPointer) <==> s.vectorizer.None?
    ensures r.Failure? ==> r.error == NullPointer || r.error == InvalidQuery(VectorMissingMessage)
    ensures r.Success? ==>
      var output := s.vectorizer.value.vectorize(RequestMap(lang, fields, text));
      ContentField in output && |r.value| == |fields|
      && forall i :: 0 <= i < |fields| ==>
           r.value[i].params.field == VectorField(fields[i], lang, s.fieldSuffix)
           && r.value[i].params.queryValue == output[ContentField]
           && r.value[i].params.spaceType == s.scriptSpaceType
  {
    if s.vectorizer.None? then Failure(NullPointer)
    else
      var output := s.vectorizer.value.vectorize(RequestMap(lang, fields, text));
      if ContentField !in output then Failure(InvalidQuery(VectorMissingMessage))
      else Success(KnnScripts(fields, lang, s.fieldSuffix, output[ContentField], s.scriptSpaceType))
  }

  /**
   * Converting one term, as a value: the returned query and the scripts
   * stashed on the decorator. A stash is exactly one script and comes with
   * match_all; a failure stashes nothing. Without a stash the result is the
   * host's conversion (of the term's own field, or of the default field for
   * "semantic") or one of the command's own errors; and "semantic" on a
   * decorator with languages configured never ends in the host's conversion.
   */
  function Convert(s: Settings, decorated: bool, languages: Option<seq<string>>,
                   field: string, text: string, boost: real): (o: Outcome)
    ensures o.stash.Some? ==> o.query == Success(MatchAll) && |o.stash.value| == 1
    ensures o.query.Failure? ==> o.stash.None?
    ensures o.stash.None? ==>
      o.query == s.lexical(if field == SemanticField then DefaultField else field, text, boost)
      || (o.query.Failure? && CommandError(o.query.error))
    ensures field == SemanticField && decorated && languages.Some? ==>
      o.stash.Some? || (o.query.Failure? && CommandError(o.query.error))
  {
    if field != SemanticField then Outcome(s.lexical(field, text, boost), None)
    else if !decorated then Outcome(s.lexical(DefaultField, text, boost), None)
    else match languages
      case None => Outcome(s.lexical(DefaultField, text, boost), None)
      case Some(langs) =>
        if s.vectorizer.None? then Outcome(Failure(NullPointer), None)
        else match FirstSupported(langs, s.vectorizer.value.isSupportedLanguage)
          case None => Outcome(Failure(NoSuchElement), None)
          case Some(lang) =>
            match ScriptsFor(s, lang, [ContentField], text)
            case Failure(e) => Outcome(Failure(e), None)
            case Success(scripts) =>
              if |scripts| > 0 then Outcome(Success(MatchAll), Some(scripts))
              else Outcome(s.lexical(DefaultField, text, boost), None)
  }

  /** Any field but "semantic" is the host's conversion of that very field, failure included, and stashes nothing. */
  lemma ConvertPassesOtherFieldsThrough(s: Settings, decorated: bool, languages: Option<seq<string>>,
                                        field: string, text: string, boost: real)
    requires field != SemanticField
    ensures Convert(s, decorated, languages, field, text, boost) == Outcome(s.lexical(field, text, boost), None)
  {
  }

  /** "semantic" without a decorator, or with no configured languages, is the host's conversion on the default field. */
  lemma ConvertFallsBackToDefaultField(s: Settings, decorated: bool, languages: Option<seq<string>>,
                                       text: string, boost: real)
    requires !decorated || languages.None?
    ensures Convert(s, decorated, languages, SemanticField, text, boost)
         == Outcome(s.lexical(DefaultField, text, boost), None)
  {
  }

  /** Configured languages with none supported is an error, never a lexical fallback. */
  lemma ConvertFailsWithoutSupportedLanguage(v: Vectorizer, suffix: string, spaceType: string,
                                             lexical: (string, string, real) -> Result<Query>,
                                             langs: seq<string>, text: string, boost: real)
    requires forall j :: 0 <= j < |langs| ==> !v.isSupportedLanguage(langs[j])
    ensures Convert(Settings(Some(v), suffix, spaceType, lexical), true, Some(langs), SemanticField, text, boost)
         == Outcome(Failure(NoSuchElement), None)
  {
  }

  /** Configured languages with no vectorizer set up is a null dereference, never a lexical fallback. */
  lemma ConvertFailsWithoutVectorizer(suffix: string, spaceType: string,
                                      lexical: (string, string, real) -> Result<Query>,
                                      langs: seq<string>, text: string, boost: real)
    ensures Convert(Settings(None, suffix, spaceType, lexical), true, Some(langs), SemanticField, text, boost)
         == Outcome(Failure(NullPointer), None)
  {
  }

  /**
   * The semantic path. With languages configured and `lang` the first one the
   * vectorizer supports, the vectorizer is asked for exactly {"lang": lang,
   * "content": text}; a missing "content" vector is an invalid query, and
   * otherwise the query is match_all and exactly one script, over
   * `content_<lang><suffix>`, is stashed.
   */
  lemma ConvertSemantic(v: Vectorizer, suffix: string, spaceType: string,
                        lexical: (string, string, real) -> Result<Query>,
                        langs: seq<string>, i: nat, text: string, boost: real)
    requires i < |langs| && v.isSupportedLanguage(langs[i])
    requires forall j :: 0 <= j < i ==> !v.isSupportedLanguage(langs[j])
    ensures var output := v.vectorize(map[LangField := langs[i], ContentField := text]);
      Convert(Settings(Some(v), suffix, spaceType, lexical), true, Some(langs), SemanticField, text, boost)
      == if ContentField !in output then Outcome(Failure(InvalidQuery(VectorMissingMessage)), None)
         else Outcome(Success(MatchAll),
                      Some([Script(Inline, "knn", "knn_score",
                                   KnnParams(ContentField + "_" + langs[i] + suffix, output[ContentField], spaceType))]))
  {
    var lang := langs[i];
    FirstSupportedIsFirst(langs, v.isSupportedLanguage, i);
    ContentRequest(lang, text);
    var output := v.vectorize(map[LangField := lang, ContentField := text]);
    if ContentField in output {
      var scripts := KnnScripts([ContentField], lang, suffix, output[ContentField], spaceType);
      assert scripts == [KnnScript(ContentField, lang, suffix, output[ContentField], spaceType)];
    }
  }

  /** The term command: its configuration, and the conversion that may stash scripts on a decorator. */
  class VectorisingTermQueryCommand {
    var vectorizer: Option<Vectorizer>
    var fieldSuffix: string
    var scriptSpaceType: string
    /** The host's term conversion the command inherits and defers to. */
    const lexical: (string, string, real) -> Result<Query>

    /**
     * A command in the state its initialisation left it: with or without a
     * vectorizer, default naming, over the host's conversion.
     */
    constructor (vectorizer: Option<Vectorizer>, lexical: (string, string, real) -> Result<Query>)
      ensures this.vectorizer == vectorizer && this.lexical == lexical
      ensures fieldSuffix == DefaultFieldSuffix && scriptSpaceType == DefaultScriptSpaceType
    {
      this.vectorizer := vectorizer;
      this.lexical := lexical;
      fieldSuffix := DefaultFieldSuffix;
      scriptSpaceType := DefaultScriptSpaceType;
    }

    function Config(): Settings
      reads this
    {
      Settings(vectorizer, fieldSuffix, scriptSpaceType, lexical)
    }

    method SetFieldSuffix(fieldSuffix: string)
      modifies this`fieldSuffix
      ensures this.fieldSuffix == fieldSuffix
    {
      this.fieldSuffix := fieldSuffix;
    }

    method SetScriptSpaceType(scriptSpaceType: string)
      modifies this`scriptSpaceType
      ensures this.scriptSpaceType == scriptSpaceType
    {
      this.scriptSpaceType := scriptSpaceType;
    }

    /** Fills the request map field by field, asks the vectorizer, and builds one script per field. */
    method GetScripts(lang: string, fields: seq<string>, text: string) returns (r: Result<seq<Script>>)
      ensures r == ScriptsFor(Config(), lang, fields, text)
    {
      var params := map[LangField := lang];
      for i := 0 to |fields|
        invariant params == RequestMap(lang, fields[..i], text)
      {
        assert fields[..i + 1][..i] == fields[..i];
        params := params[fields[i] := text];
      }
      assert fields[..|fields|] == fields;
      if vectorizer.None? {
        return Failure(NullPointer);
      }
      var output := vectorizer.value.vectorize(params);
      if ContentField !in output {
        return Failure(InvalidQuery(VectorMissingMessage));
      }
      var vector := output[ContentField];
      r := Success(KnnScripts(fields, lang, fieldSuffix, vector, scriptSpaceType));
    }

    /**
     * Converts one term against `context`. The result is Convert's query; on a
     * decorator, its scripts become Convert's stash when there is one and are
     * otherwise left as they were.
     */
    method ConvertTermQuery(context: Ctx, languages: Option<seq<string>>, boost: real, field: string, text: string)
      returns (r: Result<Query>)
      requires context.Valid()
      modifies if context.Decorated? then {context.decorator} else {}
      ensures var o := Convert(Config(), context.Decorated?, languages, field, text, boost);
        r == o.query
        && (context.Decorated? ==>
              context.decorator.scripts == if o.stash.Some? then o.stash else old(context.decorator.scripts))
    {
      if field != SemanticField {
        return lexical(field, text, boost);
      }
      if !context.Decorated? {
        return lexical(DefaultField, text, boost);
      }
      var decorator := context.decorator;
      match languages {
        case None =>
          return lexical(DefaultField, text, boost);
        case Some(langs) =>
          if vectorizer.None? {
            return Failure(NullPointer);
          }
          var lang := FirstSupported(langs, vectorizer.value.isSupportedLanguage);
          if lang.None? {
            return Failure(NoSuchElement);
          }
          var scripts := GetScripts(lang.value, [ContentField], text);
          if scripts.Failure? {
            return Failure(scripts.error);
          }
          if |scripts.value| > 0 {
            decorator.SetScripts(Some(scripts.value));
            return Success(MatchAll);
          }
          return lexical(DefaultField, text, boost);
      }
    }
  }
}
