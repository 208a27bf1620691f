/**
 * The rewriting filter: wraps the caller's context in a fresh decorator, runs
 * the rest of the build chain once against it, and folds the scripts the term
 * command stashed there into the query the chain built.
 */
module QueryFilter {
  import opened Queries
  import opened Contexts
  import opened TermCommand

  /** One script function per script, in script order. */
  function ScoreFunctions(scripts: seq<Script>): (fs: seq<ScoreFunction>)
    ensures |fs| == |scripts|
    ensures forall i :: 0 <= i < |scripts| ==> fs[i] == ScriptFunction(scripts[i])
  {
    if scripts == [] then []
    else [ScriptFunction(scripts[0])] + ScoreFunctions(scripts[1..])
  }

  /**
   * Folds the decorator's scripts into the chain's query: no scripts leave it
   * unchanged, more than one make a function-score query, otherwise the first
   * script makes a script-score query (and an empty array has no first).
   */
  function Rewrite(base: Query, scripts: Option<seq<Script>>): (r: Result<Query>)
    ensures scripts.None? ==> r == Success(base)
    ensures r.Failure? <==> scripts == Some([])
    ensures r.Failure? ==> r.error == IndexOutOfBounds
    ensures scripts.Some? && r.Success? ==> Inner(r.value) == base
  {
    match scripts
    case None => Success(base)
    case Some(s) =>
      if |s| > 1 then Success(FunctionScore(base, ScoreFunctions(s)))
      else if |s| == 0 then Failure(IndexOutOfBounds)
      else Success(ScriptScore(base, s[0]))
  }

  /** The query a score wrapper scores; any other query is its own. */
  function Inner(q: Query): Query {
    match q
    case ScriptScore(base, _) => base
    case FunctionScore(base, _) => base
    case _ => q
  }

  /** The scripts a score wrapper scores with; None for any other query. */
  function ScriptsOf(q: Query): Option<seq<Script>> {
    match q
    case ScriptScore(_, s) => Some([s])
    case FunctionScore(_, fs) => Some(seq(|fs|, i requires 0 <= i < |fs| => fs[i].script))
    case _ => None
  }

  /**
   * The cases of the fold: no scripts keep the chain's query; one script is a
   * script-score query over it; several are a function-score query with one
   * script function per script, in order; an empty array fails.
   */
  lemma RewriteCases(base: Query, scripts: Option<seq<Script>>)
    ensures scripts.None? ==> Rewrite(base, scripts) == Success(base)
    ensures scripts.Some? && |scripts.value| == 1 ==> Rewrite(base, scripts) == Success(ScriptScore(base, scripts.value[0]))
    ensures scripts.Some? && |scripts.value| > 1 ==>
      Rewrite(base, scripts).Success? && Rewrite(base, scripts).value.FunctionScore?
      && var fs := Rewrite(base, scripts).value.functions;
         |fs| == |scripts.value| && forall i :: 0 <= i < |fs| ==> fs[i] == ScriptFunction(scripts.value[i])
    ensures scripts == Some([]) ==> Rewrite(base, scripts) == Failure(IndexOutOfBounds)
  {
  }

  /**
   * Nothing is lost in the fold: from any wrapper it builds, the chain's query
   * and exactly the stashed scripts, in order, can be read back.
   */
  lemma RewriteRoundTrip(base: Query, scripts: seq<Script>)
    requires scripts != []
    ensures Rewrite(base, Some(scripts)).Success?
    ensures Inner(Rewrite(base, Some(scripts)).value) == base
    ensures ScriptsOf(Rewrite(base, Some(scripts)).value) == Some(scripts)
  {
    if |scripts| > 1 {
      var fs := ScoreFunctions(scripts);
      assert seq(|fs|, i requires 0 <= i < |fs| => fs[i].script) == scripts;
    } else {
      assert [scripts[0]] == scripts;
    }
  }

  /** One term of the query the chain converts, with the boost it is converted at. */
  datatype Term = Term(field: string, text: string, boost: real)

  /**
   * The rest of the build chain: the term conversions it performs, in order,
   * and how it assembles the converted clauses into one query.
   */
  datatype Chain = Chain(terms: seq<Term>, combine: seq<Query> -> Query)

  /** The state of a chain run: the clauses so far (or the failure that ended it) and the decorator's scripts. */
  datatype Run = Run(clauses: Result<seq<Query>>, scripts: Option<seq<Script>>)

  /** The scripts converting term `t` on a decorator stashes. */
  function Stash(s: Settings, languages: Option<seq<string>>, t: Term): Option<seq<Script>> {
    Convert(s, true, languages, t.field, t.text, t.boost).stash
  }

  /**
   * Running the terms in order against one fresh decorator; the first failure
   * ends the run. A successful run has one clause per term; a failed one
   * fails with some term's conversion error; and whatever the decorator holds
   * is one script.
   */
  function RunTerms(s: Settings, languages: Option<seq<string>>, terms: seq<Term>): (run: Run)
    ensures run.clauses.Success? ==> |run.clauses.value| == |terms|
    ensures run.clauses.Failure? ==>
      exists i :: 0 <= i < |terms| && Convert(s, true, languages, terms[i].field, terms[i].text, terms[i].boost).query
                                      == Failure(run.clauses.error)
    ensures run.scripts.Some? ==> |run.scripts.value| == 1
    decreases |terms|
  {
    if terms == [] then Run(Success([]), None)
    else
      var prev := RunTerms(s, languages, terms[..|terms| - 1]);
      if prev.clauses.Failure? then prev
      else
        var t := terms[|terms| - 1];
        var o := Convert(s, true, languages, t.field, t.text, t.boost);
        match o.query
        case Failure(e) => Run(Failure(e), prev.scripts)
        case Success(q) => Run(Success(prev.clauses.value + [q]), if o.stash.Some? then o.stash else prev.scripts)
  }

  /**
   * What the filter returns for a chain, as a value. It fails exactly when a
   * term conversion fails, and then with that conversion's error (so the
   * fold never fails on its own), and once scripts were stashed the result
   * is a script-score query over the chain's.
   */
  function ExecuteSpec(s: Settings, languages: Option<seq<string>>, chain: Chain): (r: Result<Query>)
    ensures var run := RunTerms(s, languages, chain.terms);
      (r.Failure? <==> run.clauses.Failure?)
      && (r.Failure? ==> r.error == run.clauses.error)
      && (r.Success? && run.scripts.Some? ==> r.value.ScriptScore? && r.value.base == chain.combine(run.clauses.value))
  {
    var run := RunTerms(s, languages, chain.terms);
    match run.clauses
    case Failure(e) => Failure(e)
    case Success(clauses) => Rewrite(chain.combine(clauses), run.scripts)
  }

  /** Once a prefix of the terms fails, the whole run ends there: that error, and the scripts held then. */
  lemma {:induction false} RunFailurePersists(s: Settings, languages: Option<seq<string>>, terms: seq<Term>, i: nat)
    requires i <= |terms| && RunTerms(s, languages, terms[..i]).clauses.Failure?
    ensures RunTerms(s, languages, terms) == RunTerms(s, languages, terms[..i])
    decreases |terms| - i
  {
    if i == |terms| {
      assert terms[..i] == terms;
    } else {
      var init := terms[..|terms| - 1];
      assert init[..i] == terms[..i];
      RunFailurePersists(s, languages, init, i);
    }
  }

  /** One successful step of a run: the prefix succeeded, and the last term's stash, if any, replaces the held scripts. */
  lemma RunStep(s: Settings, languages: Option<seq<string>>, terms: seq<Term>)
    requires terms != [] && RunTerms(s, languages, terms).clauses.Success?
    ensures var prev := RunTerms(s, languages, terms[..|terms| - 1]);
      var stash := Stash(s, languages, terms[|terms| - 1]);
      prev.clauses.Success?
      && RunTerms(s, languages, terms).scripts == if stash.Some? then stash else prev.scripts
  {
  }

  /** After a successful run the decorator holds no scripts exactly when no term stashed any. */
  lemma {:induction false} RunHoldsNoStash(s: Settings, languages: Option<seq<string>>, terms: seq<Term>)
    requires RunTerms(s, languages, terms).clauses.Success?
    ensures RunTerms(s, languages, terms).scripts.None?
        <==> forall i :: 0 <= i < |terms| ==> Stash(s, languages, terms[i]).None?
    decreases |terms|
  {
    if terms != [] {
      var n := |terms| - 1;
      RunStep(s, languages, terms);
      RunHoldsNoStash(s, languages, terms[..n]);
      assert forall i :: 0 <= i < n ==> terms[..n][i] == terms[i];
    }
  }

  /**
   * Last write wins: after a successful run that left scripts on the
   * decorator, they are exactly what the last stashing term stashed, with
   * nothing accumulated from earlier ones.
   */
  lemma {:induction false} RunKeepsLastStash(s: Settings, languages: Option<seq<string>>, terms: seq<Term>)
    requires RunTerms(s, languages, terms).clauses.Success?
    requires RunTerms(s, languages, terms).scripts.Some?
    ensures exists i :: 0 <= i < |terms| && Stash(s, languages, terms[i]) == RunTerms(s, languages, terms).scripts
                        && forall j :: i < j < |terms| ==> Stash(s, languages, terms[j]).None?
    decreases |terms|
  {
    var n := |terms| - 1;
    var init := terms[..n];
    RunStep(s, languages, terms);
    var held := RunTerms(s, languages, terms).scripts;
    if Stash(s, languages, terms[n]).Some? {
      assert Stash(s, languages, terms[n]) == held;
    } else {
      RunKeepsLastStash(s, languages, init);
      var k :| 0 <= k < n && Stash(s, languages, init[k]) == held
               && forall j :: k < j < n ==> Stash(s, languages, init[j]).None?;
      forall j | k < j < |terms| ensures Stash(s, languages, terms[j]).None? {
        if j < n { assert init[j] == terms[j]; }
      }
      assert init[k] == terms[k];
    }
  }

  /**
   * A chain with no "semantic" term stashes nothing and is the host's
   * conversion of each term on its own field: it succeeds exactly when every
   * one of those succeeds, with their queries as its clauses, in order.
   */
  lemma {:induction false} RunWithoutSemanticTerms(s: Settings, languages: Option<seq<string>>, terms: seq<Term>)
    requires forall i :: 0 <= i < |terms| ==> terms[i].field != SemanticField
    ensures var run := RunTerms(s, languages, terms);
      run.scripts.None?
      && (run.clauses.Success? <==>
            forall i :: 0 <= i < |terms| ==> s.lexical(terms[i].field, terms[i].text, terms[i].boost).Success?)
      && (run.clauses.Success? ==>
            |run.clauses.value| == |terms|
            && forall i :: 0 <= i < |terms| ==>
                 run.clauses.value[i] == s.lexical(terms[i].field, terms[i].text, terms[i].boost).value)
    decreases |terms|
  {
    if terms != [] {
      var n := |terms| - 1;
      RunWithoutSemanticTerms(s, languages, terms[..n]);
      var t := terms[n];
      ConvertPassesOtherFieldsThrough(s, true, languages, t.field, t.text, t.boost);
    }
  }

  /**
   * What the filter can return: the chain's failure; the chain's query
   * unchanged when no scripts were stashed; otherwise a script-score query
   * over it. A function-score query and the empty-array failure never arise,
   * since the command stashes one script at a time.
   */
  lemma ExecuteOutcomes(s: Settings, languages: Option<seq<string>>, chain: Chain)
    ensures var run := RunTerms(s, languages, chain.terms);
      var r := ExecuteSpec(s, languages, chain);
      match run.clauses
      case Failure(e) => r == Failure(e)
      case Success(clauses) =>
        (run.scripts.None? ==> r == Success(chain.combine(clauses)))
        && (run.scripts.Some? ==> |run.scripts.value| == 1
                                  && r == Success(ScriptScore(chain.combine(clauses), run.scripts.value[0])))
  {
  }

  /**
   * A query of "semantic:aaa" with languages ["en"] under the default
   * configuration, when the vectorizer supports "en" and answers a "content"
   * vector: a script-score query over match_all, scoring "content_en_vector"
   * by cosine similarity with that vector.
   */
  lemma SemanticEnScenario(v: Vectorizer, lexical: (string, string, real) -> Result<Query>, combine: seq<Query> -> Query)
    requires v.isSupportedLanguage("en")
    requires ContentField in v.vectorize(map[LangField := "en", ContentField := "aaa"])
    requires combine([MatchAll]) == MatchAll
    ensures var vector := v.vectorize(map[LangField := "en", ContentField := "aaa"])[ContentField];
      ExecuteSpec(Settings(Some(v), DefaultFieldSuffix, DefaultScriptSpaceType, lexical), Some(["en"]),
                  Chain([Term(SemanticField, "aaa", 1.0)], combine))
      == Success(ScriptScore(MatchAll, Script(Inline, "knn", "knn_score",
                                              KnnParams("content_en_vector", vector, "cosinesimil"))))
  {
    var s := Settings(Some(v), DefaultFieldSuffix, DefaultScriptSpaceType, lexical);
    var terms := [Term(SemanticField, "aaa", 1.0)];
    var vector := v.vectorize(map[LangField := "en", ContentField := "aaa"])[ContentField];
    var script := Script(Inline, "knn", "knn_score", KnnParams("content_en_vector", vector, "cosinesimil"));
    ConvertSemantic(v, DefaultFieldSuffix, DefaultScriptSpaceType, lexical, ["en"], 0, "aaa", 1.0);
    assert ContentField + "_" + "en" + DefaultFieldSuffix == "content_en_vector";
    assert Convert(s, true, Some(["en"]), SemanticField, "aaa", 1.0) == Outcome(Success(MatchAll), Some([script]));
    assert terms[..0] == [];
    assert RunTerms(s, Some(["en"]), terms[..0]) == Run(Success([]), None);
    assert [] + [MatchAll] == [MatchAll];
    assert RunTerms(s, Some(["en"]), terms) == Run(Success([MatchAll]), Some([script]));
  }

  /** A query of "title:aaa": the host's match-phrase query on "title", unchanged by the filter. */
  lemma TitleScenario(s: Settings, languages: Option<seq<string>>, combine: seq<Query> -> Query)
    requires s.lexical("title", "aaa", 1.0) == Success(Lexical("title", "aaa", 1.0))
    requires combine([Lexical("title", "aaa", 1.0)]) == Lexical("title", "aaa", 1.0)
    ensures ExecuteSpec(s, languages, Chain([Term("title", "aaa", 1.0)], combine))
         == Success(Lexical("title", "aaa", 1.0))
  {
    var terms := [Term("title", "aaa", 1.0)];
    RunWithoutSemanticTerms(s, languages, terms);
    assert RunTerms(s, languages, terms).clauses.value == [Lexical("title", "aaa", 1.0)];
  }

  /**
   * A query of "sort:xxx", a sort on a field the host does not accept: its
   * conversion fails with an invalid-query error, and so does the filter,
   * with no query built.
   */
  lemma InvalidSortScenario(s: Settings, languages: Option<seq<string>>, combine: seq<Query> -> Query, message: string)
    requires s.lexical("sort", "xxx", 1.0) == Failure(InvalidQuery(message))
    ensures ExecuteSpec(s, languages, Chain([Term("sort", "xxx", 1.0)], combine)) == Failure(InvalidQuery(message))
  {
    var terms := [Term("sort", "xxx", 1.0)];
    assert terms[..0] == [];
  }

  /**
   * The filter: wraps `context` in a fresh decorator `d`, runs the chain once
   * against it, reads `d`'s scripts back and folds them into the chain's
   * query. Scripts land on `d` alone: a decorator the caller passed in keeps
   * the scripts it held.
   */
  method Execute(command: VectorisingTermQueryCommand, context: Ctx, languages: Option<seq<string>>, chain: Chain)
    returns (r: Result<Query>, ghost d: VectorisingQueryContext)
    requires context.Valid()
    ensures r == ExecuteSpec(command.Config(), languages, chain)
    ensures fresh(d) && d.Valid() && d.context == context && d.base == context.Base()
    ensures d.scripts == RunTerms(command.Config(), languages, chain.terms).scripts
    ensures context.Decorated? ==> context.decorator.scripts == old(context.decorator.scripts)
  {
    var decorated := new VectorisingQueryContext(context);
    d := decorated;
    ghost var s := command.Config();
    var clauses: seq<Query> := [];
    var i := 0;
    while i < |chain.terms|
      invariant 0 <= i <= |chain.terms|
      invariant decorated.Valid() && command.Config() == s
      invariant RunTerms(s, languages, chain.terms[..i]) == Run(Success(clauses), decorated.scripts)
    {
      var t := chain.terms[i];
      assert chain.terms[..i + 1][..i] == chain.terms[..i];
      var q := command.ConvertTermQuery(Decorated(decorated), languages, t.boost, t.field, t.text);
      if q.Failure? {
        RunFailurePersists(s, languages, chain.terms, i + 1);
        r := Failure(q.error);
        return;
      }
      clauses := clauses + [q.value];
      i := i + 1;
    }
    assert chain.terms[..i] == chain.terms;
    var base := chain.combine(clauses);
    var scripts := decorated.GetScripts();
    r := Rewrite(base, scripts);
  }
}
