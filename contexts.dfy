/**
 * The query-build session and the decorator that lets the term command hand
 * scoring scripts back to the filter without widening the session's interface.
 */
module Contexts {
  import opened Queries

  /**
   * The host's query-build session, reduced to the state behind the operations
   * the decorator forwards. Each write changes exactly the state its name
   * describes; equality, hash code and rendering are those of the object
   * itself.
   */
  class QueryContext {
    var queryString: string
    var defaultField: string
    var sorts: seq<SortSpec>
    var queryBuilder: Option<Query>
    var roleQueryEnabled: bool
    var defaultKeywords: seq<string>
    var highlightedQueries: seq<string>
    var fieldLogs: seq<(string, string)>
    var queryEdits: seq<Consumer>
    var functionScoreEdits: seq<Consumer>
    const hash: int
    const rendering: string

    constructor (queryString: string, defaultField: string, defaultKeywords: seq<string>,
                 hash: int, rendering: string)
      ensures this.queryString == queryString && this.defaultField == defaultField
      ensures this.defaultKeywords == defaultKeywords
      ensures this.hash == hash && this.rendering == rendering
      ensures sorts == [] && queryBuilder == None && roleQueryEnabled
      ensures highlightedQueries == [] && fieldLogs == []
      ensures queryEdits == [] && functionScoreEdits == []
    {
      this.queryString := queryString;
      this.defaultField := defaultField;
      this.defaultKeywords := defaultKeywords;
      this.hash := hash;
      this.rendering := rendering;
      sorts := [];
      queryBuilder := None;
      roleQueryEnabled := true;
      highlightedQueries := [];
      fieldLogs := [];
      queryEdits := [];
      functionScoreEdits := [];
    }
  }

  /**
   * A context handed along the chain: either a plain session or a decorator.
   * Telling the two apart is the term command's `instanceof` test.
   */
  datatype Ctx = Plain(plain: QueryContext) | Decorated(decorator: VectorisingQueryContext)
  {
    ghost predicate Valid() {
      Decorated? ==> decorator.Valid()
    }

    /** The plain session that every forwarded operation ends up at. */
    ghost function Base(): QueryContext
      requires Valid()
    {
      if Plain? then plain else decorator.base
    }
  }

  /**
   * The decorator: wraps one context by reference, holds its own nullable
   * script array (None is null), and forwards every other operation to the
   * wrapped context. A decorator may wrap another decorator; `base` is the
   * plain session at the end of that chain and `depth` its length.
   */
  class VectorisingQueryContext {
    const context: Ctx
    var scripts: Option<seq<Script>>
    ghost const depth: nat
    ghost const base: QueryContext

    /** The wrapped chain is finite and ends at `base`; it holds for life as it reads only constants. */
    ghost predicate Valid()
      decreases depth
    {
      match context
      case Plain(c) => base == c
      case Decorated(d) => d.depth < depth && d.base == base && d.Valid()
    }

    /** A fresh decorator wraps the given context and holds no scripts. */
    constructor (context: Ctx)
      requires context.Valid()
      ensures Valid() && this.context == context && base == context.Base()
      ensures scripts == None
    {
      this.context := context;
      depth := if context.Decorated? then context.decorator.depth + 1 else 0;
      base := context.Base();
      scripts := None;
    }

    /** Replaces the held scripts; nothing else, and nothing in the wrapped context, changes. */
    method SetScripts(scripts: Option<seq<Script>>)
      modifies this`scripts
      ensures this.scripts == scripts
    {
      this.scripts := scripts;
    }

    /** Answers this decorator's own slot, never anything of the wrapped context. */
    function GetScripts(): (r: Option<seq<Script>>)
      reads this
      ensures r == scripts
    {
      scripts
    }

    // Forwarded reads: each answers what the wrapped session currently holds.

    function HashCode(): (r: int)
      requires Valid()
      ensures r == base.hash
      decreases depth
    {
      match context
      case Plain(c) => c.hash
      case Decorated(d) => d.HashCode()
    }

    function ToString(): (r: string)
      requires Valid()
      ensures r == base.rendering
      decreases depth
    {
      match context
      case Plain(c) => c.rendering
      case Decorated(d) => d.ToString()
    }

    /** Equality is the wrapped session's identity equality, so a decorator is not equal to itself. */
    function Equals(obj: object): (r: bool)
      requires Valid()
      ensures r <==> obj == base
      decreases depth
    {
      match context
      case Plain(c) => obj == c
      case Decorated(d) => d.Equals(obj)
    }

    function GetQueryString(): (r: string)
      requires Valid()
      reads base
      ensures r == base.queryString
      decreases depth
    {
      match context
      case Plain(c) => c.queryString
      case Decorated(d) => d.GetQueryString()
    }

    function GetDefaultField(): (r: string)
      requires Valid()
      reads base
      ensures r == base.defaultField
      decreases depth
    {
      match context
      case Plain(c) => c.defaultField
      case Decorated(d) => d.GetDefaultField()
    }

    function HasSorts(): (r: bool)
      requires Valid()
      reads base
      ensures r <==> base.sorts != []
      decreases depth
    {
      match context
      case Plain(c) => c.sorts != []
      case Decorated(d) => d.HasSorts()
    }

    function SortBuilders(): (r: seq<SortSpec>)
      requires Valid()
      reads base
      ensures r == base.sorts
      decreases depth
    {
      match context
      case Plain(c) => c.sorts
      case Decorated(d) => d.SortBuilders()
    }

    function GetQueryBuilder(): (r: Option<Query>)
      requires Valid()
      reads base
      ensures r == base.queryBuilder
      decreases depth
    {
      match context
      case Plain(c) => c.queryBuilder
      case Decorated(d) => d.GetQueryBuilder()
    }

    function RoleQueryEnabled(): (r: bool)
      requires Valid()
      reads base
      ensures r == base.roleQueryEnabled
      decreases depth
    {
      match context
      case Plain(c) => c.roleQueryEnabled
      case Decorated(d) => d.RoleQueryEnabled()
    }

    function GetDefaultKeyword(): (r: seq<string>)
      requires Valid()
      reads base
      ensures r == base.defaultKeywords
      decreases depth
    {
      match context
      case Plain(c) => c.defaultKeywords
      case Decorated(d) => d.GetDefaultKeyword()
    }

    // Forwarded writes: each changes one part of the wrapped session and
    // nothing of this decorator; the matching read shows the write.

    method AddSorts(sorts: seq<SortSpec>)
      requires Valid()
      modifies base`sorts
      ensures base.sorts == old(base.sorts) + sorts
      ensures SortBuilders() == old(SortBuilders()) + sorts
      ensures HasSorts() <==> old(HasSorts()) || sorts != []
      decreases depth
    {
      match context
      case Plain(c) => c.sorts := c.sorts + sorts;
      case Decorated(d) => d.AddSorts(sorts);
    }

    method SetQueryBuilder(queryBuilder: Query)
      requires Valid()
      modifies base`queryBuilder
      ensures base.queryBuilder == Some(queryBuilder)
      ensures GetQueryBuilder() == Some(queryBuilder)
      decreases depth
    {
      match context
      case Plain(c) => c.queryBuilder := Some(queryBuilder);
      case Decorated(d) => d.SetQueryBuilder(queryBuilder);
    }

    method SetDefaultField(defaultField: string)
      requires Valid()
      modifies base`defaultField
      ensures base.defaultField == defaultField
      ensures GetDefaultField() == defaultField
      decreases depth
    {
      match context
      case Plain(c) => c.defaultField := defaultField;
      case Decorated(d) => d.SetDefaultField(defaultField);
    }

    method SkipRoleQuery()
      requires Valid()
      modifies base`roleQueryEnabled
      ensures !base.roleQueryEnabled
      ensures !RoleQueryEnabled()
      decreases depth
    {
      match context
      case Plain(c) => c.roleQueryEnabled := false;
      case Decorated(d) => d.SkipRoleQuery();
    }

    method AddFieldLog(field: string, text: string)
      requires Valid()
      modifies base`fieldLogs
      ensures base.fieldLogs == old(base.fieldLogs) + [(field, text)]
      decreases depth
    {
      match context
      case Plain(c) => c.fieldLogs := c.fieldLogs + [(field, text)];
      case Decorated(d) => d.AddFieldLog(field, text);
    }

    method AddHighlightedQuery(text: string)
      requires Valid()
      modifies base`highlightedQueries
      ensures base.highlightedQueries == old(base.highlightedQueries) + [text]
      decreases depth
    {
      match context
      case Plain(c) => c.highlightedQueries := c.highlightedQueries + [text];
      case Decorated(d) => d.AddHighlightedQuery(text);
    }

    method AddQuery(boolQuery: Consumer)
      requires Valid()
      modifies base`queryEdits
      ensures base.queryEdits == old(base.queryEdits) + [boolQuery]
      decreases depth
    {
      match context
      case Plain(c) => c.queryEdits := c.queryEdits + [boolQuery];
      case Decorated(d) => d.AddQuery(boolQuery);
    }

    method AddFunctionScore(functionScoreQuery: Consumer)
      requires Valid()
      modifies base`functionScoreEdits
      ensures base.functionScoreEdits == old(base.functionScoreEdits) + [functionScoreQuery]
      decreases depth
    {
      match context
      case Plain(c) => c.functionScoreEdits := c.functionScoreEdits + [functionScoreQuery];
      case Decorated(d) => d.AddFunctionScore(functionScoreQuery);
    }
  }

  /** A decorator never equals itself: equality is decided by the wrapped session. */
  lemma DecoratorNotSelfEqual(d: VectorisingQueryContext)
    requires d.Valid()
    ensures !d.Equals(d)
  {
  }

  /**
   * Two stacked decorators over a new session hold two independent script
   * slots: setting one leaves the other as it was, each answers the last
   * value set on it, and the session behind both still answers its own query
   * string and default field.
   */
  method NestedDecoratorsHoldIndependentScripts(queryString: string, defaultField: string,
                                                inner: seq<Script>, outer: seq<Script>)
    returns (seenInner: Option<seq<Script>>, seenOuter: Option<seq<Script>>, seenQuery: string, seenField: string)
    ensures seenInner == Some(inner) && seenOuter == Some(outer)
    ensures seenQuery == queryString && seenField == defaultField
  {
    var c := new QueryContext(queryString, defaultField, [], 0, queryString);
    var d1 := new VectorisingQueryContext(Plain(c));
    var d2 := new VectorisingQueryContext(Decorated(d1));
    d1.SetScripts(Some(inner));
    d2.SetScripts(Some([]));
    d2.SetScripts(Some(outer));
    seenInner := d1.GetScripts();
    seenOuter := d2.GetScripts();
    seenQuery := d2.GetQueryString();
    seenField := d2.GetDefaultField();
  }
}
