/**
 * The timeline's query-string builder: data providers (filter clauses with
 * nested AND-clauses) are serialised into a KQL expression, which is then
 * combined with a free-text KQL query and an `@timestamp` range.
 *
 * `escapeQueryValue` and the date parsing of `new Date(value).valueOf()` are
 * opaque here: they are the fields of a `KueryEnv` value passed in.
 */
module TimelineHelpers {
  import opened Wrappers
  import opened Text

  /** `EXISTS_OPERATOR` of the data-provider model. */
  const ExistsOperator: string := ":*"

  /**
   * The text between a provider's match clause and its and-part in the
   * template literal of `buildGlobalQuery`: a line break followed by the
   * indentation of the next source line (8 spaces).
   */
  const TemplateBreak: string := "\n        "

  /** What `buildQueryForAndProvider` puts between two and-clauses. */
  const AndSeparator: string := " and  "

  /** A provider's value: a string or a number. */
  datatype QueryValue = StringValue(s: string) | NumberValue(n: int)

  datatype QueryMatch = QueryMatch(field: string, operator: string, value: QueryValue)

  /** An AND-clause of a data provider (`DataProvidersAnd`). */
  datatype DataProvidersAnd = DataProvidersAnd(enabled: bool, excluded: bool, queryMatch: QueryMatch)

  /** A data provider: a match clause and the clauses ANDed to it. */
  datatype DataProvider =
    DataProvider(enabled: bool, excluded: bool, queryMatch: QueryMatch, andProviders: seq<DataProvidersAnd>)

  /** The browser-field catalogue: category -> { fields: name -> { type } }. */
  datatype BrowserField = BrowserField(fieldType: string)
  datatype BrowserCategory = BrowserCategory(fields: Option<map<string, BrowserField>>)
  type BrowserFields = map<string, BrowserCategory>

  /** The outcome of `new Date(value).valueOf()`: epoch milliseconds, or NaN for an invalid date. */
  datatype DateValue = EpochMs(ms: int) | InvalidDate

  /** The functions the builder calls but that are not modelled. */
  datatype KueryEnv = KueryEnv(escapeQueryValue: string -> string, parseDate: string -> DateValue)

  // ---------------------------------------------------------------- fields

  /** The names of the fields of the `base` category (`getBaseFields`). */
  function BaseFields(browserFields: BrowserFields): set<string> {
    if "base" in browserFields && browserFields["base"].fields.Some?
    then browserFields["base"].fields.value.Keys
    else {}
  }

  /** `field.split('.')[0]`: the text before the first dot. */
  function FirstSegment(field: string): (r: string)
    ensures IsPrefix(r, field)
    ensures forall i :: 0 <= i < |r| ==> r[i] != '.'
    ensures |r| < |field| ==> field[|r|] == '.'
  {
    if field == [] || field[0] == '.' then [] else [field[0]] + FirstSegment(field[1..])
  }

  /** The path `[category, 'fields', field]` under which a field's description is looked up. */
  datatype FieldPath = FieldPath(category: string, field: string)

  function GetBrowserFieldPath(field: string, browserFields: BrowserFields): (r: FieldPath)
    ensures r.field == field
    ensures field in BaseFields(browserFields) ==> r.category == "base"
    ensures field !in BaseFields(browserFields) ==>
      IsPrefix(r.category, field) && (forall i :: 0 <= i < |r.category| ==> r.category[i] != '.') &&
      (|r.category| < |field| ==> field[|r.category|] == '.')
  {
    if field in BaseFields(browserFields) then FieldPath("base", field)
    else FieldPath(FirstSegment(field), field)
  }

  /** lodash `get(path, browserFields)`. */
  function LookupField(browserFields: BrowserFields, path: FieldPath): Option<BrowserField> {
    if path.category in browserFields
       && browserFields[path.category].fields.Some?
       && path.field in browserFields[path.category].fields.value
    then Some(browserFields[path.category].fields.value[path.field])
    else None
  }

  /** True when the catalogue holds `field` under `category` with type `date`. */
  predicate IsDateUnder(browserFields: BrowserFields, category: string, field: string) {
    match LookupField(browserFields, FieldPath(category, field))
    case Some(f) => f.fieldType == "date"
    case None => false
  }

  predicate CheckIfFieldTypeIsDate(field: string, browserFields: BrowserFields) {
    match LookupField(browserFields, GetBrowserFieldPath(field, browserFields))
    case Some(f) => f.fieldType == "date"
    case None => false
  }

  /** A base field's type is read under `base`, any other field's under the text before its first dot. */
  lemma DateTypeLookup(field: string, browserFields: BrowserFields)
    ensures field in BaseFields(browserFields) ==>
      (CheckIfFieldTypeIsDate(field, browserFields) <==> IsDateUnder(browserFields, "base", field))
    ensures field !in BaseFields(browserFields) ==>
      (CheckIfFieldTypeIsDate(field, browserFields) <==> IsDateUnder(browserFields, FirstSegment(field), field))
  {
  }

  // ---------------------------------------------------------------- one match clause

  /** `${isNumber(value) ? value : new Date(value).valueOf()}`. */
  function DateText(value: QueryValue, env: KueryEnv): string {
    match value
    case NumberValue(n) => IntToString(n)
    case StringValue(s) =>
      match env.parseDate(s)
      case EpochMs(ms) => IntToString(ms)
      case InvalidDate => "NaN"
  }

  function ConvertDateFieldToQuery(field: string, value: QueryValue, env: KueryEnv): string {
    field + ": " + DateText(value, env)
  }

  /** `isNumber(value) ? value : escapeQueryValue(value)`. */
  function ValueText(value: QueryValue, env: KueryEnv): string {
    match value
    case NumberValue(n) => IntToString(n)
    case StringValue(s) => env.escapeQueryValue(s)
  }

  /** The part of `buildQueryMatch` after the optional `NOT `, before trimming. */
  function MatchBody(queryMatch: QueryMatch, browserFields: BrowserFields, env: KueryEnv): string {
    if queryMatch.operator != ExistsOperator then
      if CheckIfFieldTypeIsDate(queryMatch.field, browserFields)
      then ConvertDateFieldToQuery(queryMatch.field, queryMatch.value, env)
      else queryMatch.field + " : " + ValueText(queryMatch.value, env)
    else queryMatch.field + " " + ExistsOperator
  }

  /** The body is the field followed by text that starts with `:` or with a space and `:`. */
  lemma MatchBodyShape(queryMatch: QueryMatch, browserFields: BrowserFields, env: KueryEnv)
    returns (tail: string)
    ensures MatchBody(queryMatch, browserFields, env) == queryMatch.field + tail
    ensures |tail| >= 2 && (tail[0] == ':' || (tail[0] == ' ' && tail[1] == ':'))
  {
    var f := queryMatch.field;
    if queryMatch.operator != ExistsOperator {
      if CheckIfFieldTypeIsDate(f, browserFields) {
        tail := ": " + DateText(queryMatch.value, env);
        assert f + ": " + DateText(queryMatch.value, env) == f + tail;
      } else {
        tail := " : " + ValueText(queryMatch.value, env);
        assert f + " : " + ValueText(queryMatch.value, env) == f + tail;
      }
    } else {
      tail := " " + ExistsOperator;
    }
  }

  /** A field followed by the body's tail holds a colon, which is not whitespace. */
  lemma TailHasColon(field: string, tail: string)
    requires |tail| >= 2 && (tail[0] == ':' || (tail[0] == ' ' && tail[1] == ':'))
    ensures HasNonWhitespace(field + tail)
  {
    if tail[0] == ':' {
      assert (field + tail)[|field|] == ':';
    } else {
      assert (field + tail)[|field| + 1] == ':';
    }
  }

  lemma MatchBodyHasNonWhitespace(queryMatch: QueryMatch, browserFields: BrowserFields, env: KueryEnv)
    ensures HasNonWhitespace(MatchBody(queryMatch, browserFields, env))
  {
    var tail := MatchBodyShape(queryMatch, browserFields, env);
    TailHasColon(queryMatch.field, tail);
  }

  /** `buildQueryMatch`: the clause of one provider, with `NOT ` when it is excluded, trimmed. */
  function BuildQueryMatch(excluded: bool, queryMatch: QueryMatch, browserFields: BrowserFields, env: KueryEnv)
    : (r: string)
    ensures r != [] && IsTrimmed(r)
    ensures excluded ==> IsPrefix("NOT ", r) && r == "NOT " + TrimEnd(MatchBody(queryMatch, browserFields, env))
    ensures !excluded ==> r == Trim(MatchBody(queryMatch, browserFields, env))
  {
    var body := MatchBody(queryMatch, browserFields, env);
    MatchBodyHasNonWhitespace(queryMatch, browserFields, env);
    var prefix := if excluded then "NOT " else "";
    TrimAfterPrefix(prefix, body);
    assert prefix + body == body || excluded;
    Trim(prefix + body)
  }

  /** A tail that starts with `:`, or with a space and `:`, trims to text starting with `:`. */
  lemma TailTrimStart(tail: string)
    requires |tail| >= 2 && (tail[0] == ':' || (tail[0] == ' ' && tail[1] == ':'))
    ensures TrimStart(tail) != [] && TrimStart(tail)[0] == ':'
  {
    assert !IsWhitespace(':');
    if tail[0] == ' ' {
      var rest := tail[1..];
      assert rest[0] == ':';
      assert TrimStart(rest) == rest;
      assert TrimStart(tail) == TrimStart(rest);
    } else {
      assert TrimStart(tail) == tail;
    }
  }

  /** Text that does not start with `NOT`, followed by a space or a colon, does not start with `NOT `. */
  lemma NotPrefixBlocked(tf: string, tail: string)
    requires tf != [] && !IsPrefix("NOT", tf)
    requires tail != [] && (tail[0] == ':' || tail[0] == ' ')
    ensures !IsPrefix("NOT ", tf + tail)
  {
    var t := tf + tail;
    if |tf| >= 3 {
      assert t[..3] == tf[..3];
    } else if |tf| == 2 {
      assert t[2] == tail[0];
    } else {
      assert t[1] == tail[0];
    }
  }

  /** The tail after a field with visible text: trimming stops inside the field. */
  lemma TailAfterVisibleField(field: string, tail: string)
    requires HasNonWhitespace(field) && !IsPrefix("NOT", TrimStart(field))
    requires |tail| >= 2 && (tail[0] == ':' || (tail[0] == ' ' && tail[1] == ':'))
    ensures !IsPrefix("NOT ", TrimStart(field + tail))
  {
    TrimStartAppend(field, tail);
    TrimIsTrimmed(field);
    var tf := TrimStart(field);
    assert |TrimEnd(tf)| <= |tf|;
    NotPrefixBlocked(tf, tail);
  }

  /** The tail after a blank field: trimming reaches the colon. */
  lemma TailAfterBlankField(field: string, tail: string)
    requires !HasNonWhitespace(field)
    requires |tail| >= 2 && (tail[0] == ':' || (tail[0] == ' ' && tail[1] == ':'))
    ensures !IsPrefix("NOT ", TrimStart(field + tail))
  {
    TrimStartBlankPrefix(field, tail);
    TailTrimStart(tail);
  }

  /** A field that does not start with `NOT`, followed by the body's tail, does not trim to a `NOT ` clause. */
  lemma TailKeepsNotOut(field: string, tail: string)
    requires !IsPrefix("NOT", TrimStart(field))
    requires |tail| >= 2 && (tail[0] == ':' || (tail[0] == ' ' && tail[1] == ':'))
    ensures !IsPrefix("NOT ", Trim(field + tail))
  {
    if HasNonWhitespace(field) {
      TailAfterVisibleField(field, tail);
    } else {
      TailAfterBlankField(field, tail);
    }
    PrefixOfTrimEnd("NOT ", TrimStart(field + tail));
  }

  /**
   * A clause starts with `NOT ` exactly when its provider is excluded, as long
   * as the field name itself does not start with `NOT`.
   */
  lemma MatchStartsWithNotIffExcluded(
    excluded: bool, queryMatch: QueryMatch, browserFields: BrowserFields, env: KueryEnv)
    requires !IsPrefix("NOT", TrimStart(queryMatch.field))
    ensures IsPrefix("NOT ", BuildQueryMatch(excluded, queryMatch, browserFields, env)) <==> excluded
  {
    if !excluded {
      var tail := MatchBodyShape(queryMatch, browserFields, env);
      TailKeepsNotOut(queryMatch.field, tail);
    }
  }

  /** With the exists operator the clause is `field :*`, whatever the value and the field's type. */
  lemma MatchExists(excluded: bool, field: string, value: QueryValue, browserFields: BrowserFields, env: KueryEnv)
    ensures BuildQueryMatch(excluded, QueryMatch(field, ExistsOperator, value), browserFields, env)
         == Trim((if excluded then "NOT " else "") + field + " " + ExistsOperator)
  {
    assert (if excluded then "NOT " else "") + field + " " + ExistsOperator
        == (if excluded then "NOT " else "") + (field + " " + ExistsOperator);
  }

  /** A date-typed field renders as `field: <epoch ms>`; a numeric value is used as it is. */
  lemma MatchDateField(excluded: bool, queryMatch: QueryMatch, browserFields: BrowserFields, env: KueryEnv)
    requires queryMatch.operator != ExistsOperator
    requires CheckIfFieldTypeIsDate(queryMatch.field, browserFields)
    ensures BuildQueryMatch(excluded, queryMatch, browserFields, env)
         == Trim((if excluded then "NOT " else "") + queryMatch.field + ": " + DateText(queryMatch.value, env))
    ensures queryMatch.value.NumberValue? ==> DateText(queryMatch.value, env) == IntToString(queryMatch.value.n)
  {
    assert (if excluded then "NOT " else "") + queryMatch.field + ": " + DateText(queryMatch.value, env)
        == (if excluded then "NOT " else "") + (queryMatch.field + ": " + DateText(queryMatch.value, env));
  }

  /** Any other field renders as `field : v`: numbers verbatim, strings through `escapeQueryValue`. */
  lemma MatchOtherField(excluded: bool, queryMatch: QueryMatch, browserFields: BrowserFields, env: KueryEnv)
    requires queryMatch.operator != ExistsOperator
    requires !CheckIfFieldTypeIsDate(queryMatch.field, browserFields)
    ensures BuildQueryMatch(excluded, queryMatch, browserFields, env)
         == Trim((if excluded then "NOT " else "") + queryMatch.field + " : " + ValueText(queryMatch.value, env))
    ensures queryMatch.value.StringValue? ==>
      ValueText(queryMatch.value, env) == env.escapeQueryValue(queryMatch.value.s)
  {
    assert (if excluded then "NOT " else "") + queryMatch.field + " : " + ValueText(queryMatch.value, env)
        == (if excluded then "NOT " else "") + (queryMatch.field + " : " + ValueText(queryMatch.value, env));
  }

  // ---------------------------------------------------------------- and-clauses

  /** The clause `buildQueryMatch` gives an and-provider. */
  function AndClause(browserFields: BrowserFields, env: KueryEnv): DataProvidersAnd -> string {
    (p: DataProvidersAnd) => BuildQueryMatch(p.excluded, p.queryMatch, browserFields, env)
  }

  /** Every clause is non-empty and trimmed. */
  ghost predicate TrimmedAndClauses(clause: DataProvidersAnd -> string) {
    forall p :: clause(p) != [] && IsTrimmed(clause(p))
  }

  lemma AndClauseTrimmed(browserFields: BrowserFields, env: KueryEnv)
    ensures TrimmedAndClauses(AndClause(browserFields, env))
  {
  }

  function PrependAnd(q: string): string {
    if q != "" then q + " and " else ""
  }

  /** The `reduce` of `buildQueryForAndProvider`, with `clause` giving each provider's `buildQueryMatch`. */
  function AndReduce(andProviders: seq<DataProvidersAnd>, clause: DataProvidersAnd -> string): string
    decreases |andProviders|
  {
    if andProviders == [] then ""
    else
      var n := |andProviders| - 1;
      var andQuery := AndReduce(andProviders[..n], clause);
      if andProviders[n].enabled then PrependAnd(andQuery) + " " + clause(andProviders[n]) else andQuery
  }

  /** The clauses of the enabled and-providers, in input order. */
  function EnabledAndMatches(andProviders: seq<DataProvidersAnd>, clause: DataProvidersAnd -> string)
    : (r: seq<string>)
    ensures |r| <= |andProviders|
    ensures r == [] <==> forall i :: 0 <= i < |andProviders| ==> !andProviders[i].enabled
    decreases |andProviders|
  {
    if andProviders == [] then []
    else
      var n := |andProviders| - 1;
      var ms := EnabledAndMatches(andProviders[..n], clause);
      assert forall i :: 0 <= i < n ==> andProviders[..n][i] == andProviders[i];
      ms + (if andProviders[n].enabled then [clause(andProviders[n])] else [])
  }

  lemma {:induction false} EnabledAndMatchesTrimmed(andProviders: seq<DataProvidersAnd>, clause: DataProvidersAnd -> string)
    requires TrimmedAndClauses(clause)
    ensures AllTrimmedPieces(EnabledAndMatches(andProviders, clause))
    decreases |andProviders|
  {
    if andProviders != [] {
      var n := |andProviders| - 1;
      EnabledAndMatchesTrimmed(andProviders[..n], clause);
      var last := if andProviders[n].enabled then [clause(andProviders[n])] else [];
      AppendTrimmedPieces(EnabledAndMatches(andProviders[..n], clause), last);
    }
  }

  /** One step of the and-`reduce`: appending a clause to the joined text. */
  lemma AndStep(q: string, ms0: seq<string>, m: string)
    requires q == if ms0 == [] then "" else " " + Join(ms0, AndSeparator)
    ensures PrependAnd(q) + " " + m == " " + Join(ms0 + [m], AndSeparator)
  {
    var ms := ms0 + [m];
    assert ms[..|ms| - 1] == ms0;
    if ms0 != [] {
      var j := Join(ms0, AndSeparator);
      assert PrependAnd(q) + " " + m == " " + (j + AndSeparator + m);
    }
  }

  /** The `reduce` puts a space before the first clause and ` and  ` between clauses. */
  lemma {:induction false} AndReduceShape(andProviders: seq<DataProvidersAnd>, clause: DataProvidersAnd -> string)
    ensures var ms := EnabledAndMatches(andProviders, clause);
      AndReduce(andProviders, clause) == if ms == [] then "" else " " + Join(ms, AndSeparator)
    decreases |andProviders|
  {
    if andProviders != [] {
      var n := |andProviders| - 1;
      AndReduceShape(andProviders[..n], clause);
      var ms0 := EnabledAndMatches(andProviders[..n], clause);
      if andProviders[n].enabled {
        AndStep(AndReduce(andProviders[..n], clause), ms0, clause(andProviders[n]));
      } else {
        assert ms0 + [] == ms0;
      }
    }
  }

  /** `buildQueryForAndProvider`: the enabled and-clauses, in order, separated by ` and  `. */
  function BuildQueryForAndProvider(andProviders: seq<DataProvidersAnd>, browserFields: BrowserFields, env: KueryEnv)
    : (r: string)
    ensures r == Join(EnabledAndMatches(andProviders, AndClause(browserFields, env)), AndSeparator)
    ensures r == "" <==> forall i :: 0 <= i < |andProviders| ==> !andProviders[i].enabled
  {
    var clause := AndClause(browserFields, env);
    AndClauseTrimmed(browserFields, env);
    var ms := EnabledAndMatches(andProviders, clause);
    EnabledAndMatchesTrimmed(andProviders, clause);
    AndReduceShape(andProviders, clause);
    JoinTrimmed(ms, AndSeparator);
    var s := AndReduce(andProviders, clause);
    if ms != [] then
      var j := Join(ms, AndSeparator);
      TrimmedIsFixpoint(j);
      assert TrimStart(s) == TrimStart(j) by {
        assert s[1..] == j;
      }
      Trim(s)
    else
      Trim(s)
  }

  /** Appending an and-provider to the list adds its clause when it is enabled. */
  lemma EnabledAndMatchesAppend(andProviders: seq<DataProvidersAnd>, p: DataProvidersAnd, clause: DataProvidersAnd -> string)
    ensures EnabledAndMatches(andProviders + [p], clause)
         == EnabledAndMatches(andProviders, clause) + if p.enabled then [clause(p)] else []
  {
    var ps := andProviders + [p];
    assert ps[..|ps| - 1] == andProviders;
  }

  /** Appending an and-provider: a disabled one changes nothing, an enabled one is added after ` and  `. */
  lemma AndQueryAppend(andProviders: seq<DataProvidersAnd>, p: DataProvidersAnd, browserFields: BrowserFields, env: KueryEnv)
    ensures var q := BuildQueryForAndProvider(andProviders, browserFields, env);
      var m := BuildQueryMatch(p.excluded, p.queryMatch, browserFields, env);
      BuildQueryForAndProvider(andProviders + [p], browserFields, env)
        == if !p.enabled then q else if q == "" then m else q + AndSeparator + m
  {
    var clause := AndClause(browserFields, env);
    var ms0 := EnabledAndMatches(andProviders, clause);
    EnabledAndMatchesAppend(andProviders, p, clause);
    if p.enabled {
      JoinAppend(ms0, clause(p), AndSeparator);
    } else {
      assert ms0 + [] == ms0;
    }
  }

  // ---------------------------------------------------------------- the global query

  function OpenParen(i: nat): string { if i > 0 then "(" else "" }

  function CloseParen(i: nat): string { if i > 0 then ")" else "" }

  function AndPart(p: DataProvider, browserFields: BrowserFields, env: KueryEnv): string {
    if |p.andProviders| > 0 then " and " + BuildQueryForAndProvider(p.andProviders, browserFields, env) else ""
  }

  /** The template literal of `buildGlobalQuery` for the provider at list index `i`, after the `(q) or ` prefix. */
  function ProviderClause(p: DataProvider, i: nat, browserFields: BrowserFields, env: KueryEnv): string {
    OpenParen(i) + BuildQueryMatch(p.excluded, p.queryMatch, browserFields, env) + TemplateBreak
    + AndPart(p, browserFields, env) + CloseParen(i)
  }

  /** A clause opened by `(` or by visible text is trimmed at its end only. */
  lemma ClauseStart(open: string, m: string, a: string, b: string, c: string)
    requires open == "" || open == "("
    requires m != [] && !IsWhitespace(m[0])
    ensures var x := open + m + a + b + c;
      !IsWhitespace(x[0]) && TrimEnd(x) != [] && IsTrimmed(TrimEnd(x)) && Trim(x) == TrimEnd(x)
  {
    var x := open + m + a + b + c;
    assert x[0] == if open == "" then m[0] else '(';
    TrimOfNonBlankStart(x);
  }

  /** A provider's clause starts with `(` or with its match clause, so it does not start with whitespace. */
  lemma ProviderClauseStart(p: DataProvider, i: nat, browserFields: BrowserFields, env: KueryEnv)
    ensures var c := ProviderClause(p, i, browserFields, env);
      c != [] && !IsWhitespace(c[0]) && TrimEnd(c) != [] && IsTrimmed(TrimEnd(c)) && Trim(c) == TrimEnd(c)
  {
    ClauseStart(OpenParen(i), BuildQueryMatch(p.excluded, p.queryMatch, browserFields, env), TemplateBreak,
      AndPart(p, browserFields, env), CloseParen(i));
  }

  /** The clause of the provider at a list index. */
  function GlobalClause(browserFields: BrowserFields, env: KueryEnv): (DataProvider, nat) -> string {
    (p: DataProvider, i: nat) => ProviderClause(p, i, browserFields, env)
  }

  /** Every clause starts with a visible character. */
  ghost predicate VisibleClauses(clause: (DataProvider, nat) -> string) {
    forall p, i :: clause(p, i) != [] && !IsWhitespace(clause(p, i)[0])
  }

  lemma GlobalClauseVisible(browserFields: BrowserFields, env: KueryEnv)
    ensures VisibleClauses(GlobalClause(browserFields, env))
  {
    forall p, i ensures GlobalClause(browserFields, env)(p, i) != [] && !IsWhitespace(GlobalClause(browserFields, env)(p, i)[0]) {
      ProviderClauseStart(p, i, browserFields, env);
    }
  }

  function PrependOr(q: string): string {
    if q != "" then "(" + q + ") or " else ""
  }

  /** The `reduce` of `buildGlobalQuery`, with `clause` giving the template literal of each provider at its index. */
  function GlobalReduce(providers: seq<DataProvider>, clause: (DataProvider, nat) -> string): string
    decreases |providers|
  {
    if providers == [] then ""
    else
      var i := |providers| - 1;
      var query := GlobalReduce(providers[..i], clause);
      if providers[i].enabled then Trim(PrependOr(query) + clause(providers[i], i)) else query
  }

  /** The clause of every enabled provider, trimmed at its end, in list order; each keeps the parentheses of its list index. */
  function EnabledClauses(providers: seq<DataProvider>, clause: (DataProvider, nat) -> string): (r: seq<string>)
    ensures |r| <= |providers|
    ensures r == [] <==> forall k :: 0 <= k < |providers| ==> !providers[k].enabled
    decreases |providers|
  {
    if providers == [] then []
    else
      var i := |providers| - 1;
      var cs := EnabledClauses(providers[..i], clause);
      assert forall k :: 0 <= k < i ==> providers[..i][k] == providers[k];
      cs + (if providers[i].enabled then [TrimEnd(clause(providers[i], i))] else [])
  }

  lemma {:induction false} EnabledClausesTrimmed(providers: seq<DataProvider>, clause: (DataProvider, nat) -> string)
    requires VisibleClauses(clause)
    ensures AllTrimmedPieces(EnabledClauses(providers, clause))
    decreases |providers|
  {
    if providers != [] {
      var i := |providers| - 1;
      EnabledClausesTrimmed(providers[..i], clause);
      var c := clause(providers[i], i);
      TrimOfNonBlankStart(c);
      var last := if providers[i].enabled then [TrimEnd(c)] else [];
      AppendTrimmedPieces(EnabledClauses(providers[..i], clause), last);
    }
  }

  /** `c1`, then `(c1) or c2`, then `((c1) or c2) or c3`, and so on. */
  function Disjunction(clauses: seq<string>): string {
    if clauses == [] then ""
    else if |clauses| == 1 then clauses[0]
    else "(" + Disjunction(clauses[..|clauses| - 1]) + ") or " + clauses[|clauses| - 1]
  }

  lemma {:induction false} DisjunctionTrimmed(clauses: seq<string>)
    requires AllTrimmedPieces(clauses)
    ensures clauses != [] ==> Disjunction(clauses) != [] && IsTrimmed(Disjunction(clauses))
  {
    if |clauses| > 1 {
      var n := |clauses| - 1;
      DisjunctionTrimmed(clauses[..n]);
      var last := clauses[n];
      var d := "(" + Disjunction(clauses[..n]) + ") or " + last;
      assert d[0] == '(' && d[|d| - 1] == last[|last| - 1];
    }
  }

  /** Appending one clause to a disjunction. */
  lemma DisjunctionAppend(clauses: seq<string>, c: string)
    ensures Disjunction(clauses + [c]) == if clauses == [] then c else "(" + Disjunction(clauses) + ") or " + c
  {
    var cs := clauses + [c];
    assert cs[..|cs| - 1] == clauses;
  }

  /** One step of the global `reduce`: the trimmed `(q) or clause` is the disjunction with one more clause. */
  lemma OrStep(q: string, cs0: seq<string>, x: string)
    requires AllTrimmedPieces(cs0) && q == Disjunction(cs0)
    requires x != [] && !IsWhitespace(x[0])
    ensures Trim(PrependOr(q) + x) == Disjunction(cs0 + [TrimEnd(x)])
  {
    DisjunctionTrimmed(cs0);
    DisjunctionAppend(cs0, TrimEnd(x));
    if cs0 == [] {
      assert PrependOr(q) + x == x;
      TrimOfNonBlankStart(x);
    } else {
      var pre := "(" + q + ") or ";
      var s := pre + x;
      assert PrependOr(q) + x == s;
      assert s[0] == '(';
      TrimOfNonBlankStart(s);
      assert HasNonWhitespace(x) by { assert !IsWhitespace(x[0]); }
      TrimEndAppend(pre, x);
    }
  }

  lemma {:induction false} GlobalReduceShape(providers: seq<DataProvider>, clause: (DataProvider, nat) -> string)
    requires VisibleClauses(clause)
    ensures GlobalReduce(providers, clause) == Disjunction(EnabledClauses(providers, clause))
    decreases |providers|
  {
    if providers != [] {
      var i := |providers| - 1;
      GlobalReduceShape(providers[..i], clause);
      var cs0 := EnabledClauses(providers[..i], clause);
      EnabledClausesTrimmed(providers[..i], clause);
      if providers[i].enabled {
        OrStep(GlobalReduce(providers[..i], clause), cs0, clause(providers[i], i));
      } else {
        assert cs0 + [] == cs0;
      }
    }
  }

  /** `buildGlobalQuery`: the enabled providers' clauses as a left-nested disjunction. */
  function BuildGlobalQuery(providers: seq<DataProvider>, browserFields: BrowserFields, env: KueryEnv): (r: string)
    ensures r == Disjunction(EnabledClauses(providers, GlobalClause(browserFields, env)))
    ensures r == "" <==> forall k :: 0 <= k < |providers| ==> !providers[k].enabled
  {
    var clause := GlobalClause(browserFields, env);
    GlobalClauseVisible(browserFields, env);
    GlobalReduceShape(providers, clause);
    EnabledClausesTrimmed(providers, clause);
    DisjunctionTrimmed(EnabledClauses(providers, clause));
    TrimmedIsFixpoint(GlobalReduce(providers, clause));
    Trim(GlobalReduce(providers, clause))
  }

  /** Appending a provider to the list adds its clause, trimmed at its end, when it is enabled. */
  lemma EnabledClausesAppend(providers: seq<DataProvider>, p: DataProvider, clause: (DataProvider, nat) -> string)
    ensures EnabledClauses(providers + [p], clause)
         == EnabledClauses(providers, clause) + if p.enabled then [TrimEnd(clause(p, |providers|))] else []
  {
    var ps := providers + [p];
    assert ps[..|ps| - 1] == providers;
  }

  /**
   * Appending a provider: a disabled one changes nothing; an enabled one is
   * added as `(q) or clause` after a non-empty query, or alone after an empty one.
   */
  lemma GlobalQueryAppend(providers: seq<DataProvider>, p: DataProvider, browserFields: BrowserFields, env: KueryEnv)
    ensures var q := BuildGlobalQuery(providers, browserFields, env);
      var c := TrimEnd(ProviderClause(p, |providers|, browserFields, env));
      BuildGlobalQuery(providers + [p], browserFields, env)
        == if !p.enabled then q else if q == "" then c else "(" + q + ") or " + c
  {
    var clause := GlobalClause(browserFields, env);
    var cs0 := EnabledClauses(providers, clause);
    EnabledClausesAppend(providers, p, clause);
    if p.enabled {
      DisjunctionAppend(cs0, TrimEnd(clause(p, |providers|)));
    } else {
      assert cs0 + [] == cs0;
    }
  }

  /** Disabled providers contribute nothing, whatever they hold; positions still count. */
  lemma {:induction false} EnabledClausesIgnoresDisabled(
    providers: seq<DataProvider>, others: seq<DataProvider>, clause: (DataProvider, nat) -> string)
    requires |providers| == |others|
    requires forall k :: 0 <= k < |providers| ==> providers[k].enabled == others[k].enabled
    requires forall k :: 0 <= k < |providers| && providers[k].enabled ==> providers[k] == others[k]
    ensures EnabledClauses(providers, clause) == EnabledClauses(others, clause)
    decreases |providers|
  {
    if providers != [] {
      var i := |providers| - 1;
      EnabledClausesIgnoresDisabled(providers[..i], others[..i], clause);
    }
  }

  /** The contents of disabled providers do not matter; only the enabled ones and their list positions do. */
  lemma GlobalQueryIgnoresDisabled(
    providers: seq<DataProvider>, others: seq<DataProvider>, browserFields: BrowserFields, env: KueryEnv)
    requires |providers| == |others|
    requires forall k :: 0 <= k < |providers| ==> providers[k].enabled == others[k].enabled
    requires forall k :: 0 <= k < |providers| && providers[k].enabled ==> providers[k] == others[k]
    ensures BuildGlobalQuery(providers, browserFields, env) == BuildGlobalQuery(others, browserFields, env)
  {
    EnabledClausesIgnoresDisabled(providers, others, GlobalClause(browserFields, env));
  }

  /** The template literal of a provider without and-clauses, before trimming. */
  lemma ClauseWithoutAnd(p: DataProvider, i: nat, browserFields: BrowserFields, env: KueryEnv)
    requires p.andProviders == []
    ensures ProviderClause(p, i, browserFields, env)
         == OpenParen(i) + BuildQueryMatch(p.excluded, p.queryMatch, browserFields, env) + TemplateBreak + "" + CloseParen(i)
  {
  }

  /** The line break and indentation of the template are whitespace. */
  lemma TemplateBreakBlank()
    ensures !HasNonWhitespace(TemplateBreak)
  {
    forall k | 0 <= k < |TemplateBreak| ensures IsWhitespace(TemplateBreak[k]) { }
  }

  /** A bare clause loses the template's line break; a parenthesised one keeps it. */
  lemma BareAndWrapped(m: string)
    requires m != [] && IsTrimmed(m)
    ensures TrimEnd("" + m + TemplateBreak + "" + "") == m
    ensures TrimEnd("(" + m + TemplateBreak + "" + ")") == "(" + m + TemplateBreak + ")"
  {
    TemplateBreakBlank();
    assert "" + m + TemplateBreak + "" + "" == m + TemplateBreak;
    TrimEndBlankSuffix(m, TemplateBreak);
    TrimmedIsFixpoint(m);
    var c := "(" + m + TemplateBreak + ")";
    assert "(" + m + TemplateBreak + "" + ")" == c;
    assert c[|c| - 1] == ')';
  }

  /** The only provider of a list of one, without and-clauses, gives its match clause bare. */
  lemma SingleProviderBare(p: DataProvider, browserFields: BrowserFields, env: KueryEnv)
    requires p.enabled && p.andProviders == []
    ensures BuildGlobalQuery([p], browserFields, env) == BuildQueryMatch(p.excluded, p.queryMatch, browserFields, env)
  {
    GlobalQueryAppend([], p, browserFields, env);
    assert [] + [p] == [p];
    ClauseWithoutAnd(p, 0, browserFields, env);
    BareAndWrapped(BuildQueryMatch(p.excluded, p.queryMatch, browserFields, env));
  }

  /** After a disabled provider, an enabled one is the only clause, taken at index 1. */
  lemma EnabledAfterDisabled(disabled: DataProvider, p: DataProvider, clause: (DataProvider, nat) -> string)
    requires !disabled.enabled && p.enabled
    ensures EnabledClauses([disabled, p], clause) == [TrimEnd(clause(p, 1))]
  {
    assert [disabled, p][..1] == [disabled];
    assert [disabled][..0] == [];
  }

  /** The same provider after a disabled one is wrapped in parentheses that keep the template's line break. */
  lemma SecondProviderWrapped(disabled: DataProvider, p: DataProvider, browserFields: BrowserFields, env: KueryEnv)
    requires !disabled.enabled && p.enabled && p.andProviders == []
    ensures BuildGlobalQuery([disabled, p], browserFields, env)
         == "(" + BuildQueryMatch(p.excluded, p.queryMatch, browserFields, env) + TemplateBreak + ")"
  {
    EnabledAfterDisabled(disabled, p, GlobalClause(browserFields, env));
    ClauseWithoutAnd(p, 1, browserFields, env);
    BareAndWrapped(BuildQueryMatch(p.excluded, p.queryMatch, browserFields, env));
  }

  /**
   * Parentheses are decided by list index, not by rank among enabled providers:
   * the only enabled provider is bare at index 0 but wrapped at index 1.
   */
  lemma ParenthesesByListIndex(disabled: DataProvider, p: DataProvider, browserFields: BrowserFields, env: KueryEnv)
    requires !disabled.enabled && p.enabled && p.andProviders == []
    ensures var m := BuildQueryMatch(p.excluded, p.queryMatch, browserFields, env);
      BuildGlobalQuery([p], browserFields, env) == m
      && BuildGlobalQuery([disabled, p], browserFields, env) == "(" + m + TemplateBreak + ")"
  {
    SingleProviderBare(p, browserFields, env);
    SecondProviderWrapped(disabled, p, browserFields, env);
  }

  /** A clause whose and-part is ` and ` followed by nothing ends, after trimming, in ` and`. */
  lemma TrailingAnd(m: string)
    ensures TrimEnd("" + m + TemplateBreak + (" and " + "") + "") == m + TemplateBreak + " and"
  {
    var s := m + TemplateBreak + " and";
    assert "" + m + TemplateBreak + (" and " + "") + "" == s + " ";
    assert (s + " ")[..|s + " "| - 1] == s;
    assert s[|s| - 1] == 'd';
  }

  /**
   * An enabled provider whose and-list is non-empty but wholly disabled keeps
   * the ` and` of its and-part, after the line break of the template.
   */
  lemma DisabledAndListLeavesTrailingAnd(p: DataProvider, browserFields: BrowserFields, env: KueryEnv)
    requires p.enabled && p.andProviders != []
    requires forall k :: 0 <= k < |p.andProviders| ==> !p.andProviders[k].enabled
    ensures BuildGlobalQuery([p], browserFields, env)
         == BuildQueryMatch(p.excluded, p.queryMatch, browserFields, env) + TemplateBreak + " and"
  {
    var m := BuildQueryMatch(p.excluded, p.queryMatch, browserFields, env);
    GlobalQueryAppend([], p, browserFields, env);
    assert [] + [p] == [p];
    assert BuildQueryForAndProvider(p.andProviders, browserFields, env) == "";
    assert ProviderClause(p, 0, browserFields, env) == "" + m + TemplateBreak + (" and " + "") + "";
    TrailingAnd(m);
  }

  // ---------------------------------------------------------------- combining

  function TimestampRange(start: int, end: int): string {
    "@timestamp >= " + IntToString(start) + " and @timestamp <= " + IntToString(end)
  }

  /**
   * `combineQueries`, stopped at the kuery string it hands to
   * `convertKueryToElasticSearchQuery`; `None` is the source's `null`.
   */
  function CombineQueries(
    providers: seq<DataProvider>, browserFields: BrowserFields, kqlQuery: string, kqlMode: string,
    start: int, end: int, isEventViewer: bool, env: KueryEnv): (r: Option<string>)
    ensures r.None? <==> providers == [] && kqlQuery == "" && !isEventViewer
    ensures r.Some? ==> IsSuffix(TimestampRange(start, end), r.value)
  {
    var range := TimestampRange(start, end);
    if providers == [] && kqlQuery == "" && !isEventViewer then None
    else if providers == [] && kqlQuery == "" && isEventViewer then Some(range)
    else if providers == [] && kqlQuery != "" then Some("(" + kqlQuery + ") and " + range)
    else if providers != [] && kqlQuery == "" then
      Some("(" + BuildGlobalQuery(providers, browserFields, env) + ") and " + range)
    else
      var operator := if kqlMode == "filter" then "and" else "or";
      var postpend := if kqlQuery != "" then " " + operator + " (" + kqlQuery + ")" else "";
      Some("((" + BuildGlobalQuery(providers, browserFields, env) + ")" + postpend + ") and " + range)
  }

  /** The last branch of `combineQueries` starts with the two queries joined by its operator. */
  lemma JoinerShape(g: string, kqlQuery: string, range: string, filter: bool)
    ensures var r := "((" + g + ")" + (" " + (if filter then "and" else "or") + " (" + kqlQuery + ")") + ") and " + range;
      (IsPrefix("((" + g + ") and (" + kqlQuery + "))", r) <==> filter)
      && (IsPrefix("((" + g + ") or (" + kqlQuery + "))", r) <==> !filter)
  {
    var op := if filter then "and" else "or";
    var r := "((" + g + ")" + (" " + op + " (" + kqlQuery + ")") + ") and " + range;
    var a := "((" + g + ") and (" + kqlQuery + "))";
    var o := "((" + g + ") or (" + kqlQuery + "))";
    var k := |g| + 4;
    assert a[k] == 'a' && o[k] == 'o';
    if filter {
      assert r == a + " and " + range;
      assert r[..|a|] == a;
      assert |o| <= |r| ==> r[..|o|][k] == r[k];
    } else {
      assert r == o + " and " + range;
      assert r[..|o|] == o;
      assert |a| <= |r| ==> r[..|a|][k] == r[k];
    }
  }

  /** With both providers and a KQL query, they are joined by `and` exactly in `filter` mode, otherwise by `or`. */
  lemma CombineQueriesJoiner(
    providers: seq<DataProvider>, browserFields: BrowserFields, kqlQuery: string, kqlMode: string,
    start: int, end: int, isEventViewer: bool, env: KueryEnv)
    requires providers != [] && kqlQuery != ""
    ensures var g := BuildGlobalQuery(providers, browserFields, env);
      var r := CombineQueries(providers, browserFields, kqlQuery, kqlMode, start, end, isEventViewer, env);
      r.Some?
      && (IsPrefix("((" + g + ") and (" + kqlQuery + "))", r.value) <==> kqlMode == "filter")
      && (IsPrefix("((" + g + ") or (" + kqlQuery + "))", r.value) <==> kqlMode != "filter")
  {
    JoinerShape(BuildGlobalQuery(providers, browserFields, env), kqlQuery, TimestampRange(start, end), kqlMode == "filter");
  }

  /** Without providers, the KQL query is parenthesised and ANDed with the range; without KQL, the global query is. */
  lemma CombineQueriesSingleSource(
    providers: seq<DataProvider>, browserFields: BrowserFields, kqlQuery: string, kqlMode: string,
    start: int, end: int, isEventViewer: bool, env: KueryEnv)
    ensures var r := CombineQueries(providers, browserFields, kqlQuery, kqlMode, start, end, isEventViewer, env);
      (providers == [] && kqlQuery != "" ==> r == Some("(" + kqlQuery + ") and " + TimestampRange(start, end)))
      && (providers != [] && kqlQuery == "" ==>
            r == Some("(" + BuildGlobalQuery(providers, browserFields, env) + ") and " + TimestampRange(start, end)))
      && (providers == [] && kqlQuery == "" && isEventViewer ==> r == Some(TimestampRange(start, end)))
  {
  }

  // ---------------------------------------------------------------- layout

  datatype CalculateBodyHeightParams = CalculateBodyHeightParams(
    flyoutHeight: Option<int>, flyoutHeaderHeight: Option<int>,
    timelineHeaderHeight: Option<int>, timelineFooterHeight: Option<int>)

  /** `calculateBodyHeight`: what is left of the flyout below its header, the timeline header and the footer. */
  function CalculateBodyHeight(params: CalculateBodyHeightParams): (r: int)
    ensures r + params.flyoutHeaderHeight.GetOr(0) + params.timelineHeaderHeight.GetOr(0)
          + params.timelineFooterHeight.GetOr(0) == params.flyoutHeight.GetOr(0)
  {
    params.flyoutHeight.GetOr(0)
    - (params.flyoutHeaderHeight.GetOr(0) + params.timelineHeaderHeight.GetOr(0) + params.timelineFooterHeight.GetOr(0))
  }

  function OrZero(h: Option<int>): Option<int> {
    if h.None? then Some(0) else h
  }

  /** A missing height counts as 0. */
  lemma BodyHeightDefaults(params: CalculateBodyHeightParams)
    ensures CalculateBodyHeight(params) == CalculateBodyHeight(CalculateBodyHeightParams(
      OrZero(params.flyoutHeight), OrZero(params.flyoutHeaderHeight),
      OrZero(params.timelineHeaderHeight), OrZero(params.timelineFooterHeight)))
    ensures CalculateBodyHeight(CalculateBodyHeightParams(None, None, None, None)) == 0
  {
  }
}
