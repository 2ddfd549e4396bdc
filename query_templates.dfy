/**
 * The six analytical query templates of the gateway.
 *
 * Each template turns the path inputs of one endpoint (country, date or date
 * range) into a query text and a list of named, typed parameter bindings.
 * The text is built from the template kind and the configured dataset and
 * table identifiers only; the user's values travel as bindings.
 */
module QueryTemplates {
  import opened Options
  import opened SqlQuery

  /** The identifiers read from the configuration file at start-up. */
  datatype Config = Config(datasetId: string, topTermsId: string, topRisingTermsId: string)

  datatype TemplateKind =
    | TopTermsDay
    | TopTermsDate
    | TopRisingTermsDay
    | TopRisingTermsDates
    | DateIntervalTopTerms
    | DateIntervalTopRisingTerms

  /** One inbound analytical request: the template and its path inputs. */
  datatype Request =
    | TopTermsDayReq(country: string, date: string)
    | TopTermsDateReq(country: string, initDate: string, finishDate: string)
    | TopRisingTermsDayReq(country: string, date: string)
    | TopRisingTermsDatesReq(country: string, initDate: string, finishDate: string)
    | DateIntervalTopTermsReq
    | DateIntervalTopRisingTermsReq

  /** A `ScalarQueryParameter(name, type, value)`. */
  datatype Binding = Binding(name: string, typ: string, value: string)

  /** Query text plus its parameter bindings. */
  datatype QuerySpec = QuerySpec(text: seq<Token>, params: seq<Binding>)

  function Kind(r: Request): TemplateKind {
    match r
    case TopTermsDayReq(_, _) => TopTermsDay
    case TopTermsDateReq(_, _, _) => TopTermsDate
    case TopRisingTermsDayReq(_, _) => TopRisingTermsDay
    case TopRisingTermsDatesReq(_, _, _) => TopRisingTermsDates
    case DateIntervalTopTermsReq => DateIntervalTopTerms
    case DateIntervalTopRisingTermsReq => DateIntervalTopRisingTerms
  }

  predicate IsRising(k: TemplateKind) {
    k == TopRisingTermsDay || k == TopRisingTermsDates || k == DateIntervalTopRisingTerms
  }

  /** The configured table a template reads. */
  function TableOf(cfg: Config, k: TemplateKind): string {
    if IsRising(k) then cfg.topRisingTermsId else cfg.topTermsId
  }

  function Col(name: string): SelectItem { SelectItem(Plain, name, None) }

  function ColAs(name: string, alias: string): SelectItem { SelectItem(Plain, name, Some(alias)) }

  /** The query text of each template, as its f-string writes it. */
  function QueryOf(cfg: Config, k: TemplateKind): (q: Query)
    ensures q.dataset == cfg.datasetId && q.table == TableOf(cfg, k)
    ensures q.where == [] <==> k == DateIntervalTopTerms || k == DateIntervalTopRisingTerms
    ensures q.where != [] ==> ("percent_gain" in q.groupBy <==> IsRising(k))
  {
    var table := TableOf(cfg, k);
    var dayFilter := [Eq("refresh_date", Param("date")), Eq("country_name", Param("country_name"))];
    var rangeFilter := [
      Eq("rank", IntConst(1)),
      Between("refresh_date", Param("init_date"), Param("finish_date")),
      Eq("country_name", Param("country_name"))];
    var bounds := [
      SelectItem(MinOf, "refresh_date", Some("min_refresh_date")),
      SelectItem(MaxOf, "refresh_date", Some("max_refresh_date"))];
    match k
    case TopTermsDay =>
      Query([ColAs("term", "Top_Term"), Col("rank")], cfg.datasetId, table,
            dayFilter, ["Top_Term", "rank"], [SortKey("rank", Ascending)])
    case TopTermsDate =>
      Query([ColAs("refresh_date", "Day"), ColAs("term", "Top_Term")], cfg.datasetId, table,
            rangeFilter, ["Day", "Top_Term"], [SortKey("Day", Descending)])
    case TopRisingTermsDay =>
      Query([ColAs("term", "Top_Term"), Col("rank"), Col("percent_gain")], cfg.datasetId, table,
            dayFilter, ["Top_Term", "rank", "percent_gain"], [SortKey("rank", Ascending)])
    case TopRisingTermsDates =>
      Query([ColAs("refresh_date", "Day"), ColAs("term", "Top_Term"), Col("percent_gain")], cfg.datasetId, table,
            rangeFilter, ["Day", "Top_Term", "percent_gain"], [SortKey("Day", Descending)])
    case DateIntervalTopTerms =>
      Query(bounds, cfg.datasetId, table, [], [], [])
    case DateIntervalTopRisingTerms =>
      Query(bounds, cfg.datasetId, table, [], [], [])
  }

  /** The `query_params` list of each template. */
  function BindingsOf(r: Request): (bs: seq<Binding>)
    ensures forall i :: 0 <= i < |bs| ==> bs[i].typ == "STRING" && PathParam(r, bs[i].name) == Some(bs[i].value)
    ensures |bs| == |PathArgs(r)|
  {
    match r
    case TopTermsDayReq(country, date) =>
      [Binding("date", "STRING", date), Binding("country_name", "STRING", country)]
    case TopTermsDateReq(country, init, finish) =>
      [Binding("init_date", "STRING", init), Binding("finish_date", "STRING", finish),
       Binding("country_name", "STRING", country)]
    case TopRisingTermsDayReq(country, date) =>
      [Binding("date", "STRING", date), Binding("country_name", "STRING", country)]
    case TopRisingTermsDatesReq(country, init, finish) =>
      [Binding("init_date", "STRING", init), Binding("finish_date", "STRING", finish),
       Binding("country_name", "STRING", country)]
    case DateIntervalTopTermsReq => []
    case DateIntervalTopRisingTermsReq => []
  }

  /** What a template's `get` hands to `process_query`. */
  function Render(cfg: Config, r: Request): (spec: QuerySpec)
    ensures Tables(spec.text) == [(cfg.datasetId, TableOf(cfg, Kind(r)))]
    ensures Placeholders(spec.text) == QueryParams(QueryOf(cfg, Kind(r)).where)
    ensures spec.params == BindingsOf(r)
  {
    TextPlaceholders(QueryOf(cfg, Kind(r)));
    QuerySpec(Text(QueryOf(cfg, Kind(r))), BindingsOf(r))
  }

  // ---------------------------------------------------------------------
  // Reference definitions the properties are stated against

  /** The request's path parameter under its URL-pattern name, if it has one. */
  function PathParam(r: Request, name: string): Option<string> {
    match r
    case TopTermsDayReq(c, d) =>
      if name == "country_name" then Some(c) else if name == "date" then Some(d) else None
    case TopRisingTermsDayReq(c, d) =>
      if name == "country_name" then Some(c) else if name == "date" then Some(d) else None
    case TopTermsDateReq(c, i, f) =>
      if name == "country_name" then Some(c) else if name == "init_date" then Some(i)
      else if name == "finish_date" then Some(f) else None
    case TopRisingTermsDatesReq(c, i, f) =>
      if name == "country_name" then Some(c) else if name == "init_date" then Some(i)
      else if name == "finish_date" then Some(f) else None
    case DateIntervalTopTermsReq => None
    case DateIntervalTopRisingTermsReq => None
  }

  /** The request's path inputs, in URL order. */
  function PathArgs(r: Request): seq<string> {
    match r
    case TopTermsDayReq(c, d) => [c, d]
    case TopRisingTermsDayReq(c, d) => [c, d]
    case TopTermsDateReq(c, i, f) => [c, i, f]
    case TopRisingTermsDatesReq(c, i, f) => [c, i, f]
    case DateIntervalTopTermsReq => []
    case DateIntervalTopRisingTermsReq => []
  }

  function Names(ps: seq<Binding>): seq<string> {
    if ps == [] then [] else [ps[0].name] + Names(ps[1..])
  }

  predicate Distinct(xs: seq<string>) {
    forall i, j :: 0 <= i < j < |xs| ==> xs[i] != xs[j]
  }

  lemma NamesOfLiteral(ps: seq<Binding>)
    ensures Names(ps) == seq(|ps|, i requires 0 <= i < |ps| => ps[i].name)
  {
    if ps != [] {
      NamesOfLiteral(ps[1..]);
    }
  }

  /** The column names a select list produces: the alias when there is one. */
  function OutputColumns(items: seq<SelectItem>): seq<string> {
    if items == [] then []
    else [if items[0].alias.Some? then items[0].alias.value else items[0].column]
         + OutputColumns(items[1..])
  }

  // ---------------------------------------------------------------------
  // Properties

  /** The agreement property of `RenderBindingsAgree` for one rendered spec. */
  ghost predicate BindingsAgree(r: Request, spec: QuerySpec) {
    && Placeholders(spec.text) == Names(spec.params)
    && Distinct(Names(spec.params))
    && (forall b :: b in spec.params ==> b.typ == "STRING" && PathParam(r, b.name) == Some(b.value))
    && (forall n :: PathParam(r, n).Some? ==> n in Names(spec.params))
  }

  /**
   * Placeholder/parameter agreement: the text's placeholders are exactly the
   * bound parameter names, in the same order, each bound once; every binding
   * is a STRING and carries the request's path parameter of the same name,
   * and every path parameter is bound.
   */
  lemma RenderBindingsAgree(cfg: Config, r: Request)
    ensures BindingsAgree(r, Render(cfg, r))
  {
    TextPlaceholders(QueryOf(cfg, Kind(r)));
    if r.TopTermsDayReq? || r.TopRisingTermsDayReq? {
      DayBindingsAgree(cfg, r);
    } else if r.TopTermsDateReq? || r.TopRisingTermsDatesReq? {
      RangeBindingsAgree(cfg, r);
    }
  }

  lemma DayBindingsAgree(cfg: Config, r: Request)
    requires r.TopTermsDayReq? || r.TopRisingTermsDayReq?
    ensures BindingsAgree(r, Render(cfg, r))
  {
    var q := QueryOf(cfg, Kind(r));
    TextPlaceholders(q);
    assert q.where == [Eq("refresh_date", Param("date")), Eq("country_name", Param("country_name"))];
    assert QueryParams(q.where) == ["date", "country_name"];
    NamesOfLiteral(BindingsOf(r));
  }

  lemma RangeBindingsAgree(cfg: Config, r: Request)
    requires r.TopTermsDateReq? || r.TopRisingTermsDatesReq?
    ensures BindingsAgree(r, Render(cfg, r))
  {
    var q := QueryOf(cfg, Kind(r));
    TextPlaceholders(q);
    RangeFilterParams(q.where);
    RangeParams(r);
  }

  lemma RangeParams(r: Request)
    requires r.TopTermsDateReq? || r.TopRisingTermsDatesReq?
    ensures Names(BindingsOf(r)) == ["init_date", "finish_date", "country_name"]
    ensures Distinct(Names(BindingsOf(r)))
    ensures forall b :: b in BindingsOf(r) ==> b.typ == "STRING" && PathParam(r, b.name) == Some(b.value)
    ensures forall n :: PathParam(r, n).Some? ==> n in Names(BindingsOf(r))
  {
    var ps := BindingsOf(r);
    NamesOfLiteral(ps);
    var names := Names(ps);
    assert names == ["init_date", "finish_date", "country_name"];
    forall n | PathParam(r, n).Some? ensures n in names {
      RangePathParams(r, n);
      assert n == names[0] || n == names[1] || n == names[2];
    }
  }

  lemma RangePathParams(r: Request, n: string)
    requires r.TopTermsDateReq? || r.TopRisingTermsDatesReq?
    requires PathParam(r, n).Some?
    ensures n == "country_name" || n == "init_date" || n == "finish_date"
  {
  }

  lemma RangeFilterParams(cs: seq<Condition>)
    requires cs == [Eq("rank", IntConst(1)),
                    Between("refresh_date", Param("init_date"), Param("finish_date")),
                    Eq("country_name", Param("country_name"))]
    ensures QueryParams(cs) == ["init_date", "finish_date", "country_name"]
  {
    assert QueryParams(cs[2..]) == ["country_name"];
    assert QueryParams(cs[1..]) == ["init_date", "finish_date"] + QueryParams(cs[2..]);
  }

  /**
   * No user value reaches the query text: two requests for the same template
   * render the same text whatever their inputs, and the only identifier
   * spliced into it is the configured `dataset.table` of that template.
   */
  lemma TextIndependentOfInputs(cfg: Config, r1: Request, r2: Request)
    requires Kind(r1) == Kind(r2)
    ensures Render(cfg, r1).text == Render(cfg, r2).text
    ensures Tables(Render(cfg, r1).text) == [(cfg.datasetId, TableOf(cfg, Kind(r1)))]
  {
    TextPlaceholders(QueryOf(cfg, Kind(r1)));
  }

  /** Single-day templates: filter on the date and country, ranked ascending. */
  lemma SingleDayShape(cfg: Config, k: TemplateKind)
    requires k == TopTermsDay || k == TopRisingTermsDay
    ensures QueryOf(cfg, k).where
         == [Eq("refresh_date", Param("date")), Eq("country_name", Param("country_name"))]
    ensures QueryOf(cfg, k).orderBy == [SortKey("rank", Ascending)]
  {
  }

  /** Range templates: the day's top term between the two dates, newest day first. */
  lemma RangeShape(cfg: Config, k: TemplateKind)
    requires k == TopTermsDate || k == TopRisingTermsDates
    ensures QueryOf(cfg, k).where
         == [Eq("rank", IntConst(1)),
             Between("refresh_date", Param("init_date"), Param("finish_date")),
             Eq("country_name", Param("country_name"))]
    ensures QueryOf(cfg, k).orderBy == [SortKey("Day", Descending)]
  {
  }

  /**
   * A rising template is its terms counterpart reading the rising-terms table
   * with `percent_gain` added to the select and group-by lists.
   */
  lemma RisingAddsPercentGain(cfg: Config)
    ensures var base := QueryOf(cfg, TopTermsDay);
      QueryOf(cfg, TopRisingTermsDay)
        == base.(table := cfg.topRisingTermsId,
                 select := base.select + [Col("percent_gain")],
                 groupBy := base.groupBy + ["percent_gain"])
    ensures var base := QueryOf(cfg, TopTermsDate);
      QueryOf(cfg, TopRisingTermsDates)
        == base.(table := cfg.topRisingTermsId,
                 select := base.select + [Col("percent_gain")],
                 groupBy := base.groupBy + ["percent_gain"])
  {
  }

  /**
   * The date-bounds templates bind nothing, select only MIN and MAX of
   * `refresh_date`, and differ from each other only in the table read.
   */
  lemma BoundsShape(cfg: Config)
    ensures BindingsOf(DateIntervalTopTermsReq) == [] && BindingsOf(DateIntervalTopRisingTermsReq) == []
    ensures var q := QueryOf(cfg, DateIntervalTopTerms);
      && q.select == [SelectItem(MinOf, "refresh_date", Some("min_refresh_date")),
                      SelectItem(MaxOf, "refresh_date", Some("max_refresh_date"))]
      && q.where == [] && q.groupBy == [] && q.orderBy == []
      && q.table == cfg.topTermsId
      && QueryOf(cfg, DateIntervalTopRisingTerms) == q.(table := cfg.topRisingTermsId)
  {
  }

  /**
   * The four term templates group by exactly their output columns, and
   * those columns are the fields of the rows each endpoint returns.
   */
  lemma GroupByIsOutputColumns(cfg: Config, k: TemplateKind)
    requires k != DateIntervalTopTerms && k != DateIntervalTopRisingTerms
    ensures QueryOf(cfg, k).groupBy == OutputColumns(QueryOf(cfg, k).select)
    ensures OutputColumns(QueryOf(cfg, k).select)
         == match k
            case TopTermsDay => ["Top_Term", "rank"]
            case TopTermsDate => ["Day", "Top_Term"]
            case TopRisingTermsDay => ["Top_Term", "rank", "percent_gain"]
            case _ => ["Day", "Top_Term", "percent_gain"]
  {
  }
}
