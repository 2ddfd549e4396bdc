/**
 * The query-builder wizard page.
 *
 * The page is a state machine driven by an integer `step` (0 to 8) and the
 * user's selections. Each handler is a method that updates the page's fields
 * as the original's `setX` calls do. Network calls are parameters: what the
 * date-interval fetch and the query fetch produced. Alerts and navigation are
 * returned rather than performed.
 *
 * Steps: 0 welcome, 1 country, 2 query type, 3 loading the date bounds,
 * 4 date type, 5 date entry, 6 loading the result, 7 result, 8 save form.
 */
module QueryBuilderPage {
  import opened Options
  import opened DateOrder
  import opened QueryTemplates
  import opened Routes
  import RN = ResultNormalizer

  const TopTerms := "top_terms"
  const TopRisingTerms := "top_rising_terms"
  const DateInterval := "date_interval"
  const SingleDate := "single_date"

  const BothDatesAlert := "Please select both start and end dates."
  const EndBeforeStartAlert := "End date cannot be earlier than the start date."
  const NoDateAlert := "Please select a date."
  const NoResultsAlert := "Query did not return any results. Please try again."

  /** What fetching the date bounds produced; an error is caught and logged. */
  datatype IntervalFetch = IntervalFetched(minDate: string, maxDate: string) | IntervalFetchFailed

  /** What `axios.get(query)` produced: the response data, or a rejection with the HTTP status if there was a response. */
  datatype QueryFetch = Fetched(data: RN.Payload) | Rejected(status: Option<int>)

  /** The network as the page sees it: what a GET of each URL produces. */
  type Server = string -> QueryFetch
  type BoundsServer = string -> IntervalFetch

  predicate IsNotFound(f: QueryFetch) {
    f.Rejected? && f.status == Some(404)
  }

  /** The page's state, field by field. */
  datatype PageState = PageState(
    username: string,
    step: int,
    selectedCountry: string,
    selectedQueryType: string,
    selectedDateType: string,
    startDate: string,
    endDate: string,
    query: string,
    queryResult: Option<RN.Payload>,
    minDate: string,
    maxDate: string)

  // ---------------------------------------------------------------------
  // Specification functions

  /** The endpoint URL the execution handler builds from the selections. */
  function QueryUrl(proxy: string, s: PageState): (u: string)
    ensures u == "" <==> s.selectedDateType != DateInterval && s.selectedDateType != SingleDate
    ensures u != "" ==> |u| > |proxy| && u[..|proxy|] == proxy
  {
    if s.selectedDateType == DateInterval then
      proxy + "/api/bigquery/get/" + s.selectedQueryType + "_dates/" + s.selectedCountry
      + "/" + s.startDate + "/" + s.endDate
    else if s.selectedDateType == SingleDate then
      proxy + "/api/bigquery/get/" + s.selectedQueryType + "_day/" + s.selectedCountry + "/" + s.startDate
    else ""
  }

  /** The date-bounds URL fetched for a query type, if any. */
  function IntervalUrl(proxy: string, queryType: string): (u: Option<string>)
    ensures u.Some? <==> queryType == TopTerms || queryType == TopRisingTerms
    ensures u.Some? ==> |u.value| > |proxy| && u.value[..|proxy|] == proxy
  {
    if queryType == TopTerms then Some(proxy + "/api/bigquery/get/top_terms_interval_dates")
    else if queryType == TopRisingTerms then Some(proxy + "/api/bigquery/get/top_rising_terms_interval_dates")
    else None
  }

  /** The guard of the date-range handler: both dates given, the end not before the start as strings. */
  predicate DateRangeAccepted(start: string, end: string) {
    start != "" && end != "" && !LexLess(end, start)
  }

  predicate SingleDateAccepted(start: string) {
    start != ""
  }

  /** Where the Return button leads from a step other than 0. */
  function PreviousStep(s: int): (p: int)
    ensures 1 <= s <= 8 ==> 0 <= p < s && p != 3 && p != 6
  {
    if s == 4 then 2 else if s == 7 then 5 else s - 1
  }

  /** The page after the execution handler ran with the given fetch result. */
  function AfterExecution(s: PageState, proxy: string, fetch: QueryFetch): (t: PageState)
    ensures t.step == 7 <==> fetch.Fetched? || IsNotFound(fetch)
    ensures t.step == 6 <==> !(fetch.Fetched? || IsNotFound(fetch))
    ensures t.query == QueryUrl(proxy, s)
    ensures t.queryResult != s.queryResult ==> fetch.Fetched? && t.queryResult == Some(fetch.data)
    ensures t.(step := s.step, query := s.query, queryResult := s.queryResult) == s
  {
    s.(step := if fetch.Fetched? || IsNotFound(fetch) then 7 else 6,
       query := QueryUrl(proxy, s),
       queryResult := if fetch.Fetched? then Some(fetch.data) else s.queryResult)
  }

  function ExecutionAlert(fetch: QueryFetch): Option<string> {
    if IsNotFound(fetch) then Some(NoResultsAlert) else None
  }

  /** axios resolves on a 2xx status and rejects with the response otherwise. */
  function FetchOf(resp: RN.Response): (f: QueryFetch)
    ensures f.Fetched? <==> 200 <= resp.status < 300
    ensures f.Fetched? ==> f.data == resp.payload
    ensures IsNotFound(f) <==> resp.status == 404
  {
    if 200 <= resp.status < 300 then Fetched(resp.payload) else Rejected(Some(resp.status))
  }

  // ---------------------------------------------------------------------
  // The page

  class QueryBuilder {
    const proxy: string
    var username: string
    var step: int
    var selectedCountry: string
    var selectedQueryType: string
    var selectedDateType: string
    var startDate: string
    var endDate: string
    var query: string
    var queryResult: Option<RN.Payload>
    var minDate: string
    var maxDate: string

    ghost predicate Valid()
      reads this
    {
      0 <= step <= 8
    }

    ghost function State(): PageState
      reads this
    {
      PageState(username, step, selectedCountry, selectedQueryType, selectedDateType,
                startDate, endDate, query, queryResult, minDate, maxDate)
    }

    /** The initial values of the page's state. */
    constructor (proxy: string)
      ensures Valid()
      ensures this.proxy == proxy
      ensures State() == PageState("", 0, "", "", "", "", "", "", None, "", "")
    {
      this.proxy := proxy;
      username, step := "", 0;
      selectedCountry, selectedQueryType, selectedDateType := "", "", "";
      startDate, endDate, query := "", "", "";
      queryResult := None;
      minDate, maxDate := "", "";
    }

    /** The effect run when the page loads: record the user and start the wizard; no user means a redirect to login. */
    method Load(user: string) returns (redirectToLogin: bool)
      requires Valid()
      modifies this
      ensures Valid()
      ensures redirectToLogin == (user == "")
      ensures State() == old(State()).(username := user, step := 1)
    {
      redirectToLogin := user == "";
      username := user;
      StartBuildingQuery();
    }

    method StartBuildingQuery()
      requires Valid()
      modifies this
      ensures Valid()
      ensures State() == old(State()).(step := 1)
    {
      step := 1;
    }

    method CountrySelect(country: string)
      requires Valid()
      modifies this
      ensures Valid()
      ensures State() == old(State()).(selectedCountry := country, step := 2)
    {
      selectedCountry := country;
      step := 2;
    }

    /**
     * Record the query type, show the loading step, fetch the date bounds
     * for a known type, and move on to step 4 whether or not the fetch
     * succeeded.
     */
    method QueryTypeSelect(queryType: string, server: BoundsServer) returns (fetchedFrom: Option<string>)
      requires Valid()
      modifies this
      ensures Valid()
      ensures fetchedFrom == IntervalUrl(proxy, queryType)
      ensures fetchedFrom.Some? && server(fetchedFrom.value).IntervalFetched? ==>
        var fetch := server(fetchedFrom.value);
        State() == old(State()).(selectedQueryType := queryType, step := 4,
                                 minDate := fetch.minDate, maxDate := fetch.maxDate)
      ensures fetchedFrom.None? || server(fetchedFrom.value).IntervalFetchFailed? ==>
        State() == old(State()).(selectedQueryType := queryType, step := 4)
    {
      selectedQueryType := queryType;
      step := 3;
      fetchedFrom := IntervalUrl(proxy, queryType);
      if fetchedFrom.Some? {
        var fetch := server(fetchedFrom.value);
        if fetch.IntervalFetched? {
          minDate := fetch.minDate;
          maxDate := fetch.maxDate;
        }
      }
      step := 4;
    }

    method DateTypeSelect(dateType: string)
      requires Valid()
      modifies this
      ensures Valid()
      ensures State() == old(State()).(selectedDateType := dateType, step := 5)
    {
      selectedDateType := dateType;
      step := 5;
    }

    /** The start-date input's change handler. */
    method SetStartDate(value: string)
      requires Valid()
      modifies this
      ensures Valid()
      ensures State() == old(State()).(startDate := value)
    {
      startDate := value;
    }

    /** The end-date input's change handler. */
    method SetEndDate(value: string)
      requires Valid()
      modifies this
      ensures Valid()
      ensures State() == old(State()).(endDate := value)
    {
      endDate := value;
    }

    /** Run the query: a 404 is swallowed with an alert, any other failure is rethrown. */
    method ExecuteQuery(url: string, server: Server) returns (thrown: bool, alert: Option<string>)
      requires Valid()
      modifies this
      ensures Valid()
      ensures thrown <==> server(url).Rejected? && !IsNotFound(server(url))
      ensures alert == ExecutionAlert(server(url))
      ensures server(url).Fetched? ==> State() == old(State()).(queryResult := Some(server(url).data))
      ensures server(url).Rejected? ==> State() == old(State())
    {
      thrown, alert := false, None;
      match server(url) {
        case Fetched(data) =>
          queryResult := Some(data);
        case Rejected(status) =>
          if status == Some(404) {
            alert := Some(NoResultsAlert);
          } else {
            thrown := true;
          }
      }
    }

    /**
     * Show the loading step, build the URL from the selections, store it,
     * run it, and show the result step unless the run threw.
     */
    method QueryExecution(server: Server) returns (alert: Option<string>)
      requires Valid()
      modifies this
      ensures Valid()
      ensures State() == AfterExecution(old(State()), proxy, server(QueryUrl(proxy, old(State()))))
      ensures alert == ExecutionAlert(server(QueryUrl(proxy, old(State()))))
    {
      step := 6;
      var queryValue := "";
      if selectedDateType == DateInterval {
        queryValue := proxy + "/api/bigquery/get/" + selectedQueryType + "_dates/" + selectedCountry
                      + "/" + startDate + "/" + endDate;
      } else if selectedDateType == SingleDate {
        queryValue := proxy + "/api/bigquery/get/" + selectedQueryType + "_day/" + selectedCountry
                      + "/" + startDate;
      }
      query := queryValue;
      var thrown;
      thrown, alert := ExecuteQuery(queryValue, server);
      if !thrown {
        step := 7;
      }
    }

    /** The "Select Date Range" button: validate, then execute. */
    method DateRangeSelection(server: Server) returns (alert: Option<string>)
      requires Valid()
      modifies this
      ensures Valid()
      ensures old(startDate) == "" || old(endDate) == "" ==>
        alert == Some(BothDatesAlert) && State() == old(State())
      ensures old(startDate) != "" && old(endDate) != "" && LexLess(old(endDate), old(startDate)) ==>
        alert == Some(EndBeforeStartAlert) && State() == old(State())
      ensures old(DateRangeAccepted(startDate, endDate)) ==>
        var fetch := server(QueryUrl(proxy, old(State())));
        alert == ExecutionAlert(fetch) && State() == AfterExecution(old(State()), proxy, fetch)
    {
      if startDate == "" || endDate == "" {
        alert := Some(BothDatesAlert);
      } else if LexLess(endDate, startDate) {
        alert := Some(EndBeforeStartAlert);
      } else {
        alert := QueryExecution(server);
      }
    }

    /** The "Select Single Date" button: require a date, then execute. */
    method SingleDateSelection(server: Server) returns (alert: Option<string>)
      requires Valid()
      modifies this
      ensures Valid()
      ensures !old(SingleDateAccepted(startDate)) ==> alert == Some(NoDateAlert) && State() == old(State())
      ensures old(SingleDateAccepted(startDate)) ==>
        var fetch := server(QueryUrl(proxy, old(State())));
        alert == ExecutionAlert(fetch) && State() == AfterExecution(old(State()), proxy, fetch)
    {
      if startDate == "" {
        alert := Some(NoDateAlert);
      } else {
        alert := QueryExecution(server);
      }
    }

    method SaveQuery()
      requires Valid()
      modifies this
      ensures Valid()
      ensures State() == old(State()).(step := 8)
    {
      step := 8;
    }

    /** The Return button: from step 0 go to the home page, otherwise back one screen. */
    method ReturnStep() returns (navigateTo: Option<string>)
      requires Valid()
      modifies this
      ensures Valid()
      ensures old(step) == 0 ==> navigateTo == Some("/home?username=" + username) && State() == old(State())
      ensures old(step) != 0 ==> navigateTo == None && State() == old(State()).(step := PreviousStep(old(step)))
      ensures old(step) != 0 ==> step < old(step) && step != 3 && step != 6
    {
      navigateTo := None;
      if step == 0 {
        navigateTo := Some("/home?username=" + username);
      } else if step == 4 {
        step := 2;
      } else if step == 7 {
        step := 5;
      } else {
        step := step - 1;
      }
    }
  }

  // ---------------------------------------------------------------------
  // Properties

  /** A forward move of the wizard: the step whose screen offers it and the step it ends on. */
  datatype Move = Start | ChooseCountry | ChooseQueryType | ChooseDateType | Execute | Save

  function ScreenOf(m: Move): int {
    match m
    case Start => 0
    case ChooseCountry => 1
    case ChooseQueryType => 2
    case ChooseDateType => 4
    case Execute => 5
    case Save => 7
  }

  function TargetOf(m: Move): int {
    match m
    case Start => 1
    case ChooseCountry => 2
    case ChooseQueryType => 4
    case ChooseDateType => 5
    case Execute => 7
    case Save => 8
  }

  /** Return from the screen a forward move ends on leads back to the screen that offered it. */
  lemma ReturnUndoesMove(m: Move)
    ensures PreviousStep(TargetOf(m)) == ScreenOf(m)
  {
  }

  /**
   * On dates as a date input writes them, the range handler proceeds exactly
   * when the start is on or before the end in the calendar.
   */
  lemma DateRangeAcceptsOrderedDates(start: CalendarDate, end: CalendarDate)
    requires WellFormed(start) && WellFormed(end)
    ensures DateRangeAccepted(Format(start), Format(end)) <==> !Before(end, start)
  {
    FormatOrder(end, start);
  }

  /** The request a selection names, when the date type and query type are known. */
  function SelectedRequest(s: PageState): Option<Request> {
    var qt, c := s.selectedQueryType, s.selectedCountry;
    if s.selectedDateType == SingleDate then
      if qt == TopTerms then Some(TopTermsDayReq(c, s.startDate))
      else if qt == TopRisingTerms then Some(TopRisingTermsDayReq(c, s.startDate))
      else None
    else if s.selectedDateType == DateInterval then
      if qt == TopTerms then Some(TopTermsDateReq(c, s.startDate, s.endDate))
      else if qt == TopRisingTerms then Some(TopRisingTermsDatesReq(c, s.startDate, s.endDate))
      else None
    else None
  }

  lemma DayText(proxy: string, qt: string, c: string, st: string)
    ensures proxy + "/api/bigquery/get/" + qt + "_day/" + c + "/" + st
         == proxy + ("/api/bigquery/get/" + (qt + "_day" + ("/" + c + ("/" + st + ""))))
  {
  }

  lemma RangeText(proxy: string, qt: string, c: string, st: string, en: string)
    ensures proxy + "/api/bigquery/get/" + qt + "_dates/" + c + "/" + st + "/" + en
         == proxy + ("/api/bigquery/get/" + (qt + "_dates" + ("/" + c + ("/" + st + ("/" + en + "")))))
  {
  }

  /**
   * The URL built from a proper selection is the proxy followed by the path
   * of the selected endpoint, and the backend routes that path to the
   * selected template with the selected country and dates.
   */
  lemma QueryUrlRoutesToSelection(proxy: string, s: PageState)
    requires SelectedRequest(s).Some?
    requires IsSegment(s.selectedCountry) && IsSegment(s.startDate)
    requires s.selectedDateType == DateInterval ==> IsSegment(s.endDate)
    ensures QueryUrl(proxy, s) == proxy + "/" + PathOf(SelectedRequest(s).value)
    ensures Route(PathOf(SelectedRequest(s).value)) == Some(SelectedRequest(s).value)
  {
    var r := SelectedRequest(s).value;
    var qt, c, st, en := s.selectedQueryType, s.selectedCountry, s.startDate, s.endDate;
    PathOfText(r);
    if s.selectedDateType == SingleDate {
      assert EndpointName(Kind(r)) == qt + "_day" by {
        if qt == TopTerms {
          assert "top_terms" + "_day" == "top_terms_day";
        } else {
          assert "top_rising_terms" + "_day" == "top_rising_terms_day";
        }
      }
      assert PathArgs(r)[1..] == [st];
      var args := PathArgs(r);
      assert args == [c, st] && args[1..] == [st] && args[1..][1..] == [];
      assert Slashed(args[1..]) == "/" + st + "";
      assert Slashed(args) == "/" + c + ("/" + st + "");
      DayText(proxy, qt, c, st);
    } else {
      assert EndpointName(Kind(r)) == qt + "_dates" by {
        if qt == TopTerms {
          assert "top_terms" + "_dates" == "top_terms_dates";
        } else {
          assert "top_rising_terms" + "_dates" == "top_rising_terms_dates";
        }
      }
      assert PathArgs(r)[1..] == [st, en] && PathArgs(r)[1..][1..] == [en];
      var args := PathArgs(r);
      assert args == [c, st, en] && args[1..] == [st, en] && args[1..][1..] == [en] && args[1..][1..][1..] == [];
      assert Slashed(args[1..][1..]) == "/" + en + "";
      assert Slashed(args[1..]) == "/" + st + ("/" + en + "");
      assert Slashed(args) == "/" + c + ("/" + st + ("/" + en + ""));
      RangeText(proxy, qt, c, st, en);
    }
    assert proxy + "/" + PathOf(r) == proxy + ("/" + PathOf(r));
    RouteOfPath(r);
  }

  lemma IntervalText(proxy: string)
    ensures proxy + "/api/bigquery/get/top_terms_interval_dates"
         == proxy + ("/api/bigquery/get/" + ("top_terms_interval_dates" + ""))
    ensures proxy + "/api/bigquery/get/top_rising_terms_interval_dates"
         == proxy + ("/api/bigquery/get/" + ("top_rising_terms_interval_dates" + ""))
  {
  }

  /** The date-bounds URL of a query type reaches that type's bounds template. */
  lemma IntervalUrlRoutes(proxy: string, queryType: string)
    requires queryType == TopTerms || queryType == TopRisingTerms
    ensures var r := if queryType == TopTerms then DateIntervalTopTermsReq else DateIntervalTopRisingTermsReq;
      && IntervalUrl(proxy, queryType) == Some(proxy + "/" + PathOf(r))
      && Route(PathOf(r)) == Some(r)
  {
    var r := if queryType == TopTerms then DateIntervalTopTermsReq else DateIntervalTopRisingTermsReq;
    PathOfText(r);
    assert PathArgs(r) == [] && Slashed([]) == "";
    IntervalText(proxy);
    assert proxy + "/" + PathOf(r) == proxy + ("/" + PathOf(r));
    RouteOfPath(r);
  }

  /**
   * End to end with the backend's normaliser: rows reach the result step
   * with those rows as the result; an empty result reaches the result step
   * with the previous result kept and the no-results alert; a warehouse
   * failure leaves the page on the loading step.
   */
  lemma ExecutionAgainstBackend(s: PageState, proxy: string, o: RN.Outcome)
    ensures var fetch := FetchOf(RN.Normalize(o));
      && (AfterExecution(s, proxy, fetch).step == if o.Failure? then 6 else 7)
      && (AfterExecution(s, proxy, fetch).queryResult
            == if o.Rows? && o.rows != [] then Some(RN.Normalize(o).payload) else s.queryResult)
      && (ExecutionAlert(fetch).Some? <==> o == RN.Rows([]))
  {
  }
}
