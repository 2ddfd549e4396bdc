/**
 * The routes of the six analytical endpoints: how a request path is matched
 * to a template and its path parameters, and the path of each request.
 *
 * A `<str:name>` path converter matches one non-empty segment without '/'.
 */
module Routes {
  import opened Options
  import opened QueryTemplates

  /** The '/'-separated segments of a path. */
  function Split(s: string): (parts: seq<string>)
    ensures |parts| >= 1
  {
    if s == [] then [""]
    else if s[0] == '/' then [""] + Split(s[1..])
    else
      var rest := Split(s[1..]);
      [[s[0]] + rest[0]] + rest[1..]
  }

  /** Segments joined with '/'. */
  function Join(parts: seq<string>): string
    requires parts != []
  {
    if |parts| == 1 then parts[0] else parts[0] + "/" + Join(parts[1..])
  }

  /** What a `<str:…>` converter accepts. */
  predicate IsSegment(s: string) {
    s != [] && '/' !in s
  }

  const Prefix := ["api", "bigquery", "get"]

  /** The URL pattern table, restricted to the analytical endpoints. */
  function Route(path: string): (r: Option<Request>)
    ensures r.Some? ==> PathOf(r.value) == path
    ensures r.Some? ==> forall i :: 0 <= i < |PathArgs(r.value)| ==> IsSegment(PathArgs(r.value)[i])
  {
    var p := Split(path);
    JoinSplit(path);
    SegmentsOfPath(p);
    if |p| < 4 || p[..3] != Prefix then None
    else if |p| == 4 then
      if p[3] == "top_terms_interval_dates" then Some(DateIntervalTopTermsReq)
      else if p[3] == "top_rising_terms_interval_dates" then Some(DateIntervalTopRisingTermsReq)
      else None
    else if |p| == 6 && IsSegment(p[4]) && IsSegment(p[5]) then
      if p[3] == "top_terms_day" then Some(TopTermsDayReq(p[4], p[5]))
      else if p[3] == "top_rising_terms_day" then Some(TopRisingTermsDayReq(p[4], p[5]))
      else None
    else if |p| == 7 && IsSegment(p[4]) && IsSegment(p[5]) && IsSegment(p[6]) then
      if p[3] == "top_terms_dates" then Some(TopTermsDateReq(p[4], p[5], p[6]))
      else if p[3] == "top_rising_terms_dates" then Some(TopRisingTermsDatesReq(p[4], p[5], p[6]))
      else None
    else None
  }

  /** The endpoint name of each template. */
  function EndpointName(k: TemplateKind): string {
    match k
    case TopTermsDay => "top_terms_day"
    case TopTermsDate => "top_terms_dates"
    case TopRisingTermsDay => "top_rising_terms_day"
    case TopRisingTermsDates => "top_rising_terms_dates"
    case DateIntervalTopTerms => "top_terms_interval_dates"
    case DateIntervalTopRisingTerms => "top_rising_terms_interval_dates"
  }

  /** The path that reaches a request's endpoint with its parameters. */
  function PathOf(r: Request): string {
    Join(Prefix + [EndpointName(Kind(r))] + PathArgs(r))
  }

  /** A segment list seen as prefix, endpoint name and arguments. */
  lemma SegmentsOfPath(p: seq<string>)
    ensures |p| >= 4 ==> p == p[..3] + [p[3]] + p[4..]
    ensures |p| == 4 ==> p[4..] == []
    ensures |p| == 6 ==> p[4..] == [p[4], p[5]]
    ensures |p| == 7 ==> p[4..] == [p[4], p[5], p[6]]
  {
  }

  /** Joining the segments of a path gives the path back. */
  lemma {:induction false} JoinSplit(s: string)
    ensures Join(Split(s)) == s
  {
    if s != [] {
      JoinSplit(s[1..]);
      if s[0] == '/' {
        assert ([""] + Split(s[1..]))[1..] == Split(s[1..]);
      } else {
        var rest := Split(s[1..]);
        var parts := [[s[0]] + rest[0]] + rest[1..];
        if |rest| > 1 {
          assert parts[1..] == rest[1..];
        }
        assert [s[0]] + s[1..] == s;
      }
    }
  }

  lemma {:induction false} SplitSegment(a: string)
    requires '/' !in a
    ensures Split(a) == [a]
  {
    if a != [] {
      SplitSegment(a[1..]);
      assert [a[0]] + a[1..] == a;
    }
  }

  lemma {:induction false} SplitCons(a: string, b: string)
    requires '/' !in a
    ensures Split(a + "/" + b) == [a] + Split(b)
  {
    if a == [] {
      assert a + "/" + b == "/" + b;
      assert ("/" + b)[1..] == b;
    } else {
      assert (a + "/" + b)[1..] == a[1..] + "/" + b;
      SplitCons(a[1..], b);
      assert [a[0]] + a[1..] == a;
    }
  }

  /** Splitting a join of segments gives the segments back. */
  lemma {:induction false} SplitJoin(parts: seq<string>)
    requires parts != []
    requires forall i :: 0 <= i < |parts| ==> '/' !in parts[i]
    ensures Split(Join(parts)) == parts
  {
    if |parts| == 1 {
      SplitSegment(parts[0]);
    } else {
      SplitJoin(parts[1..]);
      SplitCons(parts[0], Join(parts[1..]));
      assert [parts[0]] + parts[1..] == parts;
    }
  }

  /** Each segment preceded by '/', concatenated. */
  function Slashed(args: seq<string>): string {
    if args == [] then "" else "/" + args[0] + Slashed(args[1..])
  }

  lemma JoinCons(a: string, rest: seq<string>)
    requires rest != []
    ensures Join([a] + rest) == a + "/" + Join(rest)
  {
    assert ([a] + rest)[1..] == rest;
  }

  lemma {:induction false} JoinSlashed(name: string, args: seq<string>)
    ensures Join([name] + args) == name + Slashed(args)
    decreases |args|
  {
    if args != [] {
      assert args == [args[0]] + args[1..];
      JoinSlashed(args[0], args[1..]);
      JoinCons(name, args);
    }
  }

  lemma PrefixText(x: string)
    ensures "/" + ("api" + "/" + ("bigquery" + "/" + ("get" + "/" + x))) == "/api/bigquery/get/" + x
  {
  }

  /** The text of a request's path: the fixed prefix, the endpoint name, then its parameters. */
  lemma PathOfText(r: Request)
    ensures "/" + PathOf(r) == "/api/bigquery/get/" + (EndpointName(Kind(r)) + Slashed(PathArgs(r)))
  {
    var name, args := EndpointName(Kind(r)), PathArgs(r);
    var t3 := [name] + args;
    var t2 := ["get"] + t3;
    var t1 := ["bigquery"] + t2;
    assert Prefix + [name] + args == ["api"] + t1;
    JoinCons("api", t1);
    JoinCons("bigquery", t2);
    JoinCons("get", t3);
    JoinSlashed(name, args);
    PrefixText(name + Slashed(args));
  }

  /**
   * Every request whose path parameters are single segments is routed back
   * to itself from its own path.
   */
  lemma RouteOfPath(r: Request)
    requires forall i :: 0 <= i < |PathArgs(r)| ==> IsSegment(PathArgs(r)[i])
    ensures Route(PathOf(r)) == Some(r)
  {
    var parts := Prefix + [EndpointName(Kind(r))] + PathArgs(r);
    assert forall i :: 0 <= i < |parts| ==> '/' !in parts[i] by {
      forall i | 0 <= i < |parts| ensures '/' !in parts[i] {
        if i >= 4 {
          assert parts[i] == PathArgs(r)[i - 4];
        }
      }
    }
    SplitJoin(parts);
    assert parts[..3] == Prefix;
  }
}
