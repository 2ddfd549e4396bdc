/**
 * Result/error normalisation of a warehouse outcome into a JSON payload and
 * an HTTP status.
 *
 * A warehouse row is an ordered list of (column, value) items; the payload
 * turns each row into a dictionary with the insertion-ordered semantics of a
 * Python `dict` built from those items.
 */
module ResultNormalizer {

  import opened Options

  /** A cell value: text, integer, floating-point percent gain, or a date. */
  datatype Scalar = Text(s: string) | Integer(i: int) | Decimal(r: real) | Date(iso: string)

  /** The items of one result row, in column order. */
  type Row = seq<(string, Scalar)>

  /** A dictionary: (key, value) entries in insertion order. */
  type Mapping = seq<(string, Scalar)>

  /** What running a query produced: an error anywhere on the way, or the rows. */
  datatype Outcome = Failure(msg: string) | Rows(rows: seq<Row>)

  datatype Payload = ErrorBody(error: string) | RowList(rows: seq<Mapping>)

  datatype Response = Response(payload: Payload, status: int)

  const NoDataFound := "No data found"

  // ---------------------------------------------------------------------
  // Dictionaries

  /** The position of the first entry with key `k`, or `|d|` when there is none. */
  function IndexOf(d: Mapping, k: string): (i: nat)
    ensures i <= |d|
    ensures i < |d| ==> d[i].0 == k
    ensures forall j :: 0 <= j < i ==> d[j].0 != k
  {
    if d == [] then 0
    else if d[0].0 == k then 0
    else 1 + IndexOf(d[1..], k)
  }

  function Lookup(d: Mapping, k: string): Option<Scalar> {
    var i := IndexOf(d, k);
    if i < |d| then Some(d[i].1) else None
  }

  /** `d[k] = v`: overwrite in place when the key exists, otherwise append. */
  function Insert(d: Mapping, k: string, v: Scalar): (r: Mapping)
    ensures Lookup(r, k) == Some(v)
    ensures |r| == if Lookup(d, k).Some? then |d| else |d| + 1
  {
    var i := IndexOf(d, k);
    if i < |d| then
      IndexOfUnique(d[i := (k, v)], k, i);
      d[i := (k, v)]
    else
      IndexOfUnique(d + [(k, v)], k, |d|);
      d + [(k, v)]
  }

  /** `dict(items)`: insert the items left to right. */
  function DictOf(items: Row): (d: Mapping)
    ensures DistinctKeys(d)
    ensures |d| <= |items|
  {
    if items == [] then []
    else
      var last := items[|items| - 1];
      InsertKeepsKeysDistinct(DictOf(items[..|items| - 1]), last.0, last.1);
      Insert(DictOf(items[..|items| - 1]), last.0, last.1)
  }

  /** The value of the last item with key `k`. */
  function LastValue(items: Row, k: string): Option<Scalar> {
    if items == [] then None
    else if items[|items| - 1].0 == k then Some(items[|items| - 1].1)
    else LastValue(items[..|items| - 1], k)
  }

  predicate DistinctKeys(d: seq<(string, Scalar)>) {
    forall i, j :: 0 <= i < j < |d| ==> d[i].0 != d[j].0
  }

  /** `IndexOf` is the first position holding the key. */
  lemma IndexOfUnique(d: Mapping, k: string, i: nat)
    requires i <= |d|
    requires i < |d| ==> d[i].0 == k
    requires forall j :: 0 <= j < i ==> d[j].0 != k
    ensures IndexOf(d, k) == i
  {
  }

  lemma InsertKeepsKeysDistinct(d: Mapping, k: string, v: Scalar)
    requires DistinctKeys(d)
    ensures DistinctKeys(Insert(d, k, v))
    ensures forall k' :: Lookup(Insert(d, k, v), k') == if k' == k then Some(v) else Lookup(d, k')
  {
    var d' := Insert(d, k, v);
    var idx := IndexOf(d, k);
    forall k' ensures Lookup(d', k') == if k' == k then Some(v) else Lookup(d, k') {
      var j := IndexOf(d, k');
      if idx < |d| {
        assert forall m :: 0 <= m < |d| ==> d'[m].0 == d[m].0;
        IndexOfUnique(d', k', j);
      } else if k' == k {
        IndexOfUnique(d', k, |d|);
      } else if j < |d| {
        IndexOfUnique(d', k', j);
      } else {
        IndexOfUnique(d', k', |d'|);
      }
    }
  }

  /** Looking a column up in the dictionary gives the last value the row held for it. */
  lemma {:induction false} DictOfLookup(items: Row, k: string)
    ensures Lookup(DictOf(items), k) == LastValue(items, k)
  {
    if items != [] {
      var last := items[|items| - 1];
      var prefix := items[..|items| - 1];
      DictOfLookup(prefix, k);
      InsertKeepsKeysDistinct(DictOf(prefix), last.0, last.1);
    }
  }

  /** When the row's column names are distinct, the dictionary is the row itself, in column order. */
  lemma {:induction false} DictOfIdentity(items: Row)
    requires DistinctKeys(items)
    ensures DictOf(items) == items
  {
    if items != [] {
      var last := items[|items| - 1];
      var prefix := items[..|items| - 1];
      assert DistinctKeys(prefix);
      DictOfIdentity(prefix);
      assert IndexOf(prefix, last.0) == |prefix|;
      assert prefix + [last] == items;
    }
  }

  // ---------------------------------------------------------------------
  // Normalisation

  /** `[dict(row.items()) for row in results]` */
  function ToMappings(rows: seq<Row>): (ms: seq<Mapping>)
    ensures |ms| == |rows|
    ensures forall i :: 0 <= i < |ms| ==> DistinctKeys(ms[i]) && |ms[i]| <= |rows[i]|
  {
    seq(|rows|, i requires 0 <= i < |rows| => DictOf(rows[i]))
  }

  /**
   * The three-way branch: an error gives its text with status 500, zero rows
   * give "No data found" with status 404, and rows give their list with the
   * default status 200.
   */
  function Normalize(o: Outcome): (r: Response)
    ensures r.status == 500 <==> o.Failure?
    ensures r.status == 404 <==> o.Rows? && o.rows == []
    ensures r.status == 200 <==> o.Rows? && o.rows != []
    ensures r.status in {200, 404, 500}
    ensures r.payload.ErrorBody? <==> r.status != 200
    ensures o.Failure? ==> r.payload.error == o.msg
    ensures o.Rows? && o.rows == [] ==> r.payload.error == NoDataFound
  {
    match o
    case Failure(msg) => Response(ErrorBody(msg), 500)
    case Rows(rows) =>
      var mapped := ToMappings(rows);
      if mapped == [] then Response(ErrorBody(NoDataFound), 404)
      else Response(RowList(mapped), 200)
  }

  /**
   * A non-empty result is returned as exactly one dictionary per row, in the
   * warehouse's row order, each holding the row's last value for every column.
   */
  lemma NormalizeRows(rows: seq<Row>)
    requires rows != []
    ensures var r := Normalize(Rows(rows));
      && r.status == 200
      && r.payload.RowList?
      && |r.payload.rows| == |rows|
      && forall i, k :: 0 <= i < |rows| ==> Lookup(r.payload.rows[i], k) == LastValue(rows[i], k)
  {
    var r := Normalize(Rows(rows));
    forall i, k | 0 <= i < |rows| ensures Lookup(r.payload.rows[i], k) == LastValue(rows[i], k) {
      DictOfLookup(rows[i], k);
    }
  }

  /** With distinct column names (as every template's select list has), the payload is the rows themselves. */
  lemma NormalizeRowsExact(rows: seq<Row>)
    requires rows != []
    requires forall i :: 0 <= i < |rows| ==> DistinctKeys(rows[i])
    ensures Normalize(Rows(rows)) == Response(RowList(rows), 200)
  {
    var m := ToMappings(rows);
    forall i | 0 <= i < |rows| ensures m[i] == rows[i] {
      DictOfIdentity(rows[i]);
    }
  }
}
