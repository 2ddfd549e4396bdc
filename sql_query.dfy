/**
 * The query text of an analytical warehouse query, as a sequence of tokens.
 *
 * A query is described structurally (select list, source table, filter,
 * grouping, ordering) and rendered into tokens by `Text`. Named parameters
 * appear in the text only as `Placeholder` tokens (`@name`). The tokens do
 * not by themselves keep request values out of the text (an `Ident` may hold
 * any string); that guarantee comes from the templates being built without
 * the request (see `QueryTemplates.TextIndependentOfInputs`).
 */
module SqlQuery {

  import opened Options

  datatype Keyword = Select | As | From | Where | And | BetweenKw | GroupBy | OrderBy | Asc | Desc | Min | Max

  datatype Token =
    | Kw(kw: Keyword)
    | Ident(name: string)                    // a column name or alias written in the template
    | Table(dataset: string, table: string)  // `dataset.table`, spliced from configuration
    | Placeholder(param: string)             // @param
    | IntLit(value: int)
    | Comma | Equals | LParen | RParen

  datatype Aggregate = Plain | MinOf | MaxOf

  /** `column`, `MIN(column)` or `MAX(column)`, optionally `AS alias`. */
  datatype SelectItem = SelectItem(agg: Aggregate, column: string, alias: Option<string>)

  datatype Operand = Param(name: string) | IntConst(value: int)

  datatype Condition =
    | Eq(column: string, rhs: Operand)
    | Between(column: string, low: Operand, high: Operand)

  datatype Direction = Ascending | Descending

  datatype SortKey = SortKey(column: string, dir: Direction)

  /** SELECT select FROM `dataset.table` [WHERE c1 AND c2 ...] [GROUP BY ...] [ORDER BY ...] */
  datatype Query = Query(
    select: seq<SelectItem>,
    dataset: string,
    table: string,
    where: seq<Condition>,
    groupBy: seq<string>,
    orderBy: seq<SortKey>)

  // ---------------------------------------------------------------------
  // Rendering

  function OperandText(o: Operand): seq<Token> {
    match o
    case Param(n) => [Placeholder(n)]
    case IntConst(v) => [IntLit(v)]
  }

  function ItemText(it: SelectItem): seq<Token> {
    var e := match it.agg
      case Plain => [Ident(it.column)]
      case MinOf => [Kw(Min), LParen, Ident(it.column), RParen]
      case MaxOf => [Kw(Max), LParen, Ident(it.column), RParen];
    match it.alias
    case None => e
    case Some(a) => e + [Kw(As), Ident(a)]
  }

  function SelectText(items: seq<SelectItem>): seq<Token> {
    if items == [] then []
    else if |items| == 1 then ItemText(items[0])
    else ItemText(items[0]) + [Comma] + SelectText(items[1..])
  }

  function ConditionText(c: Condition): seq<Token> {
    match c
    case Eq(col, rhs) => [Ident(col), Equals] + OperandText(rhs)
    case Between(col, lo, hi) => [Ident(col), Kw(BetweenKw)] + OperandText(lo) + [Kw(And)] + OperandText(hi)
  }

  /** Conditions joined by AND. */
  function ConditionsText(cs: seq<Condition>): seq<Token> {
    if cs == [] then []
    else if |cs| == 1 then ConditionText(cs[0])
    else ConditionText(cs[0]) + [Kw(And)] + ConditionsText(cs[1..])
  }

  function IdentList(names: seq<string>): seq<Token> {
    if names == [] then []
    else if |names| == 1 then [Ident(names[0])]
    else [Ident(names[0]), Comma] + IdentList(names[1..])
  }

  function SortText(keys: seq<SortKey>): seq<Token> {
    if keys == [] then []
    else
      var k := [Ident(keys[0].column), Kw(if keys[0].dir == Ascending then Asc else Desc)];
      if |keys| == 1 then k else k + [Comma] + SortText(keys[1..])
  }

  function WhereClause(cs: seq<Condition>): seq<Token> {
    if cs == [] then [] else [Kw(Where)] + ConditionsText(cs)
  }

  function GroupByClause(names: seq<string>): seq<Token> {
    if names == [] then [] else [Kw(GroupBy)] + IdentList(names)
  }

  function OrderByClause(keys: seq<SortKey>): seq<Token> {
    if keys == [] then [] else [Kw(OrderBy)] + SortText(keys)
  }

  /** The query text. */
  function Text(q: Query): seq<Token> {
    [Kw(Select)] + SelectText(q.select)
    + [Kw(From), Table(q.dataset, q.table)]
    + WhereClause(q.where)
    + GroupByClause(q.groupBy)
    + OrderByClause(q.orderBy)
  }

  // ---------------------------------------------------------------------
  // Placeholders and parameters

  /** The parameter names referenced in a token sequence, in text order. */
  function Placeholders(ts: seq<Token>): seq<string> {
    if ts == [] then []
    else (if ts[0].Placeholder? then [ts[0].param] else []) + Placeholders(ts[1..])
  }

  /** The `Table` tokens of a token sequence, in text order. */
  function Tables(ts: seq<Token>): seq<(string, string)> {
    if ts == [] then []
    else (if ts[0].Table? then [(ts[0].dataset, ts[0].table)] else []) + Tables(ts[1..])
  }

  function OperandParams(o: Operand): seq<string> {
    if o.Param? then [o.name] else []
  }

  function ConditionParams(c: Condition): seq<string> {
    match c
    case Eq(_, rhs) => OperandParams(rhs)
    case Between(_, lo, hi) => OperandParams(lo) + OperandParams(hi)
  }

  /** The parameters the filter of a query refers to, in filter order. */
  function QueryParams(cs: seq<Condition>): seq<string> {
    if cs == [] then [] else ConditionParams(cs[0]) + QueryParams(cs[1..])
  }

  lemma {:induction false} PlaceholdersAppend(a: seq<Token>, b: seq<Token>)
    ensures Placeholders(a + b) == Placeholders(a) + Placeholders(b)
  {
    if a == [] {
      assert a + b == b;
    } else {
      assert (a + b)[1..] == a[1..] + b;
      PlaceholdersAppend(a[1..], b);
    }
  }

  lemma {:induction false} TablesAppend(a: seq<Token>, b: seq<Token>)
    ensures Tables(a + b) == Tables(a) + Tables(b)
  {
    if a == [] {
      assert a + b == b;
    } else {
      assert (a + b)[1..] == a[1..] + b;
      TablesAppend(a[1..], b);
    }
  }

  lemma PlaceholdersSingle(t: Token)
    ensures Placeholders([t]) == (if t.Placeholder? then [t.param] else [])
    ensures Tables([t]) == (if t.Table? then [(t.dataset, t.table)] else [])
  {
    assert [t][1..] == [];
  }

  /** A token sequence made only of keywords, identifiers and punctuation. */
  ghost predicate Plain(ts: seq<Token>) {
    forall i :: 0 <= i < |ts| ==> !ts[i].Placeholder? && !ts[i].Table?
  }

  lemma {:induction false} PlainHasNone(ts: seq<Token>)
    requires Plain(ts)
    ensures Placeholders(ts) == [] && Tables(ts) == []
  {
    if ts != [] {
      PlainHasNone(ts[1..]);
    }
  }

  lemma {:induction false} SelectTextPlain(items: seq<SelectItem>)
    ensures Placeholders(SelectText(items)) == [] && Tables(SelectText(items)) == []
  {
    if items != [] {
      var e := ItemText(items[0]);
      assert Plain(e);
      if |items| == 1 {
        PlainHasNone(e);
      } else {
        SelectTextPlain(items[1..]);
        PlainHasNone(e + [Comma]);
        PlaceholdersAppend(e + [Comma], SelectText(items[1..]));
        TablesAppend(e + [Comma], SelectText(items[1..]));
      }
    }
  }

  lemma {:induction false} IdentListPlain(names: seq<string>)
    ensures Placeholders(IdentList(names)) == [] && Tables(IdentList(names)) == []
  {
    if |names| > 1 {
      IdentListPlain(names[1..]);
      PlaceholdersAppend([Ident(names[0]), Comma], IdentList(names[1..]));
      TablesAppend([Ident(names[0]), Comma], IdentList(names[1..]));
    } else {
      PlainHasNone(IdentList(names));
    }
  }

  lemma {:induction false} SortTextPlain(keys: seq<SortKey>)
    ensures Placeholders(SortText(keys)) == [] && Tables(SortText(keys)) == []
  {
    if keys != [] {
      var k := [Ident(keys[0].column), Kw(if keys[0].dir == Ascending then Asc else Desc)];
      if |keys| == 1 {
        PlainHasNone(k);
      } else {
        SortTextPlain(keys[1..]);
        PlainHasNone(k + [Comma]);
        PlaceholdersAppend(k + [Comma], SortText(keys[1..]));
        TablesAppend(k + [Comma], SortText(keys[1..]));
      }
    }
  }

  lemma ConditionTextParams(c: Condition)
    ensures Placeholders(ConditionText(c)) == ConditionParams(c)
    ensures Tables(ConditionText(c)) == []
  {
    match c
    case Eq(col, rhs) =>
      PlaceholdersAppend([Ident(col), Equals], OperandText(rhs));
      TablesAppend([Ident(col), Equals], OperandText(rhs));
    case Between(col, lo, hi) =>
      var p := [Ident(col), Kw(BetweenKw)];
      PlaceholdersAppend(p + OperandText(lo) + [Kw(And)], OperandText(hi));
      PlaceholdersAppend(p + OperandText(lo), [Kw(And)]);
      PlaceholdersAppend(p, OperandText(lo));
      TablesAppend(p + OperandText(lo) + [Kw(And)], OperandText(hi));
      TablesAppend(p + OperandText(lo), [Kw(And)]);
      TablesAppend(p, OperandText(lo));
  }

  lemma PlaceholdersJoin(a: seq<Token>, t: Token, b: seq<Token>)
    requires !t.Placeholder? && !t.Table?
    ensures Placeholders(a + [t] + b) == Placeholders(a) + Placeholders(b)
    ensures Tables(a + [t] + b) == Tables(a) + Tables(b)
  {
    PlaceholdersSingle(t);
    PlaceholdersAppend(a, [t]);
    TablesAppend(a, [t]);
    assert Placeholders(a + [t]) == Placeholders(a) && Tables(a + [t]) == Tables(a);
    PlaceholdersAppend(a + [t], b);
    TablesAppend(a + [t], b);
  }

  lemma {:induction false} ConditionsTextParams(cs: seq<Condition>)
    ensures Placeholders(ConditionsText(cs)) == QueryParams(cs)
    ensures Tables(ConditionsText(cs)) == []
  {
    if cs == [] {
    } else if |cs| == 1 {
      ConditionTextParams(cs[0]);
      assert ConditionsText(cs) == ConditionText(cs[0]);
      assert QueryParams(cs) == ConditionParams(cs[0]) + QueryParams(cs[1..]);
      assert QueryParams(cs[1..]) == [];
    } else {
      var head := ConditionText(cs[0]);
      var rest := ConditionsText(cs[1..]);
      assert ConditionsText(cs) == head + [Kw(And)] + rest;
      ConditionTextParams(cs[0]);
      ConditionsTextParams(cs[1..]);
      PlaceholdersJoin(head, Kw(And), rest);
      assert QueryParams(cs) == ConditionParams(cs[0]) + QueryParams(cs[1..]);
    }
  }

  /** A keyword followed by a clause body adds nothing but the body's placeholders and tables. */
  lemma Prefixed(k: Keyword, body: seq<Token>)
    ensures Placeholders([Kw(k)] + body) == Placeholders(body)
    ensures Tables([Kw(k)] + body) == Tables(body)
  {
    PlaceholdersAppend([Kw(k)], body);
    TablesAppend([Kw(k)], body);
    PlaceholdersSingle(Kw(k));
  }

  /**
   * The placeholders of a rendered query are exactly the parameters its
   * filter refers to, in the same order, and the only spliced identifier in
   * the text is the query's own source table.
   */
  lemma TextPlaceholders(q: Query)
    ensures Placeholders(Text(q)) == QueryParams(q.where)
    ensures Tables(Text(q)) == [(q.dataset, q.table)]
  {
    var s := [Kw(Select)] + SelectText(q.select);
    var f := [Kw(From), Table(q.dataset, q.table)];
    var w := WhereClause(q.where);
    var g := GroupByClause(q.groupBy);
    var o := OrderByClause(q.orderBy);
    SelectTextPlain(q.select);
    Prefixed(Select, SelectText(q.select));
    PlaceholdersSingle(Kw(From));
    PlaceholdersSingle(Table(q.dataset, q.table));
    PlaceholdersAppend([Kw(From)], [Table(q.dataset, q.table)]);
    TablesAppend([Kw(From)], [Table(q.dataset, q.table)]);
    assert f == [Kw(From)] + [Table(q.dataset, q.table)];
    ConditionsTextParams(q.where);
    if q.where != [] {
      Prefixed(Where, ConditionsText(q.where));
    }
    IdentListPlain(q.groupBy);
    if q.groupBy != [] {
      Prefixed(GroupBy, IdentList(q.groupBy));
    }
    SortTextPlain(q.orderBy);
    if q.orderBy != [] {
      Prefixed(OrderBy, SortText(q.orderBy));
    }
    TextSplit(s, f, w, g, o);
  }

  lemma TextSplit(s: seq<Token>, f: seq<Token>, w: seq<Token>, g: seq<Token>, o: seq<Token>)
    ensures Placeholders(s + f + w + g + o)
         == Placeholders(s) + Placeholders(f) + Placeholders(w) + Placeholders(g) + Placeholders(o)
    ensures Tables(s + f + w + g + o) == Tables(s) + Tables(f) + Tables(w) + Tables(g) + Tables(o)
  {
    PlaceholdersAppend(s + f + w + g, o);
    PlaceholdersAppend(s + f + w, g);
    PlaceholdersAppend(s + f, w);
    PlaceholdersAppend(s, f);
    TablesAppend(s + f + w + g, o);
    TablesAppend(s + f + w, g);
    TablesAppend(s + f, w);
    TablesAppend(s, f);
  }
}
