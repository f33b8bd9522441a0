/**
 A small reader of the SQL conditions of the entry query builder, as PostgreSQL evaluates them on
 a row (internal/storage/entry_query_builder.go). A WHERE text is split at " AND "; in every part
 alias, column, operator and placeholder are read off the characters, and each operator is applied
 to the column's value and the numbered argument. Nothing here knows which conditions the builder writes.
 */
module SqlReading {
  import opened Prelude
  import opened Numerals

  type Id = int

  /** What the conditions look at. `found` holds the search queries that match the row. */
  datatype Row = Row(id: Id, userID: Id, feedID: Id, categoryID: Id, author: string, status: string, starred: bool,
                     changedAt: int, publishedAt: int, tags: seq<string>, found: set<string>,
                     categoryHidden: bool, feedHidden: bool)

  datatype Arg = Num(n: int) | Nums(ns: seq<int>) | Text(t: string) | Texts(ts: seq<string>) | Date(d: int)

  /** The aliases a FROM clause binds. */
  type Scope = set<char>

  function Lower(s: string): string {
    if s == [] then [] else [if 'A' <= s[0] <= 'Z' then s[0] - 'A' + 'a' else s[0]] + Lower(s[1..])
  }

  // ---- a text around its placeholder ----

  /** The first `c` at or after `k`. */
  function Find(s: string, c: char, k: nat): (i: nat)
    requires k <= |s|
    ensures k <= i <= |s| && (i < |s| ==> s[i] == c) && forall j :: k <= j < i ==> s[j] != c
    decreases |s| - k
  {
    if k == |s| || s[k] == c then k else Find(s, c, k + 1)
  }

  function DigitsEnd(s: string, k: nat): (i: nat)
    requires k <= |s|
    ensures k <= i <= |s| && (i < |s| ==> !IsDigit(s[i], 10)) && forall j :: k <= j < i ==> IsDigit(s[j], 10)
    decreases |s| - k
  {
    if k == |s| || !IsDigit(s[k], 10) then k else DigitsEnd(s, k + 1)
  }

  /** A text around its first placeholder; without one `digits` is empty. */
  datatype Parsed = Parsed(prefix: string, digits: string, suffix: string)

  function Parse(s: string): Parsed {
    var i := Find(s, '$', 0);
    if i == |s| then Parsed(s, "", "") else
    var j := DigitsEnd(s, i + 1);
    Parsed(s[..i + 1], s[i + 1..j], s[j..])
  }

  /** The text before the placeholder mark. */
  function StemOf(p: Parsed): string {
    if p.digits == "" || p.prefix == "" then p.prefix else p.prefix[..|p.prefix| - 1]
  }

  predicate HasPlaceholder(s: string) { Parse(s).digits != "" }

  function PlaceholderOf(s: string): nat { Value(Parse(s).digits, 10) }

  /** The argument a placeholder number names. */
  function ArgAt(digits: string, args: seq<Arg>): Option<Arg> {
    var n := Value(digits, 10);
    if digits != "" && 1 <= n <= |args| then Some(args[n - 1]) else None
  }

  // ---- alias, column and operator ----

  predicate IsNameChar(c: char) { 'a' <= c <= 'z' || c == '_' }

  function NameEnd(s: string, k: nat): (i: nat)
    requires k <= |s|
    ensures k <= i <= |s| && (i < |s| ==> !IsNameChar(s[i])) && forall j :: k <= j < i ==> IsNameChar(s[j])
    decreases |s| - k
  {
    if k == |s| || !IsNameChar(s[k]) then k else NameEnd(s, k + 1)
  }

  /** A qualified column, what it is tested with, and whether the whole stands in LOWER(. */
  datatype Term = Term(lowered: bool, alias: char, column: string, test: string)

  const LOWER: string := "LOWER("

  predicate StartsWith(s: string, prefix: string) { |s| >= |prefix| && s[..|prefix|] == prefix }

  function Read(s: string): Option<Term> {
    var lowered := StartsWith(s, LOWER);
    var body := if lowered then s[|LOWER|..] else s;
    if |body| < 2 || body[1] != '.' then None
    else
      var n := NameEnd(body, 2);
      Some(Term(lowered, body[0], body[2..n], body[n..]))
  }

  datatype Operator = Equal | NotEqual | Less | Greater | AnyOf | Covers | Matches | IsTrue | IsFalse

  /** The operator spelled between a column and its placeholder. */
  function OperatorOf(test: string): Option<Operator> {
    if test == " = " then Some(Equal)
    else if test == " <> " then Some(NotEqual)
    else if test == " < " then Some(Less)
    else if test == " > " then Some(Greater)
    else if test == " = ANY(" then Some(AnyOf)
    else if test == " is true" || test == " IS TRUE" then Some(IsTrue)
    else if test == " is false" || test == " IS FALSE" then Some(IsFalse)
    else if test == " @@ websearch_to_tsquery(" then Some(Matches)
    else if test == "::text)::text[] @> LOWER(" then Some(Covers)
    else None
  }

  /** What has to follow the placeholder. */
  function Closing(o: Operator): string {
    match o
    case AnyOf | Matches => ")"
    case Covers => "::text[]::text)::text[]"
    case _ => ""
  }

  /** The value of a column. */
  datatype Cell = Number(n: int) | Word(t: string) | Moment(d: int) | Flag(b: bool) | Words(ts: seq<string>)
    | Document(found: set<string>)

  function EntryCell(column: string, row: Row): Option<Cell> {
    if column == "id" then Some(Number(row.id))
    else if column == "user_id" then Some(Number(row.userID))
    else if column == "feed_id" then Some(Number(row.feedID))
    else if column == "author" then Some(Word(row.author))
    else if column == "status" then Some(Word(row.status))
    else if column == "starred" then Some(Flag(row.starred))
    else if column == "changed_at" then Some(Moment(row.changedAt))
    else if column == "published_at" then Some(Moment(row.publishedAt))
    else if column == "tags" then Some(Words(row.tags))
    else if column == "document_vectors" then Some(Document(row.found))
    else None
  }

  function FeedCell(column: string, row: Row): Option<Cell> {
    if column == "category_id" then Some(Number(row.categoryID))
    else if column == "hide_globally" then Some(Flag(row.feedHidden))
    else None
  }

  function CategoryCell(column: string, row: Row): Option<Cell> {
    if column == "hide_globally" then Some(Flag(row.categoryHidden)) else None
  }

  /** The column of entries `e`, feeds `f` or categories `c`; None for one the model does not have. */
  function CellOf(alias: char, column: string, row: Row): Option<Cell> {
    if alias == 'e' then EntryCell(column, row)
    else if alias == 'f' then FeedCell(column, row)
    else if alias == 'c' then CategoryCell(column, row)
    else None
  }

  // ---- the operators ----

  function Same(cell: Cell, arg: Arg): Option<bool> {
    match (cell, arg)
    case (Number(x), Num(n)) => Some(x == n)
    case (Word(x), Text(t)) => Some(x == t)
    case (Moment(x), Date(d)) => Some(x == d)
    case _ => None
  }

  /** Texts are not ordered here. */
  function Below(cell: Cell, arg: Arg): Option<bool> {
    match (cell, arg)
    case (Number(x), Num(n)) => Some(x < n)
    case (Moment(x), Date(d)) => Some(x < d)
    case _ => None
  }

  function Above(cell: Cell, arg: Arg): Option<bool> {
    match (cell, arg)
    case (Number(x), Num(n)) => Some(x > n)
    case (Moment(x), Date(d)) => Some(x > d)
    case _ => None
  }

  function Among(cell: Cell, arg: Arg): Option<bool> {
    match (cell, arg)
    case (Number(x), Nums(ns)) => Some(x in ns)
    case (Word(x), Texts(ts)) => Some(x in ts)
    case _ => None
  }

  /** Every word is among the row's, whatever their case. */
  ghost predicate CoversAll(words: seq<string>, wanted: seq<string>) {
    forall t :: t in wanted ==> exists u :: u in words && Lower(u) == Lower(t)
  }

  /** The value of an operator; None where the server rejects the types. */
  ghost function Apply(o: Operator, cell: Cell, arg: Option<Arg>): Option<bool> {
    match o
    case IsTrue => if cell.Flag? && arg.None? then Some(cell.b) else None
    case IsFalse => if cell.Flag? && arg.None? then Some(!cell.b) else None
    case _ => if arg.None? then None else Compare(o, cell, arg.value)
  }

  ghost function Compare(o: Operator, cell: Cell, arg: Arg): Option<bool> {
    match o
    case Equal => Same(cell, arg)
    case NotEqual => (match Same(cell, arg) case Some(b) => Some(!b) case None => None)
    case Less => Below(cell, arg)
    case Greater => Above(cell, arg)
    case AnyOf => Among(cell, arg)
    case Matches => if cell.Document? && arg.Text? then Some(arg.t in cell.found) else None
    case Covers => if cell.Words? && arg.Texts? then Some(CoversAll(cell.ts, arg.ts)) else None
    case _ => None
  }

  /** A qualified column with its operator and argument. */
  ghost function EvalTerm(t: Term, suffix: string, arg: Option<Arg>, row: Row): Option<bool> {
    match (OperatorOf(t.test), CellOf(t.alias, t.column, row))
    case (Some(o), Some(cell)) =>
      if t.lowered == o.Covers? && suffix == Closing(o) then Apply(o, cell, arg) else None
    case _ => None
  }

  /** The value of a condition; None for text the server would reject. */
  ghost function EvalCond(s: string, scope: Scope, args: seq<Arg>, row: Row): Option<bool> {
    var p := Parse(s);
    match Read(StemOf(p))
    case None => None
    case Some(t) => if t.alias in scope then EvalTerm(t, p.suffix, ArgAt(p.digits, args), row) else None
  }

  // ---- whole texts ----

  const AND: string := " AND "

  predicate AndAt(s: string, k: nat) { k + 5 <= |s| && s[k..k + 5] == AND }

  /** The first " AND " at or after `k`. */
  function FindAnd(s: string, k: nat): (i: nat)
    requires k <= |s|
    ensures k <= i <= |s| && (i < |s| ==> AndAt(s, i)) && forall j :: k <= j < i ==> !AndAt(s, j)
    decreases |s| - k
  {
    if AndAt(s, k) then k
    else if k == |s| then k
    else FindAnd(s, k + 1)
  }

  function Split(s: string): (parts: seq<string>)
    decreases |s|
  {
    var i := FindAnd(s, 0);
    if i == |s| then [s] else [s[..i]] + Split(s[i + 5..])
  }

  /** strings.Join */
  function Join(parts: seq<string>, sep: string): string {
    if parts == [] then "" else if |parts| == 1 then parts[0] else parts[0] + sep + Join(parts[1..], sep)
  }

  ghost function Results(parts: seq<string>, scope: Scope, args: seq<Arg>, row: Row): (rs: seq<Option<bool>>)
    ensures |rs| == |parts|
  {
    if parts == [] then []
    else Results(parts[..|parts| - 1], scope, args, row) + [EvalCond(parts[|parts| - 1], scope, args, row)]
  }

  function Conjunction(rs: seq<Option<bool>>): Option<bool> {
    if None in rs then None else Some(Some(false) !in rs)
  }

  /** The value of a whole WHERE text on a row; None when the server rejects it. */
  ghost function EvalWhere(s: string, scope: Scope, args: seq<Arg>, row: Row): Option<bool> {
    Conjunction(Results(Split(s), scope, args, row))
  }

  // ---- conditions on row numbers ----

  /** A row number is compared with that of a row, or with 0 when there is no such row. */
  datatype RowTest = RowTest(operator: Operator, id: Id)

  /** The value the row number is compared with. */
  predicate IsRowOf(stem: string, suffix: string) {
    stem == "COALESCE((SELECT row_number " + "FROM t WHERE id = " && suffix == "), 0)"
  }

  /** Reads the column and then the operator, up to the C of COALESCE. */
  function RowOperator(stem: string, suffix: string): Option<Operator> {
    var n := NameEnd(stem, 0);
    var m := Find(stem, 'C', n);
    if stem[..n] == "row_number" && IsRowOf(stem[m..], suffix) then OperatorOf(stem[n..m]) else None
  }

  function EvalHigh(s: string, args: seq<Arg>): Option<RowTest> {
    var p := Parse(s);
    match (RowOperator(StemOf(p), p.suffix), ArgAt(p.digits, args))
    case (Some(o), Some(Num(id))) => Some(RowTest(o, id))
    case _ => None
  }
}
