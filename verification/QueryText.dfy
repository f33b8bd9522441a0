/**
 The SQL fragments the entry query builder writes (internal/storage/entry_query_builder.go), and
 that the reader of SqlReading, which does not know them, takes each for what it is written for.
 */
module QueryText {
  import opened Prelude
  import opened Numerals
  import opened SqlReading

  /** One for each condition template. */
  datatype Op =
    | OwnedBy | AuthorIs | Search | Starred | NotStarred
    | ChangedBefore | ChangedAfter | PublishedBefore | PublishedAfter
    | IdBelow | IdAbove | IdAmong | IdIs | FeedIs | CategoryIs
    | StatusIs | StatusAmong | TagsInclude | StatusIsNot | CategoryShown | FeedShown

  /** The column of a condition and the start of its test. */
  function Column(op: Op): string {
    match op
    case OwnedBy => ".user_id = "
    case AuthorIs => ".author = "
    case Search => ".document_vectors" + " @@ websearch_to_tsquery("
    case Starred => ".starred is true"
    case NotStarred => ".starred is false"
    case ChangedBefore => ".changed_at < "
    case ChangedAfter => ".changed_at > "
    case PublishedBefore => ".published_at < "
    case PublishedAfter => ".published_at > "
    case IdBelow => ".id < "
    case IdAbove => ".id > "
    case IdAmong => ".id = ANY("
    case IdIs => ".id = "
    case FeedIs => ".feed_id = "
    case CategoryIs => ".category_id = "
    case StatusIs => ".status = "
    case StatusAmong => ".status = ANY("
    case TagsInclude => ".tags::text)::text[] @> LOWER("
    case StatusIsNot => ".status <> "
    case CategoryShown => ".hide_globally IS FALSE"
    case FeedShown => ".hide_globally IS FALSE"
  }

  function Head(op: Op): string { if op.TagsInclude? then "LOWER(" else "" }

  /** A condition up to its placeholder. */
  function Stem(op: Op): string { Head(op) + [AliasOf(op)] + Column(op) }

  function Prefix(op: Op): string { if TakesArg(op) then Stem(op) + "$" else Stem(op) }

  function Suffix(op: Op): string {
    match op
    case Search => ")"
    case IdAmong => ")"
    case StatusAmong => ")"
    case TagsInclude => "::text[]::text)::text[]"
    case _ => ""
  }

  /** The table alias that qualifies the column of a condition. */
  function AliasOf(op: Op): char {
    match op
    case CategoryShown => 'c'
    case CategoryIs | FeedShown => 'f'
    case _ => 'e'
  }

  predicate TakesArg(op: Op) { !op.Starred? && !op.NotStarred? && !op.CategoryShown? && !op.FeedShown? }

  /** The condition with its placeholder number written in. */
  function Cond(op: Op, pos: nat): string {
    if TakesArg(op) then Prefix(op) + Render(pos, 10) + Suffix(op) else Prefix(op)
  }

  predicate Fits(op: Op, a: Arg) {
    match op
    case AuthorIs | Search | StatusIs | StatusIsNot => a.Text?
    case StatusAmong | TagsInclude => a.Texts?
    case IdAmong => a.Nums?
    case ChangedBefore | ChangedAfter | PublishedBefore | PublishedAfter => a.Date?
    case _ => a.Num?
  }

  /** What PostgreSQL makes of a condition and its argument. */
  ghost predicate Means(op: Op, a: Arg, row: Row)
    requires TakesArg(op) ==> Fits(op, a)
  {
    match op
    case OwnedBy => row.userID == a.n
    case AuthorIs => row.author == a.t
    case Search => a.t in row.found
    case Starred => row.starred
    case NotStarred => !row.starred
    case ChangedBefore => row.changedAt < a.d
    case ChangedAfter => row.changedAt > a.d
    case PublishedBefore => row.publishedAt < a.d
    case PublishedAfter => row.publishedAt > a.d
    case IdBelow => row.id < a.n
    case IdAbove => row.id > a.n
    case IdAmong => row.id in a.ns
    case IdIs => row.id == a.n
    case FeedIs => row.feedID == a.n
    case CategoryIs => row.categoryID == a.n
    case StatusIs => row.status == a.t
    case StatusAmong => row.status in a.ts
    case TagsInclude => CoversAll(row.tags, a.ts)
    case StatusIsNot => row.status != a.t
    case CategoryShown => !row.categoryHidden
    case FeedShown => !row.feedHidden
  }

  ghost predicate Tagged(row: Row, tags: seq<string>) {
    forall t :: t in tags ==> exists u :: u in row.tags && Lower(u) == Lower(t)
  }

  /** Two characters that differ in case at most, as LOWER sees it. */
  predicate SameLetter(c: char, d: char) {
    c == d || ('A' <= c <= 'Z' && d == c - 'A' + 'a') || ('A' <= d <= 'Z' && c == d - 'A' + 'a')
  }

  /** Tags are compared letter by letter, whatever their case. */
  lemma {:induction false} LowerComparesLetters(s: string, t: string)
    ensures Lower(s) == Lower(t) <==> |s| == |t| && forall i :: 0 <= i < |s| ==> SameLetter(s[i], t[i])
  {
    LowerEach(s);
    LowerEach(t);
    if Lower(s) == Lower(t) {
      forall i | 0 <= i < |s| ensures SameLetter(s[i], t[i]) { assert Lower(s)[i] == Lower(t)[i]; }
    }
  }

  lemma {:induction false} LowerEach(s: string)
    ensures |Lower(s)| == |s|
    ensures forall i :: 0 <= i < |s| ==> Lower(s)[i] == if 'A' <= s[i] <= 'Z' then s[i] - 'A' + 'a' else s[i]
  {
    if s != [] { LowerEach(s[1..]); }
  }

  // ---- the parts of a template ----

  /** The name of the column a condition looks at. */
  function Name(op: Op): string {
    match op
    case OwnedBy => "user_id"
    case AuthorIs => "author"
    case Search => "document_vectors"
    case Starred | NotStarred => "starred"
    case ChangedBefore | ChangedAfter => "changed_at"
    case PublishedBefore | PublishedAfter => "published_at"
    case IdBelow | IdAbove | IdAmong | IdIs => "id"
    case FeedIs => "feed_id"
    case CategoryIs => "category_id"
    case StatusIs | StatusAmong | StatusIsNot => "status"
    case TagsInclude => "tags"
    case CategoryShown | FeedShown => "hide_globally"
  }

  /** What stands between the column and the placeholder. */
  function Test(op: Op): string {
    match op
    case OwnedBy | AuthorIs | IdIs | FeedIs | CategoryIs | StatusIs => " = "
    case StatusIsNot => " <> "
    case ChangedBefore | PublishedBefore | IdBelow => " < "
    case ChangedAfter | PublishedAfter | IdAbove => " > "
    case IdAmong | StatusAmong => " = ANY("
    case Starred => " is true"
    case NotStarred => " is false"
    case CategoryShown | FeedShown => " IS FALSE"
    case Search => " @@ websearch_to_tsquery("
    case TagsInclude => "::text)::text[] @> LOWER("
  }

  /** Neither a placeholder mark nor the last letter of AND. */
  predicate Plain(s: string) { forall i :: 0 <= i < |s| ==> s[i] != '$' && s[i] != 'D' }

  predicate IsName(s: string) { forall i :: 0 <= i < |s| ==> IsNameChar(s[i]) }

  lemma NumberColumns()
    ensures ".user_id = " == "." + "user_id" + " = "
    ensures ".feed_id = " == "." + "feed_id" + " = "
    ensures ".category_id = " == "." + "category_id" + " = "
  {
  }

  lemma IdColumns()
    ensures ".id = " == "." + "id" + " = "
    ensures ".id < " == "." + "id" + " < "
    ensures ".id > " == "." + "id" + " > "
    ensures ".id = ANY(" == "." + "id" + " = ANY("
  {
  }

  lemma WordColumns()
    ensures ".author = " == "." + "author" + " = "
    ensures ".status = " == "." + "status" + " = "
    ensures ".status <> " == "." + "status" + " <> "
    ensures ".status = ANY(" == "." + "status" + " = ANY("
  {
  }

  lemma ChangedColumns()
    ensures ".changed_at < " == "." + "changed_at" + " < "
    ensures ".changed_at > " == "." + "changed_at" + " > "
  {
  }

  lemma PublishedColumns()
    ensures ".published_at < " == "." + "published_at" + " < "
    ensures ".published_at > " == "." + "published_at" + " > "
  {
  }

  lemma StarredColumns()
    ensures ".starred is true" == "." + "starred" + " is true"
    ensures ".starred is false" == "." + "starred" + " is false"
  {
  }

  lemma HiddenColumns()
    ensures ".hide_globally IS FALSE" == "." + "hide_globally" + " IS FALSE"
  {
  }

  lemma TagColumns()
    ensures ".tags::text)::text[] @> LOWER(" == "." + "tags" + "::text)::text[] @> LOWER("
  {
  }

  lemma SearchColumn()
    ensures ".document_vectors" == "." + "document_vectors"
  {
  }

  /** A column text is a dot, the name and the test. */
  lemma ColumnParts(op: Op)
    ensures Column(op) == "." + Name(op) + Test(op)
  {
    match op
    case OwnedBy | FeedIs | CategoryIs => NumberColumns();
    case IdBelow | IdAbove | IdAmong | IdIs => IdColumns();
    case AuthorIs | StatusIs | StatusAmong | StatusIsNot => WordColumns();
    case ChangedBefore | ChangedAfter => ChangedColumns();
    case PublishedBefore | PublishedAfter => PublishedColumns();
    case Starred | NotStarred => StarredColumns();
    case CategoryShown | FeedShown => HiddenColumns();
    case TagsInclude => TagColumns();
    case Search => SearchColumn();
  }

  lemma Regroup(head: string, alias: char, name: string, test: string)
    ensures head + [alias] + ("." + name + test) == head + ([alias, '.'] + name + test)
  {
    assert [alias] + ("." + name + test) == [alias, '.'] + name + test;
  }

  lemma StemParts(op: Op)
    ensures Stem(op) == Head(op) + ([AliasOf(op), '.'] + Name(op) + Test(op))
  {
    ColumnParts(op);
    Regroup(Head(op), AliasOf(op), Name(op), Test(op));
  }

  lemma NameIsName(op: Op)
    ensures IsName(Name(op))
  {
    ShortNames();
    LongNames();
  }

  lemma ShortNames()
    ensures IsName("id") && IsName("tags") && IsName("status") && IsName("author")
    ensures IsName("user_id") && IsName("feed_id") && IsName("starred")
  {
  }

  lemma LongNames()
    ensures IsName("changed_at") && IsName("category_id") && IsName("published_at")
    ensures IsName("hide_globally") && IsName("document_vectors")
  {
  }

  lemma NamesArePlain(s: string)
    requires IsName(s)
    ensures Plain(s)
  {
  }

  lemma TestIsPlain(op: Op)
    ensures Plain(Test(op))
    ensures Test(op) != "" && !IsNameChar(Test(op)[0])
  {
    assert Plain(" = ") && Plain(" <> ") && Plain(" < ") && Plain(" > ") && Plain(" = ANY(");
    assert Plain(" is true") && Plain(" is false") && Plain(" IS FALSE");
    LongTests();
  }

  lemma LongTests()
    ensures Plain(" @@ websearch_to_tsquery(") && Plain("::text)::text[] @> LOWER(")
  {
  }

  lemma PlainTogether(a: string, b: string)
    requires Plain(a) && Plain(b)
    ensures Plain(a + b)
  {
  }

  lemma StemsArePlain(op: Op)
    ensures Plain(Stem(op)) && Stem(op) != ""
  {
    NameIsName(op);
    NamesArePlain(Name(op));
    TestIsPlain(op);
    var body := [AliasOf(op), '.'] + Name(op);
    PlainTogether([AliasOf(op), '.'], Name(op));
    PlainTogether(body, Test(op));
    assert Plain("LOWER(");
    PlainTogether(Head(op), body + Test(op));
    StemParts(op);
  }

  lemma SuffixShape(op: Op)
    ensures Plain(Suffix(op))
    ensures Suffix(op) != "" ==> !IsDigit(Suffix(op)[0], 10)
    ensures !TakesArg(op) ==> Suffix(op) == ""
  {
  }

  /** A parse finds exactly the parts a text was made of. */
  lemma ParsesBack(stem: string, digits: string, suffix: string)
    requires Plain(stem) && digits != "" && AllDigits(digits, 10)
    requires suffix != "" ==> !IsDigit(suffix[0], 10)
    ensures Parse(stem + "$" + digits + suffix) == Parsed(stem + "$", digits, suffix)
  {
    var s := stem + "$" + digits + suffix;
    FindsDollar(stem, digits + suffix);
    assert stem + "$" + (digits + suffix) == s;
    EndsDigits(stem + "$", digits, suffix);
    assert s[..|stem| + 1] == stem + "$";
  }

  lemma FindsDollar(stem: string, rest: string)
    requires Plain(stem)
    ensures Find(stem + "$" + rest, '$', 0) == |stem|
  {
    var s := stem + "$" + rest;
    assert s[|stem|] == '$' && forall k :: 0 <= k < |stem| ==> s[k] == stem[k];
  }

  lemma EndsDigits(head: string, digits: string, suffix: string)
    requires AllDigits(digits, 10) && (suffix != "" ==> !IsDigit(suffix[0], 10))
    ensures DigitsEnd(head + digits + suffix, |head|) == |head| + |digits|
    ensures (head + digits + suffix)[|head|..|head| + |digits|] == digits
    ensures (head + digits + suffix)[|head| + |digits|..] == suffix
  {
  }

  lemma CondParses(op: Op, pos: nat)
    ensures Parse(Cond(op, pos)) == Parsed(Prefix(op), if TakesArg(op) then Render(pos, 10) else "", Suffix(op))
  {
    StemsArePlain(op);
    SuffixShape(op);
    RenderReadsBack(pos, 10);
    if TakesArg(op) {
      ParsesBack(Stem(op), Render(pos, 10), Suffix(op));
    } else {
      var s := Cond(op, pos);
      assert s == Stem(op) && Find(s, '$', 0) == |s|;
    }
  }

  // ---- the reader takes a template for what it is ----

  /** A qualified column is read as its parts. */
  lemma ReadsTerm(alias: char, column: string, test: string)
    requires IsName(column) && test != "" && !IsNameChar(test[0]) && alias != 'L'
    ensures var body := [alias, '.'] + column + test;
      && Read(body) == Some(Term(false, alias, column, test))
      && Read(LOWER + body) == Some(Term(true, alias, column, test))
  {
    var body := [alias, '.'] + column + test;
    BodyParts(alias, column, test);
    assert LOWER[0] == 'L' && (LOWER + body)[..|LOWER|] == LOWER && (LOWER + body)[|LOWER|..] == body;
  }

  lemma BodyParts(alias: char, column: string, test: string)
    requires IsName(column) && test != "" && !IsNameChar(test[0])
    ensures var body := [alias, '.'] + column + test; var n := 2 + |column|;
      && |body| > n && body[0] == alias && body[1] == '.'
      && NameEnd(body, 2) == n && body[2..n] == column && body[n..] == test
  {
    NameEnds([alias, '.'] + column + test, |column|);
  }

  lemma NameEnds(body: string, n: nat)
    requires 2 + n < |body| && !IsNameChar(body[2 + n]) && forall i :: 2 <= i < 2 + n ==> IsNameChar(body[i])
    ensures NameEnd(body, 2) == 2 + n
  {
  }

  lemma StemReads(op: Op)
    ensures Read(Stem(op)) == Some(Term(op.TagsInclude?, AliasOf(op), Name(op), Test(op)))
  {
    NameIsName(op);
    TestIsPlain(op);
    ReadsTerm(AliasOf(op), Name(op), Test(op));
    var body := [AliasOf(op), '.'] + Name(op) + Test(op);
    assert "" + body == body;
    StemParts(op);
  }

  lemma ReadsOperator(op: Op) returns (o: Operator)
    ensures OperatorOf(Test(op)) == Some(o) && (o.Covers? <==> op.TagsInclude?) && Suffix(op) == Closing(o)
    ensures Tests(op, o)
  {
    o := OperatorOf(Test(op)).value;
  }

  /** The operator a condition tests with. */
  predicate Tests(op: Op, o: Operator) {
    match op
    case OwnedBy | AuthorIs | IdIs | FeedIs | CategoryIs | StatusIs => o.Equal?
    case StatusIsNot => o.NotEqual?
    case ChangedBefore | PublishedBefore | IdBelow => o.Less?
    case ChangedAfter | PublishedAfter | IdAbove => o.Greater?
    case IdAmong | StatusAmong => o.AnyOf?
    case Starred => o.IsTrue?
    case NotStarred | CategoryShown | FeedShown => o.IsFalse?
    case Search => o.Matches?
    case TagsInclude => o.Covers?
  }

  lemma ReadsCell(op: Op, row: Row) returns (cell: Cell)
    ensures CellOf(AliasOf(op), Name(op), row) == Some(cell) && LooksAt(op, row, cell)
  {
    cell := CellOf(AliasOf(op), Name(op), row).value;
  }

  /** The value a condition looks at. */
  predicate LooksAt(op: Op, row: Row, cell: Cell) {
    match op
    case OwnedBy => cell == Number(row.userID)
    case AuthorIs => cell == Word(row.author)
    case Search => cell == Document(row.found)
    case Starred | NotStarred => cell == Flag(row.starred)
    case ChangedBefore | ChangedAfter => cell == Moment(row.changedAt)
    case PublishedBefore | PublishedAfter => cell == Moment(row.publishedAt)
    case IdBelow | IdAbove | IdAmong | IdIs => cell == Number(row.id)
    case FeedIs => cell == Number(row.feedID)
    case CategoryIs => cell == Number(row.categoryID)
    case StatusIs | StatusAmong | StatusIsNot => cell == Word(row.status)
    case TagsInclude => cell == Words(row.tags)
    case CategoryShown => cell == Flag(row.categoryHidden)
    case FeedShown => cell == Flag(row.feedHidden)
  }

  lemma AppliesMeans(op: Op, o: Operator, cell: Cell, a: Arg, row: Row)
    requires Tests(op, o) && LooksAt(op, row, cell) && (TakesArg(op) ==> Fits(op, a))
    ensures Apply(o, cell, if TakesArg(op) then Some(a) else None) == Some(Means(op, a, row))
  {
  }

  /** The operator of the text, applied to the column of the text, has the meaning of the condition. */
  lemma TermMeans(op: Op, a: Arg, row: Row)
    requires TakesArg(op) ==> Fits(op, a)
    ensures EvalTerm(Term(op.TagsInclude?, AliasOf(op), Name(op), Test(op)), Suffix(op),
      if TakesArg(op) then Some(a) else None, row) == Some(Means(op, a, row))
  {
    var o := ReadsOperator(op);
    var cell := ReadsCell(op, row);
    AppliesMeans(op, o, cell, a, row);
  }

  lemma CondReadsBack(op: Op, pos: nat, scope: Scope, args: seq<Arg>, row: Row)
    ensures var digits := if TakesArg(op) then Render(pos, 10) else "";
      var t := Term(op.TagsInclude?, AliasOf(op), Name(op), Test(op));
      EvalCond(Cond(op, pos), scope, args, row) ==
        if AliasOf(op) in scope then EvalTerm(t, Suffix(op), ArgAt(digits, args), row) else None
  {
    CondParses(op, pos);
    StemReads(op);
    assert TakesArg(op) ==> Prefix(op)[..|Prefix(op)| - 1] == Stem(op);
  }

  /** A condition evaluates to what its template means for the numbered argument. */
  lemma CondEvaluates(op: Op, pos: nat, scope: Scope, args: seq<Arg>, row: Row)
    requires AliasOf(op) in scope
    requires TakesArg(op) ==> 1 <= pos <= |args| && Fits(op, args[pos - 1])
    ensures EvalCond(Cond(op, pos), scope, args, row) ==
      Some(Means(op, if TakesArg(op) then args[pos - 1] else Num(0), row))
  {
    CondReadsBack(op, pos, scope, args, row);
    NumberNamesArg(op, pos, args);
    TermMeans(op, if TakesArg(op) then args[pos - 1] else Num(0), row);
  }

  lemma NumberNamesArg(op: Op, pos: nat, args: seq<Arg>)
    requires TakesArg(op) ==> 1 <= pos <= |args|
    ensures ArgAt(if TakesArg(op) then Render(pos, 10) else "", args) ==
      if TakesArg(op) then Some(args[pos - 1]) else None
  {
    RenderReadsBack(pos, 10);
  }

  predicate LacksD(s: string) { forall i :: 0 <= i < |s| ==> s[i] != 'D' }

  lemma PartsLackD(a: string, b: string, c: string)
    requires LacksD(a) && LacksD(b) && LacksD(c)
    ensures LacksD(a + b + c)
  {
  }

  lemma NumbersLackD(n: nat)
    ensures LacksD(Render(n, 10))
  {
    RenderReadsBack(n, 10);
    assert forall i :: 0 <= i < |Render(n, 10)| ==> IsDigit(Render(n, 10)[i], 10);
  }

  lemma PrefixLacksD(op: Op)
    ensures LacksD(Prefix(op)) && LacksD(Suffix(op))
  {
    StemsArePlain(op);
    SuffixShape(op);
  }

  lemma CondLacksD(op: Op, pos: nat)
    ensures LacksD(Cond(op, pos))
  {
    PrefixLacksD(op);
    NumbersLackD(pos);
    PartsLackD(Prefix(op), Render(pos, 10), Suffix(op));
  }

  /** Joined conditions come apart at the same places. */
  lemma {:induction false} SplitUndoesJoin(parts: seq<string>)
    requires parts != [] && forall i :: 0 <= i < |parts| ==> LacksD(parts[i])
    ensures Split(Join(parts, AND)) == parts
  {
    if |parts| == 1 {
      NoAnd(parts[0]);
      assert parts == [parts[0]];
    } else {
      SplitUndoesJoin(parts[1..]);
      SplitStep(parts[0], Join(parts[1..], AND));
      assert parts == [parts[0]] + parts[1..];
    }
  }

  lemma SplitStep(part: string, rest: string)
    requires LacksD(part)
    ensures Split(part + AND + rest) == [part] + Split(rest)
  {
    var s := part + AND + rest;
    FirstAnd(part, rest);
    assert s[..|part|] == part && s[|part| + 5..] == rest;
  }

  lemma AndHasD(s: string)
    ensures forall i: nat :: AndAt(s, i) ==> s[i + 3] == 'D'
  {
  }

  lemma NoAnd(s: string)
    requires LacksD(s)
    ensures FindAnd(s, 0) == |s|
  {
    AndHasD(s);
  }

  lemma FirstAnd(part: string, rest: string)
    requires LacksD(part)
    ensures FindAnd(part + AND + rest, 0) == |part|
  {
    var s := part + AND + rest;
    AndHasD(s);
    assert s[|part|..|part| + 5] == AND;
    assert AndAt(s, |part|);
    assert forall m :: |part| <= m < |part| + 3 ==> s[m] == AND[m - |part|];
    assert forall m :: 0 <= m < |part| ==> s[m] == part[m];
  }

  // ---- whole texts ----

  /** A condition as the builder wrote it. */
  datatype Atom = Atom(op: Op, pos: nat)

  predicate AtomOK(a: Atom, args: seq<Arg>) { TakesArg(a.op) ==> 1 <= a.pos <= |args| && Fits(a.op, args[a.pos - 1]) }

  ghost predicate AtomHolds(a: Atom, args: seq<Arg>, row: Row)
    requires AtomOK(a, args)
  {
    Means(a.op, if TakesArg(a.op) then args[a.pos - 1] else Num(0), row)
  }

  ghost predicate AllOK(atoms: seq<Atom>, args: seq<Arg>) { forall i :: 0 <= i < |atoms| ==> AtomOK(atoms[i], args) }

  /** `conds` is the text of `atoms`. */
  ghost predicate Writes(conds: seq<string>, atoms: seq<Atom>) {
    && |conds| == |atoms|
    && (atoms == [] ||
        var n := |atoms| - 1;
        conds[n] == Cond(atoms[n].op, atoms[n].pos) && Writes(conds[..n], atoms[..n]))
  }

  lemma {:induction false} WritesEach(conds: seq<string>, atoms: seq<Atom>, i: nat)
    requires Writes(conds, atoms) && i < |atoms|
    ensures conds[i] == Cond(atoms[i].op, atoms[i].pos)
  {
    if i < |atoms| - 1 { WritesEach(conds[..|atoms| - 1], atoms[..|atoms| - 1], i); }
  }

  lemma LineEvaluates(a: Atom, scope: Scope, args: seq<Arg>, row: Row)
    requires AtomOK(a, args) && AliasOf(a.op) in scope
    ensures EvalCond(Cond(a.op, a.pos), scope, args, row) == Some(AtomHolds(a, args, row))
  {
    ghost var arg := if TakesArg(a.op) then args[a.pos - 1] else Num(0);
    assert AtomHolds(a, args, row) == Means(a.op, arg, row);
    CondEvaluates(a.op, a.pos, scope, args, row);
  }

  /** The values of the atoms on a row. */
  ghost function Values(atoms: seq<Atom>, args: seq<Arg>, row: Row): (vs: seq<bool>)
    requires AllOK(atoms, args)
    ensures |vs| == |atoms|
  {
    if atoms == [] then [] else Values(atoms[..|atoms| - 1], args, row) + [AtomHolds(atoms[|atoms| - 1], args, row)]
  }

  ghost predicate AllHold(atoms: seq<Atom>, args: seq<Arg>, row: Row)
    requires AllOK(atoms, args)
  {
    false !in Values(atoms, args, row)
  }

  function Somes(vs: seq<bool>): (rs: seq<Option<bool>>)
    ensures Conjunction(rs) == Some(false !in vs)
  {
    if vs == [] then [] else
    var n := |vs| - 1;
    assert vs == vs[..n] + [vs[n]];
    Somes(vs[..n]) + [Some(vs[n])]
  }

  ghost predicate InScope(atoms: seq<Atom>, scope: Scope) {
    forall i :: 0 <= i < |atoms| ==> AliasOf(atoms[i].op) in scope
  }

  lemma {:induction false} ResultsMatch(conds: seq<string>, atoms: seq<Atom>, scope: Scope, args: seq<Arg>, row: Row)
    requires Writes(conds, atoms) && AllOK(atoms, args) && InScope(atoms, scope)
    ensures Results(conds, scope, args, row) == Somes(Values(atoms, args, row))
  {
    if atoms != [] {
      var n := |atoms| - 1;
      ResultsMatch(conds[..n], atoms[..n], scope, args, row);
      LastLineEvaluates(conds, atoms, scope, args, row);
    }
  }

  lemma LastLineEvaluates(conds: seq<string>, atoms: seq<Atom>, scope: Scope, args: seq<Arg>, row: Row)
    requires Writes(conds, atoms) && AllOK(atoms, args) && atoms != [] && InScope(atoms, scope)
    ensures EvalCond(conds[|conds| - 1], scope, args, row) == Some(AtomHolds(atoms[|atoms| - 1], args, row))
  {
    LineEvaluates(atoms[|atoms| - 1], scope, args, row);
  }

  /** Joined conditions come apart at the same places. */
  lemma CondsComeApart(conds: seq<string>, atoms: seq<Atom>)
    requires Writes(conds, atoms) && conds != []
    ensures Split(Join(conds, AND)) == conds
  {
    forall i | 0 <= i < |conds| ensures LacksD(conds[i]) {
      WritesEach(conds, atoms, i);
      CondLacksD(atoms[i].op, atoms[i].pos);
    }
    SplitUndoesJoin(conds);
  }

  /** The joined conditions evaluate to the conjunction of what they were written for. */
  lemma WhereEvaluates(conds: seq<string>, atoms: seq<Atom>, scope: Scope, args: seq<Arg>, row: Row)
    requires Writes(conds, atoms) && AllOK(atoms, args) && conds != [] && InScope(atoms, scope)
    ensures EvalWhere(Join(conds, AND), scope, args, row) == Some(AllHold(atoms, args, row))
  {
    CondsComeApart(conds, atoms);
    ResultsMatch(conds, atoms, scope, args, row);
  }

  /** A condition on a table that the FROM clause does not bind makes the server reject the text. */
  lemma WhereRejected(conds: seq<string>, atoms: seq<Atom>, scope: Scope, args: seq<Arg>, row: Row, i: nat)
    requires Writes(conds, atoms) && i < |atoms| && AliasOf(atoms[i].op) !in scope
    ensures EvalWhere(Join(conds, AND), scope, args, row) == None
  {
    CondsComeApart(conds, atoms);
    WritesEach(conds, atoms, i);
    UnboundIsRejected(atoms[i], scope, args, row);
    ResultAt(conds, scope, args, row, i);
  }

  lemma UnboundIsRejected(a: Atom, scope: Scope, args: seq<Arg>, row: Row)
    requires AliasOf(a.op) !in scope
    ensures EvalCond(Cond(a.op, a.pos), scope, args, row) == None
  {
    CondReadsBack(a.op, a.pos, scope, args, row);
  }

  lemma {:induction false} ResultAt(parts: seq<string>, scope: Scope, args: seq<Arg>, row: Row, i: nat)
    requires i < |parts|
    ensures Results(parts, scope, args, row)[i] == EvalCond(parts[i], scope, args, row)
  {
    if i < |parts| - 1 { ResultAt(parts[..|parts| - 1], scope, args, row, i); }
  }

  // ---- the condition on row numbers ----

  const ROW_OF: string := "COALESCE((SELECT row_number " + "FROM t WHERE id = "
  const HIGH_STEM: string := "row_number" + (" > " + ROW_OF)
  const HIGH_TAIL: string := "), 0)"

  function High(pos: nat): string { HIGH_STEM + "$" + Render(pos, 10) + HIGH_TAIL }

  lemma HighIsPlain()
    ensures Plain(HIGH_STEM) && Plain(HIGH_TAIL)
  {
    assert Plain("COALESCE((SELECT row_number ") && Plain("FROM t WHERE id = ");
    PlainTogether("COALESCE((SELECT row_number ", "FROM t WHERE id = ");
    PlainTogether(" > ", ROW_OF);
    PlainTogether("row_number", " > " + ROW_OF);
  }

  lemma HighLacksD(pos: nat)
    ensures LacksD(High(pos))
  {
    HighIsPlain();
    NumbersLackD(pos);
    PartsLackD(HIGH_STEM + "$", Render(pos, 10), HIGH_TAIL);
  }

  lemma HighParses(pos: nat)
    ensures Parse(High(pos)) == Parsed(HIGH_STEM + "$", Render(pos, 10), HIGH_TAIL)
  {
    HighIsPlain();
    RenderReadsBack(pos, 10);
    ParsesBack(HIGH_STEM, Render(pos, 10), HIGH_TAIL);
  }

  /** The column and the operator are found where they stand. */
  lemma HighReads()
    ensures RowOperator(HIGH_STEM, HIGH_TAIL) == Some(Greater)
  {
    assert IsName("row_number");
    assert forall i :: 0 <= i < 10 ==> HIGH_STEM[i] == "row_number"[i];
    assert HIGH_STEM[10] == ' ' && HIGH_STEM[11] == '>' && HIGH_STEM[12] == ' ' && HIGH_STEM[13] == 'C';
    assert NameEnd(HIGH_STEM, 0) == 10 && Find(HIGH_STEM, 'C', 10) == 13;
    assert HIGH_STEM[..10] == "row_number" && HIGH_STEM[10..13] == " > " && HIGH_STEM[13..] == ROW_OF;
  }

  lemma EvalsHigh(s: string, p: Parsed, o: Operator, id: Id, args: seq<Arg>)
    requires Parse(s) == p && RowOperator(StemOf(p), p.suffix) == Some(o) && ArgAt(p.digits, args) == Some(Num(id))
    ensures EvalHigh(s, args) == Some(RowTest(o, id))
  {
  }

  /** The condition keeps the rows behind the one with the argument's id. */
  lemma HighReadsBack(pos: nat, args: seq<Arg>)
    requires 1 <= pos <= |args| && args[pos - 1].Num?
    ensures EvalHigh(High(pos), args) == Some(RowTest(Greater, args[pos - 1].n))
  {
    var p := Parsed(HIGH_STEM + "$", Render(pos, 10), HIGH_TAIL);
    HighParses(pos);
    HighReads();
    assert StemOf(p) == HIGH_STEM;
    RenderReadsBack(pos, 10);
    EvalsHigh(High(pos), p, Greater, args[pos - 1].n, args);
  }
}
