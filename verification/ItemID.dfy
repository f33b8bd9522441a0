/**
 Google Reader item ids (internal/googlereader/item.go): a 64-bit entry id is written as 16
 hexadecimal digits behind a prefix, and read back from that form, from bare 16-digit
 hexadecimal and from decimal. `ScanHex` is fmt.Sscanf with %016x, `ParseInt` strconv.ParseInt.
 */
module ItemID {
  import opened Prelude
  import opened Numerals

  const TWO_TO_63: int := 0x8000_0000_0000_0000
  const TWO_TO_60: int := 0x1000_0000_0000_0000
  const TEN_TO_15: int := 1_000_000_000_000_000

  const ITEM_ID_PREFIX: string := "tag:google.com,2005:reader/item/"

  const WIDTH: nat := 16

  /** An optional sign and digits, within int64; None is the error. */
  function ParseInt(s: string, b: nat): Option<int> {
    var digits := if s != "" && (s[0] == '+' || s[0] == '-') then s[1..] else s;
    if digits == "" || !IsNumeral(digits, b) then None
    else
      var v: int := Value(digits, b);
      if s[0] == '-' then (if v <= TWO_TO_63 then Some(-v) else None)
      else if v < TWO_TO_63 then Some(v) else None
  }

  /** Unicode white space. */
  predicate IsSpace(c: char) {
    '\U{9}' <= c <= '\U{d}' || c == ' ' || c == '\U{85}' || c == '\U{a0}' || c == '\U{1680}'
    || '\U{2000}' <= c <= '\U{200a}' || c == '\U{2028}' || c == '\U{2029}'
    || c == '\U{202f}' || c == '\U{205f}' || c == '\U{3000}'
  }

  /** The input after leading spaces; None for a newline among them. */
  function SkipSpace(s: string): Option<string> {
    if s == "" then Some(s) else if s[0] == '\n' then None else if IsSpace(s[0]) then SkipSpace(s[1..]) else Some(s)
  }

  /** How many of the first `limit` characters from `k` on are hexadecimal digits. */
  function DigitRun(s: string, k: nat, limit: nat): (n: nat)
    requires k <= |s|
    ensures n <= limit && k + n <= |s|
    ensures forall i :: k <= i < k + n ==> IsDigit(s[i], 16)
    ensures n < limit && k + n < |s| ==> !IsDigit(s[k + n], 16)
    decreases limit
  {
    if limit == 0 || k == |s| || !IsDigit(s[k], 16) then 0 else 1 + DigitRun(s, k + 1, limit - 1)
  }

  /** Reads a sign and digits, at most 16 characters together, and ignores what follows. */
  function ScanHex(input: string): Option<int> {
    match SkipSpace(input)
    case None => None
    case Some(s) =>
      var signed := if s != "" && (s[0] == '+' || s[0] == '-') then 1 else 0;
      var n := DigitRun(s, signed, WIDTH - signed);
      if n == 0 then None else ParseInt(s[..signed + n], 16)
  }

  /** Length in UTF-8. */
  function ByteLength(s: string): nat {
    if s == "" then 0 else
    ByteLength(s[1..])
    + if s[0] < '\U{80}' then 1 else if s[0] < '\U{800}' then 2 else if s[0] < '\U{10000}' then 3 else 4
  }

  predicate HasPrefix(s: string, prefix: string) { |s| >= |prefix| && s[..|prefix|] == prefix }

  function Pad(digits: string, room: nat): string { Zeros(if |digits| < room then room - |digits| else 0) + digits }

  /** Sprintf("%016x"): a sign counts towards the width. */
  function Padded(id: int): string {
    if id < 0 then "-" + Pad(Render(-id, 16), WIDTH - 1) else Pad(Render(id, 16), WIDTH)
  }

  function ConvertEntryIDToLongFormItemID(entryID: int): string { ITEM_ID_PREFIX + Padded(entryID) }

  datatype Error = NotHexadecimal | ZeroID | NotDecimal | NoItems

  function ParseItemID(value: string): Result<int, Error> {
    if HasPrefix(value, ITEM_ID_PREFIX) then
      match ScanHex(value[|ITEM_ID_PREFIX|..])
      case None => Err(NotHexadecimal)
      case Some(id) => if id == 0 then Err(ZeroID) else Ok(id)
    else if ByteLength(value) == 16 && ScanHex(value).Some? then Ok(ScanHex(value).value)
    else
      match ParseInt(value, 10)
      case None => Err(NotDecimal)
      case Some(id) => Ok(id)
  }

  /** Err when there are no items or one of them does not parse, with the first such error. */
  method ParseItemIDsFromRequest(items: seq<string>) returns (r: Result<seq<int>, Error>)
    ensures r.Ok? <==> items != [] && forall i :: 0 <= i < |items| ==> ParseItemID(items[i]).Ok?
    ensures r.Ok? ==> |r.value| == |items| && forall i :: 0 <= i < |items| ==> ParseItemID(items[i]) == Ok(r.value[i])
    ensures r.Err? && items != [] ==>
              exists i :: 0 <= i < |items| && ParseItemID(items[i]) == Err(r.error)
                && forall j :: 0 <= j < i ==> ParseItemID(items[j]).Ok?
  {
    if |items| == 0 {
      return Err(NoItems);
    }
    var itemIDs := new int[|items|];
    for i := 0 to |items|
      invariant forall j :: 0 <= j < i ==> ParseItemID(items[j]) == Ok(itemIDs[j])
    {
      var id := ParseItemID(items[i]);
      if id.Err? {
        return Err(id.error);
      }
      itemIDs[i] := id.value;
    }
    r := Ok(itemIDs[..]);
  }

  // ---- reading digits ----

  lemma DigitsAreBytes(s: string)
    requires AllDigits(s, 16)
    ensures ByteLength(s) == |s|
  {
  }

  lemma {:induction false} RunOfDigits(s: string, k: nat, limit: nat)
    requires k <= |s| && forall i :: k <= i < |s| ==> IsDigit(s[i], 16)
    ensures DigitRun(s, k, limit) == if limit < |s| - k then limit else |s| - k
    decreases limit
  {
  }

  lemma ScansRun(s: string, n: nat)
    requires SkipSpace(s) == Some(s) && s != "" && s[0] != '+' && s[0] != '-' && 0 < n == DigitRun(s, 0, WIDTH)
    ensures ScanHex(s) == ParseInt(s[..n], 16)
  {
  }

  /** Plain digits within the width are read as they are. */
  lemma ScansDigits(s: string)
    requires s != "" && AllDigits(s, 16) && |s| <= WIDTH
    ensures ScanHex(s) == if Value(s, 16) < TWO_TO_63 then Some(Value(s, 16)) else None
  {
    DigitIsPlain(s[0], 16);
    assert SkipSpace(s) == Some(s);
    RunOfDigits(s, 0, WIDTH);
    assert s[..|s|] == s;
    ScansRun(s, |s|);
    ParsesHexDigits(s);
  }

  lemma DigitIsPlain(c: char, b: nat)
    requires IsDigit(c, b) && IsBase(b)
    ensures !IsSpace(c) && c != '\n' && c != '+' && c != '-'
  {
  }

  lemma ParsesHexDigits(s: string)
    requires s != "" && AllDigits(s, 16)
    ensures ParseInt(s, 16) == if Value(s, 16) < TWO_TO_63 then Some(Value(s, 16)) else None
  {
    DigitIsPlain(s[0], 16);
    NumeralsAreDigits(s, 16);
  }

  lemma ParsesDigits(s: string)
    requires s != "" && AllDigits(s, 10)
    ensures ParseInt(s, 10) == if Value(s, 10) < TWO_TO_63 then Some(Value(s, 10)) else None
  {
    DigitIsPlain(s[0], 10);
    NumeralsAreDigits(s, 10);
  }

  lemma DigitsLackPrefix(s: string)
    requires s != "" && (AllDigits(s, 16) || s[0] == '-')
    ensures !HasPrefix(s, ITEM_ID_PREFIX)
  {
    PrefixStarts(s, ITEM_ID_PREFIX);
    assert ITEM_ID_PREFIX[0] == 't' && !IsDigit('t', 16);
  }

  lemma PrefixStarts(s: string, prefix: string)
    requires prefix != "" && s != ""
    ensures HasPrefix(s, prefix) ==> s[0] == prefix[0]
  {
  }

  lemma Powers()
    ensures Power(16, 15) == TWO_TO_60 && Power(16, 16) == 2 * TWO_TO_63 && Power(10, 15) == TEN_TO_15
  {
    assert Power(16, 4) == 0x1_0000;
    assert Power(16, 8) == 0x1_0000_0000;
    assert Power(16, 12) == 0x1_0000_0000_0000;
    assert Power(10, 5) == 100_000;
    assert Power(10, 10) == 10_000_000_000;
  }

  // ---- the forms that come back ----

  lemma PrefixedReads(rest: string)
    ensures ParseItemID(ITEM_ID_PREFIX + rest) ==
      match ScanHex(rest) { case None => Err(NotHexadecimal) case Some(id) => if id == 0 then Err(ZeroID) else Ok(id) }
  {
  }

  lemma PadTo(n: nat, width: nat)
    requires width > 0 && n < Power(16, width)
    ensures var s := Pad(Render(n, 16), width); |s| == width && AllDigits(s, 16) && Value(s, 16) == n
  {
    var digits := Render(n, 16);
    RenderLength(n, 16, width);
    RenderReadsBack(n, 16);
    assert AllDigits(Zeros(width - |digits|), 16);
    ZerosDoNotCount(width - |digits|, digits, 16);
  }

  lemma PaddedValue(id: int)
    requires 0 <= id < TWO_TO_63
    ensures |Padded(id)| == WIDTH && AllDigits(Padded(id), 16) && Value(Padded(id), 16) == id
  {
    Powers();
    PadTo(id, WIDTH);
  }

  /** Padding does not change what is read. */
  lemma PaddedScans(id: int)
    requires 0 <= id < TWO_TO_63
    ensures ScanHex(Padded(id)) == Some(id)
  {
    PaddedValue(id);
    ScansDigits(Padded(id));
  }

  lemma UnpaddedScans(id: int)
    requires 0 <= id < TWO_TO_63
    ensures ScanHex(Render(id, 16)) == Some(id)
  {
    Powers();
    RenderLength(id, 16, WIDTH);
    RenderReadsBack(id, 16);
    ScansDigits(Render(id, 16));
  }

  /** A negative id has room for 15 digits. */
  lemma ShortNegativeScans(id: int)
    requires -TWO_TO_60 < id < 0
    ensures ScanHex(Padded(id)) == Some(id)
  {
    Powers();
    PadTo(-id, WIDTH - 1);
    var body := Pad(Render(-id, 16), WIDTH - 1);
    assert body[..WIDTH - 1] == body;
    SignedScans(body);
    assert Padded(id) == "-" + body;
  }

  /** A longer one loses its last digit on the way back. */
  lemma LongNegativeScans(id: int)
    requires -TWO_TO_63 <= id <= -TWO_TO_60
    ensures ScanHex(Padded(id)) == Some(-(-id / 16))
  {
    var digits := Render(-id, 16);
    Powers();
    RenderLength(-id, 16, WIDTH);
    RenderLength(-id, 16, WIDTH - 1);
    RenderReadsBack(-id, 16);
    RenderReadsBack(-id / 16, 16);
    assert digits[..WIDTH - 1] == Render(-id / 16, 16);
    assert Zeros(0) + digits == digits;
    SignedScans(digits);
  }

  lemma SignedScans(body: string)
    requires WIDTH - 1 <= |body| && AllDigits(body, 16) && Value(body[..WIDTH - 1], 16) <= TWO_TO_63
    ensures ScanHex("-" + body) == Some(0 - Value(body[..WIDTH - 1], 16))
  {
    var s := "-" + body;
    assert SkipSpace(s) == Some(s);
    forall i | 1 <= i < |s| ensures IsDigit(s[i], 16) { assert s[i] == body[i - 1]; }
    RunOfDigits(s, 1, WIDTH - 1);
    var t := s[..WIDTH];
    assert t[1..] == body[..WIDTH - 1];
    NumeralsAreDigits(t[1..], 16);
  }

  /** The long form comes back for every id but zero and the negative ones that need 16 digits. */
  lemma LongFormComesBack(id: int)
    requires -TWO_TO_63 <= id < TWO_TO_63
    ensures ParseItemID(ConvertEntryIDToLongFormItemID(id)) == Ok(id) <==> id != 0 && id > -TWO_TO_60
  {
    PrefixedReads(Padded(id));
    if id >= 0 {
      PaddedScans(id);
    } else if id > -TWO_TO_60 {
      ShortNegativeScans(id);
    } else {
      LongNegativeScans(id);
    }
  }

  /** So does the prefixed form without padding. */
  lemma UnpaddedFormComesBack(id: int)
    requires 0 < id < TWO_TO_63
    ensures ParseItemID(ITEM_ID_PREFIX + Render(id, 16)) == Ok(id)
  {
    PrefixedReads(Render(id, 16));
    UnpaddedScans(id);
  }

  /** And the bare 16 digits, zero included. */
  lemma BareFormComesBack(id: int)
    requires 0 <= id < TWO_TO_63
    ensures ParseItemID(Padded(id)) == Ok(id)
  {
    PaddedValue(id);
    PaddedScans(id);
    DigitsLackPrefix(Padded(id));
    DigitsAreBytes(Padded(id));
  }

  /** Behind the prefix stand 16 digits; a negative id has a sign for one of them, or 17 characters if it needs all. */
  lemma LongFormWidth(id: int)
    requires -TWO_TO_63 <= id < TWO_TO_63
    ensures |ConvertEntryIDToLongFormItemID(id)| == |ITEM_ID_PREFIX| + if id > -TWO_TO_60 then 16 else 17
    ensures HasPrefix(ConvertEntryIDToLongFormItemID(id), "tag:google.com,2005:reader/item/")
    ensures id >= 0 ==> AllDigits(ConvertEntryIDToLongFormItemID(id)[|ITEM_ID_PREFIX|..], 16)
  {
    var text := Padded(id);
    assert (ITEM_ID_PREFIX + text)[..|ITEM_ID_PREFIX|] == ITEM_ID_PREFIX;
    assert (ITEM_ID_PREFIX + text)[|ITEM_ID_PREFIX|..] == text;
    Powers();
    if id >= 0 {
      PaddedValue(id);
    } else {
      RenderLength(-id, 16, WIDTH);
      RenderLength(-id, 16, WIDTH - 1);
    }
  }

  // ---- text that is no id ----

  lemma {:induction false} SkipKeeps(s: string)
    requires SkipSpace(s).Some?
    ensures forall c :: c in SkipSpace(s).value ==> c in s
  {
    if s != "" && IsSpace(s[0]) { SkipKeeps(s[1..]); }
  }

  /** Without a digit there is nothing to scan. */
  lemma ScanNeedsDigit(s: string)
    requires forall i :: 0 <= i < |s| ==> !IsDigit(s[i], 16)
    ensures ScanHex(s) == None
  {
    if SkipSpace(s).Some? {
      SkipKeeps(s);
      var t := SkipSpace(s).value;
      assert forall i :: 0 <= i < |t| ==> t[i] in s;
      assert DigitRun(t, 0, WIDTH) == 0;
      if t != "" { assert DigitRun(t, 1, WIDTH - 1) == 0; }
    }
  }

  /** Text without a digit is refused, with the prefix and without. */
  lemma NoNumberIsRefused(text: string)
    requires forall i :: 0 <= i < |text| ==> !IsDigit(text[i], 16)
    ensures ParseItemID(ITEM_ID_PREFIX + text) == Err(NotHexadecimal)
    ensures !HasPrefix(text, ITEM_ID_PREFIX) ==> ParseItemID(text) == Err(NotDecimal)
  {
    ScanNeedsDigit(text);
    PrefixedReads(text);
    ParseNeedsDigit(text);
  }

  lemma ParseNeedsDigit(s: string)
    requires forall i :: 0 <= i < |s| ==> !IsDigit(s[i], 16)
    ensures ParseInt(s, 10) == None
  {
    if s != "" && (s[0] == '+' || s[0] == '-') {
      if |s| > 1 { assert s[1..][0] == s[1] && !IsDigit(s[1..][0], 10); }
    } else if s != "" {
      assert !IsDigit(s[0], 10);
    }
  }

  /** The text is an optional sign and decimal digits that make up the number. */
  ghost predicate Spells(text: string, n: int) {
    exists digits: string ::
      && digits != "" && AllDigits(digits, 10)
      && ((n == Value(digits, 10) && (text == digits || text == "+" + digits))
        || (n == 0 - Value(digits, 10) && text == "-" + digits))
  }

  /** Text without the prefix that is not 16 bytes long is an id exactly when it spells a decimal within int64. */
  lemma DecimalsOnly(text: string, n: int)
    requires !HasPrefix(text, ITEM_ID_PREFIX) && ByteLength(text) != 16
    ensures ParseItemID(text) == Ok(n) <==> Spells(text, n) && -TWO_TO_63 <= n < TWO_TO_63
  {
    var signed := text != "" && (text[0] == '+' || text[0] == '-');
    var digits := if signed then text[1..] else text;
    if ParseItemID(text) == Ok(n) {
      NumeralsAreDigits(digits, 10);
      assert AllDigits(digits, 10) && digits != "";
      if signed { assert text == [text[0]] + digits; }
      assert n == (if text[0] == '-' then 0 - Value(digits, 10) else Value(digits, 10));
      assert text == digits || text == "+" + digits || text == "-" + digits;
      DigitIsPlain(digits[0], 10);
      assert Spells(text, n);
    }
    if Spells(text, n) {
      SpelledOnce(text, n, digits);
      NumeralsAreDigits(digits, 10);
    }
  }

  lemma SpelledOnce(text: string, n: int, digits: string)
    requires Spells(text, n)
    requires digits == if text != "" && (text[0] == '+' || text[0] == '-') then text[1..] else text
    ensures text != "" && digits != "" && AllDigits(digits, 10)
    ensures n == if text[0] == '-' then 0 - Value(digits, 10) else Value(digits, 10)
  {
    var ds: string :| ds != "" && AllDigits(ds, 10)
      && ((n == Value(ds, 10) && (text == ds || text == "+" + ds)) || (n == 0 - Value(ds, 10) && text == "-" + ds));
    DigitIsPlain(ds[0], 10);
    assert ds == digits;
  }

  /** Spaces behind the prefix are skipped, but not a line break. */
  lemma SpacesAreSkipped(text: string)
    ensures ParseItemID(ITEM_ID_PREFIX + (" " + text)) == ParseItemID(ITEM_ID_PREFIX + text)
    ensures ParseItemID(ITEM_ID_PREFIX + ("\n" + text)) == Err(NotHexadecimal)
  {
    PrefixedReads(" " + text);
    PrefixedReads("\n" + text);
    PrefixedReads(text);
    ScanSkipsSpace(text);
    ScanStopsAtBreak(text);
  }

  lemma ScanSkipsSpace(text: string)
    ensures ScanHex(" " + text) == ScanHex(text)
  {
    var s := " " + text;
    assert s[0] == ' ' && s[1..] == text;
    assert SkipSpace(s) == SkipSpace(text);
  }

  lemma ScanStopsAtBreak(text: string)
    ensures ScanHex("\n" + text) == None
  {
    assert SkipSpace("\n" + text) == None;
  }

  /** Sixteen bytes that begin with digits are read as these digits, whatever comes behind them. */
  lemma RestIsIgnored(digits: string, rest: string)
    requires digits != "" && AllDigits(digits, 16) && rest != "" && !IsDigit(rest[0], 16)
    requires ByteLength(digits + rest) == WIDTH
    ensures ParseItemID(digits + rest) == Ok(Value(digits, 16))
  {
    var s := digits + rest;
    BytesAreMore(s);
    DigitIsPlain(digits[0], 16);
    RunStops(s, 0, |digits|, WIDTH);
    assert s[..|digits|] == digits;
    ParsesHexDigits(digits);
    HexValueBelow(digits);
    Powers();
    HexPowersGrow(|digits|, 15);
    PrefixStarts(s, ITEM_ID_PREFIX);
    assert ITEM_ID_PREFIX[0] == 't' && !IsDigit('t', 16);
  }

  lemma {:induction false} BytesAreMore(s: string)
    ensures ByteLength(s) >= |s|
  {
    if s != "" { BytesAreMore(s[1..]); }
  }

  lemma {:induction false} RunStops(s: string, k: nat, n: nat, limit: nat)
    requires k + n < |s| && n < limit && !IsDigit(s[k + n], 16) && forall i :: k <= i < k + n ==> IsDigit(s[i], 16)
    ensures DigitRun(s, k, limit) == n
    decreases limit
  {
    if n > 0 { RunStops(s, k + 1, n - 1, limit - 1); }
  }

  lemma {:induction false} HexValueBelow(s: string)
    requires AllDigits(s, 16)
    ensures Value(s, 16) < Power(16, |s|)
  {
    if s != "" { HexValueBelow(s[..|s| - 1]); }
  }

  lemma {:induction false} HexPowersGrow(j: nat, k: nat)
    requires j <= k
    ensures Power(16, j) <= Power(16, k)
  {
    if j < k { HexPowersGrow(j, k - 1); }
  }

  // ---- decimal ids ----

  /** More than one digit mean more in base 16 than in base 10. */
  lemma {:induction false} HexIsMore(s: string)
    requires AllDigits(s, 10) && s != "" && s[0] != '0'
    ensures Value(s, 16) >= Value(s, 10) > 0
    ensures |s| > 1 ==> Value(s, 16) > Value(s, 10)
  {
    var n := |s| - 1;
    if n > 0 { HexIsMore(s[..n]); } else { assert s[..0] == []; }
  }

  /** The leading digit bounds the value. */
  lemma {:induction false} LeadingDigit(s: string, b: nat)
    requires IsBase(b) && AllDigits(s, b) && s != ""
    ensures DigitValue(s[0]) * Power(b, |s| - 1) <= Value(s, b) < (DigitValue(s[0]) + 1) * Power(b, |s| - 1)
  {
    var n := |s| - 1;
    if n > 0 {
      LeadingDigit(s[..n], b);
      Scale(Value(s[..n], b), DigitValue(s[0]), Power(b, n - 1), DigitValue(s[n]), b);
    } else {
      assert s[..0] == [];
    }
  }

  lemma Scale(v: nat, d: nat, p: nat, last: nat, b: nat)
    requires d * p <= v < (d + 1) * p && last < b && IsBase(b)
    ensures d * (b * p) <= v * b + last < (d + 1) * (b * p)
  {
  }

  /**
   A decimal id comes back unless it has 16 digits and starts with a digit below 8: then it is
   taken for hexadecimal.
   */
  lemma DecimalComesBack(n: int)
    requires 0 <= n < TWO_TO_63
    ensures ParseItemID(Render(n, 10)) == Ok(n) <==> !(TEN_TO_15 <= n < 8 * TEN_TO_15)
  {
    var s := Render(n, 10);
    RenderReadsBack(n, 10);
    assert AllDigits(s, 16);
    DigitsLackPrefix(s);
    DigitsAreBytes(s);
    ParsesDigits(s);
    Powers();
    RenderLength(n, 10, 15);
    RenderLength(n, 10, 16);
    assert Power(10, 16) == 10 * Power(10, 15);
    if |s| == 16 {
      RenderLeads(n, 10);
      SixteenDigits(s);
    }
  }

  lemma SixteenDigits(s: string)
    requires |s| == 16 && AllDigits(s, 10) && s[0] != '0'
    ensures if Value(s, 10) >= 8 * TEN_TO_15 then ScanHex(s) == None
            else ScanHex(s).Some? && ScanHex(s).value != Value(s, 10)
  {
    Powers();
    ScansDigits(s);
    LeadingDigit(s, 10);
    LeadingDigit(s, 16);
    HexIsMore(s);
    var d := DigitValue(s[0]);
    assert d >= 8 ==> d * Power(16, 15) >= 8 * TWO_TO_60;
    assert d <= 7 ==> (d + 1) * Power(16, 15) <= 8 * TWO_TO_60;
    assert d >= 8 ==> d * Power(10, 15) >= 8 * TEN_TO_15;
    assert d <= 7 ==> (d + 1) * Power(10, 15) <= 8 * TEN_TO_15;
  }
}
