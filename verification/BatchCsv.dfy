/** The batch payment file: a header and one payment a line, five columns, the
    last of which may hold commas. */
module BatchCsv {
  import opened Common
  import opened Text

  datatype Row = Row(orderId: string, merchant: string, token: string, amount: int, memo: string)

  datatype RowError = ColumnCount(found: nat) | EmptyOrderId | BadMerchant | BadToken | NotPositive | NotInteger

  datatype Outcome =
    | Rows(rows: seq<Row>)
    | EmptyFile
    | HeaderMismatch
    | Invalid(errors: seq<(nat, RowError)>)
    | NoRows

  const HEADER := "order_id,merchant_address,token_address,amount,memo"

  // ── Characters ────────────────────────────────────────────────────────────

  /** The Unicode White_Space property. */
  predicate IsSpace(c: char) {
    var n := c as int;
    || 9 <= n <= 13 || n == 0x20 || n == 0x85 || n == 0xA0 || n == 0x1680 || 0x2000 <= n <= 0x200A
    || n == 0x2028 || n == 0x2029 || n == 0x202F || n == 0x205F || n == 0x3000
  }

  function TrimStart(s: string): string {
    if s != [] && IsSpace(s[0]) then TrimStart(s[1..]) else s
  }

  function TrimEnd(s: string): string {
    if s != [] && IsSpace(s[|s| - 1]) then TrimEnd(s[..|s| - 1]) else s
  }

  function Trim(s: string): string {
    TrimEnd(TrimStart(s))
  }

  predicate Tight(s: string) {
    s == [] || (!IsSpace(s[0]) && !IsSpace(s[|s| - 1]))
  }

  /** Lower-casing as far as it can yield ASCII: the Kelvin sign is the one other
      character whose lower case is an ASCII letter. */
  function LowerChar(c: char): char {
    if 'A' <= c <= 'Z' then (c as int + 32) as char else if c as int == 0x212A then 'k' else c
  }

  function Lower(s: string): string {
    seq(|s|, i requires 0 <= i < |s| => LowerChar(s[i]))
  }

  /** Bytes of the UTF-8 form. */
  function Utf8Length(s: string): nat {
    if s == [] then 0 else
    var n := s[|s| - 1] as int;
    Utf8Length(s[..|s| - 1]) + if n < 0x80 then 1 else if n < 0x800 then 2 else if n < 0x1_0000 then 3 else 4
  }

  /** Lines end in a line feed, with an optional carriage return before it. */
  function Lines(s: string): seq<string>
    decreases |s|
  {
    if s == [] then [] else
    match IndexOf(s, '\n')
    case None => [s]
    case Some(i) => [WithoutReturn(s[..i])] + Lines(s[i + 1..])
  }

  function WithoutReturn(s: string): string {
    if s != [] && s[|s| - 1] == '\r' then s[..|s| - 1] else s
  }

  /** At most `n` pieces, cut at the first commas. */
  function SplitN(s: string, n: nat): (parts: seq<string>)
    requires n >= 1
    ensures 1 <= |parts| <= n
  {
    if n == 1 then [s] else
    match IndexOf(s, ',')
    case None => [s]
    case Some(i) => [s[..i]] + SplitN(s[i + 1..], n - 1)
  }

  // ── One line ──────────────────────────────────────────────────────────────

  predicate IsHeader(line: string, expected: string) {
    Lower(Trim(line)) == expected
  }

  predicate IsBlank(line: string) {
    Trim(line) == []
  }

  predicate IsAddress(s: string) {
    s != [] && s[0] == 'G' && Utf8Length(s) == 56
  }

  function ReadAmount(s: string): Option<int> {
    match ReadInt(s)
    case None => None
    case Some(n) => if -I128_MAX - 1 <= n <= I128_MAX then Some(n) else None
  }

  predicate Valid(row: Row) {
    row.orderId != [] && IsAddress(row.merchant) && IsAddress(row.token) && 0 < row.amount <= I128_MAX
  }

  datatype Reading = Blank | Good(row: Row) | Bad(errors: seq<RowError>)

  function NameErrors(orderId: string, merchant: string, token: string): seq<RowError> {
    (if orderId == [] then [EmptyOrderId] else [])
    + (if IsAddress(merchant) then [] else [BadMerchant])
    + (if IsAddress(token) then [] else [BadToken])
  }

  function AmountErrors(amount: Option<int>): seq<RowError> {
    if amount.None? then [NotInteger] else if amount.value <= 0 then [NotPositive] else []
  }

  /** The checks on five trimmed columns, in order. */
  function ReadColumns(orderId: string, merchant: string, token: string, amountText: string, memo: string): Reading {
    var amount := ReadAmount(amountText);
    var errors := NameErrors(orderId, merchant, token) + AmountErrors(amount);
    if errors == [] then Good(Row(orderId, merchant, token, amount.value, memo)) else Bad(errors)
  }

  function ReadLine(line: string): (r: Reading)
    ensures r.Blank? <==> IsBlank(line)
    ensures Sound(r)
  {
    if IsBlank(line) then Blank else
    var parts := SplitN(Trim(line), 5);
    if |parts| != 5 then Bad([ColumnCount(|parts|)])
    else ReadColumns(Trim(parts[0]), Trim(parts[1]), Trim(parts[2]), Trim(parts[3]), Trim(parts[4]))
  }

  /** An accepted line is a valid row, a refused one has a reason. */
  predicate Sound(r: Reading) {
    (r.Good? ==> Valid(r.row)) && (r.Bad? ==> r.errors != [])
  }

  method CheckColumns(orderId: string, merchant: string, token: string, amountText: string, memo: string)
    returns (row: Option<Row>, errors: seq<RowError>)
    ensures ReadColumns(orderId, merchant, token, amountText, memo) == if row.Some? then Good(row.value) else Bad(errors)
    ensures row.Some? ==> errors == []
  {
    row, errors := None, [];
    var rowOk := true;
    if orderId == [] {
      errors := errors + [EmptyOrderId];
      rowOk := false;
    }
    if !IsAddress(merchant) {
      errors := errors + [BadMerchant];
      rowOk := false;
    }
    if !IsAddress(token) {
      errors := errors + [BadToken];
      rowOk := false;
    }
    assert errors == NameErrors(orderId, merchant, token) && (rowOk <==> errors == []);
    var amount := 0;
    var parsed := ReadAmount(amountText);
    if parsed.Some? && parsed.value > 0 {
      amount := parsed.value;
    } else if parsed.Some? {
      errors := errors + [NotPositive];
      rowOk := false;
    } else {
      errors := errors + [NotInteger];
      rowOk := false;
    }
    assert errors == NameErrors(orderId, merchant, token) + AmountErrors(parsed) && (rowOk <==> errors == []);
    if rowOk {
      row := Some(Row(orderId, merchant, token, amount, memo));
    }
  }

  method ParseLine(line: string) returns (row: Option<Row>, errors: seq<RowError>)
    requires !IsBlank(line)
    ensures ReadLine(line) == if row.Some? then Good(row.value) else Bad(errors)
    ensures row.Some? ==> errors == []
  {
    var parts := SplitN(Trim(line), 5);
    if |parts| != 5 {
      return None, [ColumnCount(|parts|)];
    }
    row, errors := CheckColumns(Trim(parts[0]), Trim(parts[1]), Trim(parts[2]), Trim(parts[3]), Trim(parts[4]));
  }

  // ── The file ──────────────────────────────────────────────────────────────

  /** The index of the first line from `i` on that is not blank, or the number of lines. */
  function HeaderAt(lines: seq<string>, i: nat): (h: nat)
    requires i <= |lines|
    ensures i <= h <= |lines| && (forall k :: i <= k < h ==> IsBlank(lines[k])) && (h < |lines| ==> !IsBlank(lines[h]))
    decreases |lines| - i
  {
    if i < |lines| && IsBlank(lines[i]) then HeaderAt(lines, i + 1) else i
  }

  function Readings(lines: seq<string>): (readings: seq<Reading>)
    ensures |readings| == |lines|
  {
    Map(ReadLine, lines)
  }

  function RowOf(r: Reading): seq<Row> {
    if r.Good? then [r.row] else []
  }

  function RowsOf(readings: seq<Reading>): seq<Row> {
    if readings == [] then [] else RowsOf(readings[..|readings| - 1]) + RowOf(readings[|readings| - 1])
  }

  function Numbered(number: nat, errors: seq<RowError>): seq<(nat, RowError)> {
    seq(|errors|, i requires 0 <= i < |errors| => (number, errors[i]))
  }

  function ErrorsAt(number: nat, r: Reading): seq<(nat, RowError)> {
    if r.Bad? then Numbered(number, r.errors) else []
  }

  function ErrorsOf(readings: seq<Reading>, before: nat): seq<(nat, RowError)> {
    if readings == [] then []
    else ErrorsOf(readings[..|readings| - 1], before) + ErrorsAt(before + |readings|, readings[|readings| - 1])
  }

  lemma OneMoreReading(readings: seq<Reading>, k: nat, before: nat)
    requires k < |readings|
    ensures RowsOf(readings[..k + 1]) == RowsOf(readings[..k]) + RowOf(readings[k])
    ensures ErrorsOf(readings[..k + 1], before) == ErrorsOf(readings[..k], before) + ErrorsAt(before + k + 1, readings[k])
  {
    assert readings[..k + 1][..k] == readings[..k];
  }

  function Verdict(readings: seq<Reading>, before: nat): Outcome {
    var rows, errors := RowsOf(readings), ErrorsOf(readings, before);
    if errors != [] then Invalid(errors) else if rows == [] then NoRows else Rows(rows)
  }

  function ParsedLines(lines: seq<string>, expected: string): Outcome {
    var h := HeaderAt(lines, 0);
    if h == |lines| then EmptyFile
    else if !IsHeader(lines[h], expected) then HeaderMismatch
    else Verdict(Readings(lines[h + 1..]), h + 1)
  }

  function Parsed(content: string): Outcome {
    ParsedLines(Lines(content), HEADER)
  }

  method ParseCsv(content: string) returns (r: Outcome)
    ensures r == Parsed(content)
  {
    r := ParseLines(Lines(content), HEADER);
  }

  lemma FileVerdict(lines: seq<string>, expected: string)
    ensures var h := HeaderAt(lines, 0);
      ParsedLines(lines, expected) == if h == |lines| then EmptyFile
                                      else if !IsHeader(lines[h], expected) then HeaderMismatch
                                      else Verdict(Readings(lines[h + 1..]), h + 1)
  {
    hide HeaderAt, IsHeader, Readings, Verdict;
  }

  method ParseLines(lines: seq<string>, expected: string) returns (r: Outcome)
    ensures r == ParsedLines(lines, expected)
  {
    hide ParsedLines, Readings, Verdict, Lower;
    FileVerdict(lines, expected);
    var i := 0;
    while i < |lines| && Trim(lines[i]) == []
      invariant i <= |lines| && HeaderAt(lines, 0) == HeaderAt(lines, i)
    {
      i := i + 1;
    }
    if i == |lines| {
      return EmptyFile;
    }
    if !IsHeader(lines[i], expected) {
      return HeaderMismatch;
    }
    r := ParseRows(lines[i + 1..], i + 1);
  }

  method ParseRows(data: seq<string>, before: nat) returns (r: Outcome)
    ensures r == Verdict(Readings(data), before)
  {
    var rows, errors := CollectRows(data, before, Readings(data));
    if errors != [] {
      return Invalid(errors);
    }
    if rows == [] {
      return NoRows;
    }
    return Rows(rows);
  }

  method CollectRows(data: seq<string>, before: nat, ghost readings: seq<Reading>)
    returns (rows: seq<Row>, errors: seq<(nat, RowError)>)
    requires readings == Readings(data)
    ensures rows == RowsOf(readings) && errors == ErrorsOf(readings, before)
  {
    rows, errors := [], [];
    for k := 0 to |data|
      invariant Collected(readings, before, k, rows, errors)
    {
      CollectedNext(readings, before, k, rows, errors);
      var more, found := LineResult(data, before, readings, k);
      rows, errors := rows + more, errors + found;
    }
    assert readings[..|data|] == readings;
  }

  /** The rows and errors of the first `k` lines. */
  ghost predicate Collected(readings: seq<Reading>, before: nat, k: nat, rows: seq<Row>, errors: seq<(nat, RowError)>)
    requires k <= |readings|
  {
    rows == RowsOf(readings[..k]) && errors == ErrorsOf(readings[..k], before)
  }

  lemma CollectedNext(readings: seq<Reading>, before: nat, k: nat, rows: seq<Row>, errors: seq<(nat, RowError)>)
    requires k < |readings| && Collected(readings, before, k, rows, errors)
    ensures Collected(readings, before, k + 1, rows + RowOf(readings[k]), errors + ErrorsAt(before + k + 1, readings[k]))
  {
    OneMoreReading(readings, k, before);
  }

  /** What the k-th line gives, under its number. */
  method LineResult(data: seq<string>, before: nat, ghost readings: seq<Reading>, k: nat)
    returns (rows: seq<Row>, errors: seq<(nat, RowError)>)
    requires k < |data| && readings == Readings(data)
    ensures rows == RowOf(readings[k]) && errors == ErrorsAt(before + k + 1, readings[k])
  {
    MapAt(ReadLine, data, k);
    var line := data[k];
    rows, errors := [], [];
    if Trim(line) != [] {
      var row, found := ParseLine(line);
      errors := Numbered(before + k + 1, found);
      if row.Some? {
        rows := [row.value];
      }
    }
  }

  // ── What a result means ───────────────────────────────────────────────────

  function NonBlank(lines: seq<string>): nat {
    if lines == [] then 0 else NonBlank(lines[..|lines| - 1]) + if IsBlank(lines[|lines| - 1]) then 0 else 1
  }

  function Filled(readings: seq<Reading>): nat {
    if readings == [] then 0 else Filled(readings[..|readings| - 1]) + if readings[|readings| - 1].Blank? then 0 else 1
  }

  lemma {:induction false} FilledIsNonBlank(lines: seq<string>)
    ensures Filled(Readings(lines)) == NonBlank(lines)
  {
    if lines != [] {
      FilledIsNonBlank(lines[..|lines| - 1]);
      assert Readings(lines)[..|lines| - 1] == Readings(lines[..|lines| - 1]);
    }
  }

  ghost predicate NoneBad(readings: seq<Reading>) {
    forall i :: 0 <= i < |readings| ==> !readings[i].Bad?
  }

  lemma {:induction false} RowsMeaning(readings: seq<Reading>)
    requires forall r :: r in readings ==> Sound(r)
    ensures forall row :: row in RowsOf(readings) ==> Valid(row)
    ensures NoneBad(readings) ==> |RowsOf(readings)| == Filled(readings)
  {
    if readings != [] {
      RowsMeaning(readings[..|readings| - 1]);
      assert readings[|readings| - 1] in readings;
    }
  }

  lemma {:induction false} ErrorsMeaning(readings: seq<Reading>, before: nat, n: nat, e: RowError)
    ensures (n, e) in ErrorsOf(readings, before) <==>
              before < n <= before + |readings| && readings[n - 1 - before].Bad? && e in readings[n - 1 - before].errors
  {
    if readings != [] {
      ErrorsMeaning(readings[..|readings| - 1], before, n, e);
      var last := readings[|readings| - 1];
      if last.Bad? {
        NumberedMeaning(before + |readings|, last.errors, n, e);
      }
    }
  }

  lemma NumberedMeaning(number: nat, errors: seq<RowError>, n: nat, e: RowError)
    ensures (n, e) in Numbered(number, errors) <==> n == number && e in errors
  {
    if n == number && e in errors {
      var k :| 0 <= k < |errors| && errors[k] == e;
      assert Numbered(number, errors)[k] == (n, e);
    }
  }

  lemma {:induction false} NoErrors(readings: seq<Reading>, before: nat)
    requires forall r :: r in readings ==> Sound(r)
    ensures ErrorsOf(readings, before) == [] <==> NoneBad(readings)
  {
    if readings != [] {
      NoErrors(readings[..|readings| - 1], before);
      assert readings[|readings| - 1] in readings;
      assert NoneBad(readings) <==> NoneBad(readings[..|readings| - 1]) && !readings[|readings| - 1].Bad?;
    }
  }

  lemma {:induction false} ReadingsSound(lines: seq<string>)
    ensures forall r :: r in Readings(lines) ==> Sound(r)
  {
    if lines != [] {
      ReadingsSound(lines[..|lines| - 1]);
    }
  }

  /** At least one line is not blank, and every one that is not is a valid row. */
  ghost predicate Acceptable(data: seq<string>) {
    NonBlank(data) > 0 && NoneBad(Readings(data))
  }

  /** The outcome is valid rows, one for each line that is not blank. */
  ghost predicate RowsFor(r: Outcome, data: seq<string>) {
    r.Rows? && |r.rows| == NonBlank(data) && forall row :: row in r.rows ==> Valid(row)
  }

  lemma VerdictMeaning(data: seq<string>, before: nat)
    ensures var v := Verdict(Readings(data), before);
      if Acceptable(data) then RowsFor(v, data) else !v.Rows?
  {
    var readings := Readings(data);
    ReadingsSound(data);
    NoErrors(readings, before);
    RowsMeaning(readings);
    FilledIsNonBlank(data);
  }

  /** Rows come out exactly when the header matches and the lines after it are acceptable,
      and then one valid row for each of them that is not blank; none is dropped. */
  lemma OkMeaning(lines: seq<string>, expected: string)
    ensures var h, r := HeaderAt(lines, 0), ParsedLines(lines, expected);
      if h < |lines| && IsHeader(lines[h], expected) && Acceptable(lines[h + 1..]) then RowsFor(r, lines[h + 1..])
      else !r.Rows?
  {
    var h := HeaderAt(lines, 0);
    if h < |lines| && IsHeader(lines[h], expected) {
      var data := lines[h + 1..];
      VerdictMeaning(data, h + 1);
      assert ParsedLines(lines, expected) == Verdict(Readings(data), h + 1);
    }
  }

  /** The reported errors are those of the invalid lines, under their 1-based line numbers;
      `before` lines precede the data. */
  lemma InvalidMeaning(readings: seq<Reading>, before: nat, n: nat, e: RowError)
    requires Verdict(readings, before).Invalid?
    ensures (n, e) in Verdict(readings, before).errors <==>
              before < n <= before + |readings| && readings[n - 1 - before].Bad? && e in readings[n - 1 - before].errors
  {
    ErrorsMeaning(readings, before, n, e);
  }

  lemma ReadingAt(lines: seq<string>, h: nat, n: nat)
    requires h + 2 <= n <= |lines|
    ensures Readings(lines[h + 1..])[n - 1 - (h + 1)] == ReadLine(lines[n - 1])
  {
    hide ReadLine, Map;
    var data, k := lines[h + 1..], n - h - 2;
    MapAt(ReadLine, data, k);
    assert data[k] == lines[n - 1];
  }

  /** In a file: the first line that is not blank is the header, and each error reported is that
      of a line after it, under the number of the line in the file, counted from 1. */
  lemma FileErrors(lines: seq<string>, expected: string, n: nat, e: RowError)
    requires ParsedLines(lines, expected).Invalid?
    ensures (n, e) in ParsedLines(lines, expected).errors <==>
              && HeaderAt(lines, 0) + 2 <= n <= |lines|
              && ReadLine(lines[n - 1]).Bad? && e in ReadLine(lines[n - 1]).errors
  {
    hide ReadLine, Readings, Verdict, ParsedLines, HeaderAt, IsHeader;
    var h := HeaderAt(lines, 0);
    FileVerdict(lines, expected);
    InvalidMeaning(Readings(lines[h + 1..]), h + 1, n, e);
    if h + 2 <= n <= |lines| {
      ReadingAt(lines, h, n);
    }
  }

  // ── What the text of a line means ─────────────────────────────────────────

  ghost predicate AllSpaces(s: string) {
    forall i :: 0 <= i < |s| ==> IsSpace(s[i])
  }

  /** Trimming takes white space, and only that, off both ends. */
  lemma {:induction false} TrimMeans(s: string) returns (front: string, back: string)
    ensures s == front + Trim(s) + back && AllSpaces(front) && AllSpaces(back)
  {
    front := StartMeans(s);
    back := EndMeans(TrimStart(s));
  }

  lemma {:induction false} StartMeans(s: string) returns (front: string)
    ensures s == front + TrimStart(s) && AllSpaces(front)
  {
    if s != [] && IsSpace(s[0]) {
      var rest := StartMeans(s[1..]);
      front := [s[0]] + rest;
    } else {
      front := [];
    }
  }

  lemma {:induction false} EndMeans(s: string) returns (back: string)
    ensures s == TrimEnd(s) + back && AllSpaces(back)
  {
    if s != [] && IsSpace(s[|s| - 1]) {
      var rest := EndMeans(s[..|s| - 1]);
      back := rest + [s[|s| - 1]];
    } else {
      back := [];
    }
  }

  /** The same letter up to case, or the Kelvin sign for a k. */
  predicate SameLetter(c: char, d: char) {
    || (c == d && !(65 <= c as int <= 90) && c as int != 0x212A)
    || (65 <= c as int <= 90 && d as int == c as int + 32)
    || (c as int == 0x212A && d == 'k')
  }

  /** A header is taken whatever the case of its letters and the white space around it. */
  lemma HeaderMeans(line: string, expected: string)
    ensures IsHeader(line, expected) <==>
              |Trim(line)| == |expected| && forall i :: 0 <= i < |expected| ==> SameLetter(Trim(line)[i], expected[i])
  {
    hide Trim;
    var t := Trim(line);
    assert |Lower(t)| == |t|;
    if |t| == |expected| {
      assert forall i :: 0 <= i < |t| ==> (Lower(t)[i] == expected[i] <==> SameLetter(t[i], expected[i]));
      assert Lower(t) == expected <==> forall i :: 0 <= i < |t| ==> Lower(t)[i] == expected[i];
    }
  }

  function WithCommas(parts: seq<string>): string {
    if parts == [] then [] else if |parts| == 1 then parts[0] else parts[0] + [','] + WithCommas(parts[1..])
  }

  lemma PutFirst(first: string, rest: seq<string>)
    requires rest != []
    ensures WithCommas([first] + rest) == first + [','] + WithCommas(rest)
  {
    assert ([first] + rest)[1..] == rest;
  }

  lemma {:induction false} SplitJoins(s: string, n: nat)
    requires n >= 1
    ensures WithCommas(SplitN(s, n)) == s
    decreases n
  {
    var at := IndexOf(s, ',');
    if n > 1 && at.Some? {
      var first, rest := s[..at.value], s[at.value + 1..];
      SplitJoins(rest, n - 1);
      PutFirst(first, SplitN(rest, n - 1));
      assert s == first + [','] + rest;
      assert SplitN(s, n) == [first] + SplitN(rest, n - 1);
      hide SplitN, WithCommas, IndexOf;
    } else {
      assert SplitN(s, n) == [s];
    }
  }

  /** The pieces of a line, with commas between them, are the line; there are fewer than n only
      when none holds a comma. */
  lemma SplitMeans(s: string, n: nat)
    requires n >= 1
    ensures WithCommas(SplitN(s, n)) == s
    ensures |SplitN(s, n)| < n ==> forall i :: 0 <= i < |SplitN(s, n)| ==> ',' !in SplitN(s, n)[i]
  {
    hide SplitN, WithCommas;
    SplitJoins(s, n);
    PiecesApart(s, n);
  }

  /** In ASCII every character is one byte. */
  lemma {:induction false} AsciiLength(s: string)
    requires forall i :: 0 <= i < |s| ==> s[i] as int < 128
    ensures Utf8Length(s) == |s|
  {
    if s != [] {
      AsciiLength(s[..|s| - 1]);
    }
  }

  /** An address starts with G and has 56 bytes. */
  predicate AddressLike(s: string) {
    |s| > 0 && s[0] == 'G' && Utf8Length(s) == 56
  }

  /** Exactly which errors a line that is not blank is reported with. */
  lemma LineErrors(line: string, e: RowError)
    requires !IsBlank(line)
    ensures var p := SplitN(Trim(line), 5); var r := ReadLine(line);
      r.Bad? && e in r.errors <==>
        match e
        case ColumnCount(n) => n == |p| < 5
        case EmptyOrderId => |p| == 5 && Trim(p[0]) == ""
        case BadMerchant => |p| == 5 && !AddressLike(Trim(p[1]))
        case BadToken => |p| == 5 && !AddressLike(Trim(p[2]))
        case NotInteger => |p| == 5 && (ReadInt(Trim(p[3])).None? || !InRange(ReadInt(Trim(p[3])).value))
        case NotPositive => |p| == 5 && ReadInt(Trim(p[3])).Some? && InRange(ReadInt(Trim(p[3])).value) && ReadInt(Trim(p[3])).value <= 0
  {
    hide SplitN, Trim, ReadInt, Utf8Length;
  }

  /** The 128-bit range. */
  predicate InRange(n: int) {
    -0x8000_0000_0000_0000_0000_0000_0000_0000 <= n < 0x8000_0000_0000_0000_0000_0000_0000_0000
  }

  /** Which row a line gives: its columns in the order of the header. */
  lemma LineRow(line: string, row: Row)
    ensures ReadLine(line) == Good(row) <==>
              && !IsBlank(line) && |SplitN(Trim(line), 5)| == 5
              && var p := SplitN(Trim(line), 5);
              && row.orderId == Trim(p[0]) != "" && row.merchant == Trim(p[1]) && row.token == Trim(p[2])
              && ReadInt(Trim(p[3])) == Some(row.amount) && row.memo == Trim(p[4])
              && AddressLike(row.merchant) && AddressLike(row.token) && row.amount > 0 && InRange(row.amount)
    ensures HEADER == "order_id,merchant_address,token_address,amount,memo"
  {
    hide SplitN, Trim, ReadInt, Utf8Length;
  }

  // ── Printing and parsing back ─────────────────────────────────────────────

  predicate Plain(s: string) {
    Tight(s) && '\n' !in s
  }

  predicate Column(s: string) {
    Plain(s) && ',' !in s
  }

  /** A valid row whose fields are trimmed and hold no line feed, nor, before the memo, a comma. */
  predicate Printable(row: Row) {
    Valid(row) && Column(row.orderId) && Column(row.merchant) && Column(row.token) && Plain(row.memo)
  }

  function Cell(field: string, rest: string): string {
    field + [','] + rest
  }

  function Line(row: Row): string {
    Cell(row.orderId, Cell(row.merchant, Cell(row.token, Cell(IntString(row.amount), row.memo))))
  }

  function LinesOf(rows: seq<Row>): seq<string> {
    seq(|rows|, i requires 0 <= i < |rows| => Line(rows[i]))
  }

  function Print(lines: seq<string>): string {
    if lines == [] then [] else lines[0] + ['\n'] + Print(lines[1..])
  }

  lemma {:induction false} TightTrim(s: string)
    ensures Tight(Trim(s)) && (Tight(s) ==> Trim(s) == s)
    ensures forall c :: c in Trim(s) ==> c in s
  {
    StartTrimmed(s);
    EndTrimmed(TrimStart(s));
  }

  lemma {:induction false} StartTrimmed(s: string)
    ensures TrimStart(s) == [] || !IsSpace(TrimStart(s)[0])
    ensures forall c :: c in TrimStart(s) ==> c in s
  {
    if s != [] && IsSpace(s[0]) {
      StartTrimmed(s[1..]);
    }
  }

  lemma {:induction false} EndTrimmed(s: string)
    ensures TrimEnd(s) <= s && (TrimEnd(s) == [] || !IsSpace(TrimEnd(s)[|TrimEnd(s)| - 1]))
  {
    if s != [] && IsSpace(s[|s| - 1]) {
      EndTrimmed(s[..|s| - 1]);
    }
  }

  lemma SplitCell(a: string, rest: string, n: nat)
    requires ',' !in a && n >= 2
    ensures SplitN(Cell(a, rest), n) == [a] + SplitN(rest, n - 1)
  {
    IndexOfFirst(a, ',', rest);
    assert Cell(a, rest)[..|a|] == a && Cell(a, rest)[|a| + 1..] == rest;
  }

  lemma SplitTwo(a: string, b: string, rest: string, n: nat)
    requires ',' !in a && ',' !in b && n >= 3
    ensures SplitN(Cell(a, Cell(b, rest)), n) == [a, b] + SplitN(rest, n - 2)
  {
    hide SplitN, Cell;
    var more := SplitN(rest, n - 2);
    SplitCell(b, rest, n - 1);
    SplitCell(a, Cell(b, rest), n);
    assert [a] + ([b] + more) == [a, b] + more;
  }

  lemma AmountColumn(n: nat)
    requires 0 < n <= I128_MAX
    ensures Column(IntString(n)) && ReadAmount(IntString(n)) == Some(n)
  {
    NumberOfDigits(n);
    IntReadBack(n);
  }

  lemma FiveColumns(a: string, b: string, c: string, d: string, e: string)
    requires ',' !in a && ',' !in b && ',' !in c && ',' !in d
    ensures SplitN(Cell(a, Cell(b, Cell(c, Cell(d, e)))), 5) == [a, b, c, d, e]
  {
    var tail := Cell(c, Cell(d, e));
    var rest := SplitN(tail, 3);
    SplitTwo(a, b, tail, 5);
    assert rest == [c, d] + [e] by {
      SplitTwo(c, d, e, 3);
      assert SplitN(e, 1) == [e];
    }
  }

  lemma LineSplits(row: Row)
    requires Printable(row)
    ensures SplitN(Line(row), 5) == [row.orderId, row.merchant, row.token, IntString(row.amount), row.memo]
  {
    AmountColumn(row.amount);
    FiveColumns(row.orderId, row.merchant, row.token, IntString(row.amount), row.memo);
  }

  lemma CellIsPlain(field: string, rest: string)
    requires field != [] && Plain(field) && Plain(rest)
    ensures Cell(field, rest) != [] && Plain(Cell(field, rest))
  {
    var cell := Cell(field, rest);
    assert cell[0] == field[0];
    assert cell[|cell| - 1] == if rest == [] then ',' else rest[|rest| - 1];
  }

  lemma LineIsTight(row: Row)
    requires Printable(row)
    ensures Line(row) != [] && Plain(Line(row)) && WithoutReturn(Line(row)) == Line(row)
  {
    var amount := IntString(row.amount);
    AmountColumn(row.amount);
    NumberOfDigits(row.amount);
    CellIsPlain(amount, row.memo);
    CellIsPlain(row.token, Cell(amount, row.memo));
    CellIsPlain(row.merchant, Cell(row.token, Cell(amount, row.memo)));
    CellIsPlain(row.orderId, Cell(row.merchant, Cell(row.token, Cell(amount, row.memo))));
  }

  lemma LineReadsBack(row: Row)
    requires Printable(row)
    ensures ReadLine(Line(row)) == Good(row)
  {
    var line := Line(row);
    LineIsTight(row);
    TightTrim(line);
    LineSplits(row);
    AmountColumn(row.amount);
    TightTrim(row.orderId);
    TightTrim(row.merchant);
    TightTrim(row.token);
    TightTrim(IntString(row.amount));
    TightTrim(row.memo);
    var parts := SplitN(line, 5);
    assert ReadLine(line) == ReadColumns(Trim(parts[0]), Trim(parts[1]), Trim(parts[2]), Trim(parts[3]), Trim(parts[4]));
  }

  lemma {:induction false} LinesOfPrinted(lines: seq<string>)
    requires forall l :: l in lines ==> '\n' !in l && WithoutReturn(l) == l
    ensures Lines(Print(lines)) == lines
  {
    if lines != [] {
      IndexOfFirst(lines[0], '\n', Print(lines[1..]));
      assert Print(lines)[..|lines[0]|] == lines[0] && Print(lines)[|lines[0]| + 1..] == Print(lines[1..]);
      assert lines[0] in lines;
      LinesOfPrinted(lines[1..]);
    }
  }

  function AllGood(rows: seq<Row>): seq<Reading> {
    seq(|rows|, i requires 0 <= i < |rows| => Good(rows[i]))
  }

  lemma {:induction false} RowsReadBack(rows: seq<Row>)
    ensures RowsOf(AllGood(rows)) == rows
  {
    if rows != [] {
      var front := rows[..|rows| - 1];
      RowsReadBack(front);
      assert AllGood(rows)[..|front|] == AllGood(front);
    }
  }

  lemma GoodVerdict(rows: seq<Row>, before: nat)
    requires rows != [] && forall row :: row in rows ==> Valid(row)
    ensures Verdict(AllGood(rows), before) == Rows(rows)
  {
    RowsReadBack(rows);
    NoErrors(AllGood(rows), before);
  }

  lemma PrintedReadings(rows: seq<Row>)
    requires forall row :: row in rows ==> Printable(row)
    ensures Readings(LinesOf(rows)) == AllGood(rows)
  {
    var lines := LinesOf(rows);
    forall i | 0 <= i < |rows| ensures Readings(lines)[i] == Good(rows[i]) {
      assert rows[i] in rows;
      LineReadsBack(rows[i]);
      MapAt(ReadLine, lines, i);
    }
  }

  /** The verdict on printed rows is the rows. */
  lemma PrintedVerdict(rows: seq<Row>, before: nat)
    requires rows != [] && forall row :: row in rows ==> Printable(row)
    ensures Verdict(Readings(LinesOf(rows)), before) == Rows(rows)
  {
    PrintedReadings(rows);
    GoodVerdict(rows, before);
  }

  lemma HeaderThenData(header: string, data: seq<string>, expected: string)
    requires IsHeader(header, expected) && expected != []
    ensures ParsedLines([header] + data, expected) == Verdict(Readings(data), 1)
  {
    var lines := [header] + data;
    assert |Lower(Trim(header))| == |Trim(header)|;
    assert HeaderAt(lines, 0) == 0 && lines[1..] == data;
  }

  lemma PrintedLines(header: string, rows: seq<Row>)
    requires '\n' !in header && WithoutReturn(header) == header
    requires forall row :: row in rows ==> Printable(row)
    ensures var lines := [header] + LinesOf(rows); Lines(Print(lines)) == lines
  {
    var data := LinesOf(rows);
    forall i | 0 <= i < |rows| ensures '\n' !in data[i] && WithoutReturn(data[i]) == data[i] {
      assert rows[i] in rows;
      LineIsTight(rows[i]);
    }
    LinesOfPrinted([header] + data);
  }

  /** Parsing undoes printing, under every header the parser takes. */
  lemma ParsePrinted(header: string, rows: seq<Row>)
    requires IsHeader(header, HEADER) && '\n' !in header && WithoutReturn(header) == header
    requires rows != [] && forall row :: row in rows ==> Printable(row)
    ensures Parsed(Print([header] + LinesOf(rows))) == Rows(rows)
  {
    PrintedLines(header, rows);
    HeaderThenData(header, LinesOf(rows), HEADER);
    PrintedVerdict(rows, 1);
  }

  lemma {:induction false} LinesHoldNoFeed(s: string)
    ensures forall l :: l in Lines(s) ==> '\n' !in l
    decreases |s|
  {
    var at := IndexOf(s, '\n');
    if at.Some? {
      LinesHoldNoFeed(s[at.value + 1..]);
    }
  }

  /** The pieces hold only characters of the text. */
  lemma {:induction false} PiecesWithin(s: string, n: nat)
    requires n >= 1
    ensures forall piece, c :: piece in SplitN(s, n) && c in piece ==> c in s
    decreases n
  {
    var at := IndexOf(s, ',');
    if n > 1 && at.Some? {
      var rest := s[at.value + 1..];
      PiecesWithin(rest, n - 1);
      assert SplitN(s, n) == [s[..at.value]] + SplitN(rest, n - 1);
      assert forall c :: c in rest || c in s[..at.value] ==> c in s;
    }
  }

  /** All pieces but the n-th hold no comma. */
  lemma {:induction false} PiecesApart(s: string, n: nat)
    requires n >= 1
    ensures forall i :: 0 <= i < |SplitN(s, n)| && i < n - 1 ==> ',' !in SplitN(s, n)[i]
    decreases n
  {
    var at := IndexOf(s, ',');
    if n > 1 && at.Some? {
      var rest := s[at.value + 1..];
      PiecesApart(rest, n - 1);
      assert SplitN(s, n) == [s[..at.value]] + SplitN(rest, n - 1);
    }
  }

  lemma GoodIsPrintable(line: string)
    requires '\n' !in line && ReadLine(line).Good?
    ensures Printable(ReadLine(line).row)
  {
    TightTrim(line);
    var parts := SplitN(Trim(line), 5);
    PiecesWithin(Trim(line), 5);
    PiecesApart(Trim(line), 5);
    TightTrim(parts[0]);
    TightTrim(parts[1]);
    TightTrim(parts[2]);
    TightTrim(parts[4]);
  }

  lemma {:induction false} RowsComeFrom(readings: seq<Reading>, row: Row)
    ensures row in RowsOf(readings) <==> Good(row) in readings
  {
    if readings != [] {
      RowsComeFrom(readings[..|readings| - 1], row);
      assert readings == readings[..|readings| - 1] + [readings[|readings| - 1]];
    }
  }

  /** Whatever was parsed prints to a file that parses to the same rows. */
  lemma ParsedPrints(content: string, header: string)
    requires Parsed(content).Rows?
    requires IsHeader(header, HEADER) && '\n' !in header && WithoutReturn(header) == header
    ensures Parsed(Print([header] + LinesOf(Parsed(content).rows))) == Parsed(content)
  {
    var lines := Lines(content);
    var data := lines[HeaderAt(lines, 0) + 1..];
    var rows := Parsed(content).rows;
    LinesHoldNoFeed(content);
    forall row | row in rows ensures Printable(row) {
      RowsComeFrom(Readings(data), row);
      var i :| 0 <= i < |data| && Readings(data)[i] == Good(row);
      MapAt(ReadLine, data, i);
      assert data[i] in lines;
      GoodIsPrintable(data[i]);
    }
    ParsePrinted(header, rows);
  }
}
