/** Tables as text: the printers, and the loaders built on `fgets`, `strtok` (section 7.24.5.8 of
    ISO/IEC 9899:2011) and `atoi`. `strtok` merges adjacent commas, so an empty field moves every
    later field of its row one place to the left. */
module TableText {
  import opened Numbers
  import opened Shop

  datatype Kind = Int | Str
  datatype Field = Num(n: int) | Text(s: string)

  type Row = seq<Field>

  function KindOf(f: Field): Kind { if f.Num? then Int else Str }

  function Kinds(row: Row): seq<Kind> {
    seq(|row|, i requires 0 <= i < |row| => KindOf(row[i]))
  }

  // ---------------------------------------------------------------------------------------
  // Printing.

  function FieldText(f: Field): string {
    if f.Num? then Printed(f.n) else f.s
  }

  function PrintRow(row: Row): string {
    if row == [] then "\n" else FieldText(row[0]) + "," + PrintRow(row[1..])
  }

  function PrintTable(rows: seq<Row>): string {
    if rows == [] then "" else PrintTable(rows[..|rows| - 1]) + PrintRow(rows[|rows| - 1])
  }

  /** The four printers, over a row's fields in file order: each field through the zeroed `result`
      buffer or copied, then a comma, then the end of the row. */
  method WriteBack<T>(table: array<T>, num: nat, fieldsOf: T -> Row, ghost rows: seq<Row>) returns (putBack: string)
    requires num == |rows| <= table.Length && forall x :: 0 <= x < num ==> fieldsOf(table[x]) == rows[x]
    requires forall x, k :: 0 <= x < num && 0 <= k < |rows[x]| && rows[x][k].Num? ==> -0x8000_0000 <= rows[x][k].n < 0x8000_0000
    ensures putBack == PrintTable(rows)
  {
    putBack := "";
    for x := 0 to num
      invariant putBack == PrintTable(rows[..x])
    {
      var row := fieldsOf(table[x]);
      ghost var done := putBack;
      for k := 0 to |row|
        invariant putBack + PrintRow(row[k..]) == done + PrintRow(row)
      {
        var text := FieldString(row[k]);
        assert PrintRow(row[k..]) == text + "," + PrintRow(row[k + 1..]);
        ghost var sofar := putBack;
        putBack := putBack + text + ",";
        assert putBack + PrintRow(row[k + 1..]) == sofar + (text + "," + PrintRow(row[k + 1..]));
      }
      assert row[|row|..] == [];
      putBack := putBack + "\n";
      assert rows[..x + 1][..x] == rows[..x];
    }
    assert rows[..num] == rows;
  }

  method FieldString(f: Field) returns (text: string)
    requires f.Num? ==> -0x8000_0000 <= f.n < 0x8000_0000
    ensures text == FieldText(f)
  {
    if f.Text? {
      return f.s;
    }
    IntFitsTen(f.n);
    LoopDigitsAreDigits(f.n);
    NumberRoundTripIff(f.n);
    var result := new char[100](_ => '\0');
    IntToCharArray(f.n, result);
    var length := Strlen(result, Printed(f.n));
    text := result[..length];
  }

  // ---------------------------------------------------------------------------------------
  // Loading.

  function SkipCommas(s: string): (r: string)
    ensures |r| <= |s| && (r != "" ==> r[0] != ',')
  {
    if s != "" && s[0] == ',' then SkipCommas(s[1..]) else s
  }

  function UpToComma(s: string): (r: string)
    ensures |r| <= |s| && (s != "" && s[0] != ',' ==> r != "")
  {
    if s == "" || s[0] == ',' then "" else [s[0]] + UpToComma(s[1..])
  }

  /** The next token and what `strtok` remembers; `None` stands for NULL. */
  function StrTok(s: string): (r: Option<(string, string)>)
    ensures r.Some? ==> |r.value.1| < |s|
  {
    var t := SkipCommas(s);
    if t == "" then None
    else
      var token := UpToComma(t);
      Some((token, if |token| < |t| then t[|token| + 1..] else ""))
  }

  function ParseField(k: Kind, token: string): Field {
    if k == Int then Num(Atoi(token)) else Text(token)
  }

  /** The fields of one record; `None` when a token is missing, where the C code passes NULL on. */
  function ParseFields(s: string, kinds: seq<Kind>): Option<Row>
    decreases |kinds|
  {
    if kinds == [] then Some([])
    else
      var t := StrTok(s);
      if t.None? then None
      else
        var rest := ParseFields(t.value.1, kinds[1..]);
        if rest.None? then None else Some([ParseField(kinds[0], t.value.0)] + rest.value)
  }

  /** What `fgets` with room for `size` characters takes: up to and including a newline. */
  function Fgets(s: string, size: nat): (line: string)
    ensures |line| <= |s| && s[..|line|] == line && (s != "" && size > 1 ==> line != "")
  {
    if s == "" || size <= 1 then ""
    else if s[0] == '\n' then "\n"
    else [s[0]] + Fgets(s[1..], size - 1)
  }

  /** The loaders' buffer is `char buffer[200]`. */
  function Load(file: string, kinds: seq<Kind>): Option<seq<Row>>
    decreases |file|
  {
    if file == "" then Some([])
    else
      var line := Fgets(file, 200);
      var rest := Load(file[|line|..], kinds);
      if StrTok(line).None? then rest
      else
        var row := ParseFields(line, kinds);
        if row.None? || rest.None? then None else Some([row.value] + rest.value)
  }

  /** `strtok` with its static pointer. */
  class Tokenizer {
    var rest: string

    constructor ()
      ensures rest == ""
    {
      rest := "";
    }

    method First(s: string) returns (token: Option<string>)
      modifies this
      ensures token == if StrTok(s).Some? then Some(StrTok(s).value.0) else None
      ensures StrTok(s).Some? ==> rest == StrTok(s).value.1
    {
      rest := s;
      token := Next();
    }

    method Next() returns (token: Option<string>)
      modifies this
      ensures token == if StrTok(old(rest)).Some? then Some(StrTok(old(rest)).value.0) else None
      ensures StrTok(old(rest)).Some? ==> rest == StrTok(old(rest)).value.1
    {
      var s := rest;
      while s != "" && s[0] == ','
        invariant SkipCommas(s) == SkipCommas(rest)
        decreases |s|
      {
        s := s[1..];
      }
      if s == "" {
        return None;
      }
      var n := 0;
      while n < |s| && s[n] != ','
        invariant n <= |s| && UpToComma(s) == s[..n] + UpToComma(s[n..])
      {
        assert s[..n + 1] == s[..n] + [s[n]] && s[n..][1..] == s[n + 1..];
        n := n + 1;
      }
      assert UpToComma(s) == s[..n] by { assert UpToComma(s[n..]) == "" && s[..n] + "" == s[..n]; }
      rest := if n < |s| then s[n + 1..] else "";
      return Some(s[..n]);
    }
  }

  /** The fields of one record after its first token. */
  method LoadRecord(tok: Tokenizer, first: string, kinds: seq<Kind>, ghost line: string) returns (row: Option<Row>)
    requires kinds != [] && StrTok(line) == Some((first, tok.rest))
    modifies tok
    ensures row == ParseFields(line, kinds)
  {
    var fields: Row := [ParseField(kinds[0], first)];
    while |fields| < |kinds|
      invariant 0 < |fields| <= |kinds|
      invariant ParseFields(line, kinds) == Prepend(fields, ParseFields(tok.rest, kinds[|fields|..]))
      decreases |kinds| - |fields|
    {
      ghost var before := tok.rest;
      var token := tok.Next();
      if token.None? {
        return None;
      }
      PrependStep(fields, before, kinds);
      fields := fields + [ParseField(kinds[|fields|], token.value)];
    }
    assert kinds[|fields|..] == [] && fields + [] == fields;
    return Some(fields);
  }

  function Prepend(fields: Row, more: Option<Row>): Option<Row> {
    if more.None? then None else Some(fields + more.value)
  }

  lemma PrependStep(fields: Row, s: string, kinds: seq<Kind>)
    requires |fields| < |kinds| && StrTok(s).Some?
    ensures Prepend(fields, ParseFields(s, kinds[|fields|..]))
         == Prepend(fields + [ParseField(kinds[|fields|], StrTok(s).value.0)], ParseFields(StrTok(s).value.1, kinds[|fields| + 1..]))
  {
    var n, f := |fields|, ParseField(kinds[|fields|], StrTok(s).value.0);
    assert kinds[n..][1..] == kinds[n + 1..] && kinds[n..][0] == kinds[n];
    var more := ParseFields(StrTok(s).value.1, kinds[n + 1..]);
    if more.Some? { assert fields + ([f] + more.value) == (fields + [f]) + more.value; }
  }

  /** The four loaders: read a line, split it, convert its fields in order. */
  method LoadFile(file: string, kinds: seq<Kind>) returns (table: Option<seq<Row>>)
    requires kinds != []
    ensures table == Load(file, kinds)
  {
    var tok := new Tokenizer();
    var rest := file;
    var rows: seq<Row> := [];
    ghost var more := Load(rest, kinds);
    assert more.Some? ==> rows + more.value == more.value;
    while rest != ""
      invariant more == Load(rest, kinds)
      invariant Load(file, kinds) == if more.None? then None else Some(rows + more.value)
      decreases |rest|
    {
      var line := Fgets(rest, 200);
      var token := tok.First(line);
      ghost var after := Load(rest[|line|..], kinds);
      if token.Some? {
        var row := LoadRecord(tok, token.value, kinds, line);
        if row.None? {
          return None;
        }
        assert more.Some? ==> rows + more.value == rows + [row.value] + after.value;
        rows := rows + [row.value];
      }
      rest, more := rest[|line|..], after;
    }
    assert rows + [] == rows;
    return Some(rows);
  }

  // ---------------------------------------------------------------------------------------
  // The exact round-trip condition.

  /** Text that a file can hold: no comma, no line end, no NUL, and it fits its `char[20]`. */
  ghost predicate Clean(s: string) {
    |s| < 20 && forall k :: 0 <= k < |s| ==> s[k] != ',' && s[k] != '\n' && s[k] != '\0'
  }

  ghost predicate CleanRow(row: Row) {
    forall k :: 0 <= k < |row| ==>
      (row[k].Text? ==> Clean(row[k].s)) && (row[k].Num? ==> -0x8000_0000 <= row[k].n < 0x8000_0000)
  }

  /** Every string non-empty, every number positive, except that the row's last field may be 0. */
  ghost predicate Printable(row: Row) {
    && (forall k :: 0 <= k < |row| && row[k].Text? ==> row[k].s != "")
    && (forall k :: 0 <= k < |row| && row[k].Num? ==> row[k].n > 0 || (k == |row| - 1 && row[k].n == 0))
  }

  lemma {:induction false} UpToCommaStops(token: string, rest: string)
    requires forall k :: 0 <= k < |token| ==> token[k] != ','
    ensures UpToComma(token + "," + rest) == token && UpToComma(token) == token
  {
    if token != "" {
      UpToCommaStops(token[1..], rest);
      assert (token + "," + rest)[1..] == token[1..] + "," + rest;
    }
  }

  /** The next token of a line that starts with a field's text: an empty field is skipped. */
  lemma StrTokSkipsEmpty(t: string, rest: string)
    requires forall k :: 0 <= k < |t| ==> t[k] != ','
    ensures StrTok(t + "," + rest) == if t == "" then StrTok(rest) else Some((t, rest))
  {
    var s := t + "," + rest;
    if t == "" {
      assert s[0] == ',' && s[1..] == rest;
      assert SkipCommas(s) == SkipCommas(rest);
    } else {
      UpToCommaStops(t, rest);
      assert SkipCommas(s) == s && s[|t| + 1..] == rest;
    }
  }

  /** What `strtok` finds in a printed row: the fields that are not empty, then the line end. */
  function Tokens(row: Row): (ts: seq<string>)
    ensures 1 <= |ts| <= |row| + 1
  {
    if row == [] then ["\n"]
    else (if FieldText(row[0]) == "" then [] else [FieldText(row[0])]) + Tokens(row[1..])
  }

  function ParseTokens(ts: seq<string>, kinds: seq<Kind>): Option<Row> {
    if kinds == [] then Some([])
    else if |ts| < |kinds| then None
    else Some(seq(|kinds|, i requires 0 <= i < |kinds| => ParseField(kinds[i], ts[i])))
  }

  lemma FieldTextIsPlain(f: Field)
    requires f.Text? ==> Clean(f.s)
    ensures forall k :: 0 <= k < |FieldText(f)| ==> FieldText(f)[k] != ',' && FieldText(f)[k] != '\n'
  {
    if f.Num? { NumberRoundTripIff(f.n); }
  }

  lemma EndOfLine(kinds: seq<Kind>)
    ensures ParseFields("\n", kinds) == ParseTokens(["\n"], kinds)
  {
    if kinds != [] {
      assert StrTok("\n") == Some(("\n", "")) by { assert UpToComma("\n") == "\n"; }
      assert StrTok("") == None;
      assert ParseFields("", kinds[1..]) == ParseTokens([], kinds[1..]);
      TokenStep("\n", [], kinds);
      assert ["\n"] + [] == ["\n"];
    }
  }

  lemma {:induction false} PrintedTokens(row: Row, kinds: seq<Kind>)
    requires CleanRow(row)
    ensures ParseFields(PrintRow(row), kinds) == ParseTokens(Tokens(row), kinds)
    decreases |row|
  {
    if row == [] {
      EndOfLine(kinds);
    } else if kinds != [] {
      FieldTextIsPlain(row[0]);
      StrTokSkipsEmpty(FieldText(row[0]), PrintRow(row[1..]));
      if FieldText(row[0]) == "" {
        PrintedTokens(row[1..], kinds);
        SameStrTok(PrintRow(row), PrintRow(row[1..]), kinds);
        assert Tokens(row) == Tokens(row[1..]);
      } else {
        PrintedTokens(row[1..], kinds[1..]);
        TokenStep(FieldText(row[0]), Tokens(row[1..]), kinds);
      }
    }
  }

  lemma TokenStep(t: string, ts: seq<string>, kinds: seq<Kind>)
    requires kinds != []
    ensures ParseTokens([t] + ts, kinds)
         == var more := ParseTokens(ts, kinds[1..]); if more.None? then None else Some([ParseField(kinds[0], t)] + more.value)
  {
    if |kinds| <= |ts| + 1 {
      var a, b := ParseTokens([t] + ts, kinds).value, ParseTokens(ts, kinds[1..]).value;
      forall k | 0 < k < |kinds| ensures a[k] == b[k - 1] {
        assert ([t] + ts)[k] == ts[k - 1] && kinds[1..][k - 1] == kinds[k];
      }
      assert a == [a[0]] + b;
    }
  }

  lemma SameStrTok(a: string, b: string, kinds: seq<Kind>)
    requires StrTok(a) == StrTok(b)
    ensures ParseFields(a, kinds) == ParseFields(b, kinds)
  {
  }

  /** No field prints empty, except possibly one at `gap`. */
  ghost predicate OnlyGap(row: Row, gap: nat) {
    forall k :: 0 <= k < |row| ==> (FieldText(row[k]) == "" <==> k == gap)
  }

  lemma {:induction false} TokensWithGap(row: Row, gap: nat)
    requires OnlyGap(row, gap)
    ensures |Tokens(row)| == if gap < |row| then |row| else |row| + 1
    ensures forall k :: 0 <= k < |row| && k < gap ==> Tokens(row)[k] == FieldText(row[k])
    ensures Tokens(row)[|Tokens(row)| - 1] == "\n"
  {
    if row != [] {
      var rest := row[1..];
      if gap == 0 {
        assert OnlyGap(rest, |rest|);
        TokensWithGap(rest, |rest|);
        assert Tokens(row) == Tokens(rest);
      } else {
        assert OnlyGap(rest, gap - 1);
        TokensWithGap(rest, gap - 1);
        assert Tokens(row) == [FieldText(row[0])] + Tokens(rest);
      }
    }
  }

  lemma {:induction false} AtMostOneGap(row: Row) returns (gap: nat)
    requires |Tokens(row)| >= |row|
    ensures OnlyGap(row, gap)
  {
    gap := 0;
    if row != [] {
      if FieldText(row[0]) != "" {
        var g := AtMostOneGap(row[1..]);
        gap := g + 1;
      } else {
        NoGap(row[1..]);
      }
    }
  }

  lemma {:induction false} NoGap(row: Row)
    requires |Tokens(row)| == |row| + 1
    ensures forall k :: 0 <= k < |row| ==> FieldText(row[k]) != ""
  {
    if row != [] { NoGap(row[1..]); }
  }

  /** Every field is the conversion of the token in its place. */
  ghost predicate FieldByField(row: Row) {
    && |Tokens(row)| >= |row|
    && forall k :: 0 <= k < |row| ==> ParseField(KindOf(row[k]), Tokens(row)[k]) == row[k]
  }

  lemma {:induction false} ReadsBackIff(row: Row)
    requires CleanRow(row)
    ensures ParseFields(PrintRow(row), Kinds(row)) == Some(row) <==> FieldByField(row)
  {
    PrintedTokens(row, Kinds(row));
    var ts := Tokens(row);
    if |ts| >= |row| {
      var back := ParseTokens(ts, Kinds(row)).value;
      assert |back| == |row| && forall k :: 0 <= k < |row| ==> back[k] == ParseField(KindOf(row[k]), ts[k]);
      assert back == row <==> forall k :: 0 <= k < |row| ==> back[k] == row[k];
    }
  }

  lemma {:induction false} ParsedField(f: Field, token: string)
    requires f.Text? ==> Clean(f.s)
    ensures token == FieldText(f) ==> (ParseField(KindOf(f), token) == f <==> f.Text? || f.n >= 0)
    ensures ParseField(KindOf(f), "\n") == f <==> f == Num(0)
  {
    assert Atoi("\n") == 0 && "\n"[0] == '\n';
    if f.Num? { NumberRoundTripIff(f.n); } else if f.s != "" { assert f.s[0] != '\n'; }
  }

  /** The last field is read from the line end. */
  lemma LastIsZero(row: Row, gap: nat)
    requires CleanRow(row) && OnlyGap(row, gap) && gap < |row| && FieldByField(row)
    ensures row[|row| - 1] == Num(0) && gap == |row| - 1
  {
    TokensWithGap(row, gap);
    var f := row[|row| - 1];
    assert ParseField(KindOf(f), "\n") == f;
    ParsedField(f, "\n");
    NumberRoundTripIff(0);
    assert FieldText(f) == "";
  }

  lemma {:induction false} OnlyPrintableReadsBack(row: Row)
    requires CleanRow(row) && ParseFields(PrintRow(row), Kinds(row)) == Some(row)
    ensures Printable(row)
  {
    ReadsBackIff(row);
    var gap := AtMostOneGap(row);
    TokensWithGap(row, gap);
    if gap < |row| {
      LastIsZero(row, gap);
    }
    forall k | 0 <= k < |row| && k != gap
      ensures if row[k].Num? then row[k].n > 0 else row[k].s != ""
    {
      ParsedField(row[k], FieldText(row[k]));
      if row[k].Num? { NumberRoundTripIff(row[k].n); }
    }
  }

  lemma {:induction false} PrintableReadsBack(row: Row)
    requires CleanRow(row) && Printable(row)
    ensures ParseFields(PrintRow(row), Kinds(row)) == Some(row)
  {
    forall k | 0 <= k < |row| ensures FieldText(row[k]) == "" <==> row[k] == Num(0) {
      if row[k].Num? { NumberRoundTripIff(row[k].n); }
    }
    var gap := if row != [] && row[|row| - 1] == Num(0) then |row| - 1 else |row|;
    TokensWithGap(row, gap);
    forall k | 0 <= k < |row| ensures ParseField(KindOf(row[k]), Tokens(row)[k]) == row[k] {
      ParsedField(row[k], Tokens(row)[k]);
    }
    ReadsBackIff(row);
  }

  /** One record: it reads back exactly when it is printable. */
  lemma {:induction false} RowRoundTripIff(row: Row)
    requires CleanRow(row)
    ensures ParseFields(PrintRow(row), Kinds(row)) == Some(row) <==> Printable(row)
  {
    if Printable(row) { PrintableReadsBack(row); }
    if ParseFields(PrintRow(row), Kinds(row)) == Some(row) { OnlyPrintableReadsBack(row); }
  }

  // ---------------------------------------------------------------------------------------
  // Whole tables.

  lemma {:induction false} FgetsLine(s: string, rest: string, size: nat)
    requires |s| + 1 < size && forall k :: 0 <= k < |s| ==> s[k] != '\n'
    ensures Fgets(s + "\n" + rest, size) == s + "\n"
  {
    var t := s + "\n" + rest;
    if s != "" {
      assert t[1..] == s[1..] + "\n" + rest;
      FgetsLine(s[1..], rest, size - 1);
      assert s == [s[0]] + s[1..];
    }
  }

  /** Room for the fields and their commas: ten digits for an int, nineteen characters for a string. */
  function Width(kinds: seq<Kind>): nat {
    if kinds == [] then 0 else (if kinds[0] == Int then 11 else 20) + Width(kinds[1..])
  }

  /** The line of a row without its end, and how long it can get. */
  lemma {:induction false} RowLine(row: Row) returns (s: string)
    requires CleanRow(row)
    ensures PrintRow(row) == s + "\n" && |s| <= Width(Kinds(row))
    ensures forall k :: 0 <= k < |s| ==> s[k] != '\n'
  {
    s := "";
    if row != [] {
      var rest := RowLine(row[1..]);
      var t := FieldText(row[0]);
      FieldTextIsPlain(row[0]);
      if row[0].Num? { IntFitsTen(row[0].n); }
      assert Kinds(row)[1..] == Kinds(row[1..]);
      s := t + "," + rest;
      assert t + "," + (rest + "\n") == s + "\n";
    }
  }

  function PrintRows(rows: seq<Row>): string {
    if rows == [] then "" else PrintRow(rows[0]) + PrintRows(rows[1..])
  }

  lemma {:induction false} PrintOrder(rows: seq<Row>, row: Row)
    ensures PrintRows(rows + [row]) == PrintRows(rows) + PrintRow(row)
  {
    if rows == [] {
      assert rows + [row] == [row] && [row][1..] == [];
    } else {
      assert (rows + [row])[1..] == rows[1..] + [row];
      PrintOrder(rows[1..], row);
    }
  }

  lemma {:induction false} PrintTableIsRows(rows: seq<Row>)
    ensures PrintTable(rows) == PrintRows(rows)
  {
    if rows != [] {
      PrintTableIsRows(rows[..|rows| - 1]);
      PrintOrder(rows[..|rows| - 1], rows[|rows| - 1]);
      assert rows == rows[..|rows| - 1] + [rows[|rows| - 1]];
    }
  }

  lemma {:induction false} LoadLine(row: Row, rest: string, kinds: seq<Kind>)
    requires CleanRow(row) && Width(Kinds(row)) < 199
    ensures Load(PrintRow(row) + rest, kinds)
         == if ParseFields(PrintRow(row), kinds).None? || Load(rest, kinds).None? then None
            else Some([ParseFields(PrintRow(row), kinds).value] + Load(rest, kinds).value)
  {
    var s := RowLine(row);
    FgetsLine(s, rest, 200);
    var file := PrintRow(row) + rest;
    assert file == s + "\n" + rest;
    assert file[|s + "\n"|..] == rest;
    PrintedTokens(row, [Str]);
    assert StrTok(PrintRow(row)).Some?;
  }

  /** Clean rows of the given kinds, whose lines fit the loaders' buffer whatever they hold. */
  ghost predicate CleanTable(rows: seq<Row>, kinds: seq<Kind>) {
    && kinds != [] && Width(kinds) < 199
    && forall r :: 0 <= r < |rows| ==> CleanRow(rows[r]) && Kinds(rows[r]) == kinds
  }

  ghost predicate AllPrintable(rows: seq<Row>) {
    forall r :: 0 <= r < |rows| ==> Printable(rows[r])
  }

  lemma AllPrintableSplit(rows: seq<Row>)
    requires rows != []
    ensures AllPrintable(rows) <==> Printable(rows[0]) && AllPrintable(rows[1..])
  {
  }

  lemma {:induction false} LoadsLineIff(row: Row, rest: string, more: seq<Row>, kinds: seq<Kind>)
    requires CleanRow(row) && Width(Kinds(row)) < 199
    ensures Load(PrintRow(row) + rest, kinds) == Some([row] + more)
       <==> ParseFields(PrintRow(row), kinds) == Some(row) && Load(rest, kinds) == Some(more)
  {
    LoadLine(row, rest, kinds);
    var first, others := ParseFields(PrintRow(row), kinds), Load(rest, kinds);
    if first.Some? && others.Some? { SameParts(first.value, others.value, row, more); }
  }

  lemma SameParts(a: Row, xs: seq<Row>, b: Row, ys: seq<Row>)
    ensures [a] + xs == [b] + ys <==> a == b && xs == ys
  {
    if [a] + xs == [b] + ys {
      assert ([a] + xs)[0] == ([b] + ys)[0] && ([a] + xs)[1..] == xs && ([b] + ys)[1..] == ys;
    }
  }

  lemma {:induction false} LoadsRowsIff(rows: seq<Row>, kinds: seq<Kind>)
    requires CleanTable(rows, kinds)
    ensures Load(PrintRows(rows), kinds) == Some(rows) <==> AllPrintable(rows)
  {
    if rows != [] {
      LoadsRowsIff(rows[1..], kinds);
      LoadsLineIff(rows[0], PrintRows(rows[1..]), rows[1..], kinds);
      RowRoundTripIff(rows[0]);
      AllPrintableSplit(rows);
      assert rows == [rows[0]] + rows[1..];
    }
  }

  /** The table round trip, exactly: loading what was printed gives back the same rows if and only if
      every string is non-empty and every number positive, a row's last number being allowed to
      be 0. */
  lemma TableRoundTripIff(rows: seq<Row>, kinds: seq<Kind>)
    requires CleanTable(rows, kinds)
    ensures Load(PrintTable(rows), kinds) == Some(rows) <==> AllPrintable(rows)
  {
    PrintTableIsRows(rows);
    LoadsRowsIff(rows, kinds);
  }

  // ---------------------------------------------------------------------------------------
  // The four record layouts.

  const PRODUCT_KINDS := [Int, Str, Int, Int, Int]
  const CLIENT_KINDS := [Int, Str, Str, Str, Str, Str, Str, Str]
  const BILL_KINDS := [Int, Int, Str, Str, Str, Str, Str, Str, Int]
  const LINE_KINDS := [Int, Int, Int, Str, Str, Str, Str, Str, Str, Int]

  function ProductRow(p: Product): Row {
    [Num(p.productId), Text(p.productName), Num(p.sellerId), Num(p.quantity), Num(p.price)]
  }

  function ClientRow(c: Client): Row {
    [Num(c.uuid), Text(c.contact.firstName), Text(c.contact.lastName), Text(c.phoneNumber), Text(c.contact.streetAddress),
     Text(c.contact.city), Text(c.contact.state), Text(c.contact.zipCode)]
  }

  function BillRow(b: Bill): Row {
    [Num(b.orderId), Num(b.customerId), Text(b.contact.firstName), Text(b.contact.lastName), Text(b.contact.streetAddress),
     Text(b.contact.city), Text(b.contact.state), Text(b.contact.zipCode), Num(b.totalOrderCost)]
  }

  function LineRow(l: Line): Row {
    [Num(l.orderId), Num(l.productId), Num(l.quantityPurchased), Text(l.contact.firstName), Text(l.contact.lastName),
     Text(l.contact.streetAddress), Text(l.contact.city), Text(l.contact.state), Text(l.contact.zipCode), Num(l.totalPrice)]
  }

  lemma LayoutsFitTheLine()
    ensures Width(PRODUCT_KINDS) < 199 && Width(CLIENT_KINDS) < 199 && Width(BILL_KINDS) < 199 && Width(LINE_KINDS) < 199
  {
  }

  predicate Int32(n: int) { -0x8000_0000 <= n < 0x8000_0000 }

  ghost predicate CleanContact(c: Contact) {
    Clean(c.firstName) && Clean(c.lastName) && Clean(c.streetAddress) && Clean(c.city) && Clean(c.state) && Clean(c.zipCode)
  }

  predicate FullContact(c: Contact) {
    c.firstName != "" && c.lastName != "" && c.streetAddress != "" && c.city != "" && c.state != "" && c.zipCode != ""
  }

  ghost predicate CleanProduct(p: Product) {
    Int32(p.productId) && Clean(p.productName) && Int32(p.sellerId) && Int32(p.quantity) && Int32(p.price)
  }

  ghost predicate CleanClient(c: Client) {
    Int32(c.uuid) && CleanContact(c.contact) && Clean(c.phoneNumber)
  }

  ghost predicate CleanBill(b: Bill) {
    Int32(b.orderId) && Int32(b.customerId) && CleanContact(b.contact) && Int32(b.totalOrderCost)
  }

  ghost predicate CleanLine(l: Line) {
    Int32(l.orderId) && Int32(l.productId) && Int32(l.quantityPurchased) && CleanContact(l.contact) && Int32(l.totalPrice)
  }

  predicate StorableProduct(p: Product) {
    p.productId > 0 && p.productName != "" && p.sellerId > 0 && p.quantity > 0 && p.price >= 0
  }

  predicate StorableClient(c: Client) {
    c.uuid > 0 && FullContact(c.contact) && c.phoneNumber != ""
  }

  predicate StorableBill(b: Bill) {
    b.orderId > 0 && b.customerId > 0 && FullContact(b.contact) && b.totalOrderCost >= 0
  }

  predicate StorableLine(l: Line) {
    l.orderId > 0 && l.productId > 0 && l.quantityPurchased > 0 && FullContact(l.contact) && l.totalPrice >= 0
  }

  lemma ProductPrintable(p: Product)
    ensures Kinds(ProductRow(p)) == PRODUCT_KINDS && (CleanProduct(p) ==> CleanRow(ProductRow(p)))
    ensures Printable(ProductRow(p)) <==> StorableProduct(p)
  {
    var r := ProductRow(p);
    assert r[0].n == p.productId && r[1].s == p.productName && r[2].n == p.sellerId && r[3].n == p.quantity && r[4].n == p.price;
  }

  lemma ClientPrintable(c: Client)
    ensures Kinds(ClientRow(c)) == CLIENT_KINDS && (CleanClient(c) ==> CleanRow(ClientRow(c)))
    ensures Printable(ClientRow(c)) <==> StorableClient(c)
  {
    var r, t := ClientRow(c), c.contact;
    assert r[0].n == c.uuid && r[1].s == t.firstName && r[2].s == t.lastName && r[3].s == c.phoneNumber;
    assert r[4].s == t.streetAddress && r[5].s == t.city && r[6].s == t.state && r[7].s == t.zipCode;
  }

  lemma BillPrintable(b: Bill)
    ensures Kinds(BillRow(b)) == BILL_KINDS && (CleanBill(b) ==> CleanRow(BillRow(b)))
    ensures Printable(BillRow(b)) <==> StorableBill(b)
  {
    var r, t := BillRow(b), b.contact;
    assert r[0].n == b.orderId && r[1].n == b.customerId && r[2].s == t.firstName && r[3].s == t.lastName;
    assert r[4].s == t.streetAddress && r[5].s == t.city && r[6].s == t.state && r[7].s == t.zipCode && r[8].n == b.totalOrderCost;
  }

  lemma LinePrintable(l: Line)
    ensures Kinds(LineRow(l)) == LINE_KINDS && (CleanLine(l) ==> CleanRow(LineRow(l)))
    ensures Printable(LineRow(l)) <==> StorableLine(l)
  {
    var r, t := LineRow(l), l.contact;
    assert r[0].n == l.orderId && r[1].n == l.productId && r[2].n == l.quantityPurchased && r[3].s == t.firstName;
    assert r[4].s == t.lastName && r[5].s == t.streetAddress && r[6].s == t.city && r[7].s == t.state && r[8].s == t.zipCode;
    assert r[9].n == l.totalPrice;
  }

  function RowsOf<T>(table: seq<T>, fieldsOf: T -> Row): seq<Row> {
    seq(|table|, i requires 0 <= i < |table| => fieldsOf(table[i]))
  }

  /** Whether the table survives being printed and loaded again. */
  ghost predicate Survives<T>(table: seq<T>, fieldsOf: T -> Row, kinds: seq<Kind>) {
    Load(PrintTable(RowsOf(table, fieldsOf)), kinds) == Some(RowsOf(table, fieldsOf))
  }

  lemma SurvivesIff<T>(table: seq<T>, fieldsOf: T -> Row, kinds: seq<Kind>)
    requires kinds != [] && Width(kinds) < 199
    requires forall i :: 0 <= i < |table| ==> CleanRow(fieldsOf(table[i])) && Kinds(fieldsOf(table[i])) == kinds
    ensures Survives(table, fieldsOf, kinds) <==> forall i :: 0 <= i < |table| ==> Printable(fieldsOf(table[i]))
  {
    var rows := RowsOf(table, fieldsOf);
    TableRoundTripIff(rows, kinds);
    if AllPrintable(rows) {
      forall i | 0 <= i < |table| ensures Printable(fieldsOf(table[i])) { assert Printable(rows[i]); }
    }
  }

  /** ProductInfo.txt: ids, sellers and quantities have to be positive and names non-empty. */
  lemma {:induction false} ProductFileSurvivesIff(ps: seq<Product>)
    requires forall i :: 0 <= i < |ps| ==> CleanProduct(ps[i])
    ensures Survives(ps, ProductRow, PRODUCT_KINDS) <==> forall i :: 0 <= i < |ps| ==> StorableProduct(ps[i])
  {
    LayoutsFitTheLine();
    forall i | 0 <= i < |ps| { ProductPrintable(ps[i]); }
    SurvivesIff(ps, ProductRow, PRODUCT_KINDS);
  }

  /** CustomerInfo.txt and SellerInfo.txt: every field has to be there, the phone number too. */
  lemma {:induction false} ClientFileSurvivesIff(cs: seq<Client>)
    requires forall i :: 0 <= i < |cs| ==> CleanClient(cs[i])
    ensures Survives(cs, ClientRow, CLIENT_KINDS) <==> forall i :: 0 <= i < |cs| ==> StorableClient(cs[i])
  {
    LayoutsFitTheLine();
    forall i | 0 <= i < |cs| { ClientPrintable(cs[i]); }
    SurvivesIff(cs, ClientRow, CLIENT_KINDS);
  }

  /** BillingInfo.txt. */
  lemma {:induction false} BillFileSurvivesIff(bs: seq<Bill>)
    requires forall i :: 0 <= i < |bs| ==> CleanBill(bs[i])
    ensures Survives(bs, BillRow, BILL_KINDS) <==> forall i :: 0 <= i < |bs| ==> StorableBill(bs[i])
  {
    LayoutsFitTheLine();
    forall i | 0 <= i < |bs| { BillPrintable(bs[i]); }
    SurvivesIff(bs, BillRow, BILL_KINDS);
  }

  /** CustomerOrder.txt. */
  lemma {:induction false} LineFileSurvivesIff(ls: seq<Line>)
    requires forall i :: 0 <= i < |ls| ==> CleanLine(ls[i])
    ensures Survives(ls, LineRow, LINE_KINDS) <==> forall i :: 0 <= i < |ls| ==> StorableLine(ls[i])
  {
    LayoutsFitTheLine();
    forall i | 0 <= i < |ls| { LinePrintable(ls[i]); }
    SurvivesIff(ls, LineRow, LINE_KINDS);
  }
}
