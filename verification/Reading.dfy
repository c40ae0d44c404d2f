/** What the loaders do with any text, not only with what the printers wrote: lines and words said
    character by character, with no mention of `fgets` and `strtok`. */
module Reading {
  import opened Numbers
  import opened Shop
  import opened TableText
  import opened TextFiles

  // ---------------------------------------------------------------------------------------
  // Words: the longest runs of characters other than commas.

  function Words(s: string): (ws: seq<string>)
    ensures s != "" && s[0] != ',' ==> ws != []
  {
    if s == "" then []
    else
      var ws := Words(s[1..]);
      if s[0] == ',' then ws
      else if s[1..] != "" && s[1] != ',' then [[s[0]] + ws[0]] + ws[1..]
      else [[s[0]]] + ws
  }

  lemma {:induction false} FirstWord(s: string)
    requires s != "" && s[0] != ','
    ensures Words(s)[0] == UpToComma(s) && Words(s)[1..] == Words(s[|UpToComma(s)|..])
  {
    if s[1..] != "" && s[1] != ',' {
      FirstWord(s[1..]);
      assert s[1..][|UpToComma(s[1..])|..] == s[|UpToComma(s)|..];
    } else {
      assert UpToComma(s[1..]) == "";
    }
  }

  lemma {:induction false} CommasAreNoWords(s: string)
    ensures Words(s) == Words(SkipCommas(s)) && (SkipCommas(s) == "" || SkipCommas(s)[0] != ',')
  {
    if s != "" && s[0] == ',' { CommasAreNoWords(s[1..]); }
  }

  /** `strtok` returns the words one after the other. */
  lemma {:induction false} NextWord(s: string)
    ensures StrTok(s).None? <==> Words(s) == []
    ensures StrTok(s).Some? ==> StrTok(s).value.0 == Words(s)[0] && Words(StrTok(s).value.1) == Words(s)[1..]
  {
    var t := SkipCommas(s);
    CommasAreNoWords(s);
    if t != "" {
      FirstWord(t);
      var n := |UpToComma(t)|;
      CommaEndsWord(t);
      if n < |t| { assert t[n..][1..] == t[n + 1..]; }
    }
  }

  lemma {:induction false} CommaEndsWord(t: string)
    ensures |UpToComma(t)| < |t| ==> t[|UpToComma(t)|] == ','
  {
    if t != "" && t[0] != ',' { CommaEndsWord(t[1..]); }
  }

  /** The conversion of one word. */
  function Converted(kind: Kind, word: string): Field {
    match kind
    case Int => Num(Atoi(word))
    case Str => Text(word)
  }

  function FirstFields(ws: seq<string>, kinds: seq<Kind>): Row
    requires |kinds| <= |ws|
  {
    seq(|kinds|, k requires 0 <= k < |kinds| => Converted(kinds[k], ws[k]))
  }

  /** A line gives its first words, converted; or nothing when they are too few. */
  lemma {:induction false} LineMeans(s: string, kinds: seq<Kind>)
    ensures ParseFields(s, kinds) == if |Words(s)| < |kinds| then None else Some(FirstFields(Words(s), kinds))
    decreases |kinds|
  {
    NextWord(s);
    if kinds == [] { assert FirstFields(Words(s), kinds) == []; }
    if kinds != [] && StrTok(s).Some? {
      LineMeans(StrTok(s).value.1, kinds[1..]);
      if |Words(s)| >= |kinds| {
        assert FirstFields(Words(s), kinds) == [Converted(kinds[0], Words(s)[0])] + FirstFields(Words(s)[1..], kinds[1..]);
      }
    }
  }

  // ---------------------------------------------------------------------------------------
  // Lines: each with its end, the last one perhaps without.

  function Lines(file: string): (ls: seq<string>)
    ensures file != "" ==> ls != [] && 0 < |ls[0]| <= |file|
  {
    if file == "" then []
    else
      var ls := Lines(file[1..]);
      if file[0] == '\n' then ["\n"] + ls
      else if ls == [] then [[file[0]]]
      else [[file[0]] + ls[0]] + ls[1..]
  }

  ghost predicate ShortLines(file: string, size: nat) {
    forall i :: 0 <= i < |Lines(file)| ==> |Lines(file)[i]| < size
  }

  /** `fgets` takes the first line. */
  lemma {:induction false} FirstLine(file: string, size: nat)
    requires file != "" && |Lines(file)[0]| < size
    ensures Fgets(file, size) == Lines(file)[0] && Lines(file[|Lines(file)[0]|..]) == Lines(file)[1..]
    decreases |file|
  {
    var rest := file[1..];
    if file[0] != '\n' && rest != "" {
      FirstLine(rest, size - 1);
      assert rest[|Lines(rest)[0]|..] == file[|Lines(file)[0]|..];
    }
  }

  /** Any `fgets`: the first line if it fits, and otherwise as much as fits. */
  lemma {:induction false} FgetsMeans(file: string, size: nat)
    requires file != "" && size > 1
    ensures Fgets(file, size) == if |Lines(file)[0]| < size then Lines(file)[0] else file[..size - 1]
    decreases |file|
  {
    var rest := file[1..];
    if file[0] != '\n' && rest != "" {
      if size > 2 { FgetsMeans(rest, size - 1); }
      assert [file[0]] + rest[..0] == [file[0]];
    }
  }

  /** The lines that hold a word. */
  function Records(lines: seq<string>): seq<string> {
    if lines == [] then []
    else (if Words(lines[0]) == [] then [] else [lines[0]]) + Records(lines[1..])
  }

  ghost predicate Complete(records: seq<string>, kinds: seq<Kind>) {
    forall i :: 0 <= i < |records| ==> |Words(records[i])| >= |kinds|
  }

  function RowsFrom(records: seq<string>, kinds: seq<Kind>): seq<Row>
    requires forall i :: 0 <= i < |records| ==> |Words(records[i])| >= |kinds|
  {
    seq(|records|, i requires 0 <= i < |records| => FirstFields(Words(records[i]), kinds))
  }

  lemma CompleteFirst(first: string, more: seq<string>, kinds: seq<Kind>)
    ensures Complete([first] + more, kinds) <==> |Words(first)| >= |kinds| && Complete(more, kinds)
    ensures Complete([first] + more, kinds) ==>
      RowsFrom([first] + more, kinds) == [FirstFields(Words(first), kinds)] + RowsFrom(more, kinds)
  {
    var all := [first] + more;
    assert all[0] == first && forall i :: 0 <= i < |more| ==> all[i + 1] == more[i];
    assert forall i :: 0 < i < |all| ==> all[i] == more[i - 1];
  }

  lemma {:induction false} LoadStep(file: string, kinds: seq<Kind>)
    requires file != "" && |Lines(file)[0]| < 200
    ensures var line := Lines(file)[0];
      var rest := Load(file[|line|..], kinds);
      Load(file, kinds) == if Words(line) == [] then rest
                           else if |Words(line)| < |kinds| || rest.None? then None
                           else Some([FirstFields(Words(line), kinds)] + rest.value)
  {
    FirstLine(file, 200);
    NextWord(Lines(file)[0]);
    LineMeans(Lines(file)[0], kinds);
  }

  lemma MoreRecords(line: string, lines: seq<string>)
    requires lines != [] && lines[0] == line
    ensures Records(lines) == if Words(line) == [] then Records(lines[1..]) else [line] + Records(lines[1..])
  {
    assert [] + Records(lines[1..]) == Records(lines[1..]);
  }

  /** Loading any text whose lines fit the buffer: every line that holds a word gives one row, in order,
      whether or not the last one is ended; and if one has too few words the load does not succeed. */
  lemma {:induction false} LoadMeans(file: string, kinds: seq<Kind>)
    requires ShortLines(file, 200)
    ensures var records := Records(Lines(file));
      Load(file, kinds) == if Complete(records, kinds) then Some(RowsFrom(records, kinds)) else None
    decreases |file|
  {
    if file == "" {
      assert Records(Lines(file)) == [] && RowsFrom([], kinds) == [];
    } else {
      var line, rest := Lines(file)[0], file[|Lines(file)[0]|..];
      FirstLine(file, 200);
      ShorterLines(file, 200);
      LoadMeans(rest, kinds);
      LoadStep(file, kinds);
      MoreRecords(line, Lines(file));
      CompleteFirst(line, Records(Lines(rest)), kinds);
    }
  }

  lemma ShorterLines(file: string, size: nat)
    requires file != "" && ShortLines(file, size)
    ensures ShortLines(file[|Lines(file)[0]|..], size)
  {
    FirstLine(file, size);
    forall i | 0 <= i < |Lines(file)[1..]| ensures |Lines(file)[1..][i]| < size { assert Lines(file)[1..][i] == Lines(file)[i + 1]; }
  }

  // ---------------------------------------------------------------------------------------
  // A printed table that lost its last line end, as an editor leaves it.

  /** Every string non-empty and every number positive, the last one too. */
  ghost predicate Filled(row: Row) {
    forall k :: 0 <= k < |row| ==> if row[k].Num? then row[k].n > 0 else row[k].s != ""
  }

  function WithoutEnd(rows: seq<Row>): string
    requires rows != []
  {
    if |rows| == 1 then PrintRow(rows[0])[..|PrintRow(rows[0])| - 1] else PrintRow(rows[0]) + WithoutEnd(rows[1..])
  }

  lemma {:induction false} WithoutEndIsPrinted(rows: seq<Row>)
    requires rows != []
    ensures WithoutEnd(rows) + "\n" == PrintTable(rows)
  {
    PrintTableIsRows(rows);
    if |rows| == 1 {
      PrintRowEnds(rows[0]);
      assert rows[1..] == [] && PrintRows(rows) == PrintRow(rows[0]) + "";
    } else {
      WithoutEndIsPrinted(rows[1..]);
      PrintTableIsRows(rows[1..]);
      assert PrintRow(rows[0]) + (WithoutEnd(rows[1..]) + "\n") == WithoutEnd(rows) + "\n";
    }
  }

  lemma {:induction false} PrintRowEnds(row: Row)
    ensures PrintRow(row) == PrintRow(row)[..|PrintRow(row)| - 1] + "\n"
  {
    if row != [] {
      PrintRowEnds(row[1..]);
      var t, rest := FieldText(row[0]) + ",", PrintRow(row[1..]);
      assert PrintRow(row) == t + (rest[..|rest| - 1] + "\n") == (t + rest[..|rest| - 1]) + "\n";
    }
  }

  /** The texts of a row's fields that print as something. */
  function Texts(row: Row): seq<string> {
    if row == [] then [] else (if FieldText(row[0]) == "" then [] else [FieldText(row[0])]) + Texts(row[1..])
  }

  lemma {:induction false} WordsAfter(t: string, rest: string)
    requires forall k :: 0 <= k < |t| ==> t[k] != ','
    ensures Words(t + "," + rest) == (if t == "" then [] else [t]) + Words(rest)
  {
    var s := t + "," + rest;
    if t == "" {
      assert s[0] == ',' && s[1..] == rest;
    } else {
      assert s[0] == t[0] && s[1..] == t[1..] + "," + rest;
      WordsAfter(t[1..], rest);
      assert t == [t[0]] + t[1..];
      assert s[1] == if |t| > 1 then t[1] else ',';
      assert [t[1..]] + Words(rest) != [] && ([t[1..]] + Words(rest))[1..] == Words(rest);
      assert [] + Words(rest) == Words(rest) && (|t| == 1 ==> t == [t[0]]);
      assert Words(s) == if |t| > 1 then [[t[0]] + t[1..]] + Words(rest) else [[t[0]]] + Words(rest);
    }
  }

  lemma {:induction false} WordsOfRow(row: Row)
    requires CleanRow(row)
    ensures Words(PrintRow(row)[..|PrintRow(row)| - 1]) == Texts(row)
  {
    if row == [] {
      assert PrintRow(row)[..0] == "";
    } else {
      WordsOfRow(row[1..]);
      FieldTextIsPlain(row[0]);
      var t, rest := FieldText(row[0]), PrintRow(row[1..]);
      WordsAfter(t, rest[..|rest| - 1]);
      assert PrintRow(row)[..|PrintRow(row)| - 1] == t + "," + rest[..|rest| - 1];
    }
  }

  lemma {:induction false} OneLine(s: string)
    requires forall k :: 0 <= k < |s| ==> s[k] != '\n'
    ensures Lines(s) == if s == "" then [] else [s]
  {
    if s != "" {
      OneLine(s[1..]);
      assert [s[0]] + s[1..] == s && [s[1..]][1..] == [] && (s[1..] == "" ==> s == [s[0]]);
      assert [s] + [] == [s];
    }
  }

  lemma {:induction false} TextsOf(row: Row)
    ensures |Texts(row)| <= |row|
    ensures |Texts(row)| == |row| <==> forall k :: 0 <= k < |row| ==> FieldText(row[k]) != ""
    ensures |Texts(row)| == |row| ==> forall k :: 0 <= k < |row| ==> Texts(row)[k] == FieldText(row[k])
  {
    if row != [] {
      TextsOf(row[1..]);
      assert forall k :: 0 < k < |row| ==> row[k] == row[1..][k - 1];
    }
  }

  lemma {:induction false} FilledReadsBack(row: Row)
    ensures Filled(row) <==> (forall k :: 0 <= k < |row| ==> FieldText(row[k]) != "" && Converted(KindOf(row[k]), FieldText(row[k])) == row[k])
  {
    forall k | 0 <= k < |row|
      ensures (if row[k].Num? then row[k].n > 0 else row[k].s != "")
         <==> FieldText(row[k]) != "" && Converted(KindOf(row[k]), FieldText(row[k])) == row[k]
    {
      if row[k].Num? { NumberRoundTripIff(row[k].n); }
    }
  }

  /** The row's words are its fields exactly when it is filled. */
  lemma {:induction false} RowFromTexts(row: Row)
    ensures |Texts(row)| >= |row| && FirstFields(Texts(row), Kinds(row)) == row <==> Filled(row)
  {
    TextsOf(row);
    FilledReadsBack(row);
    if |Texts(row)| >= |row| {
      var back := FirstFields(Texts(row), Kinds(row));
      assert forall k :: 0 <= k < |row| ==> back[k] == Converted(KindOf(row[k]), FieldText(row[k]));
      assert back == row <==> forall k :: 0 <= k < |row| ==> back[k] == row[k];
    }
  }

  lemma {:induction false} LastLineIff(row: Row, kinds: seq<Kind>)
    requires CleanRow(row) && Kinds(row) == kinds && kinds != [] && Width(kinds) < 199
    ensures Load(PrintRow(row)[..|PrintRow(row)| - 1], kinds) == Some([row]) <==> Filled(row)
  {
    var s := RowLine(row);
    assert PrintRow(row)[..|PrintRow(row)| - 1] == s;
    WordsOfRow(row);
    OneLine(s);
    LoadMeans(s, kinds);
    RowFromTexts(row);
    if s != "" {
      assert Lines(s)[1..] == [];
      if Words(s) == [] {
        assert Records(Lines(s)) == [];
      } else {
        assert Records(Lines(s)) == [s];
        assert RowsFromOne(s, kinds);
      }
    }
  }

  ghost predicate RowsFromOne(s: string, kinds: seq<Kind>) {
    |Words(s)| >= |kinds| ==> RowsFrom([s], kinds) == [FirstFields(Words(s), kinds)]
  }

  lemma {:induction false} UnendedStep(rows: seq<Row>, kinds: seq<Kind>)
    requires CleanTable(rows, kinds) && |rows| > 1
    ensures Load(WithoutEnd(rows), kinds) == Some(rows)
       <==> Printable(rows[0]) && Load(WithoutEnd(rows[1..]), kinds) == Some(rows[1..])
  {
    LoadsLineIff(rows[0], WithoutEnd(rows[1..]), rows[1..], kinds);
    RowRoundTripIff(rows[0]);
    assert rows == [rows[0]] + rows[1..];
  }

  /** Every row is printable, and the last one needs no line end to stand for a 0. */
  ghost predicate PrintableWithoutEnd(rows: seq<Row>)
    requires rows != []
  {
    AllPrintable(rows[..|rows| - 1]) && Filled(rows[|rows| - 1])
  }

  lemma InitSplit(rows: seq<Row>)
    requires |rows| > 1
    ensures PrintableWithoutEnd(rows) <==> Printable(rows[0]) && PrintableWithoutEnd(rows[1..])
  {
    var init := rows[..|rows| - 1];
    assert init[0] == rows[0] && init[1..] == rows[1..][..|rows| - 2];
    AllPrintableSplit(init);
  }

  lemma {:induction false} UnendedOne(row: Row, kinds: seq<Kind>)
    requires CleanTable([row], kinds)
    ensures Load(WithoutEnd([row]), kinds) == Some([row]) <==> PrintableWithoutEnd([row])
  {
    assert [row][0] == row && [row][..0] == [];
    LastLineIff(row, kinds);
  }

  /** It loads as the same rows exactly then. */
  lemma {:induction false} UnendedTableIff(rows: seq<Row>, kinds: seq<Kind>)
    requires CleanTable(rows, kinds) && rows != []
    ensures Load(WithoutEnd(rows), kinds) == Some(rows) <==> PrintableWithoutEnd(rows)
  {
    if |rows| == 1 {
      UnendedOne(rows[0], kinds);
      assert rows == [rows[0]];
    } else {
      var more := rows[1..];
      UnendedTableIff(more, kinds);
      UnendedStep(rows, kinds);
      InitSplit(rows);
    }
  }

  // ---------------------------------------------------------------------------------------
  // Which word is which field.

  lemma TableMeans<T>(file: string, kinds: seq<Kind>, of: Row -> T)
    requires ShortLines(file, 200) && Complete(Records(Lines(file)), kinds)
    ensures var table, records := LoadTable(file, kinds, of), Records(Lines(file));
      && table.Some? && |table.value| == |records|
      && forall i :: 0 <= i < |records| ==> |Words(records[i])| >= |kinds| && table.value[i] == of(FirstFields(Words(records[i]), kinds))
  {
    LoadMeans(file, kinds);
  }

  lemma ClientWords(w: seq<string>)
    requires |w| >= |CLIENT_KINDS|
    ensures ToClient(FirstFields(w, CLIENT_KINDS)) == Client(Atoi(w[0]), Contact(w[1], w[2], w[4], w[5], w[6], w[7]), w[3])
  {
  }

  lemma ProductWords(w: seq<string>)
    requires |w| >= |PRODUCT_KINDS|
    ensures ToProduct(FirstFields(w, PRODUCT_KINDS)) == Product(Atoi(w[0]), w[1], Atoi(w[2]), Atoi(w[3]), Atoi(w[4]))
  {
  }

  lemma BillWords(w: seq<string>)
    requires |w| >= |BILL_KINDS|
    ensures ToBill(FirstFields(w, BILL_KINDS)) == Bill(Atoi(w[0]), Atoi(w[1]), Contact(w[2], w[3], w[4], w[5], w[6], w[7]), Atoi(w[8]))
  {
  }

  lemma OrderLineWords(w: seq<string>)
    requires |w| >= |LINE_KINDS|
    ensures ToLine(FirstFields(w, LINE_KINDS))
         == Line(Atoi(w[0]), Atoi(w[1]), Atoi(w[2]), Contact(w[3], w[4], w[5], w[6], w[7], w[8]), Atoi(w[9]))
  {
  }

  /** The four files, record by record: which word is which field. */
  lemma FilesMean(file: string, i: nat)
    requires ShortLines(file, 200) && i < |Records(Lines(file))|
    ensures var w, cs := Words(Records(Lines(file))[i]), LoadTable(file, CLIENT_KINDS, ToClient);
      Complete(Records(Lines(file)), CLIENT_KINDS) ==>
        cs.Some? && |cs.value| == |Records(Lines(file))| && |w| >= 8
        && cs.value[i] == Client(Atoi(w[0]), Contact(w[1], w[2], w[4], w[5], w[6], w[7]), w[3])
    ensures var w, ps := Words(Records(Lines(file))[i]), LoadTable(file, PRODUCT_KINDS, ToProduct);
      Complete(Records(Lines(file)), PRODUCT_KINDS) ==>
        ps.Some? && |ps.value| == |Records(Lines(file))| && |w| >= 5
        && ps.value[i] == Product(Atoi(w[0]), w[1], Atoi(w[2]), Atoi(w[3]), Atoi(w[4]))
    ensures var w, bs := Words(Records(Lines(file))[i]), LoadTable(file, BILL_KINDS, ToBill);
      Complete(Records(Lines(file)), BILL_KINDS) ==>
        bs.Some? && |bs.value| == |Records(Lines(file))| && |w| >= 9
        && bs.value[i] == Bill(Atoi(w[0]), Atoi(w[1]), Contact(w[2], w[3], w[4], w[5], w[6], w[7]), Atoi(w[8]))
    ensures var w, ls := Words(Records(Lines(file))[i]), LoadTable(file, LINE_KINDS, ToLine);
      Complete(Records(Lines(file)), LINE_KINDS) ==>
        ls.Some? && |ls.value| == |Records(Lines(file))| && |w| >= 10
        && ls.value[i] == Line(Atoi(w[0]), Atoi(w[1]), Atoi(w[2]), Contact(w[3], w[4], w[5], w[6], w[7], w[8]), Atoi(w[9]))
  {
    var w := Words(Records(Lines(file))[i]);
    if Complete(Records(Lines(file)), CLIENT_KINDS) { TableMeans(file, CLIENT_KINDS, ToClient); ClientWords(w); }
    if Complete(Records(Lines(file)), PRODUCT_KINDS) { TableMeans(file, PRODUCT_KINDS, ToProduct); ProductWords(w); }
    if Complete(Records(Lines(file)), BILL_KINDS) { TableMeans(file, BILL_KINDS, ToBill); BillWords(w); }
    if Complete(Records(Lines(file)), LINE_KINDS) { TableMeans(file, LINE_KINDS, ToLine); OrderLineWords(w); }
  }

  /** The texts of a row's fields, each with its comma, and the line end. */
  function Delimited(ts: seq<string>): string {
    if ts == [] then "\n" else ts[0] + "," + Delimited(ts[1..])
  }

  lemma {:induction false} PrintedFields(row: Row, ts: seq<string>)
    requires |ts| == |row| && forall k :: 0 <= k < |row| ==> ts[k] == if row[k].Num? then Printed(row[k].n) else row[k].s
    ensures PrintRow(row) == Delimited(ts)
  {
    if row != [] { PrintedFields(row[1..], ts[1..]); }
  }

  /** What the printers write, field after field. */
  lemma PrintedClient(c: Client)
    ensures PrintRow(ClientRow(c))
         == Delimited([Printed(c.uuid), c.contact.firstName, c.contact.lastName, c.phoneNumber, c.contact.streetAddress, c.contact.city,
                       c.contact.state, c.contact.zipCode])
  {
    var t := c.contact;
    PrintedFields(ClientRow(c), [Printed(c.uuid), t.firstName, t.lastName, c.phoneNumber, t.streetAddress, t.city, t.state, t.zipCode]);
  }

  lemma PrintedProduct(p: Product)
    ensures PrintRow(ProductRow(p))
         == Delimited([Printed(p.productId), p.productName, Printed(p.sellerId), Printed(p.quantity), Printed(p.price)])
  {
    PrintedFields(ProductRow(p), [Printed(p.productId), p.productName, Printed(p.sellerId), Printed(p.quantity), Printed(p.price)]);
  }

  lemma PrintedBill(b: Bill)
    ensures PrintRow(BillRow(b))
         == Delimited([Printed(b.orderId), Printed(b.customerId), b.contact.firstName, b.contact.lastName, b.contact.streetAddress,
                       b.contact.city, b.contact.state, b.contact.zipCode, Printed(b.totalOrderCost)])
  {
    var t := b.contact;
    PrintedFields(BillRow(b), [Printed(b.orderId), Printed(b.customerId), t.firstName, t.lastName, t.streetAddress, t.city, t.state, t.zipCode,
                               Printed(b.totalOrderCost)]);
  }

  lemma PrintedOrderLine(l: Line)
    ensures PrintRow(LineRow(l))
         == Delimited([Printed(l.orderId), Printed(l.productId), Printed(l.quantityPurchased), l.contact.firstName, l.contact.lastName,
                       l.contact.streetAddress, l.contact.city, l.contact.state, l.contact.zipCode, Printed(l.totalPrice)])
  {
    var t := l.contact;
    PrintedFields(LineRow(l), [Printed(l.orderId), Printed(l.productId), Printed(l.quantityPurchased), t.firstName, t.lastName,
                               t.streetAddress, t.city, t.state, t.zipCode, Printed(l.totalPrice)]);
  }
}
