/** The order message: `[COMPLETE_ORDER]`'s list of product, quantity and cost triples. */
module OrderMessage {
  import opened Numbers
  import opened Shop
  import opened TableText
  import opened Handlers
  import opened Reading

  /** `%d`. */
  function Signed(n: int): string {
    if n < 0 then "-" + Decimal(-n) else Decimal(n)
  }

  function Message(items: seq<Item>): string {
    if items == [] then "\n"
    else
      Signed(items[0].productId) + "," + (Signed(items[0].quantity) + "," + (Signed(items[0].itemCostPerUnit) + "," + Message(items[1..])))
  }

  /** What `extractBuyerOrder` reads; `None` where it would convert NULL. */
  function Extract(s: string): (r: Option<seq<Item>>)
    ensures r.Some? ==> forall k :: 0 <= k < |r.value| ==> r.value[k].productId != 0
    decreases |s|
  {
    var id := StrTok(s);
    if id.None? then None
    else if Atoi(id.value.0) == 0 then Some([])
    else
      var quantity := StrTok(id.value.1);
      if quantity.None? then None
      else
        var cost := StrTok(quantity.value.1);
        if cost.None? then None
        else
          var rest := Extract(cost.value.1);
          if rest.None? then None
          else Some([Item(Atoi(id.value.0), Atoi(quantity.value.0), Atoi(cost.value.0))] + rest.value)
  }

  /** Fills the zeroed order list; the message must hold whole triples and an end, and fit. */
  method ExtractBuyerOrder(buffer: string, orderList: array<Item>)
    requires forall k :: 0 <= k < orderList.Length ==> orderList[k] == ZERO_ITEM
    requires Extract(buffer).Some? && |Extract(buffer).value| < orderList.Length
    modifies orderList
    ensures Holds(orderList[..], Extract(buffer).value, ItemId, ZERO_ITEM)
  {
    var tok := new Tokenizer();
    var ptr := tok.First(buffer);
    var rowOrder := 0;
    ghost var items := Extract(buffer).value;
    ghost var at := buffer; // the text whose first token is ptr
    assert items[0..] == items;
    while Atoi(ptr.value) != 0
      invariant ptr.Some? && StrTok(at) == Some((ptr.value, tok.rest))
      invariant 0 <= rowOrder <= |items| && Extract(at) == Some(items[rowOrder..])
      invariant forall k :: 0 <= k < rowOrder ==> orderList[k] == items[k]
      invariant forall k :: rowOrder <= k < orderList.Length ==> orderList[k] == ZERO_ITEM
      decreases |items| - rowOrder
    {
      var item := ReadTriple(tok, Atoi(ptr.value), at);
      at := tok.rest;
      ptr := tok.Next();
      assert items[rowOrder..][0] == items[rowOrder] && items[rowOrder..][1..] == items[rowOrder + 1..];
      orderList[rowOrder] := item;
      rowOrder := rowOrder + 1;
    }
    assert items[rowOrder..] == [] && rowOrder == |items|;
  }

  /** The rest of a triple whose product id has been read. */
  method ReadTriple(tok: Tokenizer, productId: int, ghost at: string) returns (item: Item)
    requires productId != 0 && Extract(at).Some?
    requires StrTok(at).Some? && productId == Atoi(StrTok(at).value.0) && tok.rest == StrTok(at).value.1
    modifies tok
    ensures Extract(tok.rest).Some? && Extract(at).value == [item] + Extract(tok.rest).value
    ensures StrTok(tok.rest).Some?
  {
    var ptr := tok.Next();
    var quantity := Atoi(ptr.value);
    ptr := tok.Next();
    item := Item(productId, quantity, Atoi(ptr.value));
  }

  lemma SignedReadsBack(n: int)
    ensures Atoi(Signed(n)) == n && Signed(n) != ""
    ensures forall k :: 0 <= k < |Signed(n)| ==> Signed(n)[k] != ','
  {
    DecimalReadsBack(Abs(n));
    if n < 0 { assert Signed(n)[1..] == Decimal(-n); }
  }

  lemma SignedToken(n: int, rest: string)
    ensures StrTok(Signed(n) + "," + rest) == Some((Signed(n), rest)) && Atoi(Signed(n)) == n
  {
    SignedReadsBack(n);
    StrTokSkipsEmpty(Signed(n), rest);
  }

  lemma ThreeTokens(s: string, id: string, s1: string, quantity: string, s2: string, cost: string, rest: string)
    requires StrTok(s) == Some((id, s1)) && StrTok(s1) == Some((quantity, s2)) && StrTok(s2) == Some((cost, rest))
    requires Atoi(id) != 0 && Extract(rest).Some?
    ensures Extract(s) == Some([Item(Atoi(id), Atoi(quantity), Atoi(cost))] + Extract(rest).value)
  {
  }

  /** A triple in front of a text that reads as the rest of the order. */
  lemma AddTriple(items: seq<Item>, rest: string)
    requires items != [] && items[0].productId != 0 && Extract(rest) == Some(items[1..])
    ensures var i := items[0];
      Extract(Signed(i.productId) + "," + (Signed(i.quantity) + "," + (Signed(i.itemCostPerUnit) + "," + rest))) == Some(items)
  {
    var i := items[0];
    var s2 := Signed(i.itemCostPerUnit) + "," + rest;
    var s1 := Signed(i.quantity) + "," + s2;
    SignedToken(i.productId, s1);
    SignedToken(i.quantity, s2);
    SignedToken(i.itemCostPerUnit, rest);
    ThreeTokens(Signed(i.productId) + "," + s1, Signed(i.productId), s1, Signed(i.quantity), s2, Signed(i.itemCostPerUnit), rest);
    assert items == [i] + items[1..];
  }

  lemma LineEndEndsTheOrder()
    ensures Extract("\n") == Some([])
  {
    assert StrTok("\n") == Some(("\n", "")) by { assert UpToComma("\n") == "\n"; }
    assert Atoi("\n") == 0;
  }

  lemma {:induction false} MessageReadsBack(items: seq<Item>)
    requires forall k :: 0 <= k < |items| ==> items[k].productId != 0
    ensures Extract(Message(items)) == Some(items)
  {
    if items == [] {
      LineEndEndsTheOrder();
    } else {
      MessageReadsBack(items[1..]);
      AddTriple(items, Message(items[1..]));
    }
  }

  /** The message reads back as the order exactly when every product id is not zero. */
  lemma {:induction false} MessageRoundTripIff(items: seq<Item>)
    ensures Extract(Message(items)) == Some(items) <==> forall k :: 0 <= k < |items| ==> items[k].productId != 0
  {
    if forall k :: 0 <= k < |items| ==> items[k].productId != 0 { MessageReadsBack(items); }
  }

  /** The first triple of a message and the message after it. */
  lemma {:induction false} FirstTriple(s: string) returns (rest: string)
    requires |Words(s)| > 3 && Atoi(Words(s)[0]) != 0
    ensures Words(rest) == Words(s)[3..]
    ensures Extract(rest).Some? ==> Extract(s) == Some([Triple(Words(s), 0)] + Extract(rest).value)
  {
    var w := Words(s);
    NextWord(s);
    var s1 := StrTok(s).value.1;
    NextWord(s1);
    var s2 := StrTok(s1).value.1;
    NextWord(s2);
    rest := StrTok(s2).value.1;
    if Extract(rest).Some? { ThreeTokens(s, w[0], s1, w[1], s2, w[2], rest); }
  }

  function Triples(w: seq<string>, n: nat): seq<Item>
    requires 3 * n < |w|
  {
    seq(n, i requires 0 <= i < n => Triple(w, i))
  }

  lemma TriplesShift(w: seq<string>, n: nat)
    requires 0 < n && 3 * n < |w|
    ensures Triples(w, n) == [Triple(w, 0)] + Triples(w[3..], n - 1)
  {
  }

  /** Any message: its words three by three, up to a product id that converts to 0. */
  lemma {:induction false} ExtractMeans(s: string, n: nat)
    requires 3 * n < |Words(s)| && Atoi(Words(s)[3 * n]) == 0
    requires forall i :: 0 <= i < n ==> Atoi(Words(s)[3 * i]) != 0
    ensures Extract(s) == Some(Triples(Words(s), n))
    decreases n
  {
    var w := Words(s);
    if n == 0 {
      NextWord(s);
      assert Triples(w, 0) == [];
    } else {
      assert Atoi(w[3 * 0]) != 0;
      var rest := FirstTriple(s);
      forall i | 0 <= i < n - 1 ensures Atoi(Words(rest)[3 * i]) != 0 { assert Words(rest)[3 * i] == w[3 * (i + 1)]; }
      ExtractMeans(rest, n - 1);
      TriplesShift(w, n);
    }
  }

  function Triple(w: seq<string>, i: nat): Item
    requires 3 * i + 2 < |w|
  {
    Item(Atoi(w[3 * i]), Atoi(w[3 * i + 1]), Atoi(w[3 * i + 2]))
  }
}
