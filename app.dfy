/** The order-entry flow of the shop's window: find the client by exact
    name, open a new order, then collect line items from a sequence of
    dialog answers until the product prompt is left empty or cancelled. */
module App {

  import opened Wrappers
  import opened Store
  import opened Text

  /** The answer to the `i`-th dialog: the given answers in turn, then a
      cancel (None) for every dialog after them. */
  function Ask(answers: seq<Option<string>>, i: nat): (r: Option<string>)
    ensures r.Some? ==> i < |answers|
  {
    if i < |answers| then answers[i] else None
  }

  /** Converting a dialog answer to a number: a cancelled dialog gives no
      text and fails like text that `parse` rejects. */
  function ParseAnswer<T>(parse: string -> Option<T>, answer: Option<string>): (r: Option<T>)
    ensures answer.None? ==> r.None?
    ensures r.Some? ==> answer.Some? && parse(answer.value) == r
  {
    if answer.None? then None else parse(answer.value)
  }

  /** One pass of the item loop that got past the product prompt: the
      product name and the outcome of the price and quantity conversions
      (`qty` is None also when the price failed and no quantity was asked). */
  datatype Attempt = Attempt(product: string, price: Option<real>, qty: Option<int>)

  predicate Succeeded(a: Attempt)
  {
    a.price.Some? && a.qty.Some?
  }

  function ItemOf(a: Attempt): LineItem
    requires Succeeded(a)
  {
    LineItem(a.product, a.price.value, a.qty.value)
  }

  /** The attempts the dialogs produce from answer `i` on: a product name,
      then a price, then (only if the price converted) a quantity, repeated
      until the product answer is empty or cancelled. */
  function Attempts(answers: seq<Option<string>>, i: nat,
                    parsePrice: string -> Option<real>, parseQty: string -> Option<int>): (r: seq<Attempt>)
    ensures r == [] <==> Ask(answers, i).None? || Ask(answers, i).value == ""
    ensures forall k :: 0 <= k < |r| ==> r[k].product != "" && (r[k].price.None? ==> r[k].qty.None?)
    decreases |answers| - i
  {
    var product := Ask(answers, i);
    if product.None? || product.value == "" then []
    else
      var price := ParseAnswer(parsePrice, Ask(answers, i + 1));
      if price.None? then
        [Attempt(product.value, None, None)] + Attempts(answers, i + 2, parsePrice, parseQty)
      else
        var qty := ParseAnswer(parseQty, Ask(answers, i + 2));
        [Attempt(product.value, price, qty)] + Attempts(answers, i + 3, parsePrice, parseQty)
  }

  /** Position of the product prompt whose empty or cancelled answer ends
      the item loop started at answer `i`. */
  function StopAt(answers: seq<Option<string>>, i: nat,
                  parsePrice: string -> Option<real>, parseQty: string -> Option<int>): (stop: nat)
    ensures stop >= i
    ensures Ask(answers, stop).None? || Ask(answers, stop).value == ""
    decreases |answers| - i
  {
    var product := Ask(answers, i);
    if product.None? || product.value == "" then i
    else if ParseAnswer(parsePrice, Ask(answers, i + 1)).None? then StopAt(answers, i + 2, parsePrice, parseQty)
    else StopAt(answers, i + 3, parsePrice, parseQty)
  }

  /** Once the product prompt is answered empty or cancelled, the loop is
      over: answers given after that point change nothing. */
  lemma {:induction false} StopIgnoresRest(answers: seq<Option<string>>, tail: seq<Option<string>>, i: nat,
                                           parsePrice: string -> Option<real>, parseQty: string -> Option<int>)
    requires StopAt(answers, i, parsePrice, parseQty) < |answers|
    ensures Attempts(answers + tail, i, parsePrice, parseQty) == Attempts(answers, i, parsePrice, parseQty)
    decreases |answers| - i
  {
    var product := Ask(answers, i);
    assert Ask(answers + tail, i) == product;
    if product.None? || product.value == "" {
    } else {
      var price := ParseAnswer(parsePrice, Ask(answers, i + 1));
      var next := if price.None? then i + 2 else i + 3;
      assert StopAt(answers, next, parsePrice, parseQty) == StopAt(answers, i, parsePrice, parseQty);
      assert Ask(answers + tail, i + 1) == Ask(answers, i + 1);
      assert Ask(answers + tail, i + 2) == Ask(answers, i + 2);
      StopIgnoresRest(answers, tail, next, parsePrice, parseQty);
    }
  }

  /** Each attempt starts with a product name typed at its own prompt, so
      there are no more attempts than answers after position `i`. */
  lemma {:induction false} AttemptsBounded(answers: seq<Option<string>>, i: nat,
                                           parsePrice: string -> Option<real>, parseQty: string -> Option<int>)
    ensures Attempts(answers, i, parsePrice, parseQty) == [] ||
            |Attempts(answers, i, parsePrice, parseQty)| <= |answers| - i
    decreases |answers| - i
  {
    var product := Ask(answers, i);
    if product.None? || product.value == "" {
    } else {
      var price := ParseAnswer(parsePrice, Ask(answers, i + 1));
      var next := if price.None? then i + 2 else i + 3;
      AttemptsBounded(answers, next, parsePrice, parseQty);
    }
  }

  /** The line items the attempts leave behind: exactly the attempts whose
      price and quantity both converted, in the order they were made. */
  function Accepted(attempts: seq<Attempt>): (items: seq<LineItem>)
    ensures |items| <= |attempts|
    ensures forall a :: a in attempts && Succeeded(a) ==> ItemOf(a) in items
    ensures forall x :: x in items ==> exists a :: a in attempts && Succeeded(a) && ItemOf(a) == x
  {
    if attempts == [] then []
    else
      var rest := Accepted(attempts[1..]);
      assert forall a :: a in attempts ==> a == attempts[0] || a in attempts[1..];
      if Succeeded(attempts[0]) then [ItemOf(attempts[0])] + rest else rest
  }

  /** Collecting from two runs of attempts is collecting from each. */
  lemma {:induction false} AcceptedConcat(x: seq<Attempt>, y: seq<Attempt>)
    ensures Accepted(x + y) == Accepted(x) + Accepted(y)
    decreases |x|
  {
    if x == [] {
      assert x + y == y;
    } else {
      assert (x + y)[1..] == x[1..] + y;
      AcceptedConcat(x[1..], y);
    }
  }

  /** One more attempt appends its line item if both conversions
      succeeded, and leaves the items as they were otherwise. */
  lemma AcceptedStep(done: seq<Attempt>, a: Attempt)
    ensures Accepted(done + [a]) == if Succeeded(a) then Accepted(done) + [ItemOf(a)] else Accepted(done)
  {
    AcceptedConcat(done, [a]);
    assert [a][1..] == [];
  }

  /** Position of the first client whose name equals `name` exactly, or None
      when there is no such client. */
  function FirstNamed(clients: seq<Client>, name: string): (r: Option<nat>)
    ensures r.None? ==> forall j :: 0 <= j < |clients| ==> clients[j].name != name
    ensures r.Some? ==> r.value < |clients| && clients[r.value].name == name &&
                        forall j :: 0 <= j < r.value ==> clients[j].name != name
  {
    if clients == [] then None
    else if clients[0].name == name then Some(0)
    else
      match FirstNamed(clients[1..], name)
      case None => None
      case Some(k) => Some(k + 1)
  }

  /** With two clients of the same name, a new order always goes to the
      one registered first. */
  lemma DuplicateNameGoesToFirst(clients: seq<Client>, i: nat, j: nat)
    requires i < j < |clients|
    requires clients[i].name == clients[j].name
    ensures FirstNamed(clients, clients[j].name).Some?
    ensures FirstNamed(clients, clients[j].name).value <= i < j
  {
  }

  /** The item loop: asks for product, price and quantity over and over,
      adds a line item when both numbers convert, skips the attempt
      otherwise, and stops at an empty or cancelled product name. */
  method CollectItems(order: Order, answers: seq<Option<string>>,
                      parsePrice: string -> Option<real>, parseQty: string -> Option<int>)
    modifies order
    ensures order.products == old(order.products) + Accepted(Attempts(answers, 0, parsePrice, parseQty))
  {
    var i: nat := 0;
    while true
      invariant order.products + Accepted(Attempts(answers, i, parsePrice, parseQty))
                == old(order.products) + Accepted(Attempts(answers, 0, parsePrice, parseQty))
      decreases |answers| - i
    {
      var product := Ask(answers, i);
      if product.None? || product.value == "" {
        break;
      }
      var price := ParseAnswer(parsePrice, Ask(answers, i + 1));
      if price.None? {
        i := i + 2;
        continue;
      }
      var qty := ParseAnswer(parseQty, Ask(answers, i + 2));
      if qty.None? {
        i := i + 3;
        continue;
      }
      ghost var rest := Attempts(answers, i + 3, parsePrice, parseQty);
      assert Accepted(Attempts(answers, i, parsePrice, parseQty)) == [LineItem(product.value, price.value, qty.value)] + Accepted(rest);
      order.AddProduct(product.value, price.value, qty.value);
      i := i + 3;
    }
  }

  /** The order-entry flow for the client named `clientName`: no client of
      that name means no order and no change; otherwise a new order is
      issued to the first such client and receives exactly the line items of
      the successful attempts among `answers`. */
  method AddOrderFlow(m: StoreManager, clientName: string, answers: seq<Option<string>>,
                      parsePrice: string -> Option<real>, parseQty: string -> Option<int>)
    returns (r: Option<Order>)
    requires m.Valid()
    modifies m, m.clients
    ensures m.Valid()
    ensures old(m.Owned()) ==> m.Owned()
    ensures m.clients == old(m.clients)
    ensures FirstNamed(m.clients, clientName).None? ==>
              r.None? && m.orders == old(m.orders) && m.nextOrderId == old(m.nextOrderId) &&
              forall c :: c in m.clients ==> c.orders == old(c.orders)
    ensures FirstNamed(m.clients, clientName).Some? ==>
              var client := m.clients[FirstNamed(m.clients, clientName).value];
              r.Some? && fresh(r.value) &&
              r.value.orderId == old(m.nextOrderId) && m.nextOrderId == old(m.nextOrderId) + 1 &&
              m.orders == old(m.orders) + [r.value] &&
              client.orders == old(client.orders) + [r.value] &&
              (forall c :: c in m.clients && c != client ==> c.orders == old(c.orders)) &&
              r.value.products == Accepted(Attempts(answers, 0, parsePrice, parseQty)) &&
              r.value.Total() == Sum(Accepted(Attempts(answers, 0, parsePrice, parseQty)))
  {
    var found := FirstNamed(m.clients, clientName);
    if found.None? {
      return None;
    }
    var client := m.clients[found.value];
    var order := m.AddOrder(client);
    CollectItems(order, answers, parsePrice, parseQty);
    r := Some(order);
  }

  /** A price that does not convert discards that attempt only; the next
      product is still collected. */
  lemma BadPriceThenGoodItem(parsePrice: string -> Option<real>, parseQty: string -> Option<int>)
    requires parsePrice("abc").None?
    requires parsePrice("80") == Some(80.0) && parseQty("1") == Some(1)
    ensures Accepted(Attempts([Some("Bread"), Some("abc"), Some("Milk"), Some("80"), Some("1"), Some("")],
                              0, parsePrice, parseQty))
            == [LineItem("Milk", 80.0, 1)]
  {
    var answers := [Some("Bread"), Some("abc"), Some("Milk"), Some("80"), Some("1"), Some("")];
    assert Attempts(answers, 5, parsePrice, parseQty) == [];
    assert Attempts(answers, 2, parsePrice, parseQty) == [Attempt("Milk", Some(80.0), Some(1))];
  }

  /** A walk through the bookkeeping: one client, one order of two bread
      loaves at 50.0 and one milk at 80, for a total of 180.0. */
  method OrderScenario()
  {
    var m := new StoreManager();
    var ivan := m.AddClient("Ivan", "123", "i@x.com");
    var order := m.AddOrder(ivan);
    assert order.orderId == 1 && m.nextOrderId == 2;
    assert ivan.orders == [order] && m.orders == [order];
    order.AddProduct("Bread", 50.0, 2);
    order.AddProduct("Milk", 80.0, 1);
    assert order.Total() == 180.0;
    var second := m.AddOrder(ivan);
    assert second.orderId == 2 && m.orders == [order, second];
    assert second.Total() == 0.0;
  }

  /** Searching for "ann" finds Anna but not Ivan. */
  method SearchScenario()
  {
    var m := new StoreManager();
    var ivan := m.AddClient("Ivan", "123", "i@x.com");
    var anna := m.AddClient("Anna", "456", "a@x.com");
    MatchesExamples();
    var found := m.FindClient("ann");
    assert anna in found && ivan !in found;
  }
}
