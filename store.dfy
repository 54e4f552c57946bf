/** The shop's in-memory bookkeeping: clients, orders with their line
    items, and the manager that registers clients and issues order ids. */
module Store {

  import opened Text

  /** One line of an order: a product name, its unit price and a quantity.
      The unit price is a real number (the program keeps it as a float). */
  datatype LineItem = LineItem(product: string, price: real, qty: int)

  /** A line item whose price and quantity are both non-negative, as the
      shop expects (the program does not check it). */
  predicate NonNegative(item: LineItem)
  {
    item.price >= 0.0 && item.qty >= 0
  }

  /** What one line item adds to an order's total: price times quantity.
      It is never negative for a non-negative item and vanishes when
      nothing or nothing priced is bought. */
  function Amount(item: LineItem): (r: real)
    ensures NonNegative(item) ==> r >= 0.0
    ensures item.qty == 0 || item.price == 0.0 ==> r == 0.0
  {
    item.price * (item.qty as real)
  }

  /** Total of a list of line items, accumulated from the first item to the
      last starting from zero: zero for no items, and never negative when no
      item is. */
  function Sum(items: seq<LineItem>): (r: real)
    ensures items == [] ==> r == 0.0
    ensures (forall k :: 0 <= k < |items| ==> NonNegative(items[k])) ==> r >= 0.0
    decreases |items|
  {
    if items == [] then 0.0 else Sum(items[..|items| - 1]) + Amount(items[|items| - 1])
  }

  /** Appending one item adds exactly that item's amount to the total. */
  lemma SumSnoc(items: seq<LineItem>, item: LineItem)
    ensures Sum(items + [item]) == Sum(items) + Amount(item)
  {
    assert (items + [item])[..|items|] == items;
  }

  /** The total of two lists put together is the sum of their totals. */
  lemma {:induction false} SumConcat(a: seq<LineItem>, b: seq<LineItem>)
    ensures Sum(a + b) == Sum(a) + Sum(b)
    decreases |b|
  {
    if b == [] {
      assert a + b == a;
    } else {
      var front := b[..|b| - 1];
      assert a + b == (a + front) + [b[|b| - 1]];
      SumSnoc(a + front, b[|b| - 1]);
      SumConcat(a, front);
      SumSnoc(front, b[|b| - 1]);
      assert front + [b[|b| - 1]] == b;
    }
  }

  /** A customer: contact fields fixed at creation and the list of the
      customer's orders, which only grows. */
  class Client {
    const name: string
    const phone: string
    const email: string
    var orders: seq<Order>

    constructor (name: string, phone: string, email: string)
      ensures this.name == name && this.phone == phone && this.email == email
      ensures orders == []
    {
      this.name := name;
      this.phone := phone;
      this.email := email;
      orders := [];
    }

    /** Records one more order for this client, after the earlier ones. */
    method AddOrder(order: Order)
      modifies this
      ensures orders == old(orders) + [order]
    {
      orders := orders + [order];
    }
  }

  /** An order: the id it was issued with and its line items. */
  class Order {
    const orderId: int
    var products: seq<LineItem>

    constructor (orderId: int)
      ensures this.orderId == orderId && products == []
    {
      this.orderId := orderId;
      products := [];
    }

    /** Appends one line item; the total grows by exactly price times qty. */
    method AddProduct(product: string, price: real, qty: int)
      modifies this
      ensures products == old(products) + [LineItem(product, price, qty)]
      ensures Total() == old(Total()) + Amount(LineItem(product, price, qty))
    {
      SumSnoc(products, LineItem(product, price, qty));
      products := products + [LineItem(product, price, qty)];
    }

    /** Sum of price times quantity over the line items, recomputed on
        every call; zero for an order without items. */
    function Total(): (t: real)
      reads this
      ensures products == [] ==> t == 0.0
      ensures (forall k :: 0 <= k < |products| ==> NonNegative(products[k])) ==> t >= 0.0
    {
      Sum(products)
    }
  }

  /** `r` is `s` with some elements left out, the rest kept in order. */
  ghost predicate IsSubsequence(r: seq<Client>, s: seq<Client>)
    decreases |s|
  {
    r == [] ||
    (s != [] &&
     ((r[0] == s[0] && IsSubsequence(r[1..], s[1..])) || IsSubsequence(r, s[1..])))
  }

  /** The clients of `cs` whose names match `query`, in the order of `cs`. */
  function Select(cs: seq<Client>, query: string): (r: seq<Client>)
    ensures IsSubsequence(r, cs)
    ensures forall c :: c in r ==> c in cs && Matches(query, c.name)
    ensures forall c :: c in cs ==> multiset(r)[c] == if Matches(query, c.name) then multiset(cs)[c] else 0
  {
    if cs == [] then []
    else
      assert cs == [cs[0]] + cs[1..];
      var rest := Select(cs[1..], query);
      if Matches(query, cs[0].name) then
        assert ([cs[0]] + rest)[1..] == rest;
        [cs[0]] + rest
      else
        rest
  }

  /** The registry of clients and the ledger of all orders, with the
      counter from which order ids are issued. */
  class StoreManager {
    var clients: seq<Client>
    var orders: seq<Order>
    var nextOrderId: int

    /** The ledger invariant: the orders carry ids 1, 2, 3, ... in ledger
        order and the counter is the next id; registered clients are
        distinct objects. */
    ghost predicate Valid()
      reads this
    {
      nextOrderId == |orders| + 1 &&
      (forall i :: 0 <= i < |orders| ==> orders[i].orderId == i + 1) &&
      (forall i, j :: 0 <= i < j < |clients| ==> clients[i] != clients[j])
    }

    /** Ownership: every order of a registered client is in the ledger,
        every order in the ledger belongs to exactly one registered client,
        and each client's orders are listed in the order they were issued. */
    ghost predicate Owned()
      reads this, clients
    {
      (forall c, o :: c in clients && o in c.orders ==> o in orders) &&
      (forall o :: o in orders ==> exists c :: c in clients && o in c.orders) &&
      (forall c1, c2, o :: c1 in clients && c2 in clients && o in c1.orders && o in c2.orders ==> c1 == c2) &&
      (forall c, i, j :: c in clients && 0 <= i < j < |c.orders| ==> c.orders[i].orderId < c.orders[j].orderId)
    }

    constructor ()
      ensures Valid() && Owned()
      ensures clients == [] && orders == [] && nextOrderId == 1
    {
      clients := [];
      orders := [];
      nextOrderId := 1;
    }

    /** Registers a new client with an empty order list at the end of the
        registry; the ledger and the counter are untouched. */
    method AddClient(name: string, phone: string, email: string) returns (client: Client)
      requires Valid()
      modifies this
      ensures Valid()
      ensures old(Owned()) ==> Owned()
      ensures fresh(client)
      ensures client.name == name && client.phone == phone && client.email == email
      ensures client.orders == []
      ensures clients == old(clients) + [client]
      ensures orders == old(orders) && nextOrderId == old(nextOrderId)
    {
      client := new Client(name, phone, email);
      clients := clients + [client];
    }

    /** Issues a new empty order to `client` with the current counter value
        as its id, bumps the counter by one, and appends the same order
        object to the client's list and to the ledger. */
    method AddOrder(client: Client) returns (order: Order)
      requires Valid()
      modifies this, client
      ensures Valid()
      ensures old(Owned()) && client in clients ==> Owned()
      ensures fresh(order)
      ensures order.orderId == old(nextOrderId) && order.products == []
      ensures nextOrderId == old(nextOrderId) + 1
      ensures orders == old(orders) + [order]
      ensures client.orders == old(client.orders) + [order]
      ensures clients == old(clients)
    {
      order := new Order(nextOrderId);
      nextOrderId := nextOrderId + 1;
      client.AddOrder(order);
      orders := orders + [order];
      if old(Owned()) && client in clients {
        // the client's earlier orders are in the ledger, so their ids are
        // below the id just issued
        forall k | 0 <= k < |old(client.orders)|
          ensures old(client.orders)[k].orderId < order.orderId
        {
          var o := old(client.orders)[k];
          assert o in old(orders);
          var idx :| 0 <= idx < |old(orders)| && old(orders)[idx] == o;
        }
      }
    }

    /** The clients whose lower-cased name contains the lower-cased query,
        in registry order; nothing is changed. */
    function FindClient(query: string): (found: seq<Client>)
      reads this
      ensures IsSubsequence(found, clients)
      ensures forall c :: c in found ==> c in clients && Matches(query, c.name)
      ensures forall c :: c in clients ==> multiset(found)[c] == if Matches(query, c.name) then multiset(clients)[c] else 0
    {
      Select(clients, query)
    }
  }

  /** In a valid ledger the ids are strictly increasing, hence pairwise
      distinct, and every order object appears once. */
  lemma IdsIncreasing(m: StoreManager, i: int, j: int)
    requires m.Valid()
    requires 0 <= i < j < |m.orders|
    ensures m.orders[i].orderId < m.orders[j].orderId < m.nextOrderId
    ensures m.orders[i] != m.orders[j]
  {
  }

  /** The empty query matches every name, so it selects every client. */
  lemma {:induction false} SelectAll(cs: seq<Client>)
    ensures Select(cs, "") == cs
  {
    if cs != [] {
      MatchesIgnoresCase("", cs[0].name);
      SelectAll(cs[1..]);
    }
  }

  /** Searching with the empty query lists the whole registry. */
  lemma EmptyQueryFindsAll(m: StoreManager)
    ensures m.FindClient("") == m.clients
  {
    SelectAll(m.clients);
  }
}
