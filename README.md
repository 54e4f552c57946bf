# Shop client and order bookkeeping, in Dafny

A model of the in-memory bookkeeping of a small shop's desktop application
(`main.py`):

- a **client** registry: name, phone, email and a growing list of orders;
- an **order** ledger: every order gets the next id from a counter that
  starts at 1. It carries line items (product, unit price, quantity), and
  its total is the sum of price × quantity;
- the **order-entry flow** of the window. It finds the client by exact name
  and opens a new order. It then collects line items from the dialogs until
  the product name is left empty or cancelled. An item whose price or
  quantity does not convert to a number is discarded.

Files:

- `wrappers.dfy`: `Option`.
- `text.dfy` (module `Text`): lower-casing and substring search, which is
  what the client search matches with.
- `store.dfy` (module `Store`): the classes `Client`, `Order` and
  `StoreManager`, and the order total.
- `app.dfy` (module `App`): the order-entry flow and its item loop. The
  dialogs are replaced by a sequence of answers.

`Client`, `Order` and `StoreManager` are classes, because the program
updates them in place. One `Order` object is shared by the client's list and
the ledger. `StoreManager.Valid` is the ledger invariant: the orders carry
the ids 1, 2, 3, … in ledger order, and the counter is one past the last
id. `StoreManager.Owned` is the ownership invariant:

- each order in the ledger belongs to exactly one registered client;
- each client's orders are in the ledger;
- each client's orders are listed in issue order.

Every operation preserves `Valid`. `Owned` is preserved by `AddClient`,
and by `AddOrder` when the client is registered. `StoreManager.add_order`
accepts any client. Given an unregistered one, the ledger would hold an
order that no registered client owns. The order-entry flow (`AddOrderFlow`)
always passes a registered client, so there `Owned` is always kept.

Modelling choices:

- Prices are `real` and quantities `int`. Python integers are unbounded, so
  no wrap-around is involved.
- The dialogs are a finite `seq<Option<string>>`, where `None` is a
  cancelled dialog. Every dialog after the last given answer counts as
  cancelled, so the loop always ends.
- The conversions `float(...)` and `int(...)` are parameters of type
  `string -> Option<…>`. A cancelled dialog fails the same way as text the
  conversion rejects, since `float(None)` raises `TypeError`.
- The client lookup `next(...)` is modelled by `FirstNamed`. It returns the
  client's position in the registry. `AddOrderFlow` then takes the client at
  that position.
- The item loop of `SimpleStoreApp.add_order` is its own method,
  `CollectItems`. `AddOrderFlow` calls it after issuing the order, as the
  source runs the loop after `add_order`.

## Model

| member | source | states |
|---|---|---|
| `Text.ToLower` | main.py:61 | the result is never an upper-case letter, and characters that are not upper-case letters are returned unchanged |
| `Text.Lower` | main.py:61 | lower-casing keeps the length and lowers each character in place |
| `Text.LowerIdempotent` | main.py:61 | lower-casing an already lower-cased string changes nothing |
| `Text.Search` | main.py:61 | Python's `q in s`: the empty query is found in every string, and nothing longer than `s` is found in it |
| `Text.OccurrenceFound` | main.py:61 | wherever `q` occurs in `s`, the search for `q in s` succeeds |
| `Text.FoundOccurrence` | main.py:61 | when the search for `q in s` succeeds, `q` occurs at some position of `s` |
| `Text.SearchIsSubstring` | main.py:61 | the left-to-right search for `q in s` succeeds exactly when `q` occurs at some position of `s`, in both directions |
| `Text.Matches` | main.py:61 | a name matches a query exactly when the lower-cased query occurs somewhere in the lower-cased name |
| `Text.MatchesIgnoresCase` | main.py:61 | matching gives the same answer whether query or name are lower-cased first, and the empty query matches every name |
| `Text.MatchesExamples` | main.py:61 | "ann" matches "Anna" and "Hannah" but not "Ivan" |
| `Store.Amount` | main.py:29 | one item's price × quantity is never negative for a non-negative item, and is zero when the quantity or the price is zero |
| `Store.Sum` | main.py:29 | the left-to-right sum over the items is zero for no items and never negative when no item is |
| `Store.Order.Total` | main.py:28-29 | an order's total is zero when it has no items and never negative when no item is; how it changes is stated by `SumSnoc`, `SumConcat` and `Order.AddProduct` |
| `Store.SumSnoc` | main.py:28-29 | appending one line item raises the total by exactly its price × quantity |
| `Store.SumConcat` | main.py:28-29 | the total of two item lists put together is the sum of their totals |
| `Store.Client.constructor` | main.py:7-11 | a new client keeps the given name, phone and email and has no orders |
| `Store.Client.AddOrder` | main.py:13-14 | the order is appended after the client's earlier orders |
| `Store.Order.constructor` | main.py:21-23 | a new order has the given id and no line items |
| `Store.Order.AddProduct` | main.py:25-26 | exactly one line item is appended, and the total grows by price × quantity |
| `Store.Select` | main.py:61 | the selected clients are a subsequence of the list, keeping registry order; a client appears exactly as often as in the list if its name matches and not at all otherwise |
| `Store.StoreManager.constructor` | main.py:37-40 | empty registry and ledger, counter at 1, both invariants hold |
| `Store.StoreManager.AddClient` | main.py:42-45 | one fresh client with the given fields and no orders is appended; the earlier clients, the ledger and the counter are unchanged; both invariants are kept |
| `Store.StoreManager.AddOrder` | main.py:47-52 | the new order gets the current counter value as id, the counter goes up by exactly 1, and the same fresh order is appended to the client's list and to the ledger; the registry is unchanged; `Valid` is kept, and `Owned` is kept when the client is registered |
| `Store.StoreManager.FindClient` | main.py:60-61 | the result holds exactly the registered clients whose lower-cased name contains the lower-cased query, in registry order, each once per registration; it is empty when none match, and nothing is changed |
| `Store.IdsIncreasing` | main.py:47-51 | in a valid ledger the ids are strictly increasing and below the counter, so no two orders share an id or an object |
| `Store.SelectAll` | main.py:61 | the empty query selects the whole list |
| `Store.EmptyQueryFindsAll` | main.py:60-61 | searching with the empty query returns the whole registry |
| `App.Ask` | main.py:132-138 | a dialog answered with text lies within the given answers; every dialog after them is cancelled |
| `App.StopAt` | main.py:132-134 | the loop stops at a product prompt whose answer is empty or cancelled, at or after where it started |
| `App.StopIgnoresRest` | main.py:131-134 | answers that follow the empty or cancelled product name are never read |
| `App.ParseAnswer` | main.py:136-139 | a cancelled dialog never converts; a converted value is what the conversion gives for the text that was entered |
| `App.Attempts` | main.py:131-141 | there are no attempts exactly when the first product answer is empty or cancelled; every attempt has a non-empty product name, and an attempt whose price failed never has a quantity (the quantity is not asked) |
| `App.AttemptsBounded` | main.py:132-134 | there are no more attempts than answers, since each attempt starts with its own product answer |
| `App.Accepted` | main.py:136-143 | the collected items are the attempts whose price and quantity both converted; no item comes from anything else and none of them is missing |
| `App.AcceptedConcat` | main.py:131-143 | collecting over two runs of attempts is collecting over each in turn |
| `App.AcceptedStep` | main.py:136-143 | an attempt whose price or quantity fails leaves the items unchanged; a successful one appends exactly its item |
| `App.FirstNamed` | main.py:124-125 | the lookup returns the first client whose name equals the given name exactly, or none when no client has that name |
| `App.DuplicateNameGoesToFirst` | main.py:124 | with two clients of the same name, the lookup never picks the later one |
| `App.CollectItems` | main.py:131-143 | the order's items afterwards are its earlier items followed by exactly the successful attempts, in input order |
| `App.AddOrderFlow` | main.py:123-145 | no client of that name means no order, an unchanged counter and unchanged order lists. Otherwise one fresh order with the next id goes to the first client of that name and to the ledger, and no other client changes. Its items are exactly the successful attempts, and its total is their sum. Both invariants are kept |
| `App.BadPriceThenGoodItem` | main.py:136-143 | an item with price "abc" is dropped and a following valid item is still collected |

## Left out

- Everything of the Tk window is not modelled: window setup, search field,
  buttons, message boxes, the client list view and its double-click
  handler (main.py:64-121, main.py:147-179). This includes the client-entry
  dialogs of `SimpleStoreApp.add_client`, which only check that the name,
  phone and email are not empty before calling `StoreManager.add_client`.
- The display strings are not modelled: `Client.__str__`, `Order.__str__`,
  `list_clients` and `list_orders`. They only build text.
- Floating-point arithmetic is not modelled. Prices are real numbers, so
  `Order.total` carries no IEEE rounding. Python's `sum` also returns the
  integer 0 for an order with no items, where the model gives 0.0.
- The text conversions done by `float()` and `int()` are not modelled. They
  are parameters of the flow; only whether they succeed matters.
- `Text.ToLower`: only ASCII letters and the Cyrillic capitals U+0400–U+042F
  are lower-cased. Python's `str.lower` also lowers other scripts, and for a
  few code points it changes the string's length.
- `App.CollectItems`: the user can go on answering forever, and then the
  source loop never ends. The model gets a finite list of answers, followed
  by cancels.
