/** The inventory list of the dashboard as values: how server records become
    items, the four statistics, the stock status, the search filter, and the
    list edits behind delete and update (src/pages/Dashboard.jsx). */
module InventoryList {
  import opened JsValues
  import opened JsStrings

  /** One component as the dashboard holds it. `id` may be missing when the
      record had neither `_id` nor `id`; `stock` and `minStock` may be NaN or
      missing, which the statistics and the status have to cope with. */
  datatype Item = Item(
    id: Option<string>,
    name: string,
    category: string,
    stock: JsNum,
    minStock: JsNum,
    specifications: string,
    supplier: string)

  /** A record of the `/electronics/all-items` answer, field by field:
      `mongoId` is the record's `_id`, and the minimum stock may come under
      either key. */
  datatype RawRecord = RawRecord(
    mongoId: Option<string>,
    id: Option<string>,
    name: string,
    category: string,
    stock: JsNum,
    min_stock: JsNum,
    minStock: JsNum,
    specifications: Option<string>,
    supplier: string)

  /** What the item editor hands back after a successful update: its form
      with both stock fields run through `parseInt`. */
  datatype Submitted = Submitted(
    name: string,
    category: string,
    stock: JsNum,
    min_stock: JsNum,
    specifications: string,
    supplier: string)

  /** The five components shown whenever loading the list fails. */
  const SampleItems: seq<Item> := [
    Item(Some("1"), "Arduino Uno R3", "Microcontroller", Num(45), Num(20),
         "ATmega328P, 16MHz, 5V, 14 Digital I/O", "Arduino"),
    Item(Some("2"), "DHT22 Temperature Sensor", "Sensor", Num(12), Num(15),
         "-40 to 80°C, ±0.5°C accuracy, Humidity", "Adafruit"),
    Item(Some("3"), "ESP32 DevKit", "Microcontroller", Num(8), Num(10),
         "WiFi/BT, Dual-core 240MHz, 4MB Flash", "Espressif"),
    Item(Some("4"), "OLED Display 0.96\"", "Display", Num(67), Num(30),
         "128x64, I2C/SPI, White/Blue", "Adafruit"),
    Item(Some("5"), "HC-05 Bluetooth Module", "Communication Module", Num(23), Num(15),
         "Class 2, 10m range, UART interface", "SparkFun")
  ]

  // ---------------------------------------------------------------------------
  // Normalising server records

  /** The mapping applied to each fetched record: `_id || id`,
      `min_stock || minStock`, `specifications || ''`. */
  function Normalise(r: RawRecord): Item {
    Item(
      if TruthyText(r.mongoId) then r.mongoId else r.id,
      r.name,
      r.category,
      r.stock,
      if TruthyNum(r.min_stock) then r.min_stock else r.minStock,
      r.specifications.GetOr(""),
      r.supplier)
  }

  /** `electronicsData.map(...)`: one item per record, in order. */
  function NormaliseAll(rs: seq<RawRecord>): (items: seq<Item>)
    ensures |items| == |rs|
    ensures forall i :: 0 <= i < |rs| ==> items[i] == Normalise(rs[i])
  {
    if rs == [] then [] else [Normalise(rs[0])] + NormaliseAll(rs[1..])
  }

  /** The identifier is the server's `_id` when that is a non-empty text and
      the record's own `id` otherwise; the other visible fields are copied,
      and missing specifications become the empty text. */
  lemma NormaliseFields(r: RawRecord)
    ensures TruthyText(r.mongoId) ==> Normalise(r).id == r.mongoId
    ensures !TruthyText(r.mongoId) ==> Normalise(r).id == r.id
    ensures TruthyNum(r.min_stock) ==> Normalise(r).minStock == r.min_stock
    ensures !TruthyNum(r.min_stock) ==> Normalise(r).minStock == r.minStock
    ensures r.specifications.Some? ==> Normalise(r).specifications == r.specifications.value
    ensures r.specifications.None? ==> Normalise(r).specifications == ""
    ensures var it := Normalise(r);
      it.name == r.name && it.category == r.category && it.stock == r.stock && it.supplier == r.supplier
  {
  }

  /** `min_stock || minStock` treats a minimum of 0 as missing: a record with
      `min_stock: 0` and no `minStock` gets an undefined minimum, so even an
      item with no stock at all is never counted as low on stock. */
  lemma ZeroMinimumIsDropped(r: RawRecord)
    requires r.min_stock == Num(0) && r.minStock == Undefined
    ensures Normalise(r).minStock == Undefined
    ensures !IsLow(Normalise(r))
  {
  }

  // ---------------------------------------------------------------------------
  // `Array.prototype.filter`, and what it keeps

  /** `xs.filter(p)`. */
  function Keep<T>(xs: seq<T>, p: T -> bool): (r: seq<T>)
    ensures |r| <= |xs|
    ensures forall x :: x in r ==> x in xs && p(x)
  {
    if xs == [] then [] else (if p(xs[0]) then [xs[0]] else []) + Keep(xs[1..], p)
  }

  /** a is b with some elements left out, the others kept in their order. */
  predicate IsSubsequence<T(==)>(a: seq<T>, b: seq<T>)
    decreases |b|
  {
    a == [] || (b != [] && ((a[0] == b[0] && IsSubsequence(a[1..], b[1..])) || IsSubsequence(a, b[1..])))
  }

  lemma {:induction false} KeepIsSubsequence<T>(xs: seq<T>, p: T -> bool)
    ensures IsSubsequence(Keep(xs, p), xs)
  {
    if xs != [] {
      KeepIsSubsequence(xs[1..], p);
      if p(xs[0]) {
        assert Keep(xs, p) == [xs[0]] + Keep(xs[1..], p);
        assert Keep(xs, p)[1..] == Keep(xs[1..], p);
      } else {
        assert Keep(xs, p) == Keep(xs[1..], p);
      }
    }
  }

  lemma {:induction false} KeepKeepsSatisfying<T>(xs: seq<T>, p: T -> bool, x: T)
    requires x in xs && p(x)
    ensures x in Keep(xs, p)
  {
    if xs[0] != x {
      KeepKeepsSatisfying(xs[1..], p, x);
    }
  }

  /** An element is kept exactly when it is in the list and satisfies p. */
  lemma KeepMembership<T>(xs: seq<T>, p: T -> bool, x: T)
    ensures x in Keep(xs, p) <==> x in xs && p(x)
  {
    if x in xs && p(x) {
      KeepKeepsSatisfying(xs, p, x);
    }
  }

  lemma {:induction false} KeepAllSatisfying<T>(xs: seq<T>, p: T -> bool)
    requires forall i :: 0 <= i < |xs| ==> p(xs[i])
    ensures Keep(xs, p) == xs
  {
    if xs != [] {
      KeepAllSatisfying(xs[1..], p);
    }
  }

  /** What p keeps and what its negation q keeps make up the whole list. */
  lemma {:induction false} KeepSplit<T>(xs: seq<T>, p: T -> bool, q: T -> bool)
    requires forall x :: q(x) == !p(x)
    ensures |Keep(xs, p)| + |Keep(xs, q)| == |xs|
  {
    if xs != [] {
      KeepSplit(xs[1..], p, q);
    }
  }

  // ---------------------------------------------------------------------------
  // Stock status and the statistics

  /** `item.stock <= item.minStock`: the low-stock rule. */
  predicate IsLow(item: Item) {
    AtMost(item.stock, item.minStock)
  }

  datatype StockStatus = LowStock | InStock {
    function Label(): string {
      match this
      case LowStock => "Low Stock"
      case InStock => "In Stock"
    }
  }

  /** `getStockStatus(item)`. */
  function GetStockStatus(item: Item): (s: StockStatus)
    ensures s.Label() == "Low Stock" <==> IsLow(item)
    ensures s.Label() == "In Stock" <==> !IsLow(item)
  {
    if AtMost(item.stock, item.minStock) then LowStock else InStock
  }

  /** `electronics.reduce((sum, item) => sum + item.stock, 0)`, a left fold. */
  function TotalStock(xs: seq<Item>): JsNum {
    if xs == [] then Num(0) else Plus(TotalStock(xs[..|xs| - 1]), xs[|xs| - 1].stock)
  }

  predicate AllStocksNumeric(xs: seq<Item>) {
    forall i :: 0 <= i < |xs| ==> xs[i].stock.Num?
  }

  /** The plain sum of the stock counts, for lists where every count is a number. */
  function StockSum(xs: seq<Item>): int
    requires AllStocksNumeric(xs)
  {
    if xs == [] then 0 else xs[0].stock.n + StockSum(xs[1..])
  }

  lemma {:induction false} StockSumSnoc(xs: seq<Item>)
    requires xs != [] && AllStocksNumeric(xs)
    ensures StockSum(xs) == StockSum(xs[..|xs| - 1]) + xs[|xs| - 1].stock.n
  {
    if |xs| > 1 {
      StockSumSnoc(xs[1..]);
      assert xs[1..][..|xs| - 2] == xs[..|xs| - 1][1..];
    }
  }

  /** The total stock is the sum of the stock counts when each of them is a
      number, and NaN as soon as one is NaN or missing. */
  lemma {:induction false} TotalStockMeaning(xs: seq<Item>)
    ensures AllStocksNumeric(xs) ==> TotalStock(xs) == Num(StockSum(xs))
    ensures !AllStocksNumeric(xs) ==> TotalStock(xs) == NaN
  {
    if xs != [] {
      var init := xs[..|xs| - 1];
      TotalStockMeaning(init);
      if AllStocksNumeric(xs) {
        StockSumSnoc(xs);
      } else if AllStocksNumeric(init) {
        assert !xs[|xs| - 1].stock.Num?;
      }
    }
  }

  predicate IsMicrocontroller(item: Item) {
    item.category == "Microcontroller"
  }

  datatype Stats = Stats(totalComponents: nat, lowStockCount: nat, totalStock: JsNum, microcontrollerCount: nat)

  /** The four cards above the table, recomputed from the current list. */
  function StatsOf(xs: seq<Item>): (s: Stats)
    ensures s.totalComponents == |xs|
    ensures s.lowStockCount <= s.totalComponents
    ensures s.microcontrollerCount <= s.totalComponents
  {
    Stats(|xs|, |Keep(xs, IsLow)|, TotalStock(xs), |Keep(xs, IsMicrocontroller)|)
  }

  /** The low-stock card counts exactly the rows whose badge reads
      'Low Stock', and the rows with the other badge make up the rest. */
  lemma {:induction false} LowStockCardMatchesBadges(xs: seq<Item>)
    ensures StatsOf(xs).lowStockCount == |Keep(xs, x => GetStockStatus(x) == LowStock)|
    ensures StatsOf(xs).lowStockCount + |Keep(xs, x => GetStockStatus(x) == InStock)| == |xs|
  {
    if xs != [] {
      LowStockCardMatchesBadges(xs[1..]);
    }
  }

  // ---------------------------------------------------------------------------
  // Search

  /** The search test: the lower-cased query occurs in the lower-cased name,
      category, or (when there are any) specifications. */
  predicate Matches(query: string, item: Item) {
    var q := Lower(query);
    || Includes(Lower(item.name), q)
    || Includes(Lower(item.category), q)
    || (item.specifications != "" && Includes(Lower(item.specifications), q))
  }

  /** `filteredElectronics`. */
  function Search(xs: seq<Item>, query: string): seq<Item> {
    Keep(xs, item => Matches(query, item))
  }

  /** The search result is the list with some rows left out and the rest in
      their order, and it holds exactly the rows that match the query. */
  lemma SearchKeepsMatchingInOrder(xs: seq<Item>, query: string)
    ensures IsSubsequence(Search(xs, query), xs)
    ensures forall x :: x in Search(xs, query) <==> x in xs && Matches(query, x)
  {
    KeepIsSubsequence(xs, item => Matches(query, item));
    forall x ensures x in Search(xs, query) <==> x in xs && Matches(query, x) {
      KeepMembership(xs, item => Matches(query, item), x);
    }
  }

  /** An empty search box shows every row. */
  lemma EmptySearchKeepsAll(xs: seq<Item>)
    ensures Search(xs, "") == xs
  {
    forall i | 0 <= i < |xs| ensures Matches("", xs[i]) {
      IncludesEmpty(Lower(xs[i].name));
    }
    KeepAllSatisfying(xs, item => Matches("", item));
  }

  /** The case of the query does not matter. */
  lemma SearchIgnoresQueryCase(xs: seq<Item>, query: string)
    ensures Search(xs, Lower(query)) == Search(xs, query)
  {
    LowerIdempotent(query);
    KeepSameTest(xs, item => Matches(Lower(query), item), item => Matches(query, item));
  }

  lemma {:induction false} KeepSameTest<T>(xs: seq<T>, p: T -> bool, q: T -> bool)
    requires forall x :: p(x) == q(x)
    ensures Keep(xs, p) == Keep(xs, q)
  {
    if xs != [] {
      KeepSameTest(xs[1..], p, q);
    }
  }

  // ---------------------------------------------------------------------------
  // Delete and update

  /** `prev.filter(item => item.id !== id)`. */
  function RemoveId(xs: seq<Item>, id: Option<string>): seq<Item> {
    Keep(xs, (item: Item) => item.id != id)
  }

  /** A delete drops every row carrying the id and keeps every other row,
      in order; the row count falls by the number of rows dropped. */
  lemma RemoveIdMeaning(xs: seq<Item>, id: Option<string>)
    ensures IsSubsequence(RemoveId(xs, id), xs)
    ensures forall x :: x in RemoveId(xs, id) <==> x in xs && x.id != id
    ensures |RemoveId(xs, id)| == |xs| - |Keep(xs, (item: Item) => item.id == id)|
  {
    var p := (item: Item) => item.id != id;
    KeepIsSubsequence(xs, p);
    forall x ensures x in RemoveId(xs, id) <==> x in xs && x.id != id {
      KeepMembership(xs, p, x);
    }
    KeepSplit(xs, p, (item: Item) => item.id == id);
  }

  /** Deleting an id no row carries leaves the list as it was. */
  lemma RemoveAbsentId(xs: seq<Item>, id: Option<string>)
    requires forall i :: 0 <= i < |xs| ==> xs[i].id != id
    ensures RemoveId(xs, id) == xs
  {
    KeepAllSatisfying(xs, (item: Item) => item.id != id);
  }

  /** `{ ...item, ...electronicsData, minStock: electronicsData.min_stock }`:
      the submitted fields replace the row's, the id stays. */
  function Overwrite(item: Item, data: Submitted): Item {
    item.(name := data.name, category := data.category, stock := data.stock,
          minStock := data.min_stock, specifications := data.specifications,
          supplier := data.supplier)
  }

  /** The update branch of `handleAddElectronics`: the rows whose id equals
      the edited item's id are overwritten, the others left alone. */
  function UpdateById(xs: seq<Item>, id: Option<string>, data: Submitted): (r: seq<Item>)
    ensures |r| == |xs|
    ensures forall i :: 0 <= i < |xs| ==> r[i].id == xs[i].id
  {
    if xs == [] then []
    else [if xs[0].id == id then Overwrite(xs[0], data) else xs[0]] + UpdateById(xs[1..], id, data)
  }

  /** Each row with the id now shows the submitted fields (minimum stock
      from `min_stock`); each other row is unchanged. */
  lemma {:induction false} UpdateByIdAt(xs: seq<Item>, id: Option<string>, data: Submitted, i: int)
    requires 0 <= i < |xs|
    ensures xs[i].id == id ==> UpdateById(xs, id, data)[i] == Overwrite(xs[i], data)
    ensures xs[i].id != id ==> UpdateById(xs, id, data)[i] == xs[i]
    ensures UpdateById(xs, id, data)[i].id == xs[i].id
  {
    if i > 0 {
      UpdateByIdAt(xs[1..], id, data, i - 1);
    }
  }

  /** Submitting the same data twice changes nothing the second time. */
  lemma {:induction false} UpdateByIdIdempotent(xs: seq<Item>, id: Option<string>, data: Submitted)
    ensures UpdateById(UpdateById(xs, id, data), id, data) == UpdateById(xs, id, data)
  {
    if xs != [] {
      UpdateByIdIdempotent(xs[1..], id, data);
    }
  }

  // ---------------------------------------------------------------------------
  // Loading the list

  /** What the list request can come back with: a response, a request that
      got no response, or a failure with neither (a request that could not
      be sent, or a body whose `.map` throws). */
  datatype Payload = Wrapped(electronics: seq<RawRecord>) | Bare(records: seq<RawRecord>) | NotAList
  datatype FetchOutcome = FetchResponded(status: int, body: Payload) | FetchNoResponse | FetchRequestFailed

  /** The outcomes that land in the `catch` of `fetchElectronics`. */
  predicate FetchFails(o: FetchOutcome) {
    match o
    case FetchResponded(status, body) => !IsSuccessStatus(status) || (status == 200 && body.NotAList?)
    case _ => true
  }

  /** The error text `fetchElectronics` leaves behind. */
  function FetchErrorMessage(o: FetchOutcome): (msg: string)
    ensures msg != "" <==> FetchFails(o)
  {
    if !FetchFails(o) then ""
    else match o
      case FetchResponded(status, _) =>
        if !IsSuccessStatus(status) && status == 404 then "Electronics endpoint not found."
        else if !IsSuccessStatus(status) && status == 500 then "Server error. Please try again later."
        else "Failed to load electronics. Please try again."
      case FetchNoResponse => "Network error. Please check your connection."
      case FetchRequestFailed => "Failed to load electronics. Please try again."
  }

  /** The list after `fetchElectronics`: the normalised records on a 200
      answer, the sample components on any failure, and the previous list
      on another 2xx answer. */
  function FetchedList(o: FetchOutcome, previous: seq<Item>): (r: seq<Item>)
    ensures FetchFails(o) ==> r == SampleItems
    ensures o.FetchResponded? && o.status == 200 && o.body.Wrapped? ==> r == NormaliseAll(o.body.electronics)
    ensures o.FetchResponded? && o.status == 200 && o.body.Bare? ==> r == NormaliseAll(o.body.records)
    ensures o.FetchResponded? && IsSuccessStatus(o.status) && o.status != 200 ==> r == previous
  {
    if FetchFails(o) then SampleItems
    else match o.body
      case Wrapped(rs) => if o.status == 200 then NormaliseAll(rs) else previous
      case Bare(rs) => if o.status == 200 then NormaliseAll(rs) else previous
      case NotAList => previous
  }

  /** Which screen the dashboard renders. */
  datatype Screen = LoadingScreen | ErrorScreen(message: string) | ListScreen(banner: Option<string>)

  function ScreenFor(isLoading: bool, error: string, xs: seq<Item>): Screen {
    if isLoading then LoadingScreen
    else if error != "" && |xs| == 0 then ErrorScreen(error)
    else ListScreen(if error != "" then Some(error) else None)
  }

  /** After a fetch has settled the "Unable to Load Electronics" screen is
      never shown: a failure fills the list with the sample components, so
      its message appears only as the dismissible banner over them. */
  lemma FetchNeverShowsErrorScreen(o: FetchOutcome, previous: seq<Item>)
    ensures ScreenFor(false, FetchErrorMessage(o), FetchedList(o, previous)).ListScreen?
    ensures FetchFails(o) ==>
      ScreenFor(false, FetchErrorMessage(o), FetchedList(o, previous)) == ListScreen(Some(FetchErrorMessage(o)))
  {
  }

  /** What the delete request can come back with. */
  datatype DeleteOutcome = DeleteResponded(status: int) | DeleteNoResponse | DeleteRequestFailed

  predicate DeleteFails(o: DeleteOutcome) {
    !(o.DeleteResponded? && IsSuccessStatus(o.status))
  }

  /** The error text of a failed delete; a delete that got no response has
      no message of its own. */
  function DeleteErrorMessage(o: DeleteOutcome): (msg: string)
    requires DeleteFails(o)
    ensures msg != ""
    ensures msg == "Component not found." <==> o == DeleteResponded(404)
    ensures msg == "Server error. Please try again later." <==> o == DeleteResponded(500)
  {
    match o
    case DeleteResponded(status) =>
      if status == 404 then "Component not found."
      else if status == 500 then "Server error. Please try again later."
      else "Failed to delete component. Please try again."
    case _ => "Failed to delete component. Please try again."
  }
}
