/** Messages from Central applied to the local catalog: once each, and guarded by versions. */
module Inbox {
  import opened Basics
  import Sale

  datatype Category = Category(
    parent: Option<string>, name: string, code: Option<string>, sortOrder: int, active: bool, version: int,
      source: Option<string>)

  /** `columns` stands for the descriptive columns that are copied and never looked at. */
  datatype Product = Product(
    category: Option<string>, name: string, gstBps: Option<int>, columns: string, active: bool, tracked: bool,
      version: int)

  datatype Price = Price(productId: string, currency: string, amount: int, columns: string, version: int)
  datatype Barcode = Barcode(productId: string, kind: Option<string>, primary: bool)

  type Categories = map<string, Category>

  datatype Projection = Projection(
    categories: Categories,
    products: map<string, Product>,
    prices: map<string, Price>,
    barcodes: map<string, Barcode>,
    balances: Sale.Balances)

  datatype Entry = Entry(id: string, name: string)

  datatype Body =
    | UpsertCategory(id: string, category: Category)
    | CategorySnapshot(entries: seq<Entry>, snapshotVersion: int, source: Option<string>)
    | UpsertProduct(id: string, product: Product, store: Option<string>, stock: Option<int>)
    | RemoveProduct(id: string, removedVersion: int)
    | UpsertPrice(id: string, price: Price)
    | UpsertBarcode(id: string, barcode: Barcode)
    | Unreadable

  datatype Message = Message(id: string, kind: string, schemaVersion: int, validJson: bool, body: Body)

  datatype Error = InvalidMessage | InvalidPayload | MissingReference | UnsupportedSchema

  // ---- one row: upserts are guarded by versions ---------------------------------------------------

  predicate Accepts(stored: int, incoming: int) {
    incoming >= stored
  }

  predicate CategoryTaken(categories: Categories, id: string, version: int) {
    id in categories ==> Accepts(categories[id].version, version)
  }

  function StoreCategory(p: Projection, id: string, category: Category): Result<Projection, Error> {
    if id == "" || category.name == "" then Err(InvalidPayload)
    else if !CategoryTaken(p.categories, id, category.version) then Ok(p)
    else if category.parent.Some? && category.parent.value !in p.categories && category.parent.value != id
    then Err(MissingReference)
    else Ok(p.(categories := p.categories[id := category]))
  }

  predicate ProductTaken(p: Projection, id: string, version: int) {
    id in p.products ==> Accepts(p.products[id].version, version)
  }

  /** The stock Central reports replaces the local figure if its version is not behind the local one. */
  function StockAfter(balances: Sale.Balances, id: string, product: Product, store: Option<string>,
      stock: Option<int>): Sale.Balances {
    if product.tracked && store.Some? && store.value != "" && stock.Some?
       && ((store.value, id) in balances ==> Accepts(balances[(store.value, id)].version, product.version))
    then balances[(store.value, id) := Sale.Balance(stock.value, product.version)]
    else balances
  }

  function StoreStock(p: Projection, id: string, product: Product, store: Option<string>,
      stock: Option<int>): Projection {
    p.(balances := StockAfter(p.balances, id, product, store, stock))
  }

  function StoreProduct(p: Projection, id: string, product: Product, store: Option<string>,
      stock: Option<int>): Result<Projection, Error> {
    if id == "" || product.name == "" || (product.gstBps.Some? && !(0 <= product.gstBps.value <= 10000))
    then Err(InvalidPayload)
    else if !ProductTaken(p, id, product.version) then Ok(StoreStock(p, id, product, store, stock))
    else if product.category.Some? && product.category.value !in p.categories then Err(MissingReference)
    else Ok(StoreStock(p.(products := p.products[id := product]), id, product, store, stock))
  }

  function DropProduct(p: Projection, id: string, version: int): Result<Projection, Error> {
    if id == "" || version <= 0 then Err(InvalidPayload)
    else if id !in p.products || !Accepts(p.products[id].version, version) then Ok(p)
    else Ok(p.(products := p.products[id := p.products[id].(active := false, version := version)],
               barcodes := map b | b in p.barcodes && p.barcodes[b].productId != id :: p.barcodes[b],
               prices := map r | r in p.prices && p.prices[r].productId != id :: p.prices[r]))
  }

  function StorePrice(p: Projection, id: string, price: Price): Result<Projection, Error> {
    if id == "" || price.productId == "" || price.currency == "" || price.amount < 0 then Err(InvalidPayload)
    else if id in p.prices && !Accepts(p.prices[id].version, price.version) then Ok(p)
    else if price.productId !in p.products then Err(MissingReference)
    else Ok(p.(prices := p.prices[id := price]))
  }

  function StoreBarcode(p: Projection, id: string, barcode: Barcode): Result<Projection, Error> {
    if id == "" || barcode.productId == "" then Err(InvalidPayload)
    else if barcode.productId !in p.products then Err(MissingReference)
    else
      var kept := map b | b in p.barcodes
        && !(barcode.primary && p.barcodes[b].productId == barcode.productId && p.barcodes[b].primary && b != id) ::
             p.barcodes[b];
      Ok(p.(barcodes := kept[id := barcode]))
  }

  // ---- a snapshot of all categories, as a set ------------------------------------------------------

  /** The name the last entry for `id` gives. */
  function Listed(entries: seq<Entry>, id: string): Option<string> {
    if |entries| == 0 then None
    else if entries[|entries| - 1].id == id then Some(entries[|entries| - 1].name)
    else Listed(entries[..|entries| - 1], id)
  }

  function EntryIds(entries: seq<Entry>): set<string> {
    set e | e in entries :: e.id
  }

  /** A row the snapshot outdates is active if and only if it is listed; newer rows are untouched. */
  function SnapshotRow(categories: Categories, id: string, name: Option<string>, version: int,
      source: Option<string>): Category {
    if id in categories && categories[id].version > version then categories[id]
    else
      var row := if id in categories then categories[id] else Category(None, "", None, 0, false, version, source);
      row.(name := if name.Some? then name.value
           else row.name, active := name.Some?, version := version, source := source)
  }

  function Snapshotted(categories: Categories, entries: seq<Entry>, version: int, source: Option<string>): Categories {
    map id | id in categories.Keys + EntryIds(entries) ::
      SnapshotRow(categories, id, Listed(entries, id), version, source)
  }

  predicate EntriesOk(entries: seq<Entry>) {
    forall i | 0 <= i < |entries| :: entries[i].id != "" && entries[i].name != ""
  }

  function TakeSnapshot(p: Projection, entries: seq<Entry>, version: int, source: Option<string>): Result<Projection,
    Error> {
    if version <= 0 || !EntriesOk(entries) then Err(InvalidPayload)
    else Ok(p.(categories := Snapshotted(p.categories, entries, version, source)))
  }

  function ApplyBody(p: Projection, body: Body): Result<Projection, Error> {
    match body
    case UpsertCategory(id, category) => StoreCategory(p, id, category)
    case CategorySnapshot(entries, version, source) => TakeSnapshot(p, entries, version, source)
    case UpsertProduct(id, product, store, stock) => StoreProduct(p, id, product, store, stock)
    case RemoveProduct(id, version) => DropProduct(p, id, version)
    case UpsertPrice(id, price) => StorePrice(p, id, price)
    case UpsertBarcode(id, barcode) => StoreBarcode(p, id, barcode)
    case Unreadable => Err(InvalidPayload)
  }

  // ---- one message --------------------------------------------------------------------------------------

  datatype InboxRow = InboxRow(applied: bool, attempts: nat)

  datatype State = State(rows: map<string, InboxRow>, data: Projection)

  predicate Applied(s: State, id: string) {
    id in s.rows && s.rows[id].applied
  }

  predicate Readable(m: Message) {
    m.id != "" && m.kind != "" && m.validJson
  }

  /** Apply: a failing message leaves no trace, its own failed status included. */
  function Receive(s: State, m: Message): Result<State, Error> {
    if !Readable(m) then Err(InvalidMessage)
    else if Applied(s, m.id) then Ok(s)
    else match ApplyBody(s.data, m.body)
      case Err(e) => Err(e)
      case Ok(data) => Ok(State(s.rows[m.id := InboxRow(true, if m.id in s.rows then s.rows[m.id].attempts + 1
                                                        else 1)], data))
  }

  lemma ListedFinds(entries: seq<Entry>, id: string)
    ensures Listed(entries, id).Some? <==> id in EntryIds(entries)
  {
    if |entries| > 0 {
      ListedFinds(entries[..|entries| - 1], id);
      assert entries == entries[..|entries| - 1] + [entries[|entries| - 1]];
    }
  }

  /** The upsert of one listed category, as the loop runs it after the update. */
  function StoreListed(categories: Categories, entry: Entry, version: int, source: Option<string>): Categories {
    if entry.id !in categories then categories[entry.id := Category(None, entry.name, None, 0, true, version, source)]
    else if Accepts(categories[entry.id].version, version)
    then categories[entry.id := categories[entry.id].(name := entry.name, active := true, version := version,
                                                      source := source)]
    else categories
  }

  lemma ListedAppend(front: seq<Entry>, e: Entry, id: string)
    ensures Listed(front + [e], id) == if id == e.id then Some(e.name) else Listed(front, id)
  {
    assert (front + [e])[..|front|] == front;
  }

  lemma SnapshotNext(categories: Categories, entries: seq<Entry>, k: nat, version: int, source: Option<string>)
    requires k < |entries|
    ensures StoreListed(Snapshotted(categories, entries[..k], version, source), entries[k], version, source)
            == Snapshotted(categories, entries[..k + 1], version, source)
  {
    var front, e := entries[..k], entries[k];
    assert entries[..k + 1][..k] == front && entries[..k + 1] == front + [e];
    assert EntryIds(entries[..k + 1]) == EntryIds(front) + {e.id};
    forall id ensures Listed(entries[..k + 1], id) == if id == e.id then Some(e.name) else Listed(front, id) {
      ListedAppend(front, e, id);
    }
    ListedFinds(front, e.id);
    RowsNext(categories, front, e, entries[..k + 1], version, source);
  }

  lemma RowsNext(categories: Categories, front: seq<Entry>, e: Entry, all: seq<Entry>, version: int,
      source: Option<string>)
    requires EntryIds(all) == EntryIds(front) + {e.id}
    requires forall id :: Listed(all, id) == if id == e.id then Some(e.name) else Listed(front, id)
    requires Listed(front, e.id).Some? <==> e.id in EntryIds(front)
    ensures StoreListed(Snapshotted(categories, front, version, source), e, version, source) ==
            Snapshotted(categories, all, version, source)
  {
    hide EntryIds, Listed;
    var before, after := Snapshotted(categories, front, version, source), Snapshotted(categories, all, version, source);
    var stored := StoreListed(before, e, version, source);
    assert stored.Keys == after.Keys;
    forall id | id in after ensures stored[id] == after[id] {
      if id == e.id {
        StoredRow(categories, front, e, version, source);
      } else {
        assert stored[id] == before[id];
      }
    }
  }

  lemma StoredRow(categories: Categories, front: seq<Entry>, e: Entry, version: int, source: Option<string>)
    requires Listed(front, e.id).Some? <==> e.id in EntryIds(front)
    ensures StoreListed(Snapshotted(categories, front, version, source), e, version, source)[e.id]
            == SnapshotRow(categories, e.id, Some(e.name), version, source)
  {
    hide EntryIds, Listed;
  }

  class Inbox {
    var rows: map<string, InboxRow>
    var data: Projection

    constructor ()
      ensures rows == map[] && data == Projection(map[], map[], map[], map[], map[])
    {
      rows, data := map[], Projection(map[], map[], map[], map[], map[]);
    }

    function View(): State
      reads this
    {
      State(rows, data)
    }

    /** One UPDATE for everything the snapshot outdates, then one upsert per listed category. */
    method ApplyCategorySnapshot(entries: seq<Entry>, version: int, source: Option<string>) returns (ok: bool)
      modifies this`data
      ensures ok <==> version > 0 && EntriesOk(entries)
      ensures ok ==> data == old(data).(categories := Snapshotted(old(data).categories, entries, version, source))
      ensures !ok ==> data == old(data)
    {
      if version <= 0 || !EntriesOk(entries) {
        return false;
      }
      var categories := data.categories;
      categories := map id | id in categories ::
        if categories[id].version <= version
        then categories[id].(active := false, version := version, source := source) else categories[id];
      assert entries[..0] == [];
      assert categories == Snapshotted(old(data).categories, entries[..0], version, source);
      for k := 0 to |entries|
        invariant categories == Snapshotted(old(data).categories, entries[..k], version, source)
        invariant data == old(data)
      {
        SnapshotNext(old(data).categories, entries, k, version, source);
        categories := StoreListed(categories, entries[k], version, source);
      }
      assert entries[..|entries|] == entries;
      data := data.(categories := categories);
      return true;
    }

    method ApplyProductUpsert(id: string, product: Product, store: Option<string>,
        stock: Option<int>) returns (err: Option<Error>)
      modifies this`data
      ensures match StoreProduct(old(data), id, product, store, stock)
              case Err(e) => err == Some(e) && data == old(data)
              case Ok(p) => err == None && data == p
    {
      if id == "" || product.name == ""
        || (product.gstBps.Some? && (product.gstBps.value < 0 || product.gstBps.value > 10000)) {
        return Some(InvalidPayload);
      }
      if id !in data.products || product.version >= data.products[id].version {
        if product.category.Some? && product.category.value !in data.categories {
          return Some(MissingReference);
        }
        data := data.(products := data.products[id := product]);
      }
      if product.tracked && store.Some? && store.value != "" && stock.Some? {
        var key := (store.value, id);
        if key !in data.balances || product.version >= data.balances[key].version {
          data := data.(balances := data.balances[key := Sale.Balance(stock.value, product.version)]);
        }
      }
      return None;
    }

    method ApplyProductRemove(id: string, version: int) returns (err: Option<Error>)
      modifies this`data
      ensures match DropProduct(old(data), id, version)
              case Err(e) => err == Some(e) && data == old(data)
              case Ok(p) => err == None && data == p
    {
      if id == "" || version <= 0 {
        return Some(InvalidPayload);
      }
      if id !in data.products || version < data.products[id].version {
        return None;
      }
      data := data.(products := data.products[id := data.products[id].(active := false, version := version)]);
      data := data.(barcodes := map b | b in data.barcodes && data.barcodes[b].productId != id :: data.barcodes[b]);
      data := data.(prices := map r | r in data.prices && data.prices[r].productId != id :: data.prices[r]);
      return None;
    }

    /** applyTx: the handler of the message type. */
    method ApplyChange(body: Body) returns (err: Option<Error>)
      modifies this`data
      ensures match ApplyBody(old(data), body)
              case Err(e) => err == Some(e) && data == old(data)
              case Ok(p) => err == None && data == p
    {
      match body {
        case CategorySnapshot(entries, version, source) =>
          var ok := ApplyCategorySnapshot(entries, version, source);
          return if ok then None else Some(InvalidPayload);
        case UpsertProduct(id, product, store, stock) =>
          err := ApplyProductUpsert(id, product, store, stock);
        case RemoveProduct(id, version) =>
          err := ApplyProductRemove(id, version);
        case UpsertCategory(id, category) =>
          err := Store(StoreCategory(data, id, category));
        case UpsertPrice(id, price) =>
          err := Store(StorePrice(data, id, price));
        case UpsertBarcode(id, barcode) =>
          err := Store(StoreBarcode(data, id, barcode));
        case Unreadable =>
          return Some(InvalidPayload);
      }
    }

    /** A single statement: it fails, or its effect is there. */
    method Store(r: Result<Projection, Error>) returns (err: Option<Error>)
      modifies this`data
      ensures match r
              case Err(e) => err == Some(e) && data == old(data)
              case Ok(p) => err == None && data == p
    {
      if r.Err? {
        return Some(r.error);
      }
      data := r.value;
      return None;
    }

    /** Apply: marks the message, applies it, marks it applied; an error rolls everything back. */
    method Apply(m: Message) returns (err: Option<Error>)
      modifies this
      ensures match Receive(old(View()), m)
              case Err(e) => err == Some(e) && View() == old(View())
              case Ok(s) => err == None && View() == s
    {
      if !Readable(m) {
        return Some(InvalidMessage);
      }
      if m.id in rows && rows[m.id].applied {
        return None;
      }
      var savedRows, savedData := rows, data;
      var attempts := if m.id in rows then rows[m.id].attempts + 1 else 1;
      rows := rows[m.id := InboxRow(false, attempts)];
      err := ApplyChange(m.body);
      if err.Some? {
        rows, data := savedRows, savedData;
        return;
      }
      rows := rows[m.id := InboxRow(true, attempts)];
    }
  }

  // ---- versions never fall ------------------------------------------------------------------------------

  /** Nothing disappears from the catalog tables and no version moves back. */
  predicate NoOlder(p: Projection, p': Projection) {
    && (forall id | id in p.categories :: id in p'.categories && p'.categories[id].version >= p.categories[id].version)
    && (forall id | id in p.products :: id in p'.products && p'.products[id].version >= p.products[id].version)
    && (forall k | k in p.balances :: k in p'.balances && p'.balances[k].version >= p.balances[k].version)
  }

  lemma VersionsNeverFall(s: State, m: Message)
    requires Receive(s, m).Ok?
    ensures NoOlder(s.data, Receive(s, m).value.data)
    ensures Applied(Receive(s, m).value, m.id)
    ensures forall id | Applied(s, id) :: Applied(Receive(s, m).value, id)
  {
    if !Applied(s, m.id) {
      BodyNeverFalls(s.data, m.body);
    }
    hide ApplyBody;
  }

  lemma BodyNeverFalls(p: Projection, body: Body)
    requires ApplyBody(p, body).Ok?
    ensures NoOlder(p, ApplyBody(p, body).value)
  {
    hide StoreCategory, TakeSnapshot, StoreProduct, DropProduct, StorePrice, StoreBarcode, NoOlder;
    match body {
      case UpsertCategory(id, category) => CategoryNeverFalls(p, id, category);
      case CategorySnapshot(entries, version, source) => SnapshotNeverFalls(p, entries, version, source);
      case UpsertProduct(id, product, store, stock) => ProductNeverFalls(p, id, product, store, stock);
      case RemoveProduct(id, version) => RemovalNeverFalls(p, id, version);
      case UpsertPrice(id, price) => PriceNeverFalls(p, id, price);
      case UpsertBarcode(id, barcode) => BarcodeNeverFalls(p, id, barcode);
    }
  }

  lemma CategoryNeverFalls(p: Projection, id: string, category: Category)
    ensures var r := StoreCategory(p, id, category);
            r.Ok? ==> NoOlder(p, r.value)
  {
  }

  lemma SnapshotNeverFalls(p: Projection, entries: seq<Entry>, version: int, source: Option<string>)
    ensures var r := TakeSnapshot(p, entries, version, source);
            r.Ok? ==> NoOlder(p, r.value)
  {
    hide Listed, EntryIds;
  }

  lemma ProductNeverFalls(p: Projection, id: string, product: Product, store: Option<string>, stock: Option<int>)
    ensures var r := StoreProduct(p, id, product, store, stock);
            r.Ok? ==> NoOlder(p, r.value)
  {
    StockNeverFalls(p, id, product, store, stock);
    StockNeverFalls(p.(products := p.products[id := product]), id, product, store, stock);
    hide StoreStock;
  }

  lemma StockNeverFalls(p: Projection, id: string, product: Product, store: Option<string>, stock: Option<int>)
    ensures NoOlder(p, StoreStock(p, id, product, store, stock))
  {
  }

  lemma RemovalNeverFalls(p: Projection, id: string, version: int)
    ensures var r := DropProduct(p, id, version);
            r.Ok? ==> NoOlder(p, r.value)
  {
  }

  lemma PriceNeverFalls(p: Projection, id: string, price: Price)
    ensures var r := StorePrice(p, id, price);
            r.Ok? ==> NoOlder(p, r.value)
  {
  }

  lemma BarcodeNeverFalls(p: Projection, id: string, barcode: Barcode)
    ensures var r := StoreBarcode(p, id, barcode);
            r.Ok? ==> NoOlder(p, r.value)
  {
  }

  // ---- a stream of upserts for one product -------------------------------------------------------------

  /** What a stream of accepted upserts leaves in the row of one product. */
  function RowAfter(row: Option<Product>, updates: seq<Product>): Option<Product> {
    if |updates| == 0 then row
    else
      var before := RowAfter(row, updates[..|updates| - 1]);
      var update := updates[|updates| - 1];
      if before.Some? && !Accepts(before.value.version, update.version) then before else Some(update)
  }

  /** One accepted upsert moves the row of its product as RowAfter says, and no other row. */
  lemma UpsertMovesOneRow(p: Projection, id: string, product: Product, store: Option<string>, stock: Option<int>,
      other: string)
    requires StoreProduct(p, id, product, store, stock).Ok?
    ensures var p' := StoreProduct(p, id, product, store, stock).value;
            Row(p', other) == if other == id then RowAfter(Row(p, id), [product]) else Row(p, other)
  {
    assert [product][..0] == [];
    assert RowAfter(Row(p, id), []) == Row(p, id);
  }

  function Row(p: Projection, id: string): Option<Product> {
    if id in p.products then Some(p.products[id]) else None
  }

  /** `result` is the last update of the highest version, or the old row if that was newer than all. */
  predicate Newest(row: Option<Product>, updates: seq<Product>, result: Product) {
    && (forall i | 0 <= i < |updates| :: updates[i].version <= result.version)
    && (row.Some? ==> row.value.version <= result.version)
    && ((row == Some(result) && forall i | 0 <= i < |updates| :: updates[i].version < result.version)
        || exists k | 0 <= k < |updates| :: LastAt(updates, k) && updates[k] == result)
  }

  predicate LastAt(updates: seq<Product>, k: nat)
    requires k < |updates|
  {
    forall i | k < i < |updates| :: updates[i].version < updates[k].version
  }

  lemma NewestNext(row: Option<Product>, front: seq<Product>, before: Product, last: Product)
    requires Newest(row, front, before)
    ensures Newest(row, front + [last], if Accepts(before.version, last.version) then last else before)
  {
    var all := front + [last];
    if Accepts(before.version, last.version) {
      assert LastAt(all, |front|) && all[|front|] == last;
    } else if k :| 0 <= k < |front| && LastAt(front, k) && front[k] == before {
      assert LastAt(all, k) && all[k] == before;
    }
  }

  lemma FirstIsNewest(updates: seq<Product>)
    requires |updates| == 1
    ensures Newest(None, updates, updates[0])
  {
    assert LastAt(updates, 0);
  }

  lemma RowNext(row: Option<Product>, front: seq<Product>, last: Product)
    ensures var before := RowAfter(row, front);
            RowAfter(row, front + [last]) == if before.Some? && !Accepts(before.value.version, last.version)
              then before else Some(last)
  {
    assert (front + [last])[..|front|] == front;
  }

  lemma {:induction false} LastOfHighestVersionWins(row: Option<Product>, updates: seq<Product>)
    requires |updates| > 0 || row.Some?
    ensures RowAfter(row, updates).Some? && Newest(row, updates, RowAfter(row, updates).value)
  {
    if |updates| == 0 {
      assert Newest(row, updates, row.value);
    } else {
      var front, last := updates[..|updates| - 1], updates[|updates| - 1];
      assert updates == front + [last];
      RowNext(row, front, last);
      if row.None? && |front| == 0 {
        assert RowAfter(row, front) == None;
        FirstIsNewest(updates);
      } else {
        hide Newest, RowAfter;
        LastOfHighestVersionWins(row, front);
        NewestNext(row, front, RowAfter(row, front).value, last);
      }
    }
  }

  /**
   * Convergence: if a version stands for one content, tills that received the same updates, in any
   * order and with any repeats, hold the same row.
   */
  lemma DeliveryOrderDoesNotMatter(row: Option<Product>, a: seq<Product>, b: seq<Product>)
    requires |a| > 0 && (set x | x in a) == (set x | x in b)
    requires forall x, y | x in a && y in a && x.version == y.version :: x == y
    requires row.Some? ==> forall x | x in a && x.version == row.value.version :: x == row.value
    ensures RowAfter(row, a) == RowAfter(row, b)
  {
    var all := set x | x in a;
    assert a[0] in all;
    assert |b| > 0;
    LastOfHighestVersionWins(row, a);
    LastOfHighestVersionWins(row, b);
    var x, y := RowAfter(row, a).value, RowAfter(row, b).value;
    forall i | 0 <= i < |a| ensures a[i] in b && a[i].version <= y.version {
      assert a[i] in all;
    }
    forall i | 0 <= i < |b| ensures b[i] in a && b[i].version <= x.version {
      assert b[i] in all;
    }
    hide RowAfter;
  }

  // ---- the same for whole streams of product messages ---------------------------------------------------

  /** Applying bodies one after another, as long as they succeed. */
  function ApplyBodies(p: Projection, bodies: seq<Body>): Result<Projection, Error> {
    if |bodies| == 0 then Ok(p)
    else match ApplyBodies(p, bodies[..|bodies| - 1])
      case Err(e) => Err(e)
      case Ok(p') => ApplyBody(p', bodies[|bodies| - 1])
  }

  predicate UpsertsOnly(bodies: seq<Body>) {
    forall i | 0 <= i < |bodies| :: bodies[i].UpsertProduct?
  }

  /** The rows the stream carries for one product. */
  function UpdatesOf(bodies: seq<Body>, id: string): seq<Product>
    requires UpsertsOnly(bodies)
  {
    if |bodies| == 0 then []
    else
      var last := bodies[|bodies| - 1];
      UpdatesOf(bodies[..|bodies| - 1], id) + (if last.id == id then [last.product] else [])
  }

  lemma {:induction false} StreamIsRowAfter(p: Projection, bodies: seq<Body>, id: string)
    requires UpsertsOnly(bodies) && ApplyBodies(p, bodies).Ok?
    ensures Row(ApplyBodies(p, bodies).value, id) == RowAfter(Row(p, id), UpdatesOf(bodies, id))
  {
    if |bodies| > 0 {
      var front, last := bodies[..|bodies| - 1], bodies[|bodies| - 1];
      StreamIsRowAfter(p, front, id);
      var before := ApplyBodies(p, front).value;
      UpsertMovesOneRow(before, last.id, last.product, last.store, last.stock, id);
      RowAfterNext(Row(p, id), UpdatesOf(front, id), last.product);
      assert UpdatesOf(front, id) + [] == UpdatesOf(front, id);
      hide StoreProduct, Row;
    }
  }

  lemma RowAfterNext(row: Option<Product>, front: seq<Product>, last: Product)
    ensures RowAfter(row, front + [last]) == RowAfter(RowAfter(row, front), [last])
  {
    assert (front + [last])[..|front|] == front && [last][..0] == [];
    assert RowAfter(RowAfter(row, front), []) == RowAfter(row, front);
  }

  lemma SameElements<T>(a: seq<T>, b: seq<T>)
    requires (set x | x in a) == (set x | x in b)
    ensures |a| == 0 <==> |b| == 0
  {
    var inA, inB := set x | x in a, set x | x in b;
    assert |a| > 0 ==> a[0] in inB;
    assert |b| > 0 ==> b[0] in inA;
  }

  /** Two tills that applied the same product updates in different orders agree on the product. */
  lemma StreamsConverge(p: Projection, a: seq<Body>, b: seq<Body>, id: string)
    requires UpsertsOnly(a) && UpsertsOnly(b) && ApplyBodies(p, a).Ok? && ApplyBodies(p, b).Ok?
    requires (set x | x in UpdatesOf(a, id)) == (set x | x in UpdatesOf(b, id))
    requires forall x, y | x in UpdatesOf(a, id) && y in UpdatesOf(a, id) && x.version == y.version :: x == y
    requires id in p.products ==>
             forall x | x in UpdatesOf(a, id) && x.version == p.products[id].version :: x == p.products[id]
    ensures Row(ApplyBodies(p, a).value, id) == Row(ApplyBodies(p, b).value, id)
  {
    StreamIsRowAfter(p, a, id);
    StreamIsRowAfter(p, b, id);
    if |UpdatesOf(a, id)| > 0 {
      DeliveryOrderDoesNotMatter(Row(p, id), UpdatesOf(a, id), UpdatesOf(b, id));
    }
    SameElements(UpdatesOf(a, id), UpdatesOf(b, id));
    hide ApplyBodies, UpdatesOf;
  }
}
