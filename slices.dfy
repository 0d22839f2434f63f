/**
 * The Redux slices the core pages read: each request's pending, fulfilled
 * and rejected reducers update one store object in place.
 */
module ProductSlice {
  import opened Options
  import opened AsyncOp
  import opened Catalog

  /** The three product requests that report a message. */
  datatype Op = Create | Update | Delete

  function SuccessDefault(op: Op): string {
    match op
    case Create => "Product created successfully!"
    case Update => "Product updated successfully!"
    case Delete => "Product deleted successfully!"
  }

  function ErrorDefault(op: Op): string {
    match op
    case Create => "Failed to create product"
    case Update => "Failed to update product"
    case Delete => "Failed to delete product"
  }

  /** The `product` slice. */
  class ProductStore {
    var createOp: Status
    var updateOp: Status
    var deleteOp: Status
    var loadingGet: bool
    var allProducts: seq<ListedProduct>
    /** `singleProduct`; `None` stands for the initial and fallback `[]`. */
    var singleProduct: Option<ListedProduct>

    function StatusOf(op: Op): Status
      reads this
    {
      match op
      case Create => createOp
      case Update => updateOp
      case Delete => deleteOp
    }

    constructor ()
      ensures forall op :: StatusOf(op) == Idle
      ensures !loadingGet && allProducts == [] && singleProduct == None
    {
      createOp, updateOp, deleteOp := Idle, Idle, Idle;
      loadingGet, allProducts, singleProduct := false, [], None;
    }

    method SetStatus(op: Op, s: Status)
      modifies this`createOp, this`updateOp, this`deleteOp
      ensures StatusOf(op) == s
      ensures forall o :: o != op ==> StatusOf(o) == old(StatusOf(o))
    {
      match op {
        case Create => createOp := s;
        case Update => updateOp := s;
        case Delete => deleteOp := s;
      }
    }

    /** `clearCreateMsg`, `clearUpdateMsg`, `clearDeleteMsg`. */
    method ClearMsg(op: Op)
      modifies this`createOp, this`updateOp, this`deleteOp
      ensures StatusOf(op) == Cleared(old(StatusOf(op)))
      ensures forall o :: o != op ==> StatusOf(o) == old(StatusOf(o))
    {
      SetStatus(op, Cleared(StatusOf(op)));
    }

    method OpPending(op: Op)
      modifies this`createOp, this`updateOp, this`deleteOp
      ensures StatusOf(op) == Pending(old(StatusOf(op)))
      ensures forall o :: o != op ==> StatusOf(o) == old(StatusOf(o))
    {
      SetStatus(op, Pending(StatusOf(op)));
    }

    method OpFulfilled(op: Op, message: Option<string>)
      modifies this`createOp, this`updateOp, this`deleteOp
      ensures StatusOf(op) == Fulfilled(old(StatusOf(op)), message, SuccessDefault(op))
      ensures forall o :: o != op ==> StatusOf(o) == old(StatusOf(o))
    {
      SetStatus(op, Fulfilled(StatusOf(op), message, SuccessDefault(op)));
    }

    method OpRejected(op: Op, payload: Option<string>)
      modifies this`createOp, this`updateOp, this`deleteOp
      ensures StatusOf(op) == Rejected(old(StatusOf(op)), payload, ErrorDefault(op))
      ensures forall o :: o != op ==> StatusOf(o) == old(StatusOf(o))
    {
      SetStatus(op, Rejected(StatusOf(op), payload, ErrorDefault(op)));
    }

    /** `getProducts.pending` and `getSingleProduct.pending` share one flag. */
    method GetPending()
      modifies this`loadingGet
      ensures loadingGet
    {
      loadingGet := true;
    }

    /** `getProducts.fulfilled`: the list from the payload, or empty when it has none. */
    method GetProductsFulfilled(products: Option<seq<ListedProduct>>)
      modifies this`loadingGet, this`allProducts
      ensures !loadingGet
      ensures allProducts == if products.Some? then products.value else []
    {
      loadingGet := false;
      allProducts := if products.Some? then products.value else [];
    }

    /** `getSingleProduct.fulfilled`. */
    method GetSingleFulfilled(product: Option<ListedProduct>)
      modifies this`loadingGet, this`singleProduct
      ensures !loadingGet && singleProduct == product
    {
      loadingGet := false;
      singleProduct := product;
    }

    /** A failed fetch only stops loading: the list on screen and any message are kept. */
    method GetRejected()
      modifies this`loadingGet
      ensures !loadingGet
    {
      loadingGet := false;
    }
  }

  /**
   * Creating a product and then failing to delete one reports both: the
   * messages of different operations never overwrite each other.
   */
  method CreateThenFailedDelete(store: ProductStore, created: Option<string>, failure: Option<string>)
    modifies store
    ensures store.StatusOf(Create).success == Some(OrDefault(created, "Product created successfully!"))
    ensures store.StatusOf(Delete).error == Some(OrDefault(failure, "Failed to delete product"))
    ensures store.StatusOf(Update) == old(store.StatusOf(Update))
  {
    store.OpPending(Create);
    store.OpFulfilled(Create, created);
    store.OpPending(Delete);
    store.OpRejected(Delete, failure);
  }
}

module TypeSlice {
  import opened Options
  import opened AsyncOp
  import opened ProductDraft

  datatype TypeRecord = TypeRecord(id: string, name: string, displayType: string, status: int)

  /** `typeNamesById` holds `payload.typeName || []`: an object carrying `names`, or the empty array. */
  datatype TypeNameGroup = NoGroup | Group(names: seq<TypeName>)

  /** `createType.rejected` and `createTypeName.rejected` store the payload itself, with no default. */
  function RejectedAsIs(s: Status, payload: Option<string>): (r: Status)
    ensures !r.loading && r.success == s.success && r.error == payload
  {
    Status(false, s.success, payload)
  }

  /** A rejection without a payload leaves no message at all, unlike the product slice's. */
  lemma SilentRejection(s: Status)
    ensures RejectedAsIs(Pending(s), None) == Idle
    ensures Rejected(Pending(s), None, "any").error.Some?
  {
  }

  /** The `typeCombined` slice: one loading flag and one pair of messages for all requests. */
  class TypeStore {
    var types: seq<TypeRecord>
    var singleType: Option<TypeRecord>
    var typeNames: seq<TypeName>
    var typeNamesById: TypeNameGroup
    var status: Status

    constructor ()
      ensures types == [] && singleType == None && typeNames == [] && typeNamesById == NoGroup
      ensures status == Idle
    {
      types, singleType, typeNames, typeNamesById := [], None, [], NoGroup;
      status := Idle;
    }

    /** `clearTypeMessage`. */
    method ClearTypeMessage()
      modifies this`status
      ensures status == Cleared(old(status))
    {
      status := Cleared(status);
    }

    /** `createType.pending` and `createTypeName.pending`. */
    method CreatePending()
      modifies this`status
      ensures status == Pending(old(status))
    {
      status := Pending(status);
    }

    /** `createType.fulfilled` ("Type created!") and `createTypeName.fulfilled` ("Type name created!"). */
    method CreateFulfilled(message: Option<string>, isTypeName: bool)
      modifies this`status
      ensures status == Fulfilled(old(status), message, if isTypeName then "Type name created!" else "Type created!")
    {
      status := Fulfilled(status, message, if isTypeName then "Type name created!" else "Type created!");
    }

    method CreateRejected(payload: Option<string>)
      modifies this`status
      ensures status == RejectedAsIs(old(status), payload)
    {
      status := RejectedAsIs(status, payload);
    }

    /** The pending case of every fetch: loading only, the messages stay. */
    method FetchPending()
      modifies this`status
      ensures status == old(status).(loading := true)
    {
      status := status.(loading := true);
    }

    method FetchRejected()
      modifies this`status
      ensures status == old(status).(loading := false)
    {
      status := status.(loading := false);
    }

    method GetTypesFulfilled(payload: Option<seq<TypeRecord>>)
      modifies this`status, this`types
      ensures status == old(status).(loading := false)
      ensures types == if payload.Some? then payload.value else []
    {
      status := status.(loading := false);
      types := if payload.Some? then payload.value else [];
    }

    method GetTypeByIdFulfilled(payload: Option<TypeRecord>)
      modifies this`status, this`singleType
      ensures status == old(status).(loading := false) && singleType == payload
    {
      status := status.(loading := false);
      singleType := payload;
    }

    method GetTypeNamesFulfilled(payload: Option<seq<TypeName>>)
      modifies this`status, this`typeNames
      ensures status == old(status).(loading := false)
      ensures typeNames == if payload.Some? then payload.value else []
    {
      status := status.(loading := false);
      typeNames := if payload.Some? then payload.value else [];
    }

    method GetTypeNamesByTypeIdFulfilled(payload: Option<seq<TypeName>>)
      modifies this`status, this`typeNamesById
      ensures status == old(status).(loading := false)
      ensures typeNamesById == if payload.Some? then Group(payload.value) else NoGroup
    {
      status := status.(loading := false);
      typeNamesById := if payload.Some? then Group(payload.value) else NoGroup;
    }
  }
}

module OrderSlice {
  import opened Options
  import opened AsyncOp

  datatype Item = Item(quantity: Option<int>)

  /** The order fields the orders page reads; each may be missing. */
  datatype Order = Order(
    id: Option<string>, orderId: Option<string>, fullName: Option<string>, email: Option<string>,
    items: Option<seq<Item>>)

  /** `allOrders`: normally a list, but the status update stores the response's `data` whatever it is. */
  datatype Orders = OrderList(list: seq<Order>) | Record(message: Option<string>)

  const FetchFailed := "Failed to fetch admin orders"

  /** The success message of a status update: `data.message`, else the fixed text. */
  function UpdateMessage(data: Option<Orders>): (r: string)
    ensures data.Some? && data.value.Record? && Truthy(data.value.message) ==> r == data.value.message.value
    ensures !(data.Some? && data.value.Record? && Truthy(data.value.message)) ==> r == "Orders fetched successfully!"
  {
    if data.Some? && data.value.Record? then OrDefault(data.value.message, "Orders fetched successfully!")
    else "Orders fetched successfully!"
  }

  /** The `adminOrders` slice. */
  class OrderStore {
    var allOrders: Orders
    var loadingGet: bool
    var error: Option<string>
    var successMessage: Option<string>

    constructor ()
      ensures allOrders == OrderList([]) && !loadingGet && error == None && successMessage == None
    {
      allOrders, loadingGet, error, successMessage := OrderList([]), false, None, None;
    }

    method ClearAdminOrderError()
      modifies this`error
      ensures error == None
    {
      error := None;
    }

    method ClearAdminOrderMessage()
      modifies this`successMessage
      ensures successMessage == None
    {
      successMessage := None;
    }

    /** Both requests' pending case: loading, and both messages cleared. */
    method Pending()
      modifies this`loadingGet, this`error, this`successMessage
      ensures loadingGet && error == None && successMessage == None
    {
      loadingGet, error, successMessage := true, None, None;
    }

    /** `getAdminOrders.fulfilled`: the list from `data`, else empty. */
    method GetFulfilled(data: Option<seq<Order>>)
      modifies this`loadingGet, this`allOrders
      ensures !loadingGet
      ensures allOrders == OrderList(if data.Some? then data.value else [])
    {
      loadingGet := false;
      allOrders := OrderList(if data.Some? then data.value else []);
    }

    /** `updateOrdersStatus.fulfilled`: the orders are replaced by the response's `data`. */
    method UpdateFulfilled(data: Option<Orders>)
      modifies this`loadingGet, this`allOrders, this`successMessage
      ensures !loadingGet
      ensures allOrders == if data.Some? then data.value else OrderList([])
      ensures successMessage == Some(UpdateMessage(data))
    {
      loadingGet := false;
      allOrders := if data.Some? then data.value else OrderList([]);
      successMessage := Some(UpdateMessage(data));
    }

    /** Both requests' rejected case. */
    method Rejected(payload: Option<string>)
      modifies this`loadingGet, this`error
      ensures !loadingGet && error == Some(OrDefault(payload, FetchFailed))
    {
      loadingGet := false;
      error := Some(OrDefault(payload, FetchFailed));
    }
  }

}

module ReportSlice {
  import opened Options

  /** The values a report filter payload holds. */
  datatype JsValue = Undefined | Null | Text(s: string) | Bool(b: bool)

  /** `String(value)` for the values that reach `params.append`. */
  function Stringify(v: JsValue): string {
    match v
    case Text(s) => s
    case Bool(b) => if b then "true" else "false"
    case Undefined => "undefined"
    case Null => "null"
  }

  /** The values the loop appends: anything but undefined, null and the empty string. */
  predicate Appended(v: JsValue) {
    !v.Undefined? && !v.Null? && v != Text("")
  }

  predicate JsTruthy(v: JsValue) {
    (v.Text? && v.s != "") || (v.Bool? && v.b)
  }

  /** The query parameters the entry loop builds, in entry order. */
  function EntryParams(entries: seq<(string, JsValue)>): (r: seq<(string, string)>)
    ensures |r| <= |entries|
  {
    if entries == [] then []
    else
      var last := entries[|entries| - 1];
      EntryParams(entries[..|entries| - 1]) + (if Appended(last.1) then [(last.0, Stringify(last.1))] else [])
  }

  /** `payload.last30` (object keys are distinct, so the first entry with the key is the value). */
  function Lookup(entries: seq<(string, JsValue)>, key: string): JsValue {
    if entries == [] then Undefined
    else if entries[0].0 == key then entries[0].1
    else Lookup(entries[1..], key)
  }

  /** The whole query: the entries, then `last30=true` once more when the payload's `last30` is truthy. */
  function ReportParams(entries: seq<(string, JsValue)>): seq<(string, string)> {
    EntryParams(entries) + (if JsTruthy(Lookup(entries, "last30")) then [("last30", "true")] else [])
  }

  /** `fetchReport`'s parameter loop. */
  method BuildParams(entries: seq<(string, JsValue)>) returns (params: seq<(string, string)>)
    ensures params == ReportParams(entries)
  {
    params := [];
    var i := 0;
    while i < |entries|
      invariant 0 <= i <= |entries|
      invariant params == EntryParams(entries[..i])
    {
      var (key, value) := entries[i];
      assert entries[..i + 1][..i] == entries[..i];
      if value != Undefined && value != Null && value != Text("") {
        params := params + [(key, Stringify(value))];
      }
      i := i + 1;
    }
    assert entries[..i] == entries;
    if JsTruthy(Lookup(entries, "last30")) {
      params := params + [("last30", "true")];
    }
  }

  /** Every parameter comes from an entry whose value is appended, under that entry's key. */
  lemma {:induction false} EntryParamsSound(entries: seq<(string, JsValue)>, p: (string, string))
    requires p in EntryParams(entries)
    ensures exists e :: e in entries && Appended(e.1) && p == (e.0, Stringify(e.1))
  {
    if entries != [] {
      var last := entries[|entries| - 1];
      if p in EntryParams(entries[..|entries| - 1]) {
        EntryParamsSound(entries[..|entries| - 1], p);
        var e :| e in entries[..|entries| - 1] && Appended(e.1) && p == (e.0, Stringify(e.1));
        assert e in entries;
      } else {
        assert last in entries;
      }
    }
  }

  /** Every appended entry is in the query. */
  lemma {:induction false} EntryParamsComplete(entries: seq<(string, JsValue)>, k: int)
    requires 0 <= k < |entries| && Appended(entries[k].1)
    ensures (entries[k].0, Stringify(entries[k].1)) in EntryParams(entries)
  {
    if k < |entries| - 1 {
      EntryParamsComplete(entries[..|entries| - 1], k);
    }
  }

  function CountKey(params: seq<(string, string)>, key: string): nat {
    if params == [] then 0
    else CountKey(params[..|params| - 1], key) + (if params[|params| - 1].0 == key then 1 else 0)
  }

  lemma {:induction false} CountKeyConcat(a: seq<(string, string)>, b: seq<(string, string)>, key: string)
    ensures CountKey(a + b, key) == CountKey(a, key) + CountKey(b, key)
    decreases |b|
  {
    if b == [] {
      assert a + b == a;
    } else {
      assert (a + b)[..|a + b| - 1] == a + b[..|b| - 1];
      CountKeyConcat(a, b[..|b| - 1], key);
    }
  }

  /** The entries other than `key` add nothing under `key`. */
  lemma {:induction false} EntryParamsKeyAbsent(entries: seq<(string, JsValue)>, key: string)
    requires forall e :: e in entries ==> e.0 != key
    ensures CountKey(EntryParams(entries), key) == 0
  {
    if entries != [] {
      var init := entries[..|entries| - 1];
      var last := entries[|entries| - 1];
      assert last in entries;
      assert forall e :: e in init ==> e in entries;
      EntryParamsKeyAbsent(init, key);
      CountKeyConcat(EntryParams(init), if Appended(last.1) then [(last.0, Stringify(last.1))] else [], key);
      assert CountKey([], key) == 0;
      if Appended(last.1) {
        assert [(last.0, Stringify(last.1))][..0] == [];
      }
    }
  }

  /** Ticking "last 30 days" sends the parameter twice. */
  lemma Last30SentTwice(others: seq<(string, JsValue)>)
    requires forall e :: e in others ==> e.0 != "last30"
    ensures CountKey(ReportParams([("last30", Bool(true))] + others), "last30") == 2
  {
    var entries := [("last30", Bool(true))] + others;
    assert Lookup(entries, "last30") == Bool(true);
    var head := [("last30", Bool(true))];
    EntryParamsConcat(head, others);
    EntryParamsKeyAbsent(others, "last30");
    assert EntryParams(head) == [("last30", "true")] by {
      assert head[..0] == [];
    }
    CountKeyConcat(EntryParams(head), EntryParams(others), "last30");
    CountKeyConcat(EntryParams(entries), [("last30", "true")], "last30");
    assert [("last30", "true")][..0] == [];
  }

  lemma {:induction false} EntryParamsConcat(a: seq<(string, JsValue)>, b: seq<(string, JsValue)>)
    ensures EntryParams(a + b) == EntryParams(a) + EntryParams(b)
    decreases |b|
  {
    if b == [] {
      assert a + b == a;
    } else {
      assert (a + b)[..|a + b| - 1] == a + b[..|b| - 1];
      EntryParamsConcat(a, b[..|b| - 1]);
    }
  }

  /** The `report` slice. */
  class ReportStore {
    var reportData: Option<string>
    var loading: bool
    var error: Option<string>

    constructor ()
      ensures reportData == None && !loading && error == None
    {
      reportData, loading, error := None, false, None;
    }

    method ClearReportError()
      modifies this`error
      ensures error == None
    {
      error := None;
    }

    /** Unlike the other slices, a new request does not clear the previous error. */
    method FetchPending()
      modifies this`loading
      ensures loading
    {
      loading := true;
    }

    method FetchFulfilled(data: Option<string>)
      modifies this`loading, this`reportData
      ensures !loading && reportData == data
    {
      loading := false;
      reportData := data;
    }

    method FetchRejected(payload: Option<string>)
      modifies this`loading, this`error
      ensures !loading
      ensures error == Some(if payload.Some? && payload.value != "" then payload.value else "Failed to load report")
    {
      loading := false;
      error := Some(if payload.Some? && payload.value != "" then payload.value else "Failed to load report");
    }
  }

  /** A failure followed by a success still shows the failure's error next to the new data. */
  method StaleErrorSurvives(store: ReportStore, failure: Option<string>, data: Option<string>)
    modifies store
    ensures store.error.Some? && store.reportData == data && !store.loading
  {
    store.FetchPending();
    store.FetchRejected(failure);
    store.FetchPending();
    store.FetchFulfilled(data);
  }
}
