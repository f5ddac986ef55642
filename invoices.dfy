/**
 * The Invoice collection and the two invoice routes, POST /api/invoices and
 * POST /api/invoices/next-number: which requests are turned away before any
 * counter is touched, how a save failure maps to a reply, and the theorem
 * that, run one request at a time, the duplicate-number branch is never
 * reached.
 */
module Invoices {
  import opened Wrappers
  import opened JsStrings
  import opened InvoiceFormat
  import opened InvoiceCounters

  /** Prices, quantities and totals: JavaScript numbers stored as given and never computed on. */
  type Amount = real

  /**
   * A product line's quantity in the request body: left out (undefined),
   * sent as null, or a number. Mongoose treats the first two differently.
   */
  datatype QuantityInput = QuantityUndefined | QuantityNull | Quantity(amount: Amount)

  /** A product line as it arrives in the request body. */
  datatype ProductInput = ProductInput(name: Option<string>, price: Option<Amount>, quantity: QuantityInput)

  /** A product line as stored; a quantity of None is a null the schema then refuses. */
  datatype Product = Product(name: Option<string>, price: Option<Amount>, quantity: Option<Amount>)

  /**
   * The body of POST /api/invoices. `generatedDate` is the timestamp
   * `new Date(generatedDate)` denotes, or None when that is an invalid date.
   */
  datatype InvoiceRequest = InvoiceRequest(
    queryId: Option<string>,
    customerName: Option<string>,
    customerAddress: Option<string>,
    companyName: Option<string>,
    products: Option<seq<ProductInput>>,
    warrantyStatus: Option<string>,
    generatedDate: Option<Instant>,
    subtotal: Option<Amount>,
    taxAmount: Option<Amount>,
    total: Option<Amount>)

  /** An Invoice document. */
  datatype Invoice = Invoice(
    invoiceNumber: string,
    queryId: string,
    customerName: string,
    customerAddress: string,
    companyName: string,
    products: seq<Product>,
    warrantyStatus: string,
    subtotal: Option<Amount>,
    taxAmount: Option<Amount>,
    total: Option<Amount>,
    generatedDate: Option<Instant>,
    createdAt: Instant)

  /** The part of a created invoice the reply shows. */
  datatype InvoiceView = InvoiceView(
    id: nat,
    invoiceNumber: string,
    queryId: string,
    customerName: string,
    companyName: string,
    warrantyStatus: string,
    total: Option<Amount>,
    createdAt: Instant)

  datatype InvoiceReply =
    | InvoiceCreated(invoice: InvoiceView)
    | MissingInvoiceFields
    | InvoiceAlreadyExists
    | InvoiceServerError
  {
    function Status(): nat
    {
      match this
      case InvoiceCreated(_) => 201
      case MissingInvoiceFields => 400
      case InvoiceAlreadyExists => 400
      case InvoiceServerError => 500
    }
  }

  /**
   * The route's own check: every string field truthy; `products` only has
   * to be there, so an empty list passes.
   */
  predicate HasRequiredInvoiceFields(req: InvoiceRequest)
  {
    && Truthy(req.queryId)
    && Truthy(req.customerName)
    && Truthy(req.customerAddress)
    && Truthy(req.companyName)
    && req.products.Some?
    && Truthy(req.warrantyStatus)
  }

  /**
   * The schema default `quantity: 1` fills in an undefined quantity only;
   * an explicit null is kept and later fails `required`.
   */
  function StoredProduct(p: ProductInput): (r: Product)
    ensures r.name == p.name && r.price == p.price
    ensures r.quantity.None? <==> p.quantity == QuantityNull
    ensures p.quantity == QuantityUndefined ==> r.quantity == Some(1.0)
    ensures p.quantity.Quantity? ==> r.quantity == Some(p.quantity.amount)
  {
    match p.quantity
    case QuantityUndefined => Product(p.name, p.price, Some(1.0))
    case QuantityNull => Product(p.name, p.price, None)
    case Quantity(q) => Product(p.name, p.price, Some(q))
  }

  /** The product lines as stored, in request order. */
  function StoredProducts(ps: seq<ProductInput>): (r: seq<Product>)
    ensures |r| == |ps|
    ensures forall i :: 0 <= i < |ps| ==> r[i] == StoredProduct(ps[i])
    decreases |ps|
  {
    if ps == [] then [] else StoredProducts(ps[..|ps| - 1]) + [StoredProduct(ps[|ps| - 1])]
  }

  /** The document `new Invoice({...})` builds from the request and the allocated number. */
  function BuildInvoice(req: InvoiceRequest, invoiceNumber: string, now: Instant): (inv: Invoice)
    requires HasRequiredInvoiceFields(req)
    ensures inv.invoiceNumber == invoiceNumber && inv.createdAt == now
    ensures inv.companyName == req.companyName.value && inv.warrantyStatus == req.warrantyStatus.value
    ensures inv.queryId == req.queryId.value && inv.customerName == req.customerName.value
    ensures inv.customerAddress == req.customerAddress.value
    ensures inv.products == StoredProducts(req.products.value)
    ensures inv.subtotal == req.subtotal && inv.taxAmount == req.taxAmount && inv.total == req.total
    ensures inv.generatedDate == req.generatedDate
  {
    Invoice(invoiceNumber, req.queryId.value, req.customerName.value, req.customerAddress.value,
            req.companyName.value, StoredProducts(req.products.value),
            req.warrantyStatus.value, req.subtotal, req.taxAmount, req.total, req.generatedDate, now)
  }

  function ViewOf(inv: Invoice, id: nat): InvoiceView
  {
    InvoiceView(id, inv.invoiceNumber, inv.queryId, inv.customerName, inv.companyName,
                inv.warrantyStatus, inv.total, inv.createdAt)
  }

  /**
   * What the invoice schema's validators accept: required strings are
   * non-empty, every product has a name, a price and a quantity, the warranty status is
   * one of the enum values, the totals are present and the generated date is
   * a valid date.
   */
  predicate SchemaAccepts(inv: Invoice)
  {
    && inv.invoiceNumber != "" && inv.queryId != "" && inv.customerName != ""
    && inv.customerAddress != "" && inv.companyName != ""
    && (forall i :: 0 <= i < |inv.products| ==>
          Truthy(inv.products[i].name) && inv.products[i].price.Some? && inv.products[i].quantity.Some?)
    && IsWarrantyStatus(inv.warrantyStatus)
    && inv.subtotal.Some? && inv.taxAmount.Some? && inv.total.Some?
    && inv.generatedDate.Some?
  }

  predicate NumberTaken(invoices: seq<Invoice>, invoiceNumber: string)
  {
    exists i :: 0 <= i < |invoices| && invoices[i].invoiceNumber == invoiceNumber
  }

  /** How one `invoice.save()` ends. */
  datatype SaveOutcome = Saved(id: nat) | ValidationFailed | SaveFailed | DuplicateKey

  /**
   * `invoice.save()`: schema validation first, then the write, which the
   * unique index on invoiceNumber refuses with error code 11000 when the
   * number is already stored. The new document's id is its position.
   */
  function SaveInvoice(invoices: seq<Invoice>, inv: Invoice, storageFails: bool): (outcome: SaveOutcome)
    ensures outcome.Saved? <==> SchemaAccepts(inv) && !storageFails && !NumberTaken(invoices, inv.invoiceNumber)
    ensures outcome == DuplicateKey <==> SchemaAccepts(inv) && !storageFails && NumberTaken(invoices, inv.invoiceNumber)
    ensures outcome.Saved? ==> outcome.id == |invoices|
  {
    if !SchemaAccepts(inv) then ValidationFailed
    else if storageFails then SaveFailed
    else if NumberTaken(invoices, inv.invoiceNumber) then DuplicateKey
    else Saved(|invoices|)
  }

  /** The Invoice collection. */
  class InvoiceStore {
    var invoices: seq<Invoice>

    constructor ()
      ensures invoices == []
    {
      invoices := [];
    }

    method Save(inv: Invoice, storageFails: bool) returns (outcome: SaveOutcome)
      modifies this
      ensures outcome == SaveInvoice(old(invoices), inv, storageFails)
      ensures invoices == if outcome.Saved? then old(invoices) + [inv] else old(invoices)
    {
      outcome := SaveInvoice(invoices, inv, storageFails);
      if outcome.Saved? {
        invoices := invoices + [inv];
      }
    }
  }

  /** The state after one POST /api/invoices, and its reply. */
  datatype CreateInvoiceStep = CreateInvoiceStep(counters: map<CounterKey, nat>, invoices: seq<Invoice>, reply: InvoiceReply)

  /**
   * POST /api/invoices: validate, allocate a number (the counter moves even
   * if the save then fails), build and save the invoice; a duplicate number
   * is a 400 of its own, every other failure a 500.
   */
  function CreateInvoice(counters: map<CounterKey, nat>, invoices: seq<Invoice>, req: InvoiceRequest,
                         day: nat, monthIndex: nat, year: int, now: Instant,
                         counterFails: bool, saveFails: bool): (step: CreateInvoiceStep)
    ensures step.reply == MissingInvoiceFields <==> !HasRequiredInvoiceFields(req)
    ensures HasRequiredInvoiceFields(req) && counterFails
            ==> step == CreateInvoiceStep(counters, invoices, InvoiceServerError)
    ensures HasRequiredInvoiceFields(req) && !counterFails
            ==> var key := TodayKey(req.companyName.value, req.warrantyStatus.value, day, monthIndex, year);
                var number := InvoiceNumber(key.companyName, key.date, Current(counters, key) + 1, key.warrantyStatus);
                step == RecordInvoice(Allocate(counters, key), invoices, BuildInvoice(req, number, now), saveFails)
    ensures step.reply.InvoiceCreated? <==> step.invoices != invoices
  {
    if !HasRequiredInvoiceFields(req) then
      CreateInvoiceStep(counters, invoices, MissingInvoiceFields)
    else if counterFails then
      CreateInvoiceStep(counters, invoices, InvoiceServerError)
    else
      var key := TodayKey(req.companyName.value, req.warrantyStatus.value, day, monthIndex, year);
      var after := Allocate(counters, key);
      var inv := BuildInvoice(req, InvoiceNumber(key.companyName, key.date, after[key], key.warrantyStatus), now);
      RecordInvoice(after, invoices, inv, saveFails)
  }

  /** A request turned away with 400 before allocation changes neither collection. */
  lemma RejectedInvoiceChangesNothing(counters: map<CounterKey, nat>, invoices: seq<Invoice>, req: InvoiceRequest,
                                      day: nat, monthIndex: nat, year: int, now: Instant,
                                      counterFails: bool, saveFails: bool)
    ensures var step := CreateInvoice(counters, invoices, req, day, monthIndex, year, now, counterFails, saveFails);
      step.reply.Status() == 400 && step.reply != InvoiceAlreadyExists
      ==> step.counters == counters && step.invoices == invoices
  {
  }

  /**
   * Once the request passes validation and the allocation succeeds, the
   * counter has moved on whatever the save then does: a failed or refused
   * save does not give the number back.
   */
  lemma CounterAdvancesBeforeSave(counters: map<CounterKey, nat>, invoices: seq<Invoice>, req: InvoiceRequest,
                                  day: nat, monthIndex: nat, year: int, now: Instant, saveFails: bool)
    requires HasRequiredInvoiceFields(req)
    ensures var step := CreateInvoice(counters, invoices, req, day, monthIndex, year, now, false, saveFails);
      step.counters == Allocate(counters, TodayKey(req.companyName.value, req.warrantyStatus.value, day, monthIndex, year))
      && (step.reply.InvoiceCreated? || step.invoices == invoices)
  {
  }

  /**
   * A created invoice is appended as the last document, passes the schema,
   * carries the allocated number, and the reply shows it.
   */
  lemma CreatedInvoiceIsAppended(counters: map<CounterKey, nat>, invoices: seq<Invoice>, req: InvoiceRequest,
                                 day: nat, monthIndex: nat, year: int, now: Instant,
                                 counterFails: bool, saveFails: bool)
    ensures var step := CreateInvoice(counters, invoices, req, day, monthIndex, year, now, counterFails, saveFails);
      step.reply.InvoiceCreated? ==>
        && HasRequiredInvoiceFields(req)
        && var key := TodayKey(req.companyName.value, req.warrantyStatus.value, day, monthIndex, year);
        && |step.invoices| == |invoices| + 1 && step.invoices[..|invoices|] == invoices
        && SchemaAccepts(step.invoices[|invoices|])
        && step.reply.invoice == ViewOf(step.invoices[|invoices|], |invoices|)
        && step.reply.invoice.invoiceNumber
           == InvoiceNumber(key.companyName, key.date, Current(counters, key) + 1, key.warrantyStatus)
  {
    var step := CreateInvoice(counters, invoices, req, day, monthIndex, year, now, counterFails, saveFails);
    if step.reply.InvoiceCreated? {
      var key := TodayKey(req.companyName.value, req.warrantyStatus.value, day, monthIndex, year);
      var inv := BuildInvoice(req, InvoiceNumber(key.companyName, key.date, Current(counters, key) + 1, key.warrantyStatus), now);
      assert step.invoices == invoices + [inv];
      assert step.invoices[..|invoices|] == invoices;
    }
  }

  /**
   * When the allocated number is already stored (as after a lost update
   * between two concurrent requests), the unique index refuses the save:
   * the reply is the 400 "already exists", nothing is written, and the
   * counter has still moved on.
   */
  lemma DuplicateNumberIsRefused(counters: map<CounterKey, nat>, invoices: seq<Invoice>, req: InvoiceRequest,
                                 day: nat, monthIndex: nat, year: int, now: Instant, inv: Invoice)
    requires HasRequiredInvoiceFields(req)
    requires inv == BuildInvoice(req, InvoiceNumber(req.companyName.value,
                                                    FormatDateToDDMMYYYY(day, monthIndex, year),
                                                    Current(counters, TodayKey(req.companyName.value, req.warrantyStatus.value, day, monthIndex, year)) + 1,
                                                    req.warrantyStatus.value), now)
    requires SchemaAccepts(inv) && NumberTaken(invoices, inv.invoiceNumber)
    ensures var step := CreateInvoice(counters, invoices, req, day, monthIndex, year, now, false, false);
      && step.reply == InvoiceAlreadyExists && step.reply.Status() == 400
      && step.invoices == invoices
      && step.counters == Allocate(counters, TodayKey(req.companyName.value, req.warrantyStatus.value, day, monthIndex, year))
  {
    var key := TodayKey(req.companyName.value, req.warrantyStatus.value, day, monthIndex, year);
    assert Allocate(counters, key)[key] == Current(counters, key) + 1;
    assert SaveInvoice(invoices, inv, false) == DuplicateKey;
  }

  /**
   * A product line whose quantity is an explicit null fails the schema's
   * `required` after the counter has moved on: the reply is the 500 and no
   * invoice is written.
   */
  lemma NullQuantityIsServerError(counters: map<CounterKey, nat>, invoices: seq<Invoice>, req: InvoiceRequest,
                                  day: nat, monthIndex: nat, year: int, now: Instant, saveFails: bool, i: nat)
    requires HasRequiredInvoiceFields(req)
    requires i < |req.products.value| && req.products.value[i].quantity == QuantityNull
    ensures var step := CreateInvoice(counters, invoices, req, day, monthIndex, year, now, false, saveFails);
      && step.reply == InvoiceServerError && step.reply.Status() == 500
      && step.invoices == invoices
      && step.counters == Allocate(counters, TodayKey(req.companyName.value, req.warrantyStatus.value, day, monthIndex, year))
  {
    var key := TodayKey(req.companyName.value, req.warrantyStatus.value, day, monthIndex, year);
    var inv := BuildInvoice(req, InvoiceNumber(key.companyName, key.date, Allocate(counters, key)[key], key.warrantyStatus), now);
    assert inv.products[i].quantity.None?;
    assert SaveInvoice(invoices, inv, saveFails) == ValidationFailed;
  }

  /**
   * The route asks of `products` only that it be there: an empty list
   * passes the check, an absent one does not.
   */
  lemma EmptyProductListPasses(req: InvoiceRequest)
    requires Truthy(req.queryId) && Truthy(req.customerName) && Truthy(req.customerAddress)
    requires Truthy(req.companyName) && Truthy(req.warrantyStatus)
    ensures HasRequiredInvoiceFields(req.(products := Some([])))
    ensures !HasRequiredInvoiceFields(req.(products := None))
  {
  }

  /** The save at the end of POST /api/invoices and the reply it leads to. */
  function RecordInvoice(counters: map<CounterKey, nat>, invoices: seq<Invoice>, inv: Invoice, saveFails: bool)
    : (step: CreateInvoiceStep)
    ensures step.counters == counters
    ensures step.reply.InvoiceCreated? <==> step.invoices != invoices
    ensures step.reply.InvoiceCreated? ==>
              (step.invoices == invoices + [inv] && SchemaAccepts(inv)
               && step.reply.invoice == ViewOf(inv, |invoices|))
    ensures step.reply == InvoiceAlreadyExists <==> SaveInvoice(invoices, inv, saveFails) == DuplicateKey
    ensures step.reply == InvoiceServerError <==>
              (SaveInvoice(invoices, inv, saveFails).ValidationFailed? || SaveInvoice(invoices, inv, saveFails).SaveFailed?)
    ensures step.reply != MissingInvoiceFields
  {
    match SaveInvoice(invoices, inv, saveFails)
    case Saved(id) =>
      assert |invoices + [inv]| != |invoices|;
      CreateInvoiceStep(counters, invoices + [inv], InvoiceCreated(ViewOf(inv, id)))
    case DuplicateKey => CreateInvoiceStep(counters, invoices, InvoiceAlreadyExists)
    case _ => CreateInvoiceStep(counters, invoices, InvoiceServerError)
  }

  datatype NextNumberRequest = NextNumberRequest(companyName: Option<string>, warrantyStatus: Option<string>)

  datatype NextNumberReply =
    | NextNumber(invoiceNumber: string)
    | MissingNextNumberFields
    | NextNumberServerError
  {
    function Status(): nat
    {
      match this
      case NextNumber(_) => 200
      case MissingNextNumberFields => 400
      case NextNumberServerError => 500
    }
  }

  datatype NextNumberStep = NextNumberStep(counters: map<CounterKey, nat>, reply: NextNumberReply)

  /**
   * POST /api/invoices/next-number: both fields must be truthy (any
   * warranty status string is accepted), and a number it shows is a number
   * it has used up.
   */
  function IssueNextNumber(counters: map<CounterKey, nat>, req: NextNumberRequest,
                           day: nat, monthIndex: nat, year: int, storageFails: bool): (step: NextNumberStep)
    ensures step.reply == MissingNextNumberFields <==> !(Truthy(req.companyName) && Truthy(req.warrantyStatus))
    ensures Truthy(req.companyName) && Truthy(req.warrantyStatus) && storageFails
            ==> step == NextNumberStep(counters, NextNumberServerError)
    ensures step.reply.NextNumber? <==> step.counters != counters
    ensures step.reply.NextNumber? ==>
              var key := TodayKey(req.companyName.value, req.warrantyStatus.value, day, monthIndex, year);
              step.counters == Allocate(counters, key)
              && step.reply.invoiceNumber == InvoiceNumber(key.companyName, key.date, Current(counters, key) + 1, key.warrantyStatus)
  {
    if !(Truthy(req.companyName) && Truthy(req.warrantyStatus)) then
      NextNumberStep(counters, MissingNextNumberFields)
    else if storageFails then
      NextNumberStep(counters, NextNumberServerError)
    else
      IssueFor(counters, TodayKey(req.companyName.value, req.warrantyStatus.value, day, monthIndex, year))
  }

  /** A successful allocation for `key` and the number it shows. */
  function IssueFor(counters: map<CounterKey, nat>, key: CounterKey): (step: NextNumberStep)
    ensures step.counters == Allocate(counters, key) && step.counters != counters
    ensures step.reply == NextNumber(InvoiceNumber(key.companyName, key.date, Current(counters, key) + 1, key.warrantyStatus))
  {
    var after := Allocate(counters, key);
    assert after != counters by {
      assert Current(after, key) != Current(counters, key);
    }
    NextNumberStep(after, NextNumber(InvoiceNumber(key.companyName, key.date, after[key], key.warrantyStatus)))
  }

  /** POST /api/invoices/next-number over the counter collection. */
  method NextNumberRoute(counterStore: CounterStore, req: NextNumberRequest,
                         day: nat, monthIndex: nat, year: int, storageFails: bool)
    returns (reply: NextNumberReply)
    modifies counterStore
    ensures var step := IssueNextNumber(old(counterStore.counters), req, day, monthIndex, year, storageFails);
      counterStore.counters == step.counters && reply == step.reply
  {
    if !Truthy(req.companyName) || !Truthy(req.warrantyStatus) {
      return MissingNextNumberFields;
    }
    var allocation := counterStore.NextInvoiceNumber(req.companyName.value, req.warrantyStatus.value,
                                                     day, monthIndex, year, storageFails);
    match allocation
    case Allocated(invoiceNumber) => reply := NextNumber(invoiceNumber);
    case AllocationFailed => reply := NextNumberServerError;
  }

  /** POST /api/invoices over the counter and invoice collections. */
  method CreateInvoiceRoute(counterStore: CounterStore, invoiceStore: InvoiceStore, req: InvoiceRequest,
                            day: nat, monthIndex: nat, year: int, now: Instant,
                            counterFails: bool, saveFails: bool)
    returns (reply: InvoiceReply)
    modifies counterStore, invoiceStore
    ensures var step := CreateInvoice(old(counterStore.counters), old(invoiceStore.invoices), req,
                                      day, monthIndex, year, now, counterFails, saveFails);
      counterStore.counters == step.counters && invoiceStore.invoices == step.invoices && reply == step.reply
  {
    if !HasRequiredInvoiceFields(req) {
      return MissingInvoiceFields;
    }
    var allocation := counterStore.NextInvoiceNumber(req.companyName.value, req.warrantyStatus.value,
                                                     day, monthIndex, year, counterFails);
    if allocation.AllocationFailed? {
      return InvoiceServerError;
    }
    var invoice := BuildInvoice(req, allocation.invoiceNumber, now);
    var outcome := invoiceStore.Save(invoice, saveFails);
    match outcome
    case Saved(id) => reply := InvoiceCreated(ViewOf(invoice, id));
    case DuplicateKey => reply := InvoiceAlreadyExists;
    case ValidationFailed => reply := InvoiceServerError;
    case SaveFailed => reply := InvoiceServerError;
  }

  // ---------------------------------------------------------------------
  // Sequential uniqueness of invoice numbers
  // ---------------------------------------------------------------------

  /**
   * A stored invoice's number reads back as a counter already handed out
   * for the invoice's own company, date and warranty status.
   */
  predicate IssuedFrom(counters: map<CounterKey, nat>, inv: Invoice)
  {
    && IsWarrantyStatus(inv.warrantyStatus)
    && match ParseInvoiceNumber(inv.invoiceNumber)
       case None => false
       case Some(p) =>
         && p.suffix == WarrantySuffix(inv.warrantyStatus)
         && 1 <= p.counter <= Current(counters, CounterKey(p.companyName, p.date, inv.warrantyStatus))
  }

  /** Every stored invoice is accounted for by the counter table. */
  predicate AllIssued(counters: map<CounterKey, nat>, invoices: seq<Invoice>)
  {
    forall i :: 0 <= i < |invoices| ==> IssuedFrom(counters, invoices[i])
  }

  predicate NoCounterDecreased(before: map<CounterKey, nat>, after: map<CounterKey, nat>)
  {
    forall k :: k in before ==> k in after && before[k] <= after[k]
  }

  lemma AllIssuedMonotone(before: map<CounterKey, nat>, after: map<CounterKey, nat>, invoices: seq<Invoice>)
    requires AllIssued(before, invoices) && NoCounterDecreased(before, after)
    ensures AllIssued(after, invoices)
  {
    forall i | 0 <= i < |invoices| ensures IssuedFrom(after, invoices[i]) {
      assert IssuedFrom(before, invoices[i]);
    }
  }

  lemma AllIssuedAppend(counters: map<CounterKey, nat>, invoices: seq<Invoice>, inv: Invoice)
    requires AllIssued(counters, invoices) && IssuedFrom(counters, inv)
    ensures AllIssued(counters, invoices + [inv])
  {
    forall i | 0 <= i < |invoices| + 1 ensures IssuedFrom(counters, (invoices + [inv])[i]) {
      if i < |invoices| {
        assert (invoices + [inv])[i] == invoices[i];
      }
    }
  }

  /** The two warranty statuses are told apart by their suffixes. */
  lemma SuffixSeparatesStatuses(s1: string, s2: string)
    requires IsWarrantyStatus(s1) && IsWarrantyStatus(s2) && WarrantySuffix(s1) == WarrantySuffix(s2)
    ensures s1 == s2
  {
    assert "bw" != "aw" by { assert "bw"[0] != "aw"[0]; }
  }

  /**
   * The number allocated for `key` is not the number of any stored invoice
   * when the table accounts for every stored invoice.
   */
  lemma FreshNumberNotTaken(counters: map<CounterKey, nat>, invoices: seq<Invoice>, key: CounterKey)
    requires AllIssued(counters, invoices)
    requires '/' !in key.date && IsWarrantyStatus(key.warrantyStatus)
    ensures !NumberTaken(invoices, InvoiceNumber(key.companyName, key.date, Current(counters, key) + 1, key.warrantyStatus))
  {
    var n := Current(counters, key) + 1;
    var number := InvoiceNumber(key.companyName, key.date, n, key.warrantyStatus);
    InvoiceNumberRoundTrip(key.companyName, key.date, n, key.warrantyStatus);
    forall i | 0 <= i < |invoices| ensures invoices[i].invoiceNumber != number {
      var inv := invoices[i];
      assert IssuedFrom(counters, inv);
      if inv.invoiceNumber == number {
        SuffixSeparatesStatuses(inv.warrantyStatus, key.warrantyStatus);
        assert false;
      }
    }
  }

  /**
   * Run one request at a time, POST /api/invoices never answers "already
   * exists", and the table keeps accounting for every stored invoice.
   */
  lemma CreateInvoiceNeverDuplicates(counters: map<CounterKey, nat>, invoices: seq<Invoice>, req: InvoiceRequest,
                                     day: nat, monthIndex: nat, year: int, now: Instant,
                                     counterFails: bool, saveFails: bool)
    requires AllIssued(counters, invoices)
    ensures var step := CreateInvoice(counters, invoices, req, day, monthIndex, year, now, counterFails, saveFails);
      step.reply != InvoiceAlreadyExists && AllIssued(step.counters, step.invoices)
  {
    if HasRequiredInvoiceFields(req) && !counterFails {
      var key := TodayKey(req.companyName.value, req.warrantyStatus.value, day, monthIndex, year);
      var after := Allocate(counters, key);
      var number := InvoiceNumber(key.companyName, key.date, after[key], key.warrantyStatus);
      var inv := BuildInvoice(req, number, now);
      AllIssuedMonotone(counters, after, invoices);
      if SchemaAccepts(inv) {
        assert IsWarrantyStatus(key.warrantyStatus) by {
          assert inv.warrantyStatus == key.warrantyStatus;
        }
        assert after[key] == Current(counters, key) + 1;
        assert !NumberTaken(invoices, number) by {
          FreshNumberNotTaken(counters, invoices, key);
        }
        assert IssuedFrom(after, inv) by {
          InvoiceNumberRoundTrip(key.companyName, key.date, after[key], key.warrantyStatus);
        }
        AllIssuedAppend(after, invoices, inv);
        assert SaveInvoice(invoices, inv, saveFails) != DuplicateKey;
      } else {
        assert SaveInvoice(invoices, inv, saveFails) == ValidationFailed;
      }
    }
  }

  /**
   * Run one request at a time, a request that passes the route's check and
   * whose document passes the schema is created when storage works: the
   * 201, the invoice appended, and the number for the key's counter + 1.
   */
  lemma ValidInvoiceIsCreated(counters: map<CounterKey, nat>, invoices: seq<Invoice>, req: InvoiceRequest,
                              day: nat, monthIndex: nat, year: int, now: Instant)
    requires HasRequiredInvoiceFields(req)
    requires AllIssued(counters, invoices)
    requires var key := TodayKey(req.companyName.value, req.warrantyStatus.value, day, monthIndex, year);
      SchemaAccepts(BuildInvoice(req, InvoiceNumber(key.companyName, key.date, Current(counters, key) + 1, key.warrantyStatus), now))
    ensures var key := TodayKey(req.companyName.value, req.warrantyStatus.value, day, monthIndex, year);
      var inv := BuildInvoice(req, InvoiceNumber(key.companyName, key.date, Current(counters, key) + 1, key.warrantyStatus), now);
      var step := CreateInvoice(counters, invoices, req, day, monthIndex, year, now, false, false);
      && step.reply.InvoiceCreated? && step.reply.Status() == 201
      && step.invoices == invoices + [inv]
      && step.reply.invoice == ViewOf(inv, |invoices|)
  {
    var key := TodayKey(req.companyName.value, req.warrantyStatus.value, day, monthIndex, year);
    var inv := BuildInvoice(req, InvoiceNumber(key.companyName, key.date, Current(counters, key) + 1, key.warrantyStatus), now);
    assert IsWarrantyStatus(key.warrantyStatus) by {
      assert inv.warrantyStatus == key.warrantyStatus;
    }
    FreshNumberNotTaken(counters, invoices, key);
    assert SaveInvoice(invoices, inv, false).Saved?;
  }

  /** POST /api/invoices/next-number keeps the table accounting for every stored invoice. */
  lemma NextNumberKeepsInvoicesIssued(counters: map<CounterKey, nat>, invoices: seq<Invoice>, req: NextNumberRequest,
                                      day: nat, monthIndex: nat, year: int, storageFails: bool)
    requires AllIssued(counters, invoices)
    ensures AllIssued(IssueNextNumber(counters, req, day, monthIndex, year, storageFails).counters, invoices)
  {
    var step := IssueNextNumber(counters, req, day, monthIndex, year, storageFails);
    assert NoCounterDecreased(counters, step.counters);
    AllIssuedMonotone(counters, step.counters, invoices);
  }

  /** A successful /next-number moves the day's counter on by one and shows the new value. */
  lemma NextNumberAdvances(counters: map<CounterKey, nat>, req: NextNumberRequest, day: nat, monthIndex: nat, year: int)
    requires Truthy(req.companyName) && Truthy(req.warrantyStatus)
    ensures var key := TodayKey(req.companyName.value, req.warrantyStatus.value, day, monthIndex, year);
      var step := IssueNextNumber(counters, req, day, monthIndex, year, false);
      && Current(step.counters, key) == Current(counters, key) + 1
      && step.reply == NextNumber(InvoiceNumber(key.companyName, key.date, Current(counters, key) + 1, key.warrantyStatus))
  {
  }

  /** An invoice request that passes validation moves the day's counter on by one, and a created invoice shows the new value. */
  lemma CreateInvoiceAdvances(counters: map<CounterKey, nat>, invoices: seq<Invoice>, req: InvoiceRequest,
                              day: nat, monthIndex: nat, year: int, now: Instant)
    requires HasRequiredInvoiceFields(req)
    ensures var key := TodayKey(req.companyName.value, req.warrantyStatus.value, day, monthIndex, year);
      var step := CreateInvoice(counters, invoices, req, day, monthIndex, year, now, false, false);
      && Current(step.counters, key) == Current(counters, key) + 1
      && (step.reply.InvoiceCreated? ==>
            step.reply.invoice.invoiceNumber == InvoiceNumber(key.companyName, key.date, Current(counters, key) + 1, key.warrantyStatus))
  {
    CounterAdvancesBeforeSave(counters, invoices, req, day, monthIndex, year, now, false);
    CreatedInvoiceIsAppended(counters, invoices, req, day, monthIndex, year, now, false, false);
  }

  /**
   * The number /next-number shows is not the one the next invoice gets:
   * the invoice created right after it for the same company, status and
   * day carries the following counter.
   */
  lemma PreviewedNumberIsSkipped(counters: map<CounterKey, nat>, invoices: seq<Invoice>, req: InvoiceRequest,
                                 day: nat, monthIndex: nat, year: int, now: Instant,
                                 preview: NextNumberStep, step: CreateInvoiceStep)
    requires HasRequiredInvoiceFields(req)
    requires preview == IssueNextNumber(counters, NextNumberRequest(req.companyName, req.warrantyStatus),
                                        day, monthIndex, year, false)
    requires step == CreateInvoice(preview.counters, invoices, req, day, monthIndex, year, now, false, false)
    ensures var key := TodayKey(req.companyName.value, req.warrantyStatus.value, day, monthIndex, year);
      && preview.reply == NextNumber(InvoiceNumber(key.companyName, key.date, Current(counters, key) + 1, key.warrantyStatus))
      && Current(step.counters, key) == Current(counters, key) + 2
      && (step.reply.InvoiceCreated? ==>
            step.reply.invoice.invoiceNumber == InvoiceNumber(key.companyName, key.date, Current(counters, key) + 2, key.warrantyStatus)
            && step.reply.invoice.invoiceNumber != preview.reply.invoiceNumber)
  {
    var key := TodayKey(req.companyName.value, req.warrantyStatus.value, day, monthIndex, year);
    var n := Current(counters, key);
    NextNumberAdvances(counters, NextNumberRequest(req.companyName, req.warrantyStatus), day, monthIndex, year);
    CreateInvoiceAdvances(preview.counters, invoices, req, day, monthIndex, year, now);
    CountersGiveDistinctNumbers(key.companyName, key.date, n + 1, n + 2, key.warrantyStatus);
  }

  /** Two counters of one day, company and status give two different numbers. */
  lemma CountersGiveDistinctNumbers(companyName: string, date: string, n1: nat, n2: nat, warrantyStatus: string)
    requires '/' !in date && n1 != n2
    ensures InvoiceNumber(companyName, date, n1, warrantyStatus) != InvoiceNumber(companyName, date, n2, warrantyStatus)
  {
    if InvoiceNumber(companyName, date, n1, warrantyStatus) == InvoiceNumber(companyName, date, n2, warrantyStatus) {
      InvoiceNumberInjective(companyName, date, n1, warrantyStatus, companyName, date, n2, warrantyStatus);
    }
  }
}
