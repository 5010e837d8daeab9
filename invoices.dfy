/**
 * Supplier invoices, src/pages/api/invoices/index.ts: the checks that
 * creating an invoice goes through, in order, and the filter and
 * pagination arithmetic of the listing.
 */
module Invoices {
  import opened Wrappers
  import opened JsText

  /**
   * A JavaScript number as arithmetic sees it: a finite value, or NaN, which
   * every operation propagates and every comparison answers false.
   */
  datatype JsNumber = Num(value: real) | NaN

  function Plus(a: JsNumber, b: JsNumber): (c: JsNumber)
    ensures c.NaN? <==> a.NaN? || b.NaN?
  {
    if a.Num? && b.Num? then Num(a.value + b.value) else NaN
  }

  function Times(a: JsNumber, b: JsNumber): (c: JsNumber)
    ensures c.NaN? <==> a.NaN? || b.NaN?
  {
    if a.Num? && b.Num? then Num(a.value * b.value) else NaN
  }

  /**
   * One line of an invoice, by the numbers its `quantity` and `unitPrice`
   * turn into under `*`: NaN when a field is missing or not numeric. Other
   * item fields are stored as submitted and not modelled.
   */
  datatype Item = Item(quantity: JsNumber, unitPrice: JsNumber)

  /** A line whose product is NaN. */
  predicate NotNumeric(item: Item) {
    item.quantity.NaN? || item.unitPrice.NaN?
  }

  /**
   * The validated body. `taxAmount` and `discountAmount` are None when
   * absent; an absent `items` behaves as an empty list.
   */
  datatype InvoiceInput = InvoiceInput(
    invoiceNumber: string,
    supplier: string,
    branch: string,
    invoiceDate: string,
    dueDate: string,
    items: seq<Item>,
    subtotal: real,
    taxAmount: Option<real>,
    discountAmount: Option<real>,
    totalAmount: real,
    notes: Option<string>,
    paymentMethod: Option<string>)

  /** A stored invoice (the dates are kept as submitted; `new Date` is not modelled). */
  datatype Invoice = Invoice(
    invoiceNumber: string,
    supplier: string,
    branch: string,
    createdBy: Option<string>,
    invoiceDate: string,
    dueDate: string,
    items: seq<Item>,
    subtotal: real,
    taxAmount: real,
    discountAmount: real,
    totalAmount: real,
    notes: Option<string>,
    paymentMethod: Option<string>,
    status: string)

  const Tolerance: real := 0.01

  /** `items.reduce((sum, item) => sum + item.quantity * item.unitPrice, 0)`. */
  function Subtotal(items: seq<Item>): JsNumber
    decreases |items|
  {
    if items == [] then Num(0.0)
    else Plus(Subtotal(items[..|items| - 1]), Times(items[|items| - 1].quantity, items[|items| - 1].unitPrice))
  }

  /** The sum splits over a concatenation. */
  lemma {:induction false} SubtotalAppend(a: seq<Item>, b: seq<Item>)
    ensures Subtotal(a + b) == Plus(Subtotal(a), Subtotal(b))
    decreases |b|
  {
    if b != [] {
      var init := b[..|b| - 1];
      assert (a + b)[..|a + b| - 1] == a + init;
      assert (a + b)[|a + b| - 1] == b[|b| - 1];
      SubtotalAppend(a, init);
      assert Subtotal(a + b) == Plus(Subtotal(a + init), Times(b[|b| - 1].quantity, b[|b| - 1].unitPrice));
    } else {
      assert a + b == a;
    }
  }

  function Abs(x: real): real {
    if x < 0.0 then -x else x
  }

  /** `Math.abs(a - b) > 0.01`, which is false when `a` is NaN. */
  predicate Differs(a: JsNumber, b: real) {
    a.Num? && Abs(a.value - b) > Tolerance
  }

  /** `calculatedSubtotal + taxAmount - discountAmount`. */
  function Adjusted(sum: JsNumber, tax: real, discount: real): JsNumber {
    Plus(Plus(sum, Num(tax)), Num(-discount))
  }

  /** The items' sum is NaN exactly when some line is not numeric. */
  lemma {:induction false} SubtotalNaNIff(items: seq<Item>)
    ensures Subtotal(items).NaN? <==> exists j :: 0 <= j < |items| && NotNumeric(items[j])
    decreases |items|
  {
    if items != [] {
      var init := items[..|items| - 1];
      SubtotalNaNIff(init);
      if exists j :: 0 <= j < |init| && NotNumeric(init[j]) {
        var j :| 0 <= j < |init| && NotNumeric(init[j]);
        assert items[j] == init[j];
      }
      if exists j :: 0 <= j < |items| && NotNumeric(items[j]) {
        var j :| 0 <= j < |items| && NotNumeric(items[j]);
        if j < |init| {
          assert init[j] == items[j];
        }
      }
    }
  }

  /** Why the route refuses an invoice, in the order it checks. */
  datatype CreateError =
    | DuplicateNumber
    | UnknownSupplier
    | UnknownBranch
    | NoItems
    | SubtotalMismatch
    | TotalMismatch
  {
    function Status(): (status: int)
      ensures status == 409 <==> this == DuplicateNumber
      ensures status == 409 || status == 400
    {
      if this == DuplicateNumber then 409 else 400
    }

    function Message(): string {
      match this
      case DuplicateNumber => "Ya existe una factura con este número"
      case UnknownSupplier => "El proveedor especificado no existe"
      case UnknownBranch => "La sucursal especificada no existe"
      case NoItems => "La factura debe tener al menos un item"
      case SubtotalMismatch => "El subtotal no coincide con la suma de los items"
      case TotalMismatch => "El total no coincide con los cálculos (subtotal + impuestos - descuentos)"
    }
  }

  /** What the route decides. */
  datatype Creation =
    | Rejected(error: CreateError)
    | Created(invoice: Invoice)

  /** `findOne({ invoiceNumber })`. */
  predicate NumberTaken(invoices: seq<Invoice>, number: string) {
    exists j :: 0 <= j < |invoices| && invoices[j].invoiceNumber == number
  }

  /** The invoice the route stores: trimmed number and texts, defaults of 0, status 'pending'. */
  function StoredInvoice(input: InvoiceInput, createdBy: Option<string>): (inv: Invoice)
    ensures inv.invoiceNumber == Trim(input.invoiceNumber) && inv.status == "pending"
    ensures inv.taxAmount == input.taxAmount.GetOr(0.0) && inv.discountAmount == input.discountAmount.GetOr(0.0)
    ensures inv.subtotal == input.subtotal && inv.totalAmount == input.totalAmount && inv.items == input.items
    ensures inv.supplier == input.supplier && inv.branch == input.branch && inv.createdBy == createdBy
  {
    Invoice(Trim(input.invoiceNumber), input.supplier, input.branch, createdBy, input.invoiceDate, input.dueDate,
            input.items, input.subtotal, input.taxAmount.GetOr(0.0), input.discountAmount.GetOr(0.0), input.totalAmount,
            if input.notes.Some? then Some(Trim(input.notes.value)) else None,
            if input.paymentMethod.Some? then Some(Trim(input.paymentMethod.value)) else None,
            "pending")
  }

  /** The amount checks on their own: the subtotal first, then the total against the computed subtotal. */
  function AmountError(items: seq<Item>, subtotal: real, tax: real, discount: real, total: real): (e: Option<CreateError>)
    ensures e.None? <==> !Differs(Subtotal(items), subtotal) && !Differs(Adjusted(Subtotal(items), tax, discount), total)
    ensures e.Some? ==> e.value == SubtotalMismatch || e.value == TotalMismatch
  {
    var calculatedSubtotal := Subtotal(items);
    if Differs(calculatedSubtotal, subtotal) then Some(SubtotalMismatch)
    else if Differs(Adjusted(calculatedSubtotal, tax, discount), total) then Some(TotalMismatch)
    else None
  }

  /**
   * The checks in order: duplicate number, supplier, branch, items,
   * subtotal, total, then the insert.
   */
  function CreateDecision(invoices: seq<Invoice>, suppliers: set<string>, branches: set<string>,
                          input: InvoiceInput, createdBy: Option<string>): Creation
  {
    if NumberTaken(invoices, Trim(input.invoiceNumber)) then Rejected(DuplicateNumber)
    else if input.supplier !in suppliers then Rejected(UnknownSupplier)
    else if input.branch !in branches then Rejected(UnknownBranch)
    else if input.items == [] then Rejected(NoItems)
    else
      match AmountError(input.items, input.subtotal, input.taxAmount.GetOr(0.0), input.discountAmount.GetOr(0.0), input.totalAmount)
      case Some(e) => Rejected(e)
      case None => Created(StoredInvoice(input, createdBy))
  }

  /** The invoices collection. */
  class InvoiceTable {
    var invoices: seq<Invoice>

    constructor (initial: seq<Invoice>)
      ensures invoices == initial
    {
      invoices := initial;
    }

    /** The `reduce` over the items, then the subtotal and the total checks. */
    static method CheckAmounts(input: InvoiceInput) returns (e: Option<CreateError>)
      ensures e == AmountError(input.items, input.subtotal, input.taxAmount.GetOr(0.0), input.discountAmount.GetOr(0.0), input.totalAmount)
    {
      var items := input.items;
      var calculatedSubtotal := Num(0.0);
      var i := 0;
      while i < |items|
        invariant 0 <= i <= |items|
        invariant calculatedSubtotal == Subtotal(items[..i])
      {
        assert items[..i + 1][..i] == items[..i];
        calculatedSubtotal := Plus(calculatedSubtotal, Times(items[i].quantity, items[i].unitPrice));
        i := i + 1;
      }
      assert items[..i] == items;
      var calculatedTotal := Adjusted(calculatedSubtotal, input.taxAmount.GetOr(0.0), input.discountAmount.GetOr(0.0));
      if Differs(calculatedSubtotal, input.subtotal) {
        return Some(SubtotalMismatch);
      }
      if Differs(calculatedTotal, input.totalAmount) {
        return Some(TotalMismatch);
      }
      return None;
    }

    /** `findOne({ invoiceNumber })`: a scan of the stored invoices for the number. */
    method NumberStored(number: string) returns (taken: bool)
      ensures taken == NumberTaken(invoices, number)
    {
      var k := 0;
      while k < |invoices|
        invariant 0 <= k <= |invoices|
        invariant forall j :: 0 <= j < k ==> invoices[j].invoiceNumber != number
      {
        if invoices[k].invoiceNumber == number {
          return true;
        }
        k := k + 1;
      }
      return false;
    }

    /** `createInvoice`; `createdBy` is the authenticated caller's id, if any. */
    method CreateInvoice(suppliers: set<string>, branches: set<string>, input: InvoiceInput, createdBy: Option<string>)
      returns (c: Creation)
      modifies this
      ensures c == CreateDecision(old(invoices), suppliers, branches, input, createdBy)
      ensures c.Created? ==> invoices == old(invoices) + [c.invoice]
      ensures c.Rejected? ==> invoices == old(invoices)
    {
      var taken := NumberStored(Trim(input.invoiceNumber));
      if taken {
        return Rejected(DuplicateNumber);
      }
      if input.supplier !in suppliers {
        return Rejected(UnknownSupplier);
      }
      if input.branch !in branches {
        return Rejected(UnknownBranch);
      }
      if input.items == [] {
        return Rejected(NoItems);
      }
      var amountError := CheckAmounts(input);
      if amountError.Some? {
        return Rejected(amountError.value);
      }
      var invoice := StoredInvoice(input, createdBy);
      invoices := invoices + [invoice];
      c := Created(invoice);
    }
  }

  /**
   * An accepted invoice is the stored form of the input, which passed every
   * check: its number is new, its supplier and branch exist, it has lines,
   * and either some line is not numeric (the sum is NaN and neither amount
   * check can fail) or its subtotal is within 0.01 of the sum of its lines
   * and its total within 0.01 of that sum plus tax minus discount, so the
   * submitted figures agree among themselves within 0.02.
   */
  lemma AcceptedAmounts(invoices: seq<Invoice>, suppliers: set<string>, branches: set<string>,
                        input: InvoiceInput, createdBy: Option<string>)
    requires CreateDecision(invoices, suppliers, branches, input, createdBy).Created?
    ensures CreateDecision(invoices, suppliers, branches, input, createdBy).invoice == StoredInvoice(input, createdBy)
    ensures !NumberTaken(invoices, Trim(input.invoiceNumber)) && input.supplier in suppliers && input.branch in branches
    ensures input.items != []
    ensures !Differs(Subtotal(input.items), input.subtotal)
    ensures !Differs(Adjusted(Subtotal(input.items), input.taxAmount.GetOr(0.0), input.discountAmount.GetOr(0.0)), input.totalAmount)
    ensures (exists j :: 0 <= j < |input.items| && NotNumeric(input.items[j])) ||
            Abs(input.subtotal + input.taxAmount.GetOr(0.0) - input.discountAmount.GetOr(0.0) - input.totalAmount) <= 2.0 * Tolerance
  {
    AmountsAgree(input.items, input.subtotal, input.taxAmount.GetOr(0.0), input.discountAmount.GetOr(0.0), input.totalAmount);
  }

  /**
   * Figures that pass the amount checks with numeric lines agree among
   * themselves within twice the tolerance.
   */
  lemma AmountsAgree(items: seq<Item>, subtotal: real, tax: real, discount: real, total: real)
    requires AmountError(items, subtotal, tax, discount, total).None?
    ensures (exists j :: 0 <= j < |items| && NotNumeric(items[j])) || Abs(subtotal + tax - discount - total) <= 2.0 * Tolerance
  {
    SubtotalNaNIff(items);
    if Subtotal(items).Num? {
      WithinTwice(Subtotal(items).value, subtotal, tax - discount, total);
    }
  }

  /**
   * A line that is not numeric makes the sum NaN, so both amount checks
   * pass whatever subtotal and total are declared: such an invoice is
   * created as soon as its number, supplier and branch pass.
   */
  lemma NotNumericLineSkipsAmountChecks(invoices: seq<Invoice>, suppliers: set<string>, branches: set<string>,
                                        input: InvoiceInput, createdBy: Option<string>, j: nat)
    requires j < |input.items| && NotNumeric(input.items[j])
    ensures AmountError(input.items, input.subtotal, input.taxAmount.GetOr(0.0), input.discountAmount.GetOr(0.0), input.totalAmount).None?
    ensures !NumberTaken(invoices, Trim(input.invoiceNumber)) && input.supplier in suppliers && input.branch in branches ==>
              CreateDecision(invoices, suppliers, branches, input, createdBy) == Created(StoredInvoice(input, createdBy))
  {
    SubtotalNaNIff(input.items);
  }

  /** Two figures each within the tolerance of a computed one are within twice of each other. */
  lemma WithinTwice(sum: real, subtotal: real, adjust: real, total: real)
    requires Abs(sum - subtotal) <= Tolerance && Abs(sum + adjust - total) <= Tolerance
    ensures Abs(subtotal + adjust - total) <= 2.0 * Tolerance
  {
  }

  /** Each rejection comes from the first check that fails, in the route's order. */
  lemma RejectionOrder(invoices: seq<Invoice>, suppliers: set<string>, branches: set<string>,
                       input: InvoiceInput, createdBy: Option<string>)
    ensures var c := CreateDecision(invoices, suppliers, branches, input, createdBy);
            (c == Rejected(DuplicateNumber) <==> NumberTaken(invoices, Trim(input.invoiceNumber)))
            && (c == Rejected(UnknownSupplier) <==> !NumberTaken(invoices, Trim(input.invoiceNumber)) && input.supplier !in suppliers)
            && (c == Rejected(UnknownBranch) <==>
                  !NumberTaken(invoices, Trim(input.invoiceNumber)) && input.supplier in suppliers && input.branch !in branches)
            && (c == Rejected(NoItems) <==>
                  !NumberTaken(invoices, Trim(input.invoiceNumber)) && input.supplier in suppliers && input.branch in branches
                  && input.items == [])
            && (c == Rejected(TotalMismatch) ==> input.items != [] && !Differs(Subtotal(input.items), input.subtotal))
  {
  }

  /** Once stored, the same number (up to surrounding whitespace) is refused with 409. */
  lemma SecondInvoiceIsDuplicate(invoices: seq<Invoice>, suppliers: set<string>, branches: set<string>,
                                 input: InvoiceInput, again: InvoiceInput, createdBy: Option<string>)
    requires CreateDecision(invoices, suppliers, branches, input, createdBy).Created?
    requires Trim(again.invoiceNumber) == Trim(input.invoiceNumber)
    ensures CreateDecision(invoices + [CreateDecision(invoices, suppliers, branches, input, createdBy).invoice],
                           suppliers, branches, again, createdBy) == Rejected(DuplicateNumber)
  {
    AcceptedAmounts(invoices, suppliers, branches, input, createdBy);
    var after := invoices + [StoredInvoice(input, createdBy)];
    assert after[|invoices|].invoiceNumber == Trim(again.invoiceNumber);
    assert NumberTaken(after, Trim(again.invoiceNumber));
  }

  // ---------------------------------------------------------------------------
  // Listing
  // ---------------------------------------------------------------------------

  /** `searchParams.get(name) || fallback`. */
  function ParamOr(query: map<string, string>, name: string, fallback: string): string {
    if name in query && query[name] != "" then query[name] else fallback
  }

  /** The filter: each of status, supplier and branch, when supplied non-empty. */
  function Filters(query: map<string, string>): (filters: map<string, string>)
  {
    var keys := ["status", "supplier", "branch"];
    map k | k in keys && k in query && query[k] != "" :: query[k]
  }

  /** The filter holds exactly the supplied parameters, unchanged. */
  lemma FiltersExact(query: map<string, string>, k: string)
    ensures k in Filters(query) <==> k in {"status", "supplier", "branch"} && k in query && query[k] != ""
    ensures k in Filters(query) ==> Filters(query)[k] == query[k]
  {
  }

  /** An invoice matches a filter when it agrees on each filtered field. */
  predicate Matches(inv: Invoice, filters: map<string, string>) {
    ("status" in filters ==> inv.status == filters["status"])
    && ("supplier" in filters ==> inv.supplier == filters["supplier"])
    && ("branch" in filters ==> inv.branch == filters["branch"])
  }

  /** `countDocuments(filters)`. */
  function CountMatching(invoices: seq<Invoice>, filters: map<string, string>): (n: nat)
    ensures n <= |invoices|
    decreases |invoices|
  {
    if invoices == [] then 0
    else CountMatching(invoices[..|invoices| - 1], filters) + (if Matches(invoices[|invoices| - 1], filters) then 1 else 0)
  }

  /** Floor division, for a non-zero divisor. */
  function FloorDiv(a: int, b: int): int
    requires b != 0
  {
    if b > 0 then a / b else (-a) / (-b)
  }

  /** `Math.ceil(a / b)` for a non-zero divisor. */
  function CeilDiv(a: int, b: int): (c: int)
    requires b != 0
  {
    -FloorDiv(-a, b)
  }

  /** For a positive divisor, the ceiling is the least multiple count that reaches `a`. */
  lemma CeilDivLeast(a: int, b: int)
    requires b > 0
    ensures CeilDiv(a, b) * b >= a
    ensures (CeilDiv(a, b) - 1) * b < a
  {
  }

  /**
   * The pagination block; a value that is NaN or infinite in the source
   * (an unparsable page or limit, a zero limit) is None, as JSON renders it null.
   */
  datatype Pagination = Pagination(page: Option<int>, limit: Option<int>, skip: Option<int>, total: nat, pages: Option<int>)

  /** The arithmetic of the block: `skip = (page - 1) * limit` and `pages = Math.ceil(total / limit)`. */
  function PageBlock(page: Option<int>, limit: Option<int>, total: nat): (p: Pagination)
    ensures p.page == page && p.limit == limit && p.total == total
    ensures p.skip.Some? <==> page.Some? && limit.Some?
    ensures p.pages.Some? <==> limit.Some? && limit.value != 0
  {
    var skip := if page.Some? && limit.Some? then Some((page.value - 1) * limit.value) else None;
    var pages := if limit.Some? && limit.value != 0 then Some(CeilDiv(total, limit.value)) else None;
    Pagination(page, limit, skip, total, pages)
  }

  /** The block of `getInvoices`, from `page` (default "1") and `limit` (default "10"). */
  function Paginate(query: map<string, string>, total: nat): (p: Pagination)
    ensures p.total == total
  {
    PageBlock(ParseInt(ParamOr(query, "page", "1")), ParseInt(ParamOr(query, "limit", "10")), total)
  }

  /** What `getInvoices` queries with and reports. */
  datatype Listing = Listing(filters: map<string, string>, pagination: Pagination)

  /**
   * `getInvoices`: the filter built from the query, and the query's
   * pagination over the number of invoices that filter matches.
   */
  function ListInvoices(invoices: seq<Invoice>, query: map<string, string>): (l: Listing)
    ensures l.filters == Filters(query)
    ensures l.pagination == Paginate(query, l.pagination.total)
    ensures l.pagination.total <= |invoices|
    ensures l.pagination.total == CountMatching(invoices, l.filters)
    ensures l.filters == map[] ==> l.pagination.total == |invoices|
  {
    var filters := Filters(query);
    CountAllWithoutFilter(invoices, filters);
    Listing(filters, Paginate(query, CountMatching(invoices, filters)))
  }

  /** With no filter every invoice counts. */
  lemma {:induction false} CountAllWithoutFilter(invoices: seq<Invoice>, filters: map<string, string>)
    ensures filters == map[] ==> CountMatching(invoices, filters) == |invoices|
    decreases |invoices|
  {
    if invoices != [] {
      CountAllWithoutFilter(invoices[..|invoices| - 1], filters);
    }
  }

  /** Without page or limit the listing starts at 0 with pages of 10. */
  lemma DefaultPagination(query: map<string, string>, total: nat)
    requires "page" !in query && "limit" !in query
    ensures Paginate(query, total).page == Some(1) && Paginate(query, total).limit == Some(10)
    ensures Paginate(query, total).skip == Some(0)
    ensures Paginate(query, total).pages == Some(CeilDiv(total, 10))
  {
    ParseIntRendering(1);
    ParseIntRendering(10);
    assert IntToDecimal(1) == "1";
    assert IntToDecimal(10) == "10" by {
      assert NatToDecimal(10) == NatToDecimal(1) + [DigitChar(0)];
    }
  }

  /**
   * A page number p ≥ 1 and a limit l > 0 skip the (p - 1)·l invoices of the
   * earlier pages, and the page count covers every matching invoice with
   * no page left empty.
   */
  lemma PaginationCovers(page: int, limit: int, total: nat)
    requires page >= 1 && limit > 0
    ensures var p := PageBlock(Some(page), Some(limit), total);
            p.skip == Some((page - 1) * limit) && p.skip.value >= 0
            && p.pages.Some? && p.pages.value * limit >= total && (p.pages.value - 1) * limit < total
            && (total > 0 ==> p.pages.value >= 1) && (total == 0 ==> p.pages.value == 0)
  {
    CeilDivLeast(total, limit);
    assert (page - 1) * limit >= 0;
  }
}
