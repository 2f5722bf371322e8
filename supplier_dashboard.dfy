/**
 * The supplier dashboard: accepting or rejecting group-order requests, the pending badge,
 * the add-product form (its validation, the payload it sends and the list append on
 * success), and the stock-status label.
 */
module SupplierDashboard {
  import opened Wrappers
  import opened Seqs
  import opened Js

  datatype Product = Product(
    id: string, name: string, category: string, price: real, unit: string, stock: real, status: string)

  datatype OrderRequest = OrderRequest(id: string, title: string, requester: string, status: string)

  /** The add-product form: every input holds the text typed into it. */
  datatype ProductForm = ProductForm(
    name: string, category: string, price: string, unit: string, stock: string, status: string)

  /** The body posted to `/supplier/add-product`. */
  datatype ProductPayload = ProductPayload(
    name: string, category: string, price: JsNumber, unit: string, stock: JsNumber,
    status: string, supplierId: string)

  datatype Decision = Accept | Reject

  /** The form's initial and post-success contents. */
  const EmptyForm: ProductForm := ProductForm("", "", "", "", "", "available")

  // ------------------------------------------------------------------
  // Group-order requests

  function DecidedStatus(action: Decision): (r: string)
  {
    if action == Accept then "accepted" else "rejected"
  }

  /** `handleOrderRequest`'s update of the request list. */
  function MarkRequests(requests: seq<OrderRequest>, orderId: string, action: Decision): (r: seq<OrderRequest>)
    ensures |r| == |requests|
    ensures forall i :: 0 <= i < |requests| && requests[i].id == orderId ==>
      r[i] == requests[i].(status := DecidedStatus(action))
    ensures forall i :: 0 <= i < |requests| && requests[i].id != orderId ==> r[i] == requests[i]
  {
    if requests == [] then []
    else
      var head := if requests[0].id == orderId then requests[0].(status := DecidedStatus(action)) else requests[0];
      [head] + MarkRequests(requests[1..], orderId, action)
  }

  predicate IsPending(request: OrderRequest)
  {
    request.status == "pending"
  }

  /** The "N Pending" badge. */
  function PendingCount(requests: seq<OrderRequest>): (r: nat)
  {
    Count(requests, IsPending)
  }

  /** Accept and Reject are offered on a request exactly when it is pending. */
  predicate OffersDecision(request: OrderRequest)
  {
    IsPending(request)
  }

  /** The pending requests carrying a given id. */
  function PendingWithId(requests: seq<OrderRequest>, orderId: string): (r: nat)
  {
    if requests == [] then 0
    else (if requests[0].id == orderId && IsPending(requests[0]) then 1 else 0) + PendingWithId(requests[1..], orderId)
  }

  /** Deciding a request takes exactly the pending requests with that id off the badge. */
  lemma {:induction false} DecisionLowersPendingCount(requests: seq<OrderRequest>, orderId: string, action: Decision)
    ensures PendingCount(MarkRequests(requests, orderId, action)) == PendingCount(requests) - PendingWithId(requests, orderId)
  {
    if requests != [] {
      DecisionLowersPendingCount(requests[1..], orderId, action);
      var marked := MarkRequests(requests, orderId, action);
      assert marked[1..] == MarkRequests(requests[1..], orderId, action);
    }
  }

  /** After a decision, no request with that id still offers Accept and Reject. */
  lemma DecidedRequestsOfferNothing(requests: seq<OrderRequest>, orderId: string, action: Decision, i: nat)
    requires i < |requests| && requests[i].id == orderId
    ensures !OffersDecision(MarkRequests(requests, orderId, action)[i])
  {
  }

  /** Deciding the same request twice is the same as deciding it once. */
  lemma DecisionIdempotent(requests: seq<OrderRequest>, orderId: string, action: Decision)
    ensures MarkRequests(MarkRequests(requests, orderId, action), orderId, action) == MarkRequests(requests, orderId, action)
  {
  }

  // ------------------------------------------------------------------
  // Add-product payload

  /** The payload `handleAddProduct` builds from the form. */
  function BuildPayload(form: ProductForm, supplierId: string): (r: ProductPayload)
  {
    ProductPayload(Trim(form.name), Trim(form.category), ToNumber(form.price), Trim(form.unit),
                   ToNumber(form.stock), form.status, supplierId)
  }

  /** The payload passes the "Please fill in all fields correctly" check. */
  predicate PayloadAccepted(p: ProductPayload)
  {
    p.name != [] && p.category != [] && p.unit != [] && !p.price.NaN? && !p.stock.NaN?
  }

  /**
   * A form is sent exactly when name, category and unit each hold something other than
   * white space and price and stock are numbers; the text fields are sent trimmed.
   */
  lemma PayloadAcceptedIff(form: ProductForm, supplierId: string)
    ensures PayloadAccepted(BuildPayload(form, supplierId)) <==>
      && !AllSpace(form.name) && !AllSpace(form.category) && !AllSpace(form.unit)
      && ToNumber(form.price) != NaN && ToNumber(form.stock) != NaN
    ensures var p := BuildPayload(form, supplierId);
      PayloadAccepted(p) ==>
        && !IsSpace(p.name[0]) && !IsSpace(p.name[|p.name| - 1])
        && !IsSpace(p.category[0]) && !IsSpace(p.category[|p.category| - 1])
        && !IsSpace(p.unit[0]) && !IsSpace(p.unit[|p.unit| - 1])
  {
  }

  /** Empty price and stock inputs read as 0, so a form with them left empty still passes. */
  lemma EmptyNumbersPass(form: ProductForm, supplierId: string)
    requires form.price == "" && form.stock == ""
    requires !AllSpace(form.name) && !AllSpace(form.category) && !AllSpace(form.unit)
    ensures PayloadAccepted(BuildPayload(form, supplierId))
    ensures BuildPayload(form, supplierId).price == Finite(0.0)
  {
  }

  /** A price typed with no digit at all (other than an infinity) is refused. */
  lemma WordPriceRefused(form: ProductForm, supplierId: string)
    requires forall i :: 0 <= i < |form.price| ==> !IsDigit(form.price[i])
    requires !AllSpace(form.price) && !IsInfinityLiteral(Trim(form.price))
    ensures ToNumber(form.price) == NaN
    ensures !PayloadAccepted(BuildPayload(form, supplierId))
  {
    NumberWithoutDigits(form.price);
  }

  /** `getStockStatusText`. */
  function StockStatusText(status: string): (text: string)
    ensures text in ["In Stock", "Low Stock", "Out of Stock", "Unknown"]
  {
    match status
    case "available" => "In Stock"
    case "low_stock" => "Low Stock"
    case "out_of_stock" => "Out of Stock"
    case _ => "Unknown"
  }

  /** The three stock statuses get three different labels, none "Unknown"; anything else is "Unknown". */
  lemma StockStatusTextIff(status: string)
    ensures StockStatusText(status) == "Unknown" <==> status !in ["available", "low_stock", "out_of_stock"]
    ensures status == "available" <==> StockStatusText(status) == "In Stock"
    ensures status == "low_stock" <==> StockStatusText(status) == "Low Stock"
    ensures status == "out_of_stock" <==> StockStatusText(status) == "Out of Stock"
  {
  }

  /** What pressing "Add Product" leads to, before the request is sent. */
  datatype AddCheck =
    | NoSupplierAlert
    | InvalidFormAlert
    | Send(payload: ProductPayload)

  /** The two guards of `handleAddProduct`, in their order. */
  function CheckSubmission(form: ProductForm, supplierId: string): (c: AddCheck)
    ensures c == NoSupplierAlert <==> IsBlank(supplierId)
    ensures c == InvalidFormAlert <==> !IsBlank(supplierId) && !PayloadAccepted(BuildPayload(form, supplierId))
    ensures c.Send? ==> c.payload == BuildPayload(form, supplierId) && PayloadAccepted(c.payload)
  {
    if IsBlank(supplierId) then NoSupplierAlert
    else
      var payload := BuildPayload(form, supplierId);
      if !PayloadAccepted(payload) then InvalidFormAlert else Send(payload)
  }

  /** The page's state. */
  class SupplierDashboardPage {
    var products: seq<Product>
    var orderRequests: seq<OrderRequest>
    var newProduct: ProductForm
    var supplierId: string
    var showAddModal: bool

    constructor ()
      ensures products == [] && orderRequests == [] && newProduct == EmptyForm
      ensures supplierId == "" && !showAddModal
    {
      products, orderRequests, newProduct := [], [], EmptyForm;
      supplierId, showAddModal := "", false;
    }

    /** `handleOrderRequest(orderId, action)`. */
    method HandleOrderRequest(orderId: string, action: Decision)
      modifies this`orderRequests
      ensures orderRequests == MarkRequests(old(orderRequests), orderId, action)
      ensures PendingCount(orderRequests) == PendingCount(old(orderRequests)) - PendingWithId(old(orderRequests), orderId)
    {
      DecisionLowersPendingCount(orderRequests, orderId, action);
      orderRequests := MarkRequests(orderRequests, orderId, action);
    }

    /**
     * `handleAddProduct`; `reply` is the product the server returns, or None when the
     * request fails.
     */
    method HandleAddProduct(reply: Option<Product>) returns (check: AddCheck)
      modifies this`products, this`newProduct, this`showAddModal
      ensures check == CheckSubmission(old(newProduct), old(supplierId))
      ensures check.Send? && reply.Some? ==>
        && products == old(products) + [reply.value]
        && newProduct == EmptyForm && !showAddModal
      ensures !(check.Send? && reply.Some?) ==>
        products == old(products) && newProduct == old(newProduct) && showAddModal == old(showAddModal)
    {
      check := CheckSubmission(newProduct, supplierId);
      if check.Send? && reply.Some? {
        products := products + [reply.value];
        showAddModal := false;
        newProduct := EmptyForm;
      }
    }
  }
}
