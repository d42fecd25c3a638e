/**
 * The customer-order backlog. `customer.order` is a database view with one row
 * per confirmed sale line that still has goods to deliver. Each row carries
 * the remaining quantity, the product's preferred vendor and an availability
 * status. The "create purchase orders" action takes the selected unordered
 * rows, groups them by vendor, and adds their quantities to one draft
 * customer-order purchase order per vendor.
 */
module CustomerOrder {
  import opened Wrappers
  import opened Calendar

  type PartnerId = nat
  type ProductId = nat

  // ---- the view's inputs ----

  /** A `sale.order.line`, joined with its order (customer, state) and its variant's template. */
  datatype SaleLine = SaleLine(id: nat, order: nat, customer: PartnerId, orderState: string,
                               product: Option<ProductId>, template: nat,
                               qtyOrdered: real, qtyDelivered: Option<real>)

  /** A `stock.quant`: the on-hand and reserved quantity of a product at one location. */
  datatype Quant = Quant(product: ProductId, internal: bool, quantity: real, reserved: real)

  /** A `product.supplierinfo` line: a vendor of a product template, its priority and validity window. */
  datatype SupplierInfo = SupplierInfo(id: nat, template: nat, partner: PartnerId, sequence: int,
                                       dateStart: Option<Date>, dateEnd: Option<Date>)

  datatype PoState = Draft | Sent | ToApprove | Purchase | Done | Cancel

  /** `x_purchase_type`: whether a purchase order was raised for customer orders. */
  datatype PurchaseType = ForCustomers | OtherPurchase

  /** A `purchase.order` header; its id is its position in the store. */
  datatype PurchaseOrder = PurchaseOrder(partner: PartnerId, state: PoState, purchaseType: PurchaseType)

  /** A `purchase.order.line`: ordered (`product_qty`) and received quantity of a product on an order. */
  datatype PurchaseLine = PurchaseLine(order: nat, product: ProductId, qty: real, received: real)

  datatype Status = Available | OnOrder | Unordered

  /** A row of the `customer.order` view. */
  datatype Row = Row(id: nat, saleOrder: nat, customer: PartnerId, product: ProductId, template: nat,
                     seller: Option<PartnerId>, qtyOrdered: real, qtyDelivered: real,
                     qtyToDeliver: real, status: Status)

  // ---- remaining quantity ----

  /** `COALESCE(sol.qty_delivered, 0)` */
  function Delivered(l: SaleLine): real
  {
    if l.qtyDelivered.Some? then l.qtyDelivered.value else 0.0
  }

  /** The quantity still to deliver. */
  function ToDeliver(l: SaleLine): real
  {
    l.qtyOrdered - Delivered(l)
  }

  /** The view's filter: a confirmed order's line with a product and something left to deliver. */
  predicate Listed(l: SaleLine)
  {
    l.qtyOrdered > Delivered(l) && l.product.Some? && l.orderState == "sale"
  }

  // ---- free stock ----

  /** The free quantity of a product: on-hand minus reserved, summed over internal locations. */
  function FreeQty(quants: seq<Quant>, p: ProductId): real
  {
    if quants == [] then 0.0
    else
      var q := quants[|quants| - 1];
      FreeQty(quants[..|quants| - 1], p) + (if q.product == p && q.internal then q.quantity - q.reserved else 0.0)
  }

  /** A product without any internal quant has no free stock (the `COALESCE` of the missing join). */
  lemma {:induction false} NoQuantNoStock(quants: seq<Quant>, p: ProductId)
    requires forall i :: 0 <= i < |quants| ==> quants[i].product != p || !quants[i].internal
    ensures FreeQty(quants, p) == 0.0
  {
    if quants != [] {
      NoQuantNoStock(quants[..|quants| - 1], p);
    }
  }

  /** Quants of other products, or outside internal locations, do not change a product's free stock. */
  lemma {:induction false} FreeQtyAppend(a: seq<Quant>, b: seq<Quant>, p: ProductId)
    ensures FreeQty(a + b, p) == FreeQty(a, p) + FreeQty(b, p)
    decreases |b|
  {
    if b != [] {
      var b' := b[..|b| - 1];
      assert (a + b)[..|a + b| - 1] == a + b';
      FreeQtyAppend(a, b', p);
    } else {
      assert a + b == a;
    }
  }

  // ---- open purchases ----

  /** The purchase states the view counts as open. */
  predicate OpenState(s: PoState)
  {
    s == Draft || s == Sent || s == ToApprove || s == Purchase
  }

  /** A purchase line that is still awaiting goods: its order is open and not everything has arrived. */
  predicate Awaiting(orders: seq<PurchaseOrder>, l: PurchaseLine)
  {
    l.order < |orders| && OpenState(orders[l.order].state) && l.received < l.qty
  }

  /** The `EXISTS` sub-query: some purchase line awaiting goods for the product. */
  predicate OnOrderFor(orders: seq<PurchaseOrder>, lines: seq<PurchaseLine>, p: ProductId)
  {
    exists i :: 0 <= i < |lines| && lines[i].product == p && Awaiting(orders, lines[i])
  }

  /** The view's `CASE`: enough free stock wins, then an open purchase, then nothing. */
  function StatusOf(free: real, toDeliver: real, onOrder: bool): (s: Status)
    ensures s == Available <==> free >= toDeliver
    ensures s == OnOrder <==> free < toDeliver && onOrder
    ensures s == Unordered <==> free < toDeliver && !onOrder
  {
    if free >= toDeliver then Available
    else if onOrder then OnOrder
    else Unordered
  }

  // ---- vendor selection ----

  /** A vendor line is in force today when neither its end date has passed nor its start date is ahead. */
  predicate InForce(info: SupplierInfo, today: Date)
  {
    (info.dateEnd.None? || OnOrBefore(today, info.dateEnd.value))
    && (info.dateStart.None? || OnOrBefore(info.dateStart.value, today))
  }

  predicate Candidate(info: SupplierInfo, template: nat, today: Date)
  {
    info.template == template && InForce(info, today)
  }

  /** `ORDER BY ps.sequence, ps.id`: `a` comes no later than `b`. */
  predicate Precedes(a: SupplierInfo, b: SupplierInfo)
  {
    a.sequence < b.sequence || (a.sequence == b.sequence && a.id <= b.id)
  }

  /** The position of the first vendor line in force for the template, in (sequence, id) order. */
  function FirstCandidate(infos: seq<SupplierInfo>, template: nat, today: Date): (r: Option<nat>)
    ensures r.None? <==> forall i :: 0 <= i < |infos| ==> !Candidate(infos[i], template, today)
    ensures r.Some? ==> r.value < |infos| && Candidate(infos[r.value], template, today)
    ensures r.Some? ==> forall j :: 0 <= j < |infos| && Candidate(infos[j], template, today) ==>
                          Precedes(infos[r.value], infos[j])
  {
    if infos == [] then None
    else
      var rest := FirstCandidate(infos[..|infos| - 1], template, today);
      var last := infos[|infos| - 1];
      if !Candidate(last, template, today) then rest
      else if rest.Some? && Precedes(infos[rest.value], last) then rest
      else Some(|infos| - 1)
  }

  /** The `seller_id` sub-query: the partner of the first vendor line in force, if any. */
  function SellerOf(infos: seq<SupplierInfo>, template: nat, today: Date): Option<PartnerId>
  {
    match FirstCandidate(infos, template, today)
    case None => None
    case Some(i) => Some(infos[i].partner)
  }

  /** The vendor is the partner of a line in force that no other line in force precedes; none when no line is in force. */
  lemma SellerIsPreferred(infos: seq<SupplierInfo>, template: nat, today: Date)
    ensures SellerOf(infos, template, today).None? <==>
      forall i :: 0 <= i < |infos| ==> !Candidate(infos[i], template, today)
    ensures SellerOf(infos, template, today).Some? ==>
      exists i :: 0 <= i < |infos| && Candidate(infos[i], template, today)
        && infos[i].partner == SellerOf(infos, template, today).value
        && forall j :: 0 <= j < |infos| && Candidate(infos[j], template, today) ==> Precedes(infos[i], infos[j])
  {
    var r := FirstCandidate(infos, template, today);
    if r.Some? {
      var i := r.value;
      assert infos[i].partner == SellerOf(infos, template, today).value;
    }
  }

  // ---- the view ----

  /** The view's row for a listed sale line. */
  function RowOf(l: SaleLine, quants: seq<Quant>, infos: seq<SupplierInfo>, orders: seq<PurchaseOrder>,
                 lines: seq<PurchaseLine>, today: Date): Row
    requires l.product.Some?
  {
    var p := l.product.value;
    Row(l.id, l.order, l.customer, p, l.template, SellerOf(infos, l.template, today),
        l.qtyOrdered, Delivered(l), ToDeliver(l),
        StatusOf(FreeQty(quants, p), ToDeliver(l), OnOrderFor(orders, lines, p)))
  }

  /** The `customer.order` view: one row per listed sale line, in sale-line order. */
  function View(sales: seq<SaleLine>, quants: seq<Quant>, infos: seq<SupplierInfo>, orders: seq<PurchaseOrder>,
                lines: seq<PurchaseLine>, today: Date): (rows: seq<Row>)
    ensures |rows| <= |sales|
  {
    if sales == [] then []
    else
      var l := sales[|sales| - 1];
      View(sales[..|sales| - 1], quants, infos, orders, lines, today)
      + (if Listed(l) then [RowOf(l, quants, infos, orders, lines, today)] else [])
  }

  /**
   * Exactly the listed sale lines appear, and every row states what is left to
   * deliver (positive, with a missing delivered quantity read as zero) and the
   * status of its product.
   */
  lemma {:induction false} ViewRows(sales: seq<SaleLine>, quants: seq<Quant>, infos: seq<SupplierInfo>,
                                    orders: seq<PurchaseOrder>, lines: seq<PurchaseLine>, today: Date)
    ensures forall l :: l in sales && Listed(l) ==> RowOf(l, quants, infos, orders, lines, today) in View(sales, quants, infos, orders, lines, today)
    ensures forall r :: r in View(sales, quants, infos, orders, lines, today) ==>
      exists l :: l in sales && Listed(l) && r == RowOf(l, quants, infos, orders, lines, today)
    ensures forall r :: r in View(sales, quants, infos, orders, lines, today) ==>
      r.qtyToDeliver > 0.0 && r.qtyToDeliver == r.qtyOrdered - r.qtyDelivered
      && r.seller == SellerOf(infos, r.template, today)
      && (r.status == Available <==> FreeQty(quants, r.product) >= r.qtyToDeliver)
      && (r.status == Unordered <==> FreeQty(quants, r.product) < r.qtyToDeliver && !OnOrderFor(orders, lines, r.product))
  {
    if sales != [] {
      ViewRows(sales[..|sales| - 1], quants, infos, orders, lines, today);
      assert sales == sales[..|sales| - 1] + [sales[|sales| - 1]];
    }
  }

  // ---- the purchase store and the action ----

  /** A draft customer-order purchase order of the vendor: the one the action reuses. */
  predicate IsTarget(po: PurchaseOrder, vendor: PartnerId)
  {
    po.partner == vendor && po.state == Draft && po.purchaseType == ForCustomers
  }

  /** `search([...], limit=1)` for the vendor's draft customer-order purchase: the newest one. */
  function LatestTarget(orders: seq<PurchaseOrder>, vendor: PartnerId): (r: Option<nat>)
    ensures r.None? <==> forall i :: 0 <= i < |orders| ==> !IsTarget(orders[i], vendor)
    ensures r.Some? ==> r.value < |orders| && IsTarget(orders[r.value], vendor)
    ensures r.Some? ==> forall j :: r.value < j < |orders| ==> !IsTarget(orders[j], vendor)
  {
    if orders == [] then None
    else if IsTarget(orders[|orders| - 1], vendor) then Some(|orders| - 1)
    else LatestTarget(orders[..|orders| - 1], vendor)
  }

  /** Orders added for other vendors do not change which order a vendor's search finds. */
  lemma {:induction false} LatestTargetStable(orders: seq<PurchaseOrder>, added: seq<PurchaseOrder>, vendor: PartnerId)
    requires forall i :: 0 <= i < |added| ==> added[i].partner != vendor
    ensures LatestTarget(orders + added, vendor) == LatestTarget(orders, vendor)
    decreases |added|
  {
    if added == [] {
      assert orders + added == orders;
    } else {
      var added' := added[..|added| - 1];
      assert (orders + added)[..|orders + added| - 1] == orders + added';
      LatestTargetStable(orders, added', vendor);
    }
  }

  /** The total ordered quantity of a product over the lines of one purchase order. */
  function QtyOf(lines: seq<PurchaseLine>, po: nat, p: ProductId): real
  {
    if lines == [] then 0.0
    else
      var l := lines[|lines| - 1];
      QtyOf(lines[..|lines| - 1], po, p) + (if l.order == po && l.product == p then l.qty else 0.0)
  }

  /** Raising one line's quantity raises its order's total for its product by as much, and nothing else. */
  lemma {:induction false} QtyOfRaise(lines: seq<PurchaseLine>, k: nat, q: real, po: nat, p: ProductId)
    requires k < |lines|
    ensures QtyOf(lines[k := lines[k].(qty := lines[k].qty + q)], po, p)
            == QtyOf(lines, po, p) + (if lines[k].order == po && lines[k].product == p then q else 0.0)
  {
    var n := |lines|;
    var raised := lines[k := lines[k].(qty := lines[k].qty + q)];
    if k == n - 1 {
      assert raised[..n - 1] == lines[..n - 1];
    } else {
      assert raised[..n - 1] == lines[..n - 1][k := lines[k].(qty := lines[k].qty + q)];
      QtyOfRaise(lines[..n - 1], k, q, po, p);
    }
  }

  /** A new line adds its quantity to its own order's total for its product. */
  lemma QtyOfAppend(lines: seq<PurchaseLine>, l: PurchaseLine, po: nat, p: ProductId)
    ensures QtyOf(lines + [l], po, p) == QtyOf(lines, po, p) + (if l.order == po && l.product == p then l.qty else 0.0)
  {
    assert (lines + [l])[..|lines|] == lines;
  }

  /** The first line of a purchase order for a product (`order_line.filtered(...)[0]`). */
  function FirstLine(lines: seq<PurchaseLine>, po: nat, p: ProductId): (r: Option<nat>)
    ensures r.Some? ==> r.value < |lines| && lines[r.value].order == po && lines[r.value].product == p
    ensures r.None? ==> forall i :: 0 <= i < |lines| ==> !(lines[i].order == po && lines[i].product == p)
  {
    if lines == [] then None
    else if lines[0].order == po && lines[0].product == p then Some(0)
    else match FirstLine(lines[1..], po, p)
      case None => None
      case Some(k) => Some(k + 1)
  }

  /** `purchase.order` and `purchase.order.line`, the tables the action writes. */
  /**
   * What the action may do to the purchase lines: every old line keeps its
   * order, product and received quantity, and only a line of an order in
   * `used` may change its quantity; new lines are unreceived lines of orders
   * in `used`.
   */
  predicate LinesKept(lines0: seq<PurchaseLine>, lines: seq<PurchaseLine>, used: seq<nat>)
  {
    |lines0| <= |lines|
    && (forall i :: 0 <= i < |lines0| ==>
          lines[i].order == lines0[i].order && lines[i].product == lines0[i].product
          && lines[i].received == lines0[i].received
          && (lines[i].qty != lines0[i].qty ==> lines0[i].order in used))
    && (forall i :: |lines0| <= i < |lines| ==> lines[i].received == 0.0 && lines[i].order in used)
  }

  /** Two steps that keep the lines keep them over any orders that include both steps' orders. */
  lemma LinesKeptTrans(a: seq<PurchaseLine>, b: seq<PurchaseLine>, c: seq<PurchaseLine>,
                       u1: seq<nat>, u2: seq<nat>, used: seq<nat>)
    requires LinesKept(a, b, u1) && LinesKept(b, c, u2)
    requires forall po :: po in u1 ==> po in used
    requires forall po :: po in u2 ==> po in used
    ensures LinesKept(a, c, used)
  {
  }

  class PurchaseStore {
    var orders: seq<PurchaseOrder>   // indexed by id
    var lines: seq<PurchaseLine>

    /** Every line belongs to an existing order. */
    predicate Valid()
      reads this
    {
      forall i :: 0 <= i < |lines| ==> lines[i].order < |orders|
    }

    constructor (orders: seq<PurchaseOrder>, lines: seq<PurchaseLine>)
      requires forall i :: 0 <= i < |lines| ==> lines[i].order < |orders|
      ensures Valid() && this.orders == orders && this.lines == lines
    {
      this.orders := orders;
      this.lines := lines;
    }

    /** `create({'partner_id': vendor, 'x_purchase_type': 'customer_order'})`: a new draft order. */
    method CreateOrder(vendor: PartnerId) returns (po: nat)
      requires Valid()
      modifies this
      ensures Valid()
      ensures po == |old(orders)| && orders == old(orders) + [PurchaseOrder(vendor, Draft, ForCustomers)]
      ensures lines == old(lines)
      ensures IsTarget(orders[po], vendor)
    {
      po := |orders|;
      orders := orders + [PurchaseOrder(vendor, Draft, ForCustomers)];
    }

    /**
     * Adds `q` of product `p` to order `po`: onto the order's first line for the
     * product when there is one, as a new line otherwise.
     */
    method AddQuantity(po: nat, p: ProductId, q: real)
      requires Valid() && po < |orders|
      modifies this
      ensures Valid() && orders == old(orders)
      ensures lines == match FirstLine(old(lines), po, p)
        case Some(k) => old(lines)[k := old(lines)[k].(qty := old(lines)[k].qty + q)]
        case None => old(lines) + [PurchaseLine(po, p, q, 0.0)]
      ensures forall po', p' :: QtyOf(lines, po', p') == QtyOf(old(lines), po', p') + (if po' == po && p' == p then q else 0.0)
      ensures LinesKept(old(lines), lines, [po])
    {
      match FirstLine(lines, po, p)
      case Some(k) =>
        forall po', p' ensures QtyOf(lines[k := lines[k].(qty := lines[k].qty + q)], po', p')
                                == QtyOf(lines, po', p') + (if po' == po && p' == p then q else 0.0) {
          QtyOfRaise(lines, k, q, po', p');
        }
        lines := lines[k := lines[k].(qty := lines[k].qty + q)];
      case None =>
        forall po', p' ensures QtyOf(lines + [PurchaseLine(po, p, q, 0.0)], po', p')
                                == QtyOf(lines, po', p') + (if po' == po && p' == p then q else 0.0) {
          QtyOfAppend(lines, PurchaseLine(po, p, q, 0.0), po', p');
        }
        lines := lines + [PurchaseLine(po, p, q, 0.0)];
    }
  }

  // ---- grouping the selection ----

  /** `self.filtered(lambda l: l.status == 'unordered')` */
  function UnorderedRows(rows: seq<Row>): (u: seq<Row>)
    ensures forall r :: r in u <==> r in rows && r.status == Unordered
  {
    if rows == [] then []
    else UnorderedRows(rows[..|rows| - 1])
         + (if rows[|rows| - 1].status == Unordered then [rows[|rows| - 1]] else [])
  }

  /** The vendors of the rows, each once, in order of first appearance (the keys of `vendor_lines`). */
  function VendorsOf(rows: seq<Row>): (vs: seq<PartnerId>)
    ensures forall i, j :: 0 <= i < j < |vs| ==> vs[i] != vs[j]
    ensures forall v :: v in vs <==> exists i :: 0 <= i < |rows| && rows[i].seller == Some(v)
  {
    if rows == [] then []
    else
      var vs := VendorsOf(rows[..|rows| - 1]);
      var r := rows[|rows| - 1];
      assert forall i :: 0 <= i < |rows| - 1 ==> rows[..|rows| - 1][i] == rows[i];
      if r.seller.Some? && r.seller.value !in vs then vs + [r.seller.value] else vs
  }

  /** The rows of one vendor, in selection order (`vendor_lines[vendor]`). */
  function RowsOf(rows: seq<Row>, vendor: PartnerId): (g: seq<Row>)
    ensures forall r :: r in g <==> r in rows && r.seller == Some(vendor)
  {
    if rows == [] then []
    else RowsOf(rows[..|rows| - 1], vendor)
         + (if rows[|rows| - 1].seller == Some(vendor) then [rows[|rows| - 1]] else [])
  }

  /** The products of the rows without a vendor, each once, in order of first appearance (`no_vendor`). */
  function MissingVendor(rows: seq<Row>): (ps: seq<ProductId>)
    ensures forall i, j :: 0 <= i < j < |ps| ==> ps[i] != ps[j]
    ensures forall p :: p in ps <==> exists i :: 0 <= i < |rows| && rows[i].seller.None? && rows[i].product == p
  {
    if rows == [] then []
    else
      var ps := MissingVendor(rows[..|rows| - 1]);
      var r := rows[|rows| - 1];
      assert forall i :: 0 <= i < |rows| - 1 ==> rows[..|rows| - 1][i] == rows[i];
      if r.seller.None? && r.product !in ps then ps + [r.product] else ps
  }

  /** A vendor that no row names has no rows. */
  lemma NoRowsOf(rows: seq<Row>, vendor: PartnerId)
    requires vendor !in VendorsOf(rows)
    ensures RowsOf(rows, vendor) == []
  {
  }

  /** The total still to deliver of one product over some rows. */
  function QtySum(rows: seq<Row>, p: ProductId): real
  {
    if rows == [] then 0.0
    else
      var r := rows[|rows| - 1];
      QtySum(rows[..|rows| - 1], p) + (if r.product == p then r.qtyToDeliver else 0.0)
  }

  /** The loop over the selected lines that sorts them by vendor and collects the products without one. */
  method GroupByVendor(rows: seq<Row>) returns (vendors: seq<PartnerId>, groups: map<PartnerId, seq<Row>>,
                                               missing: seq<ProductId>)
    ensures vendors == VendorsOf(rows) && missing == MissingVendor(rows)
    ensures forall v :: v in groups <==> v in vendors
    ensures forall v :: v in groups ==> groups[v] == RowsOf(rows, v)
  {
    vendors, groups, missing := [], map[], [];
    for i := 0 to |rows|
      invariant vendors == VendorsOf(rows[..i]) && missing == MissingVendor(rows[..i])
      invariant forall v :: v in groups <==> v in vendors
      invariant forall v :: v in groups ==> groups[v] == RowsOf(rows[..i], v)
    {
      assert rows[..i + 1][..i] == rows[..i];
      var r := rows[i];
      if r.seller.None? {
        if r.product !in missing {
          missing := missing + [r.product];
        }
      } else {
        var v := r.seller.value;
        if v !in groups {
          NoRowsOf(rows[..i], v);
          groups := groups[v := []];
          vendors := vendors + [v];
        }
        groups := groups[v := groups[v] + [r]];
      }
    }
    assert rows[..|rows|] == rows;
  }

  /** What the action adds to order `po`'s total for product `p`: the rows of every vendor it served with `po`. */
  function Credit(vendors: seq<PartnerId>, pos: seq<nat>, u: seq<Row>, po: nat, p: ProductId): real
    requires |vendors| == |pos|
  {
    if vendors == [] then 0.0
    else
      var n := |vendors| - 1;
      Credit(vendors[..n], pos[..n], u, po, p) + (if pos[n] == po then QtySum(RowsOf(u, vendors[n]), p) else 0.0)
  }

  /** With one order per vendor, an order's credit is the demand of the single vendor it served, or nothing. */
  lemma {:induction false} CreditOfTouched(vendors: seq<PartnerId>, pos: seq<nat>, u: seq<Row>, k: nat, p: ProductId)
    requires |vendors| == |pos| && k < |pos|
    requires forall i, j :: 0 <= i < j < |pos| ==> pos[i] != pos[j]
    ensures Credit(vendors, pos, u, pos[k], p) == QtySum(RowsOf(u, vendors[k]), p)
  {
    var n := |vendors| - 1;
    if k == n {
      UncreditedOrder(vendors[..n], pos[..n], u, pos[k], p);
    } else {
      CreditOfTouched(vendors[..n], pos[..n], u, k, p);
    }
  }

  /** With distinct orders, each used order gets its vendor's demand and every other order nothing. */
  lemma CreditOfOrders(vendors: seq<PartnerId>, pos: seq<nat>, u: seq<Row>)
    requires |vendors| == |pos|
    requires forall i, j :: 0 <= i < j < |pos| ==> pos[i] != pos[j]
    ensures forall k, p :: 0 <= k < |vendors| ==> Credit(vendors, pos, u, pos[k], p) == QtySum(RowsOf(u, vendors[k]), p)
    ensures forall po, p :: po !in pos ==> Credit(vendors, pos, u, po, p) == 0.0
  {
    forall k, p | 0 <= k < |vendors|
      ensures Credit(vendors, pos, u, pos[k], p) == QtySum(RowsOf(u, vendors[k]), p)
    {
      CreditOfTouched(vendors, pos, u, k, p);
    }
    forall po, p | po !in pos
      ensures Credit(vendors, pos, u, po, p) == 0.0
    {
      UncreditedOrder(vendors, pos, u, po, p);
    }
  }

  /** An order the action did not use gets no credit. */
  lemma {:induction false} UncreditedOrder(vendors: seq<PartnerId>, pos: seq<nat>, u: seq<Row>, po: nat, p: ProductId)
    requires |vendors| == |pos| && po !in pos
    ensures Credit(vendors, pos, u, po, p) == 0.0
  {
    if vendors != [] {
      var n := |vendors| - 1;
      assert pos[n] != po;
      UncreditedOrder(vendors[..n], pos[..n], u, po, p);
    }
  }

  /** The inner loop: adds each row's remaining quantity to order `po`. */
  method AddGroup(store: PurchaseStore, po: nat, group: seq<Row>)
    requires store.Valid() && po < |store.orders|
    modifies store
    ensures store.Valid() && store.orders == old(store.orders)
    ensures forall po', p :: QtyOf(store.lines, po', p)
                             == QtyOf(old(store.lines), po', p) + (if po' == po then QtySum(group, p) else 0.0)
    ensures LinesKept(old(store.lines), store.lines, [po])
  {
    assert group[..0] == [];
    assert forall p :: QtySum(group[..0], p) == 0.0;
    for j := 0 to |group|
      invariant store.Valid() && store.orders == old(store.orders)
      invariant forall po', p :: QtyOf(store.lines, po', p)
                                 == QtyOf(old(store.lines), po', p) + (if po' == po then QtySum(group[..j], p) else 0.0)
      invariant LinesKept(old(store.lines), store.lines, [po])
    {
      assert group[..j + 1][..j] == group[..j];
      ghost var before := store.lines;
      store.AddQuantity(po, group[j].product, group[j].qtyToDeliver);
      LinesKeptTrans(old(store.lines), before, store.lines, [po], [po], [po]);
    }
    assert group[..|group|] == group;
  }

  /** Where the action leaves each vendor's quantities. */
  predicate Served(orders0: seq<PurchaseOrder>, orders: seq<PurchaseOrder>, vendor: PartnerId, po: nat)
  {
    po < |orders| && IsTarget(orders[po], vendor)
    && (LatestTarget(orders0, vendor).Some? ==> po == LatestTarget(orders0, vendor).value)
    && (LatestTarget(orders0, vendor).None? ==> po >= |orders0|)
  }

  /**
   * One vendor's order: its newest draft customer-order purchase, or a new one.
   * `earlier` are the vendors served before, the only partners of the orders
   * created since `orders0`, so the search finds what it would have found in
   * `orders0`.
   */
  method OrderFor(store: PurchaseStore, v: PartnerId, ghost orders0: seq<PurchaseOrder>, ghost earlier: seq<PartnerId>)
    returns (po: nat)
    requires store.Valid() && v !in earlier
    requires |orders0| <= |store.orders| && store.orders[..|orders0|] == orders0
    requires forall i :: |orders0| <= i < |store.orders| ==> store.orders[i].partner in earlier
    modifies store
    ensures store.Valid() && store.lines == old(store.lines)
    ensures Served(orders0, store.orders, v, po)
    ensures store.orders == old(store.orders) || store.orders == old(store.orders) + [PurchaseOrder(v, Draft, ForCustomers)]
    ensures store.orders != old(store.orders) ==> po == |old(store.orders)|
  {
    var added := store.orders[|orders0|..];
    assert store.orders == orders0 + added;
    forall i | 0 <= i < |added|
      ensures added[i].partner != v
    {
      assert store.orders[|orders0| + i].partner in earlier;
    }
    LatestTargetStable(orders0, added, v);
    var found := LatestTarget(store.orders, v);
    if found.Some? {
      po := found.value;
    } else {
      po := store.CreateOrder(v);
    }
  }

  /**
   * Where the loop over the vendors leaves the orders: each vendor served so far
   * (`done`) has its own order in `pos`, the orders there before are kept, and
   * every order added since is a draft customer-order purchase of a served
   * vendor that the loop used.
   */
  predicate OrdersGrown(orders0: seq<PurchaseOrder>, orders: seq<PurchaseOrder>, done: seq<PartnerId>, pos: seq<nat>)
  {
    |pos| == |done|
    && (forall j :: 0 <= j < |done| ==> Served(orders0, orders, done[j], pos[j]))
    && (forall i, j :: 0 <= i < j < |pos| ==> pos[i] != pos[j])
    && |orders0| <= |orders| && orders[..|orders0|] == orders0
    && (forall i :: |orders0| <= i < |orders| ==>
          orders[i].state == Draft && orders[i].purchaseType == ForCustomers
          && orders[i].partner in done && i in pos)
  }

  /** One vendor's turn: its order, found or created, then its rows added to it. */
  method ServeVendor(store: PurchaseStore, v: PartnerId, group: seq<Row>, ghost u: seq<Row>,
                     ghost orders0: seq<PurchaseOrder>, ghost lines0: seq<PurchaseLine>,
                     ghost done: seq<PartnerId>, ghost pos: seq<nat>)
    returns (po: nat)
    requires store.Valid() && v !in done && group == RowsOf(u, v)
    requires OrdersGrown(orders0, store.orders, done, pos)
    requires LinesKept(lines0, store.lines, pos)
    requires forall po', p :: QtyOf(store.lines, po', p) == QtyOf(lines0, po', p) + Credit(done, pos, u, po', p)
    modifies store
    ensures store.Valid()
    ensures OrdersGrown(orders0, store.orders, done + [v], pos + [po])
    ensures LinesKept(lines0, store.lines, pos + [po])
    ensures forall po', p :: QtyOf(store.lines, po', p) == QtyOf(lines0, po', p) + Credit(done + [v], pos + [po], u, po', p)
  {
    po := OrderFor(store, v, orders0, done);
    forall j | 0 <= j < |done|
      ensures pos[j] != po
    {
      assert store.orders[pos[j]].partner == done[j];
    }
    ghost var before := store.lines;
    AddGroup(store, po, group);
    LinesKeptTrans(lines0, before, store.lines, pos, [po], pos + [po]);
    assert (done + [v])[..|done|] == done && (pos + [po])[..|pos|] == pos;
  }

  /**
   * The loop over `vendor_lines`: for each vendor, reuses its newest draft
   * customer-order purchase or creates one, then adds the vendor's rows to it.
   */
  method FillOrders(store: PurchaseStore, vendors: seq<PartnerId>, groups: map<PartnerId, seq<Row>>, u: seq<Row>)
    returns (pos: seq<nat>)
    requires store.Valid()
    requires forall i, j :: 0 <= i < j < |vendors| ==> vendors[i] != vendors[j]
    requires forall v :: v in vendors ==> v in groups && groups[v] == RowsOf(u, v)
    modifies store
    ensures store.Valid()
    ensures OrdersGrown(old(store.orders), store.orders, vendors, pos)
    ensures forall po, p :: QtyOf(store.lines, po, p) == QtyOf(old(store.lines), po, p) + Credit(vendors, pos, u, po, p)
    ensures LinesKept(old(store.lines), store.lines, pos)
  {
    pos := [];
    ghost var orders0 := store.orders;
    for k := 0 to |vendors|
      invariant store.Valid()
      invariant OrdersGrown(orders0, store.orders, vendors[..k], pos)
      invariant forall po, p :: QtyOf(store.lines, po, p) == QtyOf(old(store.lines), po, p) + Credit(vendors[..k], pos, u, po, p)
      invariant LinesKept(old(store.lines), store.lines, pos)
    {
      var v := vendors[k];
      var po := ServeVendor(store, v, groups[v], u, orders0, old(store.lines), vendors[..k], pos);
      assert vendors[..k + 1] == vendors[..k] + [v];
      pos := pos + [po];
    }
    assert vendors[..|vendors|] == vendors;
  }

  // ---- the action ----

  /** The window the action opens: one order's form, or the list of the orders it used. */
  datatype Action = FormView(po: nat) | ListView(pos: seq<nat>)

  /** The `UserError`s the action raises. */
  datatype PoError = NothingUnordered | NoVendor(products: seq<ProductId>)

  /** The orders an action opens. */
  function Opened(a: Action): seq<nat>
  {
    if a.FormView? then [a.po] else a.pos
  }

  /**
   * The action once the rows are known to be good: every vendor's rows go onto
   * its order, and the window shows the single order used, or the list of them.
   */
  method OpenOrders(store: PurchaseStore, vendors: seq<PartnerId>, groups: map<PartnerId, seq<Row>>, u: seq<Row>)
    returns (a: Action)
    requires store.Valid()
    requires forall i, j :: 0 <= i < j < |vendors| ==> vendors[i] != vendors[j]
    requires forall v :: v in vendors ==> v in groups && groups[v] == RowsOf(u, v)
    modifies store
    ensures store.Valid()
    ensures a.FormView? <==> |vendors| == 1
    ensures OrdersGrown(old(store.orders), store.orders, vendors, Opened(a))
    ensures LinesKept(old(store.lines), store.lines, Opened(a))
    ensures forall k, p :: 0 <= k < |vendors| ==>
      QtyOf(store.lines, Opened(a)[k], p) == QtyOf(old(store.lines), Opened(a)[k], p) + QtySum(RowsOf(u, vendors[k]), p)
    ensures forall po, p :: po !in Opened(a) ==> QtyOf(store.lines, po, p) == QtyOf(old(store.lines), po, p)
  {
    var pos := FillOrders(store, vendors, groups, u);
    CreditOfOrders(vendors, pos, u);
    if |pos| == 1 {
      a := FormView(pos[0]);
      assert Opened(a) == pos;
    } else {
      a := ListView(pos);
    }
  }

  /**
   * `action_create_po`. Only the selected rows whose status is unordered count;
   * with none, or with any of them lacking a vendor, it raises before touching
   * a purchase order. Otherwise each vendor's rows go onto that vendor's order,
   * and the window shows the single order used, or the list of them.
   */
  method ActionCreatePo(rows: seq<Row>, store: PurchaseStore) returns (res: Result<Action, PoError>)
    requires store.Valid()
    requires forall i, j :: 0 <= i < j < |rows| ==> rows[i] != rows[j]
    modifies store
    ensures store.Valid()
    ensures UnorderedRows(rows) == [] ==> res == Err(NothingUnordered)
    ensures UnorderedRows(rows) != [] && MissingVendor(UnorderedRows(rows)) != [] ==>
      res == Err(NoVendor(MissingVendor(UnorderedRows(rows))))
    ensures res.Err? ==> store.orders == old(store.orders) && store.lines == old(store.lines)
    ensures res.Ok? ==> UnorderedRows(rows) != [] && MissingVendor(UnorderedRows(rows)) == []
    ensures res.Ok? ==>
      var u := UnorderedRows(rows);
      var vs := VendorsOf(u);
      var pos := Opened(res.value);
      (res.value.FormView? <==> |vs| == 1)
      && OrdersGrown(old(store.orders), store.orders, vs, pos)
      && LinesKept(old(store.lines), store.lines, pos)
      && (forall k, p :: 0 <= k < |vs| ==>
            QtyOf(store.lines, pos[k], p) == QtyOf(old(store.lines), pos[k], p) + QtySum(RowsOf(u, vs[k]), p))
      && (forall po, p :: po !in pos ==> QtyOf(store.lines, po, p) == QtyOf(old(store.lines), po, p))
  {
    var u := UnorderedRows(rows);
    if u == [] {
      return Err(NothingUnordered);
    }
    var vendors, groups, missing := GroupByVendor(u);
    if missing != [] {
      return Err(NoVendor(missing));
    }
    var a := OpenOrders(store, vendors, groups, u);
    res := Ok(a);
  }
}
