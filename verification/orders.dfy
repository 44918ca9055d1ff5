/** The Orders tab ("Dispatch Center"): which action buttons each order
    shows, the status-update request a press sends, and the order list the
    vendor sees once the backend has answered. */
module Orders {
  import opened Wrappers
  import opened Lifecycle

  /** An order as the backend lists it. `status` is the raw string the tab
      compares; amount, location and creation time are only displayed. */
  datatype Order = Order(
    id: int,
    status: string,
    totalAmount: real,
    deliveryLocation: string,
    createdAt: string)

  /** An action button: its visible caption, the prefix of its widget key
      (the key is the prefix followed by the order id), and the status it
      asks the backend to move the order to. */
  datatype Button = Button(caption: string, keyPrefix: string, target: Status)

  const AcceptButton := Button("Accept & Prepare", "prep_", Preparing)
  const ReadyButton := Button("Ready for Pickup", "ready_", ReadyForPickup)
  /** The primary dispatch button; its caption starts with a rocket emoji. */
  const DispatchButton := Button("\U{1F680} DISPATCH CART", "go_", OutForDelivery)
  const SimulateButton := Button("Simulate Delivered", "del_", Delivered)

  /** The third column of an order's row: either action buttons, or the
      status shown as text when no action applies. */
  datatype ActionCell = Buttons(buttons: seq<Button>) | StatusText(text: string)

  /** The set of statuses the buttons of a cell lead to. */
  function TargetsOf(bs: seq<Button>): set<Status> {
    set b | b in bs :: b.target
  }

  /** The action cell of one order: the status branches of the Orders tab. */
  function Cell(o: Order): (c: ActionCell)
    ensures c.Buttons? ==> TargetsOf(c.buttons) == OfferedTargets(Parse(o.status))
    ensures c.StatusText? <==> OfferedTargets(Parse(o.status)) == {}
    ensures c.StatusText? ==> c.text == "Status: " + o.status
    ensures c.Buttons? ==> forall a, b :: 0 <= a < b < |c.buttons| ==>
      c.buttons[a].caption != c.buttons[b].caption && c.buttons[a].keyPrefix != c.buttons[b].keyPrefix
  {
    if o.status == "pending" then Buttons([AcceptButton])
    else if o.status == "preparing" then Buttons([ReadyButton])
    else if o.status == "ready_for_pickup" then Buttons([DispatchButton, SimulateButton])
    else StatusText("Status: " + o.status)
  }

  /** The buttons a cell shows; none for a display-only cell. */
  function ButtonsOf(o: Order): seq<Button> {
    match Cell(o)
    case Buttons(bs) => bs
    case StatusText(_) => []
  }

  /** At `ready_for_pickup` the dispatch and the simulated-delivery buttons
      are always shown together, and nowhere else is either shown. */
  lemma FinalActionsShownTogether(o: Order)
    ensures DispatchButton in ButtonsOf(o) <==> SimulateButton in ButtonsOf(o)
    ensures DispatchButton in ButtonsOf(o) <==> Parse(o.status) == ReadyForPickup
  {
  }

  /** The button of a cell that carries the given caption, if one is shown. */
  function FindButton(bs: seq<Button>, caption: string): (r: Option<Button>)
    ensures r.Some? ==> r.value in bs && r.value.caption == caption
    ensures r.None? ==> forall b :: b in bs ==> b.caption != caption
  {
    if |bs| == 0 then None
    else if bs[0].caption == caption then Some(bs[0])
    else FindButton(bs[1..], caption)
  }

  /** The body of a status update: a single field, `status`. */
  datatype Request = Request(orderId: int, payload: map<string, string>)

  /** What the backend's answer to the PUT turned out to be. A connection
      error is raised out of the update and ends the page run. */
  datatype Reply = HttpStatus(code: int) | ConnectionError

  /** The message the update writes: a success note, the failure note, or
      none because a connection error ended the run. */
  datatype Notice =
    | StatusUpdated(orderId: int, status: string)
    | UpdateFailed
    | RunAborted

  /** What one call of the update produces: the request sent, the order list
      shown afterwards, and the message. */
  datatype UpdateResult = UpdateResult(request: Request, orders: seq<Order>, notice: Notice)

  /** The order list re-fetched after a successful update, assuming the
      backend applied exactly the requested status: every order with the
      updated id carries the new status and nothing else differs. */
  function Refetched(orders: seq<Order>, id: int, status: string): (r: seq<Order>)
    ensures |r| == |orders|
    ensures forall i :: 0 <= i < |r| ==> r[i].id == orders[i].id
    ensures forall i :: 0 <= i < |r| && orders[i].id == id ==> r[i] == orders[i].(status := status)
    ensures forall i :: 0 <= i < |r| && orders[i].id != id ==> r[i] == orders[i]
  {
    if |orders| == 0 then []
    else
      var head := if orders[0].id == id then orders[0].(status := status) else orders[0];
      [head] + Refetched(orders[1..], id, status)
  }

  /** Sending the same update twice shows the same list as sending it once. */
  lemma RefetchedIdempotent(orders: seq<Order>, id: int, status: string)
    ensures Refetched(Refetched(orders, id, status), id, status) == Refetched(orders, id, status)
  {
  }

  /** `update_order_status`: sends the target as the only payload field; the
      view changes only on a 200 answer. */
  function UpdateOrderStatus(orders: seq<Order>, orderId: int, target: Status, reply: Reply): (r: UpdateResult)
    ensures r.request.orderId == orderId
    ensures r.request.payload.Keys == {"status"}
    ensures WellFormed(target) ==> Parse(r.request.payload["status"]) == target
    ensures reply != HttpStatus(200) ==> r.orders == orders && !r.notice.StatusUpdated?
    ensures reply.HttpStatus? && reply.code != 200 ==> r.notice == UpdateFailed
    ensures reply.ConnectionError? ==> r.notice == RunAborted
    ensures reply == HttpStatus(200) ==> r.notice == StatusUpdated(orderId, Name(target))
    ensures reply == HttpStatus(200) ==>
      |r.orders| == |orders|
      && (forall i :: 0 <= i < |orders| && orders[i].id == orderId ==>
            r.orders[i] == orders[i].(status := r.request.payload["status"]))
      && (forall i :: 0 <= i < |orders| && orders[i].id != orderId ==> r.orders[i] == orders[i])
  {
    var request := Request(orderId, map["status" := Name(target)]);
    match reply
    case ConnectionError => UpdateResult(request, orders, RunAborted)
    case HttpStatus(code) =>
      if code == 200 then
        UpdateResult(request, Refetched(orders, orderId, Name(target)), StatusUpdated(orderId, Name(target)))
      else
        UpdateResult(request, orders, UpdateFailed)
  }

  /** What pressing a button in one order's row did: nothing (no
      such button is shown there) or one update. */
  datatype ClickResult = NoAction | Sent(update: UpdateResult)

  /** The vendor presses the button captioned `caption` in the row of
      `orders[i]`, and the backend answers with `reply`. */
  function Click(orders: seq<Order>, i: int, caption: string, reply: Reply): (r: ClickResult)
    requires 0 <= i < |orders|
    ensures r.Sent? <==> exists b :: b in ButtonsOf(orders[i]) && b.caption == caption
    ensures r.Sent? ==>
      && r.update.request.orderId == orders[i].id
      && r.update.request.payload.Keys == {"status"}
      && (Parse(orders[i].status), Parse(r.update.request.payload["status"])) in Table
    ensures r.Sent? ==>
      exists b :: b in ButtonsOf(orders[i]) && b.caption == caption
        && r.update.request.payload == map["status" := Name(b.target)]
  {
    match FindButton(ButtonsOf(orders[i]), caption)
    case None => NoAction
    case Some(b) => Sent(UpdateOrderStatus(orders, orders[i].id, b.target, reply))
  }

  /** At `ready_for_pickup` the fork is decided by the button pressed: the
      dispatch button asks for `out_for_delivery`, the simulation button for
      `delivered`, and no other caption sends anything. */
  lemma ReadyForPickupFork(orders: seq<Order>, i: int, caption: string, reply: Reply)
    requires 0 <= i < |orders| && orders[i].status == "ready_for_pickup"
    ensures var r := Click(orders, i, caption, reply);
      && (caption == "\U{1F680} DISPATCH CART" ==>
            r.Sent? && r.update.request.payload == map["status" := "out_for_delivery"])
      && (caption == "Simulate Delivered" ==>
            r.Sent? && r.update.request.payload == map["status" := "delivered"])
      && (r.Sent? ==> caption == "\U{1F680} DISPATCH CART" || caption == "Simulate Delivered")
  {
  }

  /** The caption table of the Orders tab: which caption sends a request
      from which status, and the single-field payload each one sends. */
  lemma CaptionsSend(orders: seq<Order>, i: int, caption: string, reply: Reply)
    requires 0 <= i < |orders|
    ensures var st := orders[i].status;
      Click(orders, i, caption, reply).Sent? <==>
        || (st == "pending" && caption == "Accept & Prepare")
        || (st == "preparing" && caption == "Ready for Pickup")
        || (st == "ready_for_pickup"
            && (caption == "\U{1F680} DISPATCH CART" || caption == "Simulate Delivered"))
    ensures var r := Click(orders, i, caption, reply);
      && (r.Sent? && orders[i].status == "pending" ==>
            r.update.request.payload == map["status" := "preparing"])
      && (r.Sent? && orders[i].status == "preparing" ==>
            r.update.request.payload == map["status" := "ready_for_pickup"])
      && (r.Sent? && caption == "\U{1F680} DISPATCH CART" ==>
            r.update.request.payload == map["status" := "out_for_delivery"])
      && (r.Sent? && caption == "Simulate Delivered" ==>
            r.update.request.payload == map["status" := "delivered"])
  {
  }

  /** The order list the vendor sees after a click. */
  function After(orders: seq<Order>, r: ClickResult): seq<Order> {
    if r.Sent? then r.update.orders else orders
  }

  /** Backend order ids are distinct. */
  predicate UniqueIds(orders: seq<Order>) {
    forall a, b :: 0 <= a < b < |orders| ==> orders[a].id != orders[b].id
  }

  /** A failed update, or a press on a caption the row does not show, leaves
      the whole order list as it was. */
  lemma FailedClickChangesNothing(orders: seq<Order>, i: int, caption: string, reply: Reply)
    requires 0 <= i < |orders|
    requires reply != HttpStatus(200) || forall b :: b in ButtonsOf(orders[i]) ==> b.caption != caption
    ensures After(orders, Click(orders, i, caption, reply)) == orders
  {
  }

  /** A successful click moves exactly the clicked order, to a status the
      table allows from its current one and strictly later in the lifecycle;
      every other order is unchanged. */
  lemma ClickMovesOnlyTheClickedOrder(orders: seq<Order>, i: int, caption: string)
    requires 0 <= i < |orders|
    requires UniqueIds(orders)
    ensures var after := After(orders, Click(orders, i, caption, HttpStatus(200)));
      && |after| == |orders|
      && (forall j :: 0 <= j < |orders| && j != i ==> after[j] == orders[j])
      && after[i].id == orders[i].id
      && (after[i] == orders[i] <==> Click(orders, i, caption, HttpStatus(200)).NoAction?)
      && (after[i] != orders[i] ==>
            && after[i] == orders[i].(status := after[i].status)
            && (Parse(orders[i].status), Parse(after[i].status)) in Table
            && Rank(Parse(orders[i].status)) < Rank(Parse(after[i].status)))
  {
    var r := Click(orders, i, caption, HttpStatus(200));
    if r.Sent? {
      var b := FindButton(ButtonsOf(orders[i]), caption).value;
      assert b in ButtonsOf(orders[i]);
      assert b.target in OfferedTargets(Parse(orders[i].status));
      OfferedIsForward(Parse(orders[i].status), b.target);
      var after := r.update.orders;
      forall j | 0 <= j < |orders| && j != i
        ensures after[j] == orders[j]
      {
        assert orders[j].id != orders[i].id;
      }
      assert after[i] == orders[i].(status := Name(b.target));
      assert Parse(after[i].status) == b.target;
      assert after[i].status != orders[i].status;
    }
  }

  /** Scenario: order 42, pending; the vendor accepts and the backend
      answers 200; the order is now shown as preparing. */
  lemma AcceptPendingOrder()
    ensures var o := Order(42, "pending", 12.5, "Gate 3", "2024-01-01");
      var r := Click([o], 0, "Accept & Prepare", HttpStatus(200));
      r.Sent? && r.update.request == Request(42, map["status" := "preparing"])
      && After([o], r) == [o.(status := "preparing")]
      && r.update.notice == StatusUpdated(42, "preparing")
  {
  }

  /** Scenario: order 42, ready for pickup; the vendor dispatches and the
      backend answers 500; the order stays ready for pickup and the failure
      message is shown. */
  lemma DispatchRejected()
    ensures var o := Order(42, "ready_for_pickup", 12.5, "Gate 3", "2024-01-01");
      var r := Click([o], 0, "\U{1F680} DISPATCH CART", HttpStatus(500));
      r.Sent? && r.update.request == Request(42, map["status" := "out_for_delivery"])
      && After([o], r) == [o]
      && r.update.notice == UpdateFailed
  {
  }
}
