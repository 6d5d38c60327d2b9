/** PaymentPagSeguroController.PaymentReturn: the gateway calls it with a notification
    code; the handler exchanges the code for the authoritative transaction, finds the order
    the transaction refers to, and applies the transaction status to that order.

    The order-processing and messaging services are not modelled; the calls made on them
    are recorded, in order, in the controller's ghost `calls` log. */
module Reconciler {
  import opened Common
  import opened Text
  import opened Domain
  import opened DeliveryEstimate
  import opened OrderResolver

  /** What the handler reads of the gateway's transaction record. */
  datatype Transaction = Transaction(reference: Option<string>, transactionStatus: int, paymentMethodType: int)

  /** PagSeguroServiceException: the gateway refused the code or could not be reached. */
  datatype GatewayError = GatewayError(message: string, errors: seq<string>)

  /** The calls the handler makes on the services around it. */
  datatype Event =
    | CheckTransaction(code: string)
    | LookupOrder(key: Reference)
    | UpdateOrder(orderId: int)
    | MarkAsAuthorized(orderId: int)
    | MarkOrderAsPaid(orderId: int)
    | CancelOrder(orderId: int, notifyCustomer: bool)
    | NoteAddedCustomerNotification(orderId: int, note: OrderNote)

  /** The label written in the "Forma de pagamento" note; PaymentMethodType 6 and any
      unknown type get the empty label. */
  function GetPaymentDescription(paymentMethodType: int): (r: string)
    ensures r == "" <==> paymentMethodType !in {1, 2, 3, 4, 5, 7}
  {
    match paymentMethodType
    case 1 => "Cartão de crédito"
    case 2 => "Boleto"
    case 3 => "Débito online (TEF)"
    case 4 => "Saldo PagSeguro"
    case 5 => "Oi Paggo"
    case 7 => "Depósito em conta"
    case _ => ""
  }

  /** Distinct known payment methods get distinct labels. */
  lemma PaymentDescriptionsDistinct(a: int, b: int)
    requires a in {1, 2, 3, 4, 5, 7} && b in {1, 2, 3, 4, 5, 7} && a != b
    ensures GetPaymentDescription(a) != GetPaymentDescription(b)
  {
  }

  function MethodNote(methodName: string): NoteText {
    Plain("Forma de pagamento: " + methodName + ".")
  }

  const AwaitingPaymentNote: string := "Aguardando pagamento."
  const InAnalysisNote: string := "Em processamento pelo PagSeguro."
  const ApprovedNote: string := "Pagamento aprovado."
  const AwaitingPrintNote: string := "Aguardando Impressão - Excluir esse comentário ao imprimir "
  const AvailableNote: string := "Pagamento disponível para saque no PagSeguro."
  const DisputeNote: string := "Em disputa: o comprador, dentro do prazo de liberação da transação, abriu uma disputa."
  const RefundedNote: string := "Valor reembolsado para o comprador. Pedido Cancelado."
  const CancelledNote: string := "Transação Cancelada. Motivos: Expiração do prazo de pagamento ou cancelada pelo comprador."

  /** The part of an order the handler changes. */
  datatype OrderState = OrderState(paymentStatus: PaymentStatus, orderStatus: OrderStatus, notes: seq<OrderNote>)

  /** An order state, the log of service calls (those made before the switch included),
      and whether the handler got to the end without an exception. */
  datatype Step = Step(state: OrderState, calls: seq<Event>, completed: bool)

  /** What the switch reads besides the order's state and the log: the order's id, items
      and shipping method, the payment-method label, the AdicionarNotaPrazoFabricaoEnvio setting, the clock
      reading every note gets, and the day number the shipment deadline is counted from. */
  datatype Context = Context(orderId: int, items: seq<OrderItem>, shippingMethod: Option<string>, methodName: string,
                             addShipmentNote: bool, utcNow: int, today: int)

  /** The service calls AddOrderNote makes: UpdateOrder, then the customer e-mail when asked. */
  function NoteCalls(orderId: int, note: OrderNote, sendEmail: bool): (r: seq<Event>)
    ensures |r| >= 1 && r[0] == UpdateOrder(orderId)
    ensures sendEmail <==> |r| == 2
    ensures sendEmail ==> r[1] == NoteAddedCustomerNotification(orderId, note)
  {
    [UpdateOrder(orderId)] + if sendEmail then [NoteAddedCustomerNotification(orderId, note)] else []
  }

  /** AddOrderNote applied to a step. */
  function WithNote(s: Step, ctx: Context, text: NoteText, showNoteToCustomer: bool, sendEmail: bool): Step {
    var note := OrderNote(text, showNoteToCustomer, ctx.utcNow);
    Step(s.state.(notes := s.state.notes + [note]), s.calls + NoteCalls(ctx.orderId, note, sendEmail), s.completed)
  }

  /** Statuses 1 and 2: the payment goes back to Pending, then the status note and the
      payment-method note. */
  function PendingStep(st: OrderState, log: seq<Event>, ctx: Context, statusNote: string): Step {
    var s := Step(st.(paymentStatus := PaymentStatus.Pending), log, true);
    WithNote(WithNote(s, ctx, Plain(statusNote), true, false), ctx, MethodNote(ctx.methodName), true, false)
  }

  /** Status 3: MarkAsAuthorized, three notes, and the optional shipment note. */
  function AuthorizedStep(st: OrderState, log: seq<Event>, ctx: Context): Step {
    var s := Step(st.(paymentStatus := Authorized), log + [MarkAsAuthorized(ctx.orderId)], true);
    var s1 := WithNote(s, ctx, Plain(ApprovedNote), true, false);
    var s2 := WithNote(s1, ctx, MethodNote(ctx.methodName), true, false);
    var s3 := WithNote(s2, ctx, Plain(AwaitingPrintNote), false, false);
    if !ctx.addShipmentNote then s3
    else match ReceivedPaymentNote(ctx.items, ctx.shippingMethod, ctx.today)
      case Err(_) => s3.(completed := false)
      case Ok(text) => WithNote(s3, ctx, text, true, true)
  }

  /** Status 4: MarkOrderAsPaid and a hidden note. */
  function AvailableStep(st: OrderState, log: seq<Event>, ctx: Context): Step {
    WithNote(Step(st, log + [MarkOrderAsPaid(ctx.orderId)], true), ctx, Plain(AvailableNote), false, false)
  }

  /** Status 5: the payment is Voided, the order saved, and an e-mailed note added. */
  function DisputeStep(st: OrderState, log: seq<Event>, ctx: Context): Step {
    var s := Step(st.(paymentStatus := Voided), log + [UpdateOrder(ctx.orderId)], true);
    WithNote(s, ctx, Plain(DisputeNote), true, true)
  }

  /** Status 6: Refunded and Cancelled, CancelOrder, and an e-mailed note. */
  function ReturnedStep(st: OrderState, log: seq<Event>, ctx: Context): Step {
    var s := Step(st.(paymentStatus := Refunded, orderStatus := Cancelled), log + [CancelOrder(ctx.orderId, true)], true);
    WithNote(s, ctx, Plain(RefundedNote), true, true)
  }

  /** Status 7: Voided and Cancelled, CancelOrder, and a note that is not e-mailed. */
  function CancelledStep(st: OrderState, log: seq<Event>, ctx: Context): Step {
    var s := Step(st.(paymentStatus := Voided, orderStatus := Cancelled), log + [CancelOrder(ctx.orderId, true)], true);
    WithNote(s, ctx, Plain(CancelledNote), true, false)
  }

  /** The switch on TransactionStatus, applied to an order's state and the call log. */
  function Transition(st: OrderState, log: seq<Event>, transactionStatus: int, ctx: Context): (r: Step)
    ensures !r.completed <==>
      transactionStatus == 3 && ctx.addShipmentNote && ReceivedPaymentNote(ctx.items, ctx.shippingMethod, ctx.today).Err?
    ensures transactionStatus !in {1, 2, 3, 4, 5, 6, 7} ==> r == Step(st, log, true)
  {
    match transactionStatus
    case 1 => PendingStep(st, log, ctx, AwaitingPaymentNote)
    case 2 => PendingStep(st, log, ctx, InAnalysisNote)
    case 3 => AuthorizedStep(st, log, ctx)
    case 4 => AvailableStep(st, log, ctx)
    case 5 => DisputeStep(st, log, ctx)
    case 6 => ReturnedStep(st, log, ctx)
    case 7 => CancelledStep(st, log, ctx)
    case _ => Step(st, log, true)
  }

  /** Statuses 1 (awaiting payment) and 2 (in analysis): the payment goes back to Pending and
      two visible notes are added, the status and then the payment method; no e-mail. */
  lemma AwaitingPaymentIsPending(st: OrderState, log: seq<Event>, transactionStatus: int, ctx: Context)
    requires transactionStatus == 1 || transactionStatus == 2
    ensures var r := Transition(st, log, transactionStatus, ctx);
      && r.completed
      && r.state.paymentStatus == PaymentStatus.Pending
      && r.state.orderStatus == st.orderStatus
      && r.state.notes == st.notes + [
           OrderNote(Plain(if transactionStatus == 1 then AwaitingPaymentNote else InAnalysisNote), true, ctx.utcNow),
           OrderNote(MethodNote(ctx.methodName), true, ctx.utcNow)]
      && r.calls == log + [UpdateOrder(ctx.orderId), UpdateOrder(ctx.orderId)]
  {
  }

  /** Status 3 (paid): the payment becomes Authorized whatever it was before, three notes
      are added (the last one hidden from the customer), and, when the shipment note is
      configured and can be composed, a fourth visible note that is also e-mailed. */
  lemma PaidIsAuthorized(st: OrderState, log: seq<Event>, ctx: Context)
    ensures var r := Transition(st, log, 3, ctx);
      var fixed := [OrderNote(Plain(ApprovedNote), true, ctx.utcNow), OrderNote(MethodNote(ctx.methodName), true, ctx.utcNow),
                    OrderNote(Plain(AwaitingPrintNote), false, ctx.utcNow)];
      var authorized := log + [MarkAsAuthorized(ctx.orderId), UpdateOrder(ctx.orderId), UpdateOrder(ctx.orderId), UpdateOrder(ctx.orderId)];
      && r.state.paymentStatus == Authorized
      && r.state.orderStatus == st.orderStatus
      && (!ctx.addShipmentNote ==> r.completed && r.state.notes == st.notes + fixed && r.calls == authorized)
      && (ctx.addShipmentNote && ReceivedPaymentNote(ctx.items, ctx.shippingMethod, ctx.today).Err? ==>
            !r.completed && r.state.notes == st.notes + fixed && r.calls == authorized)
      && (ctx.addShipmentNote && ReceivedPaymentNote(ctx.items, ctx.shippingMethod, ctx.today).Ok? ==>
            var shipment := OrderNote(ReceivedPaymentNote(ctx.items, ctx.shippingMethod, ctx.today).value, true, ctx.utcNow);
            r.completed && r.state.notes == st.notes + fixed + [shipment]
            && r.calls == authorized + [UpdateOrder(ctx.orderId), NoteAddedCustomerNotification(ctx.orderId, shipment)])
  {
  }

  /** Nothing guards status 3 against the order's current state: a refunded, cancelled order
      is authorized again and stays cancelled. */
  lemma PaidReauthorizesCancelledOrder(st: OrderState, log: seq<Event>, ctx: Context)
    requires st.paymentStatus == Refunded && st.orderStatus == Cancelled
    ensures var r := Transition(st, log, 3, ctx);
      r.state.paymentStatus == Authorized && r.state.orderStatus == Cancelled
  {
    PaidIsAuthorized(st, log, ctx);
  }

  /** Status 4 (available): the handler itself changes no status; it asks the order service
      to mark the order paid and adds one note hidden from the customer. */
  lemma AvailableMarksPaid(st: OrderState, log: seq<Event>, ctx: Context)
    ensures var r := Transition(st, log, 4, ctx);
      && r.completed
      && r.state.paymentStatus == st.paymentStatus && r.state.orderStatus == st.orderStatus
      && r.state.notes == st.notes + [OrderNote(Plain(AvailableNote), false, ctx.utcNow)]
      && r.calls == log + [MarkOrderAsPaid(ctx.orderId), UpdateOrder(ctx.orderId)]
  {
  }

  /** Status 5 (in dispute): the payment is Voided, the order is kept open, and the customer
      is told by a visible, e-mailed note. */
  lemma DisputeVoidsPayment(st: OrderState, log: seq<Event>, ctx: Context)
    ensures var r := Transition(st, log, 5, ctx);
      var note := OrderNote(Plain(DisputeNote), true, ctx.utcNow);
      && r.completed
      && r.state.paymentStatus == Voided && r.state.orderStatus == st.orderStatus
      && r.state.notes == st.notes + [note]
      && r.calls == log + [UpdateOrder(ctx.orderId), UpdateOrder(ctx.orderId), NoteAddedCustomerNotification(ctx.orderId, note)]
  {
  }

  /** Status 6 (returned): the payment is Refunded, the order Cancelled through the order
      service with customer notification, and a visible note is e-mailed. */
  lemma ReturnedRefundsAndCancels(st: OrderState, log: seq<Event>, ctx: Context)
    ensures var r := Transition(st, log, 6, ctx);
      var note := OrderNote(Plain(RefundedNote), true, ctx.utcNow);
      && r.completed
      && r.state.paymentStatus == Refunded && r.state.orderStatus == Cancelled
      && r.state.notes == st.notes + [note]
      && r.calls == log + [CancelOrder(ctx.orderId, true), UpdateOrder(ctx.orderId), NoteAddedCustomerNotification(ctx.orderId, note)]
  {
  }

  /** Status 7 (cancelled): the payment is Voided and the order Cancelled; the visible note is
      not e-mailed. */
  lemma CancelledVoidsAndCancels(st: OrderState, log: seq<Event>, ctx: Context)
    ensures var r := Transition(st, log, 7, ctx);
      && r.completed
      && r.state.paymentStatus == Voided && r.state.orderStatus == Cancelled
      && r.state.notes == st.notes + [OrderNote(Plain(CancelledNote), true, ctx.utcNow)]
      && r.calls == log + [CancelOrder(ctx.orderId, true), UpdateOrder(ctx.orderId)]
  {
  }

  /** The calls the switch adds to the log, and the notes it adds to the order, for one
      status. */
  lemma TransitionCases(st: OrderState, log: seq<Event>, transactionStatus: int, ctx: Context)
    requires 1 <= transactionStatus <= 7
    ensures var r := Transition(st, log, transactionStatus, ctx);
      log <= r.calls && st.notes <= r.state.notes && |r.state.notes| > |st.notes|
  {
    match transactionStatus
    case 1 => AwaitingPaymentIsPending(st, log, 1, ctx);
    case 2 => AwaitingPaymentIsPending(st, log, 2, ctx);
    case 3 => PaidIsAuthorized(st, log, ctx);
    case 4 => AvailableMarksPaid(st, log, ctx);
    case 5 => DisputeVoidsPayment(st, log, ctx);
    case 6 => ReturnedRefundsAndCancels(st, log, ctx);
    case 7 => CancelledVoidsAndCancels(st, log, ctx);
  }

  /** A notification delivered twice leaves the statuses as one delivery does, but adds
      its notes a second time. */
  lemma {:induction false} RedeliverySameStatusMoreNotes(st: OrderState, log: seq<Event>, transactionStatus: int, ctx: Context)
    requires 1 <= transactionStatus <= 7
    ensures var once := Transition(st, log, transactionStatus, ctx);
      var twice := Transition(once.state, once.calls, transactionStatus, ctx);
      && twice.state.paymentStatus == once.state.paymentStatus
      && twice.state.orderStatus == once.state.orderStatus
      && |twice.state.notes| - |once.state.notes| == |once.state.notes| - |st.notes| > 0
  {
    var once := Transition(st, log, transactionStatus, ctx);
    match transactionStatus
    case 1 =>
      AwaitingPaymentIsPending(st, log, 1, ctx);
      AwaitingPaymentIsPending(once.state, once.calls, 1, ctx);
    case 2 =>
      AwaitingPaymentIsPending(st, log, 2, ctx);
      AwaitingPaymentIsPending(once.state, once.calls, 2, ctx);
    case 3 =>
      PaidIsAuthorized(st, log, ctx);
      PaidIsAuthorized(once.state, once.calls, ctx);
    case 4 =>
      AvailableMarksPaid(st, log, ctx);
      AvailableMarksPaid(once.state, once.calls, ctx);
    case 5 =>
      DisputeVoidsPayment(st, log, ctx);
      DisputeVoidsPayment(once.state, once.calls, ctx);
    case 6 =>
      ReturnedRefundsAndCancels(st, log, ctx);
      ReturnedRefundsAndCancels(once.state, once.calls, ctx);
    case 7 =>
      CancelledVoidsAndCancels(st, log, ctx);
      CancelledVoidsAndCancels(once.state, once.calls, ctx);
  }

  /** Notes are only ever appended, each stamped with the request's clock reading; the log
      only grows; and only statuses 6 and 7 touch the order status. */
  lemma NotesAppendedAndStamped(st: OrderState, log: seq<Event>, transactionStatus: int, ctx: Context)
    ensures var r := Transition(st, log, transactionStatus, ctx);
      && st.notes <= r.state.notes
      && log <= r.calls
      && (forall k :: |st.notes| <= k < |r.state.notes| ==> r.state.notes[k].createdOnUtc == ctx.utcNow)
      && (transactionStatus !in {6, 7} ==> r.state.orderStatus == st.orderStatus)
  {
    match transactionStatus
    case 1 => AwaitingPaymentIsPending(st, log, 1, ctx);
    case 2 => AwaitingPaymentIsPending(st, log, 2, ctx);
    case 3 => PaidIsAuthorized(st, log, ctx);
    case 4 => AvailableMarksPaid(st, log, ctx);
    case 5 => DisputeVoidsPayment(st, log, ctx);
    case 6 => ReturnedRefundsAndCancels(st, log, ctx);
    case 7 => CancelledVoidsAndCancels(st, log, ctx);
    case _ =>
  }

  /** Every e-mailed note is among the notes added in the step, and is shown to the customer. */
  ghost predicate EmailsShowAddedNotes(before: OrderState, log: seq<Event>, s: Step) {
    |before.notes| <= |s.state.notes| &&
    forall k :: |log| <= k < |s.calls| && s.calls[k].NoteAddedCustomerNotification? ==>
      s.calls[k].note.displayToCustomer && s.calls[k].note in s.state.notes[|before.notes|..]
  }

  /** Every e-mail the handler sends carries a note it has just added and that the
      customer can see. */
  lemma EmailedNotesAreAddedAndVisible(st: OrderState, log: seq<Event>, transactionStatus: int, ctx: Context)
    ensures EmailsShowAddedNotes(st, log, Transition(st, log, transactionStatus, ctx))
  {
    var r := Transition(st, log, transactionStatus, ctx);
    match transactionStatus
    case 1 => AwaitingPaymentIsPending(st, log, 1, ctx);
    case 2 => AwaitingPaymentIsPending(st, log, 2, ctx);
    case 3 =>
      PaidIsAuthorized(st, log, ctx);
      if ctx.addShipmentNote && ReceivedPaymentNote(ctx.items, ctx.shippingMethod, ctx.today).Ok? {
        assert r.state.notes[|st.notes|..][3] == r.state.notes[|st.notes| + 3];
      }
    case 4 => AvailableMarksPaid(st, log, ctx);
    case 5 =>
      DisputeVoidsPayment(st, log, ctx);
      assert r.state.notes[|st.notes|..][0] == r.state.notes[|st.notes|];
    case 6 =>
      ReturnedRefundsAndCancels(st, log, ctx);
      assert r.state.notes[|st.notes|..][0] == r.state.notes[|st.notes|];
    case 7 => CancelledVoidsAndCancels(st, log, ctx);
    case _ =>
  }

  /** The code as the gateway client receives it: trimmed and upper-cased. */
  function NormaliseCode(code: string): (r: string)
    ensures |r| <= |code|
    ensures r == [] <==> IsBlank(code)
  {
    ToUpperAscii(Trim(code))
  }

  /** The outcome of the checks before an order is found: the calls made so far, and, when
      the transaction could be verified and its reference read, the lookup key. */
  datatype Admission =
    | Rejected(calls: seq<Event>)
    | Admitted(calls: seq<Event>, key: Reference, transaction: Transaction)

  /** The first half of PaymentReturn: an absent or empty code is refused without calling
      the gateway; a code the gateway refuses, or a transaction whose reference does not
      parse, is refused after that one call; otherwise the order is looked up by the key
      the reference gives. */
  function Admit(notificationCode: Option<string>, verify: string -> Result<Transaction, GatewayError>): Admission
  {
    match notificationCode
    case None => Rejected([])
    case Some(code) =>
      if code == [] then Rejected([])
      else
        var normalised := NormaliseCode(code);
        var checked := [CheckTransaction(normalised)];
        match verify(normalised)
        case Err(_) => Rejected(checked)
        case Ok(transaction) =>
          match ResolveReference(transaction.reference)
          case Err(_) => Rejected(checked)
          case Ok(key) => Admitted(checked + [LookupOrder(key)], key, transaction)
  }

  /** What Admit promises: no gateway call without a code; exactly one gateway call,
      made with the normalised code, otherwise; and an order lookup exactly when the
      gateway returned a transaction whose reference parses. */
  lemma AdmitOutcomes(notificationCode: Option<string>, verify: string -> Result<Transaction, GatewayError>)
    ensures var r := Admit(notificationCode, verify);
      notificationCode.None? || notificationCode.value == [] <==> r.calls == []
    ensures var r := Admit(notificationCode, verify);
      r.calls != [] ==> r.calls[0] == CheckTransaction(NormaliseCode(notificationCode.value))
    ensures var r := Admit(notificationCode, verify);
      r.Rejected? && r.calls != [] ==> |r.calls| == 1
    ensures var r := Admit(notificationCode, verify);
      r.Admitted? <==>
        && notificationCode.Some? && notificationCode.value != []
        && verify(NormaliseCode(notificationCode.value)).Ok?
        && ResolveReference(verify(NormaliseCode(notificationCode.value)).value.reference).Ok?
    ensures var r := Admit(notificationCode, verify);
      r.Admitted? ==>
        && r.transaction == verify(NormaliseCode(notificationCode.value)).value
        && ResolveReference(r.transaction.reference) == Ok(r.key)
        && r.calls == [CheckTransaction(NormaliseCode(notificationCode.value)), LookupOrder(r.key)]
  {
    match notificationCode
    case None =>
    case Some(code) =>
      if code != [] {
        var normalised := NormaliseCode(code);
        match verify(normalised)
        case Err(_) =>
        case Ok(transaction) =>
          match ResolveReference(transaction.reference)
          case Err(_) =>
          case Ok(key) =>
            assert [CheckTransaction(normalised)] + [LookupOrder(key)] == [CheckTransaction(normalised), LookupOrder(key)];
      }
  }

  /** The store's order: identity and items are fixed, statuses and notes change. */
  class Order {
    const id: int
    const orderGuid: Guid
    const items: seq<OrderItem>
    const shippingMethod: Option<string>
    var paymentStatus: PaymentStatus
    var orderStatus: OrderStatus
    var notes: seq<OrderNote>

    constructor (id: int, orderGuid: Guid, items: seq<OrderItem>, shippingMethod: Option<string>, state: OrderState)
      ensures this.id == id && this.orderGuid == orderGuid && this.items == items
      ensures this.shippingMethod == shippingMethod
      ensures State() == state
    {
      this.id := id;
      this.orderGuid := orderGuid;
      this.items := items;
      this.shippingMethod := shippingMethod;
      paymentStatus := state.paymentStatus;
      orderStatus := state.orderStatus;
      notes := state.notes;
    }

    function State(): OrderState
      reads this
    {
      OrderState(paymentStatus, orderStatus, notes)
    }
  }

  predicate Matches(order: Order, key: Reference) {
    match key
    case ByGuid(g) => order.orderGuid == g
    case ById(n) => order.id == n
  }

  /** GetOrderByGuid / GetOrderById: the first order with that GUID or id, if any. */
  function FindOrder(orders: seq<Order>, key: Reference): (r: Option<Order>)
    ensures r.None? <==> forall k :: 0 <= k < |orders| ==> !Matches(orders[k], key)
    ensures r.Some? ==> exists k :: (0 <= k < |orders| && orders[k] == r.value && Matches(r.value, key)
      && forall j :: 0 <= j < k ==> !Matches(orders[j], key))
  {
    if orders == [] then None
    else if Matches(orders[0], key) then Some(orders[0])
    else
      var r := FindOrder(orders[1..], key);
      assert forall k :: 1 <= k < |orders| ==> orders[k] == orders[1..][k - 1];
      r
  }

  class PaymentPagSeguroController {
    /** The order store. */
    const orders: seq<Order>
    /** The AdicionarNotaPrazoFabricaoEnvio setting. */
    const addShipmentNote: bool
    /** The calls made on the gateway, the order service and the messaging service. */
    ghost var calls: seq<Event>

    constructor (orders: seq<Order>, addShipmentNote: bool)
      ensures this.orders == orders && this.addShipmentNote == addShipmentNote && calls == []
    {
      this.orders := orders;
      this.addShipmentNote := addShipmentNote;
      calls := [];
    }

    /** Appends a note stamped with `utcNow`, saves the order, and e-mails the customer
        when `sendEmail` is set. */
    method AddOrderNote(note: NoteText, showNoteToCustomer: bool, order: Order, sendEmail: bool, utcNow: int)
      modifies order`notes, this`calls
      ensures order.notes == old(order.notes) + [OrderNote(note, showNoteToCustomer, utcNow)]
      ensures calls == old(calls) + NoteCalls(order.id, OrderNote(note, showNoteToCustomer, utcNow), sendEmail)
    {
      var orderNote := OrderNote(note, showNoteToCustomer, utcNow);
      order.notes := order.notes + [orderNote];
      calls := calls + [UpdateOrder(order.id)];
      if sendEmail {
        calls := calls + [NoteAddedCustomerNotification(order.id, orderNote)];
      }
    }

    /** The switch on the transaction status. Returns false when composing the shipment
        note throws, which ends the request with HTTP 500 after the first three notes. */
    method ApplyTransactionStatus(order: Order, transactionStatus: int, methodName: string, utcNow: int, today: int)
      returns (completed: bool)
      modifies order, this`calls
      ensures var r := Transition(old(order.State()), old(calls), transactionStatus,
                                  Context(order.id, order.items, order.shippingMethod, methodName, addShipmentNote, utcNow, today));
        order.State() == r.state && calls == r.calls && completed == r.completed
    {
      completed := true;
      match transactionStatus
      case 1 =>
        order.paymentStatus := PaymentStatus.Pending;
        AddOrderNote(Plain(AwaitingPaymentNote), true, order, false, utcNow);
        AddOrderNote(MethodNote(methodName), true, order, false, utcNow);
      case 2 =>
        order.paymentStatus := PaymentStatus.Pending;
        AddOrderNote(Plain(InAnalysisNote), true, order, false, utcNow);
        AddOrderNote(MethodNote(methodName), true, order, false, utcNow);
      case 3 =>
        order.paymentStatus := Authorized;
        calls := calls + [MarkAsAuthorized(order.id)];
        AddOrderNote(Plain(ApprovedNote), true, order, false, utcNow);
        AddOrderNote(MethodNote(methodName), true, order, false, utcNow);
        AddOrderNote(Plain(AwaitingPrintNote), false, order, false, utcNow);
        if addShipmentNote {
          var text := GetOrdeNoteRecievedPayment(order.items, order.shippingMethod, today);
          match text
          case Err(_) =>
            completed := false;
          case Ok(t) =>
            AddOrderNote(t, true, order, true, utcNow);
        }
      case 4 =>
        calls := calls + [MarkOrderAsPaid(order.id)];
        AddOrderNote(Plain(AvailableNote), false, order, false, utcNow);
      case 5 =>
        order.paymentStatus := Voided;
        calls := calls + [UpdateOrder(order.id)];
        AddOrderNote(Plain(DisputeNote), true, order, true, utcNow);
      case 6 =>
        order.paymentStatus := Refunded;
        order.orderStatus := Cancelled;
        calls := calls + [CancelOrder(order.id, true)];
        AddOrderNote(Plain(RefundedNote), true, order, true, utcNow);
      case 7 =>
        order.paymentStatus := Voided;
        order.orderStatus := Cancelled;
        calls := calls + [CancelOrder(order.id, true)];
        AddOrderNote(Plain(CancelledNote), true, order, false, utcNow);
      case _ =>
    }

    /** The notification endpoint. `verify` stands for the gateway's CheckTransaction,
        `utcNow` for the clock reading and `today` for the local date. */
    method PaymentReturn(notificationCode: Option<string>, verify: string -> Result<Transaction, GatewayError>,
                         utcNow: int, today: int) returns (status: HttpStatus)
      modifies this`calls, orders
      ensures var a := Admit(notificationCode, verify);
        a.Rejected? ==> status == InternalServerError && calls == old(calls) + a.calls
      ensures var a := Admit(notificationCode, verify);
        a.Admitted? && FindOrder(orders, a.key).None? ==>
          status == InternalServerError && calls == old(calls) + a.calls
      ensures var a := Admit(notificationCode, verify);
        (a.Rejected? || FindOrder(orders, a.key).None?) ==>
          forall o :: o in orders ==> o.State() == old(o.State())
      ensures var a := Admit(notificationCode, verify);
        a.Admitted? && FindOrder(orders, a.key).Some? ==>
          var order := FindOrder(orders, a.key).value;
          var r := Transition(old(order.State()), old(calls) + a.calls, a.transaction.transactionStatus,
                              Context(order.id, order.items, order.shippingMethod, GetPaymentDescription(a.transaction.paymentMethodType),
                                      addShipmentNote, utcNow, today));
          && order.State() == r.state
          && calls == r.calls
          && (status == OK <==> r.completed)
          && forall o :: o in orders && o != order ==> o.State() == old(o.State())
    {
      var admission := Admit(notificationCode, verify);
      calls := calls + admission.calls;
      if admission.Rejected? {
        return InternalServerError;
      }
      var found := FindOrder(orders, admission.key);
      if found.None? {
        return InternalServerError;
      }
      var order := found.value;
      var methodName := GetPaymentDescription(admission.transaction.paymentMethodType);
      var completed := ApplyTransactionStatus(order, admission.transaction.transactionStatus, methodName, utcNow, today);
      status := if completed then OK else InternalServerError;
    }
  }
}
