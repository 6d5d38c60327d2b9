/** What PostProcessPayment writes into the PagSeguro payment request before registering
    it, and CanRePostProcessPayment. Money is a decimal held as an integer number of
    ten-thousandths (nopCommerce keeps amounts as decimal(18,4)); clock readings are
    ticks of 100 nanoseconds. */
module CheckoutRequest {
  import opened Common
  import opened Text
  import opened Domain
  import opened OrderResolver
  import opened CheckoutFields

  // ---------------------------------------------------------------------------------
  // Amounts

  /** decimal.Round(v, 2) and Math.Round(v, 2): the nearest whole number of cents, a
      value half-way between two cents going to the even one. */
  function RoundToCents(v: int): (r: int)
    ensures r % 100 == 0
    ensures -50 <= r - v <= 50
    ensures r - v == 50 || r - v == -50 ==> (r / 100) % 2 == 0
  {
    var q := v / 100;
    var rem := v % 100;
    assert v == q * 100 + rem;
    if rem > 50 then (q + 1) * 100
    else if rem < 50 then q * 100
    else if q % 2 == 0 then q * 100
    else (q + 1) * 100
  }

  /** The three properties of RoundToCents single out one value. */
  lemma RoundToCentsUnique(v: int, r: int)
    requires r % 100 == 0 && -50 <= r - v <= 50
    requires r - v == 50 || r - v == -50 ==> (r / 100) % 2 == 0
    ensures r == RoundToCents(v)
  {
    var c := RoundToCents(v);
    assert r == (r / 100) * 100 && c == (c / 100) * 100;
    var d := r / 100 - c / 100;
    assert r - c == d * 100;
  }

  /** An amount in whole cents is kept as it is. */
  lemma RoundToCentsKeepsCents(v: int)
    requires v % 100 == 0
    ensures RoundToCents(v) == v
  {
    RoundToCentsUnique(v, v);
  }

  /** (long) of a decimal weight: the whole part, truncated toward zero. */
  function TruncateToWhole(v: int): (r: int)
    ensures v >= 0 ==> 0 <= r * 10000 <= v < (r + 1) * 10000
    ensures v < 0 ==> (r - 1) * 10000 < v <= r * 10000 <= 0
  {
    if v >= 0 then v / 10000 else -((-v) / 10000)
  }

  // ---------------------------------------------------------------------------------
  // Shipping type, ExtraAmount

  /** Uol.PagSeguro.Domain.ShippingType. */
  datatype ShippingType = Pac | Sedex | NotSpecified

  /** The switch on Order.ShippingMethod: "PAC" is Pac; the three SEDEX services are
      Sedex; any other name is NotSpecified. */
  function ShippingTypeOf(shippingMethod: string): (r: ShippingType)
    ensures r == Pac <==> shippingMethod == "PAC"
    ensures r == Sedex <==> shippingMethod in ["SEDEX", "SEDEX 10", "e-SEDEX"]
    ensures r == NotSpecified <==> shippingMethod !in ["PAC", "SEDEX", "SEDEX 10", "e-SEDEX"]
  {
    match shippingMethod
    case "PAC" => Pac
    case "SEDEX" => Sedex
    case "SEDEX 10" => Sedex
    case "e-SEDEX" => Sedex
    case _ => NotSpecified
  }

  /** The sum of the two discounts that are positive, each rounded to cents. */
  function DiscountSum(subTotalDiscountExclTax: int, orderDiscount: int): (r: int)
    ensures r >= 0
  {
    (if subTotalDiscountExclTax > 0 then RoundToCents(subTotalDiscountExclTax) else 0)
      + (if orderDiscount > 0 then RoundToCents(orderDiscount) else 0)
  }

  /** payment.ExtraAmount after the discounts are folded in: null when they come to
      nothing, otherwise their sum as a negative amount. */
  function ExtraAmount(subTotalDiscountExclTax: int, orderDiscount: int): (r: Option<int>)
    ensures r.None? <==> DiscountSum(subTotalDiscountExclTax, orderDiscount) == 0
    ensures r.Some? ==> r.value < 0 && r.value == -DiscountSum(subTotalDiscountExclTax, orderDiscount)
  {
    var extra := DiscountSum(subTotalDiscountExclTax, orderDiscount);
    if extra == 0 then None else Some(-extra)
  }

  /** Discounts in whole cents: the extra amount is minus their total, and a discount
      that is zero or negative contributes nothing. */
  lemma ExtraAmountOfCents(subTotalDiscountExclTax: int, orderDiscount: int)
    requires subTotalDiscountExclTax % 100 == 0 && orderDiscount % 100 == 0
    ensures var total := (if subTotalDiscountExclTax > 0 then subTotalDiscountExclTax else 0)
                       + (if orderDiscount > 0 then orderDiscount else 0);
      ExtraAmount(subTotalDiscountExclTax, orderDiscount) == if total == 0 then None else Some(-total)
  {
    RoundToCentsKeepsCents(subTotalDiscountExclTax);
    RoundToCentsKeepsCents(orderDiscount);
  }

  // ---------------------------------------------------------------------------------
  // The request

  /** The product fields PostProcessPayment reads; weight in ten-thousandths. */
  datatype Product = Product(id: int, sku: Option<string>, name: Option<string>, weight: int)

  /** An order line: product, quantity, unit price including tax, and the attribute
      description (HTML). */
  datatype CartItem = CartItem(product: Product, quantity: int, unitPriceInclTax: int, attributeDescription: Option<string>)

  /** The shipping address fields PostProcessPayment reads. stateAbbreviation is None
      when the address has no StateProvince, zipPostalCode None when ZipPostalCode is
      null; attributes are the custom attributes once
      parsed and localized. */
  datatype ShippingAddress = ShippingAddress(
    stateAbbreviation: Option<string>,
    city: string,
    address1: string,
    address2: string,
    zipPostalCode: Option<string>,
    customAttributes: string,
    attributes: seq<AddressAttribute>)

  /** The order as PostProcessPayment sees it. shippingAddress is present when both
      ShippingAddressId and ShippingAddress are set. */
  datatype CheckoutOrder = CheckoutOrder(
    id: int,
    shippingMethod: Option<string>,
    orderShippingInclTax: int,
    items: seq<CartItem>,
    subTotalDiscountExclTax: int,
    orderDiscount: int,
    shippingAddress: Option<ShippingAddress>,
    billingAddress: Option<Address>,
    customerEmail: string)

  /** Uol.PagSeguro.Domain.Item, Address, Shipping, Sender and PaymentRequest, with the
      fields set here. */
  datatype Item = Item(id: string, description: string, quantity: int, amount: int, weight: int)

  datatype GatewayAddress = GatewayAddress(
    country: string,
    state: string,
    city: string,
    district: string,
    postalCode: string,
    street: string,
    number: string,
    complement: string)

  datatype Shipping = Shipping(shippingType: Option<ShippingType>, cost: Option<int>, address: Option<GatewayAddress>)

  datatype Sender = Sender(name: string, email: string, phone: Phone)

  datatype PaymentRequest = PaymentRequest(
    currency: string,
    shipping: Shipping,
    items: seq<Item>,
    extraAmount: Option<int>,
    reference: string,
    sender: Sender)

  /** The shipping type and cost, set only for a non-empty shipping method. */
  function ShippingFor(order: CheckoutOrder): (r: Shipping)
    ensures r.address.None?
    ensures r.shippingType.Some? <==> order.shippingMethod.Some? && order.shippingMethod.value != []
    ensures r.cost.Some? <==> r.shippingType.Some?
    ensures r.shippingType.Some? ==>
      r.shippingType.value == ShippingTypeOf(order.shippingMethod.value)
      && r.cost.value == RoundToCents(order.orderShippingInclTax)
  {
    match order.shippingMethod
    case Some(shippingMethod) =>
      if shippingMethod != [] then Shipping(Some(ShippingTypeOf(shippingMethod)), Some(RoundToCents(order.orderShippingInclTax)), None)
      else Shipping(None, None, None)
    case None => Shipping(None, None, None)
  }

  /** One pass of the item loop. The item id is the SKU, or the product id when the SKU
      is blank. */
  function ItemFor(item: CartItem): (r: Item)
    ensures r.id != []
    ensures |r.description| <= 100
    ensures r.quantity == item.quantity
    ensures r.amount % 100 == 0 && -50 <= r.amount - item.unitPriceInclTax <= 50
    ensures Present(item.product.sku) ==> r.id == item.product.sku.value
    ensures !Present(item.product.sku) ==> r.id == IntToString(item.product.id)
    ensures r.description == AddItemDescrition(GetProcuctName(item.product.name), item.attributeDescription)
    ensures r.amount == RoundToCents(item.unitPriceInclTax)
    ensures r.weight == TruncateToWhole(item.product.weight)
  {
    var productId := if Present(item.product.sku) then item.product.sku.value else IntToString(item.product.id);
    var productName := AddItemDescrition(GetProcuctName(item.product.name), item.attributeDescription);
    Item(productId, productName, item.quantity, RoundToCents(item.unitPriceInclTax), TruncateToWhole(item.product.weight))
  }

  /** The item list: one item per order line, in order. */
  function ItemsFor(lines: seq<CartItem>): (r: seq<Item>)
    ensures |r| == |lines|
  {
    if lines == [] then [] else ItemsFor(lines[..|lines| - 1]) + [ItemFor(lines[|lines| - 1])]
  }

  /** Item k of the list is the item for order line k. */
  lemma {:induction false} ItemsForLines(lines: seq<CartItem>, k: nat)
    requires k < |lines|
    ensures ItemsFor(lines)[k] == ItemFor(lines[k])
  {
    if k < |lines| - 1 {
      ItemsForLines(lines[..|lines| - 1], k);
    }
  }

  /** The loop over the order lines, adding one item each. */
  method BuildItems(lines: seq<CartItem>) returns (items: seq<Item>)
    ensures items == ItemsFor(lines)
  {
    items := [];
    for i := 0 to |lines|
      invariant items == ItemsFor(lines[..i])
    {
      assert lines[..i + 1][..i] == lines[..i];
      items := items + [ItemFor(lines[i])];
    }
    assert lines[..|lines|] == lines;
  }

  /** The address sent for delivery: the number and complement found among the custom
      attributes, then the state, which fails on a missing StateProvince. */
  function AddressFor(address: ShippingAddress): (r: Result<GatewayAddress, Exception>)
    ensures r.Ok? ==>
      && r.value.country == "BRA"
      && AllDigits(r.value.postalCode) && |r.value.postalCode| <= 8
      && |r.value.street| <= 80 && |r.value.district| <= 60
      && !IsBlank(r.value.number) && r.value.complement != [] && |r.value.complement| <= 40
    ensures r.Ok? ==>
      && address.stateAbbreviation == Some(r.value.state)
      && address.zipPostalCode.Some?
      && r.value.street == EnsureStreet(address.address1)
      && r.value.district == EnsureNeiborhood(address.address2)
      && r.value.postalCode == RetouchPostalCode(address.zipPostalCode.value)
      && r.value.city == address.city
    ensures r.Ok? ==>
      && NumberAndComplementOf(address.customAttributes, address.attributes).Ok?
      && r.value.number == NumberAndComplementOf(address.customAttributes, address.attributes).value.number
      && r.value.complement == NumberAndComplementOf(address.customAttributes, address.attributes).value.complement
    ensures NumberAndComplementOf(address.customAttributes, address.attributes).Err? ==>
      r == Err(NumberAndComplementOf(address.customAttributes, address.attributes).error)
    ensures NumberAndComplementOf(address.customAttributes, address.attributes).Ok? ==>
      (r.Err? <==> address.stateAbbreviation.None? || address.zipPostalCode.None?)
    ensures NumberAndComplementOf(address.customAttributes, address.attributes).Ok? ==>
      (address.stateAbbreviation.None? ==> r == Err(NullReferenceException))
    ensures NumberAndComplementOf(address.customAttributes, address.attributes).Ok? ==>
      (address.stateAbbreviation.Some? && address.zipPostalCode.None? ==> r == Err(ArgumentNullException))
  {
    match NumberAndComplementOf(address.customAttributes, address.attributes)
    case Err(e) => Err(e)
    case Ok(found) =>
      match address.stateAbbreviation
      case None => Err(NullReferenceException)
      case Some(state) =>
        match address.zipPostalCode
        case None => Err(ArgumentNullException)
        case Some(zip) =>
          Ok(GatewayAddress("BRA", state, address.city, EnsureNeiborhood(address.address2),
            RetouchPostalCode(zip), EnsureStreet(address.address1),
            found.number, found.complement))
  }

  /** The address part of PostProcessPayment: GetCustomNumberAndComplement, then the
      Address constructor, whose arguments read StateProvince.Abbreviation first and hand
      ZipPostalCode to Regex.Matches, which refuses null, after it. */
  method BuildShippingAddress(address: ShippingAddress) returns (r: Result<GatewayAddress, Exception>)
    ensures r == AddressFor(address)
  {
    var found := GetCustomNumberAndComplement(address.customAttributes, address.attributes);
    if found.Err? {
      return Err(found.error);
    }
    if address.stateAbbreviation.None? {
      return Err(NullReferenceException);
    }
    if address.zipPostalCode.None? {
      return Err(ArgumentNullException);
    }
    r := Ok(GatewayAddress("BRA", address.stateAbbreviation.value, address.city,
      EnsureNeiborhood(address.address2), RetouchPostalCode(address.zipPostalCode.value), EnsureStreet(address.address1),
      found.value.number, found.value.complement));
  }

  /** The shipping part of the request, with the delivery address when the order has a
      shipping address. */
  function ShippingWithAddress(order: CheckoutOrder): (r: Result<Shipping, Exception>)
    ensures order.shippingAddress.None? ==> r == Ok(ShippingFor(order))
    ensures order.shippingAddress.Some? ==>
      match AddressFor(order.shippingAddress.value)
      case Err(e) => r == Err(e)
      case Ok(a) => r == Ok(ShippingFor(order).(address := Some(a)))
  {
    match order.shippingAddress
    case None => Ok(ShippingFor(order))
    case Some(address) =>
      match AddressFor(address)
      case Err(e) => Err(e)
      case Ok(a) => Ok(ShippingFor(order).(address := Some(a)))
  }

  /** The sender: the billing name, the customer's e-mail and the billing phone. */
  function SenderFor(order: CheckoutOrder): (r: Result<Sender, Exception>)
    ensures order.billingAddress.None? ==> r == Err(ArgumentNullException)
    ensures order.billingAddress.Some? ==>
      (r.Err? <==> order.billingAddress.value.phoneNumber.None?)
    ensures r.Ok? ==> r.value.email == order.customerEmail
    ensures r.Ok? ==>
      && GetBillingShippingFullName(order.billingAddress).Ok?
      && r.value.name == GetBillingShippingFullName(order.billingAddress).value
      && GetPhoneNumber(order.billingAddress).Ok?
      && r.value.phone == GetPhoneNumber(order.billingAddress).value
  {
    match GetBillingShippingFullName(order.billingAddress)
    case Err(e) => Err(e)
    case Ok(name) =>
      match GetPhoneNumber(order.billingAddress)
      case Err(e) => Err(e)
      case Ok(phone) => Ok(Sender(name, order.customerEmail, phone))
  }

  /** The request PostProcessPayment hands to Register, or the exception it throws first:
      the address is built before the sender. */
  function PaymentRequestFor(order: CheckoutOrder): Result<PaymentRequest, Exception> {
    match ShippingWithAddress(order)
    case Err(e) => Err(e)
    case Ok(shipping) =>
      match SenderFor(order)
      case Err(e) => Err(e)
      case Ok(sender) =>
        Ok(PaymentRequest("BRL", shipping, ItemsFor(order.items),
          ExtraAmount(order.subTotalDiscountExclTax, order.orderDiscount), IntToString(order.id), sender))
  }

  /** PostProcessPayment up to the call to Register: the request is built field by
      field, with a loop over the order lines and the discounts added one at a time. */
  method BuildPaymentRequest(order: CheckoutOrder) returns (r: Result<PaymentRequest, Exception>)
    ensures r == PaymentRequestFor(order)
  {
    var shipping := Shipping(None, None, None);
    if order.shippingMethod.Some? && order.shippingMethod.value != [] {
      shipping := Shipping(Some(ShippingTypeOf(order.shippingMethod.value)), Some(RoundToCents(order.orderShippingInclTax)), None);
    }
    assert shipping == ShippingFor(order);

    var items := BuildItems(order.items);

    var extra := 0;
    if order.subTotalDiscountExclTax > 0 {
      extra := extra + RoundToCents(order.subTotalDiscountExclTax);
    }
    if order.orderDiscount > 0 {
      extra := extra + RoundToCents(order.orderDiscount);
    }
    var extraAmount: Option<int> := if extra == 0 then None else Some(extra * -1);
    assert extraAmount == ExtraAmount(order.subTotalDiscountExclTax, order.orderDiscount);

    var reference := IntToString(order.id);

    if order.shippingAddress.Some? {
      var address := BuildShippingAddress(order.shippingAddress.value);
      if address.Err? {
        return Err(address.error);
      }
      shipping := shipping.(address := Some(address.value));
    }
    assert ShippingWithAddress(order) == Ok(shipping);

    var name := GetBillingShippingFullName(order.billingAddress);
    if name.Err? {
      return Err(name.error);
    }
    var phone := GetPhoneNumber(order.billingAddress);
    if phone.Err? {
      return Err(phone.error);
    }
    var sender := Sender(name.value, order.customerEmail, phone.value);
    assert SenderFor(order) == Ok(sender);
    r := Ok(PaymentRequest("BRL", shipping, items, extraAmount, reference, sender));
  }

  /** The reference sent with the request brings a notification back to this order. */
  lemma RequestReferenceFindsOrder(order: CheckoutOrder)
    requires Int32Min <= order.id <= Int32Max
    requires PaymentRequestFor(order).Ok?
    ensures ResolveReference(Some(PaymentRequestFor(order).value.reference)) == Ok(ById(order.id))
  {
    CheckoutReferenceResolvesById(order.id);
  }

  /** The request lists one item per order line, in order, with its quantity and its
      price to the cent; the currency is BRL; the extra amount is never positive. */
  lemma RequestMirrorsOrder(order: CheckoutOrder)
    requires PaymentRequestFor(order).Ok?
    ensures var p := PaymentRequestFor(order).value;
      && p.currency == "BRL"
      && |p.items| == |order.items|
      && (forall k :: 0 <= k < |p.items| ==>
            p.items[k].quantity == order.items[k].quantity
            && p.items[k].amount % 100 == 0
            && -50 <= p.items[k].amount - order.items[k].unitPriceInclTax <= 50)
      && (p.extraAmount.Some? ==> p.extraAmount.value < 0)
      && (p.shipping.shippingType.Some? <==> order.shippingMethod.Some? && order.shippingMethod.value != [])
      && (p.shipping.address.Some? <==> order.shippingAddress.Some?)
  {
    var p := PaymentRequestFor(order).value;
    assert p.items == ItemsFor(order.items);
    forall k | 0 <= k < |p.items|
      ensures p.items[k].quantity == order.items[k].quantity
      ensures p.items[k].amount % 100 == 0 && -50 <= p.items[k].amount - order.items[k].unitPriceInclTax <= 50
    {
      ItemsForLines(order.items, k);
    }
  }

  /** The request fails exactly when the shipping address cannot be built, or when there
      is no billing address or it has no phone number. */
  lemma RequestFailures(order: CheckoutOrder)
    ensures PaymentRequestFor(order).Err? <==>
      || (order.shippingAddress.Some? && AddressFor(order.shippingAddress.value).Err?)
      || order.billingAddress.None?
      || order.billingAddress.value.phoneNumber.None?
    ensures order.shippingAddress.None? && order.billingAddress.None? ==>
      PaymentRequestFor(order) == Err(ArgumentNullException)
  {
  }

  // ---------------------------------------------------------------------------------
  // CanRePostProcessPayment

  const TicksPerMinute: int := 600_000_000

  /** The order fields CanRePostProcessPayment reads. */
  datatype PlacedOrder = PlacedOrder(paymentStatus: PaymentStatus, createdOnUtc: int)

  /** CanRePostProcessPayment: a null order throws; otherwise the payment must still be
      pending and at least one minute must have passed since the order was placed. */
  function CanRePostProcessPayment(order: Option<PlacedOrder>, utcNow: int): (r: Result<bool, Exception>)
    ensures order.None? <==> r == Err(ArgumentNullException)
    ensures r.Ok? ==>
      (r.value <==> order.value.paymentStatus == PaymentStatus.Pending && utcNow - order.value.createdOnUtc >= TicksPerMinute)
  {
    match order
    case None => Err(ArgumentNullException)
    case Some(o) =>
      if o.paymentStatus != PaymentStatus.Pending then Ok(false)
      else if utcNow - o.createdOnUtc < TicksPerMinute then Ok(false)
      else Ok(true)
  }

  /** Once an order may be re-posted it stays so as the clock advances. */
  lemma CanRePostStaysTrue(order: PlacedOrder, now: int, later: int)
    requires now <= later
    requires CanRePostProcessPayment(Some(order), now) == Ok(true)
    ensures CanRePostProcessPayment(Some(order), later) == Ok(true)
  {
  }
}
