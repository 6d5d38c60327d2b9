/** The shipment-deadline estimate of the notification controller: the digit-run scanner
    GetBiggestInteger, the running maximum GetBiggestDeliveryDate over an order's items,
    and the facts GetOrdeNoteRecievedPayment puts into its note. */
module DeliveryEstimate {
  import opened Common
  import opened Text
  import opened Domain
  import opened WorkDays

  /** Where the maximal digit run that ends just before position n begins
      (n itself when s[n - 1] is not a digit). */
  function RunStart(s: string, n: nat): (r: nat)
    requires n <= |s|
    ensures r <= n && AllDigits(s[r..n]) && (r == 0 || !IsDigit(s[r - 1]))
    decreases n
  {
    if n > 0 && IsDigit(s[n - 1]) then
      var r := RunStart(s, n - 1);
      assert s[r..n] == s[r..n - 1] + [s[n - 1]];
      r
    else n
  }

  /** A digit run s[i..j] that cannot be extended to the left and that the
      non-digit s[j] closes. */
  ghost predicate IsClosedRun(s: string, i: int, j: int) {
    0 <= i < j < |s| && AllDigits(s[i..j]) && (i == 0 || !IsDigit(s[i - 1])) && !IsDigit(s[j])
  }

  /** The values GetBiggestInteger collects in integerResultsList while scanning s[..n]:
      one per digit run closed by a non-digit before position n, in order. */
  function ClosedRuns(s: string, n: nat): seq<nat>
    requires n <= |s|
  {
    if n == 0 then []
    else
      var start := RunStart(s, n - 1);
      ClosedRuns(s, n - 1) +
        (if !IsDigit(s[n - 1]) && start < n - 1 then [DigitsValue(s[start..n - 1])] else [])
  }

  /** The greatest of xs, or 0 when xs is empty or holds only zeros. */
  function MaxOrZero(xs: seq<nat>): (m: nat)
    ensures forall k :: 0 <= k < |xs| ==> xs[k] <= m
    ensures m == 0 || m in xs
  {
    if xs == [] then 0
    else
      var m := MaxOrZero(xs[..|xs| - 1]);
      if xs[|xs| - 1] > m then xs[|xs| - 1] else m
  }

  /** What GetBiggestInteger returns: null for blank text, otherwise the largest value
      of the digit runs that a later non-digit closes, or 0 if there are none. */
  function BiggestInteger(text: string): (r: Option<nat>)
    ensures r.None? <==> IsBlank(text)
  {
    if IsBlank(text) then None else Some(MaxOrZero(ClosedRuns(text, |text|)))
  }

  /** GetBiggestInteger: one pass collecting closed digit runs, one pass keeping the maximum. */
  method GetBiggestInteger(text: string) returns (r: Option<nat>)
    ensures r == BiggestInteger(text)
  {
    if IsBlank(text) {
      return None;
    }
    var integerResultsList: seq<nat> := [];
    var integerSituation: string := "";
    for i := 0 to |text|
      invariant integerResultsList == ClosedRuns(text, i)
      invariant integerSituation == text[RunStart(text, i)..i]
    {
      if IsDigit(text[i]) {
        integerSituation := integerSituation + [text[i]];
      } else if integerSituation != "" {
        integerResultsList := integerResultsList + [DigitsValue(integerSituation)];
        integerSituation := "";
      }
    }
    var integerResult: nat := 0;
    for k := 0 to |integerResultsList|
      invariant integerResult == MaxOrZero(integerResultsList[..k])
    {
      assert integerResultsList[..k + 1][..k] == integerResultsList[..k];
      if integerResultsList[k] > integerResult {
        integerResult := integerResultsList[k];
      }
    }
    assert integerResultsList[..|integerResultsList|] == integerResultsList;
    return Some(integerResult);
  }

  /** A maximal digit run that ends at j starts at RunStart(s, j). */
  lemma {:induction false} RunStartUnique(s: string, i: nat, j: nat)
    requires i <= j <= |s| && AllDigits(s[i..j]) && (i == 0 || !IsDigit(s[i - 1]))
    ensures RunStart(s, j) == i
    decreases j
  {
    if i < j {
      assert IsDigit(s[i..j][j - 1 - i]);
      assert s[i..j - 1] == s[i..j][..j - 1 - i];
      RunStartUnique(s, i, j - 1);
    }
  }

  /** ClosedRuns lists exactly the values of the closed digit runs. */
  lemma ClosedRunsAreClosedRuns(s: string, n: nat)
    requires n <= |s|
    ensures forall v :: v in ClosedRuns(s, n) <==>
      exists i, j :: IsClosedRun(s, i, j) && j < n && v == DigitsValue(s[i..j])
  {
    forall v | v in ClosedRuns(s, n)
      ensures exists i, j :: IsClosedRun(s, i, j) && j < n && v == DigitsValue(s[i..j])
    {
      ClosedRunsSound(s, n, v);
    }
    forall v | exists i, j :: IsClosedRun(s, i, j) && j < n && v == DigitsValue(s[i..j])
      ensures v in ClosedRuns(s, n)
    {
      var i, j :| IsClosedRun(s, i, j) && j < n && v == DigitsValue(s[i..j]);
      ClosedRunsComplete(s, n, i, j);
    }
  }

  lemma {:induction false} ClosedRunsSound(s: string, n: nat, v: nat)
    requires n <= |s| && v in ClosedRuns(s, n)
    ensures exists i, j :: IsClosedRun(s, i, j) && j < n && v == DigitsValue(s[i..j])
    decreases n
  {
    if v in ClosedRuns(s, n - 1) {
      ClosedRunsSound(s, n - 1, v);
    } else {
      assert IsClosedRun(s, RunStart(s, n - 1), n - 1);
    }
  }

  lemma {:induction false} ClosedRunsComplete(s: string, n: nat, i: int, j: int)
    requires n <= |s| && IsClosedRun(s, i, j) && j < n
    ensures DigitsValue(s[i..j]) in ClosedRuns(s, n)
    decreases n
  {
    if j == n - 1 {
      RunStartUnique(s, i, j);
    } else {
      ClosedRunsComplete(s, n - 1, i, j);
    }
  }

  /** GetBiggestInteger's answer on non-blank text is the largest closed digit run,
      or 0 when no digit run is closed. */
  lemma BiggestIntegerIsLargestClosedRun(text: string)
    requires !IsBlank(text)
    ensures forall i, j :: IsClosedRun(text, i, j) ==>
      DigitsValue(text[i..j]) <= BiggestInteger(text).value
    ensures BiggestInteger(text).value == 0 ||
      exists i, j :: IsClosedRun(text, i, j) && DigitsValue(text[i..j]) == BiggestInteger(text).value
  {
    var runs := ClosedRuns(text, |text|);
    ClosedRunsAreClosedRuns(text, |text|);
    forall i, j | IsClosedRun(text, i, j)
      ensures DigitsValue(text[i..j]) <= BiggestInteger(text).value
    {
      var v := DigitsValue(text[i..j]);
      assert v in runs;
      var k :| 0 <= k < |runs| && runs[k] == v;
    }
  }

  lemma {:induction false} RunStartPrefix(s: string, t: string, n: nat)
    requires n <= |s| && n <= |t| && s[..n] == t[..n]
    ensures RunStart(s, n) == RunStart(t, n)
    decreases n
  {
    if n > 0 {
      assert s[n - 1] == s[..n][n - 1] == t[..n][n - 1] == t[n - 1];
      assert s[..n - 1] == s[..n][..n - 1];
      assert t[..n - 1] == t[..n][..n - 1];
      RunStartPrefix(s, t, n - 1);
    }
  }

  /** ClosedRuns(s, n) depends only on s[..n]. */
  lemma {:induction false} ClosedRunsPrefix(s: string, t: string, n: nat)
    requires n <= |s| && n <= |t| && s[..n] == t[..n]
    ensures ClosedRuns(s, n) == ClosedRuns(t, n)
    decreases n
  {
    if n > 0 {
      assert s[n - 1] == s[..n][n - 1] == t[..n][n - 1] == t[n - 1];
      assert s[..n - 1] == s[..n][..n - 1];
      assert t[..n - 1] == t[..n][..n - 1];
      ClosedRunsPrefix(s, t, n - 1);
      RunStartPrefix(s, t, n - 1);
      var start := RunStart(s, n - 1);
      assert s[start..n - 1] == s[..n][start..n - 1] == t[..n][start..n - 1] == t[start..n - 1];
    }
  }

  /** Digits after the last closed run add nothing: ClosedRuns(t, n) stays the same
      for every n from |s| to |t| when t extends s by digits only. */
  lemma {:induction false} ClosedRunsDigitTail(s: string, ds: string, n: nat)
    requires AllDigits(ds) && |s| <= n <= |s + ds|
    ensures ClosedRuns(s + ds, n) == ClosedRuns(s + ds, |s|)
    decreases n
  {
    if n > |s| {
      assert (s + ds)[n - 1] == ds[n - 1 - |s|];
      ClosedRunsDigitTail(s, ds, n - 1);
    }
  }

  /** A digit run at the very end of the text is never counted. */
  lemma TrailingDigitRunIgnored(s: string, ds: string)
    requires AllDigits(ds)
    ensures ClosedRuns(s + ds, |s + ds|) == ClosedRuns(s, |s|)
  {
    ClosedRunsDigitTail(s, ds, |s + ds|);
    assert (s + ds)[..|s|] == s[..|s|];
    ClosedRunsPrefix(s + ds, s, |s|);
  }

  /** "5 a 10" yields 5: the 10 that ends the text is not counted. */
  lemma FiveToTenYieldsFive()
    ensures BiggestInteger("5 a 10") == Some(5)
  {
    var s := "5 a ";
    assert "5 a 10" == s + "10";
    TrailingDigitRunIgnored(s, "10");
    FiveClosed();
    assert !IsWhiteSpace("5 a 10"[0]);
    assert MaxOrZero([5]) == 5;
  }

  lemma FiveClosed()
    ensures ClosedRuns("5 a ", 4) == [5]
  {
    var s := "5 a ";
    assert RunStart(s, 1) == 0;
    assert s[0..1] == "5";
    assert DigitsValue("5") == 5;
    assert ClosedRuns(s, 1) == [];
    assert ClosedRuns(s, 2) == [5];
    assert RunStart(s, 2) == 2;
    assert ClosedRuns(s, 3) == [5];
    assert RunStart(s, 3) == 3;
  }

  /** The number GetBiggestDeliveryDate compares for one order line: the line's
      GetBiggestInteger value, where null (a blank name) can never win and counts as 0. */
  function ItemDays(item: OrderItem): nat {
    match item.deliveryDate
    case None => 0
    case Some(dd) => match BiggestInteger(dd.name) case None => 0 case Some(v) => v
  }

  /** GetBiggestDeliveryDate's out parameters: biggestAmountDays and the index of the
      chosen order line (None for null); the returned DeliveryDate is that line's. */
  datatype Selection = Selection(biggestAmountDays: nat, item: Option<nat>)

  /** What GetBiggestDeliveryDate compares, line by line: None where the line's product
      has no delivery date, otherwise the line's ItemDays. */
  function LineDays(items: seq<OrderItem>): (r: seq<Option<nat>>)
    ensures |r| == |items|
    ensures forall k :: 0 <= k < |items| ==>
      r[k] == if items[k].deliveryDate.None? then None else Some(ItemDays(items[k]))
  {
    seq(|items|, k requires 0 <= k < |items| =>
      if items[k].deliveryDate.None? then None else Some(ItemDays(items[k])))
  }

  /** The running maximum, keeping the first line that strictly beats the best so far.
      A missing value stands for a product without delivery date, on which GetLocalized
      throws. */
  function SelectMax(days: seq<Option<nat>>): (r: Result<Selection, Exception>)
    ensures r.Err? <==> exists k :: 0 <= k < |days| && days[k].None?
    ensures r.Err? ==> r.error == ArgumentNullException
    decreases |days|
  {
    if days == [] then Ok(Selection(0, None))
    else
      var init := days[..|days| - 1];
      assert forall k :: 0 <= k < |init| ==> init[k] == days[k];
      match SelectMax(init)
      case Err(e) => Err(e)
      case Ok(sel) =>
        match days[|days| - 1]
        case None => Err(ArgumentNullException)
        case Some(v) => if v > sel.biggestAmountDays then Ok(Selection(v, Some(|days| - 1))) else Ok(sel)
  }

  /** The selection GetBiggestDeliveryDate makes over an order's lines. */
  function SelectBiggest(items: seq<OrderItem>): (r: Result<Selection, Exception>)
    ensures r.Err? <==> exists k :: 0 <= k < |items| && items[k].deliveryDate.None?
    ensures r.Err? ==> r.error == ArgumentNullException
  {
    var days := LineDays(items);
    assert forall k :: 0 <= k < |items| ==> (days[k].None? <==> items[k].deliveryDate.None?);
    SelectMax(days)
  }

  lemma {:induction false} SelectMaxIsMaximum(days: seq<Option<nat>>)
    requires SelectMax(days).Ok?
    ensures forall k :: 0 <= k < |days| ==> days[k].Some? && days[k].value <= SelectMax(days).value.biggestAmountDays
    ensures SelectMax(days).value.item.None? <==> SelectMax(days).value.biggestAmountDays == 0
    decreases |days|
  {
    if days != [] {
      var init := days[..|days| - 1];
      assert SelectMax(init).Ok?;
      SelectMaxIsMaximum(init);
      var now := SelectMax(days).value;
      forall k | 0 <= k < |init|
        ensures days[k].Some? && days[k].value <= now.biggestAmountDays
      {
        assert days[k] == init[k];
      }
    }
  }

  lemma {:induction false} SelectMaxIsEarliest(days: seq<Option<nat>>)
    requires SelectMax(days).Ok?
    ensures SelectMax(days).value.item.Some? ==>
      var k := SelectMax(days).value.item.value;
      && k < |days|
      && days[k] == Some(SelectMax(days).value.biggestAmountDays)
      && forall j :: 0 <= j < k ==> days[j].value < SelectMax(days).value.biggestAmountDays
    decreases |days|
  {
    if days != [] {
      var init := days[..|days| - 1];
      assert SelectMax(init).Ok?;
      SelectMaxIsEarliest(init);
      SelectMaxIsMaximum(init);
      var sel := SelectMax(init).value;
      var now := SelectMax(days).value;
      if now.item.Some? {
        forall j | 0 <= j < now.item.value
          ensures days[j].value < now.biggestAmountDays
        {
          assert days[j] == init[j];
        }
        if now == sel {
          assert days[now.item.value] == init[now.item.value];
        }
      }
    }
  }

  /** The chosen line has the greatest value, every earlier line a strictly smaller one
      (the earliest line wins a tie), and with no value above 0 nothing is chosen. */
  lemma SelectBiggestIsEarliestMaximum(items: seq<OrderItem>)
    requires SelectBiggest(items).Ok?
    ensures forall k :: 0 <= k < |items| ==> ItemDays(items[k]) <= SelectBiggest(items).value.biggestAmountDays
    ensures SelectBiggest(items).value.item.None? <==> SelectBiggest(items).value.biggestAmountDays == 0
    ensures SelectBiggest(items).value.item.Some? ==>
      var k := SelectBiggest(items).value.item.value;
      && k < |items|
      && ItemDays(items[k]) == SelectBiggest(items).value.biggestAmountDays
      && forall j :: 0 <= j < k ==> ItemDays(items[j]) < SelectBiggest(items).value.biggestAmountDays
  {
    var days := LineDays(items);
    SelectMaxIsMaximum(days);
    SelectMaxIsEarliest(days);
    var sel := SelectMax(days).value;
    forall k | 0 <= k < |items|
      ensures ItemDays(items[k]) <= sel.biggestAmountDays
    {
      assert days[k].Some?;
    }
  }

  /** GetBiggestDeliveryDate: a foreach keeping the strictly greatest value seen so far. */
  method GetBiggestDeliveryDate(items: seq<OrderItem>) returns (r: Result<Selection, Exception>)
    ensures r == SelectBiggest(items)
  {
    ghost var days := LineDays(items);
    var biggestAmountDays: nat := 0;
    var orderItem: Option<nat> := None;
    for i := 0 to |items|
      invariant SelectMax(days[..i]) == Ok(Selection(biggestAmountDays, orderItem))
    {
      assert days[..i + 1][..i] == days[..i];
      match items[i].deliveryDate {
        case None =>
          assert days[i].None?;
          return Err(ArgumentNullException);
        case Some(deliveryDateItem) =>
          var deliveryBigestInteger := GetBiggestInteger(deliveryDateItem.name);
          if deliveryBigestInteger.Some? && deliveryBigestInteger.value > biggestAmountDays {
            biggestAmountDays := deliveryBigestInteger.value;
            orderItem := Some(i);
          }
      }
    }
    assert days[..|items|] == days;
    return Ok(Selection(biggestAmountDays, orderItem));
  }

  /** The facts GetOrdeNoteRecievedPayment reports: the first manufacturer of the line
      with the longest delivery window, that window's name, and the deadline
      AddWorkDays(today, biggestAmountDays). It throws when a line has no delivery date,
      when no line has a window above 0 (AddWorkDays(today, 0) calls Last() on nothing),
      when the chosen line's product has no manufacturer, and, once the text so far is
      composed, when the order has no shipping method (ShippingMethod.Contains on null). */
  function ReceivedPaymentNote(items: seq<OrderItem>, shippingMethod: Option<string>, today: int): (r: Result<NoteText, Exception>)
    ensures SelectBiggest(items).Err? ==> r == Err(ArgumentNullException)
    ensures SelectBiggest(items).Ok? && SelectBiggest(items).value.biggestAmountDays == 0 ==>
      r == Err(InvalidOperationException)
    ensures r.Ok? ==> r.value.ShipmentNarrative? && shippingMethod.Some?
  {
    match SelectBiggest(items)
    case Err(e) => Err(e)
    case Ok(sel) =>
      match AddWorkDays(today, sel.biggestAmountDays)
      case Err(e) => Err(e)
      case Ok(dateShipment) =>
        SelectBiggestIsEarliestMaximum(items);
        var item := items[sel.item.value];
        match item.manufacturer
        case None => Err(NullReferenceException)
        case Some(name) =>
          if shippingMethod.None? then Err(NullReferenceException)
          else Ok(ShipmentNarrative(name, item.deliveryDate.value.name, dateShipment))
  }

  /** A composed note names the manufacturer and delivery date of the chosen line and a
      deadline that is a work day exactly biggestAmountDays work days after today; once a
      line was chosen, it fails, with a NullReferenceException, exactly for a missing
      manufacturer or a missing shipping method. */
  lemma ReceivedPaymentNoteReports(items: seq<OrderItem>, shippingMethod: Option<string>, today: int)
    ensures var r := ReceivedPaymentNote(items, shippingMethod, today);
      r.Ok? ==>
      && SelectBiggest(items).Ok?
      && var sel := SelectBiggest(items).value;
      && sel.item.Some?
      && sel.item.value < |items|
      && Some(r.value.manufacturer) == items[sel.item.value].manufacturer
      && Some(DeliveryDate(r.value.deliveryDateName)) == items[sel.item.value].deliveryDate
      && r.value.deadline > today && IsWorkDay(r.value.deadline)
      && CountWorkDays(today, r.value.deadline) == sel.biggestAmountDays
    ensures var r := ReceivedPaymentNote(items, shippingMethod, today);
      SelectBiggest(items).Ok? && SelectBiggest(items).value.biggestAmountDays > 0 ==>
      && var sel := SelectBiggest(items).value;
      && sel.item.Some?
      && sel.item.value < |items|
      && (r.Err? <==> items[sel.item.value].manufacturer.None? || shippingMethod.None?)
      && (r.Err? ==> r.error == NullReferenceException)
  {
    if SelectBiggest(items).Ok? {
      var sel := SelectBiggest(items).value;
      SelectBiggestIsEarliestMaximum(items);
      AddWorkDaysCountsExactly(today, sel.biggestAmountDays);
    }
  }

  /** GetOrdeNoteRecievedPayment without the rendering of its text. */
  method GetOrdeNoteRecievedPayment(items: seq<OrderItem>, shippingMethod: Option<string>, today: int)
    returns (r: Result<NoteText, Exception>)
    ensures r == ReceivedPaymentNote(items, shippingMethod, today)
  {
    var selection := GetBiggestDeliveryDate(items);
    if selection.Err? {
      return Err(selection.error);
    }
    var dateShipment := AddWorkDays(today, selection.value.biggestAmountDays);
    if dateShipment.Err? {
      return Err(dateShipment.error);
    }
    SelectBiggestIsEarliestMaximum(items);
    var orderItem := items[selection.value.item.value];
    if orderItem.manufacturer.None? {
      return Err(NullReferenceException);
    }
    if shippingMethod.None? {
      return Err(NullReferenceException);
    }
    return Ok(ShipmentNarrative(orderItem.manufacturer.value, orderItem.deliveryDate.value.name, dateShipment.value));
  }
}
