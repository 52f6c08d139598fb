/**
 * The checkout dialog: per-item prices, cash and transfer totals, the delivery
 * cost looked up by zone path, the form check, the order summary text and the
 * order record handed to the caller. The dialog prices with its own snapshot
 * of the configuration (`CurrentPricing`, `CurrentDeliveryZones`), not with the
 * live store; the pure functions take pricing and zones as parameters.
 */
module Checkout {
  import opened Wrappers
  import opened Keyed
  import opened Money
  import AdminStore

  type Pricing = AdminStore.Pricing
  type DeliveryZone = AdminStore.DeliveryZone

  /** The pricing snapshot the dialog uses. */
  const CurrentPricing: Pricing := AdminStore.Pricing(90, 350, 15)

  /** The zone path the dialog starts with, which means "no zone chosen yet". */
  const PlaceholderZone: string := "Por favor seleccionar su Barrio/Zona"

  /** The delivery zones snapshot the dialog uses. */
  const CurrentDeliveryZones: seq<DeliveryZone> := ZonesSnapshot()

  function ZonesSnapshot(): seq<DeliveryZone> {
    [
      AdminStore.DeliveryZone(1, "Por favor seleccionar su Barrio/Zona",
        "Por favor seleccionar su Barrio/Zona", 0, true),
      AdminStore.DeliveryZone(2, "Nuevo Vista Alegre",
        "Santiago de Cuba > Santiago de Cuba > Nuevo Vista Alegre", 150, true),
      AdminStore.DeliveryZone(3, "Vista Alegre",
        "Santiago de Cuba > Santiago de Cuba > Vista Alegre", 300, true),
      AdminStore.DeliveryZone(4, "Reparto Sueño",
        "Santiago de Cuba > Santiago de Cuba > Reparto Sueño", 250, true),
      AdminStore.DeliveryZone(5, "San Pedrito",
        "Santiago de Cuba > Santiago de Cuba > San Pedrito", 150, true),
      AdminStore.DeliveryZone(6, "Altamira",
        "Santiago de Cuba > Santiago de Cuba > Altamira", 300, true),
      AdminStore.DeliveryZone(7, "Micro 7, 8 , 9",
        "Santiago de Cuba > Santiago de Cuba > Micro 7, 8 , 9", 150, true),
      AdminStore.DeliveryZone(8, "Alameda",
        "Santiago de Cuba > Santiago de Cuba > Alameda", 150, true),
      AdminStore.DeliveryZone(9, "El Caney",
        "Santiago de Cuba > Santiago de Cuba > El Caney", 800, true),
      AdminStore.DeliveryZone(10, "Quintero",
        "Santiago de Cuba > Santiago de Cuba > Quintero", 200, true),
      AdminStore.DeliveryZone(11, "Marimon",
        "Santiago de Cuba > Santiago de Cuba > Marimon", 100, true),
      AdminStore.DeliveryZone(12, "Los cangrejitos",
        "Santiago de Cuba > Santiago de Cuba > Los cangrejitos", 150, true),
      AdminStore.DeliveryZone(13, "Trocha",
        "Santiago de Cuba > Santiago de Cuba > Trocha", 200, true),
      AdminStore.DeliveryZone(14, "Versalles",
        "Santiago de Cuba > Santiago de Cuba > Versalles", 800, true),
      AdminStore.DeliveryZone(15, "Reparto Portuondo",
        "Santiago de Cuba > Santiago de Cuba > Reparto Portuondo", 600, true),
      AdminStore.DeliveryZone(16, "30 de Noviembre",
        "Santiago de Cuba > Santiago de Cuba > 30 de Noviembre", 600, true),
      AdminStore.DeliveryZone(17, "Rajayoga",
        "Santiago de Cuba > Santiago de Cuba > Rajayoga", 800, true),
      AdminStore.DeliveryZone(18, "Antonio Maceo",
        "Santiago de Cuba > Santiago de Cuba > Antonio Maceo", 600, true),
      AdminStore.DeliveryZone(19, "Los Pinos",
        "Santiago de Cuba > Santiago de Cuba > Los Pinos", 200, true),
      AdminStore.DeliveryZone(20, "Distrito José Martí",
        "Santiago de Cuba > Santiago de Cuba > Distrito José Martí", 100, true),
      AdminStore.DeliveryZone(21, "Cobre",
        "Santiago de Cuba > Santiago de Cuba > Cobre", 800, true),
      AdminStore.DeliveryZone(22, "El Parque Céspedes",
        "Santiago de Cuba > Santiago de Cuba > El Parque Céspedes", 200, true),
      AdminStore.DeliveryZone(23, "Carretera del Morro",
        "Santiago de Cuba > Santiago de Cuba > Carretera del Morro", 300, true)
    ]
  }

  /** A cart line as the dialog reads it; `itemType` and `paymentType` are free strings. */
  datatype CartItem = CartItem(title: string, itemType: string, selectedSeasons: Option<seq<int>>, paymentType: string)

  /** The number of seasons charged for a series: no seasons selected counts as one. */
  function SeasonCount(item: CartItem): (n: int)
    ensures n >= 1
    ensures item.selectedSeasons.Some? && |item.selectedSeasons.value| > 0 ==> n == |item.selectedSeasons.value|
  {
    if item.selectedSeasons.Some? && |item.selectedSeasons.value| > 0 then |item.selectedSeasons.value| else 1
  }

  /** The price before any surcharge: a movie's flat price, otherwise seasons times the season price. */
  function BasePrice(item: CartItem, pricing: Pricing): int {
    if item.itemType == "movie" then pricing.moviePrice else SeasonCount(item) * pricing.seriesPrice
  }

  /** The base price of a movie is the movie price; anything else pays per season, one when none are chosen. */
  lemma BasePriceRule(item: CartItem, pricing: Pricing)
    ensures item.itemType == "movie" ==> BasePrice(item, pricing) == pricing.moviePrice
    ensures item.itemType != "movie" && item.selectedSeasons.Some? && |item.selectedSeasons.value| > 0 ==>
              BasePrice(item, pricing) == |item.selectedSeasons.value| * pricing.seriesPrice
    ensures item.itemType != "movie" && (item.selectedSeasons.None? || item.selectedSeasons.value == []) ==>
              BasePrice(item, pricing) == pricing.seriesPrice
  {
  }

  /** With a non-negative season price, a series never costs less than one season. */
  lemma SeriesAtLeastOneSeason(item: CartItem, pricing: Pricing)
    requires pricing.seriesPrice >= 0
    ensures item.itemType != "movie" ==> BasePrice(item, pricing) >= pricing.seriesPrice
  {
    if item.itemType != "movie" {
      var n := SeasonCount(item);
      assert n * pricing.seriesPrice - pricing.seriesPrice == (n - 1) * pricing.seriesPrice;
      assert (n - 1) * pricing.seriesPrice >= 0;
    }
  }

  predicate PaidInCash(item: CartItem) { item.paymentType == "cash" }
  predicate PaidByTransfer(item: CartItem) { item.paymentType == "transfer" }

  /** The base prices of the items, added up. */
  function SumBase(items: seq<CartItem>, pricing: Pricing): int {
    if items == [] then 0 else BasePrice(items[0], pricing) + SumBase(items[1..], pricing)
  }

  /** The surcharged prices of the items, added up. */
  function SumTransfer(items: seq<CartItem>, pricing: Pricing): int {
    if items == [] then 0
    else Surcharged(BasePrice(items[0], pricing), pricing.transferFeePercentage) + SumTransfer(items[1..], pricing)
  }

  datatype CheckoutTotals = CheckoutTotals(cashTotal: int, transferTotal: int)

  /** `calculateTotals`: cash items at base price, transfer items surcharged, other items nowhere. */
  function CalculateTotals(items: seq<CartItem>, pricing: Pricing): CheckoutTotals {
    CheckoutTotals(SumBase(Filter(items, PaidInCash), pricing), SumTransfer(Filter(items, PaidByTransfer), pricing))
  }

  /** The surcharge part of the transfer total. */
  function TransferFee(items: seq<CartItem>, pricing: Pricing): int {
    CalculateTotals(items, pricing).transferTotal - SumBase(Filter(items, PaidByTransfer), pricing)
  }

  /** What one item adds to the amount to pay, judged on its own. */
  function ItemCharge(item: CartItem, pricing: Pricing): int {
    if PaidInCash(item) then BasePrice(item, pricing)
    else if PaidByTransfer(item) then Surcharged(BasePrice(item, pricing), pricing.transferFeePercentage)
    else 0
  }

  function SumCharges(items: seq<CartItem>, pricing: Pricing): int {
    if items == [] then 0 else ItemCharge(items[0], pricing) + SumCharges(items[1..], pricing)
  }

  lemma {:induction false} SumBaseAppend(a: seq<CartItem>, b: seq<CartItem>, pricing: Pricing)
    ensures SumBase(a + b, pricing) == SumBase(a, pricing) + SumBase(b, pricing)
  {
    if a == [] {
      assert a + b == b;
    } else {
      assert (a + b)[1..] == a[1..] + b;
      SumBaseAppend(a[1..], b, pricing);
    }
  }

  lemma {:induction false} SumTransferAppend(a: seq<CartItem>, b: seq<CartItem>, pricing: Pricing)
    ensures SumTransfer(a + b, pricing) == SumTransfer(a, pricing) + SumTransfer(b, pricing)
  {
    if a == [] {
      assert a + b == b;
    } else {
      assert (a + b)[1..] == a[1..] + b;
      SumTransferAppend(a[1..], b, pricing);
    }
  }

  /** Totals of a cart split in two are the sums of the parts' totals. */
  lemma TotalsAppend(a: seq<CartItem>, b: seq<CartItem>, pricing: Pricing)
    ensures CalculateTotals(a + b, pricing).cashTotal ==
            CalculateTotals(a, pricing).cashTotal + CalculateTotals(b, pricing).cashTotal
    ensures CalculateTotals(a + b, pricing).transferTotal ==
            CalculateTotals(a, pricing).transferTotal + CalculateTotals(b, pricing).transferTotal
    ensures TransferFee(a + b, pricing) == TransferFee(a, pricing) + TransferFee(b, pricing)
  {
    FilterAppend(a, b, PaidInCash);
    FilterAppend(a, b, PaidByTransfer);
    SumBaseAppend(Filter(a, PaidInCash), Filter(b, PaidInCash), pricing);
    SumBaseAppend(Filter(a, PaidByTransfer), Filter(b, PaidByTransfer), pricing);
    SumTransferAppend(Filter(a, PaidByTransfer), Filter(b, PaidByTransfer), pricing);
  }

  /** Splitting by payment type and summing agrees with charging each item on its own. */
  lemma {:induction false} TotalsMatchItemCharges(items: seq<CartItem>, pricing: Pricing)
    ensures CalculateTotals(items, pricing).cashTotal + CalculateTotals(items, pricing).transferTotal ==
            SumCharges(items, pricing)
  {
    if items != [] {
      assert items == [items[0]] + items[1..];
      TotalsAppend([items[0]], items[1..], pricing);
      TotalsMatchItemCharges(items[1..], pricing);
    }
  }

  /** An item paid neither in cash nor by transfer changes no total. */
  lemma OtherPaymentCountsNowhere(items: seq<CartItem>, item: CartItem, pricing: Pricing)
    requires !PaidInCash(item) && !PaidByTransfer(item)
    ensures CalculateTotals(items + [item], pricing) == CalculateTotals(items, pricing)
    ensures TransferFee(items + [item], pricing) == TransferFee(items, pricing)
  {
    TotalsAppend(items, [item], pricing);
  }

  lemma {:induction false} SumTransferAtLeastBase(items: seq<CartItem>, pricing: Pricing)
    requires pricing.moviePrice >= 0 && pricing.seriesPrice >= 0 && pricing.transferFeePercentage >= 0
    ensures SumTransfer(items, pricing) >= SumBase(items, pricing)
  {
    if items != [] {
      var b := BasePrice(items[0], pricing);
      assert b >= 0 by {
        assert SeasonCount(items[0]) * pricing.seriesPrice >= 0;
      }
      SurchargeNotBelowBase(b, pricing.transferFeePercentage);
      SumTransferAtLeastBase(items[1..], pricing);
    }
  }

  /** With non-negative prices and fee, the transfer surcharge is never negative. */
  lemma TransferFeeNonNegative(items: seq<CartItem>, pricing: Pricing)
    requires pricing.moviePrice >= 0 && pricing.seriesPrice >= 0 && pricing.transferFeePercentage >= 0
    ensures TransferFee(items, pricing) >= 0
  {
    SumTransferAtLeastBase(Filter(items, PaidByTransfer), pricing);
  }

  lemma {:induction false} SumTransferAtZeroFee(items: seq<CartItem>, pricing: Pricing)
    requires pricing.transferFeePercentage == 0
    ensures SumTransfer(items, pricing) == SumBase(items, pricing)
  {
    if items != [] {
      SurchargeZeroFee(BasePrice(items[0], pricing));
      SumTransferAtZeroFee(items[1..], pricing);
    }
  }

  /** With a zero fee there is no surcharge at all. */
  lemma TransferFeeZeroAtZeroFee(items: seq<CartItem>, pricing: Pricing)
    requires pricing.transferFeePercentage == 0
    ensures TransferFee(items, pricing) == 0
  {
    SumTransferAtZeroFee(Filter(items, PaidByTransfer), pricing);
  }

  /** An empty cart has all-zero totals. */
  lemma EmptyCartTotals(pricing: Pricing)
    ensures CalculateTotals([], pricing) == CheckoutTotals(0, 0) && TransferFee([], pricing) == 0
  {
  }

  /** A movie at 80 with a 10% fee costs 88 by transfer; three seasons at 300 cost 900 in cash. */
  lemma PriceExamples()
    ensures var movie := CartItem("m", "movie", None, "transfer");
      CalculateTotals([movie], AdminStore.Pricing(80, 300, 10)) == CheckoutTotals(0, 88)
    ensures var series := CartItem("s", "tv", Some([1, 2, 3]), "cash");
      CalculateTotals([series], AdminStore.Pricing(80, 300, 10)) == CheckoutTotals(900, 0)
  {
    var movie := CartItem("m", "movie", None, "transfer");
    var series := CartItem("s", "tv", Some([1, 2, 3]), "cash");
    assert Filter([movie], PaidInCash) == [];
    assert Filter([movie], PaidByTransfer) == [movie];
    assert Filter([series], PaidInCash) == [series];
    assert Filter([series], PaidByTransfer) == [];
  }

  // ---------------------------------------------------------------------------
  // Delivery

  function ZonePath(z: DeliveryZone): string { z.fullPath }

  /** The first zone whose path is the selected one. */
  function SelectedZone(zones: seq<DeliveryZone>, deliveryZone: string): Option<DeliveryZone> {
    FindFirst(zones, ZonePath, deliveryZone)
  }

  /** The cost of the first zone with that path, 0 when none has it (or its cost is falsy). */
  function DeliveryCost(zones: seq<DeliveryZone>, deliveryZone: string): (c: int)
    ensures (forall i :: 0 <= i < |zones| ==> zones[i].fullPath != deliveryZone) ==> c == 0
    ensures forall i :: (0 <= i < |zones| && zones[i].fullPath == deliveryZone &&
                         (forall j :: 0 <= j < i ==> zones[j].fullPath != deliveryZone)) ==> c == zones[i].cost
  {
    match SelectedZone(zones, deliveryZone)
    case Some(z) => OrElse(Some(z.cost), 0)
    case None => 0
  }

  /** The caller's total plus delivery, not the dialog's own cash and transfer totals. */
  function FinalTotal(total: int, zones: seq<DeliveryZone>, deliveryZone: string): (t: int)
    ensures t - total == DeliveryCost(zones, deliveryZone)
  {
    total + DeliveryCost(zones, deliveryZone)
  }

  /** Choosing a zone adds that zone's cost to the caller's total; an unknown path adds nothing. */
  lemma FinalTotalOfZone(total: int, zones: seq<DeliveryZone>, i: int, path: string)
    requires UniqueKeys(zones, ZonePath) && 0 <= i < |zones|
    requires forall j :: 0 <= j < |zones| ==> zones[j].fullPath != path
    ensures FinalTotal(total, zones, zones[i].fullPath) == total + zones[i].cost
    ensures FinalTotal(total, zones, path) == total
  {
    DeliveryCostOfZone(zones, i);
  }

  /** With non-negative zone costs the final total is never below the caller's total. */
  lemma FinalTotalNotBelowTotal(total: int, zones: seq<DeliveryZone>, path: string)
    requires forall j :: 0 <= j < |zones| ==> zones[j].cost >= 0
    ensures FinalTotal(total, zones, path) >= total
  {
    match SelectedZone(zones, path)
    case Some(z) =>
      assert z in zones;
    case None =>
  }

  /** When paths are unique, choosing a zone's path charges exactly that zone's cost. */
  lemma DeliveryCostOfZone(zones: seq<DeliveryZone>, i: int)
    requires UniqueKeys(zones, ZonePath) && 0 <= i < |zones|
    ensures DeliveryCost(zones, zones[i].fullPath) == zones[i].cost
  {
    FindFirstUnique(zones, ZonePath, i);
  }

  /** The shipped zones: 23 of them, the first the free placeholder. */
  lemma ShippedPlaceholder()
    ensures |CurrentDeliveryZones| == 23
    ensures CurrentDeliveryZones[0] == AdminStore.DeliveryZone(1, PlaceholderZone, PlaceholderZone, 0, true)
    ensures DeliveryCost(CurrentDeliveryZones, PlaceholderZone) == 0
  {
    assert FindFirst(CurrentDeliveryZones, ZonePath, PlaceholderZone) == Some(CurrentDeliveryZones[0]);
  }

  /** With the shipped zones, the placeholder adds nothing to the caller's total. */
  lemma ShippedPlaceholderFinalTotal(total: int)
    ensures FinalTotal(total, CurrentDeliveryZones, PlaceholderZone) == total
  {
    ShippedPlaceholder();
  }

  function ZoneActive(z: DeliveryZone): bool { z.active }

  /**
   * The zone list a regenerated checkout prices with: the administrator's
   * zones that are active, in their order.
   */
  function ActiveZones(zones: seq<DeliveryZone>): seq<DeliveryZone> {
    Filter(zones, ZoneActive)
  }

  /**
   * A zone the administrator adds without a path, under a name no listed zone's
   * path uses, is found by its default path in the regenerated checkout list
   * exactly when it is active, and then its cost is charged.
   */
  lemma AddedZoneSelectable(zones: seq<DeliveryZone>, d: AdminStore.ZoneDraft, id: int)
    requires d.fullPath == ""
    requires forall j :: 0 <= j < |zones| ==> zones[j].fullPath != AdminStore.DefaultFullPath(d.name)
    ensures SelectedZone(ActiveZones(zones + [AdminStore.NewZone(d, id)]), AdminStore.DefaultFullPath(d.name)) ==
            if d.active then Some(AdminStore.NewZone(d, id)) else None
    ensures DeliveryCost(ActiveZones(zones + [AdminStore.NewZone(d, id)]), AdminStore.DefaultFullPath(d.name)) ==
            if d.active then d.cost else 0
  {
    var z := AdminStore.NewZone(d, id);
    var path := AdminStore.DefaultFullPath(d.name);
    FilterAppend(zones, [z], ZoneActive);
    var front := Filter(zones, ZoneActive);
    FilterKeepsProperty(zones, ZoneActive, (x: DeliveryZone) => x.fullPath != path);
    assert [z][1..] == [];
    if d.active {
      assert Filter([z], ZoneActive) == [z];
      var zs := front + [z];
      assert zs[|front|] == z;
      assert forall j :: 0 <= j < |front| ==> zs[j] == front[j];
    } else {
      assert Filter([z], ZoneActive) == [];
      assert front + [] == front;
    }
  }

  /** The shipped zone ids run 1..23 in order, so they are unique. */
  lemma ShippedZoneIds()
    ensures forall i :: 0 <= i < |CurrentDeliveryZones| ==> CurrentDeliveryZones[i].id == i + 1
  {
  }

  // ---------------------------------------------------------------------------
  // The form

  datatype CustomerInfo = CustomerInfo(fullName: string, phone: string, address: string)

  /** The characters `String.prototype.trim` strips: white space and line terminators. */
  predicate IsTrimmable(c: char) {
    c == ' ' || c == '\t' || c == '\n' || c == '\r' || c == '\U{B}' || c == '\U{C}' ||
    c == '\U{A0}' || c == '\U{1680}' || ('\U{2000}' <= c <= '\U{200A}') || c == '\U{2028}' ||
    c == '\U{2029}' || c == '\U{202F}' || c == '\U{205F}' || c == '\U{3000}' || c == '\U{FEFF}'
  }

  /** Drops leading trimmable characters. */
  function TrimStart(s: string): string {
    if s != [] && IsTrimmable(s[0]) then TrimStart(s[1..]) else s
  }

  /** Drops trailing trimmable characters. */
  function TrimEnd(s: string): string {
    if s != [] && IsTrimmable(s[|s| - 1]) then TrimEnd(s[..|s| - 1]) else s
  }

  /** `TrimStart` leaves a suffix that starts with a visible character, having dropped only white space. */
  lemma {:induction false} TrimStartSpec(s: string)
    ensures var r := TrimStart(s);
      |r| <= |s| && r == s[|s| - |r|..] &&
      (r != [] ==> !IsTrimmable(r[0])) &&
      forall i :: 0 <= i < |s| - |r| ==> IsTrimmable(s[i])
  {
    if s != [] && IsTrimmable(s[0]) {
      TrimStartSpec(s[1..]);
      var r := TrimStart(s[1..]);
      forall i | 1 <= i < |s| - |r| ensures IsTrimmable(s[i]) { assert s[i] == s[1..][i - 1]; }
    }
  }

  /** `TrimEnd` leaves a prefix that ends with a visible character, having dropped only white space. */
  lemma {:induction false} TrimEndSpec(s: string)
    ensures var r := TrimEnd(s);
      |r| <= |s| && r == s[..|r|] &&
      (r != [] ==> !IsTrimmable(r[|r| - 1])) &&
      forall i :: |r| <= i < |s| ==> IsTrimmable(s[i])
  {
    if s != [] && IsTrimmable(s[|s| - 1]) {
      TrimEndSpec(s[..|s| - 1]);
      var r := TrimEnd(s[..|s| - 1]);
      forall i | |r| <= i < |s| - 1 ensures IsTrimmable(s[i]) { assert s[i] == s[..|s| - 1][i]; }
    }
  }

  /** White space stripped from both ends. */
  function Trim(s: string): string {
    TrimEnd(TrimStart(s))
  }

  /** The string has something besides white space. */
  ghost predicate HasVisibleChar(s: string) {
    exists i :: 0 <= i < |s| && !IsTrimmable(s[i])
  }

  /** A string trims to the empty string exactly when it is all white space. */
  lemma TrimEmptyIffBlank(s: string)
    ensures Trim(s) == "" <==> !HasVisibleChar(s)
  {
    TrimStartSpec(s);
    var t := TrimStart(s);
    TrimEndSpec(t);
    if t != [] {
      assert !IsTrimmable(t[0]);
      assert t[0] == s[|s| - |t|];
      var u := TrimEnd(t);
      assert u != [];
    } else {
      assert forall i :: 0 <= i < |s| ==> IsTrimmable(s[i]);
    }
  }

  /** `isFormValid`. */
  predicate IsFormValid(info: CustomerInfo, deliveryZone: string) {
    Trim(info.fullName) != "" && Trim(info.phone) != "" && Trim(info.address) != "" &&
    deliveryZone != PlaceholderZone
  }

  /** The form is valid exactly when name, phone and address are not blank and a real zone is chosen. */
  lemma FormValidIff(info: CustomerInfo, deliveryZone: string)
    ensures IsFormValid(info, deliveryZone) <==>
              HasVisibleChar(info.fullName) && HasVisibleChar(info.phone) && HasVisibleChar(info.address) &&
              deliveryZone != PlaceholderZone
  {
    TrimEmptyIffBlank(info.fullName);
    TrimEmptyIffBlank(info.phone);
    TrimEmptyIffBlank(info.address);
  }

  // ---------------------------------------------------------------------------
  // The order text

  /** One product entry of the order text. */
  datatype ItemLine = ItemLine(title: string, seasons: seq<int>, isMovie: bool, byTransfer: bool, price: int)

  /** The line prices of the items, added up. */
  function SumLinePrices(items: seq<CartItem>, pricing: Pricing): int {
    if items == [] then 0 else ItemLineOf(items[0], pricing).price + SumLinePrices(items[1..], pricing)
  }

  /**
   * When every item is paid in cash or by transfer, the prices shown on the
   * product lines add up to the cash total plus the transfer total.
   */
  lemma LinePricesMatchTotals(items: seq<CartItem>, pricing: Pricing)
    requires forall i :: 0 <= i < |items| ==> PaidInCash(items[i]) || PaidByTransfer(items[i])
    ensures SumLinePrices(items, pricing) ==
            CalculateTotals(items, pricing).cashTotal + CalculateTotals(items, pricing).transferTotal
  {
    LinePricesMatchCharges(items, pricing);
    TotalsMatchItemCharges(items, pricing);
  }

  lemma {:induction false} LinePricesMatchCharges(items: seq<CartItem>, pricing: Pricing)
    requires forall i :: 0 <= i < |items| ==> PaidInCash(items[i]) || PaidByTransfer(items[i])
    ensures SumLinePrices(items, pricing) == SumCharges(items, pricing)
  {
    if items != [] {
      LinePricesMatchCharges(items[1..], pricing);
    }
  }

  /** The product entry for one item: its price is surcharged when it is paid by transfer. */
  function ItemLineOf(item: CartItem, pricing: Pricing): (l: ItemLine)
    ensures l.byTransfer ==> l.price == Surcharged(BasePrice(item, pricing), pricing.transferFeePercentage)
    ensures !l.byTransfer ==> l.price == BasePrice(item, pricing)
    ensures l.byTransfer <==> PaidByTransfer(item)
  {
    var seasons := if item.selectedSeasons.Some? then item.selectedSeasons.value else [];
    var base := BasePrice(item, pricing);
    ItemLine(item.title, seasons, item.itemType == "movie", PaidByTransfer(item),
             if PaidByTransfer(item) then Surcharged(base, pricing.transferFeePercentage) else base)
  }

  /** The product entries of the order text, one per cart item, in cart order. */
  function ProductLines(items: seq<CartItem>, pricing: Pricing): (ls: seq<ItemLine>)
    ensures |ls| == |items|
  {
    seq(|items|, i requires 0 <= i < |items| => ItemLineOf(items[i], pricing))
  }

  /** The lines of the order text; amounts are kept as numbers, the wording is not modelled. */
  datatype OrderLine =
    | Heading
    | OrderIdLine(orderId: string)
    | CustomerHeading
    | NameLine(fullName: string)
    | PhoneLine(phone: string)
    | AddressLine(address: string)
    | ProductsLine(products: seq<ItemLine>)
    | CostsHeading
    | CashLine(cashTotal: int)
    | TransferLine(transferTotal: int)
    | SubtotalLine(subtotal: int)
    | SurchargeLine(percentage: int, transferFee: int)
    | DeliveryLine(zoneName: string, deliveryCost: int)
    | FinalTotalLine(finalTotal: int)
    | ZoneHeading
    | ZonePathLine(deliveryZone: string)
    | DeliveryCostLine(deliveryCost: int)
    | DateLine(date: string)
    | ThanksLine

  /** The selected zone's name, or the "unknown zone" label when there is none or it is empty. */
  function ZoneName(zones: seq<DeliveryZone>, deliveryZone: string): string {
    match SelectedZone(zones, deliveryZone)
    case Some(z) => if z.name != "" then z.name else "Zona desconocida"
    case None => "Zona desconocida"
  }

  /** With unique paths a chosen zone is named by its own name; an unknown path gets the fallback label. */
  lemma ZoneNameOfZone(zones: seq<DeliveryZone>, i: int, path: string)
    requires UniqueKeys(zones, ZonePath) && 0 <= i < |zones| && zones[i].name != ""
    requires forall j :: 0 <= j < |zones| ==> zones[j].fullPath != path
    ensures ZoneName(zones, zones[i].fullPath) == zones[i].name
    ensures ZoneName(zones, path) == "Zona desconocida"
  {
    FindFirstUnique(zones, ZonePath, i);
  }

  /**
   * What the cost summary of an order text shows: the cash, transfer and
   * surcharge lines only when their amount is positive, the subtotal, delivery
   * and final-total lines always, and no other amounts.
   */
  ghost predicate SummarizesCosts(lines: seq<OrderLine>, t: CheckoutTotals, percentage: int, transferFee: int,
                                  subtotal: int, zoneName: string, deliveryCost: int)
  {
    (CashLine(t.cashTotal) in lines <==> t.cashTotal > 0) &&
    (TransferLine(t.transferTotal) in lines <==> t.transferTotal > 0) &&
    (SurchargeLine(percentage, transferFee) in lines <==> transferFee > 0) &&
    SubtotalLine(subtotal) in lines &&
    DeliveryLine(zoneName, deliveryCost) in lines &&
    FinalTotalLine(subtotal + deliveryCost) in lines &&
    forall i :: 0 <= i < |lines| ==> AmountAgrees(lines[i], t, percentage, transferFee, subtotal, deliveryCost)
  }

  /** An amount line states the amount the summary is about. */
  predicate AmountAgrees(l: OrderLine, t: CheckoutTotals, percentage: int, transferFee: int, subtotal: int,
                         deliveryCost: int)
  {
    (l.CashLine? ==> l == CashLine(t.cashTotal)) &&
    (l.TransferLine? ==> l == TransferLine(t.transferTotal)) &&
    (l.SurchargeLine? ==> l == SurchargeLine(percentage, transferFee)) &&
    (l.SubtotalLine? ==> l == SubtotalLine(subtotal)) &&
    (l.FinalTotalLine? ==> l == FinalTotalLine(subtotal + deliveryCost))
  }

  /** No line of `lines` states an amount the cost summary speaks about. */
  predicate FreeOfAmounts(lines: seq<OrderLine>) {
    forall i :: 0 <= i < |lines| ==>
      !lines[i].CashLine? && !lines[i].TransferLine? && !lines[i].SurchargeLine? &&
      !lines[i].SubtotalLine? && !lines[i].FinalTotalLine?
  }

  /** Lines around the cost summary that state no amounts leave the summary intact. */
  lemma SummaryFramed(header: seq<OrderLine>, costs: seq<OrderLine>, footer: seq<OrderLine>, t: CheckoutTotals,
                      percentage: int, transferFee: int, subtotal: int, zoneName: string, deliveryCost: int)
    requires FreeOfAmounts(header) && FreeOfAmounts(footer)
    requires SummarizesCosts(costs, t, percentage, transferFee, subtotal, zoneName, deliveryCost)
    ensures SummarizesCosts(header + costs + footer, t, percentage, transferFee, subtotal, zoneName, deliveryCost)
  {
    var lines := header + costs + footer;
    forall i | 0 <= i < |lines|
      ensures AmountAgrees(lines[i], t, percentage, transferFee, subtotal, deliveryCost)
    {
      if i < |header| {
        assert lines[i] == header[i];
      } else if i < |header| + |costs| {
        assert lines[i] == costs[i - |header|];
      } else {
        assert lines[i] == footer[i - |header| - |costs|];
      }
    }
    assert CashLine(t.cashTotal) in lines ==> CashLine(t.cashTotal) in costs;
    assert TransferLine(t.transferTotal) in lines ==> TransferLine(t.transferTotal) in costs;
    assert SurchargeLine(percentage, transferFee) in lines ==> SurchargeLine(percentage, transferFee) in costs;
  }

  /** The cost section of the order text, each amount line written only where the source writes it. */
  method CostSection(t: CheckoutTotals, percentage: int, transferFee: int, subtotal: int,
                     zoneName: string, deliveryCost: int)
    returns (costs: seq<OrderLine>)
    ensures SummarizesCosts(costs, t, percentage, transferFee, subtotal, zoneName, deliveryCost)
  {
    costs := [];
    if t.cashTotal > 0 {
      costs := costs + [CashLine(t.cashTotal)];
    }
    if t.transferTotal > 0 {
      costs := costs + [TransferLine(t.transferTotal)];
    }
    costs := costs + [SubtotalLine(subtotal)];
    if transferFee > 0 {
      costs := costs + [SurchargeLine(percentage, transferFee)];
    }
    costs := costs + [DeliveryLine(zoneName, deliveryCost), FinalTotalLine(subtotal + deliveryCost)];
  }

  /**
   * What an order text says: the heading first and the thanks last; the order
   * id, the customer's name, phone and address, and the product entries; and
   * the cost summary of the cart, the caller's total and the chosen zone.
   */
  ghost predicate DescribesOrder(lines: seq<OrderLine>, info: CustomerInfo, items: seq<CartItem>, total: int,
                                 zones: seq<DeliveryZone>, deliveryZone: string, pricing: Pricing, orderId: string)
  {
    |lines| > 0 && lines[0] == Heading && lines[|lines| - 1] == ThanksLine &&
    OrderIdLine(orderId) in lines && NameLine(info.fullName) in lines && PhoneLine(info.phone) in lines &&
    AddressLine(info.address) in lines &&
    ProductsLine(ProductLines(items, pricing)) in lines &&
    SummarizesCosts(lines, CalculateTotals(items, pricing), pricing.transferFeePercentage,
                    TransferFee(items, pricing), total, ZoneName(zones, deliveryZone),
                    DeliveryCost(zones, deliveryZone))
  }

  /** `generateOrderText`: the order text, line by line. */
  method GenerateOrderText(info: CustomerInfo, items: seq<CartItem>, total: int, zones: seq<DeliveryZone>,
                           deliveryZone: string, pricing: Pricing, orderId: string, date: string)
    returns (lines: seq<OrderLine>)
    ensures DescribesOrder(lines, info, items, total, zones, deliveryZone, pricing, orderId)
  {
    var totals := CalculateTotals(items, pricing);
    var transferFee := TransferFee(items, pricing);
    var zoneName := ZoneName(zones, deliveryZone);
    var products := ProductLines(items, pricing);
    var deliveryCost := DeliveryCost(zones, deliveryZone);

    var header := [Heading, OrderIdLine(orderId),
                   CustomerHeading, NameLine(info.fullName), PhoneLine(info.phone), AddressLine(info.address),
                   ProductsLine(products), CostsHeading];
    var costs := CostSection(totals, pricing.transferFeePercentage, transferFee, total, zoneName, deliveryCost);
    var footer := [ZoneHeading, ZonePathLine(deliveryZone), DeliveryCostLine(deliveryCost), DateLine(date), ThanksLine];
    SummaryFramed(header, costs, footer, totals, pricing.transferFeePercentage, transferFee, total,
                  zoneName, deliveryCost);
    lines := header + costs + footer;
    assert lines[0] == header[0];
    assert lines[|lines| - 1] == footer[4];
    assert header <= lines;
  }

  // ---------------------------------------------------------------------------
  // Submitting

  datatype OrderData = OrderData(
    orderId: string,
    customerInfo: CustomerInfo,
    deliveryZone: string,
    deliveryCost: int,
    items: seq<CartItem>,
    subtotal: int,
    transferFee: int,
    total: int,
    cashTotal: int,
    transferTotal: int)

  /**
   * The order `handleSubmit` hands to the caller: refused only for the
   * placeholder zone (the customer fields are not checked again); the
   * subtotal is the caller's total and the total adds the delivery cost.
   */
  function SubmitOrder(info: CustomerInfo, items: seq<CartItem>, total: int, zones: seq<DeliveryZone>,
                       deliveryZone: string, pricing: Pricing, orderId: string): (r: Option<OrderData>)
    ensures r.None? <==> deliveryZone == PlaceholderZone
    ensures r.Some? ==>
              r.value.customerInfo == info && r.value.items == items && r.value.orderId == orderId &&
              r.value.deliveryZone == deliveryZone &&
              r.value.subtotal == total &&
              r.value.total == total + r.value.deliveryCost &&
              r.value.deliveryCost == DeliveryCost(zones, deliveryZone) &&
              r.value.cashTotal == SumBase(Filter(items, PaidInCash), pricing) &&
              r.value.transferTotal - r.value.transferFee == SumBase(Filter(items, PaidByTransfer), pricing) &&
              r.value.transferTotal == SumTransfer(Filter(items, PaidByTransfer), pricing)
  {
    if deliveryZone == PlaceholderZone then None
    else
      var totals := CalculateTotals(items, pricing);
      var deliveryCost := DeliveryCost(zones, deliveryZone);
      Some(OrderData(orderId, info, deliveryZone, deliveryCost, items, total, TransferFee(items, pricing),
                     FinalTotal(total, zones, deliveryZone), totals.cashTotal, totals.transferTotal))
  }

  /** The field `handleInputChange` writes, by input name. */
  datatype CustomerField = FullName | Phone | Address

  /**
   * The dialog's state; `items` and `total` are the caller's props, `pricing`
   * and `zones` the snapshots the dialog prices with.
   */
  class CheckoutModal {
    const items: seq<CartItem>
    const total: int
    const pricing: Pricing
    const zones: seq<DeliveryZone>
    var customerInfo: CustomerInfo
    var deliveryZone: string
    var isProcessing: bool
    var orderGenerated: bool
    var generatedOrder: seq<OrderLine>

    constructor (items: seq<CartItem>, total: int)
      ensures this.items == items && this.total == total
      ensures pricing == CurrentPricing && zones == CurrentDeliveryZones
      ensures customerInfo == CustomerInfo("", "", "") && deliveryZone == PlaceholderZone
      ensures !isProcessing && !orderGenerated && generatedOrder == []
    {
      this.items := items;
      this.total := total;
      pricing := CurrentPricing;
      zones := CurrentDeliveryZones;
      customerInfo := CustomerInfo("", "", "");
      deliveryZone := PlaceholderZone;
      isProcessing := false;
      orderGenerated := false;
      generatedOrder := [];
    }

    predicate FormValid()
      reads this
    {
      IsFormValid(customerInfo, deliveryZone)
    }

    /** `handleInputChange`: one customer field takes the typed value. */
    method HandleInputChange(field: CustomerField, value: string)
      modifies this
      ensures customerInfo == match field
        case FullName => old(customerInfo).(fullName := value)
        case Phone => old(customerInfo).(phone := value)
        case Address => old(customerInfo).(address := value)
      ensures deliveryZone == old(deliveryZone) && orderGenerated == old(orderGenerated) &&
              generatedOrder == old(generatedOrder) && isProcessing == old(isProcessing)
    {
      match field
      case FullName => customerInfo := customerInfo.(fullName := value);
      case Phone => customerInfo := customerInfo.(phone := value);
      case Address => customerInfo := customerInfo.(address := value);
    }

    /** `setDeliveryZone` from the zone selector. */
    method SelectZone(path: string)
      modifies this
      ensures deliveryZone == path
      ensures customerInfo == old(customerInfo) && orderGenerated == old(orderGenerated) &&
              generatedOrder == old(generatedOrder) && isProcessing == old(isProcessing)
    {
      deliveryZone := path;
    }

    method HandleGenerateOrder(orderId: string, date: string)
      modifies this
      ensures !old(FormValid()) ==>
                orderGenerated == old(orderGenerated) && generatedOrder == old(generatedOrder)
      ensures old(FormValid()) ==> orderGenerated
      ensures old(FormValid()) ==>
                DescribesOrder(generatedOrder, customerInfo, items, total, zones, deliveryZone, pricing, orderId)
      ensures customerInfo == old(customerInfo) && deliveryZone == old(deliveryZone) &&
              isProcessing == old(isProcessing)
    {
      if FormValid() {
        var lines := GenerateOrderText(customerInfo, items, total, zones, deliveryZone, pricing, orderId, date);
        generatedOrder := lines;
        orderGenerated := true;
      }
    }

    /** `handleSubmit`: the order handed to the caller, or none for the placeholder zone. */
    method HandleSubmit(orderId: string) returns (order: Option<OrderData>)
      modifies this
      ensures order == SubmitOrder(customerInfo, items, total, zones, deliveryZone,
                                   pricing, orderId)
      ensures deliveryZone != PlaceholderZone ==> !isProcessing
      ensures deliveryZone == PlaceholderZone ==> isProcessing == old(isProcessing)
      ensures customerInfo == old(customerInfo) && deliveryZone == old(deliveryZone) &&
              orderGenerated == old(orderGenerated) && generatedOrder == old(generatedOrder)
    {
      if deliveryZone == PlaceholderZone {
        return None;
      }
      isProcessing := true;
      order := SubmitOrder(customerInfo, items, total, zones, deliveryZone, pricing, orderId);
      isProcessing := false;
    }
  }
}
