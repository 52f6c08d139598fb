/**
 * The novela catalog dialog: the list of selected novela ids (a toggle set),
 * the payment type chosen per novela, the totals over the selected novelas
 * and the order message sent for them. Costs come from the dialog's own
 * catalog snapshot (`CurrentCatalog`), falling back to 5 CUP per chapter when
 * a stored cost is missing or 0; the pure functions take the catalog and the
 * fee as parameters.
 */
module Novelas {
  import opened Wrappers
  import opened Keyed
  import opened Money
  import AdminStore

  type Pricing = AdminStore.Pricing
  type CatalogEntry = AdminStore.Novela

  /** The pricing snapshot the dialog shows; its fee is 15%. */
  const CurrentPricingConfig: Pricing := AdminStore.Pricing(90, 350, 15)

  /** The catalog snapshot the dialog prices with. */
  const CurrentCatalog: seq<CatalogEntry> := CatalogSnapshot()

  function CatalogSnapshot(): seq<CatalogEntry> {
    [
      AdminStore.Novela(1, "Corazón Salvaje 234", "Drama/Romance", 185, 2009, 925, 1018,
        Some("Una apasionante historia de amor y venganza")),
      AdminStore.Novela(2, "La Usurpadora", "Drama/Melodrama", 98, 1998, 490, 539,
        Some("La historia de dos mujeres idénticas con destinos opuestos")),
      AdminStore.Novela(3, "María la del Barrio", "Drama/Romance", 73, 1995, 365, 402,
        Some("Una joven humilde que conquista el corazón de un millonario")),
      AdminStore.Novela(4, "Marimar", "Drama/Romance", 63, 1994, 315, 347,
        Some("La transformación de una joven de la playa en una mujer sofisticada")),
      AdminStore.Novela(5, "Rosalinda", "Drama/Romance", 80, 1999, 400, 440,
        Some("Una historia de amor que supera las diferencias sociales")),
      AdminStore.Novela(6, "La Madrastra", "Drama/Suspenso", 135, 2005, 675, 743,
        Some("Una mujer lucha por demostrar su inocencia")),
      AdminStore.Novela(7, "Rubí", "Drama/Melodrama", 115, 2004, 575, 633,
        Some("La ambición desmedida de una mujer hermosa")),
      AdminStore.Novela(8, "Pasión de Gavilanes", "Drama/Romance", 188, 2003, 940, 1034,
        Some("Tres hermanos buscan venganza pero encuentran el amor")),
      AdminStore.Novela(9, "Yo Soy Betty, la Fea", "Comedia/Romance", 335, 1999, 1675, 1843,
        Some("La transformación de una secretaria en una mujer exitosa")),
      AdminStore.Novela(10, "El Cuerpo del Deseo", "Drama/Fantasía", 178, 2005, 890, 979,
        Some("Una historia sobrenatural de amor y reencarnación"))
    ]
  }

  /** Every shipped entry is priced at 5 CUP per chapter, and by transfer at 10% more. */
  lemma ShippedCatalogCosts()
    ensures |CurrentCatalog| == 10
    ensures forall i :: 0 <= i < |CurrentCatalog| ==>
              CurrentCatalog[i].id == i + 1 &&
              0 < CurrentCatalog[i].costoEfectivo < CurrentCatalog[i].costoTransferencia &&
              CurrentCatalog[i].costoEfectivo == CurrentCatalog[i].capitulos * ChapterPrice &&
              CurrentCatalog[i].costoTransferencia == Surcharged(CurrentCatalog[i].costoEfectivo, 10)
  {
  }

  /** No shipped transfer cost is the one the configured 15% fee would give. */
  lemma ShippedCatalogIgnoresConfiguredFee()
    ensures forall i :: 0 <= i < |CurrentCatalog| ==>
              CurrentCatalog[i].costoTransferencia !=
              Surcharged(CurrentCatalog[i].costoEfectivo, CurrentPricingConfig.transferFeePercentage)
  {
  }

  /** The shipped catalog ids are unique. */
  lemma ShippedCatalogIdsUnique()
    ensures UniqueKeys(CurrentCatalog, AdminStore.NovelaId)
  {
    ShippedCatalogCosts();
  }

  // ---------------------------------------------------------------------------
  // What the dialog lists

  datatype PaymentType = Cash | Transfer

  /** A novela as the dialog holds it: no costs, and a payment type once one is set. */
  datatype ModalNovela = ModalNovela(
    id: int,
    titulo: string,
    genero: string,
    capitulos: int,
    anio: int,
    descripcion: Option<string>,
    paymentType: Option<PaymentType>)

  function ModalId(n: ModalNovela): int { n.id }

  /** `novelas`: the catalog as the dialog lists it, costs dropped, in catalog order. */
  function CatalogView(catalog: seq<CatalogEntry>): (r: seq<ModalNovela>)
    ensures |r| == |catalog|
    ensures forall i :: 0 <= i < |r| ==>
              r[i].id == catalog[i].id && r[i].titulo == catalog[i].titulo && r[i].genero == catalog[i].genero &&
              r[i].capitulos == catalog[i].capitulos && r[i].anio == catalog[i].anio &&
              r[i].descripcion == catalog[i].descripcion && r[i].paymentType.None?
  {
    seq(|catalog|, i requires 0 <= i < |catalog| =>
      var c := catalog[i];
      ModalNovela(c.id, c.titulo, c.genero, c.capitulos, c.anio, c.descripcion, None))
  }

  /** The mount effect's list: every novela paid in cash, nothing else changed. */
  function WithDefaultPayment(ns: seq<ModalNovela>): (r: seq<ModalNovela>)
    ensures |r| == |ns|
    ensures forall i :: 0 <= i < |r| ==> r[i].paymentType == Some(Cash) && r[i].(paymentType := None) == ns[i].(paymentType := None)
  {
    seq(|ns|, i requires 0 <= i < |ns| => ns[i].(paymentType := Some(Cash)))
  }

  /** The ids of the listed novelas, in order. */
  function Ids(ns: seq<ModalNovela>): (r: seq<int>)
    ensures |r| == |ns| && forall i :: 0 <= i < |r| ==> r[i] == ns[i].id
  {
    seq(|ns|, i requires 0 <= i < |ns| => ns[i].id)
  }

  // ---------------------------------------------------------------------------
  // The selection

  function IdOf(x: int): int { x }

  /** No id is selected twice. */
  ghost predicate NoDup(selected: seq<int>) {
    UniqueKeys(selected, IdOf)
  }

  /** `handleNovelToggle`: a selected id is removed, any other is appended at the end. */
  function Toggle(selected: seq<int>, id: int): (r: seq<int>)
    ensures forall x :: x in r <==> (x in selected) != (x == id)
    ensures id !in selected ==> r == selected + [id]
    ensures id in selected ==> |r| < |selected|
  {
    if id in selected then
      var i :| 0 <= i < |selected| && selected[i] == id;
      RemoveWhereShrinks(selected, IdOf, id, i);
      RemoveWhere(selected, IdOf, id)
    else selected + [id]
  }

  /** Toggling never selects an id twice. */
  lemma ToggleKeepsNoDup(selected: seq<int>, id: int)
    requires NoDup(selected)
    ensures NoDup(Toggle(selected, id))
  {
    if id in selected {
      FilterKeepsUnique(selected, KeyIsNot(IdOf, id), IdOf);
    } else {
      AppendFreshKeepsUnique(selected, IdOf, id);
    }
  }

  /** Toggling an unselected id twice gives back the very same list. */
  lemma ToggleTwiceRestoresAbsent(selected: seq<int>, id: int)
    requires id !in selected
    ensures Toggle(Toggle(selected, id), id) == selected
  {
    var p := KeyIsNot(IdOf, id);
    var once := selected + [id];
    assert Toggle(selected, id) == once;
    assert once[|selected|] == id;
    assert Toggle(once, id) == Filter(once, p);
    FilterAppend(selected, [id], p);
    forall i | 0 <= i < |selected| ensures p(selected[i]) {
      assert selected[i] != id;
    }
    FilterAllPass(selected, p);
    assert !p(id);
    FilterNonePass([id], p);
  }

  /** Toggling a selected id twice keeps the same ids but moves that one to the end. */
  lemma ToggleTwiceMovesPresentToEnd(selected: seq<int>, id: int)
    requires id in selected
    ensures Toggle(Toggle(selected, id), id) == RemoveWhere(selected, IdOf, id) + [id]
    ensures forall x :: x in Toggle(Toggle(selected, id), id) <==> x in selected
  {
  }

  /** The smallest case where the order is not restored. */
  lemma ToggleTwiceReorders()
    ensures Toggle(Toggle([1, 2], 1), 1) == [2, 1]
  {
    ToggleTwiceMovesPresentToEnd([1, 2], 1);
    assert RemoveWhere([1, 2], IdOf, 1) == [2] by {
      var p := KeyIsNot(IdOf, 1);
      assert [1, 2] == [1] + [2];
      FilterAppend([1], [2], p);
      FilterNonePass([1], p);
      FilterAllPass([2], p);
    }
  }

  /** The payment-type update of one novela, named so that proofs can refer to it. */
  function WithPaymentType(pt: PaymentType): ModalNovela -> ModalNovela {
    (n: ModalNovela) => n.(paymentType := Some(pt))
  }

  /** `handlePaymentTypeChange`: only the entries with that id take the new payment type. */
  function SetPaymentType(ns: seq<ModalNovela>, id: int, pt: PaymentType): (r: seq<ModalNovela>)
    ensures |r| == |ns|
    ensures forall i :: 0 <= i < |ns| ==>
              r[i] == if ns[i].id == id then ns[i].(paymentType := Some(pt)) else ns[i]
  {
    MapWhere(ns, ModalId, id, WithPaymentType(pt))
  }

  /** Changing a payment type keeps the ids, so it keeps which novelas are listed. */
  lemma SetPaymentTypeKeepsIds(ns: seq<ModalNovela>, id: int, pt: PaymentType)
    ensures Ids(SetPaymentType(ns, id, pt)) == Ids(ns)
  {
  }

  // ---------------------------------------------------------------------------
  // Costs

  /** The first catalog entry with this id, if any. */
  function CatalogEntryFor(catalog: seq<CatalogEntry>, id: int): Option<CatalogEntry> {
    FindFirst(catalog, AdminStore.NovelaId, id)
  }

  function StoredCash(catalog: seq<CatalogEntry>, id: int): Option<int> {
    match CatalogEntryFor(catalog, id)
    case Some(c) => Some(c.costoEfectivo)
    case None => None
  }

  function StoredTransfer(catalog: seq<CatalogEntry>, id: int): Option<int> {
    match CatalogEntryFor(catalog, id)
    case Some(c) => Some(c.costoTransferencia)
    case None => None
  }

  /** The stored cash cost, or 5 CUP per chapter when it is missing or 0. */
  function CashCost(catalog: seq<CatalogEntry>, n: ModalNovela): int {
    OrElse(StoredCash(catalog, n.id), n.capitulos * ChapterPrice)
  }

  /** The totals' transfer cost: the stored one, or the chapter price surcharged when it is missing or 0. */
  function TransferCost(catalog: seq<CatalogEntry>, fee: int, n: ModalNovela): int {
    OrElse(StoredTransfer(catalog, n.id), Surcharged(n.capitulos * ChapterPrice, fee))
  }

  /** The message's transfer cost: its fallback surcharges the cash cost, not the chapter price. */
  function EntryTransferCost(catalog: seq<CatalogEntry>, fee: int, n: ModalNovela): int {
    OrElse(StoredTransfer(catalog, n.id), Surcharged(CashCost(catalog, n), fee))
  }

  /** A stored non-zero cost wins over the chapter price and over any fee. */
  lemma StoredCostsWin(catalog: seq<CatalogEntry>, i: int, n: ModalNovela, fee1: int, fee2: int)
    requires UniqueKeys(catalog, AdminStore.NovelaId) && 0 <= i < |catalog| && catalog[i].id == n.id
    requires catalog[i].costoEfectivo != 0 && catalog[i].costoTransferencia != 0
    ensures CashCost(catalog, n) == catalog[i].costoEfectivo
    ensures TransferCost(catalog, fee1, n) == catalog[i].costoTransferencia == TransferCost(catalog, fee2, n)
    ensures EntryTransferCost(catalog, fee1, n) == catalog[i].costoTransferencia
  {
    FindFirstUnique(catalog, AdminStore.NovelaId, i);
  }

  /** A novela missing from the catalog costs 5 CUP per chapter, surcharged by transfer. */
  lemma MissingNovelaFallsBack(catalog: seq<CatalogEntry>, n: ModalNovela, fee: int)
    requires forall i :: 0 <= i < |catalog| ==> catalog[i].id != n.id
    ensures CashCost(catalog, n) == n.capitulos * ChapterPrice
    ensures TransferCost(catalog, fee, n) == Surcharged(n.capitulos * ChapterPrice, fee)
    ensures EntryTransferCost(catalog, fee, n) == TransferCost(catalog, fee, n)
  {
  }

  /** A stored cost of 0 counts as missing. */
  lemma ZeroStoredCostFallsBack(catalog: seq<CatalogEntry>, i: int, n: ModalNovela, fee: int)
    requires UniqueKeys(catalog, AdminStore.NovelaId) && 0 <= i < |catalog| && catalog[i].id == n.id
    requires catalog[i].costoEfectivo == 0 && catalog[i].costoTransferencia == 0
    ensures CashCost(catalog, n) == n.capitulos * ChapterPrice
    ensures TransferCost(catalog, fee, n) == Surcharged(n.capitulos * ChapterPrice, fee)
  {
    FindFirstUnique(catalog, AdminStore.NovelaId, i);
  }

  /** The two transfer fallbacks differ once a stored cash cost is not 5 CUP per chapter. */
  lemma TransferFallbacksDisagree()
    ensures var catalog := [AdminStore.Novela(1, "t", "g", 10, 2000, 100, 0, None)];
      var n := ModalNovela(1, "t", "g", 10, 2000, None, Some(Transfer));
      TransferCost(catalog, 10, n) == 55 && EntryTransferCost(catalog, 10, n) == 110
  {
    var catalog := [AdminStore.Novela(1, "t", "g", 10, 2000, 100, 0, None)];
    FindFirstUnique(catalog, AdminStore.NovelaId, 0);
  }

  /** With a stored transfer cost, or a cash cost of exactly 5 CUP per chapter, both fallbacks agree. */
  lemma TransferFallbacksAgree(catalog: seq<CatalogEntry>, fee: int, n: ModalNovela)
    requires Truthy(StoredTransfer(catalog, n.id)) || CashCost(catalog, n) == n.capitulos * ChapterPrice
    ensures EntryTransferCost(catalog, fee, n) == TransferCost(catalog, fee, n)
  {
  }

  /** When every catalog entry charges at least as much by transfer, no novela is cheaper by transfer. */
  lemma TransferNotCheaper(catalog: seq<CatalogEntry>, fee: int, n: ModalNovela)
    requires fee >= 0 && n.capitulos >= 0
    requires forall i :: 0 <= i < |catalog| ==> catalog[i].costoTransferencia >= catalog[i].costoEfectivo > 0
    ensures TransferCost(catalog, fee, n) >= CashCost(catalog, n)
  {
    match CatalogEntryFor(catalog, n.id)
    case None =>
      SurchargeNotBelowBase(n.capitulos * ChapterPrice, fee);
    case Some(c) =>
      assert c in catalog;
  }

  // ---------------------------------------------------------------------------
  // Totals

  /** "The novela's id is selected", named so that proofs can refer to it. */
  function SelectedIn(selected: seq<int>): ModalNovela -> bool {
    (n: ModalNovela) => n.id in selected
  }

  /** "The novela is paid with pt". */
  function Pays(pt: PaymentType): ModalNovela -> bool {
    (n: ModalNovela) => n.paymentType == Some(pt)
  }

  function CashCostOf(catalog: seq<CatalogEntry>): ModalNovela -> int {
    (n: ModalNovela) => CashCost(catalog, n)
  }

  function TransferCostOf(catalog: seq<CatalogEntry>, fee: int): ModalNovela -> int {
    (n: ModalNovela) => TransferCost(catalog, fee, n)
  }

  function Chapters(n: ModalNovela): int { n.capitulos }

  datatype NovelTotals = NovelTotals(
    cashNovelas: seq<ModalNovela>,
    transferNovelas: seq<ModalNovela>,
    cashTotal: int,
    transferBaseTotal: int,
    transferFee: int,
    transferTotal: int,
    grandTotal: int,
    totalCapitulos: int)

  /**
   * `calculateTotals`: only listed novelas whose id is selected count, split
   * by payment type; the fee is what transfer adds over the cash costs, and
   * the grand total has no delivery cost.
   */
  function CalculateTotals(withPayment: seq<ModalNovela>, selected: seq<int>, catalog: seq<CatalogEntry>,
                           fee: int): (t: NovelTotals)
    ensures forall i :: 0 <= i < |t.cashNovelas| ==>
              t.cashNovelas[i] in withPayment && t.cashNovelas[i].id in selected &&
              t.cashNovelas[i].paymentType == Some(Cash)
    ensures forall i :: (0 <= i < |withPayment| && withPayment[i].id in selected &&
                         withPayment[i].paymentType == Some(Cash)) ==> withPayment[i] in t.cashNovelas
    ensures forall i :: 0 <= i < |t.transferNovelas| ==>
              t.transferNovelas[i] in withPayment && t.transferNovelas[i].id in selected &&
              t.transferNovelas[i].paymentType == Some(Transfer)
    ensures forall i :: (0 <= i < |withPayment| && withPayment[i].id in selected &&
                         withPayment[i].paymentType == Some(Transfer)) ==> withPayment[i] in t.transferNovelas
    ensures t.transferFee == t.transferTotal - t.transferBaseTotal
    ensures t.grandTotal == t.cashTotal + t.transferTotal
  {
    var selectedData := Filter(withPayment, SelectedIn(selected));
    var cash := Filter(selectedData, Pays(Cash));
    var transfer := Filter(selectedData, Pays(Transfer));
    var cashTotal := Sum(cash, CashCostOf(catalog));
    var transferTotal := Sum(transfer, TransferCostOf(catalog, fee));
    var transferBaseTotal := Sum(transfer, CashCostOf(catalog));
    NovelTotals(cash, transfer, cashTotal, transferBaseTotal, transferTotal - transferBaseTotal, transferTotal,
                cashTotal + transferTotal, Sum(selectedData, Chapters))
  }

  /** What one novela adds to the amount to pay, judged on its own. */
  function Charge(catalog: seq<CatalogEntry>, fee: int, n: ModalNovela): int {
    match n.paymentType
    case Some(Cash) => CashCost(catalog, n)
    case Some(Transfer) => TransferCost(catalog, fee, n)
    case None => 0
  }

  function ChargeOf(catalog: seq<CatalogEntry>, fee: int): ModalNovela -> int {
    (n: ModalNovela) => Charge(catalog, fee, n)
  }

  /** One novela alone: its cash part plus its transfer part is its charge. */
  lemma SingleCharge(n: ModalNovela, catalog: seq<CatalogEntry>, fee: int)
    ensures Sum(Filter([n], Pays(Cash)), CashCostOf(catalog)) +
            Sum(Filter([n], Pays(Transfer)), TransferCostOf(catalog, fee)) == Charge(catalog, fee, n)
  {
    assert [n][1..] == [];
    assert [n][..0] == [];
  }

  /** Splitting by payment type and summing agrees with charging each novela on its own. */
  lemma {:induction false} SplitMatchesCharges(ns: seq<ModalNovela>, catalog: seq<CatalogEntry>, fee: int)
    ensures Sum(Filter(ns, Pays(Cash)), CashCostOf(catalog)) +
            Sum(Filter(ns, Pays(Transfer)), TransferCostOf(catalog, fee)) == Sum(ns, ChargeOf(catalog, fee))
  {
    if ns != [] {
      var init, last := ns[..|ns| - 1], ns[|ns| - 1];
      assert ns == init + [last];
      SplitMatchesCharges(init, catalog, fee);
      FilterAppend(init, [last], Pays(Cash));
      FilterAppend(init, [last], Pays(Transfer));
      SumAppend(Filter(init, Pays(Cash)), Filter([last], Pays(Cash)), CashCostOf(catalog));
      SumAppend(Filter(init, Pays(Transfer)), Filter([last], Pays(Transfer)), TransferCostOf(catalog, fee));
      SingleCharge(last, catalog, fee);
      assert Sum(ns, ChargeOf(catalog, fee)) == Sum(init, ChargeOf(catalog, fee)) + Charge(catalog, fee, last);
    }
  }

  /** The grand total charges every selected listed novela exactly once, by its payment type. */
  lemma GrandTotalChargesSelection(withPayment: seq<ModalNovela>, selected: seq<int>, catalog: seq<CatalogEntry>,
                                   fee: int)
    ensures CalculateTotals(withPayment, selected, catalog, fee).grandTotal ==
            Sum(Filter(withPayment, SelectedIn(selected)), ChargeOf(catalog, fee))
  {
    SplitMatchesCharges(Filter(withPayment, SelectedIn(selected)), catalog, fee);
  }

  /** "The novela has no payment type yet". */
  function Unpaid(): ModalNovela -> bool {
    (n: ModalNovela) => n.paymentType.None?
  }

  /** One novela alone: its chapters land in exactly one of the three groups. */
  lemma SingleChapters(n: ModalNovela)
    ensures Sum(Filter([n], Pays(Cash)), Chapters) + Sum(Filter([n], Pays(Transfer)), Chapters) +
            Sum(Filter([n], Unpaid()), Chapters) == n.capitulos
  {
    assert [n][1..] == [];
    assert Sum([n], Chapters) == n.capitulos by { assert [n][..0] == []; }
    match n.paymentType
    case Some(Cash) =>
      assert Filter([n], Pays(Cash)) == [n];
    case Some(Transfer) =>
      assert Filter([n], Pays(Transfer)) == [n];
    case None =>
      assert Filter([n], Unpaid()) == [n];
  }

  /** Every novela is either paid in cash, paid by transfer or unpaid, so its chapters count exactly once. */
  lemma {:induction false} SplitChapters(ns: seq<ModalNovela>)
    ensures Sum(Filter(ns, Pays(Cash)), Chapters) + Sum(Filter(ns, Pays(Transfer)), Chapters) +
            Sum(Filter(ns, Unpaid()), Chapters) == Sum(ns, Chapters)
  {
    if ns != [] {
      var init, last := ns[..|ns| - 1], ns[|ns| - 1];
      assert ns == init + [last];
      SplitChapters(init);
      assert [last][1..] == [];
      FilterAppend(init, [last], Pays(Cash));
      FilterAppend(init, [last], Pays(Transfer));
      FilterAppend(init, [last], Unpaid());
      SumAppend(Filter(init, Pays(Cash)), Filter([last], Pays(Cash)), Chapters);
      SumAppend(Filter(init, Pays(Transfer)), Filter([last], Pays(Transfer)), Chapters);
      SumAppend(Filter(init, Unpaid()), Filter([last], Unpaid()), Chapters);
      SingleChapters(last);
      SumSnoc(init, last, Chapters);
    }
  }

  /**
   * The chapter count covers the selected listed novelas: those paid in cash,
   * those paid by transfer, and those without a payment type; once every
   * listed novela has a payment type it is the chapters of the two lists.
   */
  lemma ChaptersCountSelection(withPayment: seq<ModalNovela>, selected: seq<int>, catalog: seq<CatalogEntry>,
                               fee: int)
    ensures var t := CalculateTotals(withPayment, selected, catalog, fee);
      t.totalCapitulos == Sum(t.cashNovelas, Chapters) + Sum(t.transferNovelas, Chapters) +
                          Sum(Filter(Filter(withPayment, SelectedIn(selected)), Unpaid()), Chapters)
    ensures (forall i :: 0 <= i < |withPayment| ==> withPayment[i].paymentType.Some?) ==>
              var t := CalculateTotals(withPayment, selected, catalog, fee);
              t.totalCapitulos == Sum(t.cashNovelas, Chapters) + Sum(t.transferNovelas, Chapters)
  {
    var selectedData := Filter(withPayment, SelectedIn(selected));
    SplitChapters(selectedData);
    var paid := (n: ModalNovela) => n.paymentType.Some?;
    if forall i :: 0 <= i < |withPayment| ==> paid(withPayment[i]) {
      FilterKeepsProperty(withPayment, SelectedIn(selected), paid);
      FilterNonePass(selectedData, Unpaid());
    }
  }

  /** With nothing selected every total is zero. */
  lemma EmptySelectionTotals(withPayment: seq<ModalNovela>, catalog: seq<CatalogEntry>, fee: int)
    ensures CalculateTotals(withPayment, [], catalog, fee) == NovelTotals([], [], 0, 0, 0, 0, 0, 0)
  {
    FilterNonePass(withPayment, SelectedIn([]));
  }

  /** Changing the payment type of an unselected novela leaves the selected data alone. */
  lemma {:induction false} UnselectedChangeInvisible(ns: seq<ModalNovela>, selected: seq<int>, id: int,
                                                     pt: PaymentType)
    requires id !in selected
    ensures Filter(SetPaymentType(ns, id, pt), SelectedIn(selected)) == Filter(ns, SelectedIn(selected))
  {
    if ns != [] {
      var r := SetPaymentType(ns, id, pt);
      assert r == [r[0]] + SetPaymentType(ns[1..], id, pt);
      UnselectedChangeInvisible(ns[1..], selected, id, pt);
      assert SelectedIn(selected)(r[0]) == SelectedIn(selected)(ns[0]);
      if SelectedIn(selected)(ns[0]) {
        assert r[0] == ns[0];
      }
    }
  }

  /** Only selected novelas count: the payment type of an unselected one changes no total. */
  lemma UnselectedPaymentIrrelevant(withPayment: seq<ModalNovela>, selected: seq<int>, catalog: seq<CatalogEntry>,
                                    fee: int, id: int, pt: PaymentType)
    requires id !in selected
    ensures CalculateTotals(SetPaymentType(withPayment, id, pt), selected, catalog, fee) ==
            CalculateTotals(withPayment, selected, catalog, fee)
  {
    UnselectedChangeInvisible(withPayment, selected, id, pt);
  }

  lemma {:induction false} TransferSumNotCheaper(ns: seq<ModalNovela>, catalog: seq<CatalogEntry>, fee: int)
    requires fee >= 0 && forall i :: 0 <= i < |ns| ==> ns[i].capitulos >= 0
    requires forall i :: 0 <= i < |catalog| ==> catalog[i].costoTransferencia >= catalog[i].costoEfectivo > 0
    ensures Sum(ns, TransferCostOf(catalog, fee)) >= Sum(ns, CashCostOf(catalog))
  {
    if ns != [] {
      TransferSumNotCheaper(ns[..|ns| - 1], catalog, fee);
      TransferNotCheaper(catalog, fee, ns[|ns| - 1]);
    }
  }

  /** When no catalog entry is cheaper by transfer, the transfer fee is never negative. */
  lemma TransferFeeNonNegative(withPayment: seq<ModalNovela>, selected: seq<int>, catalog: seq<CatalogEntry>,
                               fee: int)
    requires fee >= 0 && forall i :: 0 <= i < |withPayment| ==> withPayment[i].capitulos >= 0
    requires forall i :: 0 <= i < |catalog| ==> catalog[i].costoTransferencia >= catalog[i].costoEfectivo > 0
    ensures CalculateTotals(withPayment, selected, catalog, fee).transferFee >= 0
  {
    var t := CalculateTotals(withPayment, selected, catalog, fee);
    forall i | 0 <= i < |t.transferNovelas| ensures t.transferNovelas[i].capitulos >= 0 {
      var j :| 0 <= j < |withPayment| && withPayment[j] == t.transferNovelas[i];
    }
    TransferSumNotCheaper(t.transferNovelas, catalog, fee);
  }

  /** With the shipped catalog the transfer fee is never negative. */
  lemma ShippedTransferFeeNonNegative(withPayment: seq<ModalNovela>, selected: seq<int>)
    requires forall i :: 0 <= i < |withPayment| ==> withPayment[i].capitulos >= 0
    ensures CalculateTotals(withPayment, selected, CurrentCatalog, CurrentPricingConfig.transferFeePercentage)
              .transferFee >= 0
  {
    ShippedCatalogCosts();
    TransferFeeNonNegative(withPayment, selected, CurrentCatalog, CurrentPricingConfig.transferFeePercentage);
  }

  // ---------------------------------------------------------------------------
  // The order message

  /** One part of the message `sendSelectedNovelas` sends: which part it is and the amounts it states. */
  datatype MessagePart =
    | Intro
    | CashHeading
    | CashEntry(index: int, titulo: string, genero: string, capitulos: int, anio: int, cost: int)
    | CashSubtotal(cashTotal: int, capitulos: int)
    | TransferHeading(percentage: int)
    | TransferEntry(index: int, titulo: string, genero: string, capitulos: int, anio: int, baseCost: int,
                    surcharge: int, totalCost: int)
    | TransferSubtotal(baseTotal: int, transferFee: int, transferTotal: int, capitulos: int)
    | SummaryHeading
    | NovelCount(count: int)
    | ChapterCount(count: int)
    | CashSummary(cashTotal: int, count: int)
    | TransferSummary(transferTotal: int, count: int)
    | TotalToPay(grandTotal: int)
    | SentFrom
    | DateLine(date: string)

  predicate IsCashPart(p: MessagePart) { p.CashHeading? || p.CashEntry? || p.CashSubtotal? }
  predicate IsTransferPart(p: MessagePart) { p.TransferHeading? || p.TransferEntry? || p.TransferSubtotal? }

  /** The cost a cash entry states. */
  function EntryCash(p: MessagePart): int { if p.CashEntry? then p.cost else 0 }
  /** The base cost a transfer entry states. */
  function EntryBase(p: MessagePart): int { if p.TransferEntry? then p.baseCost else 0 }
  /** The total cost a transfer entry states. */
  function EntryTotal(p: MessagePart): int { if p.TransferEntry? then p.totalCost else 0 }

  /** The cash entry for the `i`-th cash novela, numbered from 1. */
  function CashEntryOf(catalog: seq<CatalogEntry>, i: int, n: ModalNovela): MessagePart {
    CashEntry(i + 1, n.titulo, n.genero, n.capitulos, n.anio, CashCost(catalog, n))
  }

  /** The transfer entry for the `i`-th transfer novela: base cost, surcharge and total. */
  function TransferEntryOf(catalog: seq<CatalogEntry>, fee: int, i: int, n: ModalNovela): MessagePart {
    var base := CashCost(catalog, n);
    var total := EntryTransferCost(catalog, fee, n);
    TransferEntry(i + 1, n.titulo, n.genero, n.capitulos, n.anio, base, total - base, total)
  }

  function EntryTransferCostOf(catalog: seq<CatalogEntry>, fee: int): ModalNovela -> int {
    (n: ModalNovela) => EntryTransferCost(catalog, fee, n)
  }

  lemma SumSingle<T>(x: T, f: T -> int)
    ensures Sum([x], f) == f(x)
  {
    assert [x][..0] == [];
  }

  lemma {:induction false} SumZero<T>(xs: seq<T>, f: T -> int)
    requires forall i :: 0 <= i < |xs| ==> f(xs[i]) == 0
    ensures Sum(xs, f) == 0
  {
    if xs != [] {
      SumZero(xs[..|xs| - 1], f);
    }
  }

  /** A section is a heading, entries and a closing line; only the entries can carry amounts. */
  lemma SectionSum(head: MessagePart, entries: seq<MessagePart>, tail: MessagePart, f: MessagePart -> int)
    ensures Sum([head] + entries + [tail], f) == f(head) + Sum(entries, f) + f(tail)
  {
    SumAppend([head] + entries, [tail], f);
    SumAppend([head], entries, f);
    SumSingle(head, f);
    SumSingle(tail, f);
  }

  /** A section is its heading, then its entries in order, then its closing line. */
  lemma SectionShape(head: MessagePart, entries: seq<MessagePart>, tail: MessagePart, belongs: MessagePart -> bool)
    requires belongs(head) && belongs(tail) && forall i :: 0 <= i < |entries| ==> belongs(entries[i])
    ensures var section := [head] + entries + [tail];
      |section| == |entries| + 2 && section[0] == head && section[|section| - 1] == tail &&
      (forall i :: 0 <= i < |section| ==> belongs(section[i])) &&
      forall i :: 0 <= i < |entries| ==> entries[i] in section
  {
    var section := [head] + entries + [tail];
    forall i | 0 <= i < |entries| ensures entries[i] in section {
      assert section[i + 1] == entries[i];
    }
    forall i | 0 <= i < |section| ensures belongs(section[i]) {
      if 0 < i < |section| - 1 {
        assert section[i] == entries[i - 1];
      }
    }
  }

  /** The `cashNovelas.forEach` loop: one numbered entry per cash novela, in order. */
  method CashEntries(catalog: seq<CatalogEntry>, cash: seq<ModalNovela>) returns (entries: seq<MessagePart>)
    ensures |entries| == |cash|
    ensures forall i :: 0 <= i < |cash| ==> entries[i] == CashEntryOf(catalog, i, cash[i])
    ensures Sum(entries, EntryCash) == Sum(cash, CashCostOf(catalog))
  {
    entries := [];
    var k := 0;
    while k < |cash|
      invariant 0 <= k <= |cash| && |entries| == k
      invariant forall i :: 0 <= i < k ==> entries[i] == CashEntryOf(catalog, i, cash[i])
    {
      entries := entries + [CashEntryOf(catalog, k, cash[k])];
      k := k + 1;
    }
    forall i | 0 <= i < |cash| ensures EntryCash(entries[i]) == CashCostOf(catalog)(cash[i]) { }
    SumPointwise(entries, EntryCash, cash, CashCostOf(catalog));
  }

  /** The `transferNovelas.forEach` loop: one numbered entry per transfer novela, in order. */
  method TransferEntries(catalog: seq<CatalogEntry>, fee: int, transfer: seq<ModalNovela>)
    returns (entries: seq<MessagePart>)
    ensures |entries| == |transfer|
    ensures forall i :: 0 <= i < |transfer| ==> entries[i] == TransferEntryOf(catalog, fee, i, transfer[i])
    ensures Sum(entries, EntryBase) == Sum(transfer, CashCostOf(catalog))
    ensures Sum(entries, EntryTotal) == Sum(transfer, EntryTransferCostOf(catalog, fee))
  {
    entries := [];
    var k := 0;
    while k < |transfer|
      invariant 0 <= k <= |transfer| && |entries| == k
      invariant forall i :: 0 <= i < k ==> entries[i] == TransferEntryOf(catalog, fee, i, transfer[i])
    {
      entries := entries + [TransferEntryOf(catalog, fee, k, transfer[k])];
      k := k + 1;
    }
    forall i | 0 <= i < |transfer|
      ensures EntryBase(entries[i]) == CashCostOf(catalog)(transfer[i])
      ensures EntryTotal(entries[i]) == EntryTransferCostOf(catalog, fee)(transfer[i])
    { }
    SumPointwise(entries, EntryBase, transfer, CashCostOf(catalog));
    SumPointwise(entries, EntryTotal, transfer, EntryTransferCostOf(catalog, fee));
  }

  /** The cash section: present only when some selected novela is paid in cash. */
  method CashSection(catalog: seq<CatalogEntry>, cash: seq<ModalNovela>, cashTotal: int)
    returns (section: seq<MessagePart>)
    ensures |cash| == 0 ==> section == []
    ensures |cash| > 0 ==>
              (|section| >= 2 && section[0] == CashHeading &&
               section[|section| - 1] == CashSubtotal(cashTotal, Sum(cash, Chapters)))
    ensures forall i :: 0 <= i < |section| ==> IsCashPart(section[i])
    ensures forall i :: 0 <= i < |cash| ==> CashEntryOf(catalog, i, cash[i]) in section
    ensures Sum(section, EntryCash) == Sum(cash, CashCostOf(catalog))
  {
    if |cash| == 0 {
      return [];
    }
    var entries := CashEntries(catalog, cash);
    var tail := CashSubtotal(cashTotal, Sum(cash, Chapters));
    section := [CashHeading] + entries + [tail];
    SectionSum(CashHeading, entries, tail, EntryCash);
    forall i | 0 <= i < |section| ensures IsCashPart(section[i]) {
      if 0 < i < |section| - 1 {
        assert section[i] == entries[i - 1];
      }
    }
    forall i | 0 <= i < |cash| ensures CashEntryOf(catalog, i, cash[i]) in section {
      assert section[i + 1] == entries[i];
    }
  }

  /** The transfer section: present only when some selected novela is paid by transfer. */
  method TransferSection(catalog: seq<CatalogEntry>, fee: int, transfer: seq<ModalNovela>, baseTotal: int,
                         transferFee: int, transferTotal: int)
    returns (section: seq<MessagePart>)
    ensures |transfer| == 0 ==> section == []
    ensures |transfer| > 0 ==>
              (|section| >= 2 && section[0] == TransferHeading(fee) &&
               section[|section| - 1] == TransferSubtotal(baseTotal, transferFee, transferTotal, Sum(transfer, Chapters)))
    ensures forall i :: 0 <= i < |section| ==>
              IsTransferPart(section[i]) && (section[i].TransferHeading? ==> section[i] == TransferHeading(fee))
    ensures forall i :: 0 <= i < |transfer| ==> TransferEntryOf(catalog, fee, i, transfer[i]) in section
    ensures Sum(section, EntryBase) == Sum(transfer, CashCostOf(catalog))
    ensures Sum(section, EntryTotal) == Sum(transfer, EntryTransferCostOf(catalog, fee))
  {
    if |transfer| == 0 {
      return [];
    }
    var entries := TransferEntries(catalog, fee, transfer);
    var head := TransferHeading(fee);
    var tail := TransferSubtotal(baseTotal, transferFee, transferTotal, Sum(transfer, Chapters));
    var inSection := (p: MessagePart) => IsTransferPart(p) && (p.TransferHeading? ==> p == head);
    forall i | 0 <= i < |entries| ensures inSection(entries[i]) {
      assert entries[i] == TransferEntryOf(catalog, fee, i, transfer[i]);
    }
    SectionShape(head, entries, tail, inSection);
    section := [head] + entries + [tail];
    SectionSum(head, entries, tail, EntryBase);
    SectionSum(head, entries, tail, EntryTotal);
  }

  /** Parts that are neither cash nor transfer parts state no entry amount. */
  predicate IsSummaryPart(p: MessagePart) { !IsCashPart(p) && !IsTransferPart(p) }

  /** The closing summary; the cash and transfer lines only for positive amounts. */
  method SummarySection(t: NovelTotals, selectedCount: int, date: string) returns (section: seq<MessagePart>)
    ensures |section| >= 1 && section[|section| - 1] == DateLine(date)
    ensures forall i :: 0 <= i < |section| ==> IsSummaryPart(section[i]) && !section[i].Intro?
    ensures NovelCount(selectedCount) in section && ChapterCount(t.totalCapitulos) in section
    ensures CashSummary(t.cashTotal, |t.cashNovelas|) in section <==> t.cashTotal > 0
    ensures TransferSummary(t.transferTotal, |t.transferNovelas|) in section <==> t.transferTotal > 0
    ensures TotalToPay(t.grandTotal) in section
  {
    section := [SummaryHeading, NovelCount(selectedCount), ChapterCount(t.totalCapitulos)];
    if t.cashTotal > 0 {
      section := section + [CashSummary(t.cashTotal, |t.cashNovelas|)];
    }
    if t.transferTotal > 0 {
      section := section + [TransferSummary(t.transferTotal, |t.transferNovelas|)];
    }
    section := section + [TotalToPay(t.grandTotal), SentFrom, DateLine(date)];
  }

  /**
   * What the message for a non-empty selection states: a section per payment
   * type in use, every selected novela as a numbered entry of its section,
   * entry amounts that add up to the section totals, and the closing summary.
   */
  ghost predicate DescribesSelection(m: seq<MessagePart>, t: NovelTotals, selectedCount: int,
                                     catalog: seq<CatalogEntry>, fee: int, date: string)
  {
    |m| >= 2 && m[0] == Intro && m[|m| - 1] == DateLine(date) &&
    (CashHeading in m <==> |t.cashNovelas| > 0) &&
    (TransferHeading(fee) in m <==> |t.transferNovelas| > 0) &&
    (forall i :: 0 <= i < |t.cashNovelas| ==> CashEntryOf(catalog, i, t.cashNovelas[i]) in m) &&
    (forall i :: 0 <= i < |t.transferNovelas| ==> TransferEntryOf(catalog, fee, i, t.transferNovelas[i]) in m) &&
    Sum(m, EntryCash) == t.cashTotal &&
    Sum(m, EntryBase) == t.transferBaseTotal &&
    Sum(m, EntryTotal) == Sum(t.transferNovelas, EntryTransferCostOf(catalog, fee)) &&
    NovelCount(selectedCount) in m && ChapterCount(t.totalCapitulos) in m &&
    (CashSummary(t.cashTotal, |t.cashNovelas|) in m <==> t.cashTotal > 0) &&
    (TransferSummary(t.transferTotal, |t.transferNovelas|) in m <==> t.transferTotal > 0) &&
    TotalToPay(t.grandTotal) in m
  }

  lemma SumOfFour(a: seq<MessagePart>, b: seq<MessagePart>, c: seq<MessagePart>, d: seq<MessagePart>,
                  f: MessagePart -> int)
    ensures Sum(a + b + c + d, f) == Sum(a, f) + Sum(b, f) + Sum(c, f) + Sum(d, f)
  {
    SumAppend(a + b + c, d, f);
    SumAppend(a + b, c, f);
    SumAppend(a, b, f);
  }

  /** The cash, transfer and summary parts each keep to their own kind, so the amounts add up section by section. */
  lemma AssembledSums(cs: seq<MessagePart>, ts: seq<MessagePart>, sm: seq<MessagePart>)
    requires forall i :: 0 <= i < |cs| ==> IsCashPart(cs[i])
    requires forall i :: 0 <= i < |ts| ==> IsTransferPart(ts[i])
    requires forall i :: 0 <= i < |sm| ==> IsSummaryPart(sm[i])
    ensures Sum([Intro] + cs + ts + sm, EntryCash) == Sum(cs, EntryCash)
    ensures Sum([Intro] + cs + ts + sm, EntryBase) == Sum(ts, EntryBase)
    ensures Sum([Intro] + cs + ts + sm, EntryTotal) == Sum(ts, EntryTotal)
  {
    SumOfFour([Intro], cs, ts, sm, EntryCash);
    SumOfFour([Intro], cs, ts, sm, EntryBase);
    SumOfFour([Intro], cs, ts, sm, EntryTotal);
    SumSingle(Intro, EntryCash);
    SumSingle(Intro, EntryBase);
    SumSingle(Intro, EntryTotal);
    SumZero(cs, EntryBase);
    SumZero(cs, EntryTotal);
    SumZero(ts, EntryCash);
    SumZero(sm, EntryCash);
    SumZero(sm, EntryBase);
    SumZero(sm, EntryTotal);
  }

  /** The sections, put together after the opening line, describe the selection. */
  lemma AssembledDescribes(cs: seq<MessagePart>, ts: seq<MessagePart>, sm: seq<MessagePart>, t: NovelTotals,
                           selectedCount: int, catalog: seq<CatalogEntry>, fee: int, date: string)
    requires |t.cashNovelas| == 0 ==> cs == []
    requires |t.cashNovelas| > 0 ==> |cs| >= 1 && cs[0] == CashHeading
    requires forall i :: 0 <= i < |cs| ==> IsCashPart(cs[i])
    requires forall i :: 0 <= i < |t.cashNovelas| ==> CashEntryOf(catalog, i, t.cashNovelas[i]) in cs
    requires Sum(cs, EntryCash) == t.cashTotal
    requires |t.transferNovelas| == 0 ==> ts == []
    requires |t.transferNovelas| > 0 ==> |ts| >= 1 && ts[0] == TransferHeading(fee)
    requires forall i :: 0 <= i < |ts| ==> IsTransferPart(ts[i])
    requires forall i :: 0 <= i < |t.transferNovelas| ==> TransferEntryOf(catalog, fee, i, t.transferNovelas[i]) in ts
    requires Sum(ts, EntryBase) == t.transferBaseTotal
    requires Sum(ts, EntryTotal) == Sum(t.transferNovelas, EntryTransferCostOf(catalog, fee))
    requires |sm| >= 1 && sm[|sm| - 1] == DateLine(date)
    requires forall i :: 0 <= i < |sm| ==> IsSummaryPart(sm[i])
    requires NovelCount(selectedCount) in sm && ChapterCount(t.totalCapitulos) in sm
    requires CashSummary(t.cashTotal, |t.cashNovelas|) in sm <==> t.cashTotal > 0
    requires TransferSummary(t.transferTotal, |t.transferNovelas|) in sm <==> t.transferTotal > 0
    requires TotalToPay(t.grandTotal) in sm
    ensures DescribesSelection([Intro] + cs + ts + sm, t, selectedCount, catalog, fee, date)
  {
    var m := [Intro] + cs + ts + sm;
    AssembledSums(cs, ts, sm);
    assert m[|m| - 1] == sm[|sm| - 1];
    assert CashHeading in m <==> CashHeading in cs by {
      assert CashHeading !in ts + sm;
    }
    assert TransferHeading(fee) in m <==> TransferHeading(fee) in ts by {
      assert TransferHeading(fee) !in cs + sm;
    }
    assert CashSummary(t.cashTotal, |t.cashNovelas|) in m <==> CashSummary(t.cashTotal, |t.cashNovelas|) in sm by {
      assert CashSummary(t.cashTotal, |t.cashNovelas|) !in cs + ts;
    }
    assert TransferSummary(t.transferTotal, |t.transferNovelas|) in m <==>
           TransferSummary(t.transferTotal, |t.transferNovelas|) in sm by {
      assert TransferSummary(t.transferTotal, |t.transferNovelas|) !in cs + ts;
    }
  }

  /** `sendSelectedNovelas` on given state: no message for an empty selection, otherwise one that describes it. */
  method SelectionMessage(withPayment: seq<ModalNovela>, selected: seq<int>, catalog: seq<CatalogEntry>,
                             fee: int, date: string)
    returns (m: Option<seq<MessagePart>>)
    ensures m.None? <==> |selected| == 0
    ensures m.Some? ==>
              DescribesSelection(m.value, CalculateTotals(withPayment, selected, catalog, fee), |selected|,
                                 catalog, fee, date)
  {
    if |selected| == 0 {
      return None;
    }
    var t := CalculateTotals(withPayment, selected, catalog, fee);
    var cashSection := CashSection(catalog, t.cashNovelas, t.cashTotal);
    var transferSection := TransferSection(catalog, fee, t.transferNovelas, t.transferBaseTotal, t.transferFee,
                                           t.transferTotal);
    var summary := SummarySection(t, |selected|, date);
    AssembledDescribes(cashSection, transferSection, summary, t, |selected|, catalog, fee, date);
    m := Some([Intro] + cashSection + transferSection + summary);
  }

  /** When every transfer novela's two fallbacks agree, the message entries add up to the transfer total. */
  lemma {:induction false} EntriesMatchTransferTotal(ns: seq<ModalNovela>, catalog: seq<CatalogEntry>, fee: int)
    requires forall i :: 0 <= i < |ns| ==>
               Truthy(StoredTransfer(catalog, ns[i].id)) || CashCost(catalog, ns[i]) == ns[i].capitulos * ChapterPrice
    ensures Sum(ns, EntryTransferCostOf(catalog, fee)) == Sum(ns, TransferCostOf(catalog, fee))
  {
    if ns != [] {
      EntriesMatchTransferTotal(ns[..|ns| - 1], catalog, fee);
      TransferFallbacksAgree(catalog, fee, ns[|ns| - 1]);
    }
  }

  /** With the shipped catalog the transfer entries of a message always add up to the transfer total. */
  lemma ShippedEntriesMatchTransferTotal(ns: seq<ModalNovela>, fee: int)
    ensures Sum(ns, EntryTransferCostOf(CurrentCatalog, fee)) == Sum(ns, TransferCostOf(CurrentCatalog, fee))
  {
    ShippedCatalogCosts();
    forall i | 0 <= i < |ns|
      ensures Truthy(StoredTransfer(CurrentCatalog, ns[i].id)) ||
              CashCost(CurrentCatalog, ns[i]) == ns[i].capitulos * ChapterPrice
    {
      match CatalogEntryFor(CurrentCatalog, ns[i].id)
      case Some(c) =>
        assert c in CurrentCatalog;
      case None =>
    }
    EntriesMatchTransferTotal(ns, CurrentCatalog, fee);
  }

  /** The listed novelas of the shipped catalog have distinct ids, so selecting them all selects each once. */
  lemma ShippedListIdsDistinct()
    ensures NoDup(Ids(CatalogView(CurrentCatalog)))
  {
    ShippedCatalogCosts();
  }

  /** Any catalog with distinct ids lists distinct ids, so "select all" selects each novela once. */
  lemma CatalogViewKeepsIdsDistinct(catalog: seq<CatalogEntry>)
    requires UniqueKeys(catalog, AdminStore.NovelaId)
    ensures NoDup(Ids(CatalogView(catalog)))
  {
  }

  /** Every listed novela finds its own catalog entry, so only zero stored costs take the fallback. */
  lemma ListedNovelaFindsItsEntry(catalog: seq<CatalogEntry>, i: int)
    requires UniqueKeys(catalog, AdminStore.NovelaId) && 0 <= i < |catalog|
    ensures CatalogEntryFor(catalog, CatalogView(catalog)[i].id) == Some(catalog[i])
    ensures catalog[i].costoEfectivo != 0 ==> CashCost(catalog, CatalogView(catalog)[i]) == catalog[i].costoEfectivo
  {
    FindFirstUnique(catalog, AdminStore.NovelaId, i);
  }

  /**
   * Right after mount, selecting everything charges every listed novela in
   * cash: no transfer novela, no surcharge, and the grand total is the cash total.
   */
  lemma SelectAllAfterMountPaysCash(catalog: seq<CatalogEntry>, fee: int)
    ensures var listed := WithDefaultPayment(CatalogView(catalog));
      var t := CalculateTotals(listed, Ids(CatalogView(catalog)), catalog, fee);
      t.cashNovelas == listed && t.transferNovelas == [] && t.transferFee == 0 && t.grandTotal == t.cashTotal
  {
    var listed := WithDefaultPayment(CatalogView(catalog));
    var selected := Ids(CatalogView(catalog));
    assert forall i :: 0 <= i < |listed| ==> SelectedIn(selected)(listed[i]) by {
      forall i | 0 <= i < |listed| ensures listed[i].id in selected {
        assert selected[i] == listed[i].id;
      }
    }
    FilterAllPass(listed, SelectedIn(selected));
    FilterAllPass(listed, Pays(Cash));
    FilterNonePass(listed, Pays(Transfer));
  }

  // ---------------------------------------------------------------------------
  // The dialog

  /** The dialog's selection state; it prices with `CurrentCatalog` and `CurrentPricingConfig`. */
  class NovelasModal {
    var selectedNovelas: seq<int>
    var novelasWithPayment: seq<ModalNovela>

    constructor ()
      ensures selectedNovelas == [] && novelasWithPayment == []
    {
      selectedNovelas := [];
      novelasWithPayment := [];
    }

    /** The mount effect: every listed novela, paid in cash. */
    method MountEffect()
      modifies this
      ensures novelasWithPayment == WithDefaultPayment(CatalogView(CurrentCatalog))
      ensures selectedNovelas == old(selectedNovelas)
    {
      novelasWithPayment := WithDefaultPayment(CatalogView(CurrentCatalog));
    }

    /** `handleNovelToggle`. */
    method HandleNovelToggle(id: int)
      modifies this
      ensures selectedNovelas == Toggle(old(selectedNovelas), id)
      ensures NoDup(old(selectedNovelas)) ==> NoDup(selectedNovelas)
      ensures novelasWithPayment == old(novelasWithPayment)
    {
      if NoDup(selectedNovelas) {
        ToggleKeepsNoDup(selectedNovelas, id);
      }
      selectedNovelas := Toggle(selectedNovelas, id);
    }

    /** `handlePaymentTypeChange`. */
    method HandlePaymentTypeChange(id: int, pt: PaymentType)
      modifies this
      ensures novelasWithPayment == SetPaymentType(old(novelasWithPayment), id, pt)
      ensures selectedNovelas == old(selectedNovelas)
    {
      novelasWithPayment := SetPaymentType(novelasWithPayment, id, pt);
    }

    /** `selectAllNovelas`: every listed id, in catalog order, each once. */
    method SelectAllNovelas()
      modifies this
      ensures selectedNovelas == Ids(CatalogView(CurrentCatalog)) && NoDup(selectedNovelas)
      ensures novelasWithPayment == old(novelasWithPayment)
    {
      ShippedListIdsDistinct();
      selectedNovelas := Ids(CatalogView(CurrentCatalog));
    }

    /** `clearAllNovelas`. */
    method ClearAllNovelas()
      modifies this
      ensures selectedNovelas == [] && novelasWithPayment == old(novelasWithPayment)
    {
      selectedNovelas := [];
    }

    /** `calculateTotals` on the dialog's state: the grand total charges each selected listed novela once. */
    function Totals(): (t: NovelTotals)
      reads this
      ensures t.grandTotal == Sum(Filter(novelasWithPayment, SelectedIn(selectedNovelas)),
                                  ChargeOf(CurrentCatalog, CurrentPricingConfig.transferFeePercentage))
      ensures t.transferFee == t.transferTotal - t.transferBaseTotal
    {
      GrandTotalChargesSelection(novelasWithPayment, selectedNovelas, CurrentCatalog,
                                 CurrentPricingConfig.transferFeePercentage);
      CalculateTotals(novelasWithPayment, selectedNovelas, CurrentCatalog, CurrentPricingConfig.transferFeePercentage)
    }

    /** `sendSelectedNovelas`: no message for an empty selection, otherwise one that describes it. */
    method SendSelectedNovelas(date: string) returns (m: Option<seq<MessagePart>>)
      ensures m.None? <==> selectedNovelas == []
      ensures m.Some? ==>
                DescribesSelection(m.value, Totals(), |selectedNovelas|, CurrentCatalog,
                                   CurrentPricingConfig.transferFeePercentage, date)
    {
      m := SelectionMessage(novelasWithPayment, selectedNovelas, CurrentCatalog,
                            CurrentPricingConfig.transferFeePercentage, date);
    }
  }
}
