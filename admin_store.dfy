/**
 * The administrator's configuration store of the storefront: the pricing,
 * the novela catalog and the delivery zones, plus whether the administrator
 * is logged in. `Reduce` is the store's pure transition function; the
 * `AdminProvider` class holds the current state and offers the helpers that
 * compute an action from that state and dispatch it.
 */
module AdminStore {
  import opened Wrappers
  import opened Keyed
  import opened Money

  datatype Pricing = Pricing(moviePrice: int, seriesPrice: int, transferFeePercentage: int)

  /** A catalog novela; the two costs are snapshots taken when it was last saved. */
  datatype Novela = Novela(
    id: int,
    titulo: string,
    genero: string,
    capitulos: int,
    anio: int,
    costoEfectivo: int,
    costoTransferencia: int,
    descripcion: Option<string>)

  datatype DeliveryZone = DeliveryZone(id: int, name: string, fullPath: string, cost: int, active: bool)

  datatype AdminConfig = AdminConfig(pricing: Pricing, novelas: seq<Novela>, deliveryZones: seq<DeliveryZone>)

  datatype AdminState = AdminState(config: AdminConfig, isAuthenticated: bool)

  /** The actions the reducer understands; `Unrecognized` stands for any other action type. */
  datatype AdminAction =
    | UpdatePricing(pricing: Pricing)
    | AddNovela(novela: Novela)
    | UpdateNovela(novela: Novela)
    | DeleteNovela(novelaId: int)
    | AddDeliveryZone(zone: DeliveryZone)
    | UpdateDeliveryZone(zone: DeliveryZone)
    | DeleteDeliveryZone(zoneId: int)
    | ToggleDeliveryZone(zoneId: int)
    | LoadConfig(newConfig: AdminConfig)
    | LogIn
    | LogOut
    | Unrecognized(actionType: string)

  function NovelaId(n: Novela): int { n.id }
  function ZoneId(z: DeliveryZone): int { z.id }
  function FlipActive(z: DeliveryZone): DeliveryZone { z.(active := !z.active) }

  /** `next` is `prev` with every element whose key is that of `p` replaced by `p`. */
  ghost predicate ReplacedByKey<T>(prev: seq<T>, next: seq<T>, key: T -> int, p: T) {
    |next| == |prev| &&
    forall i :: 0 <= i < |prev| ==> next[i] == if key(prev[i]) == key(p) then p else prev[i]
  }

  /** `next` keeps exactly the elements of `prev` whose key is not k. */
  ghost predicate RemovedByKey<T>(prev: seq<T>, next: seq<T>, key: T -> int, k: int) {
    (forall i :: 0 <= i < |next| ==> next[i] in prev && key(next[i]) != k) &&
    (forall i :: 0 <= i < |prev| && key(prev[i]) != k ==> multiset(next)[prev[i]] == multiset(prev)[prev[i]])
  }

  /** `RemoveWhere` removes exactly by key, in the sense of `RemovedByKey`. */
  lemma RemoveWhereRemovesByKey<T>(xs: seq<T>, key: T -> int, k: int)
    ensures RemovedByKey(xs, RemoveWhere(xs, key, k), key, k)
  {
    RemoveWhereCounts(xs, key, k);
  }

  /** The store's transition function. */
  function Reduce(s: AdminState, a: AdminAction): (r: AdminState)
    // what each action leaves alone
    ensures !(a.UpdatePricing? || a.LoadConfig?) ==> r.config.pricing == s.config.pricing
    ensures !(a.LogIn? || a.LogOut?) ==> r.isAuthenticated == s.isAuthenticated
    ensures !(a.AddNovela? || a.UpdateNovela? || a.DeleteNovela? || a.LoadConfig?) ==>
              r.config.novelas == s.config.novelas
    ensures !(a.AddDeliveryZone? || a.UpdateDeliveryZone? || a.DeleteDeliveryZone? ||
              a.ToggleDeliveryZone? || a.LoadConfig?) ==>
              r.config.deliveryZones == s.config.deliveryZones
    // what each action does
    ensures a.UpdatePricing? ==> r.config.pricing == a.pricing
    ensures a.AddNovela? ==> r.config.novelas == s.config.novelas + [a.novela]
    ensures a.UpdateNovela? ==> ReplacedByKey(s.config.novelas, r.config.novelas, NovelaId, a.novela)
    ensures a.DeleteNovela? ==> RemovedByKey(s.config.novelas, r.config.novelas, NovelaId, a.novelaId)
    ensures a.AddDeliveryZone? ==> r.config.deliveryZones == s.config.deliveryZones + [a.zone]
    ensures a.UpdateDeliveryZone? ==>
              ReplacedByKey(s.config.deliveryZones, r.config.deliveryZones, ZoneId, a.zone)
    ensures a.DeleteDeliveryZone? ==>
              RemovedByKey(s.config.deliveryZones, r.config.deliveryZones, ZoneId, a.zoneId)
    ensures a.ToggleDeliveryZone? ==>
              |r.config.deliveryZones| == |s.config.deliveryZones| &&
              forall i :: 0 <= i < |s.config.deliveryZones| ==>
                var z := s.config.deliveryZones[i];
                r.config.deliveryZones[i] == if z.id == a.zoneId then z.(active := !z.active) else z
    ensures a.LoadConfig? ==> r.config == a.newConfig
    ensures a.LogIn? ==> r.isAuthenticated
    ensures a.LogOut? ==> !r.isAuthenticated
    ensures a.Unrecognized? ==> r == s
  {
    var c := s.config;
    match a
    case UpdatePricing(p) => s.(config := c.(pricing := p))
    case AddNovela(n) => s.(config := c.(novelas := c.novelas + [n]))
    case UpdateNovela(n) => s.(config := c.(novelas := MapWhere(c.novelas, NovelaId, n.id, _ => n)))
    case DeleteNovela(id) =>
      RemoveWhereRemovesByKey(c.novelas, NovelaId, id);
      s.(config := c.(novelas := RemoveWhere(c.novelas, NovelaId, id)))
    case AddDeliveryZone(z) => s.(config := c.(deliveryZones := c.deliveryZones + [z]))
    case UpdateDeliveryZone(z) =>
      s.(config := c.(deliveryZones := MapWhere(c.deliveryZones, ZoneId, z.id, _ => z)))
    case DeleteDeliveryZone(id) =>
      RemoveWhereRemovesByKey(c.deliveryZones, ZoneId, id);
      s.(config := c.(deliveryZones := RemoveWhere(c.deliveryZones, ZoneId, id)))
    case ToggleDeliveryZone(id) =>
      s.(config := c.(deliveryZones := MapWhere(c.deliveryZones, ZoneId, id, FlipActive)))
    case LoadConfig(nc) => s.(config := nc)
    case LogIn => s.(isAuthenticated := true)
    case LogOut => s.(isAuthenticated := false)
    case Unrecognized(_) => s
  }

  /** Toggling the same zone twice gives back the state it started from. */
  lemma ToggleTwiceRestores(s: AdminState, id: int)
    ensures Reduce(Reduce(s, ToggleDeliveryZone(id)), ToggleDeliveryZone(id)) == s
  {
    var zs := s.config.deliveryZones;
    var once := Reduce(s, ToggleDeliveryZone(id));
    var twice := Reduce(once, ToggleDeliveryZone(id));
    assert twice.config.deliveryZones == zs by {
      forall i | 0 <= i < |zs| ensures twice.config.deliveryZones[i] == zs[i] {
        assert once.config.deliveryZones[i].id == zs[i].id;
      }
    }
  }

  /** Deleting a novela id that no novela carries changes nothing. */
  lemma DeleteAbsentNovelaIsNoop(s: AdminState, id: int)
    requires forall i :: 0 <= i < |s.config.novelas| ==> s.config.novelas[i].id != id
    ensures Reduce(s, DeleteNovela(id)) == s
  {
    var p := KeyIsNot(NovelaId, id);
    forall i | 0 <= i < |s.config.novelas| ensures p(s.config.novelas[i]) {
      assert NovelaId(s.config.novelas[i]) != id;
    }
    FilterAllPass(s.config.novelas, p);
  }

  /** Deleting a zone id that no zone carries changes nothing. */
  lemma DeleteAbsentZoneIsNoop(s: AdminState, id: int)
    requires forall i :: 0 <= i < |s.config.deliveryZones| ==> s.config.deliveryZones[i].id != id
    ensures Reduce(s, DeleteDeliveryZone(id)) == s
  {
    var p := KeyIsNot(ZoneId, id);
    forall i | 0 <= i < |s.config.deliveryZones| ensures p(s.config.deliveryZones[i]) {
      assert ZoneId(s.config.deliveryZones[i]) != id;
    }
    FilterAllPass(s.config.deliveryZones, p);
  }

  /** Deleting keeps the survivors in their order: it acts on each part of a split list separately. */
  lemma DeleteZoneKeepsOrder(s: AdminState, id: int, front: seq<DeliveryZone>, back: seq<DeliveryZone>)
    requires s.config.deliveryZones == front + back
    ensures Reduce(s, DeleteDeliveryZone(id)).config.deliveryZones ==
            RemoveWhere(front, ZoneId, id) + RemoveWhere(back, ZoneId, id)
  {
    FilterAppend(front, back, KeyIsNot(ZoneId, id));
  }

  /** Deleting a novela keeps the surviving novelas in their order, like deleting a zone. */
  lemma DeleteNovelaKeepsOrder(s: AdminState, id: int, front: seq<Novela>, back: seq<Novela>)
    requires s.config.novelas == front + back
    ensures Reduce(s, DeleteNovela(id)).config.novelas ==
            RemoveWhere(front, NovelaId, id) + RemoveWhere(back, NovelaId, id)
  {
    FilterAppend(front, back, KeyIsNot(NovelaId, id));
  }

  /** The reducer itself has no guard for the placeholder zone: deleting id 1 removes it. */
  lemma ReducerDeletesZoneOne(s: AdminState)
    requires exists i :: 0 <= i < |s.config.deliveryZones| && s.config.deliveryZones[i].id == 1
    ensures |Reduce(s, DeleteDeliveryZone(1)).config.deliveryZones| < |s.config.deliveryZones|
  {
    var zs := s.config.deliveryZones;
    var i :| 0 <= i < |zs| && zs[i].id == 1;
    RemoveWhereShrinks(zs, ZoneId, 1, i);
  }

  /** Ids are unique in both lists. */
  ghost predicate UniqueIds(c: AdminConfig) {
    UniqueKeys(c.novelas, NovelaId) && UniqueKeys(c.deliveryZones, ZoneId)
  }

  /** Actions that cannot break id uniqueness: adds must bring a fresh id, loads a unique config. */
  ghost predicate KeepsIdsUnique(s: AdminState, a: AdminAction) {
    match a
    case AddNovela(n) => forall i :: 0 <= i < |s.config.novelas| ==> s.config.novelas[i].id != n.id
    case AddDeliveryZone(z) =>
      forall i :: 0 <= i < |s.config.deliveryZones| ==> s.config.deliveryZones[i].id != z.id
    case LoadConfig(c) => UniqueIds(c)
    case _ => true
  }

  /** Every admissible action keeps ids unique. */
  lemma ReducePreservesUniqueIds(s: AdminState, a: AdminAction)
    requires UniqueIds(s.config) && KeepsIdsUnique(s, a)
    ensures UniqueIds(Reduce(s, a).config)
  {
    var c := s.config;
    match a
    case AddNovela(n) => AppendFreshKeepsUnique(c.novelas, NovelaId, n);
    case UpdateNovela(n) => MapWhereKeepsUnique(c.novelas, NovelaId, n.id, _ => n);
    case DeleteNovela(id) => FilterKeepsUnique(c.novelas, KeyIsNot(NovelaId, id), NovelaId);
    case AddDeliveryZone(z) => AppendFreshKeepsUnique(c.deliveryZones, ZoneId, z);
    case UpdateDeliveryZone(z) => MapWhereKeepsUnique(c.deliveryZones, ZoneId, z.id, _ => z);
    case DeleteDeliveryZone(id) =>
      FilterKeepsUnique(c.deliveryZones, KeyIsNot(ZoneId, id), ZoneId);
    case ToggleDeliveryZone(id) => MapWhereKeepsUnique(c.deliveryZones, ZoneId, id, FlipActive);
    case _ =>
  }

  // ---------------------------------------------------------------------------
  // Values the helpers build before dispatching

  /** What `addNovela` receives: every field but the id; costs may be missing. */
  datatype NovelaDraft = NovelaDraft(
    titulo: string,
    genero: string,
    capitulos: int,
    anio: int,
    costoEfectivo: Option<int>,
    costoTransferencia: Option<int>,
    descripcion: Option<string>)

  /** What `updateNovela` receives: any subset of the fields. */
  datatype NovelaPatch = NovelaPatch(
    id: Option<int>,
    titulo: Option<string>,
    genero: Option<string>,
    capitulos: Option<int>,
    anio: Option<int>,
    costoEfectivo: Option<int>,
    costoTransferencia: Option<int>,
    descripcion: Option<string>)

  /** The novela `addNovela` dispatches: missing (or zero) costs are derived from the chapters. */
  function NewNovela(d: NovelaDraft, id: int, fee: int): Novela {
    Novela(id, d.titulo, d.genero, d.capitulos, d.anio,
           OrElse(d.costoEfectivo, d.capitulos * ChapterPrice),
           OrElse(d.costoTransferencia, Surcharged(d.capitulos * ChapterPrice, fee)),
           d.descripcion)
  }

  /** A supplied cost is kept; a missing or zero one is derived from the chapter count at the current fee. */
  lemma NewNovelaCosts(d: NovelaDraft, id: int, fee: int)
    ensures var n := NewNovela(d, id, fee);
      n.id == id && n.capitulos == d.capitulos &&
      (Truthy(d.costoEfectivo) ==> n.costoEfectivo == d.costoEfectivo.value) &&
      (!Truthy(d.costoEfectivo) ==> n.costoEfectivo == 5 * d.capitulos) &&
      (Truthy(d.costoTransferencia) ==> n.costoTransferencia == d.costoTransferencia.value) &&
      (!Truthy(d.costoTransferencia) ==> n.costoTransferencia == Surcharged(5 * d.capitulos, fee))
  {
  }

  /** With no supplied costs, a non-negative fee and chapter count, transfer never undercuts cash. */
  lemma NewNovelaTransferNotCheaper(d: NovelaDraft, id: int, fee: int)
    requires !Truthy(d.costoEfectivo) && !Truthy(d.costoTransferencia)
    requires d.capitulos >= 0 && fee >= 0
    ensures NewNovela(d, id, fee).costoTransferencia >= NewNovela(d, id, fee).costoEfectivo
  {
    SurchargeNotBelowBase(d.capitulos * ChapterPrice, fee);
  }

  /** Costs recomputed by `updateNovela` when the chapter count changes; supplied costs still win. */
  function PatchWithCosts(existing: Novela, patch: NovelaPatch, fee: int): NovelaPatch {
    if Truthy(patch.capitulos) && patch.capitulos.value != existing.capitulos then
      var chapters := patch.capitulos.value;
      patch.(costoEfectivo := Some(OrElse(patch.costoEfectivo, chapters * ChapterPrice)),
             costoTransferencia := Some(OrElse(patch.costoTransferencia, Surcharged(chapters * ChapterPrice, fee))))
    else patch
  }

  /** The existing novela with the fields present in the patch overriding. */
  function Merge(existing: Novela, patch: NovelaPatch): Novela {
    Novela(
      if patch.id.Some? then patch.id.value else existing.id,
      if patch.titulo.Some? then patch.titulo.value else existing.titulo,
      if patch.genero.Some? then patch.genero.value else existing.genero,
      if patch.capitulos.Some? then patch.capitulos.value else existing.capitulos,
      if patch.anio.Some? then patch.anio.value else existing.anio,
      if patch.costoEfectivo.Some? then patch.costoEfectivo.value else existing.costoEfectivo,
      if patch.costoTransferencia.Some? then patch.costoTransferencia.value else existing.costoTransferencia,
      if patch.descripcion.Some? then patch.descripcion else existing.descripcion)
  }

  /** The novela `updateNovela` dispatches for an existing one. */
  function UpdatedNovela(existing: Novela, patch: NovelaPatch, fee: int): Novela {
    Merge(existing, PatchWithCosts(existing, patch, fee))
  }

  const EmptyNovelaPatch := NovelaPatch(None, None, None, None, None, None, None, None)

  /** The patch that carries every field of a novela. */
  function FullPatch(n: Novela): NovelaPatch {
    NovelaPatch(Some(n.id), Some(n.titulo), Some(n.genero), Some(n.capitulos), Some(n.anio),
                Some(n.costoEfectivo), Some(n.costoTransferencia), n.descripcion)
  }

  /**
   * An empty patch leaves a novela as it is, whatever the fee; a patch carrying
   * every field of another novela with non-zero costs turns the novela into it.
   */
  lemma UpdatedNovelaExtremes(existing: Novela, other: Novela, fee: int)
    requires other.costoEfectivo != 0 && other.costoTransferencia != 0 && other.descripcion.Some?
    ensures UpdatedNovela(existing, EmptyNovelaPatch, fee) == existing
    ensures UpdatedNovela(existing, FullPatch(other), fee) == other
  {
  }

  /** A patch that only renames keeps the costs and the chapter count. */
  lemma RenameKeepsCosts(existing: Novela, title: string, fee: int)
    ensures var n := UpdatedNovela(existing, EmptyNovelaPatch.(titulo := Some(title)), fee);
      n == existing.(titulo := title)
  {
  }

  /** Costs are recomputed only for a truthy, different chapter count, and supplied costs win. */
  lemma UpdatedNovelaCosts(existing: Novela, patch: NovelaPatch, fee: int)
    ensures var n := UpdatedNovela(existing, patch, fee);
      var changed := Truthy(patch.capitulos) && patch.capitulos.value != existing.capitulos;
      (!changed && patch.costoEfectivo.Some? ==> n.costoEfectivo == patch.costoEfectivo.value) &&
      (Truthy(patch.costoEfectivo) ==> n.costoEfectivo == patch.costoEfectivo.value) &&
      (Truthy(patch.costoTransferencia) ==> n.costoTransferencia == patch.costoTransferencia.value) &&
      (!changed && patch.costoEfectivo.None? ==> n.costoEfectivo == existing.costoEfectivo) &&
      (!changed && patch.costoTransferencia.None? ==> n.costoTransferencia == existing.costoTransferencia) &&
      (changed && !Truthy(patch.costoEfectivo) ==> n.costoEfectivo == 5 * n.capitulos) &&
      (changed && !Truthy(patch.costoTransferencia) ==>
         n.costoTransferencia == Surcharged(5 * n.capitulos, fee))
  {
  }

  /** What `addDeliveryZone` receives: every field but the id. */
  datatype ZoneDraft = ZoneDraft(name: string, fullPath: string, cost: int, active: bool)

  /** What `updateDeliveryZone` receives: any subset of the fields. */
  datatype ZonePatch = ZonePatch(
    id: Option<int>, name: Option<string>, fullPath: Option<string>, cost: Option<int>, active: Option<bool>)

  const DefaultPathPrefix: string := "Santiago de Cuba > Santiago de Cuba > "

  /** The path a zone gets when none is given: the zone's name under the fixed city prefix. */
  function DefaultFullPath(name: string): (p: string)
    ensures |p| == |DefaultPathPrefix| + |name|
    ensures p[..|DefaultPathPrefix|] == DefaultPathPrefix && p[|DefaultPathPrefix|..] == name
  {
    DefaultPathPrefix + name
  }

  /** The zone `addDeliveryZone` dispatches. */
  function NewZone(d: ZoneDraft, id: int): (z: DeliveryZone)
    ensures z.id == id && z.name == d.name && z.cost == d.cost && z.active == d.active
    ensures d.fullPath != "" ==> z.fullPath == d.fullPath
    ensures d.fullPath == "" ==> z.fullPath == DefaultPathPrefix + d.name
  {
    DeliveryZone(id, d.name, if d.fullPath != "" then d.fullPath else DefaultFullPath(d.name), d.cost, d.active)
  }

  /** Distinct zone names give distinct default paths, so the default never makes two new zones collide. */
  lemma DefaultPathsDistinct(a: string, b: string)
    requires a != b
    ensures DefaultFullPath(a) != DefaultFullPath(b)
  {
  }

  /** A new zone always has a path, and its name can be read back from a defaulted path. */
  lemma NewZonePath(d: ZoneDraft, id: int)
    ensures NewZone(d, id).fullPath != ""
    ensures d.fullPath == "" ==> NewZone(d, id).fullPath[|DefaultPathPrefix|..] == NewZone(d, id).name
  {
  }

  /** The existing zone with the fields present in the patch overriding. */
  function MergeZone(existing: DeliveryZone, patch: ZonePatch): DeliveryZone {
    DeliveryZone(
      if patch.id.Some? then patch.id.value else existing.id,
      if patch.name.Some? then patch.name.value else existing.name,
      if patch.fullPath.Some? then patch.fullPath.value else existing.fullPath,
      if patch.cost.Some? then patch.cost.value else existing.cost,
      if patch.active.Some? then patch.active.value else existing.active)
  }

  /**
   * An empty patch leaves a zone as it is, a full patch replaces it, and
   * patching twice with the same patch is the same as patching once.
   */
  lemma MergeZoneLaws(existing: DeliveryZone, other: DeliveryZone, patch: ZonePatch)
    ensures MergeZone(existing, ZonePatch(None, None, None, None, None)) == existing
    ensures MergeZone(existing, ZonePatch(Some(other.id), Some(other.name), Some(other.fullPath),
                                          Some(other.cost), Some(other.active))) == other
    ensures MergeZone(MergeZone(existing, patch), patch) == MergeZone(existing, patch)
  {
  }

  // ---------------------------------------------------------------------------
  // Import and export

  /** A parsed list field: missing, some non-array value (truthy or not), or an array. */
  datatype ParsedList<T> = Missing | NotArray(truthy: bool) | ArrayOf(items: seq<T>)

  predicate ListTruthy<T>(l: ParsedList<T>) {
    l.ArrayOf? || (l.NotArray? && l.truthy)
  }

  /** Parsed pricing fields; `None` is an absent field. */
  datatype ParsedPricing = ParsedPricing(moviePrice: Option<int>, seriesPrice: Option<int>, transferFeePercentage: Option<int>)

  /** The already-parsed document handed to `importConfig`; `pricing == None` is a falsy value. */
  datatype ParsedConfig = ParsedConfig(
    pricing: Option<ParsedPricing>, novelas: ParsedList<Novela>, deliveryZones: ParsedList<DeliveryZone>)

  datatype ImportError = MissingSection | InvalidPricing | InvalidNovelas | InvalidZones

  /** The first check: all three sections are present (truthy). */
  predicate SectionsPresent(p: ParsedConfig) {
    p.pricing.Some? && ListTruthy(p.novelas) && ListTruthy(p.deliveryZones)
  }

  /** The second check: both prices truthy and the fee defined. */
  predicate PricingComplete(pr: ParsedPricing) {
    Truthy(pr.moviePrice) && Truthy(pr.seriesPrice) && pr.transferFeePercentage.Some?
  }

  /** `importConfig`'s checks, in the order the source makes them, and the config it would load. */
  function ValidateImport(p: ParsedConfig): (r: Result<AdminConfig, ImportError>)
    ensures r.Success? <==>
              p.pricing.Some? && Truthy(p.pricing.value.moviePrice) && Truthy(p.pricing.value.seriesPrice) &&
              p.pricing.value.transferFeePercentage.Some? && p.novelas.ArrayOf? && p.deliveryZones.ArrayOf?
    // each failure names the first check that fails
    ensures r == Failure(InvalidPricing) <==> SectionsPresent(p) && !PricingComplete(p.pricing.value)
    ensures r == Failure(InvalidNovelas) <==>
              SectionsPresent(p) && PricingComplete(p.pricing.value) && !p.novelas.ArrayOf?
    ensures r == Failure(InvalidZones) <==>
              SectionsPresent(p) && PricingComplete(p.pricing.value) && p.novelas.ArrayOf? && !p.deliveryZones.ArrayOf?
    ensures r.Success? ==>
              r.value.pricing == Pricing(p.pricing.value.moviePrice.value, p.pricing.value.seriesPrice.value,
                                         p.pricing.value.transferFeePercentage.value) &&
              r.value.novelas == p.novelas.items && r.value.deliveryZones == p.deliveryZones.items
    ensures r == Failure(MissingSection) <==>
              p.pricing.None? || !ListTruthy(p.novelas) || !ListTruthy(p.deliveryZones)
  {
    if p.pricing.None? || !ListTruthy(p.novelas) || !ListTruthy(p.deliveryZones) then Failure(MissingSection)
    else
      var pr := p.pricing.value;
      if !Truthy(pr.moviePrice) || !Truthy(pr.seriesPrice) || pr.transferFeePercentage.None? then
        Failure(InvalidPricing)
      else if !p.novelas.ArrayOf? then Failure(InvalidNovelas)
      else if !p.deliveryZones.ArrayOf? then Failure(InvalidZones)
      else Success(AdminConfig(
        Pricing(pr.moviePrice.value, pr.seriesPrice.value, pr.transferFeePercentage.value),
        p.novelas.items, p.deliveryZones.items))
  }

  /** `exportConfig` as seen after parsing: the three fields (the export metadata is dropped). */
  function Export(c: AdminConfig): ParsedConfig {
    ParsedConfig(
      Some(ParsedPricing(Some(c.pricing.moviePrice), Some(c.pricing.seriesPrice), Some(c.pricing.transferFeePercentage))),
      ArrayOf(c.novelas), ArrayOf(c.deliveryZones))
  }

  /** Re-importing an export restores the config exactly when both prices are non-zero. */
  lemma ExportImportRoundTrip(c: AdminConfig)
    ensures ValidateImport(Export(c)) == Success(c) <==> c.pricing.moviePrice != 0 && c.pricing.seriesPrice != 0
    ensures ValidateImport(Export(c)).Failure? ==> ValidateImport(Export(c)).error == InvalidPricing
  {
  }

  // ---------------------------------------------------------------------------
  // The provider: current state plus the helpers that dispatch

  const AdminUser: string := "admin"
  const AdminPassword: string := "admin"

  class AdminProvider {
    var state: AdminState
    /** The built-in default configuration (its contents live outside this model). */
    const defaultConfig: AdminConfig

    constructor (defaults: AdminConfig)
      ensures state == AdminState(defaults, false) && defaultConfig == defaults
    {
      state := AdminState(defaults, false);
      defaultConfig := defaults;
    }

    /** `dispatch`: the state becomes the reducer's result. */
    method Dispatch(a: AdminAction)
      modifies this
      ensures state == Reduce(old(state), a)
    {
      state := Reduce(state, a);
    }

    /** `login`: only admin/admin succeeds; a failed attempt changes nothing. */
    method Login(username: string, password: string) returns (ok: bool)
      modifies this
      ensures ok <==> username == AdminUser && password == AdminPassword
      ensures ok ==> state == old(state).(isAuthenticated := true)
      ensures !ok ==> state == old(state)
    {
      ok := username == AdminUser && password == AdminPassword;
      if ok {
        Dispatch(LogIn);
      }
    }

    /** `logout`. */
    method Logout()
      modifies this
      ensures state == old(state).(isAuthenticated := false)
    {
      Dispatch(LogOut);
    }

    /** `addNovela`: appends the draft under a fresh id, deriving missing costs at the current fee. */
    method AddNovela(d: NovelaDraft)
      modifies this
      ensures var id := NextKey(old(state).config.novelas, NovelaId);
        state == Reduce(old(state), AdminAction.AddNovela(
          NewNovela(d, id, old(state).config.pricing.transferFeePercentage)))
      ensures UniqueIds(old(state).config) ==> UniqueIds(state.config)
    {
      var id := NextKey(state.config.novelas, NovelaId);
      var n := NewNovela(d, id, state.config.pricing.transferFeePercentage);
      if UniqueIds(state.config) {
        ReducePreservesUniqueIds(state, AdminAction.AddNovela(n));
      }
      Dispatch(AdminAction.AddNovela(n));
    }

    /** `updateNovela`: nothing happens for an unknown id. */
    method UpdateNovela(id: int, patch: NovelaPatch)
      modifies this
      ensures var found := FindFirst(old(state).config.novelas, NovelaId, id);
        state == if found.None? then old(state)
                 else Reduce(old(state), AdminAction.UpdateNovela(
                   UpdatedNovela(found.value, patch, old(state).config.pricing.transferFeePercentage)))
      ensures UniqueIds(old(state).config) ==> UniqueIds(state.config)
    {
      var found := FindFirst(state.config.novelas, NovelaId, id);
      if found.Some? {
        var n := UpdatedNovela(found.value, patch, state.config.pricing.transferFeePercentage);
        if UniqueIds(state.config) {
          ReducePreservesUniqueIds(state, AdminAction.UpdateNovela(n));
        }
        Dispatch(AdminAction.UpdateNovela(n));
      }
    }

    /** `deleteNovela`. */
    method DeleteNovela(id: int)
      modifies this
      ensures state == Reduce(old(state), AdminAction.DeleteNovela(id))
      ensures UniqueIds(old(state).config) ==> UniqueIds(state.config)
    {
      if UniqueIds(state.config) {
        ReducePreservesUniqueIds(state, AdminAction.DeleteNovela(id));
      }
      Dispatch(AdminAction.DeleteNovela(id));
    }

    /** `addDeliveryZone`: appends the draft under a fresh id, with a default path when none is given. */
    method AddDeliveryZone(d: ZoneDraft)
      modifies this
      ensures state == Reduce(old(state), AdminAction.AddDeliveryZone(
        NewZone(d, NextKey(old(state).config.deliveryZones, ZoneId))))
      ensures UniqueIds(old(state).config) ==> UniqueIds(state.config)
    {
      var z := NewZone(d, NextKey(state.config.deliveryZones, ZoneId));
      if UniqueIds(state.config) {
        ReducePreservesUniqueIds(state, AdminAction.AddDeliveryZone(z));
      }
      Dispatch(AdminAction.AddDeliveryZone(z));
    }

    /** `updateDeliveryZone`: nothing happens for an unknown id. */
    method UpdateDeliveryZone(id: int, patch: ZonePatch)
      modifies this
      ensures var found := FindFirst(old(state).config.deliveryZones, ZoneId, id);
        state == if found.None? then old(state)
                 else Reduce(old(state), AdminAction.UpdateDeliveryZone(MergeZone(found.value, patch)))
      ensures UniqueIds(old(state).config) ==> UniqueIds(state.config)
    {
      var found := FindFirst(state.config.deliveryZones, ZoneId, id);
      if found.Some? {
        var z := MergeZone(found.value, patch);
        if UniqueIds(state.config) {
          ReducePreservesUniqueIds(state, AdminAction.UpdateDeliveryZone(z));
        }
        Dispatch(AdminAction.UpdateDeliveryZone(z));
      }
    }

    /** `deleteDeliveryZone`: the placeholder zone 1 is never deleted. */
    method DeleteDeliveryZone(id: int)
      modifies this
      ensures id == 1 ==> state == old(state)
      ensures id != 1 ==> state == Reduce(old(state), AdminAction.DeleteDeliveryZone(id))
      ensures UniqueIds(old(state).config) ==> UniqueIds(state.config)
    {
      if id != 1 {
        if UniqueIds(state.config) {
          ReducePreservesUniqueIds(state, AdminAction.DeleteDeliveryZone(id));
        }
        Dispatch(AdminAction.DeleteDeliveryZone(id));
      }
    }

    /** `exportConfig`, as the document a later import parses: importing it restores the config unless a price is 0. */
    function ExportConfig(): (p: ParsedConfig)
      reads this
      ensures ValidateImport(p) == Success(state.config) <==>
                state.config.pricing.moviePrice != 0 && state.config.pricing.seriesPrice != 0
      ensures p.novelas == ArrayOf(state.config.novelas) && p.deliveryZones == ArrayOf(state.config.deliveryZones)
    {
      ExportImportRoundTrip(state.config);
      Export(state.config)
    }

    /** `importConfig`: a document that fails a check leaves the state alone; login is kept either way. */
    method ImportConfig(p: ParsedConfig) returns (ok: bool)
      modifies this
      ensures ok <==> ValidateImport(p).Success?
      ensures ok ==> state == AdminState(ValidateImport(p).value, old(state).isAuthenticated)
      ensures !ok ==> state == old(state)
    {
      var r := ValidateImport(p);
      ok := r.Success?;
      if ok {
        Dispatch(LoadConfig(r.value));
      }
    }

    /** `resetToDefaults`. */
    method ResetToDefaults()
      modifies this
      ensures state == AdminState(defaultConfig, old(state).isAuthenticated)
    {
      Dispatch(LoadConfig(defaultConfig));
    }
  }
}
