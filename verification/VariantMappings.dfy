/** Saving mappings: what one save does, what any sequence of edits keeps, and confirming suggestions. */
module VariantMappings {
  import opened Common
  import opened Text
  import opened Variants

  // ---------------------------------------------------------------- saving

  datatype SetError = ReasonRequired | UnknownPrice | PriceNotSellable | Refused(why: Mismatch) | CatalogFailed

  function CheckCandidate(st: Snapshot, p: Price, v: VariantId): Option<SetError> {
    if exists other :: other in st.rows && st.rows[other] == v && other != p.id then Some(Refused(Taken))
    else if st.catalog == Err(Unreadable) then None
    else if st.catalog.Err? then Some(CatalogFailed)
    else
      match FindVariant(st.catalog.value.variants, v)
      case None => Some(Refused(VariantMissing))
      case Some(found) =>
        match CheckMapping(p, found, st.catalog.value.currency, st.testMode, p.tierId == st.freeTier)
        case Some(why) => Some(Refused(why))
        case None => None
  }

  function FindVariant(variants: seq<Variant>, id: VariantId): Option<Variant> {
    if variants == [] then None else if variants[0].id == id then Some(variants[0]) else FindVariant(variants[1..], id)
  }

  function FindPrice(prices: seq<Price>, id: PriceId): Option<Price> {
    if prices == [] then None else if prices[0].id == id then Some(prices[0]) else FindPrice(prices[1..], id)
  }

  /** The unique constraint: one price per variant and mode. */
  predicate VariantTaken(rows: Rows, slot: Slot, v: VariantId) {
    exists other :: other in rows && other.testMode == slot.testMode && other != slot && rows[other] == v
  }

  /** The table after a save that read st, however stale st has become. */
  function Saved(rows: Rows, st: Snapshot, priceId: PriceId, variantId: VariantId, reason: string): Result<Rows,
      SetError>
  {
    var id, v := Trim(priceId), Trim(variantId);
    var price := FindPrice(st.prices, id);
    if Trim(reason) == "" then Err(ReasonRequired)
    else if price.None? then Err(if id in st.known then PriceNotSellable else UnknownPrice)
    else if v == "" then Ok(rows - {Slot(id, st.testMode)})
    else if id !in st.sellable then Err(PriceNotSellable)
    else if CheckCandidate(st, price.value, v).Some? then Err(CheckCandidate(st, price.value, v).value)
    else if VariantTaken(rows, Slot(id, st.testMode), v) then Err(Refused(Taken))
    else Ok(rows[Slot(id, st.testMode) := v])
  }

  /** A save that goes through read a sellable price, and a catalog variant that sells it or no catalog at all. */
  lemma SavedIsChecked(rows: Rows, st: Snapshot, priceId: PriceId, variantId: VariantId, reason: string)
    requires Saved(rows, st, priceId, variantId, reason).Ok?
    ensures var id, v := Trim(priceId), Trim(variantId); var after := Saved(rows, st, priceId, variantId, reason).value;
            && !Blank(reason) && FindPrice(st.prices, id).Some?
            && (forall s :: s != Slot(id, st.testMode) ==>
                (s in after <==> s in rows) && (s in rows ==> after[s] == rows[s]))
            && (Blank(variantId) ==> Slot(id, st.testMode) !in after)
            && (!Blank(variantId) ==>
                  && Slot(id, st.testMode) in after && after[Slot(id, st.testMode)] == v && id in st.sellable
                  && (st.catalog == Err(Unreadable)
                      || (st.catalog.Ok? && FindVariant(st.catalog.value.variants, v).Some?
                          && var p := FindPrice(st.prices, id).value;
                             Sells(FindVariant(st.catalog.value.variants, v).value, p, st.catalog.value.currency,
                                   st.testMode, p.tierId == st.freeTier))))
  {
    TrimBlank(reason);
    TrimBlank(variantId);
    hide Trim;
    hide Blank;
    hide FindPrice;
    hide FindVariant;
    hide CheckMapping;
    hide Sells;
    if !Blank(variantId) && st.catalog.Ok? && FindVariant(st.catalog.value.variants, Trim(variantId)).Some? {
      var p := FindPrice(st.prices, Trim(priceId)).value;
      CheckIsSells(p, FindVariant(st.catalog.value.variants, Trim(variantId)).value, st.catalog.value.currency,
                   st.testMode, p.tierId == st.freeTier);
    }
  }

  /** The first price with the id is found, and none is found only when there is none. */
  lemma {:induction false} FindsPrice(prices: seq<Price>, id: PriceId)
    ensures FindPrice(prices, id).None? <==> forall p :: p in prices ==> p.id != id
    ensures FindPrice(prices, id).Some? ==>
            FindPrice(prices, id).value in prices && FindPrice(prices, id).value.id == id
    decreases |prices|
  {
    if prices != [] {
      assert prices == [prices[0]] + prices[1..];
      FindsPrice(prices[1..], id);
    }
  }

  lemma {:induction false} FindsVariant(variants: seq<Variant>, id: VariantId)
    ensures FindVariant(variants, id).None? <==> forall v :: v in variants ==> v.id != id
    ensures FindVariant(variants, id).Some? ==>
              FindVariant(variants, id).value in variants && FindVariant(variants, id).value.id == id
    decreases |variants|
  {
    if variants != [] {
      assert variants == [variants[0]] + variants[1..];
      FindsVariant(variants[1..], id);
    }
  }

  /** The catalog has nothing against it: it could not be read, or the variant it lists first sells the price. */
  predicate Offered(st: Snapshot, id: PriceId, v: VariantId) {
    match st.catalog
    case Err(e) => e.Unreadable?
    case Ok(catalog) =>
      var (p, w) := (FindPrice(st.prices, id), FindVariant(catalog.variants, v));
      p.Some? && w.Some? && Sells(w.value, p.value, catalog.currency, st.testMode, p.value.tierId == st.freeTier)
  }

  /** Neither the view nor the table gives the variant to another price of the mode. */
  ghost predicate Unclaimed(rows: Rows, st: Snapshot, id: PriceId, v: VariantId) {
    && (forall other :: other in st.rows && st.rows[other] == v ==> other == id)
    && (forall s :: s in rows && s.testMode == st.testMode && rows[s] == v ==> s.price == id)
  }

  /**
   A save goes through exactly with a reason, a listed price and, unless it unmaps, a sellable one with an
   offered variant no other price of the mode has.  What the price itself had before is no obstacle.
   */
  lemma SaveSucceedsIff(rows: Rows, st: Snapshot, priceId: PriceId, variantId: VariantId, reason: string)
    ensures var id, v := Trim(priceId), Trim(variantId); var r := Saved(rows, st, priceId, variantId, reason);
            && (r.Ok? <==>
                  && !Blank(reason) && (exists p :: p in st.prices && p.id == id)
                  && (!Blank(variantId) ==> id in st.sellable && Unclaimed(rows, st, id, v) && Offered(st, id, v)))
            && (r.Ok? ==> r.value == if Blank(variantId) then rows - {Slot(id, st.testMode)}
                                     else rows[Slot(id, st.testMode) := v])
            && (r == Err(ReasonRequired) <==> Blank(reason))
            && (r == Err(UnknownPrice) <==>
                  !Blank(reason) && id !in st.known && forall p :: p in st.prices ==> p.id != id)
            && (r == Err(PriceNotSellable) <==>
                  !Blank(reason) && if exists p :: p in st.prices && p.id == id
                                    then !Blank(variantId) && id !in st.sellable else id in st.known)
            && (r == Err(CatalogFailed) ==> st.catalog == Err(ProviderDown))
            && (r == Err(Refused(Taken)) ==> !Unclaimed(rows, st, id, v))
  {
    var id, v := Trim(priceId), Trim(variantId);
    TrimBlank(reason);
    TrimBlank(variantId);
    FindsPrice(st.prices, id);
    if FindPrice(st.prices, id).Some? { CandidateIff(st, id, v); }
    hide Trim;
    hide Blank;
    hide FindPrice;
    hide CheckCandidate;
    hide Offered;
    assert VariantTaken(rows, Slot(id, st.testMode), v) <==>
           exists s :: s in rows && s.testMode == st.testMode && rows[s] == v && s.price != id by {
      forall s | s in rows && s.testMode == st.testMode ensures s.price == id <==> s == Slot(id, st.testMode) {}
    }
  }

  lemma CandidateIff(st: Snapshot, id: PriceId, v: VariantId)
    requires FindPrice(st.prices, id).Some?
    ensures FindPrice(st.prices, id).value.id == id
    ensures var refused := CheckCandidate(st, FindPrice(st.prices, id).value, v);
            && (refused.None? <==>
                  (forall other :: other in st.rows && st.rows[other] == v ==> other == id) && Offered(st, id, v))
            && refused != Some(ReasonRequired) && refused != Some(UnknownPrice) && refused != Some(PriceNotSellable)
            && (refused == Some(CatalogFailed) ==> st.catalog == Err(ProviderDown))
            && (refused == Some(Refused(Taken)) ==>
                exists other :: other in st.rows && st.rows[other] == v && other != id)
  {
    FindsPrice(st.prices, id);
    var p := FindPrice(st.prices, id).value;
    hide FindPrice;
    hide FindVariant;
    hide CheckMapping;
    hide Sells;
    if st.catalog.Ok? && FindVariant(st.catalog.value.variants, v).Some? {
      CheckIsSells(p, FindVariant(st.catalog.value.variants, v).value, st.catalog.value.currency, st.testMode,
                   p.tierId == st.freeTier);
    }
  }

  /** Unmapping undoes a mapping of a price that had none, whatever either call had read about the catalog. */
  lemma UnmapUndoesMap(rows: Rows, st: Snapshot, later: Snapshot, priceId: PriceId, variantId: VariantId,
      reason: string)
    requires Saved(rows, st, priceId, variantId, reason).Ok? && Slot(Trim(priceId), st.testMode) !in rows
    requires later.testMode == st.testMode && FindPrice(later.prices, Trim(priceId)).Some?
    ensures Saved(Saved(rows, st, priceId, variantId, reason).value, later, priceId, "", reason) == Ok(rows)
  {
    assert Trim("") == "";
    var after := Saved(rows, st, priceId, variantId, reason).value;
    assert after - {Slot(Trim(priceId), st.testMode)} == rows;
  }

  /** While a variant sells one price, no other price of the mode gets it, however stale the view of who has it. */
  lemma TakenIsRefused(rows: Rows, st: Snapshot, priceId: PriceId, variantId: VariantId, reason: string, other: Slot)
    requires other in rows && other.testMode == st.testMode && other.price != Trim(priceId)
             && rows[other] == Trim(variantId)
    requires Trim(variantId) != ""
    ensures Saved(rows, st, priceId, variantId, reason).Err?
  {
    hide Trim;
    hide FindPrice;
    hide CheckCandidate;
    assert VariantTaken(rows, Slot(Trim(priceId), st.testMode), Trim(variantId));
  }

  class MappingTable {
    var rows: Rows

    constructor ()
      ensures rows == map[]
    {
      rows := map[];
    }

    method SetVariantMapping(st: Snapshot, priceId: PriceId, variantId: VariantId, reason: string)
      returns (r: Result<(), SetError>)
      modifies this
      ensures match Saved(old(rows), st, priceId, variantId, reason)
              case Ok(after) => rows == after && r.Ok?
              case Err(e) => rows == old(rows) && r == Err(e)
    {
      var id, v := Trim(priceId), Trim(variantId);
      if Trim(reason) == "" { return Err(ReasonRequired); }
      var price := FindPrice(st.prices, id);
      if price.None? { return Err(if id in st.known then PriceNotSellable else UnknownPrice); }
      if v == "" {
        rows := rows - {Slot(id, st.testMode)};
        return Ok(());
      }
      if id !in st.sellable { return Err(PriceNotSellable); }
      var refused := CheckCandidate(st, price.value, v);
      if refused.Some? { return Err(refused.value); }
      if VariantTaken(rows, Slot(id, st.testMode), v) { return Err(Refused(Taken)); }
      rows := rows[Slot(id, st.testMode) := v];
      return Ok(());
    }
  }

  // ---------------------------------------------------------------- the mapping over time

  datatype Edit =
    | Save(st: Snapshot, price: PriceId, variant: VariantId, reason: string)
    | Seed(testMode: bool, byPrice: map<PriceId, VariantId>, known: set<PriceId>)
    | DropPrices(prices: set<PriceId>)

  function SeedRows(testMode: bool, byPrice: map<PriceId, VariantId>, known: set<PriceId>): Rows {
    map p | p in byPrice && p in known :: Slot(p, testMode) := byPrice[p]
  }

  /** The one-off import: only into an empty mode, all rows or none. */
  function Seeded(rows: Rows, testMode: bool, byPrice: map<PriceId, VariantId>, known: set<PriceId>): Rows {
    var more := SeedRows(testMode, byPrice, known);
    if exists s :: s in rows && s.testMode == testMode then rows
    else if exists a, b :: a in more && b in more && a != b && more[a] == more[b] then rows
    else rows + more
  }

  function Apply(rows: Rows, e: Edit): Rows {
    match e
    case Save(st, price, variant, reason) =>
      (match Saved(rows, st, price, variant, reason) case Ok(after) => after case Err(_) => rows)
    case Seed(testMode, byPrice, known) => Seeded(rows, testMode, byPrice, known)
    case DropPrices(prices) => map s | s in rows && s.price !in prices :: rows[s]
  }

  function ApplyAll(rows: Rows, edits: seq<Edit>): Rows
    decreases |edits|
  {
    if edits == [] then rows else ApplyAll(Apply(rows, edits[0]), edits[1..])
  }

  predicate Seeds(byPrice: map<PriceId, VariantId>, known: set<PriceId>, p: PriceId) {
    p in byPrice && p in known
  }

  /** The import fills an empty mode with every known price, unless two of them share a variant, or does nothing. */
  lemma SeedFills(rows: Rows, testMode: bool, byPrice: map<PriceId, VariantId>, known: set<PriceId>)
    ensures var after := Apply(rows, Seed(testMode, byPrice, known));
            if (exists s :: s in rows && s.testMode == testMode)
               || (exists p, q :: Seeds(byPrice, known, p) && Seeds(byPrice, known, q) && p != q
                                  && byPrice[p] == byPrice[q])
            then after == rows
            else && (forall s :: s in after <==>
              s in rows || (s.testMode == testMode && Seeds(byPrice, known, s.price)))
                 && (forall s :: s in rows ==> after[s] == rows[s])
                 && (forall p :: Seeds(byPrice, known, p) ==> after[Slot(p, testMode)] == byPrice[p])
  {
    SeedRowsAre(testMode, byPrice, known);
    ClashIff(testMode, byPrice, known);
    hide SeedRows;
    hide Seeds;
  }

  ghost predicate Clash(more: Rows) {
    exists a, b :: a in more && b in more && a != b && more[a] == more[b]
  }

  lemma SeedRowsAre(testMode: bool, byPrice: map<PriceId, VariantId>, known: set<PriceId>)
    ensures var more := SeedRows(testMode, byPrice, known);
            && (forall s :: s in more <==> s.testMode == testMode && Seeds(byPrice, known, s.price))
            && (forall p :: Seeds(byPrice, known, p) ==> more[Slot(p, testMode)] == byPrice[p])
  {
    var more := SeedRows(testMode, byPrice, known);
    forall s ensures s in more <==> s.testMode == testMode && Seeds(byPrice, known, s.price) {
      assert s.testMode == testMode ==> s == Slot(s.price, testMode);
    }
  }

  lemma ClashIff(testMode: bool, byPrice: map<PriceId, VariantId>, known: set<PriceId>)
    ensures Clash(SeedRows(testMode, byPrice, known)) <==>
            exists p, q :: Seeds(byPrice, known, p) && Seeds(byPrice, known, q) && p != q && byPrice[p] == byPrice[q]
  {
    SeedRowsAre(testMode, byPrice, known);
    var more := SeedRows(testMode, byPrice, known);
    hide SeedRows;
    if p, q :| Seeds(byPrice, known, p) && Seeds(byPrice, known, q) && p != q && byPrice[p] == byPrice[q] {
      assert Slot(p, testMode) in more && Slot(q, testMode) in more;
      assert more[Slot(p, testMode)] == more[Slot(q, testMode)];
    }
    if a, b :| a in more && b in more && a != b && more[a] == more[b] {
      assert a == Slot(a.price, testMode) && b == Slot(b.price, testMode);
      assert Seeds(byPrice, known, a.price) && Seeds(byPrice, known, b.price) && a.price != b.price;
    }
  }

  /** In each mode no two prices share a variant. */
  ghost predicate Injective(rows: Rows) {
    forall a, b :: a in rows && b in rows && a.testMode == b.testMode && rows[a] == rows[b] ==> a == b
  }

  lemma ApplyKeepsInjective(rows: Rows, e: Edit)
    requires Injective(rows)
    ensures Injective(Apply(rows, e))
  {
    if e.Seed? {
      var more := SeedRows(e.testMode, e.byPrice, e.known);
      assert forall s :: s in more ==> s.testMode == e.testMode;
    }
  }

  /** Any edits in any order, each checked against however old a view, keep the mapping injective. */
  lemma {:induction false} EditsKeepInjective(rows: Rows, edits: seq<Edit>)
    requires Injective(rows)
    ensures Injective(ApplyAll(rows, edits))
    decreases |edits|
  {
    if edits != [] {
      ApplyKeepsInjective(rows, edits[0]);
      EditsKeepInjective(Apply(rows, edits[0]), edits[1..]);
    }
  }

  // ---------------------------------------------------------------- confirming suggestions

  /** One mode's rows as a fresh load reads them. */
  function View(rows: Rows, testMode: bool): map<PriceId, VariantId> {
    map s | s in rows && s.testMode == testMode :: s.price := rows[s]
  }

  predicate Trimmed(s: string) {
    s != "" && Trim(s) == s
  }

  /** Confirms each suggestion in turn, reloading before each. */
  function ConfirmAll(rows: Rows, st: Snapshot, todo: seq<Suggestion>, reason: string): Result<Rows, SetError>
    decreases |todo|
  {
    if todo == [] then Ok(rows)
    else
      match Saved(rows, st.(rows := View(rows, st.testMode)), todo[0].price, todo[0].variant, reason)
      case Err(e) => Err(e)
      case Ok(after) => ConfirmAll(after, st, todo[1..], reason)
  }

  /** Each suggestion's price is sellable, and its variant is in the catalog and passes the check for it. */
  ghost predicate Sound(st: Snapshot, sg: Suggestion) {
    && Trimmed(sg.price) && Trimmed(sg.variant) && sg.price in st.sellable && st.catalog.Ok?
    && FindPrice(st.prices, sg.price).Some? && FindVariant(st.catalog.value.variants, sg.variant).Some?
    && var p := FindPrice(st.prices, sg.price).value;
       CheckMapping(p, FindVariant(st.catalog.value.variants, sg.variant).value, st.catalog.value.currency, st.testMode,
                    p.tierId == st.freeTier).None?
  }

  lemma {:induction false} FindPriceAt(prices: seq<Price>, i: nat)
    requires i < |prices| && forall a, b :: 0 <= a < b < |prices| ==> prices[a].id != prices[b].id
    ensures FindPrice(prices, prices[i].id) == Some(prices[i])
    decreases |prices|
  {
    if i > 0 { FindPriceAt(prices[1..], i - 1); }
  }

  lemma {:induction false} FindVariantAt(variants: seq<Variant>, i: nat)
    requires i < |variants| && forall a, b :: 0 <= a < b < |variants| ==> variants[a].id != variants[b].id
    ensures FindVariant(variants, variants[i].id) == Some(variants[i])
    decreases |variants|
  {
    if i > 0 { FindVariantAt(variants[1..], i - 1); }
  }

  ghost predicate DistinctVariants(st: Snapshot) {
    st.catalog.Ok? && forall a, b :: 0 <= a < b < |st.catalog.value.variants| ==>
      st.catalog.value.variants[a].id != st.catalog.value.variants[b].id
  }

  lemma ProposedIsSound(st: Snapshot, p: Pick)
    requires WellFormed(st) && DistinctVariants(st) && Proposed(st, p)
    requires Trimmed(st.prices[p.price].id) && Trimmed(VariantOf(st, p))
    ensures Sound(st, SuggestionOf(st, p)) && SuggestionOf(st, p).price !in st.rows
            && SuggestionOf(st, p).variant !in st.rows.Values
  {
    FindPriceAt(st.prices, p.price);
    FindVariantAt(st.catalog.value.variants, p.variant);
    assert st.prices[p.price] in st.prices;
  }

  function Mapped(todo: seq<Suggestion>, testMode: bool): Rows
    decreases |todo|
  {
    if todo == [] then map[] else Mapped(todo[1..], testMode)[Slot(todo[0].price, testMode) := todo[0].variant]
  }

  /** Suggestions that are sound, apart, and free in the table can all be confirmed, in the order given. */
  ghost predicate Confirmable(rows: Rows, st: Snapshot, todo: seq<Suggestion>) {
    && (forall k :: 0 <= k < |todo| ==> Sound(st, todo[k]) && Slot(todo[k].price, st.testMode) !in rows
                                        && todo[k].variant !in View(rows, st.testMode).Values)
    && (forall a, b :: 0 <= a < b < |todo| ==> todo[a].price != todo[b].price && todo[a].variant != todo[b].variant)
  }

  lemma ViewAfter(rows: Rows, slot: Slot, v: VariantId, w: VariantId)
    requires w != v && w !in View(rows, slot.testMode).Values
    ensures w !in View(rows[slot := v], slot.testMode).Values
  {
    var after := rows[slot := v];
    forall p | p in View(after, slot.testMode) ensures View(after, slot.testMode)[p] != w {
      var s := Slot(p, slot.testMode);
      assert s in after;
      if s != slot { assert p in View(rows, slot.testMode) && View(rows, slot.testMode)[p] == after[s]; }
    }
  }

  lemma FreeIsNotTaken(rows: Rows, slot: Slot, v: VariantId)
    requires v !in View(rows, slot.testMode).Values
    ensures !VariantTaken(rows, slot, v)
  {
    forall other | other in rows && other.testMode == slot.testMode ensures rows[other] != v {
      assert other.price in View(rows, slot.testMode) && View(rows, slot.testMode)[other.price] == rows[other];
    }
  }

  lemma ConfirmSaves(rows: Rows, st: Snapshot, sg: Suggestion, reason: string)
    requires Sound(st, sg) && Trim(reason) != "" && sg.variant !in View(rows, st.testMode).Values
    ensures Saved(rows, st.(rows := View(rows, st.testMode)), sg.price, sg.variant, reason)
            == Ok(rows[Slot(sg.price, st.testMode) := sg.variant])
  {
    FreeIsNotTaken(rows, Slot(sg.price, st.testMode), sg.variant);
  }

  lemma ConfirmOne(rows: Rows, st: Snapshot, todo: seq<Suggestion>)
    requires Confirmable(rows, st, todo) && todo != []
    ensures Confirmable(rows[Slot(todo[0].price, st.testMode) := todo[0].variant], st, todo[1..])
  {
    hide Sound;
    hide View;
    var slot, v := Slot(todo[0].price, st.testMode), todo[0].variant;
    var rest := todo[1..];
    forall k | 0 <= k < |rest| ensures rest[k].variant !in View(rows[slot := v], st.testMode).Values {
      assert rest[k] == todo[k + 1];
      ViewAfter(rows, slot, v, rest[k].variant);
    }
  }

  lemma PutFirst(rows: Rows, slot: Slot, v: VariantId, more: Rows)
    requires slot !in more
    ensures rows[slot := v] + more == rows + more[slot := v]
  {
  }

  lemma {:induction false} ConfirmInOrder(rows: Rows, st: Snapshot, todo: seq<Suggestion>, reason: string)
    requires Confirmable(rows, st, todo) && Trim(reason) != ""
    ensures ConfirmAll(rows, st, todo, reason) == Ok(rows + Mapped(todo, st.testMode))
    ensures Mapped(todo, st.testMode).Keys !! rows.Keys
    decreases |todo|
  {
    if todo == [] {
      assert rows + map[] == rows;
    } else {
      var slot := Slot(todo[0].price, st.testMode);
      var after := rows[slot := todo[0].variant];
      assert Sound(st, todo[0]) && slot !in rows && todo[0].variant !in View(rows, st.testMode).Values;
      ConfirmOne(rows, st, todo);
      ConfirmSaves(rows, st, todo[0], reason);
      hide Confirmable;
      hide Saved;
      hide Sound;
      ConfirmInOrder(after, st, todo[1..], reason);
      PutFirst(rows, slot, todo[0].variant, Mapped(todo[1..], st.testMode));
    }
  }

  lemma {:induction false} MappedHas(todo: seq<Suggestion>, testMode: bool, k: nat)
    requires k < |todo| && forall a, b :: 0 <= a < b < |todo| ==> todo[a].price != todo[b].price
    ensures Slot(todo[k].price, testMode) in Mapped(todo, testMode)
    ensures Mapped(todo, testMode)[Slot(todo[k].price, testMode)] == todo[k].variant
    decreases |todo|
  {
    if k > 0 { MappedHas(todo[1..], testMode, k - 1); }
  }

  /** order lists the same suggestions, once each. */
  ghost predicate Reorders(order: seq<Suggestion>, out: seq<Suggestion>) {
    && (forall sg :: sg in order <==> sg in out)
    && (forall a, b :: 0 <= a < b < |order| ==> order[a] != order[b])
  }

  lemma ReorderedApart(order: seq<Suggestion>, out: seq<Suggestion>, st: Snapshot)
    requires Reorders(order, out) && Suggests(st, out)
    ensures forall a, b :: 0 <= a < b < |order| ==>
            order[a].price != order[b].price && order[a].variant != order[b].variant
  {
    hide Proposed;
    forall a, b | 0 <= a < b < |order|
      ensures order[a].price != order[b].price && order[a].variant != order[b].variant {
      assert order[a] in out && order[b] in out;
      var i :| 0 <= i < |out| && out[i] == order[a];
      var j :| 0 <= j < |out| && out[j] == order[b];
      assert i < j || j < i;
    }
  }

  ghost predicate TrimmedIds(st: Snapshot) {
    && (forall p: Price :: p in st.prices ==> Trimmed(p.id))
    && (st.catalog.Ok? ==> forall v: Variant :: v in st.catalog.value.variants ==> Trimmed(v.id))
  }

  lemma SuggestedIsSound(st: Snapshot, out: seq<Suggestion>, sg: Suggestion)
    requires WellFormed(st) && DistinctVariants(st) && TrimmedIds(st) && Suggests(st, out) && sg in out
    ensures Sound(st, sg) && sg.price !in st.rows && sg.variant !in st.rows.Values
  {
    var p :| Proposed(st, p) && SuggestionOf(st, p) == sg;
    assert st.prices[p.price] in st.prices && st.catalog.value.variants[p.variant] in st.catalog.value.variants;
    ProposedIsSound(st, p);
  }

  lemma UnmappedSlot(rows: Rows, slot: Slot)
    requires slot.price !in View(rows, slot.testMode)
    ensures slot !in rows
  {
  }

  /**
   The suggestions of one call can be confirmed all of them, in any order: none refuses another, and the
   table grows by exactly those pairs.
   */
  lemma SuggestionsConfirm(rows: Rows, st: Snapshot, out: seq<Suggestion>, order: seq<Suggestion>, reason: string)
    requires WellFormed(st) && DistinctVariants(st) && TrimmedIds(st)
    requires st.rows == View(rows, st.testMode) && Suggests(st, out)
    requires Reorders(order, out) && Trim(reason) != ""
    ensures ConfirmAll(rows, st, order, reason) == Ok(rows + Mapped(order, st.testMode))
    ensures Mapped(order, st.testMode).Keys !! rows.Keys
    ensures forall sg :: sg in out ==> Slot(sg.price, st.testMode) in Mapped(order, st.testMode)
                                       && Mapped(order, st.testMode)[Slot(sg.price, st.testMode)] == sg.variant
  {
    ReorderedApart(order, out, st);
    hide Suggests;
    hide View;
    hide Sound;
    forall k | 0 <= k < |order|
      ensures Sound(st, order[k]) && Slot(order[k].price, st.testMode) !in rows
              && order[k].variant !in View(rows, st.testMode).Values
    {
      assert order[k] in out;
      SuggestedIsSound(st, out, order[k]);
      UnmappedSlot(rows, Slot(order[k].price, st.testMode));
    }
    ConfirmInOrder(rows, st, order, reason);
    forall sg | sg in out ensures Slot(sg.price, st.testMode) in Mapped(order, st.testMode)
                                  && Mapped(order, st.testMode)[Slot(sg.price, st.testMode)] == sg.variant {
      var k :| 0 <= k < |order| && order[k] == sg;
      MappedHas(order, st.testMode, k);
    }
  }

  // ---------------------------------------------------------------- the map both ways

  datatype VariantMap = VariantMap(byPrice: map<PriceId, VariantId>, byVariant: map<VariantId, PriceId>)

  datatype MapError = EmptyId | MappedTwice(variant: VariantId)

  /** One entry as read, with both ids trimmed. */
  datatype Entry<P, V> = Entry(price: P, variant: V)

  function Entries(raw: map<string, string>): map<string, Entry<PriceId, VariantId>> {
    map p | p in raw :: Entry(Trim(p), Trim(raw[p]))
  }

  /** No two entries read so far name the same variant. */
  ghost predicate VariantsApart<K, P, V>(raw: map<K, Entry<P, V>>, done: set<K>) {
    forall p, q :: p in done && q in done && p in raw && q in raw && p != q ==> raw[p].variant != raw[q].variant
  }

  ghost predicate PricesApart<K, P, V>(raw: map<K, Entry<P, V>>) {
    forall p, q :: p in raw && q in raw && p != q ==> raw[p].price != raw[q].price
  }

  /** byVariant holds exactly the entries of done. */
  ghost predicate VariantsBuilt<K, P, V>(raw: map<K, Entry<P, V>>, done: set<K>, byVariant: map<V, P>) {
    && (forall p :: p in done && p in raw ==> raw[p].variant in byVariant && byVariant[raw[p].variant] == raw[p].price)
    && (forall v :: v in byVariant ==> exists p :: p in done && p in raw && raw[p] == Entry(byVariant[v], v))
  }

  /** So does byPrice, except that of several entries with one price it keeps one, no matter which. */
  ghost predicate PricesBuilt<K, P, V>(raw: map<K, Entry<P, V>>, done: set<K>, byPrice: map<P, V>) {
    && (forall p :: p in done && p in raw ==> raw[p].price in byPrice)
    && (forall k :: k in byPrice ==> exists p :: p in done && p in raw && raw[p] == Entry(k, byPrice[k]))
  }

  lemma BuildVariant<K, P, V>(raw: map<K, Entry<P, V>>, done: set<K>, byVariant: map<V, P>, p: K)
    requires VariantsBuilt(raw, done, byVariant) && VariantsApart(raw, done) && p in raw && raw[p].variant !in byVariant
    ensures VariantsBuilt(raw, done + {p}, byVariant[raw[p].variant := raw[p].price])
    ensures VariantsApart(raw, done + {p})
  {
  }

  lemma BuildPrice<K, P, V>(raw: map<K, Entry<P, V>>, done: set<K>, byPrice: map<P, V>, p: K)
    requires PricesBuilt(raw, done, byPrice) && p in raw
    ensures PricesBuilt(raw, done + {p}, byPrice[raw[p].price := raw[p].variant])
  {
  }

  lemma Repeated<K, P, V>(raw: map<K, Entry<P, V>>, done: set<K>, byVariant: map<V, P>, p: K)
    requires VariantsBuilt(raw, done, byVariant) && p in raw && p !in done && raw[p].variant in byVariant
    ensures !VariantsApart(raw, raw.Keys)
  {
  }

  lemma BuiltNone<K, P, V>(raw: map<K, Entry<P, V>>)
    ensures VariantsBuilt(raw, {}, map[]) && PricesBuilt(raw, {}, map[]) && VariantsApart(raw, {})
  {
  }

  lemma TwiceTrimmed(raw: map<string, string>)
    requires !VariantsApart(Entries(raw), raw.Keys)
    ensures exists p, q :: p in raw && q in raw && p != q && Trim(raw[p]) == Trim(raw[q])
  {
    hide Trim;
  }

  lemma AllBuilt(raw: map<string, string>, m: VariantMap)
    requires VariantsBuilt(Entries(raw), raw.Keys, m.byVariant) && PricesBuilt(Entries(raw), raw.Keys, m.byPrice)
    ensures forall p :: p in raw ==>
              && Trim(raw[p]) in m.byVariant && m.byVariant[Trim(raw[p])] == Trim(p)
              && Trim(p) in m.byPrice
  {
    hide Trim;
    forall p | p in raw ensures p in Entries(raw) && Entries(raw)[p] == Entry(Trim(p), Trim(raw[p])) {}
  }

  /** Reads the entries in whatever order the runtime's map yields them. */
  method NewVariantMap(raw: map<string, string>) returns (r: Result<VariantMap, MapError>)
    ensures r.Ok? <==> VariantsApart(Entries(raw), raw.Keys) && forall p :: p in raw ==> !Blank(p) && !Blank(raw[p])
    ensures r.Ok? ==>
              && VariantsBuilt(Entries(raw), raw.Keys, r.value.byVariant)
              && PricesBuilt(Entries(raw), raw.Keys, r.value.byPrice)
    ensures r.Ok? ==> forall p :: p in raw ==>
              && Trim(raw[p]) in r.value.byVariant && r.value.byVariant[Trim(raw[p])] == Trim(p)
              && Trim(p) in r.value.byPrice
    ensures r.Err? ==>
              || (exists p :: p in raw && (Blank(p) || Blank(raw[p])))
              || (exists p, q :: p in raw && q in raw && p != q && Trim(raw[p]) == Trim(raw[q]))
  {
    hide VariantsBuilt;
    hide PricesBuilt;
    hide VariantsApart;
    hide Trim;
    hide Blank;
    var m := VariantMap(map[], map[]);
    var todo := raw.Keys;
    ghost var done: set<string> := {};
    ghost var entries := Entries(raw);
    BuiltNone(entries);
    while todo != {}
      invariant done !! todo && done + todo == raw.Keys && entries.Keys == raw.Keys
      invariant VariantsBuilt(entries, done, m.byVariant) && PricesBuilt(entries, done, m.byPrice)
                && VariantsApart(entries, done)
      invariant forall p :: p in done ==> !Blank(p) && !Blank(raw[p])
      decreases todo
    {
      var p :| p in todo;
      TrimBlank(p);
      TrimBlank(raw[p]);
      var price, variant := Trim(p), Trim(raw[p]);
      assert entries[p] == Entry(price, variant);
      if price == "" || variant == "" { return Err(EmptyId); }
      if variant in m.byVariant {
        Repeated(entries, done, m.byVariant, p);
        TwiceTrimmed(raw);
        return Err(MappedTwice(variant));
      }
      BuildVariant(entries, done, m.byVariant, p);
      BuildPrice(entries, done, m.byPrice, p);
      m := VariantMap(m.byPrice[price := variant], m.byVariant[variant := price]);
      done, todo := done + {p}, todo - {p};
    }
    assert done == raw.Keys;
    AllBuilt(raw, m);
    return Ok(m);
  }

  ghost predicate BothWays<P, V>(byPrice: map<P, V>, byVariant: map<V, P>) {
    && (forall k :: k in byPrice ==> byPrice[k] in byVariant && byVariant[byPrice[k]] == k)
    && (forall v :: v in byVariant ==> byVariant[v] in byPrice && byPrice[byVariant[v]] == v)
  }

  /**
   The two directions invert each other exactly when no two given price ids trim to the same one: the check
   covers repeated variants only.
   */
  lemma BothWaysIff<K, P, V>(raw: map<K, Entry<P, V>>, byPrice: map<P, V>, byVariant: map<V, P>)
    requires VariantsApart(raw, raw.Keys) && VariantsBuilt(raw, raw.Keys, byVariant)
             && PricesBuilt(raw, raw.Keys, byPrice)
    ensures BothWays(byPrice, byVariant) <==> PricesApart(raw)
  {
    if PricesApart(raw) {
      forall v | v in byVariant ensures byVariant[v] in byPrice && byPrice[byVariant[v]] == v {
        var p :| p in raw && raw[p] == Entry(byVariant[v], v);
        var q :| q in raw && raw[q] == Entry(byVariant[v], byPrice[byVariant[v]]);
      }
    }
  }
}
