/** Which provider variant sells each price row: checks, suggestions, saves, and the mapping they keep injective. */
module Variants {
  import opened Common
  import opened Text

  type PriceId = string
  type VariantId = string

  datatype Price = Price(id: PriceId, tierId: string, tierName: string, currency: string, interval: string,
                         netMinor: int)

  datatype Variant = Variant(id: VariantId, priceMinor: int, interval: string, intervalCount: int, hasFreeTrial: bool,
                             trialInterval: string, trialCount: int, testMode: bool, productName: string, name: string,
                             status: string)

  datatype Catalog = Catalog(currency: string, variants: seq<Variant>)

  datatype CatalogError = Unreadable | ProviderDown

  datatype Mismatch = VariantMissing | ModeMismatch | IntervalMismatch | CurrencyMismatch | PriceMismatch
                      | TrialMissing | Taken

  /** What one mode's checks read, loaded once and possibly stale by the time of a save. */
  datatype Snapshot = Snapshot(testMode: bool, rows: map<PriceId, VariantId>, prices: seq<Price>,
                               sellable: set<PriceId>, known: set<PriceId>, freeTier: string,
                               catalog: Result<Catalog, CatalogError>)

  /** A table row: the price's variant in a mode. */
  datatype Slot = Slot(price: PriceId, testMode: bool)
  type Rows = map<Slot, VariantId>

  // ---------------------------------------------------------------- the check

  function CheckMapping(p: Price, v: Variant, currency: string, testMode: bool, freeTrialTier: bool): Option<Mismatch> {
    if v.status != "" && v.status != "published" then Some(VariantMissing)
    else if v.testMode != testMode then Some(ModeMismatch)
    else if v.interval != p.interval || v.intervalCount > 1 then Some(IntervalMismatch)
    else if Lower(currency) != Lower(p.currency) then Some(CurrencyMismatch)
    else if v.priceMinor != p.netMinor then Some(PriceMismatch)
    else if freeTrialTier && !(v.hasFreeTrial && v.trialInterval == "month" && v.trialCount == 1)
      then Some(TrialMissing)
    else None
  }

  /** The variant sells the price: it can be bought in the mode and bills the row's amount, currency and interval. */
  predicate Sells(v: Variant, p: Price, currency: string, testMode: bool, freeTrialTier: bool) {
    && (v.status == "" || v.status == "published") && v.testMode == testMode
    && v.interval == p.interval && (v.intervalCount <= 1)
    && Lower(currency) == Lower(p.currency) && v.priceMinor == p.netMinor
    && (freeTrialTier ==> v.hasFreeTrial && v.trialInterval == "month" && v.trialCount == 1)
  }

  /** The check passes exactly the variants that sell the price, and a mismatch names a requirement that fails. */
  lemma CheckIsSells(p: Price, v: Variant, currency: string, testMode: bool, freeTrialTier: bool)
    ensures var found := CheckMapping(p, v, currency, testMode, freeTrialTier);
            && (found.None? <==> Sells(v, p, currency, testMode, freeTrialTier))
            && (found == Some(VariantMissing) ==> v.status != "" && v.status != "published")
            && (found == Some(ModeMismatch) ==> v.testMode != testMode)
            && (found == Some(IntervalMismatch) ==> v.interval != p.interval || v.intervalCount > 1)
            && (found == Some(CurrencyMismatch) ==> Lower(currency) != Lower(p.currency))
            && (found == Some(PriceMismatch) ==> v.priceMinor != p.netMinor)
            && (found == Some(TrialMissing) ==> freeTrialTier)
            && found != Some(Taken)
  {
  }

  /** Two prices the check cannot tell apart: same interval, amount and, case aside, currency. */
  predicate SameTerms(p: Price, q: Price) {
    p.interval == q.interval && p.netMinor == q.netMinor && Lower(p.currency) == Lower(q.currency)
  }

  /** A variant that passes for one price passes for another exactly when the terms agree and no trial is missing. */
  lemma PassesForBothIff(p: Price, q: Price, v: Variant, currency: string, testMode: bool, pFree: bool, qFree: bool)
    requires CheckMapping(p, v, currency, testMode, pFree).None?
    ensures CheckMapping(q, v, currency, testMode, qFree).None? <==>
            SameTerms(p, q) && (qFree ==> v.hasFreeTrial && v.trialInterval == "month" && v.trialCount == 1)
    ensures SameTerms(p, q) && qFree == pFree ==> CheckMapping(q, v, currency, testMode, qFree).None?
  {
    CheckIsSells(p, v, currency, testMode, pFree);
    CheckIsSells(q, v, currency, testMode, qFree);
    hide CheckMapping;
    hide Lower;
  }

  predicate NamesTier(p: Price, v: Variant) {
    p.tierName != "" && Contains(Lower(v.productName), Lower(p.tierName))
  }

  /** A product that names the tier beats any that does not, whatever the variants' own names say. */
  lemma TierNameWins(p: Price, v: Variant, w: Variant)
    requires NamesTier(p, v) && !NamesTier(p, w)
    ensures NameScore(p, v) > NameScore(p, w)
  {
  }

  function NameScore(p: Price, v: Variant): nat {
    var name := Lower(v.name);
    (if p.tierName != "" && Contains(Lower(v.productName), Lower(p.tierName)) then 2 else 0)
    + (if (p.interval == "month" && Contains(name, "month"))
          || (p.interval == "year" && (Contains(name, "year") || Contains(name, "annual"))) then 1 else 0)
  }

  // ---------------------------------------------------------------- suggestions

  datatype Suggestion = Suggestion(price: PriceId, variant: VariantId)

  /** Variant j is free and passes every check for price i. */
  predicate Fits(st: Snapshot, i: nat, j: nat)
    requires st.catalog.Ok? && i < |st.prices| && j < |st.catalog.value.variants|
  {
    var p, v := st.prices[i], st.catalog.value.variants[j];
    v.id !in st.rows.Values && CheckMapping(p, v, st.catalog.value.currency, st.testMode, p.tierId == st.freeTier).None?
  }

  function Score(st: Snapshot, i: nat, j: nat): nat
    requires st.catalog.Ok? && i < |st.prices| && j < |st.catalog.value.variants|
  {
    NameScore(st.prices[i], st.catalog.value.variants[j])
  }

  /** Price i is unmapped and variant j fits it better, by names, than every other variant. */
  ghost predicate Best(st: Snapshot, i: nat, j: nat)
    requires st.catalog.Ok?
  {
    && i < |st.prices| && j < |st.catalog.value.variants|
    && st.prices[i].id !in st.rows
    && Fits(st, i, j)
    && forall k: nat :: k < |st.catalog.value.variants| && k != j && Fits(st, i, k) ==>
       Score(st, i, k) < Score(st, i, j)
  }

  ghost predicate WellFormed(st: Snapshot) {
    && (forall a, b :: 0 <= a < b < |st.prices| ==> st.prices[a].id != st.prices[b].id)
    && (forall p :: p in st.prices ==> p.id in st.sellable || p.id in st.rows)
  }

  /** Price at index price, with its best variant at index variant. */
  datatype Pick = Pick(price: nat, variant: nat)

  predicate InRange(st: Snapshot, p: Pick) {
    st.catalog.Ok? && p.price < |st.prices| && p.variant < |st.catalog.value.variants|
  }

  function VariantOf(st: Snapshot, p: Pick): VariantId
    requires InRange(st, p)
  {
    st.catalog.value.variants[p.variant].id
  }

  function SuggestionOf(st: Snapshot, p: Pick): Suggestion
    requires InRange(st, p)
  {
    Suggestion(st.prices[p.price].id, VariantOf(st, p))
  }

  ghost predicate BestPick(st: Snapshot, p: Pick) {
    InRange(st, p) && Best(st, p.price, p.variant)
  }

  /** The price's best variant, which is no other unmapped price's. */
  ghost predicate Proposed(st: Snapshot, p: Pick) {
    && BestPick(st, p)
    && forall q :: BestPick(st, q) && q.price != p.price ==> VariantOf(st, q) != VariantOf(st, p)
  }

  lemma BestIsUnique(st: Snapshot, p: Pick, q: Pick)
    requires BestPick(st, p) && BestPick(st, q) && p.price == q.price
    ensures p == q
  {
  }

  /** at leads price i's fits below n with its score, alone unless tie; a score of -1 means nothing fits yet. */
  ghost predicate Leading(st: Snapshot, i: nat, n: nat, at: nat, score: int, tie: bool)
    requires st.catalog.Ok? && i < |st.prices| && n <= |st.catalog.value.variants|
  {
    && (score == -1 || (at < n && Fits(st, i, at) && score == Score(st, i, at)))
    && (forall k: nat :: k < n && Fits(st, i, k) ==> Score(st, i, k) <= score)
    && (tie <==> score >= 0 && exists k: nat :: k < n && k != at && Fits(st, i, k) && Score(st, i, k) == score)
  }

  lemma LeadNext(st: Snapshot, i: nat, n: nat, at: nat, score: int, tie: bool)
    requires st.catalog.Ok? && i < |st.prices| && n < |st.catalog.value.variants| && Leading(st, i, n, at, score, tie)
    ensures !Fits(st, i, n) ==> Leading(st, i, n + 1, at, score, tie)
    ensures Fits(st, i, n) && Score(st, i, n) > score ==> Leading(st, i, n + 1, n, Score(st, i, n), false)
    ensures Fits(st, i, n) && Score(st, i, n) == score ==> Leading(st, i, n + 1, at, score, true)
    ensures Fits(st, i, n) && Score(st, i, n) < score ==> Leading(st, i, n + 1, at, score, tie)
  {
    hide Fits;
    hide Score;
  }

  lemma LeadDone(st: Snapshot, i: nat, at: nat, score: int, tie: bool)
    requires st.catalog.Ok? && i < |st.prices| && st.prices[i].id !in st.rows
    requires Leading(st, i, |st.catalog.value.variants|, at, score, tie)
    ensures if score < 0 || tie then forall p: Pick :: p.price == i ==> !BestPick(st, p) else BestPick(st, Pick(i, at))
  {
    hide Fits;
    hide Score;
    forall p: Pick | p.price == i && BestPick(st, p) ensures p.variant == at && score >= 0 && !tie {}
  }

  /** The inner loop: the best variant for price i, or none when nothing fits or the best tie. */
  method BestVariant(st: Snapshot, i: nat) returns (best: Option<nat>)
    requires st.catalog.Ok? && i < |st.prices| && st.prices[i].id !in st.rows
    ensures best.Some? ==> BestPick(st, Pick(i, best.value))
    ensures best.None? ==> forall p: Pick :: p.price == i ==> !BestPick(st, p)
  {
    var at: nat, bestScore: int, tie := 0, -1, false;
    for j := 0 to |st.catalog.value.variants|
      invariant Leading(st, i, j, at, bestScore, tie)
    {
      LeadNext(st, i, j, at, bestScore, tie);
      hide *;
      if Fits(st, i, j) {
        var score := Score(st, i, j);
        if score > bestScore {
          at, bestScore, tie := j, score, false;
        } else if score == bestScore {
          tie := true;
        }
      }
    }
    LeadDone(st, i, at, bestScore, tie);
    return if bestScore < 0 || tie then None else Some(at);
  }

  /** How often the variant is the best of some price found so far. */
  function Uses(found: seq<Pick>, st: Snapshot, v: VariantId): nat
    requires forall k :: 0 <= k < |found| ==> InRange(st, found[k])
  {
    if found == [] then 0
    else Uses(found[..|found| - 1], st, v) + if VariantOf(st, found[|found| - 1]) == v then 1 else 0
  }

  lemma {:induction false} UsesNone(found: seq<Pick>, st: Snapshot, v: VariantId)
    requires forall k :: 0 <= k < |found| ==> InRange(st, found[k])
    ensures Uses(found, st, v) == 0 <==> forall m :: 0 <= m < |found| ==> VariantOf(st, found[m]) != v
    decreases |found|
  {
    if found != [] {
      UsesNone(found[..|found| - 1], st, v);
      assert forall m :: 0 <= m < |found| - 1 ==> found[..|found| - 1][m] == found[m];
    }
  }

  lemma {:induction false} UsesOf(found: seq<Pick>, st: Snapshot, k: nat)
    requires (forall m :: 0 <= m < |found| ==> InRange(st, found[m])) && k < |found|
    ensures var v := VariantOf(st, found[k]);
            && Uses(found, st, v) >= 1
            && (Uses(found, st, v) > 1 <==> exists m :: 0 <= m < |found| && m != k && VariantOf(st, found[m]) == v)
    decreases |found|
  {
    var v := VariantOf(st, found[k]);
    var init := found[..|found| - 1];
    assert forall m :: 0 <= m < |init| ==> init[m] == found[m];
    if k == |found| - 1 {
      UsesNone(init, st, v);
    } else {
      UsesOf(init, st, k);
    }
  }

  /** found lists every price below n that has a best variant, in order, with that variant. */
  ghost predicate FoundBelow(found: seq<Pick>, st: Snapshot, n: nat) {
    && (forall k :: 0 <= k < |found| ==> found[k].price < n && BestPick(st, found[k]))
    && (forall a, b :: 0 <= a < b < |found| ==> found[a].price < found[b].price)
    && (forall p: Pick :: p.price < n && BestPick(st, p) ==> p in found)
  }

  lemma FindNext(found: seq<Pick>, st: Snapshot, n: nat, best: Option<nat>)
    requires n < |st.prices| && FoundBelow(found, st, n)
    requires best.Some? ==> BestPick(st, Pick(n, best.value))
    requires best.None? ==> forall p: Pick :: p.price == n ==> !BestPick(st, p)
    ensures FoundBelow(if best.Some? then found + [Pick(n, best.value)] else found, st, n + 1)
  {
    hide BestPick;
    var more := if best.Some? then found + [Pick(n, best.value)] else found;
    forall p: Pick | p.price < n + 1 && BestPick(st, p) ensures p in more {
      if p.price == n { BestIsUnique(st, p, Pick(n, best.value)); }
    }
  }

  /** The second pass's test is exactly that no other price is after the variant. */
  lemma UsedOnce(found: seq<Pick>, st: Snapshot, k: nat)
    requires k < |found| && FoundBelow(found, st, |st.prices|)
    ensures forall m :: 0 <= m < |found| ==> InRange(st, found[m])
    ensures 1 <= Uses(found, st, VariantOf(st, found[k]))
    ensures Uses(found, st, VariantOf(st, found[k])) == 1 <==> Proposed(st, found[k])
  {
    hide Best;
    hide VariantOf;
    UsesOf(found, st, k);
    var v := VariantOf(st, found[k]);
    forall q | BestPick(st, q) && q.price != found[k].price && VariantOf(st, q) == v ensures Uses(found, st, v) > 1 {
      var m :| 0 <= m < |found| && found[m] == q;
    }
    if Uses(found, st, v) > 1 {
      var m :| 0 <= m < |found| && m != k && VariantOf(st, found[m]) == v;
      assert found[m].price != found[k].price;
    }
  }

  ghost predicate Counted(uses: map<VariantId, nat>, found: seq<Pick>, st: Snapshot)
  {
    (forall k :: 0 <= k < |found| ==> InRange(st, found[k]))
    && forall v :: (if v in uses then uses[v] else 0) == Uses(found, st, v)
  }

  lemma CountNext(uses: map<VariantId, nat>, found: seq<Pick>, st: Snapshot, p: Pick)
    requires Counted(uses, found, st) && InRange(st, p)
    ensures var v := VariantOf(st, p); Counted(uses[v := (if v in uses then uses[v] else 0) + 1], found + [p], st)
  {
    assert (found + [p])[..|found + [p]| - 1] == found;
  }

  /** out is exactly the proposed pairs, each price and each variant once. */
  ghost predicate Suggests(st: Snapshot, out: seq<Suggestion>) {
    && (forall sg :: sg in out <==> exists p :: Proposed(st, p) && SuggestionOf(st, p) == sg)
    && (forall a, b :: 0 <= a < b < |out| ==> out[a].price != out[b].price && out[a].variant != out[b].variant)
  }

  /**
   Proposes exactly the unmapped prices that have one best free variant nobody else is after, each once and
   no variant twice.
   */
  method SuggestVariantMappings(st: Snapshot) returns (r: Result<seq<Suggestion>, CatalogError>)
    requires WellFormed(st)
    ensures r.Err? <==> st.catalog.Err?
    ensures r.Err? ==> r.error == st.catalog.error
    ensures r.Ok? ==> Suggests(st, r.value)
  {
    if st.catalog.Err? { return Err(st.catalog.error); }
    var found, uses := FindBest(st);
    var out := KeepUsedOnce(st, found, uses);
    return Ok(out);
  }

  method FindBest(st: Snapshot) returns (found: seq<Pick>, uses: map<VariantId, nat>)
    requires st.catalog.Ok?
    ensures FoundBelow(found, st, |st.prices|) && Counted(uses, found, st)
  {
    FoundNone(st);
    hide *;
    found, uses := [], map[];
    for i := 0 to |st.prices|
      invariant FoundBelow(found, st, i) && Counted(uses, found, st)
    {
      if st.prices[i].id in st.rows {
        MappedHasNoBest(st, i);
        FindNext(found, st, i, None);
      } else {
        var best := BestVariant(st, i);
        FindNext(found, st, i, best);
        if best.Some? {
          var p := Pick(i, best.value);
          PickInRange(st, p);
          CountNext(uses, found, st, p);
          var v := VariantOf(st, p);
          uses := uses[v := (if v in uses then uses[v] else 0) + 1];
          found := found + [p];
        }
      }
    }
  }

  lemma FoundNone(st: Snapshot)
    ensures FoundBelow([], st, 0) && Counted(map[], [], st)
  {
  }

  lemma PickInRange(st: Snapshot, p: Pick)
    requires BestPick(st, p)
    ensures InRange(st, p)
  {
  }

  lemma MappedHasNoBest(st: Snapshot, i: nat)
    requires i < |st.prices| && st.prices[i].id in st.rows
    ensures forall p: Pick :: p.price == i ==> !BestPick(st, p)
  {
  }

  /** out is the suggestions of the picks among found[..k] that are proposed. */
  ghost predicate KeptBelow(st: Snapshot, found: seq<Pick>, k: nat, kept: seq<Pick>, out: seq<Suggestion>)
    requires k <= |found|
  {
    && |kept| == |out|
    && (forall m :: 0 <= m < |kept| ==> Proposed(st, kept[m]) && out[m] == SuggestionOf(st, kept[m]))
    && (forall m, j :: 0 <= m < |kept| && k <= j < |found| ==> kept[m].price < found[j].price)
    && (forall a, b :: 0 <= a < b < |kept| ==> kept[a].price < kept[b].price)
    && (forall m :: 0 <= m < k && Proposed(st, found[m]) ==> found[m] in kept)
  }

  lemma KeepNext(st: Snapshot, found: seq<Pick>, k: nat, kept: seq<Pick>, out: seq<Suggestion>)
    requires k < |found| && FoundBelow(found, st, |st.prices|) && KeptBelow(st, found, k, kept, out)
    ensures Proposed(st, found[k]) ==>
            KeptBelow(st, found, k + 1, kept + [found[k]], out + [SuggestionOf(st, found[k])])
    ensures !Proposed(st, found[k]) ==> KeptBelow(st, found, k + 1, kept, out)
  {
    hide Proposed;
    hide BestPick;
  }

  lemma KeptAll(st: Snapshot, found: seq<Pick>, kept: seq<Pick>, out: seq<Suggestion>)
    requires WellFormed(st) && FoundBelow(found, st, |st.prices|) && KeptBelow(st, found, |found|, kept, out)
    ensures Suggests(st, out)
  {
    hide Best;
    forall p | Proposed(st, p) ensures SuggestionOf(st, p) in out {
      var m :| 0 <= m < |found| && found[m] == p;
      var a :| 0 <= a < |kept| && kept[a] == p;
      assert out[a] == SuggestionOf(st, p);
    }
    forall a, b | 0 <= a < b < |out| ensures out[a].price != out[b].price && out[a].variant != out[b].variant {
      assert Proposed(st, kept[a]) && Proposed(st, kept[b]) && kept[a].price < kept[b].price;
    }
  }

  method KeepUsedOnce(st: Snapshot, found: seq<Pick>, uses: map<VariantId, nat>) returns (out: seq<Suggestion>)
    requires WellFormed(st) && FoundBelow(found, st, |st.prices|) && Counted(uses, found, st)
    ensures Suggests(st, out)
  {
    out := [];
    ghost var kept: seq<Pick> := [];
    for k := 0 to |found|
      invariant KeptBelow(st, found, k, kept, out)
    {
      UsedOnce(found, st, k);
      KeepNext(st, found, k, kept, out);
      hide KeptBelow;
      hide FoundBelow;
      hide Proposed;
      if uses[VariantOf(st, found[k])] <= 1 {
        out := out + [SuggestionOf(st, found[k])];
        kept := kept + [found[k]];
      }
    }
    KeptAll(st, found, kept, out);
  }

  /** A price that exactly one free variant matches: what the service contract promises to propose. */
  ghost predicate OnlyMatch(st: Snapshot, p: Pick) {
    && InRange(st, p) && st.prices[p.price].id !in st.rows && Fits(st, p.price, p.variant)
    && forall k: nat :: k < |st.catalog.value.variants| && k != p.variant ==> !Fits(st, p.price, k)
  }

  /** The matches of a price that others match too, but that the names tell apart. */
  ghost predicate Narrowed(st: Snapshot, p: Pick) {
    BestPick(st, p) && !OnlyMatch(st, p)
  }

  ghost predicate Wanted(st: Snapshot, p: Pick)
    requires InRange(st, p)
  {
    exists q :: BestPick(st, q) && q.price != p.price && VariantOf(st, q) == VariantOf(st, p)
  }

  /**
   Where the code and its contract part: a price with several matches is proposed too when the names single
   one out, and a sole match is not proposed when it is also another price's best.
   */
  lemma ProposedVersusContract(st: Snapshot, p: Pick)
    requires InRange(st, p)
    ensures Proposed(st, p) <==> (OnlyMatch(st, p) || Narrowed(st, p)) && !Wanted(st, p)
    ensures (Proposed(st, p) <==> OnlyMatch(st, p)) <==>
            !(Narrowed(st, p) && !Wanted(st, p)) && !(OnlyMatch(st, p) && Wanted(st, p))
  {
    assert OnlyMatch(st, p) ==> BestPick(st, p);
    hide Best;
    hide Fits;
  }

  // ---------------------------------------------------------------- which names count

  /** The variant's name says the price's interval: "month", or "year" or "annual", whatever the case. */
  predicate NamesInterval(p: Price, v: Variant) {
    || (p.interval == "month" && Contains(Lower(v.name), "month"))
    || (p.interval == "year" && (Contains(Lower(v.name), "year") || Contains(Lower(v.name), "annual")))
  }

  /** v is to be preferred to w: the product names the tier, or they agree on that and the name says the interval. */
  predicate Preferred(p: Price, v: Variant, w: Variant) {
    || (NamesTier(p, v) && !NamesTier(p, w))
    || ((NamesTier(p, v) <==> NamesTier(p, w)) && NamesInterval(p, v) && !NamesInterval(p, w))
  }

  lemma ScoreIsPreference(p: Price, v: Variant, w: Variant)
    ensures NameScore(p, v) > NameScore(p, w) <==> Preferred(p, v, w)
  {
    hide Lower;
    hide Contains;
  }

  /** A variant fits a price when no price of the mode has it and it sells this one. */
  lemma FitsIff(st: Snapshot, i: nat, j: nat)
    requires st.catalog.Ok? && i < |st.prices| && j < |st.catalog.value.variants|
    ensures var p, v := st.prices[i], st.catalog.value.variants[j];
            Fits(st, i, j) <==>
            && (forall other :: other in st.rows ==> st.rows[other] != v.id)
            && Sells(v, p, st.catalog.value.currency, st.testMode, p.tierId == st.freeTier)
  {
    var p, v := st.prices[i], st.catalog.value.variants[j];
    CheckIsSells(p, v, st.catalog.value.currency, st.testMode, p.tierId == st.freeTier);
    hide CheckMapping;
    hide Sells;
  }

  /** The pick is of an unmapped price and a variant that fits it and is preferred to every other that fits. */
  ghost predicate Stands(st: Snapshot, p: Pick) {
    && InRange(st, p) && st.prices[p.price].id !in st.rows && Fits(st, p.price, p.variant)
    && forall k: nat :: k < |st.catalog.value.variants| && k != p.variant && Fits(st, p.price, k) ==>
         Preferred(st.prices[p.price], st.catalog.value.variants[p.variant], st.catalog.value.variants[k])
  }

  lemma BestStands(st: Snapshot, p: Pick)
    ensures BestPick(st, p) <==> Stands(st, p)
  {
    hide Fits;
    hide NameScore;
    hide Preferred;
    if InRange(st, p) {
      forall k: nat | k < |st.catalog.value.variants|
        ensures Score(st, p.price, k) < Score(st, p.price, p.variant) <==>
                Preferred(st.prices[p.price], st.catalog.value.variants[p.variant], st.catalog.value.variants[k])
      {
        ScoreIsPreference(st.prices[p.price], st.catalog.value.variants[p.variant], st.catalog.value.variants[k]);
      }
    }
  }

  /** In terms of names alone: proposed is what stands for its price, of a variant that stands for no other. */
  lemma ProposedByNames(st: Snapshot, p: Pick)
    ensures Proposed(st, p) <==>
            && Stands(st, p)
            && forall q :: Stands(st, q) && q.price != p.price ==> VariantOf(st, q) != VariantOf(st, p)
  {
    hide Best;
    hide Preferred;
    hide Fits;
    BestStands(st, p);
    forall q ensures BestPick(st, q) <==> Stands(st, q) { BestStands(st, q); }
    hide BestPick;
    hide Stands;
  }

  /**
   Of two variants that fit a price and agree on the tier's name, only one that alone says the interval can be
   proposed, and neither when they agree on that too.
   */
  lemma IntervalDecides(st: Snapshot, i: nat, j: nat, k: nat)
    requires st.catalog.Ok? && i < |st.prices| && j < |st.catalog.value.variants| && k < |st.catalog.value.variants|
    requires j != k && Fits(st, i, j) && Fits(st, i, k)
    requires NamesTier(st.prices[i], st.catalog.value.variants[j]) <==>
             NamesTier(st.prices[i], st.catalog.value.variants[k])
    ensures !NamesInterval(st.prices[i], st.catalog.value.variants[j]) ==> !Proposed(st, Pick(i, j))
    ensures NamesInterval(st.prices[i], st.catalog.value.variants[k]) ==> !Proposed(st, Pick(i, j))
  {
    ProposedByNames(st, Pick(i, j));
    hide NamesInterval;
    hide NamesTier;
    hide Fits;
  }

  /** A monthly price and two variants alike but for their names: the one that says "month" is proposed. */
  lemma MonthIsProposed()
    ensures var month, annual := MonthlyVariant("v", "u").(name := "Month"),
            MonthlyVariant("w", "u").(name := "Annual");
            var st := Stock([MonthlyPrice("p", "t")], [month, annual]);
            Proposed(st, Pick(0, 0)) && !Proposed(st, Pick(0, 1))
  {
    var p := MonthlyPrice("p", "t");
    var v, w := MonthlyVariant("v", "u"), MonthlyVariant("w", "u");
    var month, annual := v.(name := "Month"), w.(name := "Annual");
    var st := Stock([p], [month, annual]);
    assert Lower("Month") == "month" && Lower("Annual") == "annual";
    assert NamesInterval(p, month);
    assert !Contains("annual", "month") by { NoMonth(); }
    assert !NamesInterval(p, annual);
    assert Fits(st, 0, 0) && Fits(st, 0, 1);
    assert Preferred(p, month, annual) && !Preferred(p, annual, month) by { SameProduct(p, month, annual); }
    hide Fits;
    hide Preferred;
    assert Stands(st, Pick(0, 0)) && !Stands(st, Pick(0, 1));
    hide Stands;
    ProposedByNames(st, Pick(0, 0));
    ProposedByNames(st, Pick(0, 1));
    forall q | Stands(st, q) ensures q.price == 0 { StandsInRange(st, q); }
  }

  lemma StandsInRange(st: Snapshot, q: Pick)
    requires Stands(st, q)
    ensures InRange(st, q)
  {
  }

  lemma SameProduct(p: Price, v: Variant, w: Variant)
    requires v.productName == w.productName
    ensures NamesTier(p, v) <==> NamesTier(p, w)
  {
  }

  lemma NoMonth()
    ensures !Contains("annual", "month")
  {
    ContainsAt("annual", "month");
    forall i ensures !StandsAt("annual", "month", i) {
      if 0 <= i <= 1 { assert "annual"[i..i + 5][0] == "annual"[i]; }
    }
  }

  // ---------------------------------------------------------------- both divergences happen

  function MonthlyPrice(id: PriceId, tier: string): Price {
    Price(id, tier, tier, "EUR", "month", 900)
  }

  function MonthlyVariant(id: VariantId, product: string): Variant {
    Variant(id, 900, "month", 1, false, "", 0, false, product, "", "")
  }

  function Stock(prices: seq<Price>, variants: seq<Variant>): Snapshot {
    Snapshot(false, map[], prices, set p | p in prices :: p.id, {}, "none", Ok(Catalog("EUR", variants)))
  }

  lemma MonthlyFits(st: Snapshot, i: nat, j: nat, tier: string, product: string, a: PriceId, b: VariantId)
    requires st.catalog.Ok? && st.catalog.value.currency == "EUR" && !st.testMode && st.freeTier == "none"
             && st.rows == map[]
    requires i < |st.prices| && st.prices[i] == MonthlyPrice(a, tier) && tier != "none"
    requires j < |st.catalog.value.variants| && st.catalog.value.variants[j] == MonthlyVariant(b, product)
    ensures Fits(st, i, j)
    ensures Score(st, i, j) == NameScore(MonthlyPrice(a, tier), MonthlyVariant(b, product))
  {
  }

  lemma OneLetter(a: char, b: char)
    requires !('A' <= a <= 'Z') && !('A' <= b <= 'Z')
    ensures Contains(Lower([a]), Lower([b])) <==> a == b
  {
    assert Lower([a]) == [a] && Lower([b]) == [b];
    assert [a][1..] == [] && !([b] <= []) && !Contains([], [b]);
    assert [b] <= [a] <==> a == b by { assert [b][0] == b && [a][0] == a; }
    assert [a] != [];
    assert Contains([a], [b]) <==> [b] <= [a] || Contains([a][1..], [b]);
  }

  /** Two variants fit one price, and the product's name singles one out: it is proposed though it is no sole match. */
  lemma NarrowedHappens()
    ensures var st := Stock([MonthlyPrice("p", "t")], [MonthlyVariant("v", "t"), MonthlyVariant("w", "u")]);
            WellFormed(st) && Narrowed(st, Pick(0, 0)) && Proposed(st, Pick(0, 0))
  {
    var p, v, w := MonthlyPrice("p", "t"), MonthlyVariant("v", "t"), MonthlyVariant("w", "u");
    var st := Stock([p], [v, w]);
    assert NamesTier(p, v) && !NamesTier(p, w) by { OneLetter('t', 't'); OneLetter('u', 't'); }
    TierNameWins(p, v, w);
    MonthlyFits(st, 0, 0, "t", "t", "p", "v");
    MonthlyFits(st, 0, 1, "t", "u", "p", "w");
    hide Fits;
    hide Score;
    hide NameScore;
    assert Best(st, 0, 0);
    assert st.prices[0] in st.prices;
  }

  /** One variant is the sole match of two prices: neither is proposed. */
  lemma WantedHappens()
    ensures var st := Stock([MonthlyPrice("p", "t"), MonthlyPrice("q", "u")], [MonthlyVariant("v", "t")]);
            && WellFormed(st) && OnlyMatch(st, Pick(0, 0)) && OnlyMatch(st, Pick(1, 0))
            && Wanted(st, Pick(0, 0)) && Wanted(st, Pick(1, 0))
            && !Proposed(st, Pick(0, 0)) && !Proposed(st, Pick(1, 0))
  {
    var st := Stock([MonthlyPrice("p", "t"), MonthlyPrice("q", "u")], [MonthlyVariant("v", "t")]);
    MonthlyFits(st, 0, 0, "t", "t", "p", "v");
    MonthlyFits(st, 1, 0, "u", "t", "q", "v");
    hide Fits;
    hide Score;
    assert BestPick(st, Pick(0, 0)) && BestPick(st, Pick(1, 0));
    assert VariantOf(st, Pick(0, 0)) == VariantOf(st, Pick(1, 0));
    assert st.prices[0] in st.prices && st.prices[1] in st.prices;
  }
}
