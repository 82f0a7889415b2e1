/**
 * The princess card collection: a seeded catalog of cards, buying (marking a
 * card owned), upgrading (level up, yield and price doubled), the hourly
 * totals per currency, and the rarity styling maps.
 *
 * Buying and upgrading are free and never check ownership; they only
 * rewrite the card with the given id.
 */
module Cards {

  datatype Currency = Shrouk | Ton

  datatype PrincessCard = PrincessCard(
    id: string,
    name: string,
    kind: Currency,
    hourlyYield: int,
    price: int,
    level: int,
    owned: bool,
    rarity: string,
    description: string)

  function Card(id: string, name: string, kind: Currency, hourlyYield: int, price: int,
                rarity: string, description: string): PrincessCard
  {
    PrincessCard(id, name, kind, hourlyYield, price, 1, false, rarity, description)
  }

  /** The ids of `cards`, in order. */
  function Ids(cards: seq<PrincessCard>): (ids: seq<string>)
    ensures |ids| == |cards| && forall i :: 0 <= i < |cards| ==> ids[i] == cards[i].id
  {
    seq(|cards|, i requires 0 <= i < |cards| => cards[i].id)
  }

  /** No two cards share an id. */
  predicate DistinctIds(cards: seq<PrincessCard>) {
    forall i, j :: 0 <= i < j < |cards| ==> cards[i].id != cards[j].id
  }

  /** The six cards the collection starts with: all unowned, all at level 1. */
  function SeedCatalog(): (cards: seq<PrincessCard>)
    ensures Ids(cards) == ["1", "2", "3", "4", "5", "6"]
  {
    [ Card("1", "Barbie", Shrouk, 2000, 2000, "common",
           "The iconic fashionista princess who brings style and prosperity"),
      Card("2", "Rapunzel", Shrouk, 10000, 5000, "rare",
           "The tower princess with magical golden hair"),
      Card("3", "Elsa", Shrouk, 20000, 10000, "epic",
           "The ice queen who controls frost and snow magic"),
      Card("4", "Cinderella", Shrouk, 30000, 20000, "epic",
           "The glass slipper princess who transforms dreams into reality"),
      Card("5", "Belle", Shrouk, 60000, 30000, "legendary",
           "The beauty and the beast princess with wisdom and grace"),
      Card("6", "Shrouk", Ton, 200000, 1, "legendary",
           "The ultimate princess of the SHROUK realm") ]
  }

  /** The seeded ids are pairwise distinct. */
  lemma SeedIdsDistinct()
    ensures DistinctIds(SeedCatalog())
  {
    var ids := Ids(SeedCatalog());
    assert ids == ["1", "2", "3", "4", "5", "6"];
  }

  /** Every seeded card starts unowned at level 1. */
  lemma SeedCardsFresh()
    ensures forall c :: c in SeedCatalog() ==> !c.owned && c.level == 1
  {
    var cards := SeedCatalog();
    assert forall i :: 0 <= i < |cards| ==> !cards[i].owned && cards[i].level == 1;
  }

  /** The first five seeded cards pay SHROUK, the sixth pays TON. */
  lemma SeedCardKinds()
    ensures |SeedCatalog()| == 6
    ensures forall i :: 0 <= i < 5 ==> SeedCatalog()[i].kind == Shrouk
    ensures SeedCatalog()[5].kind == Ton
  {
  }

  /** `buyCard`: the card with id `id` becomes owned; every other card stays as it was. */
  function Bought(cards: seq<PrincessCard>, id: string): (r: seq<PrincessCard>)
    ensures |r| == |cards|
    ensures forall i :: 0 <= i < |cards| && cards[i].id == id ==> r[i] == cards[i].(owned := true)
    ensures forall i :: 0 <= i < |cards| && cards[i].id != id ==> r[i] == cards[i]
  {
    seq(|cards|, i requires 0 <= i < |cards| =>
      if cards[i].id == id then cards[i].(owned := true) else cards[i])
  }

  /**
   * `upgradeCard`: the card with id `id` gains a level and its yield and
   * price double; every other card stays as it was. Ownership is not checked.
   */
  function Upgraded(cards: seq<PrincessCard>, id: string): (r: seq<PrincessCard>)
    ensures |r| == |cards|
    ensures forall i :: 0 <= i < |cards| && cards[i].id == id ==>
      r[i] == cards[i].(level := cards[i].level + 1,
                        hourlyYield := cards[i].hourlyYield * 2,
                        price := cards[i].price * 2)
    ensures forall i :: 0 <= i < |cards| && cards[i].id != id ==> r[i] == cards[i]
  {
    seq(|cards|, i requires 0 <= i < |cards| =>
      if cards[i].id == id
      then cards[i].(level := cards[i].level + 1,
                     hourlyYield := cards[i].hourlyYield * 2,
                     price := cards[i].price * 2)
      else cards[i])
  }

  /** Buying works card by card: the first card, then the rest. */
  lemma BoughtCons(cards: seq<PrincessCard>, id: string)
    requires cards != []
    ensures Bought(cards, id) == [Bought(cards, id)[0]] + Bought(cards[1..], id)
  {
    var r, rest := Bought(cards, id), Bought(cards[1..], id);
    assert forall j :: 0 <= j < |rest| ==> rest[j] == r[j + 1];
  }

  /** Buying an id that no card has leaves the list unchanged. */
  lemma BuyUnknownId(cards: seq<PrincessCard>, id: string)
    requires id !in Ids(cards)
    ensures Bought(cards, id) == cards
  {
  }

  /** Buying twice is the same as buying once. */
  lemma BuyIdempotent(cards: seq<PrincessCard>, id: string)
    ensures Bought(Bought(cards, id), id) == Bought(cards, id)
  {
  }

  /** Buying and upgrading keep the ids, currencies and order of the list. */
  lemma BuyAndUpgradeKeepIds(cards: seq<PrincessCard>, id: string)
    ensures Ids(Bought(cards, id)) == Ids(cards)
    ensures Ids(Upgraded(cards, id)) == Ids(cards)
  {
  }

  function Pow2(k: nat): (p: nat)
    ensures p >= 1
  {
    if k == 0 then 1 else 2 * Pow2(k - 1)
  }

  /** Powers of two multiply by adding exponents. */
  lemma {:induction false} Pow2Add(a: nat, b: nat)
    ensures Pow2(a + b) == Pow2(a) * Pow2(b)
  {
    if b > 0 {
      Pow2Add(a, b - 1);
      calc {
        Pow2(a + b);
        2 * Pow2(a + b - 1);
        2 * (Pow2(a) * Pow2(b - 1));
        Pow2(a) * (2 * Pow2(b - 1));
      }
    }
  }

  /** The list after `k` upgrades of the card with id `id`. */
  function UpgradedTimes(cards: seq<PrincessCard>, id: string, k: nat): (r: seq<PrincessCard>)
    ensures |r| == |cards|
  {
    if k == 0 then cards else Upgraded(UpgradedTimes(cards, id, k - 1), id)
  }

  /** Upgrading `a` times and then `b` times is upgrading `a + b` times. */
  lemma {:induction false} UpgradedTimesCompose(cards: seq<PrincessCard>, id: string, a: nat, b: nat)
    ensures UpgradedTimes(UpgradedTimes(cards, id, a), id, b) == UpgradedTimes(cards, id, a + b)
  {
    if b > 0 {
      UpgradedTimesCompose(cards, id, a, b - 1);
    }
  }

  /**
   * After `k` upgrades the card with id `id` is `k` levels higher and its
   * yield and price are multiplied by 2^k; the other cards are untouched.
   */
  lemma {:induction false} UpgradedTimesFormula(cards: seq<PrincessCard>, id: string, k: nat, i: nat)
    requires i < |cards|
    ensures |UpgradedTimes(cards, id, k)| == |cards|
    ensures cards[i].id == id ==>
      UpgradedTimes(cards, id, k)[i]
        == cards[i].(level := cards[i].level + k,
                     hourlyYield := cards[i].hourlyYield * Pow2(k),
                     price := cards[i].price * Pow2(k))
    ensures cards[i].id != id ==> UpgradedTimes(cards, id, k)[i] == cards[i]
  {
    if k > 0 {
      UpgradedTimesFormula(cards, id, k - 1, i);
      var c := cards[i];
      if c.id == id {
        calc {
          c.hourlyYield * Pow2(k - 1) * 2;
          c.hourlyYield * (Pow2(k - 1) * 2);
        }
        calc {
          c.price * Pow2(k - 1) * 2;
          c.price * (Pow2(k - 1) * 2);
        }
      }
    }
  }

  /**
   * Upgrading a card `a` times and then `b` more times multiplies its yield
   * and price by 2^a * 2^b.
   */
  lemma UpgradesMultiply(cards: seq<PrincessCard>, id: string, a: nat, b: nat, i: nat)
    requires i < |cards| && cards[i].id == id
    ensures |UpgradedTimes(UpgradedTimes(cards, id, a), id, b)| == |cards|
    ensures UpgradedTimes(UpgradedTimes(cards, id, a), id, b)[i].hourlyYield
      == cards[i].hourlyYield * (Pow2(a) * Pow2(b))
    ensures UpgradedTimes(UpgradedTimes(cards, id, a), id, b)[i].price
      == cards[i].price * (Pow2(a) * Pow2(b))
  {
    UpgradedTimesCompose(cards, id, a, b);
    UpgradedTimesFormula(cards, id, a + b, i);
    Pow2Add(a, b);
  }

  /**
   * From the seed, `k` upgrades of card `i` give level 1 + k and the seeded
   * yield and price times 2^k.
   */
  lemma SeedUpgradedTimes(i: nat, k: nat)
    requires i < 6
    ensures UpgradedTimes(SeedCatalog(), SeedCatalog()[i].id, k)[i]
      == SeedCatalog()[i].(level := 1 + k,
                           hourlyYield := SeedCatalog()[i].hourlyYield * Pow2(k),
                           price := SeedCatalog()[i].price * Pow2(k))
  {
    SeedCardsFresh();
    UpgradedTimesFormula(SeedCatalog(), SeedCatalog()[i].id, k, i);
  }

  /** The cards that count towards the `kind` hourly total: owned ones paying `kind`. */
  function OwnedOfKind(cards: seq<PrincessCard>, kind: Currency): (r: seq<PrincessCard>)
    ensures |r| <= |cards|
    ensures forall c :: c in r <==> c in cards && c.owned && c.kind == kind
  {
    if cards == [] then []
    else if cards[0].owned && cards[0].kind == kind then [cards[0]] + OwnedOfKind(cards[1..], kind)
    else OwnedOfKind(cards[1..], kind)
  }

  /** The filter keeps order and multiplicity: it distributes over concatenation. */
  lemma {:induction false} OwnedOfKindAppend(a: seq<PrincessCard>, b: seq<PrincessCard>, kind: Currency)
    ensures OwnedOfKind(a + b, kind) == OwnedOfKind(a, kind) + OwnedOfKind(b, kind)
  {
    if a == [] {
      assert a + b == b;
    } else {
      assert (a + b)[1..] == a[1..] + b;
      OwnedOfKindAppend(a[1..], b, kind);
    }
  }

  /** The sum of the cards' yields (the `reduce` starting from 0). */
  function SumYield(cards: seq<PrincessCard>): (s: int)
    ensures (forall c :: c in cards ==> c.hourlyYield >= 0) ==> s >= 0
  {
    if cards == [] then 0 else cards[0].hourlyYield + SumYield(cards[1..])
  }

  /**
   * The hourly earnings shown for currency `kind`. A single card earns its
   * contribution, a list with no owned card of that currency earns nothing,
   * and (`HourlyTotalSplits`) a list earns the sum of its parts.
   */
  function HourlyTotal(cards: seq<PrincessCard>, kind: Currency): (t: int)
    ensures |cards| == 1 ==> t == Contribution(cards[0], kind)
    ensures (forall c :: c in cards ==> !c.owned || c.kind != kind) ==> t == 0
    ensures (forall c :: c in cards ==> c.hourlyYield >= 0) ==> t >= 0
  {
    assert |cards| == 1 ==> cards[1..] == [] && cards == [cards[0]];
    assert |cards| == 1 ==>
      OwnedOfKind(cards, kind) == if cards[0].owned && cards[0].kind == kind then [cards[0]] else [];
    assert |cards| == 1 ==> SumYield([cards[0]]) == cards[0].hourlyYield + SumYield([]);
    SumYield(OwnedOfKind(cards, kind))
  }

  /** What one card adds to the `kind` total: its yield when owned and paying `kind`, else 0. */
  function Contribution(c: PrincessCard, kind: Currency): int {
    if c.owned && c.kind == kind then c.hourlyYield else 0
  }

  /** The total is the sum of the cards' contributions, so unowned cards add nothing. */
  lemma {:induction false} HourlyTotalSplits(a: seq<PrincessCard>, b: seq<PrincessCard>, kind: Currency)
    ensures HourlyTotal(a + b, kind) == HourlyTotal(a, kind) + HourlyTotal(b, kind)
  {
    if a == [] {
      assert a + b == b;
    } else {
      assert (a + b)[1..] == a[1..] + b;
      HourlyTotalSplits(a[1..], b, kind);
    }
  }

  lemma HourlyTotalCons(c: PrincessCard, cards: seq<PrincessCard>, kind: Currency)
    ensures HourlyTotal([c] + cards, kind) == Contribution(c, kind) + HourlyTotal(cards, kind)
  {
  }

  /** Nothing is earned from the seeded collection, since no card is owned yet. */
  lemma SeedEarnsNothing(kind: Currency)
    ensures HourlyTotal(SeedCatalog(), kind) == 0
  {
    SeedCardsFresh();
    NoOwnedNoEarnings(SeedCatalog(), kind);
  }

  /** A list with no owned card earns nothing in either currency. */
  lemma NoOwnedNoEarnings(cards: seq<PrincessCard>, kind: Currency)
    requires forall c :: c in cards ==> !c.owned
    ensures HourlyTotal(cards, kind) == 0
  {
  }

  /** Buying a card of one currency leaves the other currency's total unchanged. */
  lemma {:induction false} BuyKeepsOtherTotal(cards: seq<PrincessCard>, id: string, kind: Currency)
    requires forall c :: c in cards && c.id == id ==> c.kind != kind
    ensures HourlyTotal(Bought(cards, id), kind) == HourlyTotal(cards, kind)
  {
    if cards != [] {
      BoughtCons(cards, id);
      HourlyTotalCons(Bought(cards, id)[0], Bought(cards[1..], id), kind);
      HourlyTotalCons(cards[0], cards[1..], kind);
      BuyKeepsOtherTotal(cards[1..], id, kind);
    }
  }

  /** With distinct ids, buying the first card's id leaves the rest of the list as it was. */
  lemma BuyHeadKeepsTail(cards: seq<PrincessCard>)
    requires cards != [] && DistinctIds(cards)
    ensures Bought(cards[1..], cards[0].id) == cards[1..]
  {
    forall j | 0 <= j < |cards[1..]| ensures Ids(cards[1..])[j] != cards[0].id {
      assert cards[1..][j] == cards[j + 1];
    }
    BuyUnknownId(cards[1..], cards[0].id);
  }

  /**
   * The tail of a list with distinct ids has distinct ids, card `i` of the
   * list is card `i - 1` of the tail, and its id differs from the first card's.
   */
  lemma DistinctIdsTail(cards: seq<PrincessCard>, i: nat)
    requires 0 < i < |cards| && DistinctIds(cards)
    ensures DistinctIds(cards[1..])
    ensures cards[1..][i - 1] == cards[i] && cards[0].id != cards[i].id
  {
    forall j, l | 0 <= j < l < |cards[1..]| ensures cards[1..][j].id != cards[1..][l].id {
      assert cards[1..][j] == cards[j + 1] && cards[1..][l] == cards[l + 1];
    }
  }

  /** With distinct ids, buying the first card (unowned) adds exactly its yield. */
  lemma BuyHeadAddsYield(cards: seq<PrincessCard>)
    requires cards != [] && DistinctIds(cards) && !cards[0].owned
    ensures HourlyTotal(Bought(cards, cards[0].id), cards[0].kind)
      == HourlyTotal(cards, cards[0].kind) + cards[0].hourlyYield
  {
    var r := Bought(cards, cards[0].id);
    BoughtCons(cards, cards[0].id);
    BuyHeadKeepsTail(cards);
    assert r[1..] == cards[1..];
  }

  /** Buying an id other than the first card's changes the total only in the rest of the list. */
  lemma BuyTailStep(cards: seq<PrincessCard>, id: string, kind: Currency)
    requires cards != [] && cards[0].id != id
    ensures HourlyTotal(Bought(cards, id), kind) - HourlyTotal(cards, kind)
      == HourlyTotal(Bought(cards[1..], id), kind) - HourlyTotal(cards[1..], kind)
  {
    var r := Bought(cards, id);
    BoughtCons(cards, id);
    assert r[1..] == Bought(cards[1..], id);
  }

  /**
   * With distinct ids, buying an unowned card raises its currency's total by
   * exactly that card's yield.
   */
  lemma {:induction false} BuyAddsYield(cards: seq<PrincessCard>, i: nat)
    requires i < |cards| && DistinctIds(cards) && !cards[i].owned
    ensures HourlyTotal(Bought(cards, cards[i].id), cards[i].kind)
      == HourlyTotal(cards, cards[i].kind) + cards[i].hourlyYield
  {
    if i == 0 {
      BuyHeadAddsYield(cards);
    } else {
      DistinctIdsTail(cards, i);
      BuyAddsYield(cards[1..], i - 1);
      BuyTailStep(cards, cards[i].id, cards[i].kind);
    }
  }

  /** Badge colour for a rarity; any unknown rarity gets the common grey. */
  function RarityColor(rarity: string): (cls: string)
    ensures cls == "bg-gray-500" <==> rarity !in {"rare", "epic", "legendary"}
    ensures rarity == "rare" ==> cls == "bg-blue-500"
    ensures rarity == "epic" ==> cls == "bg-purple-500"
    ensures rarity == "legendary" ==> cls == "bg-princess-gold"
  {
    match rarity
    case "common" => "bg-gray-500"
    case "rare" => "bg-blue-500"
    case "epic" => "bg-purple-500"
    case "legendary" => "bg-princess-gold"
    case _ => "bg-gray-500"
  }

  /** Border class for a rarity; any unknown rarity gets the common grey. */
  function RarityBorder(rarity: string): (cls: string)
    ensures cls == "border-gray-300" <==> rarity !in {"rare", "epic", "legendary"}
    ensures rarity == "rare" ==> cls == "border-blue-300"
    ensures rarity == "epic" ==> cls == "border-purple-300"
    ensures rarity == "legendary" ==> cls == "border-princess-gold"
  {
    match rarity
    case "common" => "border-gray-300"
    case "rare" => "border-blue-300"
    case "epic" => "border-purple-300"
    case "legendary" => "border-princess-gold"
    case _ => "border-gray-300"
  }

  /** The collection component: its card list replaced by each handler. */
  class PrincessCards {
    var cards: seq<PrincessCard>

    constructor ()
      ensures cards == SeedCatalog()
    {
      cards := SeedCatalog();
    }

    method BuyCard(id: string)
      modifies this
      ensures cards == Bought(old(cards), id)
    {
      cards := Bought(cards, id);
    }

    method UpgradeCard(id: string)
      modifies this
      ensures cards == Upgraded(old(cards), id)
    {
      cards := Upgraded(cards, id);
    }
  }
}
