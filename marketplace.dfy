/** The buy dialog of the marketplace: the trade unit a crop is sold in, the quantity
    stepper, the total, and the simulated M-Pesa checkout. */
module Marketplace {
  import opened Text

  /** `getUnitName`: the first keyword group the lower-cased name contains decides. */
  function UnitName(productName: string): string {
    var name := ToLower(productName);
    if Contains(name, "potato") || Contains(name, "waru") then "50kg Bag"
    else if Contains(name, "tomato") || Contains(name, "nyanya") then "64kg Turbo Crate"
    else if Contains(name, "maize") || Contains(name, "mahindi") then "90kg Bag"
    else if Contains(name, "onion") || Contains(name, "kitunguu") then "14kg Net"
    else if Contains(name, "avocado") then "Probox Crate"
    else "Unit"
  }

  /** One row of the unit standard: the keywords that select it and the unit. */
  datatype UnitRule = UnitRule(keywords: seq<string>, unit: string)

  /** The unit standard as a table, in priority order. */
  const UnitRules: seq<UnitRule> := [
    UnitRule(["potato", "waru"], "50kg Bag"),
    UnitRule(["tomato", "nyanya"], "64kg Turbo Crate"),
    UnitRule(["maize", "mahindi"], "90kg Bag"),
    UnitRule(["onion", "kitunguu"], "14kg Net"),
    UnitRule(["avocado"], "Probox Crate")
  ]

  /** A rule applies to a lower-cased name that contains one of its keywords. */
  predicate Applies(rule: UnitRule, name: string) {
    exists i :: 0 <= i < |rule.keywords| && Contains(name, rule.keywords[i])
  }

  /** The unit of the first applicable rule, or "Unit" when none applies. */
  function FirstMatch(rules: seq<UnitRule>, name: string): (unit: string)
    ensures (forall i :: 0 <= i < |rules| ==> !Applies(rules[i], name)) ==> unit == "Unit"
    ensures forall i :: 0 <= i < |rules| && Applies(rules[i], name) && (forall j :: 0 <= j < i ==> !Applies(rules[j], name))
              ==> unit == rules[i].unit
  {
    if rules == [] then "Unit"
    else if Applies(rules[0], name) then rules[0].unit
    else FirstMatch(rules[1..], name)
  }

  lemma PairApplies(a: string, b: string, u: string, name: string)
    ensures Applies(UnitRule([a, b], u), name) <==> Contains(name, a) || Contains(name, b)
  {
    var r := UnitRule([a, b], u);
    if Contains(name, a) {
      assert Contains(name, r.keywords[0]);
    }
    if Contains(name, b) {
      assert Contains(name, r.keywords[1]);
    }
  }

  lemma SingleApplies(a: string, u: string, name: string)
    ensures Applies(UnitRule([a], u), name) <==> Contains(name, a)
  {
    var r := UnitRule([a], u);
    if Contains(name, a) {
      assert Contains(name, r.keywords[0]);
    }
  }

  /** The if-chain is the table read in priority order: the first rule whose keyword the
      lower-cased name contains gives the unit. */
  lemma UnitNameFollowsRules(productName: string)
    ensures UnitName(productName) == FirstMatch(UnitRules, ToLower(productName))
  {
    var name := ToLower(productName);
    PairApplies("potato", "waru", "50kg Bag", name);
    PairApplies("tomato", "nyanya", "64kg Turbo Crate", name);
    PairApplies("maize", "mahindi", "90kg Bag", name);
    PairApplies("onion", "kitunguu", "14kg Net", name);
    SingleApplies("avocado", "Probox Crate", name);
    var r1 := UnitRules[1..];
    var r2 := r1[1..];
    var r3 := r2[1..];
    var r4 := r3[1..];
    assert r4 == [UnitRule(["avocado"], "Probox Crate")] && r4[1..] == [];
    assert FirstMatch(r4, name) == if Contains(name, "avocado") then "Probox Crate" else "Unit";
    assert FirstMatch(r3, name) == if Contains(name, "onion") || Contains(name, "kitunguu") then "14kg Net" else FirstMatch(r4, name);
    assert FirstMatch(r2, name) == if Contains(name, "maize") || Contains(name, "mahindi") then "90kg Bag" else FirstMatch(r3, name);
    assert FirstMatch(r1, name) == if Contains(name, "tomato") || Contains(name, "nyanya") then "64kg Turbo Crate" else FirstMatch(r2, name);
  }

  /** The unit does not depend on letter case. */
  lemma UnitNameIgnoresCase(productName: string)
    ensures UnitName(ToLower(productName)) == UnitName(productName)
  {
    ToLowerIdempotent(productName);
  }

  /** A name mentioning none of the keywords is sold by the "Unit"; every other name gets
      a real unit. */
  lemma FallbackIff(productName: string)
    ensures UnitName(productName) == "Unit" <==>
              forall i, k :: 0 <= i < |UnitRules| && 0 <= k < |UnitRules[i].keywords| ==>
                !Contains(ToLower(productName), UnitRules[i].keywords[k])
  {
    UnitNameFollowsRules(productName);
    var name := ToLower(productName);
    PairApplies("potato", "waru", "50kg Bag", name);
    PairApplies("tomato", "nyanya", "64kg Turbo Crate", name);
    PairApplies("maize", "mahindi", "90kg Bag", name);
    PairApplies("onion", "kitunguu", "14kg Net", name);
    SingleApplies("avocado", "Probox Crate", name);
  }

  /** An earlier group wins over a later one: a name mentioning a potato is a bag of
      potatoes whatever else it mentions. */
  lemma PotatoWins(productName: string)
    requires Contains(ToLower(productName), "potato")
    ensures UnitName(productName) == "50kg Bag"
  {
  }

  datatype Step = Review | Success

  /** The dialog for one product. */
  class BuyDialog {
    const price: int
    var quantity: int
    var loading: bool
    var step: Step

    /** The stepper never shows less than one unit. */
    predicate Valid()
      reads this
    {
      quantity >= 1
    }

    /** Opening the dialog: one unit, reviewing, not loading. */
    constructor (price: int)
      ensures this.price == price
      ensures quantity == 1 && !loading && step == Review
      ensures Valid()
    {
      this.price := price;
      quantity := 1;
      loading := false;
      step := Review;
    }

    /** `product.price * quantity`. */
    function TotalCost(): (total: int)
      reads this
      ensures Valid() && price >= 0 ==> total >= price
      ensures quantity == 1 ==> total == price
    {
      price * quantity
    }

    /** The minus button: `Math.max(1, quantity - 1)`. */
    method Decrement()
      modifies this`quantity
      ensures quantity == if old(quantity) - 1 >= 1 then old(quantity) - 1 else 1
      ensures Valid()
    {
      quantity := if quantity - 1 >= 1 then quantity - 1 else 1;
    }

    /** The plus button: one more unit, so a valid stepper stays valid. */
    method Increment()
      modifies this`quantity
      ensures quantity == old(quantity) + 1
      ensures old(quantity) >= 1 ==> Valid()
    {
      quantity := quantity + 1;
    }

    /** `handleBuy` up to the simulated delay. */
    method BeginBuy()
      modifies this`loading
      ensures loading
    {
      loading := true;
    }

    /** `handleBuy` after the delay. */
    method FinishBuy()
      modifies this`loading, this`step
      ensures !loading && step == Success
    {
      loading := false;
      step := Success;
    }
  }

  /** Pressing minus on a fresh dialog keeps one unit; two pluses then make three, and the
      total is three times the price. */
  method StepperScenario(price: int) returns (dialog: BuyDialog)
    ensures dialog.quantity == 3 && dialog.TotalCost() == 3 * price
    ensures dialog.Valid() && dialog.step == Review
  {
    dialog := new BuyDialog(price);
    dialog.Decrement();
    dialog.Increment();
    dialog.Increment();
  }
}
