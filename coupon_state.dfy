/**
 * The coupon state of the cart page: the four pieces of view state
 * `couponCode` (the text box), `discount` (the active rate),
 * `appliedCoupon` (the badge label) and `couponError` (the message under
 * the box), and the handlers that change them.
 *
 * View and the functions AfterEdit, AfterApply and AfterRemove describe
 * the state and the handlers on values; the class CartCoupon holds the
 * four fields and updates them in place, step by step, as the handlers do,
 * and each of its methods is proved to produce the state the matching
 * function describes.
 */
module CouponState {
  import opened JsString
  import opened CouponCatalog
  import opened CartPricing

  const EmptyCodeMessage: string := "Please enter a coupon code"
  const InvalidCodeMessage: string := "Invalid coupon code"

  /** The four `useState` values of the cart page. */
  datatype View = View(couponCode: string, discount: real, appliedCoupon: string, couponError: string)

  /** The state right after the page mounts. */
  const Initial: View := View("", 0.0, "", "")

  /**
   * The coupon invariant: no label exactly when no discount, and a label is
   * always a catalog code whose rate is the active discount.
   */
  predicate Consistent(v: View) {
    && (v.appliedCoupon == "" <==> v.discount == 0.0)
    && (v.appliedCoupon != "" ==> v.appliedCoupon in Catalog && v.discount == Catalog[v.appliedCoupon])
  }

  /** The text box's change handler: the typed text becomes `couponCode`. */
  function AfterEdit(v: View, text: string): View {
    v.(couponCode := text)
  }

  /** `handleApplyCoupon`, on values. */
  function AfterApply(v: View): View {
    var cleared := v.(couponError := "");
    if Trim(v.couponCode) == "" then
      cleared.(couponError := EmptyCodeMessage)
    else
      var key := ToUpper(v.couponCode);
      var discountRate := Lookup(key);
      UppercaseLookup(v.couponCode);
      if Truthy(discountRate) then
        cleared.(discount := discountRate.rate, appliedCoupon := key, couponCode := "")
      else
        cleared.(couponError := InvalidCodeMessage, discount := 0.0, appliedCoupon := "")
  }

  /** `handleRemoveCoupon`, on values. */
  function AfterRemove(v: View): View {
    v.(discount := 0.0, appliedCoupon := "")
  }

  /** A user action on the coupon panel. */
  datatype Event = Edit(text: string) | Apply | Remove

  function Step(v: View, e: Event): View {
    match e
    case Edit(text) => AfterEdit(v, text)
    case Apply => AfterApply(v)
    case Remove => AfterRemove(v)
  }

  /** The state after handling `events` in order. */
  function Run(v: View, events: seq<Event>): View
    decreases |events|
  {
    if events == [] then v else Run(Step(v, events[0]), events[1..])
  }

  /**
   * The three outcomes of applying:
   * - a blank text only sets the "enter a code" error; coupon, discount and text stay;
   * - a text whose upper-cased form is a catalog code applies that code's rate,
   *   shows the upper-cased code and clears the text and the error, whatever
   *   the state before;
   * - any other text drops the applied coupon, zeroes the discount and sets the
   *   "invalid" error; the text stays.
   */
  lemma ApplyOutcome(v: View)
    ensures IsBlank(v.couponCode) ==> AfterApply(v) == v.(couponError := EmptyCodeMessage)
    ensures ToUpper(v.couponCode) in Catalog ==>
      AfterApply(v) == View("", Catalog[ToUpper(v.couponCode)], ToUpper(v.couponCode), "")
    ensures !IsBlank(v.couponCode) && ToUpper(v.couponCode) !in Catalog ==>
      AfterApply(v) == View(v.couponCode, 0.0, "", InvalidCodeMessage)
  {
    TrimEmptyIffBlank(v.couponCode);
    UppercaseLookup(v.couponCode);
    CodeIsCanonical(ToUpper(v.couponCode));
    ToUpperKeepsBlank(v.couponCode);
  }

  /**
   * Matching ignores case: two texts with the same upper-cased form lead to
   * the same discount, label and error, and to the very same state when the
   * code is in the catalog.
   */
  lemma {:induction false} ApplyCaseInsensitive(v: View, text: string)
    requires ToUpper(text) == ToUpper(v.couponCode)
    ensures AfterApply(v.(couponCode := text)).discount == AfterApply(v).discount
    ensures AfterApply(v.(couponCode := text)).appliedCoupon == AfterApply(v).appliedCoupon
    ensures AfterApply(v.(couponCode := text)).couponError == AfterApply(v).couponError
    ensures ToUpper(text) in Catalog ==> AfterApply(v.(couponCode := text)) == AfterApply(v)
  {
    ToUpperKeepsBlank(text);
    ToUpperKeepsBlank(v.couponCode);
    ApplyOutcome(v);
    ApplyOutcome(v.(couponCode := text));
  }

  /**
   * The lookup key is not trimmed: a non-blank text with whitespace at
   * either end never matches, since every catalog code starts and ends with
   * a letter or digit.
   */
  lemma PaddedCodeRejected(v: View)
    requires !IsBlank(v.couponCode)
    requires IsWhitespace(v.couponCode[0]) || IsWhitespace(v.couponCode[|v.couponCode| - 1])
    ensures AfterApply(v) == View(v.couponCode, 0.0, "", InvalidCodeMessage)
  {
    var key := ToUpper(v.couponCode);
    CodeIsCanonical(key);
    assert IsWhitespace(key[0]) || IsWhitespace(key[|key| - 1]);
    ApplyOutcome(v);
  }

  /** " save10 " is rejected: the padding is part of the lookup key. */
  lemma PaddedSave10Rejected(v: View)
    ensures AfterApply(v.(couponCode := " save10 ")) == View(" save10 ", 0.0, "", InvalidCodeMessage)
  {
    var padded := " save10 ";
    assert !IsWhitespace(padded[1]);
    PaddedCodeRejected(v.(couponCode := padded));
  }

  /** Any spelling of SAVE10 applies it, whatever the state before. */
  lemma Save10Accepted(v: View)
    requires ToUpper(v.couponCode) == "SAVE10"
    ensures AfterApply(v) == View("", 0.1, "SAVE10", "")
  {
    var key := ToUpper(v.couponCode);
    assert Catalog[key] == 0.1;
    ApplyOutcome(v);
  }

  /** "save10", "Save10" and "SAVE10" are spellings of SAVE10. */
  lemma Save10Spellings()
    ensures ToUpper("save10") == "SAVE10"
    ensures ToUpper("Save10") == "SAVE10"
    ensures ToUpper("SAVE10") == "SAVE10"
  {
    CodeIsCanonical("SAVE10");
    var lower := ToUpper("save10");
    assert lower[0] == 'S' && lower[1] == 'A' && lower[2] == 'V' && lower[3] == 'E';
    assert lower[4] == '1' && lower[5] == '0';
    var mixed := ToUpper("Save10");
    assert mixed[0] == 'S' && mixed[1] == 'A' && mixed[2] == 'V' && mixed[3] == 'E';
    assert mixed[4] == '1' && mixed[5] == '0';
  }

  /** Removing zeroes the discount and the label only, and removing twice is removing once. */
  lemma RemoveIdempotent(v: View)
    ensures AfterRemove(v).discount == 0.0 && AfterRemove(v).appliedCoupon == ""
    ensures AfterRemove(v).couponCode == v.couponCode && AfterRemove(v).couponError == v.couponError
    ensures AfterRemove(AfterRemove(v)) == AfterRemove(v)
    ensures Consistent(AfterRemove(v))
  {
  }

  /** Every handler keeps the coupon invariant. */
  lemma StepKeepsConsistent(v: View, e: Event)
    requires Consistent(v)
    ensures Consistent(Step(v, e))
  {
    match e
    case Edit(_) =>
    case Remove =>
    case Apply =>
      ApplyOutcome(v);
      RatesInUnitInterval();
  }

  /** Any sequence of handlers keeps the coupon invariant. */
  lemma {:induction false} RunKeepsConsistent(v: View, events: seq<Event>)
    requires Consistent(v)
    ensures Consistent(Run(v, events))
    decreases |events|
  {
    if events != [] {
      StepKeepsConsistent(v, events[0]);
      RunKeepsConsistent(Step(v, events[0]), events[1..]);
    }
  }

  /** A consistent state's discount is a valid rate. */
  lemma ConsistentDiscountInRange(v: View)
    requires Consistent(v)
    ensures 0.0 <= v.discount < 1.0
  {
    RatesInUnitInterval();
  }

  /**
   * In every state the page can reach, the summary it shows for a sane cart
   * has a discount within the subtotal and a total within [0, 1.1 * subtotal].
   */
  lemma ReachablePriceBounds(events: seq<Event>, items: seq<LineItem>)
    requires NonNegative(items)
    ensures var p := Price(items, Run(Initial, events).discount);
      && 0.0 <= p.discountAmount <= p.subtotal
      && 0.0 <= p.total <= 1.1 * p.subtotal
  {
    RunKeepsConsistent(Initial, events);
    ConsistentDiscountInRange(Run(Initial, events));
    PriceBounds(items, Run(Initial, events).discount);
  }

  /** Typing "WELCOME" and applying it. */
  lemma WelcomeRun()
    ensures Run(Initial, [Edit("WELCOME"), Apply]) == View("", 0.15, "WELCOME", "")
  {
    var events := [Edit("WELCOME"), Apply];
    var typed := AfterEdit(Initial, "WELCOME");
    assert typed.couponCode == "WELCOME";
    CodeIsCanonical("WELCOME");
    ApplyOutcome(typed);
    assert Run(Initial, events) == Run(typed, events[1..]);
    assert events[1..] == [Apply];
    assert Run(typed, [Apply]) == Run(AfterApply(typed), [Apply][1..]);
    assert [Apply][1..] == [];
  }

  /** Typing "BOGUS" and applying it. */
  lemma BogusRun()
    ensures Run(Initial, [Edit("BOGUS"), Apply]) == View("BOGUS", 0.0, "", InvalidCodeMessage)
  {
    var events := [Edit("BOGUS"), Apply];
    var typed := AfterEdit(Initial, "BOGUS");
    assert typed.couponCode == "BOGUS";
    var key := ToUpper("BOGUS");
    assert key == "BOGUS" by {
      assert key[0] == 'B' && key[1] == 'O' && key[2] == 'G' && key[3] == 'U' && key[4] == 'S';
    }
    assert !IsWhitespace(typed.couponCode[0]);
    ApplyOutcome(typed);
    assert Run(Initial, events) == Run(typed, events[1..]);
    assert events[1..] == [Apply];
    assert Run(typed, [Apply]) == Run(AfterApply(typed), [Apply][1..]);
    assert [Apply][1..] == [];
  }

  /** The 45.00 cart after "WELCOME" is applied, and after "BOGUS" is tried. */
  lemma CartScenarios()
    ensures Price([LineItem(20.0, 2), LineItem(5.0, 1)], Run(Initial, [Edit("WELCOME"), Apply]).discount)
         == Summary(45.0, 6.75, 38.25, 3.825, 42.075)
    ensures Price([LineItem(20.0, 2), LineItem(5.0, 1)], Run(Initial, [Edit("BOGUS"), Apply]).discount).total
         == 49.5
  {
    WelcomeRun();
    BogusRun();
    WelcomeExample();
    NoDiscountExample();
  }

  /**
   * The state objects of the cart page: the four fields the handlers update
   * in place.
   */
  class CartCoupon {
    var couponCode: string
    var discount: real
    var appliedCoupon: string
    var couponError: string

    /** The current values of the four fields. */
    function State(): View
      reads this
    {
      View(couponCode, discount, appliedCoupon, couponError)
    }

    ghost predicate Valid()
      reads this
    {
      Consistent(State())
    }

    /** The page mounts with an empty text box, no discount, no label and no error. */
    constructor ()
      ensures State() == Initial
      ensures Valid()
    {
      couponCode := "";
      discount := 0.0;
      appliedCoupon := "";
      couponError := "";
    }

    /** `setCouponCode(e.target.value)`: the text box's change handler. */
    method EditCode(text: string)
      requires Valid()
      modifies this
      ensures Valid()
      ensures State() == AfterEdit(old(State()), text)
    {
      couponCode := text;
    }

    /** `handleApplyCoupon`. */
    method ApplyCoupon()
      requires Valid()
      modifies this
      ensures Valid()
      ensures State() == AfterApply(old(State()))
      ensures IsBlank(old(couponCode)) ==>
        && couponError == EmptyCodeMessage
        && couponCode == old(couponCode)
        && discount == old(discount)
        && appliedCoupon == old(appliedCoupon)
      ensures ToUpper(old(couponCode)) in Catalog ==>
        && discount == Catalog[ToUpper(old(couponCode))]
        && appliedCoupon == ToUpper(old(couponCode))
        && couponCode == ""
        && couponError == ""
      ensures !IsBlank(old(couponCode)) && ToUpper(old(couponCode)) !in Catalog ==>
        && discount == 0.0
        && appliedCoupon == ""
        && couponError == InvalidCodeMessage
        && couponCode == old(couponCode)
    {
      ghost var before := State();
      StepKeepsConsistent(before, Apply);
      ApplyOutcome(before);

      couponError := "";

      if Trim(couponCode) == "" {
        couponError := EmptyCodeMessage;
        return;
      }

      var key := ToUpper(couponCode);
      var discountRate := Lookup(key);
      if Truthy(discountRate) {
        UppercaseLookup(couponCode);
        assert AfterApply(before) == View("", discountRate.rate, key, "");
        discount := discountRate.rate;
        appliedCoupon := key;
        couponCode := "";
      } else {
        couponError := InvalidCodeMessage;
        discount := 0.0;
        appliedCoupon := "";
      }
    }

    /** `handleRemoveCoupon`. */
    method RemoveCoupon()
      requires Valid()
      modifies this
      ensures Valid()
      ensures State() == AfterRemove(old(State()))
      ensures discount == 0.0 && appliedCoupon == ""
      ensures couponCode == old(couponCode) && couponError == old(couponError)
    {
      discount := 0.0;
      appliedCoupon := "";
    }
  }
}
