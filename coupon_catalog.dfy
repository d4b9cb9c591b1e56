/**
 * The fixed coupon catalog of the cart page and the JavaScript property
 * lookup `availableCoupons[key]` that reads it.
 *
 * The catalog is a plain object literal, so a lookup by an arbitrary key
 * can also reach a member inherited from `Object.prototype` (a function or
 * object, hence truthy). The handler only ever looks up upper-cased keys,
 * and no inherited member name survives upper-casing; UppercaseLookup
 * proves that the handler therefore sees exactly the four own entries.
 */
module CouponCatalog {
  import opened JsString

  /** `availableCoupons`: coupon code to discount rate. */
  const Catalog: map<string, real> := map[
    "SAVE10" := 0.1,
    "SAVE20" := 0.2,
    "WELCOME" := 0.15,
    "FREESHIP" := 0.05
  ]

  /** Names every plain object inherits from `Object.prototype`. */
  const ObjectPrototypeMembers: set<string> := {
    "constructor", "hasOwnProperty", "isPrototypeOf", "propertyIsEnumerable",
    "toLocaleString", "toString", "valueOf", "__proto__",
    "__defineGetter__", "__defineSetter__", "__lookupGetter__", "__lookupSetter__"
  }

  /** What a JavaScript property read on the catalog object yields. */
  datatype Property = Undefined | Number(rate: real) | InheritedMember

  /** `availableCoupons[key]`: an own entry, else an inherited member, else `undefined`. */
  function Lookup(key: string): (p: Property)
    ensures p.Number? <==> key in Catalog
    ensures p.Number? ==> p.rate == Catalog[key]
    ensures p.InheritedMember? <==> key !in Catalog && key in ObjectPrototypeMembers
    ensures Truthy(p) <==> key in Catalog || key in ObjectPrototypeMembers
    ensures p.Number? ==> 0.0 < p.rate < 1.0
  {
    RatesInUnitInterval();
    if key in Catalog then Number(Catalog[key])
    else if key in ObjectPrototypeMembers then InheritedMember
    else Undefined
  }

  /** JavaScript truthiness of a property value: `undefined` and `0` are falsy, objects truthy. */
  predicate Truthy(p: Property) {
    match p
    case Undefined => false
    case Number(r) => r != 0.0
    case InheritedMember => true
  }

  /** Every rate lies strictly between 0 and 1. */
  lemma RatesInUnitInterval()
    ensures forall code :: code in Catalog ==> 0.0 < Catalog[code] < 1.0
  {
  }

  /** Every code is already canonical: non-empty, upper case, no surrounding whitespace. */
  lemma CodeIsCanonical(code: string)
    ensures code in Catalog ==>
      && code != ""
      && ToUpper(code) == code
      && !IsWhitespace(code[0])
      && !IsWhitespace(code[|code| - 1])
  {
    if code in Catalog {
      assert code == "SAVE10" || code == "SAVE20" || code == "WELCOME" || code == "FREESHIP";
      forall i | 0 <= i < |code| ensures !IsLower(code[i]) {
      }
    }
  }

  /** Every inherited member name contains a lower-case letter. */
  lemma PrototypeMembersHaveLower()
    ensures forall name :: name in ObjectPrototypeMembers ==> HasLower(name)
  {
    forall name | name in ObjectPrototypeMembers ensures HasLower(name) {
      assert IsLower(name[4]);
    }
  }

  /**
   * Looking up an upper-cased key never reaches an inherited member, and it
   * is truthy exactly when the key is a catalog code, yielding that code's rate.
   */
  lemma {:induction false} UppercaseLookup(s: string)
    ensures Lookup(ToUpper(s)) != InheritedMember
    ensures Truthy(Lookup(ToUpper(s))) <==> ToUpper(s) in Catalog
    ensures ToUpper(s) in Catalog ==> Lookup(ToUpper(s)) == Number(Catalog[ToUpper(s)])
  {
    ToUpperHasNoLower(s);
    PrototypeMembersHaveLower();
    RatesInUnitInterval();
  }
}
