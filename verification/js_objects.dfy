/**
 * What a plain JavaScript object literal `{}` does with string keys:
 * the order in which `Object.keys` lists its own properties (ECMAScript's
 * OrdinaryOwnPropertyKeys), and the names it inherits from `Object.prototype`.
 */
module JsObjects {
  import opened Strings
  import opened Collections
  import Sorting

  /** A canonical array index: the decimal text, without leading zeros, of an integer
      from 0 to 2^32 - 2.  Object.keys lists such keys before all others. */
  predicate IsArrayIndex(k: string)
  {
    && k != []
    && (forall i :: 0 <= i < |k| ==> IsDigit(k[i]))
    && (k[0] != '0' || k == "0")
    && DigitsValue(k) <= 0xFFFF_FFFE
  }

  /** The numeric value of an array-index key, on which those keys are ordered. */
  function IndexValue(k: string): real
  {
    DigitsValue(k) as real
  }

  /** `Object.keys` of an object whose own properties were created in the order
      `created`: array indices first, in ascending numeric order, then every other
      key in creation order. */
  function OwnKeys(created: seq<string>): seq<string>
  {
    Sorting.SortBy(Filter(created, IsArrayIndex), IndexValue) + Reject(created, IsArrayIndex)
  }

  /** Object.keys lists every own key exactly as often as it was created. */
  lemma OwnKeysPermutes(created: seq<string>)
    ensures multiset(OwnKeys(created)) == multiset(created)
    ensures |OwnKeys(created)| == |created|
  {
    Sorting.SortByPermutes(Filter(created, IsArrayIndex), IndexValue);
    FilterRejectPermutes(created, IsArrayIndex);
    assert |multiset(OwnKeys(created))| == |multiset(created)|;
  }

  /** When no key looks like an array index, Object.keys is creation order. */
  lemma OwnKeysInCreationOrder(created: seq<string>)
    requires forall k :: k in created ==> !IsArrayIndex(k)
    ensures OwnKeys(created) == created
  {
    FilterNone(created, IsArrayIndex);
  }

  /** The properties every object literal inherits from `Object.prototype`, all of them
      truthy: eleven methods and the `__proto__` accessor, which yields the prototype. */
  const ObjectPrototypeNames: set<string> := {
    "constructor", "hasOwnProperty", "isPrototypeOf", "propertyIsEnumerable",
    "toLocaleString", "toString", "valueOf", "__defineGetter__", "__defineSetter__",
    "__lookupGetter__", "__lookupSetter__", "__proto__"
  }
}
