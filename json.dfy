/**
 * The JavaScript values that flow through the client: decoded JSON (objects,
 * arrays, strings, numbers, booleans, null), `undefined` for a missing
 * property, and the `Date` objects the normalisers put in timestamp fields.
 */
module Json {

  /** The time value inside a `Date` object: milliseconds since the epoch, or NaN for an invalid date. */
  datatype Instant = Time(ms: int) | InvalidDate

  datatype Value =
    | Undefined
    | Null
    | Bool(b: bool)
    | Num(n: real)
    | Str(s: string)
    | Arr(items: seq<Value>)
    | Obj(fields: map<string, Value>)
    | Date(t: Instant)

  /** A plain object as a map from property name to value. */
  type Record = map<string, Value>

  /** The exceptions the modelled code can raise. */
  datatype JsError =
    | TypeError            // a property read on null/undefined, or a call of something that is not a function
    | InvalidCharacterError // btoa given a character outside Latin-1

  /**
   * JavaScript truthiness (ToBoolean): null and undefined are falsy, every
   * object (arrays and dates included) is truthy.
   */
  predicate Truthy(v: Value): (r: bool)
    ensures r ==> !IsNullish(v)
    ensures v.Obj? || v.Arr? || v.Date? ==> r
    ensures v.Str? ==> (r <==> v.s != "")
  {
    match v
    case Undefined => false
    case Null => false
    case Bool(b) => b
    case Num(n) => n != 0.0
    case Str(s) => s != ""
    case _ => true
  }

  /** `v == null`: loose equality with null holds for null and undefined only. */
  predicate IsNullish(v: Value) {
    v.Null? || v.Undefined?
  }

  /** Reading an own property of a plain object; a missing one is `undefined`. */
  function Get(m: Record, key: string): (r: Value)
    ensures key in m ==> r == m[key]
    ensures key !in m ==> r == Undefined
  {
    if key in m then m[key] else Undefined
  }

  /** Decimal rendering of an array index, as used for property names. */
  function NatToString(n: nat): (r: string)
    ensures |r| > 0
    ensures n >= 10 ==> |r| >= 2
    ensures forall i :: 0 <= i < |r| ==> '0' <= r[i] <= '9'
  {
    if n < 10 then [DigitChar(n)] else NatToString(n / 10) + [DigitChar(n % 10)]
  }

  function DigitChar(d: nat): (c: char)
    requires d < 10
    ensures '0' <= c <= '9'
  {
    (48 + d) as char
  }

  /** Distinct indices have distinct names. */
  lemma {:induction false} NatToStringInjective(a: nat, b: nat)
    requires NatToString(a) == NatToString(b)
    ensures a == b
    decreases a
  {
    if a >= 10 && b >= 10 {
      var sa, sb := NatToString(a), NatToString(b);
      assert sa[..|sa| - 1] == NatToString(a / 10);
      assert sb[..|sb| - 1] == NatToString(b / 10);
      NatToStringInjective(a / 10, b / 10);
      assert DigitChar(a % 10) == sa[|sa| - 1] == DigitChar(b % 10);
    }
  }

  /** The own enumerable index properties "0", "1", ... of an array-like value. */
  function IndexedProps(items: seq<Value>): (m: Record)
    ensures forall i :: 0 <= i < |items| ==> NatToString(i) in m
  {
    if items == [] then map[]
    else
      var init := IndexedProps(items[..|items| - 1]);
      init[NatToString(|items| - 1) := items[|items| - 1]]
  }

  /** Each index property holds its element: no later index overwrites an earlier one. */
  lemma {:induction false} IndexedPropsValues(items: seq<Value>)
    ensures forall i :: 0 <= i < |items| ==> IndexedProps(items)[NatToString(i)] == items[i]
    decreases |items|
  {
    if items != [] {
      var n := |items| - 1;
      IndexedPropsValues(items[..n]);
      var m := IndexedProps(items);
      assert m == IndexedProps(items[..n])[NatToString(n) := items[n]];
      forall i | 0 <= i < n ensures m[NatToString(i)] == items[i] {
        if NatToString(i) == NatToString(n) {
          NatToStringInjective(i, n);
        }
        assert items[..n][i] == items[i];
      }
    }
  }

  /** `k` names one of the indices below `n`. */
  predicate IsIndexKey(k: string, n: nat) {
    exists i: nat :: i < n && k == NatToString(i)
  }

  /** The index properties are the indices and nothing else. */
  lemma {:induction false} IndexedPropsKeys(items: seq<Value>)
    ensures forall k :: k in IndexedProps(items) ==> IsIndexKey(k, |items|)
    decreases |items|
  {
    if items != [] {
      var n := |items| - 1;
      IndexedPropsKeys(items[..n]);
      assert IndexedProps(items) == IndexedProps(items[..n])[NatToString(n) := items[n]];
      forall k | k in IndexedProps(items) ensures IsIndexKey(k, |items|) {
        if k != NatToString(n) {
          assert IsIndexKey(k, n);
          var i: nat :| i < n && k == NatToString(i);
          assert i < |items|;
        } else {
          assert n < |items| && k == NatToString(n);
        }
      }
    }
  }

  /**
   * The own enumerable properties that `Object.assign` copies from a source:
   * all fields of an object, the indices of an array or string (one
   * character per index), and nothing for the other values.
   */
  function OwnProps(v: Value): (r: Record)
    ensures v.Obj? ==> r == v.fields
    ensures !(v.Obj? || v.Arr? || v.Str?) ==> r == map[]
  {
    match v
    case Obj(m) => m
    case Arr(items) => IndexedProps(items)
    case Str(s) => IndexedProps(seq(|s|, i requires 0 <= i < |s| => Str([s[i]])))
    case _ => map[]
  }

  /**
   * What `Object.assign` copies from an array or a string: exactly the
   * index properties, each holding the element (for a string, the
   * one-character string) at that index.
   */
  lemma ArrayLikeOwnProps(v: Value)
    requires v.Arr? || v.Str?
    ensures var n := if v.Arr? then |v.items| else |v.s|;
            && (forall i :: 0 <= i < n ==> NatToString(i) in OwnProps(v))
            && (forall k :: k in OwnProps(v) ==> IsIndexKey(k, n))
    ensures v.Arr? ==> forall i :: 0 <= i < |v.items| ==> OwnProps(v)[NatToString(i)] == v.items[i]
    ensures v.Str? ==> forall i :: 0 <= i < |v.s| ==> OwnProps(v)[NatToString(i)] == Str([v.s[i]])
  {
    if v.Arr? {
      assert OwnProps(v) == IndexedProps(v.items);
      IndexedPropsValues(v.items);
      IndexedPropsKeys(v.items);
    } else {
      var chars := seq(|v.s|, i requires 0 <= i < |v.s| => Str([v.s[i]]));
      assert OwnProps(v) == IndexedProps(chars) && |chars| == |v.s|;
      assert forall i :: 0 <= i < |v.s| ==> chars[i] == Str([v.s[i]]);
      IndexedPropsValues(chars);
      IndexedPropsKeys(chars);
    }
  }

  /**
   * Property read `v.key` for a key that no prototype defines, on a value
   * that is not null or undefined (reading from those raises TypeError,
   * which the callers model).
   */
  function Prop(v: Value, key: string): (r: Value)
    ensures v.Obj? ==> r == Get(OwnProps(v), key)
    ensures key !in OwnProps(v) ==> r == Undefined
    ensures r != Undefined ==> key in OwnProps(v) && r == OwnProps(v)[key]
  {
    if v.Obj? then Get(v.fields, key) else Undefined
  }
}
