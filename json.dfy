/**
 * Decoded JSON values, as `json.loads` hands them to the integration and as
 * `json.dumps` receives them, together with the few pieces of Python
 * semantics the integration relies on: truthiness, `dict.get`, `in` on a
 * dict, numeric type tests and ASCII `str.lower`.
 */
module Json {
  import opened Wrappers

  /**
   * A JSON value. An object keeps its entries in iteration order (Python
   * dicts preserve insertion order); the keys of a Python dict are distinct,
   * so `Lookup` finding the first entry finds the only one. Only integral
   * numbers are represented.
   */
  datatype Json =
    | JNull
    | JBool(b: bool)
    | JInt(i: int)
    | JStr(s: string)
    | JArr(items: seq<Json>)
    | JObj(entries: seq<(string, Json)>)

  type Entries = seq<(string, Json)>

  /** The empty object `{}`: the failure sentinel of `send_request`. */
  const Empty: Json := JObj([])

  /** `d[key]` for a dict given by its entries, or None when `key not in d`. */
  function Lookup(es: Entries, key: string): Option<Json>
  {
    if |es| == 0 then None
    else if es[0].0 == key then Some(es[0].1)
    else Lookup(es[1..], key)
  }

  /** `Lookup` finds a value exactly when some entry carries the key, and the value it finds is that entry's. */
  lemma {:induction false} LookupSound(es: Entries, key: string)
    ensures Lookup(es, key).Some? <==> exists i :: 0 <= i < |es| && es[i].0 == key
    ensures Lookup(es, key).Some? ==> exists i :: 0 <= i < |es| && es[i] == (key, Lookup(es, key).value)
  {
    if |es| > 0 && es[0].0 != key {
      LookupSound(es[1..], key);
      if Lookup(es, key).Some? {
        var i :| 0 <= i < |es| - 1 && es[1..][i] == (key, Lookup(es, key).value);
        assert es[i + 1] == es[1..][i];
      }
      if exists i :: 0 <= i < |es| && es[i].0 == key {
        var i :| 0 <= i < |es| && es[i].0 == key;
        assert es[1..][i - 1] == es[i];
      }
    }
  }

  /** A key no entry carries is not found. */
  lemma {:induction false} LookupMissing(es: Entries, key: string)
    requires forall i :: 0 <= i < |es| ==> es[i].0 != key
    ensures Lookup(es, key) == None
  {
    if |es| > 0 {
      LookupMissing(es[1..], key);
    }
  }

  /** Looking a key up in two concatenated entry lists finds it in the first one if it is there. */
  lemma {:induction false} LookupConcat(a: Entries, b: Entries, key: string)
    ensures Lookup(a + b, key) == if HasKey(a, key) then Lookup(a, key) else Lookup(b, key)
  {
    if |a| > 0 {
      assert (a + b)[0] == a[0];
      assert (a + b)[1..] == a[1..] + b;
      LookupConcat(a[1..], b, key);
    } else {
      assert a + b == b;
    }
  }

  /** The first entry carrying a key is the one `Lookup` finds. */
  lemma {:induction false} LookupFirst(es: Entries, i: nat, key: string)
    requires i < |es| && es[i].0 == key
    requires forall j :: 0 <= j < i ==> es[j].0 != key
    ensures Lookup(es, key) == Some(es[i].1)
  {
    if i > 0 {
      LookupFirst(es[1..], i - 1, key);
    }
  }

  /** `key in d`. */
  predicate HasKey(es: Entries, key: string)
  {
    Lookup(es, key).Some?
  }

  /** `d.get(key, default)`. */
  function Get(es: Entries, key: string, default: Json): (r: Json)
    ensures HasKey(es, key) ==> Some(r) == Lookup(es, key)
    ensures !HasKey(es, key) ==> r == default
  {
    match Lookup(es, key)
    case Some(v) => v
    case None => default
  }

  /** `d.get(key, default)` is the value of the first entry carrying the key, and the default when none does. */
  lemma GetFirst(es: Entries, key: string, default: Json)
    ensures (forall i :: 0 <= i < |es| ==> es[i].0 != key) ==> Get(es, key, default) == default
    ensures forall i :: 0 <= i < |es| && es[i].0 == key && (forall j :: 0 <= j < i ==> es[j].0 != key) ==>
      Get(es, key, default) == es[i].1
  {
    if forall i :: 0 <= i < |es| ==> es[i].0 != key {
      LookupMissing(es, key);
    }
    forall i | 0 <= i < |es| && es[i].0 == key && (forall j :: 0 <= j < i ==> es[j].0 != key)
      ensures Get(es, key, default) == es[i].1
    {
      LookupFirst(es, i, key);
    }
  }

  /** Python truthiness of a decoded value. */
  predicate Truthy(j: Json)
  {
    match j
    case JNull => false
    case JBool(b) => b
    case JInt(i) => i != 0
    case JStr(s) => |s| > 0
    case JArr(items) => |items| > 0
    case JObj(entries) => |entries| > 0
  }

  /**
   * `isinstance(v, (int, float))`. In Python `bool` is a subclass of `int`,
   * so `true` and `false` pass; with fractional numbers not represented this
   * is also `isinstance(v, int)`.
   */
  predicate IsNumber(j: Json)
  {
    j.JInt? || j.JBool?
  }

  /** The numeric value of a number (`True == 1`, `False == 0`). */
  function AsNumber(j: Json): int
    requires IsNumber(j)
  {
    if j.JInt? then j.i else if j.b then 1 else 0
  }

  /** ASCII lower-casing of one character. */
  function LowerChar(c: char): (r: char)
    ensures 'A' <= c <= 'Z' ==> 'a' <= r <= 'z'
    ensures !('A' <= c <= 'Z') ==> r == c
  {
    if 'A' <= c <= 'Z' then (c as int + 32) as char else c
  }

  /**
   * `str.lower()` restricted to ASCII. For the comparisons the integration
   * makes (against "hue", "sat", "r", "g", "b") the restriction changes
   * nothing: no other character lower-cases to one of these letters.
   */
  function Lower(s: string): (r: string)
    ensures |r| == |s|
    ensures forall i :: 0 <= i < |s| ==> r[i] == LowerChar(s[i])
  {
    seq(|s|, i requires 0 <= i < |s| => LowerChar(s[i]))
  }

  /**
   * Comparing a lower-cased key with a name written in lower-case ASCII
   * letters accepts exactly the spellings of that name in any mix of
   * upper and lower case.
   */
  lemma LowerMatches(key: string, name: string)
    requires forall i :: 0 <= i < |name| ==> 'a' <= name[i] <= 'z'
    ensures Lower(key) == name <==>
      |key| == |name| && forall i :: 0 <= i < |key| ==> key[i] == name[i] || key[i] as int == name[i] as int - 32
  {
    if |key| == |name| && forall i :: 0 <= i < |key| ==> key[i] == name[i] || key[i] as int == name[i] as int - 32 {
      assert forall i :: 0 <= i < |key| ==> Lower(key)[i] == name[i];
    }
  }

  /** `sub in s` on strings: `sub` occurs in `s` as a contiguous run. */
  predicate Occurs(sub: string, s: string)
  {
    exists i :: 0 <= i <= |s| && sub <= s[i..]
  }

  /**
   * The elements `for x in j` visits, or None when `j` cannot be iterated
   * (a number, a boolean or None raise `TypeError`). A dict yields its keys
   * and a string its one-character strings.
   */
  function Elements(j: Json): (r: Option<seq<Json>>)
    ensures r.None? <==> j.JNull? || j.JBool? || j.JInt?
    ensures j.JArr? ==> r == Some(j.items)
    ensures j.JObj? ==> r.Some? && |r.value| == |j.entries|
    ensures j.JObj? ==> forall i :: 0 <= i < |j.entries| ==> r.value[i] == JStr(j.entries[i].0)
    ensures j.JStr? ==> r.Some? && |r.value| == |j.s|
    ensures j.JStr? ==> forall i :: 0 <= i < |j.s| ==> r.value[i] == JStr([j.s[i]])
  {
    match j
    case JArr(items) => Some(items)
    case JObj(es) => Some(seq(|es|, i requires 0 <= i < |es| => JStr(es[i].0)))
    case JStr(s) => Some(seq(|s|, i requires 0 <= i < |s| => JStr([s[i]])))
    case _ => None
  }

  /** Whether a value can be a dict key: lists and dicts cannot (`TypeError: unhashable type`). */
  predicate Hashable(j: Json)
  {
    !j.JArr? && !j.JObj?
  }
}
