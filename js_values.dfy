/**
 * The JavaScript values that the details view walks through: primitives,
 * `null`, `undefined` and plain objects, together with the handful of
 * language rules the stats controller relies on (truthiness, `typeof`,
 * property access, `for ... in` with `hasOwnProperty`, `String.prototype.indexOf`
 * and `String.prototype.split` with a one-character separator).
 *
 * Numbers are integers here: fractions and NaN do not occur in the modelled data.
 * An object is its list of own enumerable properties in the order `for ... in`
 * visits them; an array is an object whose keys are its indices.
 */
module JsValues {

  datatype JsValue =
    | Undefined
    | Null
    | Bool(b: bool)
    | Num(n: int)
    | Str(s: string)
    | Obj(fields: seq<(string, JsValue)>)

  /** `null` and `undefined`, the two values whose properties cannot be read. */
  predicate Nullish(v: JsValue) {
    v.Undefined? || v.Null?
  }

  /** The language's ToBoolean conversion, as used by `if (x)`, `while (... && x)` and `x ? a : b`. */
  predicate Truthy(v: JsValue) {
    match v
    case Undefined => false
    case Null => false
    case Bool(b) => b
    case Num(n) => n != 0
    case Str(s) => s != ""
    case Obj(_) => true
  }

  /** The `typeof` operator; note that `typeof null` is "object". */
  function TypeOf(v: JsValue): string {
    match v
    case Undefined => "undefined"
    case Null => "object"
    case Bool(_) => "boolean"
    case Num(_) => "number"
    case Str(_) => "string"
    case Obj(_) => "object"
  }

  function Digit(d: nat): char
    requires d < 10
  {
    "0123456789"[d]
  }

  /** Canonical decimal form of an array or string index, as used for property keys. */
  function NatToString(n: nat): (s: string)
    ensures 1 <= |s|
    ensures n < 10 <==> |s| == 1
  {
    if n < 10 then [Digit(n)] else NatToString(n / 10) + [Digit(n % 10)]
  }

  /** An index key starts with a decimal digit (so it is never `length`). */
  lemma {:induction false} NatToStringStartsWithDigit(n: nat)
    ensures '0' <= NatToString(n)[0] <= '9'
  {
    if 10 <= n {
      NatToStringStartsWithDigit(n / 10);
      assert NatToString(n)[0] == NatToString(n / 10)[0];
    }
  }

  /** Distinct indices have distinct keys. */
  lemma {:induction false} NatToStringInjective(a: nat, b: nat)
    requires NatToString(a) == NatToString(b)
    ensures a == b
  {
    var sa, sb := NatToString(a), NatToString(b);
    if a < 10 || b < 10 {
      assert |sa| == 1 && |sb| == 1;
      assert Digit(a) == sa[0] == sb[0] == Digit(b);
    } else {
      var pa, pb := NatToString(a / 10), NatToString(b / 10);
      assert sa == pa + [Digit(a % 10)] && sb == pb + [Digit(b % 10)];
      assert |pa| == |pb|;
      assert pa == sa[..|pa|] == sb[..|pb|] == pb;
      NatToStringInjective(a / 10, b / 10);
      assert Digit(a % 10) == sa[|pa|] == sb[|pb|] == Digit(b % 10);
    }
  }

  /** The value of the first field named `key`, or `undefined` when there is none. */
  function Lookup(fields: seq<(string, JsValue)>, key: string): JsValue {
    if fields == [] then Undefined
    else if fields[0].0 == key then fields[0].1
    else Lookup(fields[1..], key)
  }

  /** Reading a property gives the value of its first field of that name, and `undefined` for a missing one. */
  lemma {:induction false} LookupFirst(fields: seq<(string, JsValue)>, key: string, i: nat)
    requires i < |fields| && fields[i].0 == key
    requires forall j :: 0 <= j < i ==> fields[j].0 != key
    ensures Lookup(fields, key) == fields[i].1
  {
    if i > 0 {
      assert fields[0].0 != key;
      LookupFirst(fields[1..], key, i - 1);
    }
  }

  lemma {:induction false} LookupMissing(fields: seq<(string, JsValue)>, key: string)
    requires forall j :: 0 <= j < |fields| ==> fields[j].0 != key
    ensures Lookup(fields, key) == Undefined
  {
    if fields != [] {
      assert fields[0].0 != key;
      LookupMissing(fields[1..], key);
    }
  }

  /** The character of `s` whose canonical index key is `key`, searching from index `from`. */
  function CharAtKey(s: string, key: string, from: nat): JsValue
    decreases |s| - from
  {
    if from >= |s| then Undefined
    else if NatToString(from) == key then Str([s[from]])
    else CharAtKey(s, key, from + 1)
  }

  /**
   * Property access `v[key]`. A string has its `length` and one property per
   * character index; booleans and numbers have no own properties (what their
   * prototypes provide is not modelled). Reading a property of `null` or
   * `undefined` throws, so callers must rule those out.
   */
  function Get(v: JsValue, key: string): (r: JsValue)
    requires !Nullish(v)
  {
    match v
    case Obj(fields) => Lookup(fields, key)
    case Str(s) => if key == "length" then Num(|s|) else CharAtKey(s, key, 0)
    case _ => Undefined
  }

  lemma {:induction false} CharAtKeyFinds(s: string, i: nat, from: nat)
    requires from <= i < |s|
    ensures CharAtKey(s, NatToString(i), from) == Str([s[i]])
    decreases i - from
  {
    if NatToString(from) == NatToString(i) {
      NatToStringInjective(from, i);
    } else {
      CharAtKeyFinds(s, i, from + 1);
    }
  }

  /** Indexing a string by one of its index keys yields that one-character string. */
  lemma StringIndexGet(s: string, i: nat)
    requires i < |s|
    ensures Get(Str(s), NatToString(i)) == Str([s[i]])
  {
    NatToStringStartsWithDigit(i);
    assert "length"[0] == 'l';
    assert NatToString(i) != "length";
    CharAtKeyFinds(s, i, 0);
  }

  /**
   * The keys a `for (k in v)` loop guarded by `v.hasOwnProperty(k)` visits, in order.
   * For `null`, `undefined`, booleans and numbers the loop runs zero times; for a
   * string it visits the character indices.
   */
  function OwnKeys(v: JsValue): (keys: seq<string>)
    ensures Nullish(v) ==> keys == []
  {
    match v
    case Obj(fields) => seq(|fields|, i requires 0 <= i < |fields| => fields[i].0)
    case Str(s) => seq(|s|, i requires 0 <= i < |s| => NatToString(i))
    case _ => []
  }

  /** A JavaScript object never has two own properties of the same name. */
  predicate DistinctKeys(v: JsValue) {
    v.Obj? ==> forall i, j :: 0 <= i < j < |v.fields| ==> v.fields[i].0 != v.fields[j].0
  }

  /** Reading an own property of an object gives that property's value. */
  lemma ObjectFieldGet(fields: seq<(string, JsValue)>, i: nat)
    requires DistinctKeys(Obj(fields)) && i < |fields|
    ensures Get(Obj(fields), fields[i].0) == fields[i].1
  {
    LookupFirst(fields, fields[i].0, i);
  }

  /** Reading a name that is not an own property of an object gives `undefined`. */
  lemma MissingPropertyGet(fields: seq<(string, JsValue)>, key: string)
    requires forall j :: 0 <= j < |fields| ==> fields[j].0 != key
    ensures Get(Obj(fields), key) == Undefined
  {
    LookupMissing(fields, key);
  }

  /** `for ... in` visits every own key once: the keys of an object or a string are distinct. */
  lemma OwnKeysDistinct(v: JsValue)
    requires DistinctKeys(v)
    ensures forall i, j :: 0 <= i < j < |OwnKeys(v)| ==> OwnKeys(v)[i] != OwnKeys(v)[j]
  {
    if v.Str? {
      forall i, j | 0 <= i < j < |OwnKeys(v)|
        ensures OwnKeys(v)[i] != OwnKeys(v)[j]
      {
        if OwnKeys(v)[i] == OwnKeys(v)[j] {
          NatToStringInjective(i, j);
        }
      }
    }
  }

  /** `s.indexOf(c)`: the first position of `c` in `s`, or -1. */
  function IndexOf(s: string, c: char): (r: int)
    ensures -1 <= r < |s|
    ensures 0 <= r ==> s[r] == c
    ensures forall k :: 0 <= k < |s| && (r < 0 || k < r) ==> s[k] != c
  {
    if s == [] then -1
    else if s[0] == c then 0
    else
      var k := IndexOf(s[1..], c);
      if k < 0 then -1 else k + 1
  }

  /** `s.split(sep)` for a one-character separator: the pieces between separators. */
  function Split(s: string, sep: char): (parts: seq<string>)
    ensures 1 <= |parts|
    decreases |s|
  {
    var i := IndexOf(s, sep);
    if i < 0 then [s] else [s[..i]] + Split(s[i + 1..], sep)
  }

  /** `parts.join(sep)`. */
  function Join(parts: seq<string>, sep: char): string
    requires 1 <= |parts|
  {
    if |parts| == 1 then parts[0] else parts[0] + [sep] + Join(parts[1..], sep)
  }

  /** Joining the pieces of a split gives back the original string. */
  lemma {:induction false} JoinSplit(s: string, sep: char)
    ensures Join(Split(s, sep), sep) == s
    decreases |s|
  {
    var i := IndexOf(s, sep);
    if 0 <= i {
      var head, rest := s[..i], s[i + 1..];
      assert s == head + [sep] + rest;
      assert Split(s, sep) == [head] + Split(rest, sep);
      JoinSplit(rest, sep);
      JoinCons(head, Split(rest, sep), sep);
    }
  }

  lemma JoinCons(p: string, ps: seq<string>, sep: char)
    requires 1 <= |ps|
    ensures Join([p] + ps, sep) == p + [sep] + Join(ps, sep)
  {
    assert ([p] + ps)[1..] == ps;
  }

  /** No piece of a split contains the separator, and there is one more piece than separators. */
  lemma {:induction false} SplitPieces(s: string, sep: char)
    ensures forall k :: 0 <= k < |Split(s, sep)| ==> sep !in Split(s, sep)[k]
    ensures |Split(s, sep)| == Count(s, sep) + 1
    decreases |s|
  {
    var i := IndexOf(s, sep);
    if 0 <= i {
      var rest := s[i + 1..];
      SplitPieces(rest, sep);
      CountAppend(s[..i], [sep] + rest, sep);
      CountAppend([sep], rest, sep);
      CountAbsent(s[..i], sep);
      assert s == s[..i] + ([sep] + rest);
    } else {
      CountAbsent(s, sep);
    }
  }

  /** Number of occurrences of `c` in `s`. */
  function Count(s: string, c: char): nat {
    if s == [] then 0 else (if s[0] == c then 1 else 0) + Count(s[1..], c)
  }

  lemma {:induction false} CountAppend(a: string, b: string, c: char)
    ensures Count(a + b, c) == Count(a, c) + Count(b, c)
  {
    if a != [] {
      assert (a + b)[1..] == a[1..] + b;
      CountAppend(a[1..], b, c);
    } else {
      assert a + b == b;
    }
  }

  lemma {:induction false} CountAbsent(s: string, c: char)
    requires c !in s
    ensures Count(s, c) == 0
  {
    if s != [] {
      CountAbsent(s[1..], c);
    }
  }

  /** A path of two separator-free names splits into exactly those names. */
  lemma SplitTwo(a: string, b: string, sep: char)
    requires sep !in a && sep !in b
    ensures Split(a + [sep] + b, sep) == [a, b]
  {
    var s := a + [sep] + b;
    FirstSeparator(a, [sep] + b, sep);
    assert s == a + ([sep] + b);
    assert IndexOf(s, sep) == |a|;
    assert s[..|a|] == a && s[|a| + 1..] == b;
    assert IndexOf(b, sep) < 0;
  }

  /** A name without a separator is not split at all. */
  lemma SplitNone(a: string, sep: char)
    requires sep !in a
    ensures Split(a, sep) == [a]
  {
  }

  lemma {:induction false} FirstSeparator(a: string, b: string, sep: char)
    requires sep !in a && b != [] && b[0] == sep
    ensures IndexOf(a + b, sep) == |a|
  {
    if a != [] {
      assert (a + b)[1..] == a[1..] + b;
      FirstSeparator(a[1..], b, sep);
    } else {
      assert a + b == b;
    }
  }
}
