/**
 * JavaScript values as the client code sees them: what `JSON.parse` yields,
 * what a server response body or an axios error object holds, and the few
 * operations the application applies to them (truthiness, `||`, property
 * access, the `in` operator, object spread, string conversion).
 *
 * Numbers are integers, standing for JavaScript numbers that are integral,
 * exactly representable and below 1e21 in magnitude. Objects are lists of
 * own properties in insertion order. A list may name a key twice (as the
 * text `{"a":1,"a":2}` does); lookup then sees the last one, as `JSON.parse`
 * does.
 */
module JsValue {
  import opened Optional
  import Decimal

  datatype Value =
    | Undefined
    | Null
    | Bool(b: bool)
    | Num(n: int)
    | Str(s: string)
    | Arr(items: seq<Value>)
    | Obj(fields: seq<Field>)

  datatype Field = Field(key: string, val: Value)

  /** JavaScript truthiness, `!!v`. */
  predicate Truthy(v: Value) {
    match v
    case Undefined => false
    case Null => false
    case Bool(b) => b
    case Num(n) => n != 0
    case Str(s) => s != ""
    case Arr(_) => true
    case Obj(_) => true
  }

  /** `a || b`: the first operand when it is truthy, otherwise the second. */
  function Or(a: Value, b: Value): (r: Value)
    ensures Truthy(r) <==> Truthy(a) || Truthy(b)
    ensures r == a || r == b
  {
    if Truthy(a) then a else b
  }

  predicate HasKey(fs: seq<Field>, k: string) {
    exists i | 0 <= i < |fs| :: fs[i].key == k
  }

  /** The value stored under `k`; the last entry wins. */
  function Lookup(fs: seq<Field>, k: string): Value {
    if fs == [] then Undefined
    else if fs[|fs| - 1].key == k then fs[|fs| - 1].val
    else Lookup(fs[..|fs| - 1], k)
  }

  /**
   * Property access `v.k` (and `v?.k`) for a property name that is neither an
   * array index nor a built-in property: only objects have such properties.
   */
  function Member(v: Value, k: string): Value {
    if v.Obj? then Lookup(v.fields, k) else Undefined
  }

  /**
   * The `in` operator, `k in v`, for a property name that is neither an array
   * index nor a built-in property; None when JavaScript throws a TypeError
   * (the right operand is not an object).
   */
  function InOperator(k: string, v: Value): (r: Option<bool>)
    ensures r.None? <==> !(v.Obj? || v.Arr?)
    ensures r == Some(true) <==> v.Obj? && HasKey(v.fields, k)
  {
    match v
    case Obj(fs) => Some(HasKey(fs, k))
    case Arr(_) => Some(false)
    case _ => None
  }

  /** Every entry named `f.key` takes `f`'s value; the order is kept. */
  function Replace(fs: seq<Field>, f: Field): (r: seq<Field>)
    ensures |r| == |fs|
  {
    if fs == [] then []
    else
      var last := fs[|fs| - 1];
      Replace(fs[..|fs| - 1], f) + [if last.key == f.key then f else last]
  }

  /** `target[f.key] = f.val`: an existing key keeps its place, a new one goes last. */
  function Assign(fs: seq<Field>, f: Field): seq<Field> {
    if HasKey(fs, f.key) then Replace(fs, f) else fs + [f]
  }

  /** The properties of `top` written one by one onto `base`, as `{...base, ...top}` does. */
  function Overlay(base: seq<Field>, top: seq<Field>): seq<Field>
    decreases |top|
  {
    if top == [] then base else Overlay(Assign(base, top[0]), top[1..])
  }

  /** The own enumerable properties that `...v` copies into an object literal. */
  function OwnProps(v: Value): seq<Field> {
    match v
    case Obj(fs) => fs
    case Str(s) => seq(|s|, i requires 0 <= i < |s| => Field(Decimal.Digits(i), Str([s[i]])))
    case Arr(vs) => seq(|vs|, i requires 0 <= i < |vs| => Field(Decimal.Digits(i), vs[i]))
    case _ => []
  }

  /** `String(v)`, as a template literal `${v}` converts its operand. */
  function ToString(v: Value): string
    decreases v
  {
    match v
    case Undefined => "undefined"
    case Null => "null"
    case Bool(b) => if b then "true" else "false"
    case Num(n) => Decimal.NumberText(n)
    case Str(s) => s
    case Arr(vs) => JoinItems(vs)
    case Obj(_) => "[object Object]"
  }

  /** `Array#join(",")`: null and undefined items become empty text. */
  function JoinItems(vs: seq<Value>): string
    decreases vs
  {
    if vs == [] then ""
    else
      var head := if vs[0].Null? || vs[0].Undefined? then "" else ToString(vs[0]);
      if |vs| == 1 then head else head + "," + JoinItems(vs[1..])
  }

  // ---------------------------------------------------------------------------
  // Facts about lookup, assignment and spread

  lemma {:induction false} LookupMissing(fs: seq<Field>, k: string)
    requires !HasKey(fs, k)
    ensures Lookup(fs, k) == Undefined
  {
    if fs != [] {
      LookupMissing(fs[..|fs| - 1], k);
    }
  }

  lemma {:induction false} LookupReplace(fs: seq<Field>, f: Field, k: string)
    ensures Lookup(Replace(fs, f), k) == if k == f.key && HasKey(fs, k) then f.val else Lookup(fs, k)
    ensures HasKey(Replace(fs, f), k) <==> HasKey(fs, k)
  {
    if fs != [] {
      var init := fs[..|fs| - 1];
      var r := Replace(fs, f);
      assert r[..|r| - 1] == Replace(init, f);
      LookupReplace(init, f, k);
      HasKeySnoc(init, fs[|fs| - 1], k);
      assert fs == init + [fs[|fs| - 1]];
      HasKeySnoc(Replace(init, f), r[|r| - 1], k);
      assert r == Replace(init, f) + [r[|r| - 1]];
      if k == f.key && HasKey(fs, k) && !HasKey(init, k) {
        assert fs[|fs| - 1].key == k;
      }
    }
  }

  lemma HasKeySnoc(fs: seq<Field>, f: Field, k: string)
    ensures HasKey(fs + [f], k) <==> HasKey(fs, k) || f.key == k
  {
    if HasKey(fs + [f], k) && f.key != k {
      var i :| 0 <= i < |fs| + 1 && (fs + [f])[i].key == k;
      assert fs[i].key == k;
    }
    if HasKey(fs, k) {
      var i :| 0 <= i < |fs| && fs[i].key == k;
      assert (fs + [f])[i].key == k;
    }
    if f.key == k {
      assert (fs + [f])[|fs|].key == k;
    }
  }

  /** Assignment changes exactly the assigned key. */
  lemma LookupAssign(fs: seq<Field>, f: Field, k: string)
    ensures Lookup(Assign(fs, f), k) == if k == f.key then f.val else Lookup(fs, k)
    ensures HasKey(Assign(fs, f), k) <==> HasKey(fs, k) || k == f.key
  {
    LookupReplace(fs, f, k);
    HasKeySnoc(fs, f, k);
    if !HasKey(fs, f.key) {
      assert (fs + [f])[..|fs|] == fs;
    }
  }

  lemma HasKeyCons(f: Field, fs: seq<Field>, k: string)
    ensures HasKey([f] + fs, k) <==> f.key == k || HasKey(fs, k)
  {
    if HasKey([f] + fs, k) && f.key != k {
      var i :| 0 <= i < |fs| + 1 && ([f] + fs)[i].key == k;
      assert fs[i - 1].key == k;
    }
    if HasKey(fs, k) {
      var i :| 0 <= i < |fs| && fs[i].key == k;
      assert ([f] + fs)[i + 1].key == k;
    }
    if f.key == k {
      assert ([f] + fs)[0].key == k;
    }
  }

  /** Lookup in a list with a new first entry: the later entries win over it. */
  lemma {:induction false} LookupCons(f: Field, fs: seq<Field>, k: string)
    ensures Lookup([f] + fs, k) == if HasKey(fs, k) then Lookup(fs, k) else if f.key == k then f.val else Undefined
  {
    if fs == [] {
      assert [f] + fs == [f];
      assert [f][..0] == [];
    } else {
      var whole := [f] + fs;
      var init := fs[..|fs| - 1];
      assert whole[..|whole| - 1] == [f] + init;
      assert whole[|whole| - 1] == fs[|fs| - 1];
      LookupCons(f, init, k);
      HasKeySnoc(init, fs[|fs| - 1], k);
      assert fs == init + [fs[|fs| - 1]];
    }
  }

  /**
   * `{...base, ...top}`: a key of `top` takes `top`'s value, every other key
   * keeps `base`'s value, and the keys are those of both.
   */
  lemma {:induction false} LookupOverlay(base: seq<Field>, top: seq<Field>, k: string)
    ensures Lookup(Overlay(base, top), k) == if HasKey(top, k) then Lookup(top, k) else Lookup(base, k)
    ensures HasKey(Overlay(base, top), k) <==> HasKey(base, k) || HasKey(top, k)
    decreases |top|
  {
    if top != [] {
      var rest := top[1..];
      LookupOverlay(Assign(base, top[0]), rest, k);
      LookupAssign(base, top[0], k);
      assert top == [top[0]] + rest;
      LookupCons(top[0], rest, k);
      HasKeyCons(top[0], rest, k);
    }
  }

  /** `{...v}`: a fresh object with `v`'s own properties. */
  function Spread(v: Value): seq<Field> {
    Overlay([], OwnProps(v))
  }

  /** A spread copy has exactly the keys and values of the original. */
  lemma LookupSpread(v: Value, k: string)
    ensures Lookup(Spread(v), k) == Lookup(OwnProps(v), k)
    ensures HasKey(Spread(v), k) <==> HasKey(OwnProps(v), k)
  {
    LookupOverlay([], OwnProps(v), k);
    if !HasKey(OwnProps(v), k) {
      LookupMissing(OwnProps(v), k);
    }
  }
}
