/** The small part of Python's value model that the tree's request and result
    dictionaries rely on: a JSON-like value, dictionary lookup with a default,
    truthiness, `len`, `str` and zero-padded decimal formatting. */
module Values {

  datatype Option<+T> = None | Some(value: T)

  /** A Python value as it travels in requests and results. `Set` stands for a
      Python set (or a list built from one, whose order Python leaves open). */
  datatype Value =
    | Null
    | Bool(b: bool)
    | Int(i: int)
    | Str(s: string)
    | List(items: seq<Value>)
    | Dict(fields: map<string, Value>)
    | Set(elems: set<Value>)

  /** Every request a node receives is a dictionary keyed by strings. */
  type Request = map<string, Value>

  /** `d.get(key, default)`: the stored value (even a stored None), else the default. */
  function Get(d: map<string, Value>, key: string, default: Value): (v: Value)
    ensures key in d ==> v == d[key]
    ensures key !in d ==> v == default
  {
    if key in d then d[key] else default
  }

  /** Python truthiness (`if v:`). */
  predicate Truthy(v: Value) {
    match v
    case Null => false
    case Bool(b) => b
    case Int(i) => i != 0
    case Str(s) => s != ""
    case List(items) => items != []
    case Dict(fields) => fields != map[]
    case Set(elems) => elems != {}
  }

  /** `len(v)`; None where Python raises TypeError. */
  function Len(v: Value): (n: Option<nat>)
    ensures n.None? <==> (v.Null? || v.Bool? || v.Int?)
  {
    match v
    case Str(s) => Some(|s|)
    case List(items) => Some(|items|)
    case Dict(fields) => Some(|fields|)
    case Set(elems) => Some(|elems|)
    case _ => None
  }

  /** `{**a, **b}`; None where Python raises because an operand is not a dictionary. */
  function Merge(a: Value, b: Value): (r: Option<Value>)
    ensures r.Some? <==> a.Dict? && b.Dict?
    ensures r.Some? ==> r.value.Dict?
  {
    if a.Dict? && b.Dict? then Some(Dict(a.fields + b.fields)) else None
  }

  /** A merged dictionary has the keys of both operands, and the right one wins
      on a key they share. */
  lemma MergeLookup(a: Value, b: Value, k: string)
    requires a.Dict? && b.Dict?
    ensures k in Merge(a, b).value.fields <==> k in a.fields || k in b.fields
    ensures k in b.fields ==> Merge(a, b).value.fields[k] == b.fields[k]
    ensures k in a.fields && k !in b.fields ==> Merge(a, b).value.fields[k] == a.fields[k]
  {
  }

  /** Only these values can be members of a Python set. */
  predicate Hashable(v: Value) {
    v.Null? || v.Bool? || v.Int? || v.Str?
  }

  /** The order in which `for x in v` visits a container whose order `Value` does
      not record: a dictionary's keys (insertion order) or a set's elements. The
      operations that iterate take it as an input. */
  type IterationOrder = Value -> seq<Value>

  /** A dictionary's keys, as iteration yields them. */
  function KeyValues(fields: map<string, Value>): set<Value> {
    set k | k in fields :: Str(k)
  }

  /** `xs` names every element of `s`, and each one only once. */
  predicate ListsOnce(xs: seq<Value>, s: set<Value>) {
    && (forall i, j :: 0 <= i < j < |xs| ==> xs[i] != xs[j])
    && (forall k :: 0 <= k < |xs| ==> xs[k] in s)
    && (forall x :: x in s ==> x in xs)
  }

  /** `order` visits the keys of `v` (a dictionary) or its elements (a set) once each. */
  predicate IteratesOnce(order: IterationOrder, v: Value) {
    && (v.Dict? ==> ListsOnce(order(v), KeyValues(v.fields)))
    && (v.Set? ==> ListsOnce(order(v), v.elems))
  }

  /** A list that names every element of a set once is as long as the set is large. */
  lemma {:induction false} ListsOnceLength(xs: seq<Value>, s: set<Value>)
    requires ListsOnce(xs, s)
    ensures |xs| == |s|
    decreases |xs|
  {
    if xs == [] {
      assert s == {};
    } else {
      var rest := s - {xs[0]};
      forall x | x in rest ensures x in xs[1..] {
        var k :| 0 <= k < |xs| && xs[k] == x;
        assert xs[1..][k - 1] == x;
      }
      forall k | 0 <= k < |xs[1..]| ensures xs[1..][k] in rest {
        assert xs[1..][k] == xs[k + 1] != xs[0];
      }
      ListsOnceLength(xs[1..], rest);
    }
  }

  /** A dictionary has as many distinct key values as it has keys. */
  lemma {:induction false} KeyValuesCount(fields: map<string, Value>)
    ensures |KeyValues(fields)| == |fields|
    decreases |fields|
  {
    if fields == map[] {
      assert KeyValues(fields) == {};
    } else {
      var k :| k in fields;
      var rest := fields - {k};
      assert fields.Keys == rest.Keys + {k};
      assert KeyValues(fields) == KeyValues(rest) + {Str(k)};
      KeyValuesCount(rest);
    }
  }

  function DigitChar(d: nat): char
    requires d < 10
  {
    "0123456789"[d]
  }

  /** The decimal digits of `n`, most significant first, without leading zeros. */
  function Digits(n: nat): (s: string)
    ensures |s| >= 1
    ensures forall k :: 0 <= k < |s| ==> '0' <= s[k] <= '9'
    ensures n >= 10 ==> s[0] != '0'
    decreases n
  {
    if n < 10 then [DigitChar(n)] else Digits(n / 10) + [DigitChar(n % 10)]
  }

  /** `str(i)` for an integer. */
  function IntToString(i: int): string {
    if i < 0 then "-" + Digits(-i) else Digits(i)
  }

  /** `f"{n:04d}"` for a non-negative n: zero-padded on the left to width 4. */
  function Pad4(n: nat): (s: string)
    ensures |s| >= 4
    ensures forall k :: 0 <= k < |s| ==> '0' <= s[k] <= '9'
  {
    var d := Digits(n);
    if |d| >= 4 then d else Zeros(4 - |d|) + d
  }

  function Zeros(k: nat): (s: string)
    ensures |s| == k && forall j :: 0 <= j < k ==> s[j] == '0'
  {
    if k == 0 then "" else "0" + Zeros(k - 1)
  }

  /** The value of a string of decimal digits (leading zeros allowed). */
  function ParseDigits(s: string): int
    requires forall k :: 0 <= k < |s| ==> '0' <= s[k] <= '9'
  {
    if s == [] then 0 else ParseDigits(s[..|s| - 1]) * 10 + (s[|s| - 1] - '0') as int
  }

  lemma DigitCharValue(d: nat)
    requires d < 10
    ensures (DigitChar(d) - '0') as int == d
  {
  }

  /** Reading back the digits of `n` gives `n`. */
  lemma {:induction false} ParseDigitsOfDigits(n: nat)
    ensures ParseDigits(Digits(n)) == n
    decreases n
  {
    var s := Digits(n);
    if n < 10 {
      DigitCharValue(n);
    } else {
      ParseDigitsOfDigits(n / 10);
      DigitCharValue(n % 10);
      assert s[..|s| - 1] == Digits(n / 10);
    }
  }

  /** Leading zeros do not change the value read. */
  lemma {:induction false} ParseDigitsLeadingZeros(k: nat, s: string)
    requires forall j :: 0 <= j < |s| ==> '0' <= s[j] <= '9'
    ensures ParseDigits(Zeros(k) + s) == ParseDigits(s)
    decreases |s|
  {
    var z := Zeros(k) + s;
    if s == [] {
      assert z == Zeros(k);
      ZerosParse(k);
    } else {
      assert z[..|z| - 1] == Zeros(k) + s[..|s| - 1];
      ParseDigitsLeadingZeros(k, s[..|s| - 1]);
    }
  }

  lemma {:induction false} ZerosParse(k: nat)
    ensures ParseDigits(Zeros(k)) == 0
  {
    if k > 0 {
      var z := Zeros(k);
      assert z[..|z| - 1] == Zeros(k - 1);
      ZerosParse(k - 1);
    }
  }

  /** Different numbers are padded to different strings. */
  lemma Pad4Injective(m: nat, n: nat)
    requires m != n
    ensures Pad4(m) != Pad4(n)
  {
    Pad4RoundTrip(m);
    Pad4RoundTrip(n);
  }

  /** Zero padding loses nothing: the padded digits still read as `n`. */
  lemma Pad4RoundTrip(n: nat)
    ensures ParseDigits(Pad4(n)) == n
  {
    var d := Digits(n);
    ParseDigitsOfDigits(n);
    if |d| < 4 {
      assert Pad4(n) == Zeros(4 - |d|) + d;
      ParseDigitsLeadingZeros(4 - |d|, d);
    } else {
      assert Pad4(n) == d;
    }
  }

  /** `str(v)` as an f-string renders it. Scalars are rendered as Python does;
      containers are rendered by a fixed placeholder. */
  function Show(v: Value): string {
    match v
    case Null => "None"
    case Bool(b) => if b then "True" else "False"
    case Int(i) => IntToString(i)
    case Str(s) => s
    case List(_) => "[...]"
    case Dict(_) => "{...}"
    case Set(_) => "{...}"
  }

  /** `f"{x}"` for an optional error string, which Python renders as "None" when absent. */
  function ShowError(e: Option<string>): string {
    match e
    case None => "None"
    case Some(s) => s
  }
}
