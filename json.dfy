/** The JSON values kept in the key-value store and exchanged with clients, with the
    few pieces of JavaScript semantics the handlers rely on: truthiness, property
    reads, `x || default`, and the string a template literal makes of a value. */
module Json {
  import opened Wrappers

  datatype Json =
    | Null
    | Bool(b: bool)
    | Num(n: int)
    | Str(s: string)
    | Arr(items: seq<Json>)
    | Obj(fields: map<string, Json>)

  /** JavaScript truthiness of a value that may be `undefined` (None). */
  predicate Truthy(v: Option<Json>) {
    match v
    case None => false
    case Some(Null) => false
    case Some(Bool(b)) => b
    case Some(Num(n)) => n != 0
    case Some(Str(s)) => s != ""
    case Some(_) => true
  }

  /** `o[name]` for a value `o` that is not null, and a field name that is not a
      built-in property: `undefined` unless `o` is an object carrying that field. */
  function Prop(o: Json, name: string): (r: Option<Json>)
    ensures r.Some? <==> o.Obj? && name in o.fields
    ensures r.Some? ==> r.value == o.fields[name]
  {
    if o.Obj? && name in o.fields then Some(o.fields[name]) else None
  }

  /** `obj[name]` on a JSON object given as its field map. */
  function Field(obj: map<string, Json>, name: string): Option<Json> {
    if name in obj then Some(obj[name]) else None
  }

  /** `v || fallback` */
  function Or(v: Option<Json>, fallback: Json): (r: Json)
    ensures Truthy(v) ==> r == v.value
    ensures !Truthy(v) ==> r == fallback
  {
    if Truthy(v) then v.value else fallback
  }

  /** `v || fallback` is truthy exactly when one of its sides is, so a truthy default
      always yields a usable value; applying the same default again changes nothing. */
  lemma OrTruthiness(v: Option<Json>, fallback: Json)
    ensures Truthy(Some(Or(v, fallback))) <==> Truthy(v) || Truthy(Some(fallback))
    ensures Or(Some(Or(v, fallback)), fallback) == Or(v, fallback)
  {
  }

  // ---------------------------------------------------------------------------
  // Decimal rendering of integers (Number.prototype.toString for integers)

  function Digit(d: int): (c: char)
    requires 0 <= d < 10
    ensures '0' <= c <= '9'
  {
    "0123456789"[d]
  }

  function DigitValue(c: char): int {
    c as int - '0' as int
  }

  predicate AllDigits(s: string) {
    forall i :: 0 <= i < |s| ==> '0' <= s[i] <= '9'
  }

  /** The number a string of decimal digits denotes. */
  function DigitsValue(s: string): nat
    requires AllDigits(s)
  {
    if s == [] then 0
    else DigitsValue(s[..|s| - 1]) * 10 + DigitValue(s[|s| - 1])
  }

  function Pow10(k: nat): (r: nat)
    ensures r >= 1
  {
    if k == 0 then 1 else 10 * Pow10(k - 1)
  }

  /** `n.toString()` for a natural number: the shortest decimal rendering. */
  function NatText(n: nat): (s: string)
    ensures |s| >= 1 && AllDigits(s)
    ensures DigitsValue(s) == n
    ensures |s| > 1 ==> s[0] != '0'
  {
    if n < 10 then [Digit(n)]
    else
      var hi := NatText(n / 10);
      var s := hi + [Digit(n % 10)];
      assert s[..|s| - 1] == hi && s[0] == hi[0];
      assert DigitValue(s[|s| - 1]) == n % 10;
      assert DigitsValue(s) == DigitsValue(hi) * 10 + n % 10;
      s
  }

  /** `n.toString()` for an integer. */
  function IntText(n: int): string {
    if n < 0 then "-" + NatText(-n) else NatText(n)
  }

  /** Splitting a digit string before its last `k` digits splits its value: the last `k`
      digits are the low-order part, below 10^k. This is what `toString().slice(-k)`
      keeps of a number. */
  lemma {:induction false} SuffixValue(s: string, k: nat)
    requires AllDigits(s) && k <= |s|
    ensures AllDigits(s[..|s| - k]) && AllDigits(s[|s| - k..])
    ensures DigitsValue(s) == DigitsValue(s[..|s| - k]) * Pow10(k) + DigitsValue(s[|s| - k..])
    ensures DigitsValue(s[|s| - k..]) < Pow10(k)
  {
    var head, t := s[..|s| - k], s[|s| - k..];
    assert AllDigits(head) && AllDigits(t);
    if k == 0 {
      assert head == s && t == [];
    } else {
      var init := s[..|s| - 1];
      var t' := init[|init| - (k - 1)..];
      assert head == init[..|init| - (k - 1)];
      assert t[..|t| - 1] == t' && t[|t| - 1] == s[|s| - 1];
      var d := DigitValue(s[|s| - 1]);
      SuffixValue(init, k - 1);
      assert DigitsValue(s) == DigitsValue(init) * 10 + d;
      assert DigitsValue(t) == DigitsValue(t') * 10 + d;
      assert Pow10(k) == Pow10(k - 1) * 10;
      ShiftDigit(DigitsValue(head), Pow10(k - 1), DigitsValue(t'), d);
    }
  }

  /** Appending a digit d to a value a·m + v (v below m) gives a·(10m) + (10v + d),
      with the new low part below 10m. */
  lemma ShiftDigit(a: int, m: int, v: int, d: int)
    requires 0 <= v < m && 0 <= d < 10
    ensures (a * m + v) * 10 + d == a * (m * 10) + (v * 10 + d)
    ensures 0 <= v * 10 + d < m * 10
  {
  }

  /** The last `k` digits of a digit string denote its value modulo 10^k. */
  lemma SuffixMod(s: string, k: nat)
    requires AllDigits(s) && k <= |s|
    ensures AllDigits(s[|s| - k..])
    ensures DigitsValue(s[|s| - k..]) == DigitsValue(s) % Pow10(k)
  {
    SuffixValue(s, k);
    ModUnique(DigitsValue(s), DigitsValue(s[..|s| - k]), DigitsValue(s[|s| - k..]), Pow10(k));
  }

  lemma ModUnique(x: int, q: int, r: int, m: int)
    requires m > 0 && 0 <= r < m && x == q * m + r
    ensures x % m == r && x / m == q
  {
    var q', r' := x / m, x % m;
    assert x == q' * m + r';
    assert (q - q') * m == r' - r;
    if q - q' >= 1 { MulAtLeast(q - q', m); }
    if q' - q >= 1 { MulAtLeast(q' - q, m); }
  }

  lemma MulAtLeast(a: int, m: int)
    requires a >= 1 && m > 0
    ensures a * m >= m
  {
    if a > 1 { MulAtLeast(a - 1, m); assert a * m == (a - 1) * m + m; }
  }

  // ---------------------------------------------------------------------------
  // String conversion as done by a template literal `${v}`

  /** `${v}`: how a value read from a record is rendered inside a key string. */
  function Text(v: Option<Json>): string {
    match v
    case None => "undefined"
    case Some(j) => JsonText(j)
  }

  function JsonText(j: Json): string
    decreases j, 1
  {
    match j
    case Null => "null"
    case Bool(b) => if b then "true" else "false"
    case Num(n) => IntText(n)
    case Str(s) => s
    case Arr(_) => JoinItems(j, 0)
    case Obj(_) => "[object Object]"
  }

  /** `Array.prototype.join(',')` from position k on, where null items render as "". */
  function JoinItems(j: Json, k: nat): string
    requires j.Arr?
    decreases j, 0, |j.items| - k
  {
    if k >= |j.items| then ""
    else
      var item := if j.items[k] == Null then "" else JsonText(j.items[k]);
      if k + 1 == |j.items| then item else item + "," + JoinItems(j, k + 1)
  }

  /** A string value renders as itself: the only case the handlers' own writes produce. */
  lemma TextOfString(s: string)
    ensures Text(Some(Str(s))) == s
  {
  }
}
