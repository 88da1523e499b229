/**
 * The JavaScript values the step actions read and write in a session's
 * `dados` object, with the parts of the language they use: truthiness,
 * property reads (which throw a TypeError on `undefined` and `null`),
 * property writes, indexing, and the string conversion of template literals.
 * Objects are values here: every object the flows store is reachable from one
 * place only, so copying it instead of sharing it changes nothing they can see.
 */
module JsValue {
  import opened Wrappers
  import opened JsText

  datatype Value =
    | Undef
    | Null
    | Bool(b: bool)
    | Num(n: int)
    | NaN
    | Str(s: string)
    | List(items: seq<Value>)
    | Obj(fields: map<string, Value>)
    | Func(nome: string)      // a built-in function, known by its name

  /** The session's `dados` object. */
  type Dados = map<string, Value>

  predicate Nullish(v: Value) {
    v.Undef? || v.Null?
  }

  /** `if (v)`. */
  predicate Truthy(v: Value) {
    match v
    case Undef => false
    case Null => false
    case Bool(b) => b
    case Num(n) => n != 0
    case NaN => false
    case Str(s) => s != ""
    case List(_) => true
    case Obj(_) => true
    case Func(_) => true
  }

  /** `dados.k`: a missing key reads as `undefined`. */
  function Get(d: Dados, k: string): (v: Value)
    ensures k !in d ==> v == Undef
    ensures k in d ==> v == d[k]
  {
    if k in d then d[k] else Undef
  }

  /** `dados.k = x` followed by `dados.k2`: the written key reads `x`, every other key reads as before. */
  lemma GetAtualizado(d: Dados, k: string, x: Value, k2: string)
    ensures Get(d[k := x], k2) == if k2 == k then x else Get(d, k2)
  {
  }

  /** The properties every object literal inherits from `Object.prototype`. */
  const PropriedadesHerdadas: set<string> :=
    {"constructor", "hasOwnProperty", "isPrototypeOf", "propertyIsEnumerable", "toLocaleString", "toString",
     "valueOf", "__proto__", "__defineGetter__", "__defineSetter__", "__lookupGetter__", "__lookupSetter__"}

  /**
   * The value of an inherited property: `__proto__` is `Object.prototype`
   * itself, `constructor` is the function `Object`, and the rest are methods.
   */
  function Herdada(k: string): (v: Value)
    ensures Truthy(v)
  {
    if k == "__proto__" then Obj(map[]) else if k == "constructor" then Func("Object") else Func(k)
  }

  /** Whether a bracket lookup also finds what the object inherits (as JavaScript does) or only its own keys. */
  datatype Busca = ComHeranca | SoProprias

  /**
   * `tabela[k]` on an object literal whose own properties are `tabela`: its
   * own keys first, then, with `ComHeranca`, the inherited properties.
   */
  function Consultar(b: Busca, tabela: map<string, Value>, k: string): (v: Value)
    ensures k in tabela ==> v == tabela[k]
    ensures k !in tabela && (b.SoProprias? || k !in PropriedadesHerdadas) ==> v == Undef
    ensures k !in tabela && b.ComHeranca? && k in PropriedadesHerdadas ==> v == Herdada(k) && Truthy(v)
  {
    if k in tabela then tabela[k]
    else if b.ComHeranca? && k in PropriedadesHerdadas then Herdada(k)
    else Undef
  }

  /**
   * `v.k` for a property name the scripts use (none of them is inherited from
   * `Object.prototype`): `None` is the TypeError thrown on `undefined`/`null`.
   */
  function Prop(v: Value, k: string): (r: Option<Value>)
    ensures r.None? <==> Nullish(v)
    ensures v.Obj? ==> r == Some(if k in v.fields then v.fields[k] else Undef)
  {
    match v
    case Undef => None
    case Null => None
    case Obj(f) => Some(if k in f then f[k] else Undef)
    case Str(s) => Some(if k == "length" then Num(Utf16Length(s)) else Undef)
    case List(xs) => Some(if k == "length" then Num(|xs|) else Undef)
    case _ => Some(Undef)
  }

  /**
   * `v[i]` with a number index (`None` for `NaN`): an array element, a
   * one-character string, or the object property named by the number.
   * `None` as the result is the TypeError on `undefined`/`null`.
   */
  function Index(v: Value, i: Option<int>): (r: Option<Value>)
    ensures r.None? <==> Nullish(v)
    ensures v.List? && i.Some? && 0 <= i.value < |v.items| ==> r == Some(v.items[i.value])
    ensures v.List? && !(i.Some? && 0 <= i.value < |v.items|) ==> r == Some(Undef)
  {
    match v
    case Undef => None
    case Null => None
    case List(xs) => Some(if i.Some? && 0 <= i.value < |xs| then xs[i.value] else Undef)
    case Str(s) => Some(if i.Some? && 0 <= i.value < |s| then Str([s[i.value]]) else Undef)
    case Obj(f) =>
      var k := if i.Some? then IntToString(i.value) else "NaN";
      Some(if k in f then f[k] else Undef)
    case _ => Some(Undef)
  }

  /**
   * `v.k = x`: a new object with the property set; writing to `undefined` or
   * `null` throws (`None`), writing to any other value is silently lost.
   */
  function SetProp(v: Value, k: string, x: Value): (r: Option<Value>)
    ensures r.None? <==> Nullish(v)
    ensures v.Obj? ==> r == Some(Obj(v.fields[k := x]))
    ensures !v.Obj? && !Nullish(v) ==> r == Some(v)
  {
    match v
    case Undef => None
    case Null => None
    case Obj(f) => Some(Obj(f[k := x]))
    case _ => Some(v)
  }

  /** Reading back a property just written gives the written value; other properties keep theirs. */
  lemma PropSetProp(o: map<string, Value>, k: string, x: Value, k2: string)
    ensures SetProp(Obj(o), k, x).Some?
    ensures Prop(SetProp(Obj(o), k, x).value, k2) == (if k2 == k then Some(x) else Prop(Obj(o), k2))
  {
  }

  /** `${v}` inside a template literal. */
  function ToText(v: Value): (t: string)
    ensures v.Str? ==> t == v.s
  {
    match v
    case Undef => "undefined"
    case Null => "null"
    case Bool(b) => if b then "true" else "false"
    case Num(n) => IntToString(n)
    case NaN => "NaN"
    case Str(s) => s
    case List(xs) => ItemsText(xs)
    case Obj(_) => "[object Object]"
    case Func(nome) => "function " + nome + "() { [native code] }"
  }

  /** `Array.prototype.toString`: the items joined by `,`, with `undefined` and `null` as empty text. */
  function ItemsText(xs: seq<Value>): string
    decreases xs, 0
  {
    if xs == [] then ""
    else
      var first := if Nullish(xs[0]) then "" else ToText(xs[0]);
      if |xs| == 1 then first else first + "," + ItemsText(xs[1..])
  }

  /** `${n}` of a whole number: its decimal digits, read back by `parseInt`. */
  lemma NumText(n: int)
    ensures ParseInt(ToText(Num(n))) == Some(n)
  {
    ParseIntToString(n);
  }

  /** `${d}` of a single decimal digit is that digit. */
  lemma DigitText(d: int)
    requires 0 <= d < 10
    ensures ToText(Num(d)) == [DigitChar(d)]
  {
  }

  /** `v.split(sep)`: only strings have the method; calling it on anything else throws (`None`). */
  function CallSplit(v: Value, sep: char): (r: Option<seq<string>>)
    ensures r.Some? <==> v.Str?
    ensures r.Some? ==> |r.value| >= 1
  {
    if v.Str? then Some(Split(v.s, sep)) else None
  }

  /** A list of strings, as the scripts build with array literals. */
  function Strings(ss: seq<string>): (v: Value)
    ensures v.List? && |v.items| == |ss|
    ensures forall i :: 0 <= i < |ss| ==> v.items[i] == Str(ss[i])
  {
    if ss == [] then List([]) else List([Str(ss[0])] + Strings(ss[1..]).items)
  }
}
