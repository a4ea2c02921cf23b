/** JavaScript values as they travel through JSON bodies, with the
    language's truthiness, its `||` operator and property access. */
module Json {
  import opened Common

  /** Numbers are reals: NaN and the infinities are not modelled. */
  datatype Json =
    | Undefined
    | Null
    | Bool(b: bool)
    | Num(n: real)
    | Str(s: string)
    | Arr(items: seq<Json>)
    | Obj(fields: map<string, Json>)

  /** JavaScript truthiness: undefined, null, false, 0 and "" are falsy;
      every array and every object is truthy. */
  predicate Truthy(v: Json)
    // exactly five values are falsy
    ensures !Truthy(v) <==> v in {Undefined, Null, Bool(false), Num(0.0), Str("")}
  {
    match v
    case Undefined => false
    case Null => false
    case Bool(b) => b
    case Num(n) => n != 0.0
    case Str(s) => s != ""
    case Arr(_) => true
    case Obj(_) => true
  }

  /** `a || b`: the left operand when it is truthy, the right one otherwise. */
  function Or(a: Json, b: Json): (r: Json)
    ensures Truthy(a) ==> r == a
    ensures !Truthy(a) ==> r == b
  {
    if Truthy(a) then a else b
  }

  /** `v || null`: a falsy value becomes null, a truthy one is kept. */
  function OrNull(v: Json): (r: Json)
    ensures Truthy(v) ==> r == v
    ensures !Truthy(v) ==> r == Null
    ensures Truthy(r) <==> Truthy(v)
  {
    Or(v, Null)
  }

  /** `v.key`: reading a property of null or undefined throws (None);
      a key an object lacks, or a key of a primitive, reads as undefined. */
  function Get(v: Json, key: string): (r: Option<Json>)
    ensures r.None? <==> v in {Undefined, Null}
    ensures v.Obj? && key in v.fields ==> r == Some(v.fields[key])
    ensures v.Obj? && key !in v.fields ==> r == Some(Undefined)
  {
    match v
    case Undefined => None
    case Null => None
    case Obj(fields) => Some(if key in fields then fields[key] else Undefined)
    case _ => Some(Undefined)
  }

  /** `v?.key`: optional chaining never throws; null or undefined give undefined. */
  function OptGet(v: Json, key: string): (r: Json)
    ensures v in {Undefined, Null} ==> r == Undefined
    ensures Get(v, key).Some? ==> r == Get(v, key).value
  {
    match Get(v, key)
    case None => Undefined
    case Some(x) => x
  }

  /** An object with a single string-valued property, like `{ error: msg }`. */
  function Message(key: string, text: string): Json {
    Obj(map[key := Str(text)])
  }
}
