/** The signature generator (`generate_signature`, server.py:74-76): the
    data is put in canonical form (JSON with sorted keys) and hashed, and the
    first 16 hex characters of the digest are kept. Here the canonical form
    is a `Value` tree whose objects list their keys in sorted order, and the
    hash is a deterministic stand-in for SHA-256 with the same output shape. */
module Fingerprint {

  import opened Wrappers

  /** A JSON document. An object is a list of keys with the list of their
      values, the keys in the sorted order `json.dumps(sort_keys=True)` uses. */
  datatype Value =
    | Null
    | Bool(b: bool)
    | Num(x: real)
    | Str(s: string)
    | List(items: seq<Value>)
    | Object(keys: seq<string>, vals: seq<Value>)

  /** Builds an object from key/value entries written in sorted key order. */
  function Obj(entries: seq<(string, Value)>): (v: Value)
    ensures v.Object? && |v.keys| == |v.vals| == |entries|
  {
    Object(seq(|entries|, i requires 0 <= i < |entries| => entries[i].0),
           seq(|entries|, i requires 0 <= i < |entries| => entries[i].1))
  }

  /** A key whose value is a string, present only when the value is. */
  function OptStr(key: string, value: Option<string>): seq<(string, Value)> {
    match value
    case None => []
    case Some(s) => [(key, Str(s))]
  }

  /** A key that is always present, whose value may be JSON `null`. */
  function StrOrNull(value: Option<string>): Value {
    match value
    case None => Null
    case Some(s) => Str(s)
  }

  const Modulus: nat := 0x1_0000_0000_0000_0000

  function TextCode(s: string): nat {
    if s == [] then 7 else (TextCode(s[1..]) * 31 + s[0] as nat + 1) % Modulus
  }

  /** The stand-in for hashing the canonical JSON text of `v`. */
  function Code(v: Value): nat
    decreases v
  {
    match v
    case Null => 1
    case Bool(b) => if b then 2 else 3
    case Num(x) => if x.Floor < 0 then (-2 * x.Floor + 5) % Modulus else (2 * x.Floor + 4) % Modulus
    case Str(s) => (TextCode(s) * 5 + 6) % Modulus
    case List(items) => ListCode(items)
    case Object(keys, vals) => (ListCode(vals) * 11 + KeysCode(keys)) % Modulus
  }

  function KeysCode(keys: seq<string>): nat {
    if keys == [] then 17 else (KeysCode(keys[1..]) * 41 + TextCode(keys[0])) % Modulus
  }

  function ListCode(items: seq<Value>): nat
    decreases items
  {
    if items == [] then 13 else (ListCode(items[1..]) * 37 + Code(items[0])) % Modulus
  }

  predicate IsHexDigit(c: char) { '0' <= c <= '9' || 'a' <= c <= 'f' }

  const HexDigits: string := "0123456789abcdef"

  /** The lowest `width` hex digits of `n`, most significant first. */
  function Hex(n: nat, width: nat): (r: string)
    ensures |r| == width
    ensures forall i :: 0 <= i < |r| ==> IsHexDigit(r[i])
  {
    if width == 0 then "" else Hex(n / 16, width - 1) + [HexDigits[n % 16]]
  }

  /** `generate_signature(data)`: 16 lowercase hex characters, a function of
      the canonical form of the data alone. */
  function Sig(v: Value): (r: string)
    ensures |r| == 16
    ensures forall i :: 0 <= i < |r| ==> IsHexDigit(r[i])
  {
    Hex(Code(v), 16)
  }
}
