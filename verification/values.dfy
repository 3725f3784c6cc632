/** The structured, field-keyed values that states and action parameters are
    serialised to (Bencodex in the ledger). The byte encoding is not modelled,
    only the tree: a decoder sees the same tree the encoder built. */
module Values {
  import opened Base
  import opened Addresses

  datatype Key = TextKey(text: string) | IntKey(n: int)

  datatype Value =
    | Null
    | Boolean(b: bool)
    | Integer(n: int)
    | Text(s: string)
    | AddressBytes(address: Address)   // the 20 bytes of an address
    | List(items: seq<Value>)
    | Dict(entries: map<Key, Value>)

  /** `dict[key]`: a missing field is a structural error. */
  function Field(entries: map<Key, Value>, name: string): (r: Result<Value>)
    ensures r.Ok? <==> TextKey(name) in entries
    ensures r.Ok? ==> r.value == entries[TextKey(name)]
    ensures r.Err? ==> r.error == DecodeError
  {
    if TextKey(name) in entries then Ok(entries[TextKey(name)]) else Err(DecodeError)
  }

  /** `(int) ((Integer) v).Value`: the cast fails on a non-integer and on a
      value outside the 32-bit range. */
  function ToInt32(v: Value): (r: Result<Int32>)
    ensures r.Ok? <==> v.Integer? && IsInt32(v.n)
    ensures r.Ok? ==> r.value == v.n
  {
    if v.Integer? && IsInt32(v.n) then Ok(v.n) else Err(DecodeError)
  }

  /** The `long` counterpart of `ToInt32`. */
  function ToInt64(v: Value): (r: Result<Int64>)
    ensures r.Ok? <==> v.Integer? && IsInt64(v.n)
    ensures r.Ok? ==> r.value == v.n
  {
    if v.Integer? && IsInt64(v.n) then Ok(v.n) else Err(DecodeError)
  }

  /** `ToNullableInteger`: `Null` decodes to no value. */
  function ToNullableInt32(v: Value): (r: Result<Option<Int32>>)
    ensures r.Ok? <==> v.Null? || (v.Integer? && IsInt32(v.n))
    ensures r.Ok? && v.Null? ==> r.value == None
    ensures r.Ok? && v.Integer? ==> r.value == Some(v.n)
  {
    if v.Null? then Ok(None) else if v.Integer? && IsInt32(v.n) then Ok(Some(v.n)) else Err(DecodeError)
  }

  function ToBool(v: Value): (r: Result<bool>)
    ensures r.Ok? <==> v.Boolean?
    ensures r.Ok? ==> r.value == v.b
  {
    if v.Boolean? then Ok(v.b) else Err(DecodeError)
  }

  function ToText(v: Value): (r: Result<string>)
    ensures r.Ok? <==> v.Text?
    ensures r.Ok? ==> r.value == v.s
  {
    if v.Text? then Ok(v.s) else Err(DecodeError)
  }

  function ToAddress(v: Value): (r: Result<Address>)
    ensures r.Ok? <==> v.AddressBytes?
    ensures r.Ok? ==> r.value == v.address
  {
    if v.AddressBytes? then Ok(v.address) else Err(DecodeError)
  }

  function ToDict(v: Value): (r: Result<map<Key, Value>>)
    ensures r.Ok? <==> v.Dict?
    ensures r.Ok? ==> r.value == v.entries
  {
    if v.Dict? then Ok(v.entries) else Err(DecodeError)
  }

  function EncodeNullableInt32(x: Option<Int32>): Value
  {
    match x
    case None => Null
    case Some(n) => Integer(n)
  }

  lemma NullableInt32RoundTrip(x: Option<Int32>)
    ensures ToNullableInt32(EncodeNullableInt32(x)) == Ok(x)
  {
  }

  /** An action's plain value: its parameters by name. */
  type PlainDictionary = map<string, Value>

  /** `plainValue[name]`: a missing name aborts the load. */
  function Lookup(plain: PlainDictionary, name: string): (r: Result<Value>)
    ensures r.Ok? <==> name in plain
    ensures r.Ok? ==> r.value == plain[name]
    ensures r.Err? ==> r.error == DecodeError
  {
    if name in plain then Ok(plain[name]) else Err(DecodeError)
  }
}
