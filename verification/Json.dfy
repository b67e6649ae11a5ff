/** JSON values as the program holds them after parsing, and the accessors it uses on them. */
module JsonValues {
  import opened Basics

  const U32_MAX: nat := 0xFFFF_FFFF
  const U64_MAX: nat := 0xFFFF_FFFF_FFFF_FFFF

  type Fields = seq<Field>

  datatype Field = Field(key: string, value: Json)

  /** An `Integer` fits 64 bits; any other number is a `Fraction`, kept as it prints. Fields keep their order. */
  datatype Json =
    | Null
    | Bool(b: bool)
    | Integer(n: int)
    | Fraction(printed: string)
    | Text(text: string)
    | List(items: seq<Json>)
    | Object(fields: Fields)

  function Lookup(fields: Fields, key: string): Option<Json>
    decreases |fields|
  {
    if fields == [] then None
    else if fields[0].key == key then Some(fields[0].value)
    else Lookup(fields[1..], key)
  }

  function Get(json: Json, key: string): Option<Json> {
    if json.Object? then Lookup(json.fields, key) else None
  }

  function Member(json: Json, key: string): Json {
    match Get(json, key)
    case Some(member) => member
    case None => Null
  }

  function Insert(fields: Fields, key: string, member: Json): Fields
    decreases |fields|
  {
    if fields == [] then [Field(key, member)]
    else if fields[0].key == key then [Field(key, member)] + fields[1..]
    else [fields[0]] + Insert(fields[1..], key, member)
  }

  function Without(fields: Fields, keys: set<string>): Fields
    decreases |fields|
  {
    if fields == [] then []
    else if fields[0].key in keys then Without(fields[1..], keys)
    else [fields[0]] + Without(fields[1..], keys)
  }

  function AsStr(json: Json): Option<string> {
    if json.Text? then Some(json.text) else None
  }

  function AsU64(json: Json): Option<nat> {
    if json.Integer? && 0 <= json.n <= U64_MAX then Some(json.n) else None
  }

  function AsU32(json: Json): Option<nat> {
    if json.Integer? && 0 <= json.n <= U32_MAX then Some(json.n) else None
  }

  lemma {:induction false} LookupAfterInsert(fields: Fields, key: string, member: Json, other: string)
    ensures Lookup(Insert(fields, key, member), other) == if other == key then Some(member) else Lookup(fields, other)
    decreases |fields|
  {
    if fields != [] && fields[0].key != key {
      LookupAfterInsert(fields[1..], key, member, other);
      assert Insert(fields, key, member)[1..] == Insert(fields[1..], key, member);
    }
  }

  lemma {:induction false} LookupWithout(fields: Fields, keys: set<string>, key: string)
    ensures Lookup(Without(fields, keys), key) == if key in keys then None else Lookup(fields, key)
    decreases |fields|
  {
    if fields != [] {
      LookupWithout(fields[1..], keys, key);
    }
  }
}
