/** ROS 2 message definitions and values as the Python codec sees them, and the value a
    message is decoded to: missing fields defaulted, fixed arrays padded or cut, bounded
    arrays cut. */
module CdrTypes {
  import opened Bytes

  // ---------- definitions ----------

  datatype Primitive =
    | BoolType | ByteType | CharType | Float32 | Float64
    | Int8 | UInt8 | Int16 | UInt16 | Int32 | UInt32 | Int64 | UInt64 | StringType | WStringType

  datatype Base = Basic(primitive: Primitive) | Complex(name: bytes)

  /** A single value, or an array of fixed, bounded or unbounded length. */
  datatype Shape = Single | Fixed(size: nat) | Bounded(limit: nat) | Unbounded

  /** A value of a primitive type; floating-point numbers are bit patterns. */
  datatype Scalar = BoolValue(b: bool) | IntValue(n: int) | FloatValue(bits: nat) | StringValue(s: bytes)

  datatype Default = NoDefault | OneDefault(value: Scalar) | ListDefault(values: seq<Scalar>)

  datatype Field = Field(name: bytes, base: Base, shape: Shape, default: Default)

  /** Message definitions by name. */
  type Definitions = map<bytes, seq<Field>>

  /** No message contains itself: nested definitions have a lower rank. */
  ghost predicate Acyclic(defs: Definitions, rank: map<bytes, nat>) {
    && defs.Keys <= rank.Keys
    && forall name :: name in defs ==> Below(defs, rank, defs[name], rank[name])
  }

  ghost predicate Below(defs: Definitions, rank: map<bytes, nat>, fields: seq<Field>, owner: nat) {
    defs.Keys <= rank.Keys &&
    forall i :: 0 <= i < |fields| && fields[i].base.Complex? && fields[i].base.name in defs ==> rank[fields[i].base.name] < owner
  }

  // ---------- what the caller passes ----------

  /** Python values: tuples stand for every sequence that is copied to a list first. */
  datatype Value =
    | Nothing
    | Plain(scalar: Scalar)
    | ByteString(data: bytes)
    | List(items: seq<Value>)
    | Tuple(items: seq<Value>)
    | Object(fields: map<bytes, Value>)

  /** Python's conversions, which may raise. Floats come back in the width asked for. */
  datatype Conversions = Conversions(
    str: Value -> Option<bytes>,
    float: (Value, nat) -> Option<nat>,
    int_: Value -> Option<int>,
    bool_: Value -> Option<bool>)

  /** A dictionary entry or attribute, or nothing. */
  function Property(v: Value, name: bytes): Value {
    if v.Object? && name in v.fields then v.fields[name] else Nothing
  }

  predicate Falsy(v: Value) {
    match v
    case Nothing => true
    case Plain(BoolValue(b)) => !b
    case Plain(IntValue(n)) => n == 0
    case Plain(FloatValue(bits)) => bits == 0 || bits == 0x8000_0000_0000_0000
    case Plain(StringValue(s)) => s == []
    case ByteString(d) => d == []
    case List(xs) => xs == []
    case Tuple(xs) => xs == []
    case Object(m) => m == map[]
  }

  function OrEmpty(v: Value): Value {
    if Falsy(v) then Object(map[]) else v
  }

  // ---------- coercion ----------

  predicate IsFloat(t: Primitive) {
    t.Float32? || t.Float64?
  }

  predicate IsString(t: Primitive) {
    t.StringType? || t.WStringType?
  }

  /** Bytes a value of the type takes. */
  function Width(t: Primitive): (w: nat)
    ensures w == 1 || w == 2 || w == 4 || w == 8
  {
    match t
    case BoolType => 1
    case ByteType => 1
    case CharType => 1
    case Int8 => 1
    case UInt8 => 1
    case Int16 => 2
    case UInt16 => 2
    case Int64 => 8
    case UInt64 => 8
    case Float64 => 8
    case _ => 4
  }

  /** What a missing value becomes without a default. */
  function Zero(t: Primitive): Scalar {
    if IsString(t) then StringValue([])
    else if IsFloat(t) then FloatValue(0)
    else if t.BoolType? then BoolValue(false)
    else IntValue(0)
  }

  function Converted(env: Conversions, v: Value, t: Primitive): Option<Scalar> {
    if IsString(t) then
      var s :- env.str(v);
      Some(StringValue(s))
    else if IsFloat(t) then
      var bits :- env.float(v, Width(t));
      Some(FloatValue(bits))
    else if t.BoolType? then
      var b :- env.bool_(v);
      Some(BoolValue(b))
    else
      var n :- env.int_(v);
      Some(IntValue(n))
  }

  /** `_coerce_value`: converted, or the default, or zero. A list default raises. */
  function Coerce(env: Conversions, v: Value, t: Primitive, d: Default): Option<Scalar> {
    if d.ListDefault? then None
    else if v != Nothing then Converted(env, v, t)
    else Some(if d.OneDefault? then d.value else Zero(t))
  }

  function CoerceAll(env: Conversions, vs: seq<Value>, t: Primitive, d: Default): (r: Option<seq<Scalar>>)
    ensures r.Some? ==> |r.value| == |vs|
    decreases |vs|
  {
    if vs == [] then Some([])
    else
      var before :- CoerceAll(env, vs[..|vs| - 1], t, d);
      var last :- Coerce(env, vs[|vs| - 1], t, d);
      Some(before + [last])
  }

  // ---------- array lengths ----------

  /** Exactly `n` elements: cut, or filled up. */
  function Resized<T>(xs: seq<T>, n: nat, fill: T): (r: seq<T>)
    ensures |r| == n
  {
    seq(n, i requires 0 <= i < n => if i < |xs| then xs[i] else fill)
  }

  /** The elements an array of the given shape is written with. */
  function Shaped<T>(xs: seq<T>, shape: Shape, fill: T): (r: seq<T>)
    ensures shape.Fixed? ==> |r| == shape.size
    ensures shape.Bounded? ==> |r| <= shape.limit
  {
    match shape
    case Fixed(n) => Resized(xs, n, fill)
    case Bounded(n) => if |xs| > n then xs[..n] else xs
    case _ => xs
  }

  /** The messages of an array field; anything but a list raises. */
  function ItemsOf(v: Value, shape: Shape): (r: Option<seq<Value>>)
    ensures r.Some? && shape.Fixed? ==> |r.value| == shape.size
  {
    if v.Nothing? then Some(Shaped([], shape, Object(map[])))
    else if v.List? then Some(Shaped(v.items, shape, Object(map[])))
    else None
  }

  predicate IsOctet(t: Primitive) {
    t.UInt8? || t.ByteType?
  }

  /** The elements of a primitive array: raw bytes, or values to coerce one by one. */
  datatype Elements = Octets(data: bytes) | Each(values: seq<Value>)

  function ElementsOf(v: Value, t: Primitive, shape: Shape): Option<Elements> {
    match v
    case Nothing => Some(Each(Shaped([], shape, Nothing)))
    case List(xs) => Some(Each(Shaped(xs, shape, Nothing)))
    case Tuple(xs) => Some(Each(Shaped(xs, shape, Nothing)))
    case ByteString(d) => if IsOctet(t) then Some(Octets(Shaped(d, shape, 0))) else None
    case _ => None
  }

  // ---------- the decoded value ----------

  datatype Decoded =
    | One(scalar: Scalar)
    | Many(scalars: seq<Scalar>)
    | Blob(data: bytes)
    | Message(fields: seq<(bytes, Decoded)>)
    | Messages(items: seq<Decoded>)

  /** Whether all scalars are integers that fit a byte. */
  predicate AllOctets(xs: seq<Scalar>) {
    forall i :: 0 <= i < |xs| ==> xs[i].IntValue? && 0 <= xs[i].n < 256
  }

  function OctetsOf(xs: seq<Scalar>): (r: bytes)
    requires AllOctets(xs)
    ensures |r| == |xs|
  {
    seq(|xs|, i requires 0 <= i < |xs| => xs[i].n as byte)
  }

  /** A primitive array as it is decoded: byte arrays come back as bytes. */
  function NormalArray(env: Conversions, e: Elements, t: Primitive, d: Default): Option<Decoded> {
    match e
    case Octets(data) => Some(Blob(data))
    case Each(vs) =>
      var xs :- CoerceAll(env, vs, t, d);
      if !IsOctet(t) then Some(Many(xs)) else if AllOctets(xs) then Some(Blob(OctetsOf(xs))) else None
  }

  /** The value a field of `v` is decoded to. */
  function NormalField(env: Conversions, defs: Definitions, ghost rank: map<bytes, nat>, ghost owner: nat, f: Field, v: Value)
    : Option<Decoded>
    requires Acyclic(defs, rank) && Below(defs, rank, [f], owner)
    decreases owner, 0, 0
  {
    var p := Property(v, f.name);
    match f.base
    case Complex(name) =>
      if name !in defs then None
      else
        assert [f][0] == f;
        if f.shape.Single? then NormalMessage(env, defs, rank, name, OrEmpty(p))
        else
          var items :- ItemsOf(p, f.shape);
          var ds :- NormalItems(env, defs, rank, name, items);
          Some(Messages(ds))
    case Basic(t) =>
      if f.shape.Single? then
        var x :- Coerce(env, p, t, f.default);
        Some(One(x))
      else
        var e :- ElementsOf(p, t, f.shape);
        NormalArray(env, e, t, f.default)
  }

  function NormalFields(env: Conversions, defs: Definitions, ghost rank: map<bytes, nat>, ghost owner: nat, fields: seq<Field>,
                        v: Value): Option<seq<(bytes, Decoded)>>
    requires Acyclic(defs, rank) && Below(defs, rank, fields, owner)
    decreases owner, 1, |fields|
  {
    if fields == [] then Some([])
    else
      var n := |fields| - 1;
      BelowParts(defs, rank, fields, owner);
      var before :- NormalFields(env, defs, rank, owner, fields[..n], v);
      var last :- NormalField(env, defs, rank, owner, fields[n], v);
      Some(before + [(fields[n].name, last)])
  }

  function NormalMessage(env: Conversions, defs: Definitions, ghost rank: map<bytes, nat>, name: bytes, v: Value): Option<Decoded>
    requires Acyclic(defs, rank) && name in defs
    decreases rank[name], 2, 0
  {
    var fields :- NormalFields(env, defs, rank, rank[name], defs[name], v);
    Some(Message(fields))
  }

  function NormalItems(env: Conversions, defs: Definitions, ghost rank: map<bytes, nat>, name: bytes, items: seq<Value>)
    : (r: Option<seq<Decoded>>)
    requires Acyclic(defs, rank) && name in defs
    ensures r.Some? ==> |r.value| == |items|
    decreases rank[name], 3, |items|
  {
    if items == [] then Some([])
    else
      var n := |items| - 1;
      var before :- NormalItems(env, defs, rank, name, items[..n]);
      var last :- NormalMessage(env, defs, rank, name, items[n]);
      Some(before + [last])
  }

  lemma BelowParts(defs: Definitions, rank: map<bytes, nat>, fields: seq<Field>, owner: nat)
    requires Below(defs, rank, fields, owner) && fields != []
    ensures Below(defs, rank, fields[..|fields| - 1], owner) && Below(defs, rank, [fields[|fields| - 1]], owner)
  {
  }
}
