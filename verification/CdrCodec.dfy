/** The Python `CdrWriter` and `CdrReader` objects and the functions that drive them by a
    message definition: each is proved to do what the printing and parsing functions say.
    Raising an exception is a result of `false`. */
module CdrCodec {
  import opened Bytes
  import opened Format
  import opened CdrTypes
  import opened CdrFormat
  import opened CdrMessage

  class CdrWriter {
    var output: bytes
    var offset: nat
    const little: bool

    predicate Valid()
      reads this
    {
      offset == |output|
    }

    constructor (kind: byte)
      ensures Valid() && output == [0, kind, 0, 0] && little == (kind & 1 == 1)
    {
      little := kind & 1 == 1;
      output := [0, kind] + [0, 0];
      offset := 4;
    }

    method Align(size: nat)
      requires Valid() && size > 1
      modifies this
      ensures Valid() && output == old(output) + Zeros(Padding(old(offset), size))
    {
      var alignment := (offset - 4) % size;
      var padding := if alignment > 0 then size - alignment else 0;
      if padding > 0 {
        output := output + Zeros(padding);
        offset := offset + padding;
      } else {
        assert Zeros(0) == [] && output + [] == output;
      }
    }

    /** A number in the writer's byte order. */
    method Pack(n: nat, size: nat)
      requires Valid() && size > 0
      modifies this
      ensures Valid() && output == WithNumber(old(output), n, size, little)
    {
      if size > 1 {
        Align(size);
      } else {
        assert Zeros(0) == [] && output + [] == output;
      }
      output := output + NumberBytes(n, size, little);
      offset := offset + size;
    }

    method WriteBytes(data: bytes)
      requires Valid()
      modifies this
      ensures Valid() && output == old(output) + data
    {
      output := output + data;
      offset := offset + |data|;
    }

    method WriteString(s: bytes)
      requires Valid() && |s| + 1 < U32
      modifies this
      ensures Valid() && output == WithNumber(old(output), |s| + 1, 4, little) + s + [0]
    {
      Pack(|s| + 1, 4);
      WriteBytes(s);
      output := output + [0];
      offset := offset + 1;
    }

    method WriteScalar(t: Primitive, x: Scalar) returns (ok: bool)
      requires Valid()
      modifies this
      ensures Valid() && (ok <==> WithScalar(old(output), t, x, little).Some?)
      ensures ok ==> WithScalar(old(output), t, x, little) == Some(output)
    {
      hide WithNumber;
      if t.StringType? {
        if !x.StringValue? || |x.s| + 1 >= U32 {
          return false;
        }
        WriteString(x.s);
        return true;
      }
      if t.WStringType? {
        return false;
      }
      var bits := BitsOf(t, x);
      if bits.None? {
        return false;
      }
      Pack(bits.value, Width(t));
      ok := true;
    }

    method WriteScalars(t: Primitive, xs: seq<Scalar>) returns (ok: bool)
      requires Valid()
      modifies this
      ensures Valid() && (ok <==> WithScalars(old(output), t, xs, little).Some?)
      ensures ok ==> WithScalars(old(output), t, xs, little) == Some(output)
    {
      hide WithScalar;
      if t.WStringType? {
        WideNeverWritten(output, xs, little);
        return false;
      }
      var i := 0;
      while i < |xs|
        invariant i <= |xs| && Valid()
        invariant WithScalars(old(output), t, xs[..i], little) == Some(output)
      {
        ScalarsMore(old(output), t, xs[..i], xs[i], little);
        assert xs[..i] + [xs[i]] == xs[..i + 1];
        ok := WriteScalar(t, xs[i]);
        if !ok {
          ScalarsFail(old(output), t, xs, i + 1, little);
          return;
        }
        i := i + 1;
      }
      assert xs[..i] == xs;
      ok := true;
    }
  }

  lemma {:induction false} WideNeverWritten(out: bytes, xs: seq<Scalar>, little: bool)
    ensures WithScalars(out, WStringType, xs, little).None?
    decreases |xs|
  {
    if xs != [] {
      WideNeverWritten(out, xs[..|xs| - 1], little);
    }
  }

  lemma {:induction false} ScalarsFail(out: bytes, t: Primitive, xs: seq<Scalar>, n: nat, little: bool)
    requires n <= |xs| && WithScalars(out, t, xs[..n], little).None?
    ensures WithScalars(out, t, xs, little).None?
    decreases |xs|
  {
    hide WithScalar;
    if n < |xs| {
      assert xs[..|xs| - 1][..n] == xs[..n];
      ScalarsFail(out, t, xs[..|xs| - 1], n, little);
    } else {
      assert xs[..n] == xs;
    }
  }

  lemma {:induction false} FieldsFail(env: Conversions, defs: Definitions, rank: map<bytes, nat>, owner: nat, fields: seq<Field>,
                                      v: Value, out: bytes, n: nat, little: bool)
    requires Acyclic(defs, rank) && Below(defs, rank, fields, owner) && n <= |fields| && Below(defs, rank, fields[..n], owner)
    requires WithFields(env, defs, rank, owner, fields[..n], v, out, little).None?
    ensures WithFields(env, defs, rank, owner, fields, v, out, little).None?
    decreases |fields|
  {
    hide WithField, Acyclic, Below;
    if n < |fields| {
      BelowParts(defs, rank, fields, owner);
      assert fields[..|fields| - 1][..n] == fields[..n];
      FieldsFail(env, defs, rank, owner, fields[..|fields| - 1], v, out, n, little);
    } else {
      assert fields[..n] == fields;
    }
  }

  lemma {:induction false} ItemsFail(env: Conversions, defs: Definitions, rank: map<bytes, nat>, name: bytes, items: seq<Value>,
                                     out: bytes, n: nat, little: bool)
    requires Acyclic(defs, rank) && name in defs && n <= |items|
    requires WithItems(env, defs, rank, name, items[..n], out, little).None?
    ensures WithItems(env, defs, rank, name, items, out, little).None?
    decreases |items|
  {
    hide WithMessage, Acyclic;
    if n < |items| {
      assert items[..|items| - 1][..n] == items[..n];
      ItemsFail(env, defs, rank, name, items[..|items| - 1], out, n, little);
    } else {
      assert items[..n] == items;
    }
  }

  lemma BelowPrefix(defs: Definitions, rank: map<bytes, nat>, fields: seq<Field>, owner: nat, n: nat)
    requires Below(defs, rank, fields, owner) && n <= |fields|
    ensures Below(defs, rank, fields[..n], owner)
    ensures n < |fields| ==> Below(defs, rank, [fields[n]], owner)
  {
  }

  lemma FieldsMore(env: Conversions, defs: Definitions, rank: map<bytes, nat>, owner: nat, fields: seq<Field>, v: Value, out: bytes,
                   n: nat, little: bool)
    requires Acyclic(defs, rank) && Below(defs, rank, fields, owner) && n < |fields|
    ensures Below(defs, rank, fields[..n], owner) && Below(defs, rank, fields[..n + 1], owner)
    ensures Below(defs, rank, [fields[n]], owner)
    ensures WithFields(env, defs, rank, owner, fields[..n + 1], v, out, little) ==
            match WithFields(env, defs, rank, owner, fields[..n], v, out, little)
            case None => None
            case Some(w) => WithField(env, defs, rank, owner, fields[n], v, w, little)
  {
    hide WithField, Acyclic, Below;
    BelowPrefix(defs, rank, fields, owner, n);
    BelowPrefix(defs, rank, fields, owner, n + 1);
    assert fields[..n + 1][..n] == fields[..n];
  }

  // ---------- writing ----------

  method WriteLength(w: CdrWriter, n: nat, shape: Shape) returns (ok: bool)
    requires w.Valid()
    modifies w
    ensures w.Valid() && (ok <==> WithLength(old(w.output), n, shape, w.little).Some?)
    ensures ok ==> WithLength(old(w.output), n, shape, w.little) == Some(w.output)
  {
    hide WithNumber;
    if shape.Fixed? {
      return true;
    }
    if n >= U32 {
      return false;
    }
    w.Pack(n, 4);
    ok := true;
  }

  method WriteArray(env: Conversions, w: CdrWriter, f: Field, t: Primitive, e: Elements) returns (ok: bool)
    requires w.Valid()
    modifies w
    ensures w.Valid() && (ok <==> WithArray(env, old(w.output), f, t, e, w.little).Some?)
    ensures ok ==> WithArray(env, old(w.output), f, t, e, w.little) == Some(w.output)
  {
    hide WithLength, WithScalars;
    match e {
      case Octets(data) =>
        ok := WriteLength(w, |data|, f.shape);
        if ok {
          w.WriteBytes(data);
        }
      case Each(vs) =>
        var xs := CoerceAll(env, vs, t, f.default);
        if xs.None? {
          return false;
        }
        ok := WriteLength(w, |xs.value|, f.shape);
        if ok {
          ok := w.WriteScalars(t, xs.value);
        }
    }
  }

  method WriteField(env: Conversions, defs: Definitions, ghost rank: map<bytes, nat>, ghost owner: nat, f: Field, v: Value,
                    w: CdrWriter) returns (ok: bool)
    requires Acyclic(defs, rank) && Below(defs, rank, [f], owner) && w.Valid()
    modifies w
    ensures w.Valid() && (ok <==> WithField(env, defs, rank, owner, f, v, old(w.output), w.little).Some?)
    ensures ok ==> WithField(env, defs, rank, owner, f, v, old(w.output), w.little) == Some(w.output)
    decreases owner, 0, 0
  {
    hide Acyclic, Below, WithMessage, WithItems, WithLength, WithScalar, WithArray, ElementsOf, ItemsOf, Coerce;
    var p := Property(v, f.name);
    match f.base {
      case Complex(name) =>
        if name !in defs {
          return false;
        }
        NestedIsBelow(defs, rank, owner, f);
        if f.shape.Single? {
          ok := WriteComplexType(env, defs, rank, name, OrEmpty(p), w);
        } else {
          var items := ItemsOf(p, f.shape);
          if items.None? {
            return false;
          }
          ok := WriteLength(w, |items.value|, f.shape);
          if ok {
            ok := WriteItems(env, defs, rank, name, items.value, w);
          }
        }
      case Basic(t) =>
        if f.shape.Single? {
          var x := Coerce(env, p, t, f.default);
          if x.None? {
            return false;
          }
          ok := w.WriteScalar(t, x.value);
        } else {
          var e := ElementsOf(p, t, f.shape);
          if e.None? {
            return false;
          }
          ok := WriteArray(env, w, f, t, e.value);
        }
    }
  }

  /** The fields of a message one after the other; an empty message is one zero byte. */
  method WriteComplexType(env: Conversions, defs: Definitions, ghost rank: map<bytes, nat>, name: bytes, v: Value, w: CdrWriter)
    returns (ok: bool)
    requires Acyclic(defs, rank) && name in defs && w.Valid()
    modifies w
    ensures w.Valid() && (ok <==> WithMessage(env, defs, rank, name, v, old(w.output), w.little).Some?)
    ensures ok ==> WithMessage(env, defs, rank, name, v, old(w.output), w.little) == Some(w.output)
    decreases rank[name], 2, 0
  {
    hide Acyclic, Below, WithField, WithFields, WithNumber;
    FieldsAreBelow(defs, rank, name);
    var fields := defs[name];
    if fields == [] {
      w.Pack(0, 1);
    }
    ghost var start := w.output;
    BelowPrefix(defs, rank, fields, rank[name], 0);
    NoFields(env, defs, rank, rank[name], fields[..0], v, start, w.little);
    var i := 0;
    while i < |fields|
      invariant i <= |fields| && w.Valid() && Below(defs, rank, fields[..i], rank[name])
      invariant WithFields(env, defs, rank, rank[name], fields[..i], v, start, w.little) == Some(w.output)
    {
      FieldsMore(env, defs, rank, rank[name], fields, v, start, i, w.little);
      ok := WriteField(env, defs, rank, rank[name], fields[i], v, w);
      if !ok {
        FieldsFail(env, defs, rank, rank[name], fields, v, start, i + 1, w.little);
        return;
      }
      i := i + 1;
    }
    assert fields[..i] == fields;
    ok := true;
  }

  lemma NoFields(env: Conversions, defs: Definitions, rank: map<bytes, nat>, owner: nat, fields: seq<Field>, v: Value, out: bytes,
                 little: bool)
    requires Acyclic(defs, rank) && Below(defs, rank, fields, owner) && fields == []
    ensures WithFields(env, defs, rank, owner, fields, v, out, little) == Some(out)
  {
  }

  method WriteItems(env: Conversions, defs: Definitions, ghost rank: map<bytes, nat>, name: bytes, items: seq<Value>, w: CdrWriter)
    returns (ok: bool)
    requires Acyclic(defs, rank) && name in defs && w.Valid()
    modifies w
    ensures w.Valid() && (ok <==> WithItems(env, defs, rank, name, items, old(w.output), w.little).Some?)
    ensures ok ==> WithItems(env, defs, rank, name, items, old(w.output), w.little) == Some(w.output)
    decreases rank[name], 3, 0
  {
    hide Acyclic, WithMessage;
    var i := 0;
    while i < |items|
      invariant i <= |items| && w.Valid()
      invariant WithItems(env, defs, rank, name, items[..i], old(w.output), w.little) == Some(w.output)
    {
      assert items[..i + 1][..i] == items[..i];
      ok := WriteComplexType(env, defs, rank, name, items[i], w);
      if !ok {
        ItemsFail(env, defs, rank, name, items, old(w.output), i + 1, w.little);
        return;
      }
      i := i + 1;
    }
    assert items[..i] == items;
    ok := true;
  }

  method EncodeMessage(env: Conversions, defs: Definitions, ghost rank: map<bytes, nat>, name: bytes, v: Value, kind: byte)
    returns (data: Option<bytes>)
    requires Acyclic(defs, rank)
    ensures data == Encoded(env, defs, rank, name, v, kind)
  {
    hide Acyclic, WithMessage;
    if name !in defs {
      return None;
    }
    var w := new CdrWriter(kind);
    var ok := WriteComplexType(env, defs, rank, name, v, w);
    data := if ok then Some(w.output) else None;
  }

  // ---------- reading ----------

  class CdrReader {
    const data: bytes
    var offset: nat
    const little: bool

    constructor (data: bytes)
      requires |data| >= 4
      ensures this.data == data && offset == 4 && little == (data[1] & 1 == 1)
    {
      this.data := data;
      offset := 4;
      little := data[1] & 1 == 1;
    }

    method Align(size: nat)
      requires size > 1
      modifies this
      ensures offset == old(offset) + Padding(old(offset), size)
    {
      var alignment := (offset - 4) % size;
      if alignment > 0 {
        offset := offset + (size - alignment);
      }
    }

    method Unpack(size: nat) returns (r: Option<nat>)
      requires size > 0
      modifies this
      ensures r.Some? <==> NumberAt(data, old(offset), size, little).Some?
      ensures r.Some? ==> NumberAt(data, old(offset), size, little) == Some((r.value, offset))
    {
      hide Padding, NumberOf;
      NoPadding(offset);
      if size > 1 {
        Align(size);
      }
      if offset + size > |data| {
        return None;
      }
      r := Some(NumberOf(data[offset..offset + size], little));
      offset := offset + size;
    }

    /** A slice, cut at the end of the data. */
    method Uint8Array(n: nat) returns (r: bytes)
      modifies this
      ensures r == Slice(data, old(offset), n) && offset == old(offset) + n
    {
      r := Slice(data, offset, n);
      offset := offset + n;
    }

    method ReadString() returns (r: Option<Scalar>)
      modifies this
      ensures r.Some? <==> StringAt(data, old(offset), little).Some?
      ensures r.Some? ==> StringAt(data, old(offset), little) == Some((r.value, offset))
    {
      hide NumberAt;
      var length := Unpack(4);
      if length.None? {
        return None;
      }
      if length.value <= 1 {
        offset := offset + length.value;
        return Some(StringValue([]));
      }
      var s := Uint8Array(length.value - 1);
      offset := offset + 1;
      r := Some(StringValue(s));
    }

    method ReadScalar(t: Primitive) returns (r: Option<Scalar>)
      modifies this
      ensures r.Some? <==> ScalarAt(data, old(offset), t, little).Some?
      ensures r.Some? ==> ScalarAt(data, old(offset), t, little) == Some((r.value, offset))
    {
      hide NumberAt, StringAt;
      if t.StringType? {
        r := ReadString();
        return;
      }
      if t.WStringType? {
        return None;
      }
      var bits := Unpack(Width(t));
      r := if bits.None? then None else Some(ScalarOf(t, bits.value));
    }

    method ReadScalars(t: Primitive, n: nat) returns (r: Option<seq<Scalar>>)
      modifies this
      ensures r.Some? <==> ScalarsAt(data, old(offset), t, n, little).Some?
      ensures r.Some? ==> ScalarsAt(data, old(offset), t, n, little) == Some((r.value, offset))
    {
      hide ScalarAt;
      if t.WStringType? {
        WideNeverRead(data, offset, n, little);
        return None;
      }
      var xs: seq<Scalar> := [];
      var i := 0;
      while i < n
        invariant i <= n
        invariant ScalarsAt(data, old(offset), t, i, little) == Some((xs, offset))
      {
        var x := ReadScalar(t);
        if x.None? {
          ScalarsEnd(data, old(offset), t, i + 1, n, little);
          return None;
        }
        xs := xs + [x.value];
        i := i + 1;
      }
      r := Some(xs);
    }
  }

  lemma NoPadding(offset: nat)
    ensures Padding(offset, 1) == 0
  {
  }

  lemma {:induction false} WideNeverRead(data: bytes, offset: nat, n: nat, little: bool)
    ensures ScalarsAt(data, offset, WStringType, n, little).None?
    decreases n
  {
    if n > 0 {
      WideNeverRead(data, offset, n - 1, little);
    }
  }

  lemma {:induction false} ScalarsEnd(data: bytes, offset: nat, t: Primitive, i: nat, n: nat, little: bool)
    requires i <= n && ScalarsAt(data, offset, t, i, little).None?
    ensures ScalarsAt(data, offset, t, n, little).None?
    decreases n
  {
    hide ScalarAt;
    if i < n {
      ScalarsEnd(data, offset, t, i, n - 1, little);
    }
  }

  lemma {:induction false} ItemsEnd(defs: Definitions, rank: map<bytes, nat>, name: bytes, i: nat, n: nat, data: bytes, offset: nat,
                                    little: bool)
    requires Acyclic(defs, rank) && name in defs && i <= n && ItemsAt(defs, rank, name, i, data, offset, little).None?
    ensures ItemsAt(defs, rank, name, n, data, offset, little).None?
    decreases n
  {
    hide MessageAt, Acyclic;
    if i < n {
      ItemsEnd(defs, rank, name, i, n - 1, data, offset, little);
    }
  }

  lemma {:induction false} FieldsEnd(defs: Definitions, rank: map<bytes, nat>, owner: nat, fields: seq<Field>, n: nat, data: bytes,
                                     offset: nat, little: bool)
    requires Acyclic(defs, rank) && Below(defs, rank, fields, owner) && n <= |fields| && Below(defs, rank, fields[..n], owner)
    requires FieldsAt(defs, rank, owner, fields[..n], data, offset, little).None?
    ensures FieldsAt(defs, rank, owner, fields, data, offset, little).None?
    decreases |fields|
  {
    hide FieldAt, Acyclic, Below;
    if n < |fields| {
      BelowParts(defs, rank, fields, owner);
      assert fields[..|fields| - 1][..n] == fields[..n];
      FieldsEnd(defs, rank, owner, fields[..|fields| - 1], n, data, offset, little);
    } else {
      assert fields[..n] == fields;
    }
  }

  lemma FieldsAtMore(defs: Definitions, rank: map<bytes, nat>, owner: nat, fields: seq<Field>, n: nat, data: bytes, offset: nat,
                     little: bool)
    requires Acyclic(defs, rank) && Below(defs, rank, fields, owner) && n < |fields|
    ensures Below(defs, rank, fields[..n], owner) && Below(defs, rank, fields[..n + 1], owner)
    ensures Below(defs, rank, [fields[n]], owner)
    ensures FieldsAt(defs, rank, owner, fields[..n + 1], data, offset, little) ==
            match FieldsAt(defs, rank, owner, fields[..n], data, offset, little)
            case None => None
            case Some((before, at)) =>
              match FieldAt(defs, rank, owner, fields[n], data, at, little)
              case None => None
              case Some((last, next)) => Some((before + [(fields[n].name, last)], next))
  {
    hide FieldAt, Acyclic, Below;
    BelowPrefix(defs, rank, fields, owner, n);
    BelowPrefix(defs, rank, fields, owner, n + 1);
    assert fields[..n + 1][..n] == fields[..n];
  }

  method ReadLength(r: CdrReader, shape: Shape) returns (n: Option<nat>)
    modifies r
    ensures n.Some? <==> LengthAt(r.data, old(r.offset), shape, r.little).Some?
    ensures n.Some? ==> LengthAt(r.data, old(r.offset), shape, r.little) == Some((n.value, r.offset))
  {
    hide NumberAt;
    if shape.Fixed? {
      return Some(shape.size);
    }
    n := r.Unpack(4);
  }

  method ReadArray(r: CdrReader, t: Primitive, shape: Shape) returns (d: Option<Decoded>)
    modifies r
    ensures d.Some? <==> ArrayAt(r.data, old(r.offset), t, shape, r.little).Some?
    ensures d.Some? ==> ArrayAt(r.data, old(r.offset), t, shape, r.little) == Some((d.value, r.offset))
  {
    hide LengthAt, ScalarsAt;
    var n := ReadLength(r, shape);
    if n.None? {
      return None;
    }
    if IsOctet(t) {
      var data := r.Uint8Array(n.value);
      return Some(Blob(data));
    }
    var xs := r.ReadScalars(t, n.value);
    d := if xs.None? then None else Some(Many(xs.value));
  }

  method ReadField(defs: Definitions, ghost rank: map<bytes, nat>, ghost owner: nat, f: Field, r: CdrReader)
    returns (d: Option<Decoded>)
    requires Acyclic(defs, rank) && Below(defs, rank, [f], owner)
    modifies r
    ensures d.Some? <==> FieldAt(defs, rank, owner, f, r.data, old(r.offset), r.little).Some?
    ensures d.Some? ==> FieldAt(defs, rank, owner, f, r.data, old(r.offset), r.little) == Some((d.value, r.offset))
    decreases owner, 0, 0
  {
    hide Acyclic, Below, MessageAt, ItemsAt, LengthAt, ScalarAt, ArrayAt;
    match f.base {
      case Complex(name) =>
        if name !in defs {
          return None;
        }
        NestedIsBelow(defs, rank, owner, f);
        if f.shape.Single? {
          d := ReadComplexType(defs, rank, name, r);
        } else {
          var n := ReadLength(r, f.shape);
          if n.None? {
            return None;
          }
          var items := ReadItems(defs, rank, name, n.value, r);
          d := if items.None? then None else Some(Messages(items.value));
        }
      case Basic(t) =>
        if f.shape.Single? {
          var x := r.ReadScalar(t);
          d := if x.None? then None else Some(One(x.value));
        } else {
          d := ReadArray(r, t, f.shape);
        }
    }
  }

  method ReadComplexType(defs: Definitions, ghost rank: map<bytes, nat>, name: bytes, r: CdrReader) returns (d: Option<Decoded>)
    requires Acyclic(defs, rank) && name in defs
    modifies r
    ensures d.Some? <==> MessageAt(defs, rank, name, r.data, old(r.offset), r.little).Some?
    ensures d.Some? ==> MessageAt(defs, rank, name, r.data, old(r.offset), r.little) == Some((d.value, r.offset))
    decreases rank[name], 2, 0
  {
    hide Acyclic, Below, FieldAt, FieldsAt, NumberAt;
    FieldsAreBelow(defs, rank, name);
    var fields := defs[name];
    if fields == [] {
      var structure := r.Unpack(1);
      if structure.None? {
        return None;
      }
    }
    ghost var start := r.offset;
    BelowPrefix(defs, rank, fields, rank[name], 0);
    NothingRead(defs, rank, rank[name], fields[..0], r.data, start, r.little);
    var values: seq<(bytes, Decoded)> := [];
    var i := 0;
    while i < |fields|
      invariant i <= |fields| && Below(defs, rank, fields[..i], rank[name])
      invariant FieldsAt(defs, rank, rank[name], fields[..i], r.data, start, r.little) == Some((values, r.offset))
    {
      FieldsAtMore(defs, rank, rank[name], fields, i, r.data, start, r.little);
      var value := ReadField(defs, rank, rank[name], fields[i], r);
      if value.None? {
        FieldsEnd(defs, rank, rank[name], fields, i + 1, r.data, start, r.little);
        return None;
      }
      values := values + [(fields[i].name, value.value)];
      i := i + 1;
    }
    assert fields[..i] == fields;
    d := Some(Message(values));
  }

  lemma NothingRead(defs: Definitions, rank: map<bytes, nat>, owner: nat, fields: seq<Field>, data: bytes, offset: nat,
                    little: bool)
    requires Acyclic(defs, rank) && Below(defs, rank, fields, owner) && fields == []
    ensures FieldsAt(defs, rank, owner, fields, data, offset, little) == Some(([], offset))
  {
  }

  method ReadItems(defs: Definitions, ghost rank: map<bytes, nat>, name: bytes, n: nat, r: CdrReader)
    returns (items: Option<seq<Decoded>>)
    requires Acyclic(defs, rank) && name in defs
    modifies r
    ensures items.Some? <==> ItemsAt(defs, rank, name, n, r.data, old(r.offset), r.little).Some?
    ensures items.Some? ==> ItemsAt(defs, rank, name, n, r.data, old(r.offset), r.little) == Some((items.value, r.offset))
    decreases rank[name], 3, 0
  {
    hide Acyclic, MessageAt;
    var read: seq<Decoded> := [];
    var i := 0;
    while i < n
      invariant i <= n
      invariant ItemsAt(defs, rank, name, i, r.data, old(r.offset), r.little) == Some((read, r.offset))
    {
      var item := ReadComplexType(defs, rank, name, r);
      if item.None? {
        ItemsEnd(defs, rank, name, i + 1, n, r.data, old(r.offset), r.little);
        return None;
      }
      read := read + [item.value];
      i := i + 1;
    }
    items := Some(read);
  }

  method ReadMessage(defs: Definitions, ghost rank: map<bytes, nat>, name: bytes, data: bytes)
    returns (d: Option<Decoded>, ghost end: nat)
    requires Acyclic(defs, rank)
    ensures d.Some? <==> DecodedAt(defs, rank, name, data).Some?
    ensures d.Some? ==> DecodedAt(defs, rank, name, data) == Some((d.value, end))
  {
    hide Acyclic, MessageAt;
    if name !in defs || |data| < 4 {
      return None, 0;
    }
    var r := new CdrReader(data);
    d := ReadComplexType(defs, rank, name, r);
    end := r.offset;
  }

  /** Encoding and decoding a message with the two objects: the normalised value comes back
      and the whole payload is consumed. */
  method EncodeAndDecode(env: Conversions, defs: Definitions, ghost rank: map<bytes, nat>, name: bytes, v: Value, kind: byte)
    returns (d: Option<Decoded>)
    requires Acyclic(defs, rank) && Encoded(env, defs, rank, name, v, kind).Some?
    ensures d.Some? && name in defs && d == NormalMessage(env, defs, rank, name, v)
  {
    hide Acyclic, Encoded, DecodedAt, NormalMessage;
    var data := EncodeMessage(env, defs, rank, name, v, kind);
    RoundTrip(env, defs, rank, name, v, kind);
    ghost var end;
    d, end := ReadMessage(defs, rank, name, data.value);
  }

  // ---------- defaults given as lists ----------

  /** Nothing is left to coerce one by one: there are no elements, or none that are kept. */
  predicate NothingToCoerce(p: Value, shape: Shape) {
    match shape
    case Fixed(n) => n == 0
    case Bounded(n) => n == 0 || p == Nothing || p == List([]) || p == Tuple([])
    case _ => p == Nothing || p == List([]) || p == Tuple([])
  }

  /** A primitive field with a list default can be written if and only if it is an array given as
      raw bytes to a byte type, with a length that fits, or an array of which nothing has to be
      coerced, of any type but wide strings. The default itself is never used. */
  lemma ListDefaultRejects(env: Conversions, defs: Definitions, rank: map<bytes, nat>, owner: nat, f: Field, t: Primitive, v: Value,
                           out: bytes, little: bool)
    requires Acyclic(defs, rank) && Below(defs, rank, [f], owner) && f.base == Basic(t) && f.default.ListDefault?
    ensures var p := Property(v, f.name);
            WithField(env, defs, rank, owner, f, v, out, little).Some? <==>
              !f.shape.Single? &&
              if p.ByteString? then
                IsOctet(t) && (f.shape.Fixed? || |p.data| < U32 || (f.shape.Bounded? && f.shape.limit < U32))
              else (p.Nothing? || p.List? || p.Tuple?) && NothingToCoerce(p, f.shape) && !t.WStringType?
    ensures WithField(env, defs, rank, owner, f, v, out, little).Some? ==>
              WithField(env, defs, rank, owner, f, v, out, little) ==
              WithField(env, defs, rank, owner, f.(default := NoDefault), v, out, little)
  {
    hide Acyclic, Below, WithNumber;
    var p, bare := Property(v, f.name), f.(default := NoDefault);
    if !f.shape.Single? && ElementsOf(p, t, f.shape).Some? {
      var e := ElementsOf(p, t, f.shape).value;
      if e.Each? {
        ElementsRejected(env, out, f, t, e.values, little);
      }
    }
  }

  lemma ElementsRejected(env: Conversions, out: bytes, f: Field, t: Primitive, vs: seq<Value>, little: bool)
    requires f.default.ListDefault?
    ensures WithArray(env, out, f, t, Each(vs), little).Some? <==> vs == [] && !t.WStringType?
    ensures vs == [] ==> WithArray(env, out, f, t, Each(vs), little) ==
                         WithArray(env, out, f.(default := NoDefault), t, Each(vs), little)
  {
    if vs != [] {
      assert Coerce(env, vs[|vs| - 1], t, f.default).None?;
    }
  }
}
