/** Printing and parsing whole messages by their definitions, and that parsing undoes
    printing for every acyclic set of definitions and every value. */
module CdrMessage {
  import opened Bytes
  import opened Format
  import opened CdrTypes
  import opened CdrFormat

  // ---------- arrays ----------

  /** The length before an array that is not fixed. */
  function WithLength(out: bytes, n: nat, shape: Shape, little: bool): (r: Option<bytes>)
    ensures r.Some? ==> |out| <= |r.value|
  {
    if shape.Fixed? then Some(out) else if n < U32 then Some(WithNumber(out, n, 4, little)) else None
  }

  function LengthAt(data: bytes, offset: nat, shape: Shape, little: bool): Option<(nat, nat)> {
    if shape.Fixed? then Some((shape.size, offset)) else NumberAt(data, offset, 4, little)
  }

  lemma LengthStands(out: bytes, n: nat, shape: Shape, little: bool, rest: bytes)
    requires WithLength(out, n, shape, little).Some? && (shape.Fixed? ==> n == shape.size)
    ensures var w := WithLength(out, n, shape, little).value;
            out <= w && LengthAt(w + rest, |out|, shape, little) == Some((n, |w|))
  {
    hide WithNumber, NumberAt, Pow256;
    Powers();
    if !shape.Fixed? {
      NumberStands(out, n, 4, little, rest);
      NumberKeepsPrefix(out, n, 4, little);
    }
  }

  function WithArray(env: Conversions, out: bytes, f: Field, t: Primitive, e: Elements, little: bool): Option<bytes> {
    match e
    case Octets(data) =>
      var head :- WithLength(out, |data|, f.shape, little);
      Some(head + data)
    case Each(vs) =>
      var xs :- CoerceAll(env, vs, t, f.default);
      var head :- WithLength(out, |xs|, f.shape, little);
      WithScalars(head, t, xs, little)
  }

  /** Byte arrays are read as one slice, other arrays element by element. */
  function ArrayAt(data: bytes, offset: nat, t: Primitive, shape: Shape, little: bool): Option<(Decoded, nat)> {
    var (n, at) :- LengthAt(data, offset, shape, little);
    if IsOctet(t) then Some((Blob(Slice(data, at, n)), at + n))
    else
      var (xs, next) :- ScalarsAt(data, at, t, n, little);
      Some((Many(xs), next))
  }

  lemma BlobStands(out: bytes, data: bytes, f: Field, t: Primitive, little: bool, rest: bytes)
    requires IsOctet(t) && WithLength(out, |data|, f.shape, little).Some? && (f.shape.Fixed? ==> |data| == f.shape.size)
    ensures var w := WithLength(out, |data|, f.shape, little).value + data;
            out <= w && ArrayAt(w + rest, |out|, t, f.shape, little) == Some((Blob(data), |w|))
  {
    hide WithLength, LengthAt;
    var head := WithLength(out, |data|, f.shape, little).value;
    var w := head + data;
    LengthStands(out, |data|, f.shape, little, data + rest);
    assert w + rest == head + (data + rest);
    assert data != [] ==> (w + rest)[|head|..|head| + |data|] == data;
    assert w[..|out|] == head[..|out|];
  }

  lemma ArrayStands(env: Conversions, out: bytes, f: Field, t: Primitive, v: Value, little: bool, rest: bytes)
    requires ElementsOf(v, t, f.shape).Some? && WithArray(env, out, f, t, ElementsOf(v, t, f.shape).value, little).Some?
    ensures var e := ElementsOf(v, t, f.shape).value;
            var w := WithArray(env, out, f, t, e, little).value;
            NormalArray(env, e, t, f.default).Some? && out <= w &&
            ArrayAt(w + rest, |out|, t, f.shape, little) == Some((NormalArray(env, e, t, f.default).value, |w|))
  {
    hide WithLength, LengthAt, WithScalars, ScalarsAt, AllOctets, OctetsOf;
    var e := ElementsOf(v, t, f.shape).value;
    var w := WithArray(env, out, f, t, e, little).value;
    match e
    case Octets(data) => BlobStands(out, data, f, t, little, rest);
    case Each(vs) =>
      var xs := CoerceAll(env, vs, t, f.default).value;
      var head := WithLength(out, |xs|, f.shape, little).value;
      if IsOctet(t) {
        OctetsAreBytes(head, t, xs, little);
        BlobStands(out, OctetsOf(xs), f, t, little, rest);
      } else {
        ScalarsStand(head, t, xs, little, rest);
        var more := w[|head|..] + rest;
        assert w + rest == head + more;
        LengthStands(out, |xs|, f.shape, little, more);
      }
  }

  // ---------- messages ----------

  function WithField(env: Conversions, defs: Definitions, ghost rank: map<bytes, nat>, ghost owner: nat, f: Field, v: Value,
                     out: bytes, little: bool): Option<bytes>
    requires Acyclic(defs, rank) && Below(defs, rank, [f], owner)
    decreases owner, 0, 0
  {
    var p := Property(v, f.name);
    match f.base
    case Complex(name) =>
      if name !in defs then None
      else
        assert [f][0] == f;
        if f.shape.Single? then WithMessage(env, defs, rank, name, OrEmpty(p), out, little)
        else
          var items :- ItemsOf(p, f.shape);
          var head :- WithLength(out, |items|, f.shape, little);
          WithItems(env, defs, rank, name, items, head, little)
    case Basic(t) =>
      if f.shape.Single? then
        var x :- Coerce(env, p, t, f.default);
        WithScalar(out, t, x, little)
      else
        var e :- ElementsOf(p, t, f.shape);
        WithArray(env, out, f, t, e, little)
  }

  function WithFields(env: Conversions, defs: Definitions, ghost rank: map<bytes, nat>, ghost owner: nat, fields: seq<Field>,
                      v: Value, out: bytes, little: bool): Option<bytes>
    requires Acyclic(defs, rank) && Below(defs, rank, fields, owner)
    decreases owner, 1, |fields|
  {
    if fields == [] then Some(out)
    else
      var n := |fields| - 1;
      BelowParts(defs, rank, fields, owner);
      var before :- WithFields(env, defs, rank, owner, fields[..n], v, out, little);
      WithField(env, defs, rank, owner, fields[n], v, before, little)
  }

  /** A definition without fields is written as one zero byte. */
  function WithMessage(env: Conversions, defs: Definitions, ghost rank: map<bytes, nat>, name: bytes, v: Value, out: bytes,
                       little: bool): Option<bytes>
    requires Acyclic(defs, rank) && name in defs
    decreases rank[name], 2, 0
  {
    var start := if defs[name] == [] then WithNumber(out, 0, 1, little) else out;
    WithFields(env, defs, rank, rank[name], defs[name], v, start, little)
  }

  function WithItems(env: Conversions, defs: Definitions, ghost rank: map<bytes, nat>, name: bytes, items: seq<Value>, out: bytes,
                     little: bool): Option<bytes>
    requires Acyclic(defs, rank) && name in defs
    decreases rank[name], 3, |items|
  {
    if items == [] then Some(out)
    else
      var n := |items| - 1;
      var before :- WithItems(env, defs, rank, name, items[..n], out, little);
      WithMessage(env, defs, rank, name, items[n], before, little)
  }

  function FieldAt(defs: Definitions, ghost rank: map<bytes, nat>, ghost owner: nat, f: Field, data: bytes, offset: nat,
                   little: bool): Option<(Decoded, nat)>
    requires Acyclic(defs, rank) && Below(defs, rank, [f], owner)
    decreases owner, 0, 0
  {
    match f.base
    case Complex(name) =>
      if name !in defs then None
      else
        assert [f][0] == f;
        if f.shape.Single? then MessageAt(defs, rank, name, data, offset, little)
        else
          var (n, at) :- LengthAt(data, offset, f.shape, little);
          var (items, next) :- ItemsAt(defs, rank, name, n, data, at, little);
          Some((Messages(items), next))
    case Basic(t) =>
      if f.shape.Single? then
        var (x, next) :- ScalarAt(data, offset, t, little);
        Some((One(x), next))
      else ArrayAt(data, offset, t, f.shape, little)
  }

  function FieldsAt(defs: Definitions, ghost rank: map<bytes, nat>, ghost owner: nat, fields: seq<Field>, data: bytes,
                    offset: nat, little: bool): Option<(seq<(bytes, Decoded)>, nat)>
    requires Acyclic(defs, rank) && Below(defs, rank, fields, owner)
    decreases owner, 1, |fields|
  {
    if fields == [] then Some(([], offset))
    else
      var n := |fields| - 1;
      BelowParts(defs, rank, fields, owner);
      var (before, at) :- FieldsAt(defs, rank, owner, fields[..n], data, offset, little);
      var (last, next) :- FieldAt(defs, rank, owner, fields[n], data, at, little);
      Some((before + [(fields[n].name, last)], next))
  }

  function MessageAt(defs: Definitions, ghost rank: map<bytes, nat>, name: bytes, data: bytes, offset: nat, little: bool)
    : Option<(Decoded, nat)>
    requires Acyclic(defs, rank) && name in defs
    decreases rank[name], 2, 0
  {
    var (_, start) :- if defs[name] == [] then NumberAt(data, offset, 1, little) else Some((0, offset));
    var (fields, next) :- FieldsAt(defs, rank, rank[name], defs[name], data, start, little);
    Some((Message(fields), next))
  }

  function ItemsAt(defs: Definitions, ghost rank: map<bytes, nat>, name: bytes, n: nat, data: bytes, offset: nat, little: bool)
    : Option<(seq<Decoded>, nat)>
    requires Acyclic(defs, rank) && name in defs
    decreases rank[name], 3, n
  {
    if n == 0 then Some(([], offset))
    else
      var (before, at) :- ItemsAt(defs, rank, name, n - 1, data, offset, little);
      var (last, next) :- MessageAt(defs, rank, name, data, at, little);
      Some((before + [last], next))
  }

  // ---------- round trip ----------

  /** What was written from `out` to `w` is read back as `d`, whatever follows, and the reader
      stops where the writer stopped. */
  ghost predicate FieldStands(defs: Definitions, rank: map<bytes, nat>, owner: nat, f: Field, out: bytes, w: bytes,
                              d: Decoded, little: bool)
    requires Acyclic(defs, rank) && Below(defs, rank, [f], owner)
  {
    out <= w && forall rest :: FieldAt(defs, rank, owner, f, w + rest, |out|, little) == Some((d, |w|))
  }

  ghost predicate MessageStands(defs: Definitions, rank: map<bytes, nat>, name: bytes, out: bytes, w: bytes, d: Decoded,
                                little: bool)
    requires Acyclic(defs, rank) && name in defs
  {
    out <= w && forall rest :: MessageAt(defs, rank, name, w + rest, |out|, little) == Some((d, |w|))
  }

  lemma {:induction false} FieldRoundTrip(env: Conversions, defs: Definitions, rank: map<bytes, nat>, owner: nat, f: Field,
                                          v: Value, out: bytes, little: bool)
    requires Acyclic(defs, rank) && Below(defs, rank, [f], owner)
    requires WithField(env, defs, rank, owner, f, v, out, little).Some?
    ensures NormalField(env, defs, rank, owner, f, v).Some?
    ensures FieldStands(defs, rank, owner, f, out, WithField(env, defs, rank, owner, f, v, out, little).value,
                        NormalField(env, defs, rank, owner, f, v).value, little)
    decreases owner, 0, 0
  {
    hide Acyclic, Below, WithScalar, ScalarAt, WithArray, ArrayAt, ElementsOf, ItemsOf, WithLength, LengthAt, WithMessage, WithItems,
         MessageAt, ItemsAt, NormalMessage, NormalItems, Coerce, NormalArray;
    var p := Property(v, f.name);
    var w := WithField(env, defs, rank, owner, f, v, out, little).value;
    match f.base
    case Complex(name) =>
      NestedIsBelow(defs, rank, owner, f);
      if f.shape.Single? {
        MessageRoundTrip(env, defs, rank, name, OrEmpty(p), out, little);
      } else {
        var items := ItemsOf(p, f.shape).value;
        var head := WithLength(out, |items|, f.shape, little).value;
        ItemsRoundTrip(env, defs, rank, name, items, head, little);
        var d := NormalItems(env, defs, rank, name, items).value;
        forall rest ensures FieldAt(defs, rank, owner, f, w + rest, |out|, little) == Some((Messages(d), |w|)) {
          var more := w[|head|..] + rest;
          assert w + rest == head + more;
          ItemsAtOnce(defs, rank, name, head, w, d, little, rest);
          LengthStands(out, |items|, f.shape, little, more);
        }
        LengthStands(out, |items|, f.shape, little, []);
      }
    case Basic(t) =>
      if f.shape.Single? {
        var x := Coerce(env, p, t, f.default).value;
        forall rest ensures FieldAt(defs, rank, owner, f, w + rest, |out|, little) == Some((One(x), |w|)) {
          ScalarStands(out, t, x, little, rest);
        }
        ScalarStands(out, t, x, little, []);
      } else {
        var e := ElementsOf(p, t, f.shape).value;
        forall rest
          ensures NormalArray(env, e, t, f.default).Some?
          ensures FieldAt(defs, rank, owner, f, w + rest, |out|, little) ==
                  Some((NormalArray(env, e, t, f.default).value, |w|))
        {
          ArrayStands(env, out, f, t, p, little, rest);
        }
        ArrayStands(env, out, f, t, p, little, []);
      }
  }

  lemma NestedIsBelow(defs: Definitions, rank: map<bytes, nat>, owner: nat, f: Field)
    requires Acyclic(defs, rank) && Below(defs, rank, [f], owner) && f.base.Complex? && f.base.name in defs
    ensures f.base.name in rank && rank[f.base.name] < owner
  {
    assert [f][0] == f;
  }

  lemma FieldsAreBelow(defs: Definitions, rank: map<bytes, nat>, name: bytes)
    requires Acyclic(defs, rank) && name in defs
    ensures name in rank && Below(defs, rank, defs[name], rank[name])
  {
  }

  lemma {:induction false} FieldsRoundTrip(env: Conversions, defs: Definitions, rank: map<bytes, nat>, owner: nat,
                                           fields: seq<Field>, v: Value, out: bytes, little: bool, rest: bytes)
    requires Acyclic(defs, rank) && Below(defs, rank, fields, owner)
    requires WithFields(env, defs, rank, owner, fields, v, out, little).Some?
    ensures NormalFields(env, defs, rank, owner, fields, v).Some?
    ensures var w := WithFields(env, defs, rank, owner, fields, v, out, little).value;
            out <= w &&
            FieldsAt(defs, rank, owner, fields, w + rest, |out|, little) ==
            Some((NormalFields(env, defs, rank, owner, fields, v).value, |w|))
    decreases owner, 1, |fields|
  {
    hide Acyclic, Below, WithField, FieldAt, NormalField;
    if fields != [] {
      var n := |fields| - 1;
      BelowParts(defs, rank, fields, owner);
      var before := WithFields(env, defs, rank, owner, fields[..n], v, out, little).value;
      var w := WithFields(env, defs, rank, owner, fields, v, out, little).value;
      FieldRoundTrip(env, defs, rank, owner, fields[n], v, before, little);
      var more := w[|before|..] + rest;
      assert w + rest == before + more;
      FieldsRoundTrip(env, defs, rank, owner, fields[..n], v, out, little, more);
    }
  }

  lemma {:induction false} MessageRoundTrip(env: Conversions, defs: Definitions, rank: map<bytes, nat>, name: bytes, v: Value,
                                            out: bytes, little: bool)
    requires Acyclic(defs, rank) && name in defs
    requires WithMessage(env, defs, rank, name, v, out, little).Some?
    ensures NormalMessage(env, defs, rank, name, v).Some?
    ensures MessageStands(defs, rank, name, out, WithMessage(env, defs, rank, name, v, out, little).value,
                          NormalMessage(env, defs, rank, name, v).value, little)
    decreases rank[name], 2, 0
  {
    hide Acyclic, Below, WithFields, FieldsAt, NormalFields, WithNumber, NumberAt, Pow256;
    FieldsAreBelow(defs, rank, name);
    Powers();
    var start := if defs[name] == [] then WithNumber(out, 0, 1, little) else out;
    NumberKeepsPrefix(out, 0, 1, little);
    var w := WithMessage(env, defs, rank, name, v, out, little).value;
    FieldsRoundTrip(env, defs, rank, rank[name], defs[name], v, start, little, []);
    var d := NormalMessage(env, defs, rank, name, v).value;
    forall rest ensures MessageAt(defs, rank, name, w + rest, |out|, little) == Some((d, |w|)) {
      FieldsRoundTrip(env, defs, rank, rank[name], defs[name], v, start, little, rest);
      var more := w[|start|..] + rest;
      assert w + rest == start + more;
      NumberStands(out, 0, 1, little, more);
    }
  }

  /** The items of an array that was written from `out` to `w`. */
  ghost predicate ItemsStand(defs: Definitions, rank: map<bytes, nat>, name: bytes, out: bytes, w: bytes, ds: seq<Decoded>,
                             little: bool)
    requires Acyclic(defs, rank) && name in defs
  {
    out <= w && forall rest :: ItemsAt(defs, rank, name, |ds|, w + rest, |out|, little) == Some((ds, |w|))
  }

  lemma ItemsAtOnce(defs: Definitions, rank: map<bytes, nat>, name: bytes, out: bytes, w: bytes, ds: seq<Decoded>, little: bool,
                    rest: bytes)
    requires Acyclic(defs, rank) && name in defs && ItemsStand(defs, rank, name, out, w, ds, little)
    ensures ItemsAt(defs, rank, name, |ds|, w + rest, |out|, little) == Some((ds, |w|))
  {
    hide ItemsAt, Acyclic;
  }

  lemma MessageAtOnce(defs: Definitions, rank: map<bytes, nat>, name: bytes, out: bytes, w: bytes, d: Decoded, little: bool,
                      rest: bytes)
    requires Acyclic(defs, rank) && name in defs && MessageStands(defs, rank, name, out, w, d, little)
    ensures MessageAt(defs, rank, name, w + rest, |out|, little) == Some((d, |w|))
  {
    hide MessageAt, Acyclic;
  }

  lemma {:induction false} ItemsRoundTrip(env: Conversions, defs: Definitions, rank: map<bytes, nat>, name: bytes,
                                          items: seq<Value>, out: bytes, little: bool)
    requires Acyclic(defs, rank) && name in defs
    requires WithItems(env, defs, rank, name, items, out, little).Some?
    ensures NormalItems(env, defs, rank, name, items).Some?
    ensures ItemsStand(defs, rank, name, out, WithItems(env, defs, rank, name, items, out, little).value,
                       NormalItems(env, defs, rank, name, items).value, little)
    decreases rank[name], 3, |items|
  {
    hide Acyclic, WithMessage, MessageAt, NormalMessage, MessageStands;
    if items != [] {
      var n := |items| - 1;
      var before := WithItems(env, defs, rank, name, items[..n], out, little).value;
      var w := WithItems(env, defs, rank, name, items, out, little).value;
      MessageRoundTrip(env, defs, rank, name, items[n], before, little);
      ItemsRoundTrip(env, defs, rank, name, items[..n], out, little);
      var ds := NormalItems(env, defs, rank, name, items[..n]).value;
      var d := NormalMessage(env, defs, rank, name, items[n]).value;
      MessageIsLater(defs, rank, name, before, w, d, little);
      forall rest ensures ItemsAt(defs, rank, name, n + 1, w + rest, |out|, little) == Some((ds + [d], |w|)) {
        var more := w[|before|..] + rest;
        assert w + rest == before + more;
        ItemsAtOnce(defs, rank, name, out, before, ds, little, more);
        MessageAtOnce(defs, rank, name, before, w, d, little, rest);
      }
    }
  }

  lemma MessageIsLater(defs: Definitions, rank: map<bytes, nat>, name: bytes, out: bytes, w: bytes, d: Decoded, little: bool)
    requires Acyclic(defs, rank) && name in defs && MessageStands(defs, rank, name, out, w, d, little)
    ensures out <= w
  {
  }

  // ---------- whole payloads ----------

  /** `encode_message`: four header bytes, then the message. */
  function Encoded(env: Conversions, defs: Definitions, ghost rank: map<bytes, nat>, name: bytes, v: Value, kind: byte)
    : Option<bytes>
    requires Acyclic(defs, rank)
  {
    if name !in defs then None else WithMessage(env, defs, rank, name, v, [0, kind, 0, 0], kind & 1 == 1)
  }

  /** `read_message`: the byte order is the lowest bit of the second byte. */
  function DecodedAt(defs: Definitions, ghost rank: map<bytes, nat>, name: bytes, data: bytes): Option<(Decoded, nat)>
    requires Acyclic(defs, rank)
  {
    if name !in defs || |data| < 4 then None else MessageAt(defs, rank, name, data, 4, data[1] & 1 == 1)
  }

  /** Decoding an encoded message gives the normalised value and consumes the whole payload,
      for every acyclic set of definitions, every value and either byte order. */
  lemma RoundTrip(env: Conversions, defs: Definitions, rank: map<bytes, nat>, name: bytes, v: Value, kind: byte)
    requires Acyclic(defs, rank) && Encoded(env, defs, rank, name, v, kind).Some?
    ensures name in defs && NormalMessage(env, defs, rank, name, v).Some?
    ensures var data := Encoded(env, defs, rank, name, v, kind).value;
            DecodedAt(defs, rank, name, data) == Some((NormalMessage(env, defs, rank, name, v).value, |data|))
  {
    hide WithMessage, MessageAt, NormalMessage, Acyclic;
    var header := [0, kind, 0, 0];
    var data := Encoded(env, defs, rank, name, v, kind).value;
    MessageRoundTrip(env, defs, rank, name, v, header, kind & 1 == 1);
    MessageAtOnce(defs, rank, name, header, data, NormalMessage(env, defs, rank, name, v).value, kind & 1 == 1, []);
    assert data + [] == data;
    assert data[1] == header[1];
  }
}
