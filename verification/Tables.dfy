/**
 The shared shape of the ledger and inventory digest preimages: an entry count,
 then one row per key in `BTreeMap` order, each a length-prefixed key followed
 by an encoded value.
 */
module Tables {
  import opened Wrappers
  import opened Bytes
  import opened Ordered

  /** Entry XDR and optional live-until ledger, as both digests write them. */
  datatype Row = Row(xdr: Vec8, liveUntil: Option<u32>)

  function EncodeTtl(ttl: Option<u32>): seq<byte> {
    match ttl
    case Some(sequence) => [1] + U32(sequence)
    case None => [0]
  }

  /** A row of the ledger digest. */
  function EncodeRow(row: Row): seq<byte> {
    Field(row.xdr) + EncodeTtl(row.liveUntil)
  }

  /** A row of the inventory digest: tag 1 and the entry, or tag 0 for Absent. */
  function EncodeState(state: Option<Row>): seq<byte> {
    match state
    case Some(row) => [1] + EncodeRow(row)
    case None => [0]
  }

  lemma SplitTtl(a: Option<u32>, r: seq<byte>, b: Option<u32>, s: seq<byte>)
    requires EncodeTtl(a) + r == EncodeTtl(b) + s
    ensures a == b && r == s
  {
    assert (EncodeTtl(a) + r)[0] == EncodeTtl(a)[0] && (EncodeTtl(b) + s)[0] == EncodeTtl(b)[0];
    SplitStream(EncodeTtl(a), r, EncodeTtl(b), s);
    if a.Some? {
      assert U32(a.value) == EncodeTtl(a)[1..] && U32(b.value) == EncodeTtl(b)[1..];
      U32Injective(a.value, b.value);
    }
  }

  lemma SplitRow(a: Row, r: seq<byte>, b: Row, s: seq<byte>)
    requires EncodeRow(a) + r == EncodeRow(b) + s
    ensures a == b && r == s
  {
    Associates(Field(a.xdr), EncodeTtl(a.liveUntil), r);
    Associates(Field(b.xdr), EncodeTtl(b.liveUntil), s);
    SplitField(a.xdr, EncodeTtl(a.liveUntil) + r, b.xdr, EncodeTtl(b.liveUntil) + s);
    SplitTtl(a.liveUntil, r, b.liveUntil, s);
  }

  lemma SplitState(a: Option<Row>, r: seq<byte>, b: Option<Row>, s: seq<byte>)
    requires EncodeState(a) + r == EncodeState(b) + s
    ensures a == b && r == s
  {
    assert (EncodeState(a) + r)[0] == EncodeState(a)[0] && (EncodeState(b) + s)[0] == EncodeState(b)[0];
    if a.Some? {
      Associates([1], EncodeRow(a.value), r);
      Associates([1], EncodeRow(b.value), s);
      SplitStream([1], EncodeRow(a.value) + r, [1], EncodeRow(b.value) + s);
      SplitRow(a.value, r, b.value, s);
    } else {
      SplitStream([0], r, [0], s);
    }
  }

  /** `encode` can be cut off any stream in only one way. */
  ghost predicate SelfDelimiting<V(!new)>(encode: V -> seq<byte>) {
    forall a: V, r: seq<byte>, b: V, s: seq<byte> ::
      encode(a) + r == encode(b) + s ==> a == b && r == s
  }

  lemma EncodersSelfDelimiting()
    ensures SelfDelimiting(EncodeRow) && SelfDelimiting(EncodeState)
  {
    forall a, r, b, s | EncodeRow(a) + r == EncodeRow(b) + s ensures a == b && r == s {
      SplitRow(a, r, b, s);
    }
    forall a, r, b, s | EncodeState(a) + r == EncodeState(b) + s ensures a == b && r == s {
      SplitState(a, r, b, s);
    }
  }

  function Rows<V>(ids: seq<Vec8>, table: map<Vec8, V>, encode: V -> seq<byte>): seq<byte>
    requires forall id | id in ids :: id in table
  {
    if ids == [] then []
    else Field(ids[0]) + (encode(table[ids[0]]) + Rows(ids[1..], table, encode))
  }

  function EncodeTable<V>(table: map<Vec8, V>, encode: V -> seq<byte>): seq<byte> {
    U64(|table|) + Rows(Sorted(table.Keys), table, encode)
  }

  /** Appending a row at the end, as a hashing loop does. */
  lemma {:induction false} RowsAppend<V>(ids: seq<Vec8>, id: Vec8, table: map<Vec8, V>, encode: V -> seq<byte>)
    requires id in table && forall i | i in ids :: i in table
    ensures Rows(ids + [id], table, encode) == Rows(ids, table, encode) + (Field(id) + encode(table[id]))
  {
    if ids == [] {
      assert ids + [id] == [id];
      assert Rows([id], table, encode) == Field(id) + (encode(table[id]) + Rows([], table, encode));
      assert encode(table[id]) + Rows([], table, encode) == encode(table[id]);
      assert Rows(ids, table, encode) == [];
    } else {
      RowsAppend(ids[1..], id, table, encode);
      assert (ids + [id])[1..] == ids[1..] + [id];
      Associates(encode(table[ids[0]]), Rows(ids[1..], table, encode), Field(id) + encode(table[id]));
      Associates(Field(ids[0]), encode(table[ids[0]]) + Rows(ids[1..], table, encode), Field(id) + encode(table[id]));
    }
  }

  lemma {:induction false} SplitRows<V(!new)>(a: seq<Vec8>, m: map<Vec8, V>, r: seq<byte>,
                                              b: seq<Vec8>, n: map<Vec8, V>, s: seq<byte>,
                                              encode: V -> seq<byte>)
    requires SelfDelimiting(encode) && |a| == |b|
    requires (forall id | id in a :: id in m) && (forall id | id in b :: id in n)
    requires Rows(a, m, encode) + r == Rows(b, n, encode) + s
    ensures a == b && r == s && forall id | id in a :: m[id] == n[id]
  {
    if a == [] {
      assert Rows(a, m, encode) + r == r && Rows(b, n, encode) + s == s;
    } else {
      var x, y := encode(m[a[0]]), encode(n[b[0]]);
      var p, q := Rows(a[1..], m, encode), Rows(b[1..], n, encode);
      Associates(Field(a[0]), x + p, r);
      Associates(Field(b[0]), y + q, s);
      SplitField(a[0], (x + p) + r, b[0], (y + q) + s);
      Associates(x, p, r);
      Associates(y, q, s);
      assert x + (p + r) == y + (q + s);
      SplitRows(a[1..], m, r, b[1..], n, s, encode);
      assert a == [a[0]] + a[1..] && b == [b[0]] + b[1..];
    }
  }

  /** A table can be cut off any stream in only one way, and determines its map. */
  lemma SplitTable<V(!new)>(m: map<Vec8, V>, r: seq<byte>, n: map<Vec8, V>, s: seq<byte>, encode: V -> seq<byte>)
    requires SelfDelimiting(encode)
    requires |m| < U64_LIMIT && |n| < U64_LIMIT
    requires EncodeTable(m, encode) + r == EncodeTable(n, encode) + s
    ensures m == n && r == s
  {
    hide Rows, U64, Sorted, Less, StrictlySorted;
    var a, b := Sorted(m.Keys), Sorted(n.Keys);
    Associates(U64(|m|), Rows(a, m, encode), r);
    Associates(U64(|n|), Rows(b, n, encode), s);
    SplitU64(|m|, Rows(a, m, encode) + r, |n|, Rows(b, n, encode) + s);
    SplitRows(a, m, r, b, n, s, encode);
    assert m.Keys == n.Keys by {
      assert forall id :: id in m.Keys <==> id in a;
      assert forall id :: id in n.Keys <==> id in b;
    }
  }
}
