/** The CBOR reader inverts every encoding, accepts nothing else, and ignores what follows. */
module CborTheorems {
  import opened Prelude
  import opened ByteStrings
  import opened Cbor

  predicate At(data: seq<byte>, pos: nat, b: seq<byte>) {
    pos + |b| <= |data| && data[pos..pos + |b|] == b
  }

  lemma AtSplit(data: seq<byte>, pos: nat, a: seq<byte>, b: seq<byte>)
    ensures At(data, pos, a + b) <==> At(data, pos, a) && At(data, pos + |a|, b)
  {
    if pos + |a| + |b| <= |data| {
      assert data[pos..pos + |a + b|] == data[pos..pos + |a|] + data[pos + |a|..pos + |a| + |b|];
      if At(data, pos, a + b) {
        assert (a + b)[..|a|] == a && (a + b)[|a|..] == b;
        assert data[pos..pos + |a + b|][..|a|] == data[pos..pos + |a|];
        assert data[pos..pos + |a + b|][|a|..] == data[pos + |a|..pos + |a| + |b|];
      }
    }
  }

  // -------------------------------------------------------------- reading back

  lemma ReadHead(data: seq<byte>, pos: nat, major: nat, w: Width, n: nat)
    requires major < 8 && Fits(w, n) && At(data, pos, Head(major, w, n))
    ensures pos < |data| && data[pos] / 32 == major
    ensures ReadLength(data, pos + 1, data[pos] % 32) == Parsed(n, pos + |Head(major, w, n)|)
  {
    var h := Head(major, w, n);
    assert data[pos] == data[pos..pos + |h|][0] == h[0];
    if !w.Inline? {
      var argument := ToBytes(n, Size(w));
      AtSplit(data, pos, [h[0]], argument);
      assert h == [h[0]] + argument;
      FromToBytes(n, Size(w));
    }
  }

  lemma ReadIsBody(data: seq<byte>, pos: nat)
    requires pos < |data| && ReadLength(data, pos + 1, data[pos] % 32).Parsed?
    ensures var head := ReadLength(data, pos + 1, data[pos] % 32);
            head.end <= |data| && Read(data, pos) == ReadBody(data, head.end, data[pos] / 32, head.value)
  {
  }

  lemma ReadAfterHead(data: seq<byte>, pos: nat, major: nat, w: Width, n: nat)
    requires major < 8 && Fits(w, n) && At(data, pos, Head(major, w, n))
    ensures Read(data, pos) == ReadBody(data, pos + |Head(major, w, n)|, major, n)
  {
    ReadHead(data, pos, major, w, n);
    ReadIsBody(data, pos);
  }

  /** Head and body of an encoding. */
  function HeadOf(x: Item): seq<byte>
    requires WellFormed(x)
  {
    match x
    case Number(w, n) => Head(0, w, n)
    case Blob(w, b) => Head(2, w, |b|)
    case Text(w, b) => Head(3, w, |b|)
    case List(w, items) => Head(4, w, |items|)
    case Dict(w, pairs) => Head(5, w, |pairs|)
  }

  function BodyOf(x: Item): seq<byte>
    requires WellFormed(x)
  {
    match x
    case Number(_, _) => []
    case Blob(_, b) => b
    case Text(_, b) => b
    case List(_, items) => EncodeItems(items)
    case Dict(_, pairs) => EncodePairs(pairs)
  }

  lemma EncodingSplits(x: Item, data: seq<byte>, pos: nat)
    requires WellFormed(x)
    ensures Encode(x) == HeadOf(x) + BodyOf(x)
    ensures At(data, pos, Encode(x)) <==> At(data, pos, HeadOf(x)) && At(data, pos + |HeadOf(x)|, BodyOf(x))
  {
    AtSplit(data, pos, HeadOf(x), BodyOf(x));
  }

  /** What reading must give where `meaning` is encoded up to `end`. */
  predicate Agrees<T(==)>(meaning: Option<T>, end: nat, r: Parse<T>) {
    match meaning
    case Some(v) => r == Parsed(v, end)
    case None => r.Failed?
  }

  predicate Reads(x: Item, data: seq<byte>, pos: nat)
    requires WellFormed(x)
  {
    Agrees(Meaning(x), pos + |Encode(x)|, Read(data, pos))
  }

  predicate ReadsItems(items: seq<Item>, data: seq<byte>, pos: nat, done: seq<Value>)
    requires forall i | 0 <= i < |items| :: WellFormed(items[i])
  {
    Agrees(MeaningItems(items, done), pos + |EncodeItems(items)|, ReadItems(data, pos, |items|, done))
  }

  predicate ReadsPairs(pairs: seq<Pair>, data: seq<byte>, pos: nat, done: seq<Entry>)
    requires forall i | 0 <= i < |pairs| :: WellFormedPair(pairs[i])
  {
    Agrees(MeaningPairs(pairs, done), pos + |EncodePairs(pairs)|, ReadPairs(data, pos, |pairs|, done))
  }

  lemma NumberReads(w: Width, n: nat, data: seq<byte>, pos: nat)
    requires WellFormed(Number(w, n)) && At(data, pos, Head(0, w, n))
    ensures Reads(Number(w, n), data, pos)
  {
    ReadAfterHead(data, pos, 0, w, n);
  }

  lemma BlobReads(w: Width, b: seq<byte>, data: seq<byte>, pos: nat)
    requires WellFormed(Blob(w, b)) && At(data, pos, Head(2, w, |b|)) && At(data, pos + |Head(2, w, |b|)|, b)
    ensures Reads(Blob(w, b), data, pos)
  {
    ReadAfterHead(data, pos, 2, w, |b|);
  }

  lemma TextReads(w: Width, b: seq<byte>, data: seq<byte>, pos: nat)
    requires WellFormed(Text(w, b)) && At(data, pos, Head(3, w, |b|)) && At(data, pos + |Head(3, w, |b|)|, b)
    ensures Reads(Text(w, b), data, pos)
  {
    ReadAfterHead(data, pos, 3, w, |b|);
  }

  lemma ListReads(w: Width, items: seq<Item>, data: seq<byte>, pos: nat)
    requires WellFormed(List(w, items)) && At(data, pos, Head(4, w, |items|))
    requires ReadsItems(items, data, pos + |Head(4, w, |items|)|, [])
    ensures Reads(List(w, items), data, pos)
  {
    ReadAfterHead(data, pos, 4, w, |items|);
  }

  lemma DictReads(w: Width, pairs: seq<Pair>, data: seq<byte>, pos: nat)
    requires WellFormed(Dict(w, pairs)) && At(data, pos, Head(5, w, |pairs|))
    requires ReadsPairs(pairs, data, pos + |Head(5, w, |pairs|)|, [])
    ensures Reads(Dict(w, pairs), data, pos)
  {
    ReadAfterHead(data, pos, 5, w, |pairs|);
  }

  lemma {:induction false} ReadEncoding(x: Item, data: seq<byte>, pos: nat)
    requires WellFormed(x) && At(data, pos, Encode(x))
    ensures Reads(x, data, pos)
    decreases x, 0
  {
    match x
    case List(w, items) => ReadEncodedList(w, items, data, pos);
    case Dict(w, pairs) => ReadEncodedDict(w, pairs, data, pos);
    case Number(w, n) => NumberReads(w, n, data, pos);
    case Blob(w, b) =>
      EncodingSplits(x, data, pos);
      BlobReads(w, b, data, pos);
    case Text(w, b) =>
      EncodingSplits(x, data, pos);
      TextReads(w, b, data, pos);
  }

  lemma {:induction false} ReadEncodedList(w: Width, items: seq<Item>, data: seq<byte>, pos: nat)
    requires WellFormed(List(w, items)) && At(data, pos, Encode(List(w, items)))
    ensures Reads(List(w, items), data, pos)
    decreases items, 1
  {
    EncodingSplits(List(w, items), data, pos);
    ReadEncodedItems(items, data, pos + |Head(4, w, |items|)|, []);
    ListReads(w, items, data, pos);
  }

  lemma {:induction false} ReadEncodedDict(w: Width, pairs: seq<Pair>, data: seq<byte>, pos: nat)
    requires WellFormed(Dict(w, pairs)) && At(data, pos, Encode(Dict(w, pairs)))
    ensures Reads(Dict(w, pairs), data, pos)
    decreases pairs, 1
  {
    EncodingSplits(Dict(w, pairs), data, pos);
    ReadEncodedPairs(pairs, data, pos + |Head(5, w, |pairs|)|, []);
    DictReads(w, pairs, data, pos);
  }

  lemma {:induction false} ReadEncodedItems(items: seq<Item>, data: seq<byte>, pos: nat, done: seq<Value>)
    requires (forall i | 0 <= i < |items| :: WellFormed(items[i])) && At(data, pos, EncodeItems(items))
    ensures ReadsItems(items, data, pos, done)
    decreases items, 0
  {
    if items != [] {
      AtSplit(data, pos, Encode(items[0]), EncodeItems(items[1..]));
      ReadEncoding(items[0], data, pos);
      if Meaning(items[0]).Some? {
        ReadEncodedItems(items[1..], data, pos + |Encode(items[0])|, done + [Meaning(items[0]).value]);
      }
    }
  }

  lemma {:induction false} ReadEncodedPairs(pairs: seq<Pair>, data: seq<byte>, pos: nat, done: seq<Entry>)
    requires (forall i | 0 <= i < |pairs| :: WellFormedPair(pairs[i])) && At(data, pos, EncodePairs(pairs))
    ensures ReadsPairs(pairs, data, pos, done)
    decreases pairs, 0
  {
    if pairs != [] {
      AtSplit(data, pos, EncodePair(pairs[0]), EncodePairs(pairs[1..]));
      ReadEncodedPair(pairs[0], data, pos);
      if MeaningPair(pairs[0]).Some? {
        var e := MeaningPair(pairs[0]).value;
        ReadEncodedPairs(pairs[1..], data, pos + |EncodePair(pairs[0])|, Put(done, e));
        PairsReadStep(pairs, data, pos, done, e);
      } else {
        PairsReadNone(pairs, data, pos, done);
      }
    }
  }

  lemma PairsReadNone(pairs: seq<Pair>, data: seq<byte>, pos: nat, done: seq<Entry>)
    requires pairs != [] && (forall i | 0 <= i < |pairs| :: WellFormedPair(pairs[i]))
    requires MeaningPair(pairs[0]).None? && ReadEntry(data, pos).Failed?
    ensures ReadsPairs(pairs, data, pos, done)
  {
  }

  lemma PairsReadStep(pairs: seq<Pair>, data: seq<byte>, pos: nat, done: seq<Entry>, e: Entry)
    requires pairs != [] && (forall i | 0 <= i < |pairs| :: WellFormedPair(pairs[i]))
    requires MeaningPair(pairs[0]) == Some(e) && ReadEntry(data, pos) == Parsed(e, pos + |EncodePair(pairs[0])|)
    requires ReadsPairs(pairs[1..], data, pos + |EncodePair(pairs[0])|, Put(done, e))
    ensures ReadsPairs(pairs, data, pos, done)
  {
    var rest := pairs[1..];
    assert ReadPairs(data, pos, |pairs|, done) == ReadPairs(data, pos + |EncodePair(pairs[0])|, |rest|, Put(done, e));
    assert MeaningPairs(pairs, done) == MeaningPairs(rest, Put(done, e));
    assert |EncodePairs(pairs)| == |EncodePair(pairs[0])| + |EncodePairs(rest)|;
  }

  lemma PairAgrees(p: Pair, middle: nat, end: nat, k: Parse<Value>, v: Parse<Value>)
    requires Agrees(Meaning(p.key), middle, k) && (k.Parsed? ==> Agrees(Meaning(p.value), end, v))
    ensures Agrees(MeaningPair(p), end, match k case Failed(e) => Failed(e) case Parsed(key, _) => EntryFrom(key, v))
  {
  }

  lemma PairReads(p: Pair, data: seq<byte>, pos: nat)
    requires WellFormedPair(p) && Reads(p.key, data, pos)
    requires Reads(p.value, data, pos + |Encode(p.key)|)
    ensures Agrees(MeaningPair(p), pos + |EncodePair(p)|, ReadEntry(data, pos))
  {
    var k, v := Read(data, pos), Read(data, pos + |Encode(p.key)|);
    assert k.Parsed? ==> k.end == pos + |Encode(p.key)|;
    assert ReadEntry(data, pos) == match k case Failed(e) => Failed(e) case Parsed(key, _) => EntryFrom(key, v);
    PairAgrees(p, pos + |Encode(p.key)|, pos + |EncodePair(p)|, k, v);
  }

  lemma {:induction false} ReadEncodedPair(p: Pair, data: seq<byte>, pos: nat)
    requires WellFormedPair(p) && At(data, pos, EncodePair(p))
    ensures Agrees(MeaningPair(p), pos + |EncodePair(p)|, ReadEntry(data, pos))
    decreases p, 0
  {
    AtSplit(data, pos, Encode(p.key), Encode(p.value));
    ReadEncoding(p.key, data, pos);
    ReadEncoding(p.value, data, pos + |Encode(p.key)|);
    PairReads(p, data, pos);
  }

  // --------------------------------------------------------- nothing else is read

  function WidthOf(additional: nat): Width
    requires additional < 28
  {
    if additional < 24 then Inline
    else if additional == 24 then One else if additional == 25 then Two else if additional == 26 then Four else Eight
  }

  lemma HeadRead(data: seq<byte>, pos: nat)
    requires pos < |data| && ReadLength(data, pos + 1, data[pos] % 32).Parsed?
    ensures var head := ReadLength(data, pos + 1, data[pos] % 32);
            && data[pos] % 32 < 28
            && var w := WidthOf(data[pos] % 32);
               && data[pos] / 32 < 8 && Fits(w, head.value) && At(data, pos, Head(data[pos] / 32, w, head.value))
               && head.end == pos + |Head(data[pos] / 32, w, head.value)|
  {
    var a := data[pos] % 32;
    if a >= 24 {
      ArgumentRead(data, pos, data[pos] / 32, WidthOf(a));
    }
  }

  lemma ArgumentRead(data: seq<byte>, pos: nat, major: nat, w: Width)
    requires !w.Inline? && major < 8 && pos + 1 + Size(w) <= |data|
    requires data[pos] == major * 32 + Additional(w, FromBytes(data[pos + 1..pos + 1 + Size(w)]))
    ensures var n := FromBytes(data[pos + 1..pos + 1 + Size(w)]);
            Fits(w, n) && At(data, pos, Head(major, w, n)) && |Head(major, w, n)| == 1 + Size(w)
  {
    var b := data[pos + 1..pos + 1 + Size(w)];
    ToFromBytes(b);
    assert Head(major, w, FromBytes(b)) == [data[pos]] + b;
    AtSplit(data, pos, [data[pos]], b);
  }

  /** What was read was an encoding of some item. */
  lemma {:induction false} EncodingRead(data: seq<byte>, pos: nat) returns (x: Item)
    requires Read(data, pos).Parsed?
    ensures WellFormed(x) && At(data, pos, Encode(x)) && Reads(x, data, pos)
    decreases |data| - pos, 0
  {
    if data[pos] / 32 == 4 {
      x := EncodedListRead(data, pos);
    } else if data[pos] / 32 == 5 {
      x := EncodedDictRead(data, pos);
    } else {
      x := EncodedLeafRead(data, pos);
    }
    ReadEncoding(x, data, pos);
  }

  /** The bytes behind a head, as far as they are there. */
  function Slice(data: seq<byte>, start: nat, n: nat): seq<byte> {
    if start + n <= |data| then data[start..start + n] else []
  }

  lemma BlobIsThere(data: seq<byte>, pos: nat, w: Width, n: nat)
    requires Fits(w, n) && At(data, pos, Head(2, w, n)) && pos + |Head(2, w, n)| + n <= |data|
    ensures var b := Slice(data, pos + |Head(2, w, n)|, n);
            WellFormed(Blob(w, b)) && At(data, pos, Encode(Blob(w, b)))
  {
    EncodingSplits(Blob(w, Slice(data, pos + |Head(2, w, n)|, n)), data, pos);
  }

  lemma TextIsThere(data: seq<byte>, pos: nat, w: Width, n: nat)
    requires Fits(w, n) && At(data, pos, Head(3, w, n)) && pos + |Head(3, w, n)| + n <= |data|
    requires ValidUtf8(Slice(data, pos + |Head(3, w, n)|, n))
    ensures var b := Slice(data, pos + |Head(3, w, n)|, n);
            WellFormed(Text(w, b)) && At(data, pos, Encode(Text(w, b)))
  {
    EncodingSplits(Text(w, Slice(data, pos + |Head(3, w, n)|, n)), data, pos);
  }

  /** A string that could be read is there in full, and text is valid; other types are numbers. */
  lemma BodyRead(data: seq<byte>, start: nat, major: nat, n: nat)
    requires start <= |data| && major != 4 && major != 5 && ReadBody(data, start, major, n).Parsed?
    ensures major in {0, 2, 3}
    ensures major != 0 ==> start + n <= |data|
    ensures major == 3 ==> ValidUtf8(Slice(data, start, n))
  {
  }

  lemma EncodedLeafRead(data: seq<byte>, pos: nat) returns (x: Item)
    requires Read(data, pos).Parsed? && data[pos] / 32 != 4 && data[pos] / 32 != 5
    ensures WellFormed(x) && At(data, pos, Encode(x))
  {
    HeadRead(data, pos);
    var head := ReadLength(data, pos + 1, data[pos] % 32);
    assert ReadBody(data, head.end, data[pos] / 32, head.value).Parsed? by {
      ReadIsBody(data, pos);
    }
    BodyRead(data, head.end, data[pos] / 32, head.value);
    x := LeafIsThere(data, pos, data[pos] / 32, WidthOf(data[pos] % 32), head.value);
  }

  lemma LeafIsThere(data: seq<byte>, pos: nat, major: nat, w: Width, n: nat) returns (x: Item)
    requires major in {0, 2, 3} && Fits(w, n) && At(data, pos, Head(major, w, n))
    requires major != 0 ==> pos + |Head(major, w, n)| + n <= |data|
    requires major == 3 ==> ValidUtf8(Slice(data, pos + |Head(major, w, n)|, n))
    ensures WellFormed(x) && At(data, pos, Encode(x))
  {
    if major == 0 {
      x := Number(w, n);
    } else if major == 2 {
      BlobIsThere(data, pos, w, n);
      x := Blob(w, Slice(data, pos + |Head(2, w, n)|, n));
    } else {
      TextIsThere(data, pos, w, n);
      x := Text(w, Slice(data, pos + |Head(3, w, n)|, n));
    }
  }

  lemma {:induction false} EncodedListRead(data: seq<byte>, pos: nat) returns (x: Item)
    requires Read(data, pos).Parsed? && data[pos] / 32 == 4
    ensures WellFormed(x) && At(data, pos, Encode(x))
    decreases |data| - pos - 1, 2
  {
    HeadRead(data, pos);
    ReadIsBody(data, pos);
    var head := ReadLength(data, pos + 1, data[pos] % 32);
    var items := EncodedItemsRead(data, head.end, head.value, []);
    x := List(WidthOf(data[pos] % 32), items);
    EncodingSplits(x, data, pos);
  }

  lemma {:induction false} EncodedDictRead(data: seq<byte>, pos: nat) returns (x: Item)
    requires Read(data, pos).Parsed? && data[pos] / 32 == 5
    ensures WellFormed(x) && At(data, pos, Encode(x))
    decreases |data| - pos - 1, 3
  {
    HeadRead(data, pos);
    ReadIsBody(data, pos);
    var head := ReadLength(data, pos + 1, data[pos] % 32);
    var pairs := EncodedPairsRead(data, head.end, head.value, []);
    x := Dict(WidthOf(data[pos] % 32), pairs);
    EncodingSplits(x, data, pos);
  }

  lemma {:induction false} EncodedItemsRead(data: seq<byte>, pos: nat, count: nat,
                                            done: seq<Value>) returns (items: seq<Item>)
    requires pos <= |data| && ReadItems(data, pos, count, done).Parsed?
    ensures |items| == count && (forall i | 0 <= i < |items| :: WellFormed(items[i]))
    ensures At(data, pos, EncodeItems(items))
    decreases |data| - pos, 1
  {
    if count == 0 {
      items := [];
    } else {
      var first := EncodingRead(data, pos);
      var next := Read(data, pos);
      var rest := EncodedItemsRead(data, next.end, count - 1, done + [next.value]);
      items := [first] + rest;
      assert items[1..] == rest;
      AtSplit(data, pos, Encode(first), EncodeItems(rest));
    }
  }

  lemma {:induction false} EncodedPairsRead(data: seq<byte>, pos: nat, count: nat,
                                            done: seq<Entry>) returns (pairs: seq<Pair>)
    requires pos <= |data| && ReadPairs(data, pos, count, done).Parsed?
    ensures |pairs| == count && (forall i | 0 <= i < |pairs| :: WellFormedPair(pairs[i]))
    ensures At(data, pos, EncodePairs(pairs))
    decreases |data| - pos, 2
  {
    if count == 0 {
      pairs := [];
    } else {
      var first := EncodedPairRead(data, pos);
      var next := ReadEntry(data, pos);
      var rest := EncodedPairsRead(data, next.end, count - 1, Put(done, next.value));
      pairs := [first] + rest;
      assert pairs[1..] == rest;
      AtSplit(data, pos, EncodePair(first), EncodePairs(rest));
    }
  }

  lemma {:induction false} EncodedPairRead(data: seq<byte>, pos: nat) returns (p: Pair)
    requires pos <= |data| && ReadEntry(data, pos).Parsed?
    ensures WellFormedPair(p) && At(data, pos, EncodePair(p)) && ReadEntry(data, pos).end == pos + |EncodePair(p)|
    decreases |data| - pos, 1
  {
    var key := EncodingRead(data, pos);
    var value := EncodingRead(data, Read(data, pos).end);
    p := Pair(key, value);
    AtSplit(data, pos, Encode(key), Encode(value));
  }

  // ------------------------------------------------------------------ promises

  /** A whole parse succeeds exactly on encodings, whatever head widths they use. */
  lemma AcceptsExactlyEncodings(data: seq<byte>)
    ensures ReadSingle(data).Ok? <==> exists x :: WellFormed(x) && Encode(x) == data && Meaning(x).Some?
  {
    if ReadSingle(data).Ok? {
      var x := EncodingRead(data, 0);
      assert data[0..|data|] == data;
      assert WellFormed(x) && Encode(x) == data && Meaning(x).Some?;
    }
    forall x | WellFormed(x) && Encode(x) == data && Meaning(x).Some? ensures ReadSingle(data).Ok? {
      assert data[0..|data|] == data;
      ReadEncoding(x, data, 0);
    }
  }

  /** The value read is the meaning of whichever item the bytes encode. */
  lemma ReadsTheMeaning(x: Item, suffix: seq<byte>)
    requires WellFormed(x)
    ensures match Meaning(x)
            case Some(v) => Read(Encode(x) + suffix, 0) == Parsed(v, |Encode(x)|) && ReadSingle(Encode(x)) == Ok(v)
            case None => Read(Encode(x) + suffix, 0).Failed? && ReadSingle(Encode(x)).Err?
  {
    var b := Encode(x);
    assert (b + suffix)[0..|b|] == b && b[0..|b|] == b;
    ReadEncoding(x, b + suffix, 0);
    ReadEncoding(x, b, 0);
  }

  /** Appending bytes changes neither what a successful parse yields nor where it stops. */
  lemma SuffixIsIgnored(data: seq<byte>, pos: nat, suffix: seq<byte>)
    requires Read(data, pos).Parsed?
    ensures Read(data + suffix, pos) == Read(data, pos)
  {
    var x := EncodingRead(data, pos);
    assert (data + suffix)[pos..pos + |Encode(x)|] == data[pos..pos + |Encode(x)|];
    ReadEncoding(x, data + suffix, pos);
  }

  /** No announced length can make the reader run past the bytes: n items take n bytes at least. */
  lemma {:induction false} ItemsNeedBytes(data: seq<byte>, pos: nat, count: nat, items: seq<Value>)
    requires pos <= |data| && ReadItems(data, pos, count, items).Parsed?
    ensures count <= ReadItems(data, pos, count, items).end - pos
    decreases count
  {
    if count > 0 {
      var next := Read(data, pos);
      ItemsNeedBytes(data, next.end, count - 1, items + [next.value]);
    }
  }

  // ------------------------------------------------------------- any value back

  const WORD := Pow256(8)

  predicate DistinctKeys(entries: seq<Entry>) {
    forall i, j | 0 <= i < j < |entries| :: entries[i].key != entries[j].key
  }

  /** What this subset of CBOR can carry. */
  predicate Encodable(v: Value)
    decreases v
  {
    match v
    case IntValue(n) => n < WORD
    case BytesValue(b) => |b| < WORD
    case TextValue(b) => |b| < WORD && ValidUtf8(b)
    case ListValue(items) => |items| < WORD && forall i | 0 <= i < |items| :: Encodable(items[i])
    case DictValue(entries) =>
      |entries| < WORD && DistinctKeys(entries) && forall i | 0 <= i < |entries| :: EncodableEntry(entries[i])
  }

  predicate EncodableEntry(e: Entry)
    decreases e
  {
    Hashable(e.key) && Encodable(e.key) && Encodable(e.value)
  }

  function ItemOf(v: Value): (x: Item)
    decreases v
  {
    match v
    case IntValue(n) => Number(Eight, n)
    case BytesValue(b) => Blob(Eight, b)
    case TextValue(b) => Text(Eight, b)
    case ListValue(items) => List(Eight, ItemsOf(items))
    case DictValue(entries) => Dict(Eight, PairsOf(entries))
  }

  function ItemsOf(items: seq<Value>): seq<Item>
    decreases items
  {
    if items == [] then [] else [ItemOf(items[0])] + ItemsOf(items[1..])
  }

  function PairsOf(entries: seq<Entry>): seq<Pair>
    decreases entries
  {
    if entries == [] then [] else [PairOf(entries[0])] + PairsOf(entries[1..])
  }

  function PairOf(e: Entry): Pair
    decreases e
  {
    Pair(ItemOf(e.key), ItemOf(e.value))
  }

  lemma {:induction false} PutFresh(entries: seq<Entry>, e: Entry)
    requires forall i | 0 <= i < |entries| :: entries[i].key != e.key
    ensures Put(entries, e) == entries + [e]
  {
    if entries != [] {
      PutFresh(entries[1..], e);
    }
  }

  lemma {:induction false} ItemMeans(v: Value)
    requires Encodable(v)
    ensures WellFormed(ItemOf(v)) && Meaning(ItemOf(v)) == Some(v)
    decreases v
  {
    match v
    case IntValue(_) =>
    case BytesValue(_) =>
    case TextValue(_) =>
    case ListValue(items) =>
      ItemsMean(items, []);
      assert [] + items == items;
    case DictValue(entries) =>
      assert [] + entries == entries;
      PairsMean(entries, []);
  }

  lemma {:induction false} ItemsMean(items: seq<Value>, done: seq<Value>)
    requires forall i | 0 <= i < |items| :: Encodable(items[i])
    ensures var xs := ItemsOf(items);
            && |xs| == |items| && (forall i | 0 <= i < |xs| :: WellFormed(xs[i]))
            && MeaningItems(xs, done) == Some(done + items)
    decreases items
  {
    if items == [] {
      assert done + items == done;
    } else {
      ItemMeans(items[0]);
      ItemsMean(items[1..], done + [items[0]]);
      assert done + [items[0]] + items[1..] == done + items;
      assert ItemsOf(items)[1..] == ItemsOf(items[1..]);
    }
  }

  lemma {:induction false} PairsMean(entries: seq<Entry>, done: seq<Entry>)
    requires DistinctKeys(done + entries) && forall i | 0 <= i < |entries| :: EncodableEntry(entries[i])
    ensures var ps := PairsOf(entries);
            && |ps| == |entries| && (forall i | 0 <= i < |ps| :: WellFormedPair(ps[i]))
            && MeaningPairs(ps, done) == Some(done + entries)
    decreases entries
  {
    if entries == [] {
      assert done + entries == done;
    } else {
      var e := entries[0];
      EntryMeans(e);
      forall i | 0 <= i < |done| ensures done[i].key != e.key {
        assert (done + entries)[i] == done[i] && (done + entries)[|done|] == e;
      }
      PutFresh(done, e);
      assert done + [e] + entries[1..] == done + entries;
      PairsMean(entries[1..], done + [e]);
      assert PairsOf(entries)[1..] == PairsOf(entries[1..]);
    }
  }

  lemma {:induction false} EntryMeans(e: Entry)
    requires EncodableEntry(e)
    ensures WellFormedPair(PairOf(e)) && MeaningPair(PairOf(e)) == Some(e)
    decreases e
  {
    ItemMeans(e.key);
    ItemMeans(e.value);
  }

  /** Every encodable value, maps with distinct scalar keys included, reads back as itself. */
  lemma RoundTrip(v: Value, suffix: seq<byte>)
    requires Encodable(v)
    ensures WellFormed(ItemOf(v))
    ensures Read(Encode(ItemOf(v)) + suffix, 0) == Parsed(v, |Encode(ItemOf(v))|)
    ensures ReadSingle(Encode(ItemOf(v))) == Ok(v)
  {
    ItemMeans(v);
    ReadsTheMeaning(ItemOf(v), suffix);
  }
}
