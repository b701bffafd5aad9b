/**
 The CBOR reader of attestation objects (section 3 of RFC 8949): unsigned integers, byte
 strings, text, arrays and maps, each with a definite length in any head width.
 */
module Cbor {
  import opened Prelude
  import opened ByteStrings

  /** What reading yields; a text is given by its UTF-8 bytes, a dict by its entries in order. */
  datatype Value =
    | IntValue(n: nat)
    | BytesValue(bytes: seq<byte>)
    | TextValue(utf8: seq<byte>)
    | ListValue(items: seq<Value>)
    | DictValue(entries: seq<Entry>)

  datatype Entry = Entry(key: Value, value: Value)

  predicate Hashable(v: Value) {
    v.IntValue? || v.BytesValue? || v.TextValue?
  }

  /** Storing under a key: a known key keeps its place and takes the new value. */
  function Put(entries: seq<Entry>, e: Entry): seq<Entry> {
    if entries == [] then [e]
    else if entries[0].key == e.key then [e] + entries[1..]
    else [entries[0]] + Put(entries[1..], e)
  }

  /** A value and the position behind it, or why there is none. */
  datatype Parse<+T> = Parsed(value: T, end: nat) | Failed(error: string)

  const TRUNCATED: string := "CBOR item is truncated"

  // ------------------------------------------------------------------ reading

  function ReadBytes(data: seq<byte>, pos: nat, length: nat): Parse<seq<byte>> {
    if pos + length > |data| then Failed(TRUNCATED) else Parsed(data[pos..pos + length], pos + length)
  }

  function ArgumentWidth(additional: nat): nat {
    if additional == 24 then 1 else if additional == 25 then 2 else if additional == 26 then 4 else 8
  }

  function ReadLength(data: seq<byte>, pos: nat, additional: nat): (r: Parse<nat>)
    ensures r.Parsed? && pos <= |data| ==> pos <= r.end <= |data|
  {
    if additional < 24 then Parsed(additional, pos)
    else if additional > 27 then Failed("indefinite CBOR is not supported")
    else
      match ReadBytes(data, pos, ArgumentWidth(additional))
      case Failed(e) => Failed(e)
      case Parsed(b, end) => Parsed(FromBytes(b), end)
  }

  /** One item. It always consumes at least one byte, whatever length it announces. */
  function Read(data: seq<byte>, pos: nat): (r: Parse<Value>)
    ensures r.Parsed? ==> pos < r.end <= |data|
    decreases |data| - pos, 0
  {
    if pos >= |data| then Failed("unexpected end of CBOR")
    else
      match ReadLength(data, pos + 1, data[pos] % 32)
      case Failed(e) => Failed(e)
      case Parsed(n, start) => ReadBody(data, start, data[pos] / 32, n)
  }

  /** What follows a head of this major type and argument. */
  function ReadBody(data: seq<byte>, start: nat, major: nat, n: nat): (r: Parse<Value>)
    ensures r.Parsed? && start <= |data| ==> start <= r.end <= |data|
    decreases |data| - start, 3
  {
    if major == 0 then Parsed(IntValue(n), start)
    else if major == 2 then
      match ReadBytes(data, start, n)
      case Failed(e) => Failed(e)
      case Parsed(b, end) => Parsed(BytesValue(b), end)
    else if major == 3 then
      match ReadBytes(data, start, n)
      case Failed(e) => Failed(e)
      case Parsed(b, end) => if ValidUtf8(b) then Parsed(TextValue(b), end) else Failed("invalid UTF-8")
    else if major == 4 then
      match ReadItems(data, start, n, [])
      case Failed(e) => Failed(e)
      case Parsed(items, end) => Parsed(ListValue(items), end)
    else if major == 5 then
      match ReadPairs(data, start, n, [])
      case Failed(e) => Failed(e)
      case Parsed(entries, end) => Parsed(DictValue(entries), end)
    else Failed("unsupported CBOR type")
  }

  function ReadItems(data: seq<byte>, pos: nat, count: nat, items: seq<Value>): (r: Parse<seq<Value>>)
    ensures r.Parsed? && pos <= |data| ==> pos <= r.end <= |data|
    decreases |data| - pos, 1
  {
    if count == 0 then Parsed(items, pos)
    else
      match Read(data, pos)
      case Failed(e) => Failed(e)
      case Parsed(item, end) => ReadItems(data, end, count - 1, items + [item])
  }

  /** The entry of a key and the value read behind it; the key is hashed once the value is there. */
  function EntryFrom(key: Value, r: Parse<Value>): Parse<Entry> {
    match r
    case Failed(e) => Failed(e)
    case Parsed(value, end) => if Hashable(key) then Parsed(Entry(key, value), end) else Failed("unhashable key")
  }

  /** One key with its value. */
  function ReadEntry(data: seq<byte>, pos: nat): (r: Parse<Entry>)
    ensures r.Parsed? ==> pos < r.end <= |data|
    decreases |data| - pos, 1
  {
    match Read(data, pos)
    case Failed(e) => Failed(e)
    case Parsed(key, middle) => EntryFrom(key, Read(data, middle))
  }

  function ReadPairs(data: seq<byte>, pos: nat, count: nat, entries: seq<Entry>): (r: Parse<seq<Entry>>)
    ensures r.Parsed? && pos <= |data| ==> pos <= r.end <= |data|
    decreases |data| - pos, 2
  {
    if count == 0 then Parsed(entries, pos)
    else
      match ReadEntry(data, pos)
      case Failed(e) => Failed(e)
      case Parsed(e, end) => ReadPairs(data, end, count - 1, Put(entries, e))
  }

  function ReadSingle(data: seq<byte>): Result<Value, string> {
    match Read(data, 0)
    case Failed(e) => Err(e)
    case Parsed(v, end) => if end == |data| then Ok(v) else Err("CBOR has trailing data")
  }

  // --------------------------------------------------------------- the reader

  class CborReader {
    const data: seq<byte>
    var pos: nat

    constructor (data: seq<byte>)
      ensures this.data == data && pos == 0
    {
      this.data, pos := data, 0;
    }

    method TakeBytes(length: nat) returns (r: Result<seq<byte>, string>)
      requires pos <= |data|
      modifies this`pos
      ensures pos <= |data|
      ensures match ReadBytes(data, old(pos), length)
              case Failed(e) => r == Err(e)
              case Parsed(b, end) => r == Ok(b) && pos == end
    {
      var end := pos + length;
      if end > |data| {
        return Err(TRUNCATED);
      }
      r := Ok(data[pos..end]);
      pos := end;
    }

    method TakeLength(additional: nat) returns (r: Result<nat, string>)
      requires pos <= |data|
      modifies this`pos
      ensures pos <= |data|
      ensures match ReadLength(data, old(pos), additional)
              case Failed(e) => r == Err(e)
              case Parsed(n, end) => r == Ok(n) && pos == end
    {
      if additional < 24 {
        return Ok(additional);
      }
      if additional > 27 {
        return Err("indefinite CBOR is not supported");
      }
      var b := TakeBytes(ArgumentWidth(additional));
      return match b case Ok(bytes) => Ok(FromBytes(bytes)) case Err(e) => Err(e);
    }

    method ReadValue() returns (r: Result<Value, string>)
      requires pos <= |data|
      modifies this`pos
      ensures pos <= |data|
      ensures match Read(data, old(pos))
              case Failed(e) => r == Err(e)
              case Parsed(v, end) => r == Ok(v) && pos == end
      decreases |data| - pos, 0
    {
      if pos >= |data| {
        return Err("unexpected end of CBOR");
      }
      var initial := data[pos];
      pos := pos + 1;
      var major := initial / 32;
      var length := TakeLength(initial % 32);
      if length.Err? {
        return Err(length.error);
      }
      if major == 0 {
        return Ok(IntValue(length.value));
      }
      if major == 2 || major == 3 {
        var b := TakeBytes(length.value);
        if b.Err? {
          return Err(b.error);
        }
        return if major == 2 then Ok(BytesValue(b.value))
               else if ValidUtf8(b.value) then Ok(TextValue(b.value)) else Err("invalid UTF-8");
      }
      if major == 4 {
        var items := ReadArray(length.value);
        return match items case Ok(v) => Ok(ListValue(v)) case Err(e) => Err(e);
      }
      if major == 5 {
        var entries := ReadMap(length.value);
        return match entries case Ok(v) => Ok(DictValue(v)) case Err(e) => Err(e);
      }
      return Err("unsupported CBOR type");
    }

    method ReadArray(length: nat) returns (r: Result<seq<Value>, string>)
      requires pos <= |data|
      modifies this`pos
      ensures pos <= |data|
      ensures match ReadItems(data, old(pos), length, [])
              case Failed(e) => r == Err(e)
              case Parsed(v, end) => r == Ok(v) && pos == end
      decreases |data| - pos, 1
    {
      var items: seq<Value> := [];
      for i := 0 to length
        invariant old(pos) <= pos <= |data|
        invariant ReadItems(data, pos, length - i, items) == ReadItems(data, old(pos), length, [])
      {
        var item := ReadValue();
        if item.Err? {
          return Err(item.error);
        }
        items := items + [item.value];
      }
      return Ok(items);
    }

    method ReadMap(length: nat) returns (r: Result<seq<Entry>, string>)
      requires pos <= |data|
      modifies this`pos
      ensures pos <= |data|
      ensures match ReadPairs(data, old(pos), length, [])
              case Failed(e) => r == Err(e)
              case Parsed(v, end) => r == Ok(v) && pos == end
      decreases |data| - pos, 1
    {
      var result: seq<Entry> := [];
      for i := 0 to length
        invariant old(pos) <= pos <= |data|
        invariant ReadPairs(data, pos, length - i, result) == ReadPairs(data, old(pos), length, [])
      {
        var key := ReadValue();
        if key.Err? {
          return Err(key.error);
        }
        var value := ReadValue();
        if value.Err? {
          return Err(value.error);
        }
        if !Hashable(key.value) {
          return Err("unhashable key");
        }
        result := Put(result, Entry(key.value, value.value));
      }
      return Ok(result);
    }

    method ReadWhole() returns (r: Result<Value, string>)
      requires pos == 0
      modifies this`pos
      ensures r == ReadSingle(data)
    {
      r := ReadValue();
      if r.Ok? && pos != |data| {
        r := Err("CBOR has trailing data");
      }
    }
  }

  // ----------------------------------------------------------------- encodings

  /** How many argument bytes a head carries. */
  datatype Width = Inline | One | Two | Four | Eight

  /** An encoded item: a value together with the head width chosen for each part. */
  datatype Item =
    | Number(width: Width, n: nat)
    | Blob(width: Width, bytes: seq<byte>)
    | Text(width: Width, bytes: seq<byte>)
    | List(width: Width, items: seq<Item>)
    | Dict(width: Width, pairs: seq<Pair>)

  datatype Pair = Pair(key: Item, value: Item)

  function Size(w: Width): nat {
    match w case Inline => 0 case One => 1 case Two => 2 case Four => 4 case Eight => 8
  }

  predicate Fits(w: Width, n: nat) {
    if w.Inline? then n < 24 else n < Pow256(Size(w))
  }

  function Additional(w: Width, n: nat): (a: nat)
    requires Fits(w, n)
    ensures a < 28
  {
    match w case Inline => n case One => 24 case Two => 25 case Four => 26 case Eight => 27
  }

  function Head(major: nat, w: Width, n: nat): (b: seq<byte>)
    requires major < 8 && Fits(w, n)
    ensures |b| == 1 + Size(w)
  {
    [major * 32 + Additional(w, n)] + if w.Inline? then [] else ToBytes(n, Size(w))
  }

  /** Every announced length is the true one and fits its head. */
  predicate WellFormed(x: Item)
    decreases x
  {
    match x
    case Number(w, n) => Fits(w, n)
    case Blob(w, b) => Fits(w, |b|)
    case Text(w, b) => Fits(w, |b|) && ValidUtf8(b)
    case List(w, items) => Fits(w, |items|) && forall i | 0 <= i < |items| :: WellFormed(items[i])
    case Dict(w, pairs) =>
      Fits(w, |pairs|) && forall i | 0 <= i < |pairs| :: WellFormedPair(pairs[i])
  }

  predicate WellFormedPair(p: Pair)
    decreases p
  {
    WellFormed(p.key) && WellFormed(p.value)
  }

  function Encode(x: Item): (b: seq<byte>)
    requires WellFormed(x)
    ensures b != []
    decreases x
  {
    match x
    case Number(w, n) => Head(0, w, n)
    case Blob(w, b) => Head(2, w, |b|) + b
    case Text(w, b) => Head(3, w, |b|) + b
    case List(w, items) => Head(4, w, |items|) + EncodeItems(items)
    case Dict(w, pairs) => Head(5, w, |pairs|) + EncodePairs(pairs)
  }

  function EncodeItems(items: seq<Item>): seq<byte>
    requires forall i | 0 <= i < |items| :: WellFormed(items[i])
    decreases items
  {
    if items == [] then [] else Encode(items[0]) + EncodeItems(items[1..])
  }

  function EncodePairs(pairs: seq<Pair>): seq<byte>
    requires forall i | 0 <= i < |pairs| :: WellFormedPair(pairs[i])
    decreases pairs
  {
    if pairs == [] then [] else EncodePair(pairs[0]) + EncodePairs(pairs[1..])
  }

  function EncodePair(p: Pair): seq<byte>
    requires WellFormedPair(p)
    decreases p
  {
    Encode(p.key) + Encode(p.value)
  }

  /** The value an item stands for; none if some key is an array or a map. */
  function Meaning(x: Item): Option<Value>
    decreases x
  {
    match x
    case Number(_, n) => Some(IntValue(n))
    case Blob(_, b) => Some(BytesValue(b))
    case Text(_, b) => Some(TextValue(b))
    case List(_, items) =>
      (match MeaningItems(items, []) case Some(v) => Some(ListValue(v)) case None => None)
    case Dict(_, pairs) =>
      (match MeaningPairs(pairs, []) case Some(v) => Some(DictValue(v)) case None => None)
  }

  function MeaningItems(items: seq<Item>, done: seq<Value>): Option<seq<Value>>
    decreases items
  {
    if items == [] then Some(done)
    else if Meaning(items[0]).None? then None
    else MeaningItems(items[1..], done + [Meaning(items[0]).value])
  }

  function MeaningPairs(pairs: seq<Pair>, done: seq<Entry>): Option<seq<Entry>>
    decreases pairs
  {
    if pairs == [] then Some(done)
    else
      match MeaningPair(pairs[0])
      case None => None
      case Some(e) => MeaningPairs(pairs[1..], Put(done, e))
  }

  function MeaningPair(p: Pair): Option<Entry>
    decreases p
  {
    var k, v := Meaning(p.key), Meaning(p.value);
    if k.None? || v.None? || !Hashable(k.value) then None else Some(Entry(k.value, v.value))
  }
}
