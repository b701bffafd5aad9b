/**
 The DER reader of the attestation nonce (section 8.1.3 of X.690): an octet string, bare, in
 a sequence, or in a tagged element of a sequence, with any length form of up to four bytes.
 */
module Der {
  import opened Prelude
  import opened ByteStrings

  const OCTETS: byte := 0x04
  const SEQUENCE: byte := 0x30

  type Parse<T> = Result<(T, nat), string>

  // ------------------------------------------------------------------ reading

  function ReadLength(data: seq<byte>, pos: nat): Parse<nat> {
    if pos >= |data| then Err("DER length is missing")
    else if data[pos] < 0x80 then Ok((data[pos], pos + 1))
    else
      var count := data[pos] - 0x80;
      if count == 0 || count > 4 || pos + 1 + count > |data| then Err("DER length is invalid")
      else Ok((FromBytes(data[pos + 1..pos + 1 + count]), pos + 1 + count))
  }

  function ReadTlv(data: seq<byte>, pos: nat, tag: byte): (r: Parse<seq<byte>>)
    ensures r.Ok? ==> pos < r.value.1 <= |data|
  {
    if pos >= |data| || data[pos] != tag then Err("unexpected DER tag")
    else
      match ReadLength(data, pos + 1)
      case Err(e) => Err(e)
      case Ok(n) =>
        if n.1 + n.0 > |data| then Err("DER value is truncated")
        else Ok((data[n.1..n.1 + n.0], n.1 + n.0))
  }

  /** One element that fills the bytes. */
  function ReadWhole(data: seq<byte>, tag: byte): Result<seq<byte>, string> {
    match ReadTlv(data, 0, tag)
    case Err(e) => Err(e)
    case Ok(v) => if v.1 == |data| then Ok(v.0) else Err("DER has trailing bytes")
  }

  function DecodeInner(data: seq<byte>): Result<seq<byte>, string> {
    if data != [] && data[0] == OCTETS then ReadWhole(data, OCTETS)
    else if data != [] && (data[0] == 0xA0 || data[0] == 0xA1) then
      match ReadTlv(data, 0, data[0])
      case Err(e) => Err(e)
      case Ok(tagged) =>
        match ReadWhole(tagged.0, OCTETS)
        case Err(e) => Err(e)
        case Ok(v) => if tagged.1 == |data| then Ok(v) else Err("DER has trailing bytes")
    else Err("unexpected DER tag")
  }

  function DecodeOctetString(data: seq<byte>): Result<seq<byte>, string> {
    if data != [] && data[0] == OCTETS then ReadWhole(data, OCTETS)
    else
      match ReadWhole(data, SEQUENCE)
      case Err(e) => Err(e)
      case Ok(inner) => DecodeInner(inner)
  }

  // --------------------------------------------------------------- the reader

  class DerReader {
    const data: seq<byte>
    var pos: nat

    constructor (data: seq<byte>)
      ensures this.data == data && pos == 0
    {
      this.data, pos := data, 0;
    }

    method TakeLength() returns (r: Result<nat, string>)
      modifies this`pos
      ensures match ReadLength(data, old(pos))
              case Err(e) => r == Err(e)
              case Ok(n) => r == Ok(n.0) && pos == n.1
    {
      if pos >= |data| {
        return Err("DER length is missing");
      }
      var first := data[pos];
      pos := pos + 1;
      if first < 0x80 {
        return Ok(first);
      }
      var count := first - 0x80;
      if count == 0 || count > 4 || pos + count > |data| {
        return Err("DER length is invalid");
      }
      var value := FromBytes(data[pos..pos + count]);
      pos := pos + count;
      return Ok(value);
    }

    method TakeTlv(tag: byte) returns (r: Result<seq<byte>, string>)
      modifies this`pos
      ensures match ReadTlv(data, old(pos), tag)
              case Err(e) => r == Err(e)
              case Ok(v) => r == Ok(v.0) && pos == v.1
    {
      if pos >= |data| || data[pos] != tag {
        return Err("unexpected DER tag");
      }
      pos := pos + 1;
      var length := TakeLength();
      if length.Err? {
        return Err(length.error);
      }
      var end := pos + length.value;
      if end > |data| {
        return Err("DER value is truncated");
      }
      var value := data[pos..end];
      pos := end;
      return Ok(value);
    }

    predicate Peeks(tag: byte)
      reads this
    {
      pos < |data| && data[pos] == tag
    }
  }

  /** Reads one element and refuses trailing bytes. */
  method DecodeWhole(data: seq<byte>, tag: byte) returns (r: Result<seq<byte>, string>)
    ensures r == ReadWhole(data, tag)
  {
    var reader := new DerReader(data);
    r := reader.TakeTlv(tag);
    if r.Ok? && reader.pos != |data| {
      r := Err("DER has trailing bytes");
    }
  }

  method DecodeDerSequenceOctetString(data: seq<byte>) returns (r: Result<seq<byte>, string>)
    ensures r == DecodeOctetString(data)
  {
    if |data| >= 1 && data[0] == OCTETS {
      r := DecodeWhole(data, OCTETS);
      return;
    }
    var sequence := DecodeWhole(data, SEQUENCE);
    if sequence.Err? {
      return sequence;
    }
    var inner := new DerReader(sequence.value);
    if inner.Peeks(OCTETS) {
      r := inner.TakeTlv(OCTETS);
    } else if inner.Peeks(0xA0) || inner.Peeks(0xA1) {
      var tagged := inner.TakeTlv(inner.data[inner.pos]);
      if tagged.Err? {
        return tagged;
      }
      r := DecodeWhole(tagged.value, OCTETS);
    } else {
      return Err("unexpected DER tag");
    }
    if r.Ok? && inner.pos != |inner.data| {
      r := Err("DER has trailing bytes");
    }
  }

  // ----------------------------------------------------------------- encodings

  /** The short form, or the long form with a count of length bytes. */
  datatype Form = Short | Long(count: nat)

  predicate Fits(f: Form, n: nat) {
    match f
    case Short => n < 0x80
    case Long(k) => 1 <= k <= 4 && n < Pow256(k)
  }

  function LengthBytes(f: Form, n: nat): (b: seq<byte>)
    requires Fits(f, n)
    ensures b != []
  {
    match f
    case Short => [n]
    case Long(k) => [0x80 + k] + ToBytes(n, k)
  }

  function Tlv(tag: byte, f: Form, value: seq<byte>): (b: seq<byte>)
    requires Fits(f, |value|)
    ensures b != [] && b[0] == tag
  {
    [tag] + LengthBytes(f, |value|) + value
  }

  lemma ShortLengthReads(data: seq<byte>, pos: nat, n: nat)
    requires n < 0x80 && pos < |data| && data[pos] == n
    ensures ReadLength(data, pos) == Ok((n, pos + 1))
  {
  }

  lemma LongLengthReads(data: seq<byte>, pos: nat, k: nat, n: nat)
    requires 1 <= k <= 4 && pos + 1 + k <= |data|
    requires data[pos] == 0x80 + k && FromBytes(data[pos + 1..pos + 1 + k]) == n
    ensures ReadLength(data, pos) == Ok((n, pos + 1 + k))
  {
  }

  lemma LengthReads(pre: seq<byte>, f: Form, n: nat, rest: seq<byte>)
    requires Fits(f, n)
    ensures ReadLength(pre + LengthBytes(f, n) + rest, |pre|) == Ok((n, |pre| + |LengthBytes(f, n)|))
  {
    var b := LengthBytes(f, n);
    var data := pre + b + rest;
    assert data[|pre|..|pre| + |b|] == b;
    assert data[|pre|] == data[|pre|..|pre| + |b|][0];
    match f
    case Short => ShortLengthReads(data, |pre|, n);
    case Long(k) =>
      assert data[|pre| + 1..|pre| + 1 + k] == data[|pre|..|pre| + |b|][1..] == ToBytes(n, k);
      FromToBytes(n, k);
      LongLengthReads(data, |pre|, k, n);
  }

  /** Reading undoes writing, for every length form, and ignores what follows. */
  lemma TlvReads(tag: byte, f: Form, value: seq<byte>, rest: seq<byte>)
    requires Fits(f, |value|)
    ensures ReadTlv(Tlv(tag, f, value) + rest, 0, tag) == Ok((value, |Tlv(tag, f, value)|))
  {
    var b := Tlv(tag, f, value);
    var l := LengthBytes(f, |value|);
    assert b + rest == [tag] + l + (value + rest);
    LengthReads([tag], f, |value|, value + rest);
    assert (b + rest)[1 + |l|..1 + |l| + |value|] == value;
  }

  lemma WholeReads(tag: byte, f: Form, value: seq<byte>)
    requires Fits(f, |value|)
    ensures ReadWhole(Tlv(tag, f, value), tag) == Ok(value)
  {
    assert Tlv(tag, f, value) + [] == Tlv(tag, f, value);
    TlvReads(tag, f, value, []);
  }

  /** An element that could be read is the encoding of its value. */
  lemma LongLengthRead(data: seq<byte>, pos: nat, k: nat)
    requires 1 <= k <= 4 && pos + 1 + k <= |data| && data[pos] == 0x80 + k
    ensures var n := FromBytes(data[pos + 1..pos + 1 + k]);
            Fits(Long(k), n) && data[pos..pos + 1 + k] == LengthBytes(Long(k), n)
  {
    var b := data[pos + 1..pos + 1 + k];
    ToFromBytes(b);
    assert data[pos..pos + 1 + k] == [data[pos]] + b;
  }

  lemma LengthRead(data: seq<byte>, pos: nat) returns (f: Form)
    requires ReadLength(data, pos).Ok?
    ensures var n := ReadLength(data, pos).value;
            Fits(f, n.0) && pos < n.1 <= |data| && data[pos..n.1] == LengthBytes(f, n.0)
  {
    if data[pos] < 0x80 {
      f := Short;
    } else {
      f := Long(data[pos] - 0x80);
      LongLengthRead(data, pos, data[pos] - 0x80);
    }
  }

  /** An element that could be read is the encoding of its value. */
  lemma TlvRead(data: seq<byte>, tag: byte) returns (f: Form)
    requires ReadTlv(data, 0, tag).Ok?
    ensures var v := ReadTlv(data, 0, tag).value;
            Fits(f, |v.0|) && data[..v.1] == Tlv(tag, f, v.0)
  {
    f := LengthRead(data, 1);
    var n := ReadLength(data, 1).value;
    var v := ReadTlv(data, 0, tag).value;
    assert data[..v.1] == [data[0]] + data[1..n.1] + data[n.1..v.1];
  }

  /** The three ways an octet string may be wrapped. */
  datatype Wrapping =
    | Bare(form: Form)
    | InSequence(outer: Form, form: Form)
    | InTagged(outer: Form, tag: byte, middle: Form, form: Form)

  predicate Wraps(w: Wrapping, v: seq<byte>) {
    match w
    case Bare(f) => Fits(f, |v|)
    case InSequence(o, f) => Fits(f, |v|) && Fits(o, |Tlv(OCTETS, f, v)|)
    case InTagged(o, tag, m, f) =>
      && (tag == 0xA0 || tag == 0xA1) && Fits(f, |v|) && Fits(m, |Tlv(OCTETS, f, v)|)
      && Fits(o, |Tlv(tag, m, Tlv(OCTETS, f, v))|)
  }

  function Wrap(w: Wrapping, v: seq<byte>): seq<byte>
    requires Wraps(w, v)
  {
    match w
    case Bare(f) => Tlv(OCTETS, f, v)
    case InSequence(o, f) => Tlv(SEQUENCE, o, Tlv(OCTETS, f, v))
    case InTagged(o, tag, m, f) => Tlv(SEQUENCE, o, Tlv(tag, m, Tlv(OCTETS, f, v)))
  }

  lemma SequenceDecodes(o: Form, inner: seq<byte>)
    requires Fits(o, |inner|)
    ensures DecodeOctetString(Tlv(SEQUENCE, o, inner)) == DecodeInner(inner)
  {
    WholeReads(SEQUENCE, o, inner);
  }

  lemma TaggedDecodes(tag: byte, m: Form, f: Form, v: seq<byte>)
    requires (tag == 0xA0 || tag == 0xA1) && Fits(f, |v|) && Fits(m, |Tlv(OCTETS, f, v)|)
    ensures DecodeInner(Tlv(tag, m, Tlv(OCTETS, f, v))) == Ok(v)
  {
    var octets := Tlv(OCTETS, f, v);
    assert Tlv(tag, m, octets) + [] == Tlv(tag, m, octets);
    TlvReads(tag, m, octets, []);
    WholeReads(OCTETS, f, v);
  }

  /** Decoding inverts all three wrappings, in any length form. */
  lemma DecodeInvertsWrap(w: Wrapping, v: seq<byte>)
    requires Wraps(w, v)
    ensures DecodeOctetString(Wrap(w, v)) == Ok(v)
  {
    match w
    case Bare(f) => WholeReads(OCTETS, f, v);
    case InSequence(o, f) =>
      SequenceDecodes(o, Tlv(OCTETS, f, v));
      WholeReads(OCTETS, f, v);
    case InTagged(o, tag, m, f) =>
      SequenceDecodes(o, Tlv(tag, m, Tlv(OCTETS, f, v)));
      TaggedDecodes(tag, m, f, v);
  }

  lemma WholeRead(data: seq<byte>, tag: byte) returns (f: Form)
    requires ReadWhole(data, tag).Ok?
    ensures Fits(f, |ReadWhole(data, tag).value|) && data == Tlv(tag, f, ReadWhole(data, tag).value)
  {
    f := TlvRead(data, tag);
    assert data[..|data|] == data;
  }

  /** Whatever decodes is a wrapping of the value: nothing else is accepted. */
  lemma DecodedIsWrapping(data: seq<byte>) returns (w: Wrapping)
    requires DecodeOctetString(data).Ok?
    ensures Wraps(w, DecodeOctetString(data).value) && Wrap(w, DecodeOctetString(data).value) == data
  {
    if data != [] && data[0] == OCTETS {
      var f := WholeRead(data, OCTETS);
      w := Bare(f);
    } else {
      var o := WholeRead(data, SEQUENCE);
      var inner := ReadWhole(data, SEQUENCE).value;
      if inner[0] == OCTETS {
        var f := WholeRead(inner, OCTETS);
        w := InSequence(o, f);
      } else {
        var m := TlvRead(inner, inner[0]);
        assert inner[..|inner|] == inner;
        var f := WholeRead(ReadTlv(inner, 0, inner[0]).value.0, OCTETS);
        w := InTagged(o, inner[0], m, f);
      }
    }
  }

  /** Exactly the wrappings decode. */
  lemma DecodesExactlyWrappings(data: seq<byte>, v: seq<byte>)
    ensures DecodeOctetString(data) == Ok(v) <==> exists w :: Wraps(w, v) && Wrap(w, v) == data
  {
    if DecodeOctetString(data) == Ok(v) {
      var w := DecodedIsWrapping(data);
      assert Wraps(w, v) && Wrap(w, v) == data;
    }
    forall w | Wraps(w, v) && Wrap(w, v) == data ensures DecodeOctetString(data) == Ok(v) {
      DecodeInvertsWrap(w, v);
    }
  }
}
