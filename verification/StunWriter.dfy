/** The attribute writer of src/celovpn/ministun.c: it fills a message behind its header. */
module StunWriter {
  import opened Common
  import opened StunCodec
  import opened StunParser

  /** The attributes written so far lie between the header and attr. */
  ghost predicate Holds(bytes: seq<Byte>, attr: nat, written: seq<Attr>) {
    && HEADER_SIZE <= attr <= |bytes|
    && AllEncodable(written)
    && bytes[HEADER_SIZE..attr] == Encode(written)
  }

  lemma HoldsNone(bytes: seq<Byte>)
    requires HEADER_SIZE <= |bytes|
    ensures Holds(bytes, HEADER_SIZE, [])
  {
  }

  lemma HoldsMore(bytes: seq<Byte>, attr: nat, written: seq<Attr>, a: Attr)
    requires Holds(bytes, attr, written) && Encodable(a) && attr + ATTR_HEADER + |a.value| <= |bytes|
    ensures var size := ATTR_HEADER + |a.value|;
            Holds(Splice(bytes, attr, EncodeAttr(a)), attr + size, written + [a])
  {
    EncodeAppend(written, a);
    hide Encode;
  }

  /** s with the bytes at a position replaced. */
  function Splice(s: seq<Byte>, at: nat, bytes: seq<Byte>): (t: seq<Byte>)
    requires at + |bytes| <= |s|
    ensures |t| == |s|
  {
    s[..at] + bytes + s[at + |bytes|..]
  }

  lemma SpliceTwice(s: seq<Byte>, at: nat, head: seq<Byte>, tail: seq<Byte>)
    requires at + |head| + |tail| <= |s|
    ensures Splice(Splice(s, at, head), at + |head|, tail) == Splice(s, at, head + tail)
  {
  }

  /** memcpy */
  method Put(buf: array<Byte>, at: nat, bytes: seq<Byte>)
    requires at + |bytes| <= buf.Length
    modifies buf
    ensures buf[..] == Splice(old(buf[..]), at, bytes)
  {
    forall i | 0 <= i < |bytes| {
      buf[at + i] := bytes[i];
    }
  }

  /** htons into two bytes: only the low 16 bits of the number are kept. */
  function NetworkShort(n: nat): (b: seq<Byte>)
    ensures |b| == 2 && U16(b[0], b[1]) == n % 0x1_0000
  {
    Field(n % 0x1_0000)
  }

  lemma AttrBytes(typ: nat, s: seq<Byte>)
    requires |s| < 0x1_0000
    ensures Encodable(Attr(typ % 0x1_0000, s))
    ensures NetworkShort(typ) + NetworkShort(|s|) + s == EncodeAttr(Attr(typ % 0x1_0000, s))
  {
    assert |s| % 0x1_0000 == |s|;
    hide Field;
  }

  /** bytes is a message of which len attribute bytes are written and left are free. */
  ghost predicate IsMessage(bytes: seq<Byte>, attr: nat, len: nat, left: nat, written: seq<Attr>) {
    && attr == HEADER_SIZE + len
    && len + left + HEADER_SIZE == |bytes| <= 0x1_0000
    && Holds(bytes, attr, written)
  }

  /** What one accepted attribute does to the message. */
  lemma Grow(was: seq<Byte>, attr: nat, len: nat, left: nat, written: seq<Attr>, typ: nat, value: seq<Byte>)
    requires IsMessage(was, attr, len, left, written)
    requires left > ATTR_HEADER + |value|
    ensures attr + ATTR_HEADER + |value| <= |was|
    ensures var size := ATTR_HEADER + |value|;
            var now := Splice(was, attr, NetworkShort(typ) + NetworkShort(|value|) + value);
            && IsMessage(now, attr + size, len + size, left - size, written + [Attr(typ % 0x1_0000, value)])
            && now[..HEADER_SIZE] == was[..HEADER_SIZE] && now[attr + size..] == was[attr + size..]
  {
    AttrBytes(typ, value);
    HoldsMore(was, attr, written, Attr(typ % 0x1_0000, value));
  }

  /** A response buffer with the attr, len and left of the code; written is what is in it. */
  class Message {
    const buf: array<Byte>
    var attr: nat
    var len: nat
    var left: nat
    ghost var written: seq<Attr>

    ghost predicate Valid()
      reads this, buf
    {
      IsMessage(buf[..], attr, len, left, written)
    }

    /** A fresh response buffer; its bytes are arbitrary. */
    constructor (size: nat)
      requires HEADER_SIZE <= size <= 0x1_0000
      ensures Valid() && fresh(buf) && buf.Length == size && written == []
      ensures len == 0 && left == size - HEADER_SIZE
    {
      buf := new Byte[size];
      attr, len, left, written := HEADER_SIZE, 0, size - HEADER_SIZE, [];
      new;
      HoldsNone(buf[..]);
    }

    /** Write a string attribute if it fits with at least one byte to spare; otherwise do nothing. */
    method AppendString(typ: nat, s: seq<Byte>)
      requires Valid()
      modifies this, buf
      ensures Valid() && len + left == old(len + left)
      ensures if old(left) > ATTR_HEADER + |s|
              then written == old(written) + [Attr(typ % 0x1_0000, s)] && len == old(len) + ATTR_HEADER + |s|
              else written == old(written) && len == old(len) && buf[..] == old(buf[..])
      ensures attr <= buf.Length && buf[..][..HEADER_SIZE] == old(buf[..])[..HEADER_SIZE]
      ensures buf[..][attr..] == old(buf[..])[attr..]
    {
      hide IsMessage, NetworkShort, Splice;
      MessageRange(buf[..], attr, len, left, written);
      var size := ATTR_HEADER + |s|;
      if left > size {
        ghost var was := buf[..];
        Grow(was, attr, len, left, written, typ, s);
        SpliceTwice(was, attr, NetworkShort(typ) + NetworkShort(|s|), s);
        Put(buf, attr, NetworkShort(typ) + NetworkShort(|s|));
        Put(buf, attr + ATTR_HEADER, s);
        attr := attr + ATTR_HEADER + |s|;
        len := len + size;
        left := left - size;
        written := written + [Attr(typ % 0x1_0000, s)];
      }
    }

    /** Write an address attribute under the same condition. */
    method AppendAddress(typ: nat, sock: Address)
      requires Valid() && IsAddress(sock)
      modifies this, buf
      ensures Valid() && len + left == old(len + left)
      ensures if old(left) > ATTR_HEADER + 8
              then written == old(written) + [AddressAttr(typ, sock)] && len == old(len) + ATTR_HEADER + 8
              else written == old(written) && len == old(len) && buf[..] == old(buf[..])
      ensures attr <= buf.Length && buf[..][..HEADER_SIZE] == old(buf[..])[..HEADER_SIZE]
      ensures buf[..][attr..] == old(buf[..])[attr..]
    {
      hide IsMessage, NetworkShort, Splice;
      MessageRange(buf[..], attr, len, left, written);
      var size := ATTR_HEADER + 8;
      if left > size {
        ghost var was := buf[..];
        Grow(was, attr, len, left, written, typ, AddressValue(sock));
        SpliceTwice(was, attr, NetworkShort(typ) + NetworkShort(8), AddressValue(sock));
        Put(buf, attr, NetworkShort(typ) + NetworkShort(8));
        Put(buf, attr + ATTR_HEADER, AddressValue(sock));
        attr := attr + ATTR_HEADER + 8;
        len := len + size;
        left := left - size;
        written := written + [AddressAttr(typ, sock)];
      }
    }

    /** Write into the header only. */
    method PutHeader(at: nat, bytes: seq<Byte>)
      requires Valid() && buf.Length >= HEADER_SIZE && at + |bytes| <= HEADER_SIZE
      modifies buf
      ensures Valid() && buf.Length >= HEADER_SIZE
      ensures buf[..][..HEADER_SIZE] == Splice(old(buf[..][..HEADER_SIZE]), at, bytes)
    {
      hide IsMessage;
      MessageRange(buf[..], attr, len, left, written);
      HeaderOnly(buf[..], attr, len, left, written, at, bytes);
      Put(buf, at, bytes);
    }
  }

  predicate IsAddress(sock: Address) { |sock.port| == 2 && |sock.addr| == 4 }

  /** struct stun_addr: an unused byte, the family, port and address as they are. */
  function AddressValue(sock: Address): (v: seq<Byte>)
    requires IsAddress(sock)
    ensures |v| == 8
  {
    [0, 1] + sock.port + sock.addr
  }

  function AddressAttr(typ: nat, sock: Address): Attr
    requires IsAddress(sock)
  {
    Attr(typ % 0x1_0000, AddressValue(sock))
  }

  lemma SpliceHead(was: seq<Byte>, at: nat, bytes: seq<Byte>, n: nat)
    requires at + |bytes| <= n <= |was|
    ensures var now := Splice(was, at, bytes);
            && now[..n] == Splice(was[..n], at, bytes)
            && now[n..] == was[n..] && forall j :: n <= j <= |was| ==> now[n..j] == was[n..j]
  {
    var now := Splice(was, at, bytes);
    assert now == Splice(was[..n], at, bytes) + was[n..];
  }

  lemma HeaderOnly(was: seq<Byte>, attr: nat, len: nat, left: nat, written: seq<Attr>, at: nat, bytes: seq<Byte>)
    requires IsMessage(was, attr, len, left, written) && at + |bytes| <= HEADER_SIZE
    ensures HEADER_SIZE <= |was|
    ensures var now := Splice(was, at, bytes);
            && IsMessage(now, attr, len, left, written)
            && now[..HEADER_SIZE] == Splice(was[..HEADER_SIZE], at, bytes)
  {
    hide Splice, Encode, AllEncodable;
    SpliceHead(was, at, bytes, HEADER_SIZE);
  }

  lemma MessageRange(bytes: seq<Byte>, attr: nat, len: nat, left: nat, written: seq<Attr>)
    requires IsMessage(bytes, attr, len, left, written)
    ensures HEADER_SIZE == 20 && ATTR_HEADER == 4
    ensures HEADER_SIZE <= attr <= |bytes| && attr + left == |bytes|
  {
  }
}
