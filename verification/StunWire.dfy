/** STUN messages byte by byte: what goes over the wire, written out without the functions that build and read it. */
module StunWire {
  import opened Common
  import opened StunCodec
  import opened StunParser
  import opened StunWriter
  import opened StunResponder

  /** The most significant byte comes first. */
  lemma ByteOrder(hi: Byte, lo: Byte)
    ensures U16(hi, lo) / 256 == hi as int && U16(hi, lo) % 256 == lo as int
  {
  }

  lemma FieldBytes(n: nat)
    requires n < 0x1_0000
    ensures Field(n) == [(n / 256) as Byte, (n % 256) as Byte]
  {
    var f := Field(n);
    ByteOrder(f[0], f[1]);
    assert f == [f[0], f[1]];
    hide Field, U16;
  }

  lemma ShortIs(n: nat)
    requires n < 0x1_0000
    ensures NetworkShort(n) == Field(n)
  {
    hide Field;
    assert n % 0x1_0000 == n;
  }

  lemma ShortBytes(n: nat)
    requires n < 0x1_0000
    ensures NetworkShort(n) == [(n / 256) as Byte, (n % 256) as Byte]
  {
    hide *;
    ShortIs(n);
    FieldBytes(n);
  }

  lemma AttrIs(a: Attr)
    requires Encodable(a)
    ensures EncodeAttr(a) == [(a.typ / 256) as Byte, (a.typ % 256) as Byte,
                              (|a.value| / 256) as Byte, (|a.value| % 256) as Byte] + a.value
  {
    FieldBytes(a.typ);
    FieldBytes(|a.value|);
    hide Field;
  }

  lemma EncodeOne(a: Attr)
    requires Encodable(a)
    ensures AllEncodable([a]) && Encode([a]) == EncodeAttr(a)
  {
    EncodeMore(a, []);
    EncodeNone();
    assert [a] + [] == [a];
    hide EncodeAttr, Encodable;
  }

  lemma EncodeTwo(a: Attr, b: Attr)
    requires Encodable(a) && Encodable(b)
    ensures AllEncodable([a, b]) && Encode([a, b]) == EncodeAttr(a) + EncodeAttr(b)
  {
    EncodeOne(b);
    EncodeMore(a, [b]);
    assert [a] + [b] == [a, b];
    hide Encode, EncodeAttr, Encodable;
  }

  // ------------------------------------------------------------------ what is written

  /** A MAPPED-ADDRESS attribute. */
  lemma AddressBytes(src: Address)
    requires IsAddress(src)
    ensures var a := AddressAttr(MAPPED_ADDRESS, src);
            Encodable(a) && EncodeAttr(a) == [0, 1, 0, 8, 0, 1] + src.port + src.addr
  {
    AttrIs(AddressAttr(MAPPED_ADDRESS, src));
    hide EncodeAttr;
  }

  /** A USERNAME attribute. */
  lemma NameBytes(name: seq<Byte>)
    requires |name| < 1000
    ensures var a := Attr(USERNAME, name);
            Encodable(a) && EncodeAttr(a) == [0, 6, (|name| / 256) as Byte, (|name| % 256) as Byte] + name
  {
    AttrIs(Attr(USERNAME, name));
    hide EncodeAttr;
  }

  lemma PacketBytes(typ: nat, id: seq<Byte>, attrs: seq<Attr>, body: seq<Byte>)
    requires typ < 0x1_0000 && AllEncodable(attrs) && Encode(attrs) == body && |body| < 0x1_0000
    ensures Packet(typ, id, attrs) ==
            [(typ / 256) as Byte, (typ % 256) as Byte, (|body| / 256) as Byte, (|body| % 256) as Byte] + id + body
  {
    hide *;
    PacketIs(typ, id, attrs);
    ShortBytes(typ);
    ShortBytes(|body|);
  }

  /** A request without a user name, or with one that does not fit, is its header; with a name of up to 999 bytes it
      carries the name. */
  lemma RequestBytes(id: seq<Byte>, user: Option<seq<Byte>>)
    requires |id| == 16
    ensures Request(id, user) ==
            if user == None || |user.value| >= 1000 then [0, 1, 0, 0] + id
            else var n := |user.value|;
                 [0, 1, ((n + 4) / 256) as Byte, ((n + 4) % 256) as Byte] + id +
                 ([0, 6, (n / 256) as Byte, (n % 256) as Byte] + user.value)
  {
    if user == None || |user.value| >= 1000 {
      EncodeNone();
      PacketBytes(BIND_REQUEST, id, [], []);
      assert [0, 1, 0, 0] + id + [] == [0, 1, 0, 0] + id;
    } else {
      var a := Attr(USERNAME, user.value);
      NameBytes(user.value);
      EncodeOne(a);
      PacketBytes(BIND_REQUEST, id, [a], EncodeAttr(a));
    }
    hide Packet, Encode, EncodeAttr, AllEncodable, Encodable;
  }

  /** The attributes of a reply to a request with this name. */
  lemma ReplyPart(user: Option<seq<Byte>>, src: Address) returns (attrs: seq<Attr>)
    requires IsAddress(src)
    ensures attrs == ReplyAttrs(user, src) && AllEncodable(attrs) && |src.port| == 2 && |src.addr| == 4
    ensures var address := [0, 1, 0, 8, 0, 1] + src.port + src.addr;
            Encode(attrs) ==
            if user == None || |user.value| >= 1000 then address
            else
              var n := |user.value|;
              var name := [0, 6, (n / 256) as Byte, (n % 256) as Byte] + user.value;
              if n >= 988 then name else name + address
  {
    var a := AddressAttr(MAPPED_ADDRESS, src);
    AddressBytes(src);
    NamedSize(user, src);
    if user == None || |user.value| >= 1000 {
      attrs := [a];
      EncodeOne(a);
    } else {
      var n := Attr(USERNAME, user.value);
      NameBytes(user.value);
      if |user.value| >= 988 {
        attrs := [n];
        EncodeOne(n);
      } else {
        attrs := [n, a];
        EncodeTwo(n, a);
      }
    }
    hide Encode, EncodeAttr, AllEncodable, Encodable, AddressAttr, SizeOf, Mapped;
  }

  lemma Codes()
    ensures BIND_RESPONSE == 257 && BIND_REQUEST == 1
  {
  }

  /** The reply: the code, the length and the request's id, the user name if it has up to 999 bytes, and the sender's
      address unless the name has 988 to 999 bytes. */
  lemma ReplyBytes(id: seq<Byte>, user: Option<seq<Byte>>, src: Address)
    requires |id| == 16 && IsAddress(src)
    ensures var p := Packet(BIND_RESPONSE, id, ReplyAttrs(user, src));
            p == if user == None || |user.value| >= 1000 then
                   [1, 1, 0, 12] + id + ([0, 1, 0, 8, 0, 1] + src.port + src.addr)
                 else
                   var n := |user.value|;
                   var name := [0, 6, (n / 256) as Byte, (n % 256) as Byte] + user.value;
                   if n >= 988 then [1, 1, ((n + 4) / 256) as Byte, ((n + 4) % 256) as Byte] + id + name
                   else [1, 1, ((n + 16) / 256) as Byte, ((n + 16) % 256) as Byte] + id +
                        (name + ([0, 1, 0, 8, 0, 1] + src.port + src.addr))
  {
    hide *;
    Codes();
    var attrs := ReplyPart(user, src);
    PacketBytes(BIND_RESPONSE, id, attrs, Encode(attrs));
  }

  // ------------------------------------------------------------------ what is read

  /** A bind response of 32 bytes, as every server sends it. */
  function ResponseBytes(id: seq<Byte>, port: seq<Byte>, addr: seq<Byte>): seq<Byte> {
    [1, 1, 0, 12] + id + [0, 1, 0, 8, 0, 1] + port + addr
  }

  /** What counts of a packet behind its header: as many bytes as announced, and no more than there are. */
  lemma BodyBytes(t0: Byte, t1: Byte, hi: Byte, lo: Byte, id: seq<Byte>, rest: seq<Byte>)
    requires |id| == 16
    ensures var n := hi as nat * 256 + lo as nat;
            Body([t0, t1, hi, lo] + id + rest) == if n < |rest| then rest[..n] else rest
  {
    var p := [t0, t1, hi, lo] + id + rest;
    assert p[2] == hi && p[3] == lo && p[20..] == rest;
  }

  /** Packets that are refused: shorter than a header, ending within an attribute's header, or within its value. */
  lemma RefusedBytes(p: seq<Byte>, t0: Byte, t1: Byte, id: seq<Byte>, rest: seq<Byte>)
    requires |id| == 16 && 0 < |rest| < 256
    ensures |p| < 20 ==> ReturnCode(p) == -20
    ensures |rest| < 4 ==> ReturnCode([t0, t1, 0, |rest| as Byte] + id + rest) == -21
    ensures |rest| >= 4 && rest[2] as nat * 256 + rest[3] as nat > |rest| - 4 ==>
              ReturnCode([t0, t1, 0, |rest| as Byte] + id + rest) == -22
  {
    BodyBytes(t0, t1, 0, |rest| as Byte, id, rest);
    hide Body;
  }

  lemma ResponseBody(id: seq<Byte>, port: seq<Byte>, addr: seq<Byte>)
    requires |id| == 16 && |port| == 2 && |addr| == 4
    ensures var p := ResponseBytes(id, port, addr);
            |p| == 32 && Body(p) == [0, 1, 0, 8, 0, 1] + port + addr
  {
    var p := ResponseBytes(id, port, addr);
    assert p[2] == 0 && p[3] == 12;
    assert p[20..] == [0, 1, 0, 8, 0, 1] + port + addr;
  }

  lemma ValueParts(port: seq<Byte>, addr: seq<Byte>)
    requires |port| == 2 && |addr| == 4
    ensures var v: seq<Byte> := [0, 1] + port + addr; v[2..4] == port && v[4..8] == addr
  {
  }

  lemma AddressDecodes(port: seq<Byte>, addr: seq<Byte>, init: Address)
    requires |port| == 2 && |addr| == 4
    ensures var d := Decode([0, 1, 0, 8, 0, 1] + port + addr);
            d.status == Complete && Mapped(d.attrs, init) == Address(port, addr)
  {
    var b := [0, 1, 0, 8, 0, 1] + port + addr;
    assert b[2] == 0 && b[3] == 8 && FirstSize(b) == 12;
    assert b[12..] == [];
    var a := First(b);
    assert a.value == [0, 1] + port + addr;
    ValueParts(port, addr);
    assert Decode(b).attrs == [a] + [];
    assert ([a] + [])[1..] == [];
  }

  /** The client reads any such response completely, learns the port and the address in it and nothing else, for every
      content of its buffer behind the packet. */
  lemma ResponseIsRead(id: seq<Byte>, port: seq<Byte>, addr: seq<Byte>, was: seq<Byte>, now: seq<Byte>,
                       init: Address, learnt: Address, ret: int)
    requires |id| == 16 && |port| == 2 && |addr| == 4 && 32 < |was|
    requires was[..32] == [1, 1, 0, 12] + id + [0, 1, 0, 8, 0, 1] + port + addr
    requires Parsed(was, 32, now, init, learnt, ret)
    ensures ret == 32 && learnt == Address(port, addr)
  {
    ResponseBody(id, port, addr);
    AddressDecodes(port, addr, init);
    hide Decode, Mapped, Body, BufferAfter;
    assert was[..32] == ResponseBytes(id, port, addr);
  }

  /** A bind request that carries nothing is answered with the address it came from. */
  lemma PlainExchange(id: seq<Byte>, src: Address)
    requires |id| == 16 && IsAddress(src)
    ensures Reply([0, 1, 0, 0] + id, src) ==
            Some([1, 1, 0, 12] + id + ([0, 1, 0, 8, 0, 1] + src.port + src.addr))
  {
    RequestBytes(id, None);
    RequestType(id, None);
    CarriesFacts(Request(id, None), id, NamedAttrs(None));
    NameInSent(None);
    RequestIs(Request(id, None), src);
    ReplyBytes(id, None, src);
    hide Request, Reply, Packet, ReplyAttrs, Carries, IsBindRequest, NamedAttrs, NameOf, NameIn;
  }
}
