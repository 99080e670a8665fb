/** The type-length-value format of STUN messages (RFC 3489, section 11.2) as pure functions. */
module StunCodec {
  import opened Common

  const HEADER_SIZE: nat := 20
  const ATTR_HEADER: nat := 4
  const MAPPED_ADDRESS: nat := 1

  datatype Attr = Attr(typ: nat, value: seq<Byte>)

  datatype Status = Complete | Runt | Overrun

  /** The attributes read, how reading stopped, and the number of bytes left unread. */
  datatype Decoded = Decoded(attrs: seq<Attr>, status: Status, rest: nat)

  /** A 16-bit field in network order. */
  function U16(hi: Byte, lo: Byte): nat {
    (hi as int * 256 + lo as int) as nat
  }

  lemma HasBytes(n: nat)
    requires n < 0x1_0000
    ensures exists hi, lo :: U16(hi, lo) == n
  {
    assert U16((n / 256) as Byte, (n % 256) as Byte) == n;
  }

  /** The two bytes of a field. */
  function Field(n: nat): (f: seq<Byte>)
    requires n < 0x1_0000
    ensures |f| == 2 && U16(f[0], f[1]) == n
  {
    HasBytes(n);
    var hi: Byte, lo: Byte :| U16(hi, lo) == n;
    [hi, lo]
  }

  /** The bytes the first attribute takes, header included. */
  function FirstSize(b: seq<Byte>): nat
    requires |b| >= ATTR_HEADER
  {
    U16(b[2], b[3]) + ATTR_HEADER
  }

  predicate HasFirst(b: seq<Byte>) {
    |b| >= ATTR_HEADER && FirstSize(b) <= |b|
  }

  function First(b: seq<Byte>): Attr
    requires HasFirst(b)
  {
    Attr(U16(b[0], b[1]), b[ATTR_HEADER..FirstSize(b)])
  }

  function Decode(b: seq<Byte>): (d: Decoded)
    ensures d.rest <= |b| && (d.status == Complete <==> d.rest == 0)
    decreases |b|
  {
    if b == [] then Decoded([], Complete, 0)
    else if |b| < ATTR_HEADER then Decoded([], Runt, |b|)
    else if FirstSize(b) > |b| then Decoded([], Overrun, |b|)
    else
      var d := Decode(b[FirstSize(b)..]);
      d.(attrs := [First(b)] + d.attrs)
  }

  lemma DecodeStep(b: seq<Byte>)
    requires HasFirst(b)
    ensures FirstSize(b) >= ATTR_HEADER
    ensures Decode(b) == Decode(b[FirstSize(b)..]).(attrs := [First(b)] + Decode(b[FirstSize(b)..]).attrs)
  {
    hide First;
  }

  lemma SliceOfSlice<T>(s: seq<T>, a: nat, b: nat, c: nat, d: nat)
    requires a <= b <= |s| && c <= d <= b - a
    ensures s[a..b][c..d] == s[a + c..a + d]
  {
    forall i | 0 <= i < d - c ensures s[a..b][c..d][i] == s[a + c..a + d][i] {
    }
  }

  lemma SplitTail<T>(s: seq<T>, a: nat, b: nat)
    requires a <= b < |s|
    ensures s[a..] == s[a..b] + [s[b]] + s[b + 1..]
  {
    assert s[a..] == s[a..b] + s[b..];
    assert s[b..] == [s[b]] + s[b + 1..];
  }

  lemma Associative<T>(a: seq<T>, b: seq<T>, c: seq<T>)
    ensures (a + b) + c == a + (b + c)
  {
  }

  lemma PrefixSplit<T>(s: seq<T>, a: nat, b: nat)
    requires a <= b <= |s|
    ensures s[..b] == s[..a] + s[a..][..b - a]
  {
  }

  lemma UpdateMiddle<T>(p: seq<T>, c: seq<T>, r: seq<T>, k: nat, v: T)
    requires k < |c|
    ensures (p + c + r)[|p| + k := v] == p + c[k := v] + r
  {
  }

  // ------------------------------------------------------------------ the inverse

  predicate Encodable(a: Attr) {
    a.typ < 0x1_0000 && |a.value| < 0x1_0000
  }

  predicate AllEncodable(attrs: seq<Attr>) {
    forall i :: 0 <= i < |attrs| ==> Encodable(attrs[i])
  }

  function EncodeAttr(a: Attr): seq<Byte>
    requires Encodable(a)
  {
    Field(a.typ) + Field(|a.value|) + a.value
  }

  function Encode(attrs: seq<Attr>): seq<Byte>
    requires AllEncodable(attrs)
  {
    if attrs == [] then [] else EncodeAttr(attrs[0]) + Encode(attrs[1..])
  }

  lemma DecodeFirst(a: Attr, b: seq<Byte>)
    requires Encodable(a)
    ensures HasFirst(EncodeAttr(a) + b)
    ensures First(EncodeAttr(a) + b) == a
    ensures (EncodeAttr(a) + b)[FirstSize(EncodeAttr(a) + b)..] == b
  {
    var e := EncodeAttr(a) + b;
    assert e[..2] == Field(a.typ) && e[2..4] == Field(|a.value|);
    assert FirstSize(e) == ATTR_HEADER + |a.value|;
    assert e[ATTR_HEADER..FirstSize(e)] == a.value;
  }

  lemma EncodeCons(attrs: seq<Attr>, b: seq<Byte>)
    requires AllEncodable(attrs)
    ensures Encode(attrs) + b ==
            if attrs == [] then b else EncodeAttr(attrs[0]) + (Encode(attrs[1..]) + b)
  {
    hide EncodeAttr, Encodable;
  }

  lemma FieldOf(hi: Byte, lo: Byte)
    ensures U16(hi, lo) < 0x1_0000 && Field(U16(hi, lo)) == [hi, lo]
  {
    var f := Field(U16(hi, lo));
    assert U16(f[0], f[1]) == U16(hi, lo);
    assert f == [f[0], f[1]];
  }

  lemma Prepended(attrs: seq<Attr>, more: seq<Attr>)
    requires attrs != []
    ensures [attrs[0]] + (attrs[1..] + more) == attrs + more
  {
  }

  /** Reading what was written gives the attributes back, in order, with nothing left over;
      and whatever follows is read as it would be on its own. */
  lemma {:induction false} DecodeEncode(attrs: seq<Attr>, b: seq<Byte>)
    requires AllEncodable(attrs)
    ensures Decode(Encode(attrs) + b) == Decode(b).(attrs := attrs + Decode(b).attrs)
  {
    hide Decode, Encode, EncodeAttr, HasFirst, First, FirstSize, Encodable;
    EncodeCons(attrs, b);
    if attrs != [] {
      var a, rest := attrs[0], attrs[1..];
      var tail := Encode(rest) + b;
      DecodeFirst(a, tail);
      DecodeStep(EncodeAttr(a) + tail);
      DecodeEncode(rest, b);
      Prepended(attrs, Decode(b).attrs);
    } else {
      assert [] + Decode(b).attrs == Decode(b).attrs;
    }
  }

  lemma EncodeFirst(b: seq<Byte>)
    requires HasFirst(b)
    ensures Encodable(First(b)) && EncodeAttr(First(b)) == b[..FirstSize(b)]
  {
    var n := FirstSize(b);
    FieldOf(b[0], b[1]);
    FieldOf(b[2], b[3]);
    hide U16, Field;
    assert b[..n] == [b[0], b[1]] + [b[2], b[3]] + b[ATTR_HEADER..n];
  }

  lemma EncodeMore(a: Attr, rest: seq<Attr>)
    requires Encodable(a) && AllEncodable(rest)
    ensures AllEncodable([a] + rest) && Encode([a] + rest) == EncodeAttr(a) + Encode(rest)
  {
    assert ([a] + rest)[1..] == rest;
  }

  lemma EncodeNone()
    ensures AllEncodable([]) && Encode([]) == []
  {
  }

  lemma {:induction false} EncodeDecode(b: seq<Byte>)
    ensures AllEncodable(Decode(b).attrs)
    ensures Encode(Decode(b).attrs) == b[..|b| - Decode(b).rest]
    decreases |b|
  {
    hide *;
    if HasFirst(b) {
      DecodeStep(b);
      FirstFits(b);
      EncodeFirst(b);
      var n, a := FirstSize(b), First(b);
      EncodeDecode(b[n..]);
      EncodeMore(a, Decode(b[n..]).attrs);
      PrefixSplit(b, n, |b| - Decode(b).rest);
    } else {
      Unread(b);
      EncodeNone();
    }
  }

  lemma {:induction false} EncodeAppend(attrs: seq<Attr>, a: Attr)
    requires AllEncodable(attrs) && Encodable(a)
    ensures Encode(attrs + [a]) == Encode(attrs) + EncodeAttr(a)
  {
    hide Encode, EncodeAttr, Encodable;
    EncodeNone();
    if attrs == [] {
      EncodeMore(a, []);
      assert [] + [a] == [a] + [];
    } else {
      var rest := attrs[1..];
      EncodeAppend(rest, a);
      EncodeMore(attrs[0], rest);
      EncodeMore(attrs[0], rest + [a]);
      assert attrs == [attrs[0]] + rest;
      assert attrs + [a] == [attrs[0]] + (rest + [a]);
      var first := EncodeAttr(attrs[0]);
      assert first + (Encode(rest) + EncodeAttr(a)) == first + Encode(rest) + EncodeAttr(a);
    }
  }

  // ------------------------------------------------------------------ messages

  /** The attribute bytes of a received packet: as many as announced, but no more than received. */
  function Body(packet: seq<Byte>): seq<Byte>
    requires |packet| >= HEADER_SIZE
  {
    var len := |packet| - HEADER_SIZE;
    var announced := U16(packet[2], packet[3]);
    packet[HEADER_SIZE..HEADER_SIZE + if announced < len then announced else len]
  }

  function ReturnCode(packet: seq<Byte>): int {
    if |packet| < HEADER_SIZE then -20
    else match Decode(Body(packet)).status
         case Complete => |packet|
         case Runt => -21
         case Overrun => -22
  }

  /** Port and address as they stand in the message, in network order. */
  datatype Address = Address(port: seq<Byte>, addr: seq<Byte>)

  predicate IsMapped(a: Attr) { a.typ == MAPPED_ADDRESS && |a.value| == 8 }

  function AddressOf(a: Attr): Address
    requires IsMapped(a)
  {
    Address(a.value[2..4], a.value[4..8])
  }

  function Mapped(attrs: seq<Attr>, init: Address): Address {
    if attrs == [] then init
    else Mapped(attrs[1..], if IsMapped(attrs[0]) then AddressOf(attrs[0]) else init)
  }

  /** The last well-formed MAPPED-ADDRESS decides; without one the address stays as it was. */
  lemma {:induction false} LastMappedWins(attrs: seq<Attr>, init: Address, last: int)
    requires -1 <= last < |attrs| && (last >= 0 ==> IsMapped(attrs[last]))
    requires forall j :: last < j < |attrs| ==> !IsMapped(attrs[j])
    ensures Mapped(attrs, init) == if last == -1 then init else AddressOf(attrs[last])
  {
    if attrs != [] {
      var rest := attrs[1..];
      assert forall j :: 0 <= j < |rest| ==> rest[j] == attrs[j + 1];
      LastMappedWins(rest, if IsMapped(attrs[0]) then AddressOf(attrs[0]) else init,
                     if last <= 0 then -1 else last - 1);
    }
  }

  lemma {:induction false} MappedAppend(attrs: seq<Attr>, a: Attr, init: Address)
    ensures Mapped(attrs + [a], init) == if IsMapped(a) then AddressOf(a) else Mapped(attrs, init)
  {
    if attrs == [] {
      assert [a][1..] == [];
    } else {
      assert (attrs + [a])[1..] == attrs[1..] + [a];
      MappedAppend(attrs[1..], a, if IsMapped(attrs[0]) then AddressOf(attrs[0]) else init);
    }
  }

  // ------------------------------------------------------------------ what the parser does to its buffer

  /** The attribute bytes with the type field of every attribute set to zero. */
  function ClearTypes(b: seq<Byte>): (c: seq<Byte>)
    ensures |c| == |b|
    decreases |b|
  {
    if !HasFirst(b) then b
    else [0, 0] + b[2..FirstSize(b)] + ClearTypes(b[FirstSize(b)..])
  }

  /** The attribute bytes, and the byte after them, as the parser leaves them: types cleared,
      and a NUL at the first byte that was not read as part of an attribute. */
  function Leave(b: seq<Byte>, next: Byte): (c: seq<Byte>)
    ensures |c| == |b| + 1
  {
    (ClearTypes(b) + [next])[|b| - Decode(b).rest := 0]
  }

  function SizeOf(attrs: seq<Attr>): nat {
    if attrs == [] then 0 else ATTR_HEADER + |attrs[0].value| + SizeOf(attrs[1..])
  }

  function Untyped(attrs: seq<Attr>): seq<Attr> {
    seq(|attrs|, i requires 0 <= i < |attrs| => attrs[i].(typ := 0))
  }

  lemma ClearStep(b: seq<Byte>)
    requires HasFirst(b)
    ensures ClearTypes(b) == [0, 0] + b[2..FirstSize(b)] + ClearTypes(b[FirstSize(b)..])
  {
    hide FirstSize;
  }

  lemma LeaveTail(b: seq<Byte>, next: Byte)
    requires HasFirst(b)
    ensures Leave(b, next) == [0, 0] + b[2..FirstSize(b)] + Leave(b[FirstSize(b)..], next)
  {
    var n := FirstSize(b);
    assert ClearTypes(b) + [next] == ([0, 0] + b[2..n]) + (ClearTypes(b[n..]) + [next]);
  }

  lemma LeaveStartsWithZero(b: seq<Byte>, next: Byte)
    ensures Leave(b, next)[0] == 0
  {
    if HasFirst(b) {
      LeaveTail(b, next);
    } else {
      assert Decode(b).rest == |b|;
    }
  }

  lemma ReadsSome(b: seq<Byte>)
    requires Decode(b).attrs != []
    ensures HasFirst(b)
  {
  }

  lemma SizeOfNone(attrs: seq<Attr>)
    requires attrs == []
    ensures SizeOf(attrs) == 0
  {
  }

  lemma Shifted<T>(p: seq<T>, s: seq<T>, i: nat)
    requires i < |s|
    ensures (p + s)[|p| + i] == s[i]
  {
  }

  lemma FirstFits(b: seq<Byte>)
    requires HasFirst(b)
    ensures FirstSize(b) == ATTR_HEADER + |First(b).value| <= |b|
  {
  }

  lemma TakeCons<T>(a: T, rest: seq<T>, k: nat)
    requires k <= |rest|
    ensures ([a] + rest)[..k + 1] == [a] + rest[..k]
  {
  }

  lemma SizeOfCons(a: Attr, rest: seq<Attr>)
    ensures SizeOf([a] + rest) == ATTR_HEADER + |a.value| + SizeOf(rest)
  {
    assert ([a] + rest)[1..] == rest;
  }

  /** Every attribute value is followed by a zero byte, so a string value is terminated. */
  lemma {:induction false} ValuesAreTerminated(b: seq<Byte>, next: Byte, k: nat)
    requires k < |Decode(b).attrs|
    ensures SizeOf(Decode(b).attrs[..k + 1]) <= |b|
    ensures Leave(b, next)[SizeOf(Decode(b).attrs[..k + 1])] == 0
    decreases |b|
  {
    hide *;
    ReadsSome(b);
    DecodeStep(b);
    LeaveTail(b, next);
    FirstFits(b);
    var n, a, rest := FirstSize(b), First(b), Decode(b[FirstSize(b)..]).attrs;
    var tail := Leave(b[n..], next);
    TakeCons(a, rest, k);
    SizeOfCons(a, rest[..k]);
    if k == 0 {
      SizeOfNone(rest[..k]);
      LeaveStartsWithZero(b[n..], next);
    } else {
      ValuesAreTerminated(b[n..], next, k - 1);
    }
    Shifted([0, 0] + b[2..n], tail, SizeOf(rest[..k]));
  }

  /** Zeroing type fields never changes framing: reading the attributes again after the parser
      is done finds the same values and stops in the same way; only the types are gone. */
  lemma {:induction false} FramingSurvives(b: seq<Byte>, next: Byte)
    ensures Decode(Leave(b, next)[..|b|]) == Decode(b).(attrs := Untyped(Decode(b).attrs))
    decreases |b|
  {
    hide *;
    if HasFirst(b) {
      LeaveTail(b, next);
      DecodeStep(b);
      FirstFits(b);
      var n := FirstSize(b);
      var p, b' := [0, 0] + b[2..n], b[n..];
      var c' := Leave(b', next)[..|b'|];
      TakeTail(p, Leave(b', next), |b'|);
      ClearedFirst(b, p + c', c');
      FramingSurvives(b', next);
      DecodeStep(p + c');
      UntypedCons(First(b), Decode(b').attrs);
    } else {
      Unread(b);
      LeaveUnread(b, next);
      Unread(Leave(b, next)[..|b|]);
      UntypedNone();
    }
  }

  /** Where no attribute can be read, nothing is. */
  lemma Unread(b: seq<Byte>)
    requires !HasFirst(b)
    ensures Decode(b) == Decoded([], if b == [] then Complete else if |b| < ATTR_HEADER then Runt else Overrun, |b|)
  {
  }

  lemma LeaveUnread(b: seq<Byte>, next: Byte)
    requires !HasFirst(b)
    ensures |Leave(b, next)| == |b| + 1
    ensures !HasFirst(Leave(b, next)[..|b|])
  {
    var c := Leave(b, next)[..|b|];
    assert |b| >= ATTR_HEADER ==> c[2] == b[2] && c[3] == b[3];
  }

  lemma TakeTail<T>(p: seq<T>, s: seq<T>, n: nat)
    requires n <= |s|
    ensures (p + s)[..|p| + n] == p + s[..n]
  {
  }

  lemma UntypedNone()
    ensures Untyped([]) == []
  {
  }

  lemma UntypedCons(a: Attr, rest: seq<Attr>)
    ensures Untyped([a] + rest) == [a.(typ := 0)] + Untyped(rest)
  {
  }

  lemma ClearedFirst(b: seq<Byte>, c: seq<Byte>, c': seq<Byte>)
    requires HasFirst(b) && c == ([0, 0] + b[2..FirstSize(b)]) + c'
    ensures HasFirst(c) && FirstSize(c) == FirstSize(b) && First(c) == First(b).(typ := 0)
    ensures c[FirstSize(c)..] == c'
  {
    var n := FirstSize(b);
    assert c[0] == 0 && c[1] == 0 && c[2] == b[2] && c[3] == b[3];
    assert c[ATTR_HEADER..n] == b[ATTR_HEADER..n];
  }
}
