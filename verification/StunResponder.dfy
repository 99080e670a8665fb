/** stun_handle_packet of src/celovpn/ministun.c with STUN_BINDREQ_PROCESS: read a bind request in
    place, then answer it with the sender's address and the user name it came with. */
module StunResponder {
  import opened Common
  import opened StunCodec
  import opened StunParser
  import opened StunWriter

  const RESPONSE_SIZE: nat := 1024
  const BIND_REQUEST: nat := 0x0001
  const BIND_RESPONSE: nat := 0x0101
  const USERNAME: nat := 6
  const STUN_IGNORE: int := 0
  const STUN_ACCEPT: int := 1

  // ------------------------------------------------------------------ the user name of a request

  /** The value of the last USERNAME attribute. */
  function UserOf(attrs: seq<Attr>): Option<seq<Byte>> {
    if attrs == [] then None
    else
      var last := attrs[|attrs| - 1];
      if last.typ == USERNAME then Some(last.value) else UserOf(attrs[..|attrs| - 1])
  }

  lemma UserOfMore(attrs: seq<Attr>, a: Attr)
    ensures UserOf(attrs + [a]) == if a.typ == USERNAME then Some(a.value) else UserOf(attrs)
  {
    assert (attrs + [a])[..|attrs|] == attrs;
  }

  /** The last USERNAME decides; without one there is no name. */
  lemma {:induction false} LastNameWins(attrs: seq<Attr>, last: int)
    requires -1 <= last < |attrs| && (last >= 0 ==> attrs[last].typ == 6)
    requires forall j :: last < j < |attrs| ==> attrs[j].typ != 6
    ensures UserOf(attrs) == if last == -1 then None else Some(attrs[last].value)
  {
    if attrs != [] && last < |attrs| - 1 {
      LastNameWins(attrs[..|attrs| - 1], last);
    }
  }

  /** The C string that starts here. */
  function CString(b: seq<Byte>): (s: seq<Byte>)
    ensures |s| <= |b| && s == b[..|s|] && 0 !in s
    ensures |s| == |b| || b[|s|] == 0
  {
    if b == [] || b[0] == 0 then [] else [b[0]] + CString(b[1..])
  }

  /** A string is the same whether it ends at a NUL or at the end of its bytes. */
  lemma {:induction false} CStringStops(b: seq<Byte>, v: seq<Byte>)
    requires |v| < |b| && b[..|v|] == v && b[|v|] == 0
    ensures CString(b) == CString(v)
  {
    if v != [] {
      assert b[0] == v[0];
      assert b[1..][..|v| - 1] == v[1..];
      CStringStops(b[1..], v[1..]);
    }
  }

  /** user is the index of the value of the last USERNAME among seen, or -1; the value is intact and
      followed by a zero byte as soon as the parser has come past it. */
  ghost predicate Named(now: seq<Byte>, data: nat, seen: seq<Attr>, user: int) {
    match UserOf(seen)
    case None => user == -1
    case Some(v) =>
      && 0 <= user && user + |v| <= data <= |now|
      && now[user..user + |v|] == v
      && (user + |v| < data ==> now[user + |v|] == 0)
  }

  lemma NamedNone(now: seq<Byte>, data: nat)
    ensures Named(now, data, [], -1)
  {
  }

  lemma NamedBytes(now: seq<Byte>, data: nat, v: seq<Byte>, user: nat)
    requires user + |v| <= data && data + 1 < |now| && now[user..user + |v|] == v
    requires user + |v| < data ==> now[user + |v|] == 0
    ensures var now' := now[data := 0][data + 1 := 0];
            now'[user..user + |v|] == v && now'[user + |v|] == 0
  {
  }

  lemma FirstBytes(now: seq<Byte>, data: nat, a: Attr)
    requires data < |now| && HasFirst(now[data..]) && First(now[data..]) == a
    ensures data + ATTR_HEADER + |a.value| <= |now|
    ensures now[data := 0][data + 1 := 0][data + 4..data + 4 + |a.value|] == a.value
  {
    SliceOfSlice(now, data, |now|, ATTR_HEADER, ATTR_HEADER + |a.value|);
    assert now[data..|now|] == now[data..];
  }

  /** Taking one more attribute keeps the user name readable. */
  lemma NamedStep(now: seq<Byte>, data: nat, seen: seq<Attr>, user: int, a: Attr)
    requires Named(now, data, seen, user)
    requires data + 1 < |now| && HasFirst(now[data..]) && First(now[data..]) == a
    ensures Named(now[data := 0][data + 1 := 0], data + ATTR_HEADER + |a.value|, seen + [a],
                  if a.typ == USERNAME then data + ATTR_HEADER else user)
  {
    UserOfMore(seen, a);
    FirstBytes(now, data, a);
    if a.typ != USERNAME && UserOf(seen).Some? {
      NamedBytes(now, data, UserOf(seen).value, user);
    }
    hide First, UserOf;
  }

  lemma NamedEnd(now: seq<Byte>, data: nat, seen: seq<Attr>, user: int)
    requires Named(now, data, seen, user) && data < |now|
    ensures user == -1 <==> UserOf(seen).None?
    ensures user != -1 ==>
      0 <= user <= |now| && CString(now[data := 0][user..]) == CString(UserOf(seen).value)
  {
    if user != -1 {
      var v, b := UserOf(seen).value, now[data := 0][user..];
      assert b[..|v|] == v;
      CStringStops(b, v);
    }
  }

  // ------------------------------------------------------------------ reading the request

  lemma TypeAt(now: seq<Byte>, data: nat)
    requires data + ATTR_HEADER <= |now| && HasFirst(now[data..])
    ensures U16(now[data], now[data + 1]) == First(now[data..]).typ
  {
  }

  /** One attribute of x bytes: the callback, stun_process_attr, then the type field. */
  method ProcessAttribute(buf: array<Byte>, data: nat, left: nat, x: nat, user: int, sa: SockAddr,
                          ghost was: seq<Byte>, ghost seen: seq<Attr>, ghost init: Address)
    returns (user': int, ghost more: seq<Attr>)
    requires At(was, buf[..], data, left, seen, init, sa.Value()) && Named(buf[..], data, seen, user)
    requires ATTR_HEADER <= left && x == NextSize(was, data, left) <= left
    modifies buf, sa
    ensures At(was, buf[..], data + x, left - x, more, init, sa.Value()) && Named(buf[..], data + x, more, user')
  {
    hide *;
    Sizes();
    more := Take(was, buf[..], data, left, seen, init, sa.Value());
    TypeAt(buf[..], data);
    NamedStep(buf[..], data, seen, user, First(buf[..][data..]));
    GetMapped(buf, data, sa);
    user' := if U16(buf[data], buf[data + 1]) == USERNAME then data + ATTR_HEADER else user;
    ClearType(buf, data);
  }

  /** The loop over the attributes; st.username is an index into the buffer. */
  method ReadRequest(buf: array<Byte>, len: nat, sa: SockAddr)
    returns (data: nat, left: nat, user: int, ghost seen: seq<Attr>)
    requires HEADER_SIZE + len <= buf.Length
    modifies buf, sa
    ensures data + left == HEADER_SIZE + len
    ensures At(old(buf[..]), buf[..], data, left, seen, old(sa.Value()), sa.Value())
    ensures left < ATTR_HEADER || NextSize(old(buf[..]), data, left) > left
    ensures Named(buf[..], data, seen, user)
  {
    hide *;
    Sizes();
    ghost var was, init := buf[..], sa.Value();
    data, left, user, seen := HEADER_SIZE, len, -1, [];
    AtStart(was, len, init);
    NamedNone(was, HEADER_SIZE);
    while left > 0
      invariant data + left == HEADER_SIZE + len
      invariant At(was, buf[..], data, left, seen, init, sa.Value())
      invariant Named(buf[..], data, seen, user)
      decreases left
    {
      if left < ATTR_HEADER {
        break;
      }
      var x := SizeAt(buf, data, left, was, seen, init, sa.Value());
      if x > left {
        break;
      }
      user, seen := ProcessAttribute(buf, data, left, x, user, sa, was, seen, init);
      left := left - x;
      data := data + x;
    }
  }

  // ------------------------------------------------------------------ the reply

  /** A whole message: type, length, transaction id and attributes. */
  function Packet(typ: nat, id: seq<Byte>, attrs: seq<Attr>): seq<Byte>
    requires AllEncodable(attrs)
  {
    NetworkShort(typ) + NetworkShort(|Encode(attrs)|) + id + Encode(attrs)
  }

  const ROOM: nat := RESPONSE_SIZE - HEADER_SIZE

  function NamedAttrs(user: Option<seq<Byte>>): (attrs: seq<Attr>)
    ensures AllEncodable(attrs)
  {
    if user.Some? && ROOM > ATTR_HEADER + |user.value| then [Attr(USERNAME, user.value)] else []
  }

  /** What fits of the user name and the sender's address, in this order. */
  function ReplyAttrs(user: Option<seq<Byte>>, src: Address): (attrs: seq<Attr>)
    requires IsAddress(src)
    ensures AllEncodable(attrs)
  {
    var named := NamedAttrs(user);
    named + if ROOM - SizeOf(named) > ATTR_HEADER + 8 then [AddressAttr(MAPPED_ADDRESS, src)] else []
  }

  lemma NamedSize(user: Option<seq<Byte>>, init: Address)
    ensures SizeOf(NamedAttrs(user)) == if user.Some? && |user.value| < 1000 then ATTR_HEADER + |user.value| else 0
    ensures Mapped(NamedAttrs(user), init) == init
  {
    var named := NamedAttrs(user);
    assert named != [] ==> named[1..] == [];
  }

  /** The reply leads back to src exactly unless the user name leaves too little room behind itself:
      a name of 988 to 999 bytes still fits, but the address after it does not. */
  lemma AddressFits(user: Option<seq<Byte>>, src: Address, init: Address)
    requires IsAddress(src)
    ensures var fits := !(user.Some? && 988 <= |user.value| < 1000);
            Mapped(ReplyAttrs(user, src), init) == if fits then src else init
  {
    var a, named := AddressAttr(MAPPED_ADDRESS, src), NamedAttrs(user);
    assert AddressValue(src)[2..4] == src.port && AddressValue(src)[4..8] == src.addr;
    assert IsMapped(a) && AddressOf(a) == src;
    NamedSize(user, init);
    MappedAppend(named, a, init);
    assert named + [] == named;
    hide AddressAttr, AddressOf, Mapped, SizeOf, NamedAttrs;
  }

  /** Reading a message back finds the attributes it was made of, and nothing is left over. */
  lemma PacketIsRead(typ: nat, id: seq<Byte>, attrs: seq<Attr>)
    requires AllEncodable(attrs) && |id| == 16 && |Encode(attrs)| < 0x1_0000
    ensures var p := Packet(typ, id, attrs);
            && |p| == HEADER_SIZE + |Encode(attrs)| && U16(p[0], p[1]) == typ % 0x1_0000 && p[4..20] == id
            && Decode(Body(p)) == Decoded(attrs, Complete, 0)
            && ReturnCode(p) == |p|
  {
    hide *;
    Sizes();
    PacketIs(typ, id, attrs);
    assert |Encode(attrs)| % 0x1_0000 == |Encode(attrs)|;
    Layout(NetworkShort(typ), NetworkShort(|Encode(attrs)|), id, Encode(attrs));
    AllRead(attrs);
    CompleteReturns(Packet(typ, id, attrs));
  }

  lemma PacketIs(typ: nat, id: seq<Byte>, attrs: seq<Attr>)
    requires AllEncodable(attrs)
    ensures Packet(typ, id, attrs) == NetworkShort(typ) + NetworkShort(|Encode(attrs)|) + id + Encode(attrs)
  {
    hide Encode, NetworkShort, Encodable;
  }

  lemma AllRead(attrs: seq<Attr>)
    requires AllEncodable(attrs)
    ensures Decode(Encode(attrs)) == Decoded(attrs, Complete, 0)
  {
    hide Encode, Encodable;
    DecodeEncode(attrs, []);
    assert Encode(attrs) + [] == Encode(attrs) && attrs + [] == attrs;
  }

  lemma CompleteReturns(p: seq<Byte>)
    requires |p| >= HEADER_SIZE && Decode(Body(p)).status == Complete
    ensures ReturnCode(p) == |p|
  {
  }

  lemma Layout(typ: seq<Byte>, len: seq<Byte>, id: seq<Byte>, e: seq<Byte>)
    requires |typ| == 2 && |len| == 2 && |id| == 16 && U16(len[0], len[1]) == |e|
    ensures var p := typ + len + id + e;
            && |p| == HEADER_SIZE + |e| && p[0] == typ[0] && p[1] == typ[1] && p[4..20] == id
            && Body(p) == e
  {
    hide U16;
    var p := typ + len + id + e;
    assert p[2] == len[0] && p[3] == len[1];
    assert p[HEADER_SIZE..] == e;
  }

  lemma WrittenSize(bytes: seq<Byte>, attr: nat, len: nat, left: nat, written: seq<Attr>)
    requires IsMessage(bytes, attr, len, left, written)
    ensures AllEncodable(written) && len == |Encode(written)| && HEADER_SIZE + len <= |bytes|
    ensures bytes[..HEADER_SIZE + len] == bytes[..HEADER_SIZE] + Encode(written)
  {
    hide Encode, Encodable;
    assert bytes[..attr] == bytes[..HEADER_SIZE] + bytes[HEADER_SIZE..attr];
  }

  lemma EncodeSize(attrs: seq<Attr>)
    requires AllEncodable(attrs)
    ensures |Encode(attrs)| == SizeOf(attrs)
  {
  }

  lemma RoomLeft(bytes: seq<Byte>, attr: nat, len: nat, left: nat, user: Option<seq<Byte>>)
    requires IsMessage(bytes, attr, len, left, NamedAttrs(user)) && |bytes| == RESPONSE_SIZE
    ensures left == ROOM - SizeOf(NamedAttrs(user))
  {
    EncodeSize(NamedAttrs(user));
    WrittenSize(bytes, attr, len, left, NamedAttrs(user));
    hide SizeOf, NamedAttrs, Encode, Encodable;
  }

  /** The attributes of the reply, as far as there is room for them. */
  method FillReply(m: Message, user: Option<seq<Byte>>, src: Address)
    requires m.Valid() && m.written == [] && m.left == ROOM && m.buf.Length == RESPONSE_SIZE
    requires IsAddress(src)
    modifies m, m.buf
    ensures m.Valid() && m.written == ReplyAttrs(user, src)
    ensures m.buf[..][..HEADER_SIZE] == old(m.buf[..][..HEADER_SIZE])
  {
    hide IsMessage, AddressAttr, Encode, IsAddress, SizeOf;
    if user.Some? {
      m.AppendString(USERNAME, user.value);
    }
    assert m.written == NamedAttrs(user);
    RoomLeft(m.buf[..], m.attr, m.len, m.left, user);
    m.AppendAddress(MAPPED_ADDRESS, src);
  }

  lemma Header(h: seq<Byte>, id: seq<Byte>, zero: seq<Byte>, len: seq<Byte>, typ: seq<Byte>)
    requires |h| == HEADER_SIZE && |id| == 16 && |zero| == 4 && |len| == 2 && |typ| == 2
    ensures Splice(Splice(Splice(Splice(h, 4, id), 0, zero), 2, len), 0, typ) == typ + len + id
  {
  }

  /** Fill in the reply; stun_send sends as many bytes as its header announces. */
  method Respond(id: seq<Byte>, user: Option<seq<Byte>>, src: Address) returns (sent: seq<Byte>)
    requires |id| == 16 && IsAddress(src)
    ensures sent == Packet(BIND_RESPONSE, id, ReplyAttrs(user, src))
  {
    hide IsMessage, NetworkShort, AddressAttr, Encode, Encodable, IsAddress, Splice, ReplyAttrs;
    var m := new Message(RESPONSE_SIZE);
    ghost var h := m.buf[..][..HEADER_SIZE];
    m.PutHeader(4, id);
    m.PutHeader(0, NetworkShort(0) + NetworkShort(0));
    FillReply(m, user, src);
    m.PutHeader(2, NetworkShort(m.len));
    m.PutHeader(0, NetworkShort(BIND_RESPONSE));
    WrittenSize(m.buf[..], m.attr, m.len, m.left, m.written);
    Header(h, id, NetworkShort(0) + NetworkShort(0), NetworkShort(m.len), NetworkShort(BIND_RESPONSE));
    sent := m.buf[..][..HEADER_SIZE + m.len];
  }

  // ------------------------------------------------------------------ one request

  /** The C string in the request's last USERNAME attribute. */
  function NameIn(attrs: seq<Attr>): Option<seq<Byte>> {
    match UserOf(attrs)
    case None => None
    case Some(v) => Some(CString(v))
  }

  predicate IsBindRequest(packet: seq<Byte>) {
    && |packet| >= HEADER_SIZE
    && U16(packet[0], packet[1]) == BIND_REQUEST
    && Decode(Body(packet)).status == Complete
  }

  /** What is sent back: a reply to a well-formed bind request, nothing to anything else. */
  function Reply(packet: seq<Byte>, src: Address): Option<seq<Byte>>
    requires IsAddress(src)
  {
    if IsBindRequest(packet) then
      Some(Packet(BIND_RESPONSE, packet[4..20], ReplyAttrs(NameIn(Decode(Body(packet)).attrs), src)))
    else None
  }

  /** The request as it was received, seen from the buffer after it was read in place. */
  ghost predicate ReadBack(packet: seq<Byte>, now: seq<Byte>, left: nat, user: int) {
    && |packet| >= HEADER_SIZE && |now| > HEADER_SIZE
    && now[..HEADER_SIZE] == packet[..HEADER_SIZE]
    && (left == 0 <==> Decode(Body(packet)).status == Complete)
    && (user == -1 <==> NameIn(Decode(Body(packet)).attrs).None?)
    && (user != -1 ==> 0 <= user <= |now| && Some(CString(now[user..])) == NameIn(Decode(Body(packet)).attrs))
  }

  lemma Names(now: seq<Byte>, data: nat, seen: seq<Attr>, user: int)
    requires Named(now, data, seen, user) && data < |now|
    ensures user == -1 <==> NameIn(seen).None?
    ensures user != -1 ==> 0 <= user <= |now| && Some(CString(now[data := 0][user..])) == NameIn(seen)
  {
    NamedEnd(now, data, seen, user);
    hide Named, UserOf, CString;
  }

  lemma KeptHeader(was: seq<Byte>, now: seq<Byte>, data: nat, len: nat)
    requires HEADER_SIZE <= data < |now| == |was| && HEADER_SIZE <= len <= |was|
    requires now[..HEADER_SIZE] == was[..HEADER_SIZE]
    ensures now[data := 0][..HEADER_SIZE] == was[..len][..HEADER_SIZE]
  {
  }

  lemma AtEnd(was: seq<Byte>, now: seq<Byte>, data: nat, left: nat, seen: seq<Attr>, init: Address, addr: Address)
    requires At(was, now, data, left, seen, init, addr)
    requires left < ATTR_HEADER || NextSize(was, data, left) > left
    ensures HEADER_SIZE <= data && data + left <= |was| == |now| && addr == Mapped(seen, init)
    ensures Progress(was, now, data, data + left, seen) && !HasFirst(was[data..data + left])
  {
  }

  /** stun_process_attr kept the name the request carries, although the buffer was changed under it. */
  lemma ReadRequestOutcome(was: seq<Byte>, now: seq<Byte>, len: nat, data: nat, left: nat, seen: seq<Attr>,
                           user: int, init: Address, addr: Address)
    requires HEADER_SIZE <= len < |was|
    requires var x := U16(was[2], was[3]);
             data + left == HEADER_SIZE + if x < len - HEADER_SIZE then x else len - HEADER_SIZE
    requires At(was, now, data, left, seen, init, addr) && Named(now, data, seen, user)
    requires left < ATTR_HEADER || NextSize(was, data, left) > left
    ensures data < |now|
    ensures ReadBack(was[..len], now[data := 0], left, user)
    ensures addr == Mapped(Decode(Body(was[..len])).attrs, init) && now[data := 0] == BufferAfter(was, len)
  {
    hide *;
    Sizes();
    BodyIs(was, len, data + left);
    AtEnd(was, now, data, left, seen, init, addr);
    ProgressEnd(was, now, data, data + left, seen);
    ProgressFacts(was, now, data, data + left, seen);
    Unread(was[data..data + left]);
    Names(now, data, seen, user);
    KeptHeader(was, now, data, len);
    AfterIs(was, len, data + left);
    ReadBackFrom(was[..len], now[data := 0], left, user);
  }

  lemma AfterIs(was: seq<Byte>, len: nat, end: nat)
    requires HEADER_SIZE <= len < |was| && HEADER_SIZE <= end <= len && Body(was[..len]) == was[HEADER_SIZE..end]
    ensures BufferAfter(was, len) == was[..HEADER_SIZE] + Leave(was[HEADER_SIZE..end], was[end]) + was[end + 1..]
  {
    hide Body, Leave;
    assert HEADER_SIZE + |was[HEADER_SIZE..end]| == end;
  }

  lemma ReadBackFrom(packet: seq<Byte>, now: seq<Byte>, left: nat, user: int)
    requires |packet| >= HEADER_SIZE && |now| > HEADER_SIZE
    requires now[..HEADER_SIZE] == packet[..HEADER_SIZE]
    requires left == 0 <==> Decode(Body(packet)).status == Complete
    requires user == -1 <==> NameIn(Decode(Body(packet)).attrs).None?
    requires user != -1 ==> 0 <= user <= |now| && Some(CString(now[user..])) == NameIn(Decode(Body(packet)).attrs)
    ensures ReadBack(packet, now, left, user)
  {
  }

  lemma ReplyFrom(packet: seq<Byte>, now: seq<Byte>, left: nat, user: int, src: Address)
    requires ReadBack(packet, now, left, user) && IsAddress(src)
    ensures |now| > HEADER_SIZE && user <= |now| && user >= -1
    ensures var name := if user == -1 then None else Some(CString(now[user..]));
            Reply(packet, src) == if left == 0 && U16(now[0], now[1]) == BIND_REQUEST
                                  then Some(Packet(BIND_RESPONSE, now[4..20], ReplyAttrs(name, src))) else None
  {
    hide Decode, Body, CString, Packet, ReplyAttrs, IsAddress, U16, NameIn;
    assert now[..HEADER_SIZE][4..20] == now[4..20] && packet[..HEADER_SIZE][4..20] == packet[4..20];
    assert now[0] == now[..HEADER_SIZE][0] && now[1] == now[..HEADER_SIZE][1];
    assert packet[0] == packet[..HEADER_SIZE][0] && packet[1] == packet[..HEADER_SIZE][1];
  }

  /** Read a packet and answer it; sent is what goes back to src. */
  method HandleRequest(buf: array<Byte>, len: nat, sa: SockAddr, src: Address)
    returns (ret: int, sent: Option<seq<Byte>>)
    requires len < buf.Length && IsAddress(src)
    modifies buf, sa
    ensures sent == Reply(old(buf[..])[..len], src)
    ensures ret == if len < HEADER_SIZE then -1 else if sent.Some? then STUN_ACCEPT else STUN_IGNORE
    ensures len < HEADER_SIZE ==> buf[..] == old(buf[..])
    ensures len >= HEADER_SIZE ==> buf[..] == BufferAfter(old(buf[..]), len)
    ensures len >= HEADER_SIZE ==> sa.Value() == Mapped(Decode(Body(old(buf[..])[..len])).attrs, old(sa.Value()))
  {
    hide *;
    Sizes();
    ghost var was, init := buf[..], sa.Value();
    sent := None;
    if len < HEADER_SIZE {
      RuntUnanswered(was[..len], src);
      return -1, None;
    }
    var x := U16(buf[2], buf[3]);
    var data, left, user;
    ghost var seen;
    data, left, user, seen := ReadRequest(buf, if x < len - HEADER_SIZE then x else len - HEADER_SIZE, sa);
    ReadRequestOutcome(was, buf[..], len, data, left, seen, user, init, sa.Value());
    PutZero(buf, data);
    ReplyFrom(was[..len], buf[..], left, user, src);
    ret := STUN_IGNORE;
    if left == 0 && U16(buf[0], buf[1]) == BIND_REQUEST {
      var reply := Respond(buf[4..20], if user == -1 then None else Some(CString(buf[user..])), src);
      sent := Some(reply);
      ret := STUN_ACCEPT;
    }
  }

  lemma RuntUnanswered(packet: seq<Byte>, src: Address)
    requires |packet| < HEADER_SIZE && IsAddress(src)
    ensures Reply(packet, src) == None
  {
  }

  // ------------------------------------------------------------------ a whole exchange

  /** The request stun_request sends. */
  method Ask(id: seq<Byte>, user: Option<seq<Byte>>) returns (sent: seq<Byte>)
    requires |id| == 16
    ensures sent == Packet(BIND_REQUEST, id, NamedAttrs(user))
  {
    hide IsMessage, NetworkShort, Encode, Encodable, Splice;
    var m := new Message(RESPONSE_SIZE);
    ghost var h := m.buf[..][..HEADER_SIZE];
    m.PutHeader(4, id);
    m.PutHeader(0, NetworkShort(0) + NetworkShort(0));
    if user.Some? {
      m.AppendString(USERNAME, user.value);
    }
    assert m.written == NamedAttrs(user);
    m.PutHeader(2, NetworkShort(m.len));
    m.PutHeader(0, NetworkShort(BIND_REQUEST));
    WrittenSize(m.buf[..], m.attr, m.len, m.left, m.written);
    Header(h, id, NetworkShort(0) + NetworkShort(0), NetworkShort(m.len), NetworkShort(BIND_REQUEST));
    sent := m.buf[..][..HEADER_SIZE + m.len];
  }

  lemma ReplyFits(user: Option<seq<Byte>>, src: Address)
    requires IsAddress(src)
    ensures |Encode(ReplyAttrs(user, src))| < 0x1_0000
  {
    EncodeSize(ReplyAttrs(user, src));
    var named := NamedAttrs(user);
    assert named != [] ==> named[1..] == [];
    var a := AddressAttr(MAPPED_ADDRESS, src);
    assert [a][1..] == [];
    assert (named + [a])[1..] == if named == [] then [] else [a];
    hide Encode;
  }

  /** p reads back completely as these attributes under this transaction id. */
  predicate Carries(p: seq<Byte>, id: seq<Byte>, attrs: seq<Attr>) {
    |p| >= HEADER_SIZE && ReturnCode(p) == |p| && p[4..20] == id && Decode(Body(p)) == Decoded(attrs, Complete, 0)
  }

  predicate Answered(reply: Option<seq<Byte>>, id: seq<Byte>, attrs: seq<Attr>) {
    reply.Some? && Carries(reply.value, id, attrs)
  }

  lemma AnsweredBy(p: seq<Byte>, id: seq<Byte>, attrs: seq<Attr>)
    requires Carries(p, id, attrs)
    ensures Answered(Some(p), id, attrs)
  {
  }

  lemma PacketCarries(typ: nat, id: seq<Byte>, attrs: seq<Attr>)
    requires AllEncodable(attrs) && |id| == 16 && |Encode(attrs)| < 0x1_0000
    ensures Carries(Packet(typ, id, attrs), id, attrs)
  {
    PacketIsRead(typ, id, attrs);
    hide Encode, Decode, Body, Packet, ReturnCode, Encodable, AllEncodable;
  }

  /** The user name a packet carries. */
  function NameOf(packet: seq<Byte>): Option<seq<Byte>> {
    if |packet| >= HEADER_SIZE then NameIn(Decode(Body(packet)).attrs) else None
  }

  lemma RequestIs(packet: seq<Byte>, src: Address)
    requires IsBindRequest(packet) && IsAddress(src)
    ensures |packet| >= HEADER_SIZE
    ensures Reply(packet, src) == Some(Packet(BIND_RESPONSE, packet[4..20], ReplyAttrs(NameOf(packet), src)))
  {
    hide Decode, Body, ReplyAttrs, Packet, NameIn, IsAddress;
  }

  /** Every bind request is answered under its own id by a message that reads back completely, and that
      carries src unless the request's user name crowds it out. */
  lemma AnswerLeadsBack(packet: seq<Byte>, src: Address, init: Address)
    requires IsBindRequest(packet) && IsAddress(src)
    ensures |packet| >= HEADER_SIZE
    ensures Answered(Reply(packet, src), packet[4..20], ReplyAttrs(NameOf(packet), src))
    ensures var name := NameOf(packet);
            Mapped(ReplyAttrs(name, src), init) == if name.Some? && 988 <= |name.value| < 1000 then init else src
  {
    hide *;
    Sizes();
    RequestIs(packet, src);
    ReplyFits(NameOf(packet), src);
    PacketCarries(BIND_RESPONSE, packet[4..20], ReplyAttrs(NameOf(packet), src));
    AnsweredBy(Packet(BIND_RESPONSE, packet[4..20], ReplyAttrs(NameOf(packet), src)), packet[4..20],
               ReplyAttrs(NameOf(packet), src));
    AddressFits(NameOf(packet), src, init);
  }

  lemma SentName(user: Option<seq<Byte>>)
    ensures |Encode(NamedAttrs(user))| < 0x1_0000
    ensures UserOf(NamedAttrs(user)) == if user.Some? && |user.value| < 1000 then user else None
  {
    EncodeSize(NamedAttrs(user));
    NamedSize(user, Address([], []));
    hide Encode, SizeOf, Encodable;
  }

  lemma {:induction false} NoNul(s: seq<Byte>)
    requires 0 !in s
    ensures CString(s) == s
  {
    if s != [] {
      NoNul(s[1..]);
    }
  }

  function Request(id: seq<Byte>, user: Option<seq<Byte>>): seq<Byte> {
    Packet(BIND_REQUEST, id, NamedAttrs(user))
  }

  /** The user name that goes out: a name that does not fit is left out. */
  function NameSent(user: Option<seq<Byte>>): Option<seq<Byte>> {
    if user.Some? && |user.value| < 1000 then user else None
  }

  lemma CarriesFacts(p: seq<Byte>, id: seq<Byte>, attrs: seq<Attr>)
    requires Carries(p, id, attrs)
    ensures |p| >= HEADER_SIZE && p[4..20] == id
    ensures NameOf(p) == NameIn(attrs)
    ensures U16(p[0], p[1]) == BIND_REQUEST ==> IsBindRequest(p)
  {
    hide Decode, Body, NameIn, ReturnCode;
  }

  lemma RequestType(id: seq<Byte>, user: Option<seq<Byte>>)
    requires |id| == 16
    ensures var p := Request(id, user); |p| >= HEADER_SIZE && U16(p[0], p[1]) == BIND_REQUEST
    ensures Carries(Request(id, user), id, NamedAttrs(user))
  {
    hide *;
    Sizes();
    SentName(user);
    RequestPacket(id, user);
    PacketIsRead(BIND_REQUEST, id, NamedAttrs(user));
    PacketCarries(BIND_REQUEST, id, NamedAttrs(user));
  }

  lemma RequestPacket(id: seq<Byte>, user: Option<seq<Byte>>)
    ensures Request(id, user) == Packet(BIND_REQUEST, id, NamedAttrs(user)) && BIND_REQUEST % 0x1_0000 == BIND_REQUEST
  {
    hide Packet, NamedAttrs;
  }

  lemma NameInSent(user: Option<seq<Byte>>)
    requires user.Some? ==> 0 !in user.value
    ensures NameIn(NamedAttrs(user)) == NameSent(user)
  {
    SentName(user);
    if user.Some? {
      NoNul(user.value);
    }
    hide NamedAttrs, UserOf, CString;
  }

  /** Client and server together: the client learns the address it was seen under, except with a user name of
      988 to 999 bytes; with a longer one it does, because the request goes out without the name. */
  lemma BindExchange(id: seq<Byte>, user: Option<seq<Byte>>, src: Address, init: Address)
    requires |id| == 16 && IsAddress(src) && (user.Some? ==> 0 !in user.value)
    ensures Mapped(ReplyAttrs(NameSent(user), src), init)
         == if user.Some? && 988 <= |user.value| < 1000 then init else src
    ensures Answered(Reply(Request(id, user), src), id, ReplyAttrs(NameSent(user), src))
  {
    hide *;
    RequestType(id, user);
    CarriesFacts(Request(id, user), id, NamedAttrs(user));
    NameInSent(user);
    AnswerLeadsBack(Request(id, user), src, init);
    AddressFits(NameSent(user), src, init);
    SentRange(user);
  }

  lemma SentRange(user: Option<seq<Byte>>)
    ensures var name := NameSent(user);
            (name.Some? && 988 <= |name.value| < 1000) <==> (user.Some? && 988 <= |user.value| < 1000)
  {
  }
}
