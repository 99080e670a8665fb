/** The in-place parser of src/celovpn/stun.cpp: it walks the receive buffer, hands every
    attribute to a callback and clears its type field behind itself. */
module StunParser {
  import opened Common
  import opened StunCodec

  /** struct sockaddr_in as far as the callback writes it. */
  class SockAddr {
    var port: seq<Byte>
    var addr: seq<Byte>

    constructor ()
      ensures Value() == Address([], [])
    {
      port, addr := [], [];
    }

    function Value(): Address
      reads this
    {
      Address(port, addr)
    }
  }

  /** The callback: read type, length and value out of the buffer, and keep a MAPPED-ADDRESS. */
  method GetMapped(buf: array<Byte>, attr: nat, sa: SockAddr)
    requires attr + ATTR_HEADER <= buf.Length && HasFirst(buf[..][attr..])
    modifies sa
    ensures var a := First(buf[..][attr..]);
            sa.Value() == if IsMapped(a) then AddressOf(a) else old(sa.Value())
  {
    var addr := attr + ATTR_HEADER;
    ghost var bytes, b := buf[..], buf[..][attr..];
    assert b[0] == buf[attr] && b[1] == buf[attr + 1] && b[2] == buf[attr + 2] && b[3] == buf[attr + 3];
    if U16(buf[attr], buf[attr + 1]) != MAPPED_ADDRESS || U16(buf[attr + 2], buf[attr + 3]) != 8 {
      return;
    }
    assert b == bytes[attr..|bytes|];
    SliceOfSlice(bytes, attr, |bytes|, ATTR_HEADER, 12);
    SliceOfSlice(bytes, addr, addr + 8, 2, 4);
    SliceOfSlice(bytes, addr, addr + 8, 4, 8);
    sa.port := buf[addr + 2..addr + 4];
    sa.addr := buf[addr + 4..addr + 8];
  }

  /** attr->attr = 0 */
  method ClearType(buf: array<Byte>, attr: nat)
    requires attr + 1 < buf.Length
    modifies buf
    ensures buf[..] == old(buf[..])[attr := 0][attr + 1 := 0]
  {
    buf[attr], buf[attr + 1] := 0, 0;
  }

  lemma Sizes()
    ensures HEADER_SIZE == 20 && ATTR_HEADER == 4
  {
  }

  /** The whole buffer after a packet of at least a header was parsed. */
  function BufferAfter(b: seq<Byte>, len: nat): (c: seq<Byte>)
    requires HEADER_SIZE <= len < |b|
    ensures |c| == |b|
  {
    var body := Body(b[..len]);
    var end := HEADER_SIZE + |body|;
    b[..HEADER_SIZE] + Leave(body, b[end]) + b[end + 1..]
  }

  lemma FirstOfLonger(b: seq<Byte>, c: seq<Byte>)
    requires b <= c && HasFirst(b)
    ensures HasFirst(c) && First(c) == First(b)
  {
    assert c[..|b|] == b;
    assert b[0] == c[0] && b[1] == c[1] && b[2] == c[2] && b[3] == c[3];
    assert c[ATTR_HEADER..FirstSize(c)] == b[ATTR_HEADER..FirstSize(b)];
  }

  /** The part of the buffer before data is done; seen are the attributes found in it. */
  ghost predicate Progress(was: seq<Byte>, now: seq<Byte>, data: nat, end: nat, seen: seq<Attr>) {
    && HEADER_SIZE <= data <= end <= |was| == |now|
    && now[..HEADER_SIZE] == was[..HEADER_SIZE]
    && now[data..] == was[data..]
    && ClearTypes(was[HEADER_SIZE..end]) == now[HEADER_SIZE..data] + ClearTypes(was[data..end])
    && Decode(was[HEADER_SIZE..end]) == Decode(was[data..end]).(attrs := seen + Decode(was[data..end]).attrs)
  }

  lemma ProgressStart(was: seq<Byte>, end: nat)
    requires HEADER_SIZE <= end <= |was|
    ensures Progress(was, was, HEADER_SIZE, end, [])
  {
    assert [] + Decode(was[HEADER_SIZE..end]).attrs == Decode(was[HEADER_SIZE..end]).attrs;
  }

  lemma ProgressReads(was: seq<Byte>, now: seq<Byte>, data: nat, end: nat, seen: seq<Attr>)
    requires Progress(was, now, data, end, seen)
    ensures HEADER_SIZE <= data <= end <= |was| == |now|
    ensures var b := was[data..end];
            && (end - data >= ATTR_HEADER ==> FirstSize(b) == U16(now[data + 2], now[data + 3]) + ATTR_HEADER)
            && (HasFirst(b) <==> end - data >= ATTR_HEADER && FirstSize(b) <= end - data)
            && (HasFirst(b) ==> HasFirst(now[data..]) && First(now[data..]) == First(b))
  {
    hide Decode, ClearTypes, First;
    var b := was[data..end];
    assert b == was[data..][..end - data] == now[data..][..end - data];
    if HasFirst(b) {
      FirstOfLonger(b, now[data..]);
    }
  }

  lemma ProgressFacts(was: seq<Byte>, now: seq<Byte>, data: nat, end: nat, seen: seq<Attr>)
    requires Progress(was, now, data, end, seen)
    ensures HEADER_SIZE <= data <= end <= |was| == |now|
    ensures now[..HEADER_SIZE] == was[..HEADER_SIZE] && now[data..] == was[data..]
    ensures ClearTypes(was[HEADER_SIZE..end]) == now[HEADER_SIZE..data] + ClearTypes(was[data..end])
    ensures Decode(was[HEADER_SIZE..end]) == Decode(was[data..end]).(attrs := seen + Decode(was[data..end]).attrs)
  {
  }

  lemma ProgressFrom(was: seq<Byte>, now: seq<Byte>, data: nat, end: nat, seen: seq<Attr>)
    requires HEADER_SIZE <= data <= end <= |was| == |now|
    requires now[..HEADER_SIZE] == was[..HEADER_SIZE] && now[data..] == was[data..]
    requires ClearTypes(was[HEADER_SIZE..end]) == now[HEADER_SIZE..data] + ClearTypes(was[data..end])
    requires Decode(was[HEADER_SIZE..end]) == Decode(was[data..end]).(attrs := seen + Decode(was[data..end]).attrs)
    ensures Progress(was, now, data, end, seen)
  {
  }

  lemma StepBytes(was: seq<Byte>, now: seq<Byte>, data: nat, x: nat)
    requires HEADER_SIZE <= data && 2 <= x && data + x <= |was| == |now| && now[data..] == was[data..]
    ensures var now' := now[data := 0][data + 1 := 0];
            && now'[..HEADER_SIZE] == now[..HEADER_SIZE]
            && now'[data + x..] == was[data + x..]
            && now'[HEADER_SIZE..data + x] == now[HEADER_SIZE..data] + ([0, 0] + was[data + 2..data + x])
  {
    assert now == now[..data] + was[data..];
  }

  lemma ProgressStep(was: seq<Byte>, now: seq<Byte>, data: nat, end: nat, seen: seq<Attr>)
    requires Progress(was, now, data, end, seen) && HasFirst(was[data..end])
    ensures var a, x := First(was[data..end]), FirstSize(was[data..end]);
            Progress(was, now[data := 0][data + 1 := 0], data + x, end, seen + [a])
  {
    hide *;
    ProgressFacts(was, now, data, end, seen);
    var b := was[data..end];
    DecodeStep(b);
    ClearStep(b);
    FirstFits(b);
    var x := FirstSize(b);
    SliceOfSlice(was, data, end, x, end - data);
    SliceOfSlice(was, data, end, 2, x);
    StepBytes(was, now, data, x);
    Associative(now[HEADER_SIZE..data], [0, 0] + b[2..x], ClearTypes(was[data + x..end]));
    Associative(seen, [First(b)], Decode(b[x..]).attrs);
    ProgressFrom(was, now[data := 0][data + 1 := 0], data + x, end, seen + [First(b)]);
  }

  lemma EndBytes(was: seq<Byte>, now: seq<Byte>, data: nat, end: nat, c: seq<Byte>)
    requires HEADER_SIZE <= data <= end < |was| == |now|
    requires now[..HEADER_SIZE] == was[..HEADER_SIZE] && now[data..] == was[data..]
    requires c == now[HEADER_SIZE..data] + was[data..end]
    ensures now[data := 0] == was[..HEADER_SIZE] + (c + [was[end]])[data - HEADER_SIZE := 0] + was[end + 1..]
  {
    var p, r := was[..HEADER_SIZE], was[end + 1..];
    SplitTail(was, data, end);
    assert now == now[..HEADER_SIZE] + now[HEADER_SIZE..data] + now[data..];
    assert now == p + (c + [was[end]]) + r;
    UpdateMiddle(p, c + [was[end]], r, data - HEADER_SIZE, 0);
  }

  lemma ProgressEnd(was: seq<Byte>, now: seq<Byte>, data: nat, end: nat, seen: seq<Attr>)
    requires Progress(was, now, data, end, seen) && !HasFirst(was[data..end]) && end < |was|
    ensures var body := was[HEADER_SIZE..end];
            && seen == Decode(body).attrs
            && Decode(body).status == Decode(was[data..end]).status
            && now[data := 0] == was[..HEADER_SIZE] + Leave(body, was[end]) + was[end + 1..]
  {
    assert seen + [] == seen;
    EndBytes(was, now, data, end, ClearTypes(was[HEADER_SIZE..end]));
  }

  /** The state of the loop when left bytes are to be read at data: seen were found and kept. */
  ghost predicate At(was: seq<Byte>, now: seq<Byte>, data: nat, left: nat, seen: seq<Attr>, init: Address,
           addr: Address) {
    Progress(was, now, data, data + left, seen) && addr == Mapped(seen, init)
  }

  lemma AtStart(was: seq<Byte>, len: nat, init: Address)
    requires HEADER_SIZE + len <= |was|
    ensures At(was, was, HEADER_SIZE, len, [], init, init)
  {
    ProgressStart(was, HEADER_SIZE + len);
  }

  lemma AtRange(was: seq<Byte>, now: seq<Byte>, data: nat, left: nat, seen: seq<Attr>, init: Address, addr: Address)
    requires At(was, now, data, left, seen, init, addr)
    ensures data + left <= |was| == |now|
    ensures left >= ATTR_HEADER ==> NextSize(was, data, left) == U16(now[data + 2], now[data + 3]) + ATTR_HEADER
  {
    hide Progress, Mapped, FirstSize, HasFirst, First, U16;
    ProgressReads(was, now, data, data + left, seen);
  }

  /** The bytes the attribute at data takes in the original buffer; zero where there is no room for its header. */
  function NextSize(was: seq<Byte>, data: nat, left: nat): nat {
    if ATTR_HEADER <= left && data + left <= |was| then FirstSize(was[data..data + left]) else 0
  }

  /** The size of the attribute at data, header included. */
  method SizeAt(buf: array<Byte>, data: nat, left: nat,
                ghost was: seq<Byte>, ghost seen: seq<Attr>, ghost init: Address, ghost addr: Address)
    returns (x: nat)
    requires At(was, buf[..], data, left, seen, init, addr) && ATTR_HEADER <= left
    ensures x == NextSize(was, data, left) && ATTR_HEADER <= x
  {
    AtRange(was, buf[..], data, left, seen, init, addr);
    hide *;
    x := U16(buf[data + 2], buf[data + 3]) + ATTR_HEADER;
  }

  lemma AtFacts(was: seq<Byte>, now: seq<Byte>, data: nat, left: nat, seen: seq<Attr>, init: Address, addr: Address)
    requires At(was, now, data, left, seen, init, addr)
    requires ATTR_HEADER <= left && NextSize(was, data, left) <= left
    ensures Progress(was, now, data, data + left, seen) && addr == Mapped(seen, init)
    ensures data + left <= |was| == |now| && HasFirst(was[data..data + left])
    ensures FirstSize(was[data..data + left]) == NextSize(was, data, left)
    ensures data + ATTR_HEADER <= |now| && data + 1 < |now|
    ensures HasFirst(now[data..]) && First(now[data..]) == First(was[data..data + left])
  {
    ProgressReads(was, now, data, data + left, seen);
    hide First, Progress, Mapped;
  }

  lemma AtFrom(was: seq<Byte>, now: seq<Byte>, data: nat, left: nat, seen: seq<Attr>, init: Address, addr: Address)
    requires Progress(was, now, data, data + left, seen) && addr == Mapped(seen, init)
    ensures At(was, now, data, left, seen, init, addr)
  {
  }

  lemma Take(was: seq<Byte>, now: seq<Byte>, data: nat, left: nat, seen: seq<Attr>, init: Address, addr: Address)
    returns (more: seq<Attr>)
    requires At(was, now, data, left, seen, init, addr)
    requires ATTR_HEADER <= left && NextSize(was, data, left) <= left
    ensures data + ATTR_HEADER <= |now| && data + 1 < |now| && HasFirst(now[data..])
    ensures more == seen + [First(now[data..])]
    ensures NextSize(was, data, left) == ATTR_HEADER + |First(now[data..]).value|
    ensures var a, x := First(now[data..]), NextSize(was, data, left);
            At(was, now[data := 0][data + 1 := 0], data + x, left - x, more, init,
                     if IsMapped(a) then AddressOf(a) else addr)
  {
    hide *;
    AtFacts(was, now, data, left, seen, init, addr);
    var a, x := First(was[data..data + left]), NextSize(was, data, left);
    ProgressStep(was, now, data, data + left, seen);
    FirstFits(was[data..data + left]);
    more := seen + [a];
    MappedAppend(seen, a, init);
    AtFrom(was, now[data := 0][data + 1 := 0], data + x, left - x, more, init,
             if IsMapped(a) then AddressOf(a) else addr);
  }

  /** One whole attribute of x bytes: the callback, then its type field. */
  method TakeAttribute(buf: array<Byte>, data: nat, left: nat, x: nat, sa: SockAddr,
                       ghost was: seq<Byte>, ghost seen: seq<Attr>, ghost init: Address)
    returns (ghost more: seq<Attr>)
    requires At(was, buf[..], data, left, seen, init, sa.Value())
    requires ATTR_HEADER <= left && x == NextSize(was, data, left) <= left
    modifies buf, sa
    ensures At(was, buf[..], data + x, left - x, more, init, sa.Value())
  {
    hide *;
    more := Take(was, buf[..], data, left, seen, init, sa.Value());
    GetMapped(buf, data, sa);
    ClearType(buf, data);
  }

  /** The loop over the attributes has left its buffer like this and returns ret: it stopped at
      data, in the middle of a bad attribute or at the end. */
  ghost predicate Stopped(was: seq<Byte>, now: seq<Byte>, data: nat, end: nat, size: nat, init: Address,
                          addr: Address, ret: int) {
    exists seen ::
      && Progress(was, now, data, end, seen)
      && !HasFirst(was[data..end])
      && ret == (if data == end then size as int else if end - data < ATTR_HEADER then -21 else -22)
      && addr == Mapped(seen, init)
  }

  lemma Stops(was: seq<Byte>, now: seq<Byte>, data: nat, left: nat, seen: seq<Attr>, size: nat, init: Address,
              addr: Address, ret: int)
    requires At(was, now, data, left, seen, init, addr)
    requires left < ATTR_HEADER || NextSize(was, data, left) > left
    requires ret == if left == 0 then size as int else if left < ATTR_HEADER then -21 else -22
    ensures Stopped(was, now, data, data + left, size, init, addr, ret)
  {
    assert Progress(was, now, data, data + left, seen);
  }

  /** The loop over the attributes in buf[20..20 + len]. */
  method ParseAttributes(buf: array<Byte>, size: nat, len: nat, sa: SockAddr) returns (ret: int, data: nat)
    requires HEADER_SIZE + len <= buf.Length
    modifies buf, sa
    ensures Stopped(old(buf[..]), buf[..], data, HEADER_SIZE + len, size, old(sa.Value()), sa.Value(), ret)
  {
    hide *;
    Sizes();
    ghost var was, init, seen := buf[..], sa.Value(), [];
    AtStart(was, len, init);
    var left: nat := len;
    ret, data := size, HEADER_SIZE;
    while left > 0
      invariant data + left == HEADER_SIZE + len
      invariant ret == size
      invariant At(was, buf[..], data, left, seen, init, sa.Value())
      decreases left
    {
      if left < ATTR_HEADER {
        ret := -21;
        break;
      }
      var x := SizeAt(buf, data, left, was, seen, init, sa.Value());
      if x > left {
        ret := -22;
        break;
      }
      seen := TakeAttribute(buf, data, left, x, sa, was, seen, init);
      left := left - x;
      data := data + x;
    }
    Stops(was, buf[..], data, left, seen, size, init, sa.Value(), ret);
  }

  /** The parser as the decoder on the received bytes: same return code, same address, and a
      buffer in which nothing but type fields and one terminating byte changed. */
  ghost predicate Parsed(was: seq<Byte>, len: nat, now: seq<Byte>, init: Address, addr: Address, ret: int)
    requires len < |was|
  {
    && ret == ReturnCode(was[..len])
    && if len < HEADER_SIZE then now == was && addr == init
       else now == BufferAfter(was, len) && addr == Mapped(Decode(Body(was[..len])).attrs, init)
  }

  lemma Short(was: seq<Byte>, len: nat, init: Address)
    requires len < |was| && len < HEADER_SIZE
    ensures Parsed(was, len, was, init, init, -20)
  {
  }

  /** The caller receives into a buffer that is larger than the packet. */
  method HandlePacket(buf: array<Byte>, len: nat, sa: SockAddr) returns (ret: int)
    requires len < buf.Length
    modifies buf, sa
    ensures Parsed(old(buf[..]), len, buf[..], old(sa.Value()), sa.Value(), ret)
  {
    hide *;
    Sizes();
    ghost var was, init := buf[..], sa.Value();
    if len < HEADER_SIZE {
      Short(was, len, init);
      return -20;
    }
    var left := len - HEADER_SIZE;
    var x := U16(buf[2], buf[3]);
    if x < left {
      left := x;
    }
    var data;
    ret, data := ParseAttributes(buf, len, left, sa);
    Outcome(was, buf[..], len, HEADER_SIZE + left, data, init, sa.Value(), ret);
    PutZero(buf, data);
  }

  /** *data = 0 */
  method PutZero(buf: array<Byte>, data: nat)
    requires data < buf.Length
    modifies buf
    ensures buf[..] == old(buf[..])[data := 0]
  {
    buf[data] := 0;
  }

  lemma BodyIs(was: seq<Byte>, len: nat, end: nat)
    requires HEADER_SIZE <= len < |was|
    requires var x := U16(was[2], was[3]); end == HEADER_SIZE + if x < len - HEADER_SIZE then x else len - HEADER_SIZE
    ensures Body(was[..len]) == was[HEADER_SIZE..end]
  {
    SliceOfSlice(was, 0, len, HEADER_SIZE, end);
    assert was[0..len] == was[..len];
  }

  lemma StoppedFacts(was: seq<Byte>, now: seq<Byte>, data: nat, end: nat, size: nat, init: Address, addr: Address,
                     ret: int)
    returns (seen: seq<Attr>)
    requires Stopped(was, now, data, end, size, init, addr, ret)
    ensures Progress(was, now, data, end, seen) && HEADER_SIZE <= data <= end <= |was| == |now|
    ensures !HasFirst(was[data..end]) && addr == Mapped(seen, init)
    ensures ret == if data == end then size as int else if end - data < ATTR_HEADER then -21 else -22
  {
    seen :| Progress(was, now, data, end, seen) && addr == Mapped(seen, init);
  }

  lemma Outcome(was: seq<Byte>, now: seq<Byte>, len: nat, end: nat, data: nat, init: Address, addr: Address, ret: int)
    requires HEADER_SIZE <= len < |was|
    requires var x := U16(was[2], was[3]); end == HEADER_SIZE + if x < len - HEADER_SIZE then x else len - HEADER_SIZE
    requires Stopped(was, now, data, end, len, init, addr, ret)
    ensures data < |now| == |was|
    ensures Parsed(was, len, now[data := 0], init, addr, ret)
  {
    hide *;
    BodyIs(was, len, end);
    Sizes();
    var seen := StoppedFacts(was, now, data, end, len, init, addr, ret);
    ProgressEnd(was, now, data, end, seen);
    ProgressFacts(was, now, data, end, seen);
    Unread(was[data..end]);
    ParsedFrom(was, len, end, now[data := 0], init, addr, ret);
  }

  lemma ParsedFrom(was: seq<Byte>, len: nat, end: nat, now: seq<Byte>, init: Address, addr: Address, ret: int)
    requires HEADER_SIZE <= len < |was| && HEADER_SIZE <= end <= len
    requires Body(was[..len]) == was[HEADER_SIZE..end]
    requires now == was[..HEADER_SIZE] + Leave(was[HEADER_SIZE..end], was[end]) + was[end + 1..]
    requires addr == Mapped(Decode(was[HEADER_SIZE..end]).attrs, init)
    requires ret == match Decode(was[HEADER_SIZE..end]).status
                    case Complete => len as int
                    case Runt => -21
                    case Overrun => -22
    ensures Parsed(was, len, now, init, addr, ret)
  {
    hide Decode, Leave, Mapped, Body;
    assert HEADER_SIZE + |was[HEADER_SIZE..end]| == end;
  }
}
