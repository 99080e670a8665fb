/** Messages between instances (src/celovpn/qtlocalpeer.cpp): a length and as many bytes, written by
    sendMessage() and read by receiveConnection() in whatever pieces they arrive. */
module PeerMessage {
  import opened Common

  const MAX_LENGTH: nat := 0x1_0000_0000

  /** QDataStream's 32-bit number, most significant byte first. */
  function Header(n: nat): (h: seq<Byte>)
    requires n < MAX_LENGTH
    ensures |h| == 4 && Number(h) == n
  {
    var q1 := n / 256;
    var q2 := q1 / 256;
    var q3 := q2 / 256;
    [q3 as Byte, (q2 % 256) as Byte, (q1 % 256) as Byte, (n % 256) as Byte]
  }

  function Number(b: seq<Byte>): nat
    requires |b| >= 4
  {
    ((b[0] as int * 256 + b[1] as int) * 256 + b[2] as int) * 256 + b[3] as int
  }

  lemma Digit(q: nat, b: Byte)
    ensures (q * 256 + b as int) / 256 == q && (q * 256 + b as int) % 256 == b as int
  {
  }

  /** The four bytes of the header are the digits of the length to the base 256, the highest first. */
  lemma HeaderBytes(b0: Byte, b1: Byte, b2: Byte, b3: Byte)
    ensures var n := b0 as nat * 0x100_0000 + b1 as nat * 0x1_0000 + b2 as nat * 0x100 + b3 as nat;
            n < 0x1_0000_0000 && Header(n) == [b0, b1, b2, b3] && Number([b0, b1, b2, b3]) == n
  {
    var q2 := b0 as nat * 256 + b1 as nat;
    var q1 := q2 * 256 + b2 as nat;
    Digit(b0 as nat, b1);
    Digit(q2, b2);
    Digit(q1, b3);
  }

  /** What sendMessage() writes. */
  function Sent(message: seq<Byte>): seq<Byte>
    requires |message| < MAX_LENGTH
  {
    Header(|message|) + message
  }

  /** What a successful wait brings: more bytes, or a read that fails. A list of inputs ends with a wait that is not
      successful: two seconds have passed, the other side has gone, or the wait has met an error. */
  datatype Input = Piece(bytes: seq<Byte>) | Failure

  /** All that arrives before a read fails. */
  function Arrived(first: seq<Byte>, more: seq<Input>): seq<Byte>
    decreases |more|
  {
    if more == [] || more[0].Failure? then first else Arrived(first + more[0].bytes, more[1..])
  }

  lemma {:induction false} ArrivedGrows(first: seq<Byte>, more: seq<Input>)
    ensures first <= Arrived(first, more)
    decreases |more|
  {
    if more != [] && more[0].Piece? {
      ArrivedGrows(first + more[0].bytes, more[1..]);
    }
  }

  /** uMsg and whether it is acknowledged and delivered: everything that arrived in time is in place, and only a read
      that fails, the first or one before the message was complete, keeps it from being delivered. */
  predicate Outcome(first: seq<Byte>, firstFails: bool, more: seq<Input>, uMsg: seq<Byte>, delivered: bool)
    requires |first| >= 4
  {
    if firstFails then |uMsg| == Number(first) && !delivered else Read(first, more, uMsg, delivered)
  }

  /** When the first read does not fail. */
  predicate Read(first: seq<Byte>, more: seq<Input>, uMsg: seq<Byte>, delivered: bool)
    requires |first| >= 4
  {
    var stream := Arrived(first, more);
    && |uMsg| == Number(first)
    && |stream| >= 4
    && uMsg[..Min(|uMsg|, |stream| - 4)] == stream[4..4 + Min(|uMsg|, |stream| - 4)]
    && (delivered <==> |stream| - 4 >= |uMsg| || Failure !in more)
  }

  /** readRawData: as much as is there, but no more than still wanted. */
  method ReadRawData(buf: array<Byte>, at: nat, remaining: nat, available: seq<Byte>) returns (got: nat)
    requires at + remaining == buf.Length
    modifies buf
    ensures got == Min(remaining, |available|)
    ensures buf[..at + got] == old(buf[..at]) + available[..got]
  {
    got := Min(remaining, |available|);
    forall i | 0 <= i < got {
      buf[at + i] := available[i];
    }
  }

  /** The stream splits into header, what was read, what is available, and what is to come. */
  ghost predicate At(first: seq<Byte>, more: seq<Input>, read: seq<Byte>, available: seq<Byte>, rest: seq<Input>) {
    && |first| >= 4
    && Arrived(first, more) == Arrived(first[..4] + read + available, rest)
    && (Failure in more <==> Failure in rest)
  }

  /** receiveConnection() once the length has arrived; firstFails is whether the first read fails. */
  method ReceiveConnection(first: seq<Byte>, firstFails: bool, more: seq<Input>)
    returns (uMsg: array<Byte>, delivered: bool)
    requires |first| >= 4
    ensures fresh(uMsg) && Outcome(first, firstFails, more, uMsg[..], delivered)
  {
    hide Number, Arrived;
    var remaining: nat := Number(first);
    uMsg := new Byte[remaining];
    if firstFails {
      return uMsg, false;
    }
    ghost var read: seq<Byte> := [];
    var available, rest := first[4..], more;
    StartsAt(first, more);
    var got := ReadRawData(uMsg, 0, remaining, available);
    read := read + available[..got];
    ReadAt(first, more, [], available, rest, got);
    available := available[got..];
    remaining := remaining - got;
    while remaining > 0 && rest != []
      invariant |read| + remaining == uMsg.Length == Number(first)
      invariant uMsg[..|read|] == read
      invariant remaining > 0 ==> available == []
      invariant At(first, more, read, available, rest)
      decreases |rest|
    {
      var input := rest[0];
      if input.Failure? {
        Failed(first, more, read, available, rest, uMsg[..]);
        return uMsg, false;
      }
      ArrivesAt(first, more, read, available, rest);
      available, rest := available + input.bytes, rest[1..];
      got := ReadRawData(uMsg, uMsg.Length - remaining, remaining, available);
      ReadAt(first, more, read, available, rest, got);
      read := read + available[..got];
      available := available[got..];
      remaining := remaining - got;
    }
    Ended(first, more, read, available, rest, uMsg[..]);
    return uMsg, true;
  }

  lemma StartsAt(first: seq<Byte>, more: seq<Input>)
    requires |first| >= 4
    ensures At(first, more, [], first[4..], more)
  {
    assert first[..4] + [] + first[4..] == first;
  }

  lemma ReadAt(first: seq<Byte>, more: seq<Input>, read: seq<Byte>, available: seq<Byte>, rest: seq<Input>, got: nat)
    requires At(first, more, read, available, rest) && got <= |available|
    ensures At(first, more, read + available[..got], available[got..], rest)
  {
    assert first[..4] + (read + available[..got]) + available[got..] == first[..4] + read + available;
    hide Arrived;
  }

  lemma ArrivesAt(first: seq<Byte>, more: seq<Input>, read: seq<Byte>, available: seq<Byte>, rest: seq<Input>)
    requires At(first, more, read, available, rest) && rest != [] && rest[0].Piece?
    ensures At(first, more, read, available + rest[0].bytes, rest[1..])
  {
    assert first[..4] + read + (available + rest[0].bytes) == first[..4] + read + available + rest[0].bytes;
    assert rest == [rest[0]] + rest[1..];
  }

  lemma Failed(first: seq<Byte>, more: seq<Input>, read: seq<Byte>, available: seq<Byte>, rest: seq<Input>,
               uMsg: seq<Byte>)
    requires At(first, more, read, available, rest) && rest != [] && rest[0].Failure? && available == []
    requires |read| < |uMsg| == Number(first) && uMsg[..|read|] == read
    ensures Read(first, more, uMsg, false)
  {
    assert Arrived(first, more) == first[..4] + read;
    assert (first[..4] + read)[4..4 + |read|] == read;
    hide Number;
  }

  lemma Ended(first: seq<Byte>, more: seq<Input>, read: seq<Byte>, available: seq<Byte>, rest: seq<Input>,
              uMsg: seq<Byte>)
    requires At(first, more, read, available, rest)
    requires |read| <= |uMsg| == Number(first) && uMsg[..|read|] == read
    requires |read| == |uMsg| || (rest == [] && available == [])
    ensures Read(first, more, uMsg, true)
  {
    var stream := Arrived(first, more);
    ArrivedGrows(first[..4] + read + available, rest);
    assert first[..4] + read <= stream;
    assert stream[4..4 + |read|] == read;
    hide Number, Arrived;
  }

  // ------------------------------------------------------------------ a whole exchange

  /** However a sent message is split, it is delivered as it was sent once all of it has arrived, unless
      the first read fails. */
  lemma Delivered(message: seq<Byte>, first: seq<Byte>, firstFails: bool, more: seq<Input>, uMsg: seq<Byte>,
                  delivered: bool)
    requires |message| < MAX_LENGTH && |first| >= 4 && Arrived(first, more) == Sent(message)
    requires Outcome(first, firstFails, more, uMsg, delivered)
    ensures (delivered <==> !firstFails) && (delivered ==> uMsg == message)
  {
    ArrivedGrows(first, more);
    SameHeader(message, first);
    hide Number, Header, Arrived;
  }

  lemma SameHeader(message: seq<Byte>, first: seq<Byte>)
    requires |message| < MAX_LENGTH && |first| >= 4 && first <= Sent(message)
    ensures Number(first) == |message|
    ensures Sent(message)[4..] == message
  {
    var h := Header(|message|);
    assert forall i :: 0 <= i < 4 ==> first[i] == Sent(message)[i] == h[i];
    hide Header;
  }

  /** A sender that falls silent or goes away in the middle is acknowledged all the same: its message is delivered with
      the length announced, and only the part that arrived is what was sent. */
  lemma SilenceIsAcknowledged(message: seq<Byte>, first: seq<Byte>, firstFails: bool, more: seq<Input>, uMsg: seq<Byte>,
                              delivered: bool)
    requires |message| < MAX_LENGTH && |first| >= 4 && Arrived(first, more) <= Sent(message)
    requires !firstFails && Failure !in more
    requires Outcome(first, firstFails, more, uMsg, delivered)
    ensures delivered && |uMsg| == |message|
    ensures var n := |Arrived(first, more)| - 4; 0 <= n <= |message| && uMsg[..n] == message[..n]
  {
    ArrivedGrows(first, more);
    SameHeader(message, first);
    var stream := Arrived(first, more);
    var n := |stream| - 4;
    assert stream[4..4 + n] == Sent(message)[4..4 + n] == message[..n];
    hide Number, Header, Arrived;
  }

  /** Whatever part of a message arrives, only a read that fails refuses it; what ends a wait never does. */
  lemma DeliveredIff(message: seq<Byte>, first: seq<Byte>, firstFails: bool, more: seq<Input>, uMsg: seq<Byte>,
                     delivered: bool)
    requires |message| < MAX_LENGTH && |first| >= 4 && Arrived(first, more) <= Sent(message)
    requires Outcome(first, firstFails, more, uMsg, delivered)
    ensures delivered <==> !firstFails && (Arrived(first, more) == Sent(message) || Failure !in more)
  {
    ArrivedGrows(first, more);
    SameHeader(message, first);
    hide Number, Header, Arrived;
  }
}
