/** The order in which the STUN servers are asked (src/celovpn/stun.cpp, GetExternalIPbySTUN):
    a walk over a prime number of servers with a stride taken from a 64-bit seed. */
module StunProbe {
  import opened Numbers

  const SERVERS: nat := 263
  const TWO_64: nat := 0x1_0000_0000_0000_0000
  const TOP_BYTE: nat := 0xff00_0000_0000_0000
  const ATTEMPTS: nat := 2 * SERVERS - 1

  type Seed = n: nat | n < TWO_64

  /** Shift right by eight bits and set the top byte, which the shift has just cleared. */
  function Mix(rnd: Seed): Seed {
    rnd / 256 + TOP_BYTE
  }

  // ------------------------------------------------------------------ the words of the code

  lemma IsSeed(w: bv64)
    ensures 0 <= w as int < TWO_64
  {
  }

  /** A 64-bit word as a number. */
  function Number(w: bv64): Seed {
    IsSeed(w);
    w as int
  }

  lemma Odd(y: bv64)
    requires y <= 0x7fff_ffff_ffff_ffff
    ensures ((y << 1) | 1) as int == 2 * (y as int) + 1
  {
  }

  lemma OddWord(x: bv64, y: bv64)
    requires y <= 0x7fff_ffff_ffff_ffff && x == (y << 1) | 1
    ensures Number(x) == 2 * Number(y) + 1
  {
    Odd(y);
  }

  lemma Even(y: bv64)
    requires y <= 0x7fff_ffff_ffff_ffff
    ensures (y << 1) as int == 2 * (y as int)
  {
  }

  lemma EvenWord(x: bv64, y: bv64)
    requires y <= 0x7fff_ffff_ffff_ffff && x == y << 1
    ensures Number(x) == 2 * Number(y)
  {
    Even(y);
  }

  lemma LastBit(x: bv64)
    ensures x >> 1 <= 0x7fff_ffff_ffff_ffff && (x == (x >> 1) << 1 || x == ((x >> 1) << 1) | 1)
  {
  }

  lemma ShiftByOne(x: bv64, y: bv64)
    requires y == x >> 1
    ensures 2 * Number(y) <= Number(x) <= 2 * Number(y) + 1
  {
    hide Number;
    LastBit(x);
    if x == y << 1 {
      EvenWord(x, y);
    } else {
      OddWord(x, y);
    }
  }

  lemma ShiftByTwo(x: bv64, y: bv64)
    requires y == x >> 2
    ensures 4 * Number(y) <= Number(x) <= 4 * Number(y) + 3
  {
    hide Number;
    ShiftByOne(x, x >> 1);
    ShiftByOne(x >> 1, y);
  }

  lemma ShiftByFour(x: bv64, y: bv64)
    requires y == x >> 4
    ensures 16 * Number(y) <= Number(x) <= 16 * Number(y) + 15
  {
    hide Number;
    ShiftByTwo(x, x >> 2);
    ShiftByTwo(x >> 2, y);
  }

  lemma ShiftByEight(x: bv64, y: bv64)
    requires y == x >> 8
    ensures y <= 0x00ff_ffff_ffff_ffff && 256 * Number(y) <= Number(x) <= 256 * Number(y) + 255
  {
    hide Number;
    ShiftByFour(x, x >> 4);
    ShiftByFour(x >> 4, y);
  }

  lemma TopByteIsFree(y: bv64, z: bv64)
    requires y <= 0x00ff_ffff_ffff_ffff && z == y | 0xff00_0000_0000_0000
    ensures Number(z) == Number(y) + TOP_BYTE
  {
  }

  lemma MixFrom(n: Seed, y: nat, z: nat)
    requires 256 * y <= n <= 256 * y + 255 && z == y + TOP_BYTE
    ensures Mix(n) == z
  {
  }

  /** The shift and the bitwise or of the code are the division and the addition of Mix. */
  lemma MixIsShift(rnd: bv64)
    ensures Mix(Number(rnd)) == Number((rnd >> 8) | 0xff00_0000_0000_0000)
  {
    hide Mix, Number;
    ShiftByEight(rnd, rnd >> 8);
    TopByteIsFree(rnd >> 8, (rnd >> 8) | 0xff00_0000_0000_0000);
    MixFrom(Number(rnd), Number(rnd >> 8), Number((rnd >> 8) | 0xff00_0000_0000_0000));
  }

  function MixedBy(rnd: Seed, rounds: nat): Seed {
    if rounds == 0 then rnd else Mix(MixedBy(rnd, rounds - 1))
  }

  // ------------------------------------------------------------------ the stride

  /** The distance to the fixpoint 2^64 - 1 loses a byte in every round. */
  lemma MixShrinks(rnd: Seed)
    ensures TWO_64 - 1 - Mix(rnd) == (TWO_64 - 1 - rnd) / 256
  {
  }

  lemma {:induction false} FixpointAfterEight(rnd: Seed)
    ensures MixedBy(rnd, 8) == TWO_64 - 1
    ensures (TWO_64 - 1) % SERVERS == 103
  {
    MixShrinks(rnd);
    MixShrinks(MixedBy(rnd, 1));
    MixShrinks(MixedBy(rnd, 2));
    MixShrinks(MixedBy(rnd, 3));
    MixShrinks(MixedBy(rnd, 4));
    MixShrinks(MixedBy(rnd, 5));
    MixShrinks(MixedBy(rnd, 6));
    MixShrinks(MixedBy(rnd, 7));
  }

  /** The stride is the first mixed seed that the number of servers does not divide. */
  predicate IsStride(rnd: Seed, step: nat, rounds: nat) {
    && 1 <= rounds
    && step == MixedBy(rnd, rounds) % SERVERS
    && step != 0
    && forall j :: 1 <= j < rounds ==> MixedBy(rnd, j) % SERVERS == 0
  }

  /** The loop that picks the stride ends within eight rounds for every seed. */
  method ChooseStride(seed: Seed) returns (step: nat, rounds: nat)
    ensures IsStride(seed, step, rounds)
    ensures rounds <= 8 && 0 < step < SERVERS
  {
    var rnd := seed;
    step, rounds := 0, 0;
    FixpointAfterEight(seed);
    while step == 0
      invariant 0 <= rounds <= 8
      invariant rnd == MixedBy(seed, rounds)
      invariant rounds == 0 ==> step == 0
      invariant rounds > 0 ==> step == rnd % SERVERS
      invariant forall j :: 1 <= j < rounds ==> MixedBy(seed, j) % SERVERS == 0
      decreases 8 - rounds
    {
      assert rounds == 8 ==> step == 103;
      rnd := Mix(rnd);
      step := rnd % SERVERS;
      rounds := rounds + 1;
    }
  }

  // ------------------------------------------------------------------ arithmetic modulo the prime

  /** 263 is prime. */
  lemma Prime(d: nat)
    requires 0 < d && Divides(d, SERVERS)
    ensures d == 1 || d == SERVERS
  {
    DividesMod(d, SERVERS);
    var e := SERVERS / d;
    assert e * d == SERVERS;
    if d > 16 {
      LargeProduct(e, d, 16, 17);
      assert 0 < e < 16;
      QuotientUnique(SERVERS, e, d, 0);
      NoSmallDivisor(e);
    } else {
      NoSmallDivisor(d);
    }
  }

  lemma NoSmallDivisor(d: nat)
    requires 0 < d <= 16 && SERVERS % d == 0
    ensures d == 1
  {
    assert SERVERS % 2 == 1 && SERVERS % 3 == 2 && SERVERS % 5 == 3 && SERVERS % 7 == 4 && SERVERS % 11 == 10;
  }

  /** Extended Euclid: the greatest common divisor as a combination of both numbers. */
  lemma {:induction false} Bezout(a: nat, b: nat) returns (g: nat, x: int, y: int)
    requires a > 0
    ensures g > 0 && a * x + b * y == g
    ensures Divides(g, a) && Divides(g, b)
    decreases b
  {
    if b == 0 {
      g, x, y := a, 1, 0;
      assert a == 1 * g && b == 0 * g;
    } else {
      var q, r := a / b, a % b;
      var x', y';
      g, x', y' := Bezout(b, r);
      x, y := y', x' - q * y';
      BackOneStep(a, b, q, r, x', y');
      DividesSum(g, b, q, r);
    }
  }

  lemma BackOneStep(a: int, b: int, q: int, r: int, x: int, y: int)
    requires a == q * b + r
    ensures a * y + b * (x - q * y) == b * x + r * y
  {
    assert a * y == q * b * y + r * y;
    assert b * (x - q * y) == b * x - b * (q * y);
    assert b * (q * y) == q * b * y;
  }

  lemma DividesSum(g: int, b: int, q: int, r: int)
    requires Divides(g, b) && Divides(g, r)
    ensures Divides(g, q * b + r)
  {
    var m :| b == m * g;
    var n :| r == n * g;
    assert q * (m * g) == (q * m) * g;
    assert q * b + r == (q * m + n) * g;
  }

  /** Every stride has an inverse modulo the number of servers. */
  lemma Inverse(step: nat) returns (inv: int, k: int)
    requires 0 < step < SERVERS
    ensures step * inv == 1 + k * SERVERS
  {
    var g, x, y := Bezout(SERVERS, step);
    Prime(g);
    if g == SERVERS {
      var q :| step == q * g;
      SmallMultiple(q, g, step);
    }
    inv, k := y, -x;
  }

  // ------------------------------------------------------------------ the walk

  /** The server asked at attempt k. */
  function Probe(pos: nat, step: nat, k: nat): nat {
    (pos + k * step) % SERVERS
  }

  lemma ProbeStep(pos: nat, step: nat, k: nat)
    ensures Probe(pos, step, k + 1) == (Probe(pos, step, k) + step) % SERVERS
  {
    var n := pos + k * step;
    assert pos + (k + 1) * step == n + step;
    var q := n / SERVERS;
    assert n == q * SERVERS + n % SERVERS;
    var q', r' := (n % SERVERS + step) / SERVERS, (n % SERVERS + step) % SERVERS;
    QuotientUnique(n + step, SERVERS, q + q', r');
  }

  /** Multiplying by the inverse of the stride. */
  lemma Cancel(d: int, step: nat, inv: int, c: int, q: int)
    requires step * inv == 1 + c * SERVERS && d * step == q * SERVERS
    ensures Divides(SERVERS, d)
  {
    assert (d * step) * inv == d * (step * inv);
    assert d * (1 + c * SERVERS) == d + (d * c) * SERVERS;
    assert (q * SERVERS) * inv == (q * inv) * SERVERS;
    assert d == (q * inv - d * c) * SERVERS;
  }

  lemma Apart(pos: nat, step: nat, j: nat, k: nat)
    ensures (pos + k * step) - (pos + j * step) == (k - j) * step
  {
  }

  lemma SameRemainder(m: nat, n: nat)
    ensures m % SERVERS == n % SERVERS <==> Divides(SERVERS, n - m)
  {
    assert m == m / SERVERS * SERVERS + m % SERVERS;
    assert n == n / SERVERS * SERVERS + n % SERVERS;
    if m % SERVERS == n % SERVERS {
      assert n - m == (n / SERVERS - m / SERVERS) * SERVERS;
    }
    if Divides(SERVERS, n - m) {
      var q :| n - m == q * SERVERS;
      assert n == (m / SERVERS + q) * SERVERS + m % SERVERS;
      QuotientUnique(n, SERVERS, m / SERVERS + q, m % SERVERS);
    }
  }

  /** Two attempts ask the same server only if their distance is a multiple of 263. */
  lemma SameServer(pos: nat, step: nat, j: nat, k: nat)
    requires 0 < step < SERVERS
    ensures Probe(pos, step, j) == Probe(pos, step, k) <==> Divides(SERVERS, k - j)
  {
    hide Divides;
    SameRemainder(pos + j * step, pos + k * step);
    Apart(pos, step, j, k);
    if Divides(SERVERS, (k - j) * step) {
      var q := Quotient((k - j) * step);
      var inv, c := Inverse(step);
      Cancel(k - j, step, inv, c, q);
    }
    if Divides(SERVERS, k - j) {
      DividesProduct(k - j, step);
    }
  }

  lemma Quotient(n: int) returns (q: int)
    requires Divides(SERVERS, n)
    ensures n == q * SERVERS
  {
    q :| n == q * SERVERS;
  }

  lemma DividesProduct(d: int, step: nat)
    requires Divides(SERVERS, d)
    ensures Divides(SERVERS, d * step)
  {
    var q :| d == q * SERVERS;
    assert d * step == (q * step) * SERVERS;
  }

  /** k is the distance d times the inverse of the stride, less q rounds. */
  lemma Reaches(d: int, step: nat, inv: int, c: int, q: int, k: int)
    requires step * inv == 1 + c * SERVERS && d * inv == q * SERVERS + k
    ensures k * step == (d * c - q * step) * SERVERS + d
  {
    assert (d * inv) * step == d * (step * inv);
    assert d * (1 + c * SERVERS) == d + (d * c) * SERVERS;
    assert (q * SERVERS + k) * step == (q * step) * SERVERS + k * step;
  }

  /** Some attempt asks for each server. */
  lemma SomeAttempt(pos: nat, step: nat, server: nat) returns (k: nat)
    requires 0 < step < SERVERS && server < SERVERS
    ensures Probe(pos, step, k) == server
  {
    hide Divides;
    var inv, c := Inverse(step);
    var d := server - pos;
    var e := d * inv;
    k := e % SERVERS;
    var q := e / SERVERS;
    Reaches(d, step, inv, c, q, k);
    QuotientUnique(pos + k * step, SERVERS, d * c - q * step, server);
  }

  /** Any 263 consecutive attempts ask every server exactly once. */
  lemma EveryServerOnce(pos: nat, step: nat, first: nat, server: nat)
    requires 0 < step < SERVERS && server < SERVERS
    ensures exists k :: first <= k < first + SERVERS && Probe(pos, step, k) == server
    ensures forall j, k | first <= j < first + SERVERS && first <= k < first + SERVERS ::
              Probe(pos, step, j) == server == Probe(pos, step, k) ==> j == k
  {
    var k0 := SomeAttempt(pos, step, server);
    var d := (k0 - first) % SERVERS;
    var k := first + d;
    assert k0 - first == (k0 - first) / SERVERS * SERVERS + d;
    assert k0 - k == (k0 - first) / SERVERS * SERVERS;
    SameServer(pos, step, k, k0);
    forall i, j | first <= i < first + SERVERS && first <= j < first + SERVERS &&
        Probe(pos, step, i) == server && Probe(pos, step, j) == server
      ensures i == j
    {
      SameServer(pos, step, i, j);
      NearMultiple(j - i);
    }
  }

  lemma NearMultiple(d: int)
    requires Divides(SERVERS, d) && 0 - SERVERS < d < SERVERS
    ensures d == 0
  {
    var q :| d == q * SERVERS;
  }

  ghost function Attempts(pos: nat, step: nat, server: nat): set<nat> {
    set k: nat | 1 <= k <= ATTEMPTS && Probe(pos, step, k) == server
  }

  /** The 525 attempts ask every server twice, except the one the walk starts from: that one once. */
  lemma HowOften(pos: nat, step: nat, server: nat)
    requires 0 < step < SERVERS && server < SERVERS
    ensures |Attempts(pos, step, server)| == if server == pos % SERVERS then 1 else 2
  {
    EveryServerOnce(pos, step, 0, server);
    EveryServerOnce(pos, step, SERVERS, server);
    var j :| 0 <= j < SERVERS && Probe(pos, step, j) == server;
    var k :| SERVERS <= k < 2 * SERVERS && Probe(pos, step, k) == server;
    assert j + SERVERS == k by {
      assert j + SERVERS - j == 1 * SERVERS;
      SameServer(pos, step, j, j + SERVERS);
    }
    assert Probe(pos, step, 0) == pos % SERVERS;
    if server == pos % SERVERS {
      assert j == 0;
      assert Attempts(pos, step, server) == {SERVERS};
    } else {
      assert j != 0;
      assert Attempts(pos, step, server) == {j, k};
    }
  }

  // ------------------------------------------------------------------ the search

  /** What a search that starts from the seed returns, given the return code of every request:
      the first attempt with a non-negative code, or -1 if there is none. */
  ghost predicate IsSearchResult(seed: Seed, rc: (nat, nat) -> int, r: int, server: nat) {
    exists step: nat, rounds: nat :: IsStride(seed, step, rounds) && 0 < step < SERVERS &&
      IsFirstAnswer(seed % 0x1_0000, step, rc, r, server)
  }

  predicate IsFirstAnswer(pos: nat, step: nat, rc: (nat, nat) -> int, r: int, server: nat) {
    if r == -1 then
      && server == Probe(pos, step, ATTEMPTS)
      && forall k :: 1 <= k <= ATTEMPTS ==> rc(k, Probe(pos, step, k)) < 0
    else
      && 1 <= r <= ATTEMPTS
      && server == Probe(pos, step, r)
      && rc(r, server) >= 0
      && forall k :: 1 <= k < r ==> rc(k, Probe(pos, step, k)) < 0
  }

  method GetExternalIpByStun(seed: Seed, rc: (nat, nat) -> int) returns (r: int, server: nat)
    ensures IsSearchResult(seed, rc, r, server)
    ensures server < SERVERS
  {
    var step, rounds := ChooseStride(seed);
    ghost var start := seed % 0x1_0000;
    var pos := seed % 0x1_0000;
    var attempt := 1;
    while attempt < SERVERS * 2
      invariant 1 <= attempt <= SERVERS * 2
      invariant pos < 0x1_0000
      invariant attempt == 1 ==> pos == start
      invariant attempt > 1 ==> pos == Probe(start, step, attempt - 1)
      invariant forall k :: 1 <= k < attempt ==> rc(k, Probe(start, step, k)) < 0
    {
      assert (pos + step) % SERVERS == Probe(start, step, attempt) by {
        if attempt > 1 {
          ProbeStep(start, step, attempt - 1);
        }
      }
      pos := (pos + step) % SERVERS;
      if rc(attempt, pos) >= 0 {
        assert IsFirstAnswer(start, step, rc, attempt, pos);
        return attempt, pos;
      }
      attempt := attempt + 1;
    }
    assert IsFirstAnswer(start, step, rc, -1, pos);
    return -1, pos;
  }

  /** Against a fixed set of answering servers the search fails exactly if the set is empty, and
      otherwise needs at most 263 attempts. */
  lemma SearchIsComplete(seed: Seed, rc: (nat, nat) -> int, answering: set<nat>, r: int, server: nat)
    requires IsSearchResult(seed, rc, r, server)
    requires forall k, srv :: rc(k, srv) >= 0 <==> srv in answering
    requires forall srv :: srv in answering ==> srv < SERVERS
    ensures r == -1 <==> answering == {}
    ensures answering != {} ==> 1 <= r <= SERVERS && server in answering
  {
    var step: nat, rounds: nat :| IsStride(seed, step, rounds) && 0 < step < SERVERS &&
      IsFirstAnswer(seed % 0x1_0000, step, rc, r, server);
    if srv :| srv in answering {
      EveryServerOnce(seed % 0x1_0000, step, 1, srv);
      var k :| 1 <= k < 1 + SERVERS && Probe(seed % 0x1_0000, step, k) == srv;
      assert rc(k, srv) >= 0;
    }
  }
}
