/** Time-ordered identifiers: 48 bits of clock and counter in hexadecimal, or their complement,
    and a random tail. */
module Identifier {

  /** The module's two variables. */
  datatype Clock = Clock(last: int, counter: nat)

  const START := Clock(0, 0)

  /** One call of `create`: its kind, the time it sees, and the tail it draws. */
  datatype Call = Call(descending: bool, timestamp: int, tail: string)

  function Tick(c: Clock, timestamp: int): Clock {
    if timestamp == c.last then c.(counter := c.counter + 1) else Clock(timestamp, 1)
  }

  function Number(c: Clock): int { c.last * 0x1000 + c.counter }

  /** The clock after some calls since the process started. */
  function After(calls: seq<Call>): Clock
    decreases |calls|
  {
    if calls == [] then START else Tick(After(calls[..|calls| - 1]), calls[|calls| - 1].timestamp)
  }

  // ---------------------------------------------------------------- six bytes, twelve digits

  function Scale(n: nat): (s: nat)
    ensures s > 0
  {
    if n == 0 then 1 else 256 * Scale(n - 1)
  }

  /** One byte of a number, the k-th from the right: an arithmetic shift and a mask. */
  function Octet(v: int, k: nat): (d: int)
    ensures 0 <= d < 256
  {
    v / Scale(k) % 256
  }

  /** The low n bytes of a number, negative or not, most significant first. */
  function Bytes(v: int, n: nat): (bytes: seq<int>)
    ensures |bytes| == n && forall k | 0 <= k < n :: 0 <= bytes[k] < 256
  {
    if n == 0 then [] else [Octet(v, n - 1)] + Bytes(v, n - 1)
  }

  function HexDigit(d: int): char
    requires 0 <= d < 16
  {
    "0123456789abcdef"[d]
  }

  function Hex(bytes: seq<int>): (s: string)
    requires forall k | 0 <= k < |bytes| :: 0 <= bytes[k] < 256
    ensures |s| == 2 * |bytes|
  {
    if bytes == [] then "" else [HexDigit(bytes[0] / 16), HexDigit(bytes[0] % 16)] + Hex(bytes[1..])
  }

  function Id(c: Clock, call: Call): string {
    var now := if call.descending then -Number(c) - 1 else Number(c);
    Hex(Bytes(now, 6)) + call.tail
  }

  /** The identifier that the k-th call returned. */
  function IdAt(calls: seq<Call>, k: nat): string
    requires k < |calls|
  {
    Id(After(calls[..k + 1]), calls[k])
  }

  // ---------------------------------------------------------------- order

  predicate Less(a: string, b: string)
    decreases |a|
  {
    && b != ""
    && (a == "" || a[0] < b[0] || (a[0] == b[0] && Less(a[1..], b[1..])))
  }

  predicate BytesLess(a: seq<int>, b: seq<int>)
    requires |a| == |b|
    decreases |a|
  {
    a != [] && (a[0] < b[0] || (a[0] == b[0] && BytesLess(a[1..], b[1..])))
  }

  lemma DigitOrder(d: int, e: int)
    requires 0 <= d < 16 && 0 <= e < 16
    ensures HexDigit(d) < HexDigit(e) <==> d < e
    ensures HexDigit(d) == HexDigit(e) <==> d == e
  {
    assert HexDigit(d) == if d < 10 then '0' + d as char else 'a' + (d - 10) as char;
    assert HexDigit(e) == if e < 10 then '0' + e as char else 'a' + (e - 10) as char;
  }

  lemma {:induction false} HexOrder(a: seq<int>, b: seq<int>)
    requires |a| == |b|
    requires forall k | 0 <= k < |a| :: 0 <= a[k] < 256 && 0 <= b[k] < 256
    ensures Less(Hex(a), Hex(b)) <==> BytesLess(a, b)
    decreases |a|
  {
    if a != [] {
      HexOrder(a[1..], b[1..]);
      DigitOrder(a[0] / 16, b[0] / 16);
      DigitOrder(a[0] % 16, b[0] % 16);
      hide HexDigit;
      var s, t := Hex(a), Hex(b);
      assert s[1..][1..] == Hex(a[1..]) && t[1..][1..] == Hex(b[1..]);
      assert s[1..][0] == HexDigit(a[0] % 16) && t[1..][0] == HexDigit(b[0] % 16);
    }
  }

  lemma Distribute(x: int, y: int, m: int)
    ensures (x - y) * m == x * m - y * m
  {
  }

  lemma DistributeSum(x: int, y: int, m: int)
    ensures (x + y) * m == x * m + y * m
  {
  }

  lemma AtLeastOnce(k: int, m: nat)
    requires k >= 1
    ensures k * m >= m
  {
    Distribute(k, 1, m);
    assert (k - 1) * m >= 0;
  }

  /** A larger quotient outweighs every remainder. */
  lemma CompareLeading(x: int, y: int, m: nat, r: nat, s: nat)
    requires r < m && s < m
    ensures x * m + r < y * m + s <==> x < y || (x == y && r < s)
  {
    Distribute(x, y, m);
    Distribute(y, x, m);
    if x < y {
      AtLeastOnce(y - x, m);
    } else if x > y {
      AtLeastOnce(x - y, m);
    }
  }

  lemma DivisionIsUnique(v: int, m: nat, q: int, r: nat)
    requires v == q * m + r && r < m
    ensures v / m == q && v % m == r
  {
    var p, s := v / m, v % m;
    Divided(v, m);
    SameDivision(m, p, s, q, r);
  }

  lemma SameDivision(m: nat, p: int, s: nat, q: int, r: nat)
    requires p * m + s == q * m + r && r < m && s < m
    ensures p == q && s == r
  {
    CompareLeading(p, q, m, s, r);
    CompareLeading(q, p, m, r, s);
  }

  lemma Divided(v: int, m: nat)
    requires m > 0
    ensures v == v / m * m + v % m
  {
  }

  lemma SplitQuotient(p: int, d: nat, m: nat, r: nat)
    requires d < 256 && r < m
    ensures (p * 256 + d) * m + r == p * (256 * m) + (d * m + r)
    ensures 0 <= d * m + r < 256 * m
  {
    DistributeSum(p * 256, d, m);
    Associate(p, m);
    Distribute(255, d, m);
    assert d * m >= 0;
    if d < 255 {
      AtLeastOnce(255 - d, m);
    }
  }

  lemma Associate(p: int, m: int)
    ensures p * 256 * m == p * (256 * m)
  {
  }

  lemma FirstByte(v: int, n: nat)
    ensures v % Scale(n + 1) == v / Scale(n) % 256 * Scale(n) + v % Scale(n)
  {
    var m := Scale(n);
    FirstDigit(v, m, v / m, v % m, v / m / 256, v / m % 256);
  }

  lemma FirstDigit(v: int, m: nat, q: int, r: nat, p: int, d: nat)
    requires m > 0 && q == v / m && r == v % m && p == q / 256 && d == q % 256
    ensures v % (256 * m) == d * m + r
  {
    Divided(v, m);
    SplitQuotient(p, d, m, r);
    DivisionIsUnique(v, 256 * m, p, d * m + r);
  }

  /** Bytes compare as the numbers do that they keep. */
  lemma {:induction false} BytesOrder(v: int, w: int, n: nat)
    ensures BytesLess(Bytes(v, n), Bytes(w, n)) <==> v % Scale(n) < w % Scale(n)
  {
    if n > 0 {
      BytesOrder(v, w, n - 1);
      FirstByte(v, n - 1);
      FirstByte(w, n - 1);
      var a, b := Bytes(v, n), Bytes(w, n);
      assert a[1..] == Bytes(v, n - 1) && b[1..] == Bytes(w, n - 1);
      CompareLeading(a[0], b[0], Scale(n - 1), v % Scale(n - 1), w % Scale(n - 1));
    }
  }

  lemma {:induction false} LessWithTails(a: string, b: string, x: string, y: string)
    requires |a| == |b| && Less(a, b)
    ensures Less(a + x, b + y)
    decreases |a|
  {
    assert a != "";
    if a[0] == b[0] {
      LessWithTails(a[1..], b[1..], x, y);
      assert (a + x)[1..] == a[1..] + x && (b + y)[1..] == b[1..] + y;
    }
  }

  const WINDOW: nat := 0x1_0000_0000_0000

  lemma ScaleSix()
    ensures Scale(6) == WINDOW
  {
    assert Scale(3) == 0x100_0000;
  }

  lemma TextsCompare(v: int, w: int)
    requires v % WINDOW < w % WINDOW
    ensures Less(Hex(Bytes(v, 6)), Hex(Bytes(w, 6)))
  {
    hide Less, Hex, BytesLess, Scale, Bytes;
    ScaleSix();
    BytesOrder(v, w, 6);
    HexOrder(Bytes(v, 6), Bytes(w, 6));
  }

  /** The texts of two numbers of one window compare as the numbers, and complements the other
      way round. */
  lemma TextOrder(a: int, b: int)
    requires a < b && a / WINDOW == b / WINDOW
    ensures Less(Hex(Bytes(a, 6)), Hex(Bytes(b, 6)))
    ensures Less(Hex(Bytes(-b - 1, 6)), Hex(Bytes(-a - 1, 6)))
  {
    hide Less, Hex, Bytes;
    SameWindow(a, b);
    Complement(a);
    Complement(b);
    TextsCompare(a, b);
    TextsCompare(-b - 1, -a - 1);
  }

  lemma SameWindow(a: int, b: int)
    requires a < b && a / WINDOW == b / WINDOW
    ensures a % WINDOW < b % WINDOW
  {
  }

  lemma Complement(a: int)
    ensures (-a - 1) % WINDOW == WINDOW - 1 - a % WINDOW
  {
    DivisionIsUnique(-a - 1, WINDOW, -(a / WINDOW) - 1, WINDOW - 1 - a % WINDOW);
  }

  // ---------------------------------------------------------------- runs

  /** When the next number is larger: the same millisecond, or a later one that the counter has
      not run into. */
  predicate Advances(c: Clock, timestamp: int) {
    timestamp == c.last || (timestamp > c.last && c.counter <= 0x1000 * (timestamp - c.last))
  }

  lemma TickAdvances(c: Clock, timestamp: int)
    ensures Number(c) < Number(Tick(c, timestamp)) <==> Advances(c, timestamp)
  {
  }

  lemma {:induction false} NumbersIncrease(calls: seq<Call>, i: nat, j: nat)
    requires i < j < |calls|
    requires forall k | i < k <= j :: Advances(After(calls[..k]), calls[k].timestamp)
    ensures Number(After(calls[..i + 1])) < Number(After(calls[..j + 1]))
    decreases j
  {
    hide Advances, Tick, Number;
    assert calls[..j + 1][..j] == calls[..j];
    assert After(calls[..j + 1]) == Tick(After(calls[..j]), calls[j].timestamp);
    TickAdvances(After(calls[..j]), calls[j].timestamp);
    assert Advances(After(calls[..j]), calls[j].timestamp);
    if i < j - 1 {
      NumbersIncrease(calls, i, j - 1);
    }
  }

  lemma IdOrder(c: Clock, x: Call, d: Clock, y: Call)
    requires x.descending == y.descending
    requires Number(c) < Number(d) && Number(c) / WINDOW == Number(d) / WINDOW
    ensures if x.descending then Less(Id(d, y), Id(c, x)) else Less(Id(c, x), Id(d, y))
  {
    hide Number, Less, Hex, Bytes, Octet;
    var a, b := Number(c), Number(d);
    TextOrder(a, b);
    if x.descending {
      LessWithTails(Hex(Bytes(-b - 1, 6)), Hex(Bytes(-a - 1, 6)), y.tail, x.tail);
    } else {
      LessWithTails(Hex(Bytes(a, 6)), Hex(Bytes(b, 6)), x.tail, y.tail);
    }
  }

  /** Whatever their tails and whatever is created between them, two identifiers of one kind
      are in order when every step between them advances and their numbers are in one
      window. */
  lemma OrderedIds(calls: seq<Call>, i: nat, j: nat)
    requires i < j < |calls| && calls[i].descending == calls[j].descending
    requires forall k | i < k <= j :: Advances(After(calls[..k]), calls[k].timestamp)
    requires Number(After(calls[..i + 1])) / WINDOW == Number(After(calls[..j + 1])) / WINDOW
    ensures if calls[i].descending then Less(IdAt(calls, j), IdAt(calls, i)) else Less(IdAt(calls, i), IdAt(calls, j))
  {
    NumbersIncrease(calls, i, j);
    hide Advances, After, Number, Less, Id;
    IdOrder(After(calls[..i + 1]), calls[i], After(calls[..j + 1]), calls[j]);
  }

  /** How many of the calls see one time. */
  function CallsAt(calls: seq<Call>, timestamp: int): nat
    decreases |calls|
  {
    if calls == [] then 0
    else CallsAt(calls[..|calls| - 1], timestamp) + (if calls[|calls| - 1].timestamp == timestamp then 1 else 0)
  }

  predicate Steady(calls: seq<Call>) {
    && (forall k | 0 <= k < |calls| :: calls[k].timestamp >= 0)
    && (forall k | 0 < k < |calls| :: calls[k - 1].timestamp <= calls[k].timestamp)
  }

  /** With a clock that never goes back, the counter counts the calls of the current time. */
  lemma {:induction false} CounterCounts(calls: seq<Call>)
    requires Steady(calls)
    ensures var c := After(calls);
      && c.counter == CallsAt(calls, c.last)
      && (forall t | t > c.last :: CallsAt(calls, t) == 0)
      && c.last == if calls == [] then 0 else calls[|calls| - 1].timestamp
    decreases |calls|
  {
    if calls != [] {
      CounterCounts(calls[..|calls| - 1]);
    }
  }

  lemma {:induction false} FewerBefore(calls: seq<Call>, k: nat, timestamp: int)
    requires k <= |calls|
    ensures CallsAt(calls[..k], timestamp) <= CallsAt(calls, timestamp)
    decreases |calls|
  {
    if k < |calls| {
      FewerBefore(calls[..|calls| - 1], k, timestamp);
      assert calls[..|calls| - 1][..k] == calls[..k];
    } else {
      assert calls[..k] == calls;
    }
  }

  /** In a process whose clock does not go back, with fewer than 4096 calls in any millisecond
      and all times in one aligned window of 2^36 milliseconds, ascending identifiers increase
      and descending ones decrease, both kinds sharing the counter. */
  lemma OrderedRun(calls: seq<Call>, i: nat, j: nat)
    requires i < j < |calls| && calls[i].descending == calls[j].descending
    requires Steady(calls)
    requires forall k | 0 <= k < |calls| :: CallsAt(calls, calls[k].timestamp) < 0x1000
    requires calls[i].timestamp / 0x10_0000_0000 == calls[j].timestamp / 0x10_0000_0000
    ensures if calls[i].descending then Less(IdAt(calls, j), IdAt(calls, i)) else Less(IdAt(calls, i), IdAt(calls, j))
  {
    hide Less, After, CallsAt, Advances, Number, IdAt;
    forall k | i < k <= j ensures Advances(After(calls[..k]), calls[k].timestamp) {
      StepAdvances(calls, k);
    }
    ClockAt(calls, i);
    ClockAt(calls, j);
    NumberWindow(After(calls[..i + 1]));
    NumberWindow(After(calls[..j + 1]));
    OrderedIds(calls, i, j);
  }

  lemma ClockAt(calls: seq<Call>, k: nat)
    requires k < |calls| && Steady(calls)
    requires CallsAt(calls, calls[k].timestamp) < 0x1000
    ensures After(calls[..k + 1]).last == calls[k].timestamp
    ensures After(calls[..k + 1]).counter < 0x1000
  {
    assert Steady(calls[..k + 1]);
    CounterCounts(calls[..k + 1]);
    FewerBefore(calls, k + 1, calls[k].timestamp);
  }

  lemma StepAdvances(calls: seq<Call>, k: nat)
    requires 0 < k < |calls| && Steady(calls)
    requires CallsAt(calls, calls[k - 1].timestamp) < 0x1000
    ensures Advances(After(calls[..k]), calls[k].timestamp)
  {
    hide After, CallsAt;
    ClockAt(calls, k - 1);
  }

  lemma NumberWindow(c: Clock)
    requires c.counter < 0x1000
    ensures Number(c) / WINDOW == c.last / 0x10_0000_0000
  {
    var q, r := c.last / 0x10_0000_0000, c.last % 0x10_0000_0000;
    DivisionIsUnique(Number(c), WINDOW, q, r * 0x1000 + c.counter);
  }

  /** 4097 calls in one millisecond are too many: the last one's number is the next
      millisecond's first. */
  lemma CounterOverflow(timestamp: int, tail: string)
    ensures var full := Clock(timestamp, 0x1001);
      Id(full, Call(false, timestamp, tail)) == Id(Tick(full, timestamp + 1), Call(false, timestamp + 1, tail))
  {
    assert Number(Clock(timestamp, 0x1001)) == Number(Clock(timestamp + 1, 1));
  }

  // ---------------------------------------------------------------- reading the digits

  function DigitValue(c: char): nat {
    if '0' <= c <= '9' then (c - '0') as nat else if 'a' <= c <= 'f' then (c - 'a') as nat + 10 else 0
  }

  function PairValue(high: char, low: char): nat {
    DigitValue(high) * 16 + DigitValue(low)
  }

  /** A hexadecimal number with an even number of digits. */
  function ReadHex(s: string): nat
    decreases |s|
  {
    if |s| < 2 then 0 else PairValue(s[0], s[1]) * Scale(|s| / 2 - 1) + ReadHex(s[2..])
  }

  lemma DigitReads(d: int)
    requires 0 <= d < 16
    ensures DigitValue(HexDigit(d)) == d
  {
    assert HexDigit(d) == if d < 10 then '0' + d as char else 'a' + (d - 10) as char;
  }

  lemma ReadPair(high: char, low: char, rest: string, m: nat)
    requires |rest| == 2 * m
    ensures ReadHex([high, low] + rest) == PairValue(high, low) * Scale(m) + ReadHex(rest)
  {
    hide PairValue, Scale;
    var s := [high, low] + rest;
    assert s[2..] == rest && |s| / 2 - 1 == m;
  }

  lemma PairReads(byte: int)
    requires 0 <= byte < 256
    ensures PairValue(HexDigit(byte / 16), HexDigit(byte % 16)) == byte
  {
    DigitReads(byte / 16);
    DigitReads(byte % 16);
    hide HexDigit, DigitValue;
  }

  lemma {:induction false} HexReads(v: int, n: nat)
    ensures ReadHex(Hex(Bytes(v, n))) == v % Scale(n)
    decreases n
  {
    hide HexDigit, Scale, ReadHex, PairValue, Octet;
    if n == 0 {
      NothingReads(v);
    } else {
      HexReads(v, n - 1);
      FirstByte(v, n - 1);
      var bytes := Bytes(v, n);
      assert bytes[1..] == Bytes(v, n - 1);
      ReadPair(HexDigit(bytes[0] / 16), HexDigit(bytes[0] % 16), Hex(bytes[1..]), n - 1);
      PairReads(bytes[0]);
      ByteIs(v, n);
    }
  }

  lemma ByteIs(v: int, n: nat)
    requires n > 0
    ensures Bytes(v, n)[0] == v / Scale(n - 1) % 256
  {
  }

  lemma NothingReads(v: int)
    ensures ReadHex("") == v % Scale(0)
  {
  }

  /** The first twelve characters of an identifier are its millisecond times 4096 plus the number of
      calls that have seen it, in 48 bits, or the complement of that; the rest is the tail. */
  lemma DigitsTell(calls: seq<Call>, k: nat)
    requires k < |calls| && Steady(calls[..k + 1])
    ensures
      var c, id := calls[k], IdAt(calls, k);
      var n := (c.timestamp * 4096 + CallsAt(calls[..k + 1], c.timestamp)) % 281474976710656;
      && |id| == 12 + |c.tail| && id[12..] == c.tail
      && ReadHex(id[..12]) == (if c.descending then 281474976710655 - n else n)
  {
    hide Hex, Bytes, ReadHex, CallsAt, After, Scale;
    CounterCounts(calls[..k + 1]);
    var number := Number(After(calls[..k + 1]));
    var now := if calls[k].descending then -number - 1 else number;
    HexReads(now, 6);
    ScaleSix();
    Complement(number);
    assert IdAt(calls, k)[..12] == Hex(Bytes(now, 6));
  }

  // ---------------------------------------------------------------- the module

  const DIGITS := "0123456789"
  const UPPER := "ABCDEFGHIJKLMNOPQRSTUVWXYZ"
  const LOWER := "abcdefghijklmnopqrstuvwxyz"

  const CHARS := DIGITS + UPPER + LOWER

  lemma DigitIs(k: nat)
    requires k < 10
    ensures DIGITS[k] == '0' + k as char
  {
  }

  lemma UpperIs(k: nat)
    requires k < 26
    ensures UPPER[k] == 'A' + k as char
  {
  }

  lemma LowerIs(k: nat)
    requires k < 26
    ensures LOWER[k] == 'a' + k as char
  {
  }

  /** The characters are all different. */
  lemma CharsDiffer(j: nat, k: nat)
    requires j < k < 62
    ensures |CHARS| == 62 && CHARS[j] != CHARS[k]
  {
    CharIs(j);
    CharIs(k);
  }

  lemma CharIs(k: nat)
    requires k < 62
    ensures |CHARS| == 62
    ensures CHARS[k] == if k < 10 then '0' + k as char else if k < 36 then 'A' + (k - 10) as char else 'a' + (k - 36) as char
  {
    if k < 10 {
      DigitIs(k);
    } else if k < 36 {
      UpperIs(k - 10);
    } else {
      LowerIs(k - 36);
    }
  }

  const LENGTH: nat := 26

  method RandomBase62(bytes: seq<int>) returns (result: string)
    requires forall k | 0 <= k < |bytes| :: 0 <= bytes[k] < 256
    ensures |result| == |bytes| && forall k | 0 <= k < |bytes| :: result[k] == CHARS[bytes[k] % 62]
  {
    result := "";
    for i := 0 to |bytes|
      invariant |result| == i && forall k | 0 <= k < i :: result[k] == CHARS[bytes[k] % 62]
    {
      result := result + [CHARS[bytes[i] % 62]];
    }
  }

  lemma {:induction false} BytesAt(v: int, n: nat, k: nat)
    requires k < n
    ensures Bytes(v, n)[k] == Octet(v, n - 1 - k)
    decreases k
  {
    hide Octet;
    if k > 0 {
      BytesAt(v, n - 1, k - 1);
    }
  }

  method TimeBytes(now: int) returns (timeBytes: array<int>)
    ensures fresh(timeBytes) && timeBytes[..] == Bytes(now, 6)
  {
    hide Octet, Bytes;
    timeBytes := new int[6];
    for i := 0 to 6
      invariant forall k | 0 <= k < i :: timeBytes[k] == Octet(now, 5 - k)
    {
      timeBytes[i] := Octet(now, 5 - i);
    }
    forall k | 0 <= k < 6 ensures timeBytes[k] == Bytes(now, 6)[k] {
      BytesAt(now, 6, k);
    }
  }

  class Generator {
    var lastTimestamp: int
    var counter: nat

    constructor ()
      ensures Clock(lastTimestamp, counter) == START
    {
      lastTimestamp, counter := 0, 0;
    }

    method Create(descending: bool, timestamp: int, random: seq<int>) returns (id: string)
      requires |random| == LENGTH - 12 && forall k | 0 <= k < |random| :: 0 <= random[k] < 256
      modifies this
      ensures Clock(lastTimestamp, counter) == Tick(old(Clock(lastTimestamp, counter)), timestamp)
      ensures |id| == LENGTH
      ensures id == Id(Clock(lastTimestamp, counter), Call(descending, timestamp, id[12..]))
      ensures forall k | 12 <= k < LENGTH :: id[k] == CHARS[random[k - 12] % 62]
    {
      if timestamp != lastTimestamp {
        lastTimestamp := timestamp;
        counter := 0;
      }
      counter := counter + 1;
      var now := timestamp * 0x1000 + counter;
      now := if descending then -now - 1 else now;
      var timeBytes := TimeBytes(now);
      var tail := RandomBase62(random);
      hide Hex, Bytes;
      id := Hex(timeBytes[..]) + tail;
      assert id[12..] == tail;
    }
  }
}
