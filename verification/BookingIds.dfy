/** Public booking ids: a 48-bit timestamp and an 80-bit random part in Crockford base 32, never going back. */
module BookingIds {
  import opened Options
  import opened LifecycleCodec

  const ALPHABET := "0123456789ABCDEFGHJKMNPQRSTVWXYZ"
  const TIME_LIMIT := 0x1_0000_0000_0000
  const RANDOM_MAXIMUM := 0xFFFF_FFFF_FFFF_FFFF_FFFF

  function Power32(n: nat): nat { if n == 0 then 1 else 32 * Power32(n - 1) }

  /** The value of a base-32 digit. */
  function DigitValue(c: char): nat {
    if '0' <= c <= '9' then c as int - '0' as int
    else if 'A' <= c <= 'H' then c as int - 'A' as int + 10
    else if 'J' <= c <= 'K' then c as int - 'J' as int + 18
    else if 'M' <= c <= 'N' then c as int - 'M' as int + 20
    else if 'P' <= c <= 'T' then c as int - 'P' as int + 22
    else if 'V' <= c <= 'Z' then c as int - 'V' as int + 27
    else 0
  }

  lemma AlphabetIsOrdered(i: nat, j: nat)
    requires i < 32 && j < 32
    ensures |ALPHABET| == 32 && DigitValue(ALPHABET[i]) == i && Crockford(ALPHABET[i])
    ensures i < j ==> ALPHABET[i] < ALPHABET[j]
  {
    assert forall k :: 0 <= k < 32 ==> DigitValue(ALPHABET[k]) == k;
    assert forall k :: 0 <= k < 32 ==> Crockford(ALPHABET[k]);
    assert forall k :: 0 <= k < 31 ==> ALPHABET[k] < ALPHABET[k + 1];
    AlphabetAscends(i, j);
  }

  lemma {:induction false} AlphabetAscends(i: nat, j: nat)
    requires i < 32 && j < 32
    ensures i < j ==> ALPHABET[i] < ALPHABET[j]
    decreases j
  {
    if i < j - 1 { AlphabetAscends(i, j - 1); }
    if i < j { assert ALPHABET[j - 1] < ALPHABET[j]; }
  }

  /** The digits of `value`, most significant first, in exactly `length` places. */
  function Encoded(value: nat, length: nat): (r: string)
    ensures |r| == length
  {
    if length == 0 then [] else Encoded(value / 32, length - 1) + [ALPHABET[value % 32]]
  }

  function Decoded(s: string): nat {
    if s == [] then 0 else 32 * Decoded(s[..|s| - 1]) + DigitValue(s[|s| - 1])
  }

  /** The digit loop: takes the low five bits each time and writes towards the front. */
  method EncodeUlidPart(value: nat, length: nat) returns (encoded: string)
    ensures encoded == Encoded(value, length)
  {
    encoded := "";
    var remaining := value;
    var index := 0;
    while index < length
      invariant 0 <= index <= length
      invariant Encoded(value, length) == Encoded(remaining, length - index) + encoded
    {
      ghost var rest := Encoded(remaining / 32, length - index - 1);
      assert Encoded(remaining, length - index) + encoded == rest + ([ALPHABET[remaining % 32]] + encoded);
      encoded := [ALPHABET[remaining % 32]] + encoded;
      remaining := remaining / 32;
      index := index + 1;
    }
  }

  lemma {:induction false} DecodeEncoded(value: nat, length: nat)
    requires value < Power32(length)
    ensures Decoded(Encoded(value, length)) == value
  {
    if length > 0 {
      DecodeEncoded(value / 32, length - 1);
      AlphabetIsOrdered(value % 32, 0);
      assert Encoded(value, length)[..length - 1] == Encoded(value / 32, length - 1);
    }
  }

  lemma {:induction false} EncodedIsCrockford(value: nat, length: nat, i: nat)
    requires i < length
    ensures Crockford(Encoded(value, length)[i])
  {
    if i < length - 1 { EncodedIsCrockford(value / 32, length - 1, i); } else { AlphabetIsOrdered(value % 32, 0); }
  }

  // ---- string order ----

  lemma {:induction false} LessAppend(a: string, b: string, c: string, d: string)
    requires |a| == |b|
    ensures Less(a, b) ==> Less(a + c, b + d)
    ensures a == b && Less(c, d) ==> Less(a + c, b + d)
  {
    if a == [] {
      assert a + c == c && b + d == d;
    } else {
      LessAppend(a[1..], b[1..], c, d);
      assert (a + c)[1..] == a[1..] + c && (b + d)[1..] == b[1..] + d;
      assert a == b ==> a[1..] == b[1..];
    }
  }

  /** Fixed-width digits sort as the numbers do. */
  lemma {:induction false} EncodedPreservesOrder(v: nat, w: nat, length: nat)
    requires v < w < Power32(length)
    ensures Less(Encoded(v, length), Encoded(w, length))
  {
    var x, y := Encoded(v / 32, length - 1), Encoded(w / 32, length - 1);
    var c, d := [ALPHABET[v % 32]], [ALPHABET[w % 32]];
    if v / 32 < w / 32 {
      EncodedPreservesOrder(v / 32, w / 32, length - 1);
    } else {
      assert v / 32 == w / 32 && v % 32 < w % 32;
      AlphabetIsOrdered(v % 32, w % 32);
      assert Less(c, d);
    }
    LessAppend(x, y, c, d);
  }

  // ---- ids ----

  datatype Last = Last(time: int, random: nat) {
    /** `-1` is the clock before the first id. */
    predicate Valid() { -1 <= time < TIME_LIMIT && random <= RANDOM_MAXIMUM }
  }

  predicate Earlier(a: Last, b: Last) { a.time < b.time || (a.time == b.time && a.random < b.random) }

  function IdOf(l: Last): string
    requires l.time >= 0
  {
    Encoded(l.time, 10) + Encoded(l.random, 16)
  }

  lemma Limits()
    ensures TIME_LIMIT * 4 == Power32(10) && RANDOM_MAXIMUM + 1 == Power32(16) && TIME_LIMIT == 8 * Power32(9)
  {
    assert Power32(4) == 0x10_0000;
    assert Power32(8) == 0x100_0000_0000;
    assert Power32(12) == 0x1000_0000_0000_0000;
  }

  /** Every id has the canonical public form, and decodes to the parts it was made of. */
  lemma IdIsCanonical(l: Last)
    requires l.Valid() && l.time >= 0
    ensures IsPublicId(IdOf(l))
    ensures Decoded(IdOf(l)[..10]) == l.time && Decoded(IdOf(l)[10..]) == l.random
  {
    Limits();
    var t, r := Encoded(l.time, 10), Encoded(l.random, 16);
    assert IdOf(l)[..10] == t && IdOf(l)[10..] == r;
    DecodeEncoded(l.time, 10);
    DecodeEncoded(l.random, 16);
    forall i | 0 <= i < 26 ensures Crockford(IdOf(l)[i]) {
      if i < 10 { EncodedIsCrockford(l.time, 10, i); } else { EncodedIsCrockford(l.random, 16, i - 10); }
    }
    LeadingDigit(l.time, 9);
  }

  lemma {:induction false} LeadingDigit(value: nat, length: nat)
    requires value < 8 * Power32(length)
    ensures '0' <= Encoded(value, length + 1)[0] <= '7'
  {
    if length == 0 {
      assert value % 32 == value && value / 32 == 0;
      assert Encoded(0, 0) == [];
      assert ALPHABET[0] == '0' && ALPHABET[7] == '7';
      AlphabetIsOrdered(0, value);
      AlphabetIsOrdered(value, 7);
    } else {
      LeadingDigit(value / 32, length - 1);
      assert Encoded(value, length + 1)[0] == Encoded(value / 32, length)[0];
    }
  }

  lemma LaterIdSortsLater(a: Last, b: Last)
    requires a.Valid() && b.Valid() && a.time >= 0 && Earlier(a, b)
    ensures Less(IdOf(a), IdOf(b))
  {
    Limits();
    if a.time < b.time {
      EncodedPreservesOrder(a.time, b.time, 10);
    } else {
      EncodedPreservesOrder(a.random, b.random, 16);
    }
    LessAppend(Encoded(a.time, 10), Encoded(b.time, 10), Encoded(a.random, 16), Encoded(b.random, 16));
  }

  /** A later millisecond starts anew; otherwise, whatever the clock says, the random part counts up. */
  function NextLast(l: Last, now: int, random: nat): (r: Option<Last>)
    requires l.Valid() && 0 <= now < TIME_LIMIT && random <= RANDOM_MAXIMUM
    ensures r.Some? ==> r.value.Valid() && r.value.time >= 0 && r.value.time >= now && Earlier(l, r.value)
    ensures r.None? <==> now <= l.time && l.random == RANDOM_MAXIMUM
  {
    if now > l.time then Some(Last(now, random))
    else if l.random == RANDOM_MAXIMUM then None
    else Some(l.(random := l.random + 1))
  }

  class BookingIdGenerator {
    var last: Last

    constructor ()
      ensures last == Last(-1, 0)
    {
      last := Last(-1, 0);
    }

    /** `None` is the exhausted random part; nothing changes then. */
    method CreateMonotonicBookingId(now: int, random: nat) returns (id: Option<string>)
      requires last.Valid() && 0 <= now < TIME_LIMIT && random <= RANDOM_MAXIMUM
      modifies this
      ensures last.Valid()
      ensures var next := NextLast(old(last), now, random);
        if next.None? then id.None? && last == old(last) else last == next.value && id == Some(IdOf(next.value))
      ensures id.Some? && old(last).time >= 0 ==> Less(IdOf(old(last)), id.value)
    {
      if now > last.time {
        last := Last(now, random);
      } else {
        if last.random == RANDOM_MAXIMUM { return None; }
        last := last.(random := last.random + 1);
      }
      var head := EncodeUlidPart(last.time, 10);
      var tail := EncodeUlidPart(last.random, 16);
      if old(last).time >= 0 { LaterIdSortsLater(old(last), last); }
      return Some(head + tail);
    }
  }

  /** What the clock and the random source say at one call. */
  datatype Call = Call(now: int, random: nat)

  predicate ValidCalls(calls: seq<Call>) {
    forall i :: 0 <= i < |calls| ==> 0 <= calls[i].now < TIME_LIMIT && calls[i].random <= RANDOM_MAXIMUM
  }

  /** The generator's states after each call that hands out an id; an exhausted call hands out none. */
  function Made(l: Last, calls: seq<Call>): (r: seq<Last>)
    requires l.Valid() && ValidCalls(calls)
    ensures forall i :: 0 <= i < |r| ==> r[i].Valid() && r[i].time >= 0
    decreases |calls|
  {
    if calls == [] then []
    else
      var next := NextLast(l, calls[0].now, calls[0].random);
      if next.None? then Made(l, calls[1..]) else [next.value] + Made(next.value, calls[1..])
  }

  lemma {:induction false} MadeFollow(l: Last, calls: seq<Call>, i: nat)
    requires l.Valid() && ValidCalls(calls) && i < |Made(l, calls)|
    ensures Earlier(l, Made(l, calls)[i])
    decreases |calls|
  {
    var next := NextLast(l, calls[0].now, calls[0].random);
    if next.None? {
      MadeFollow(l, calls[1..], i);
    } else if i > 0 {
      MadeFollow(next.value, calls[1..], i - 1);
    }
  }

  lemma {:induction false} MadeAscend(l: Last, calls: seq<Call>, i: nat, j: nat)
    requires l.Valid() && ValidCalls(calls) && i < j < |Made(l, calls)|
    ensures Earlier(Made(l, calls)[i], Made(l, calls)[j])
    decreases |calls|
  {
    var next := NextLast(l, calls[0].now, calls[0].random);
    if next.None? {
      MadeAscend(l, calls[1..], i, j);
    } else if i > 0 {
      MadeAscend(next.value, calls[1..], i - 1, j - 1);
    } else {
      MadeFollow(next.value, calls[1..], j - 1);
    }
  }

  /** Ids are strictly increasing in string order whatever the clock does, including stepping back. */
  lemma IdsIncrease(calls: seq<Call>, i: nat, j: nat)
    requires ValidCalls(calls) && i < j < |Made(Last(-1, 0), calls)|
    ensures var made := Made(Last(-1, 0), calls); Less(IdOf(made[i]), IdOf(made[j]))
  {
    var made := Made(Last(-1, 0), calls);
    MadeAscend(Last(-1, 0), calls, i, j);
    LaterIdSortsLater(made[i], made[j]);
  }
}
