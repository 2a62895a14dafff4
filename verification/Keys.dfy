/**
  Payload keys: `clock-identifier-counter`, the counter being 20 bits wide and wrapping around.

  The clock is any integer: the three clients read it with different widths, and one of them can see
  it negative.
 */
module Keys {
  import opened Decimals
  import opened Messages

  const COUNTER_LIMIT := 0x10_0000

  function Key(clock: int, id: string, counter: nat): string {
    ToString(clock) + "-" + (id + "-" + Decimal(counter))
  }

  /** The connector's counter after one more key. */
  function Tick(counter: nat): nat {
    (counter + 1) % COUNTER_LIMIT
  }

  /** The wrapping counter is the number of keys generated so far, modulo its limit. */
  lemma TickCountsGenerations(generations: nat)
    ensures Tick(generations % COUNTER_LIMIT) == (generations + 1) % COUNTER_LIMIT
  {
  }

  // ---------------------------------------------------------------- reading a key back

  function FirstDash(s: string): (i: nat)
    ensures i <= |s|
    ensures i < |s| ==> s[i] == '-'
    ensures forall j :: 0 <= j < i ==> s[j] != '-'
  {
    if s == "" then 0 else if s[0] == '-' then 0 else 1 + FirstDash(s[1..])
  }

  datatype KeyParts = KeyParts(clock: int, id: string, counter: nat)

  predicate Unsigned(s: string) {
    s != "" && AllDigits(s)
  }

  /** A key without its sign: digits up to the first dash, digits after the last dash. */
  function ParseUnsigned(s: string): Option<KeyParts> {
    var i := FirstDash(s);
    if i == |s| then None
    else
      var rest := s[i + 1..];
      var j := LastIndex(rest, '-');
      if j >= 0 && Unsigned(s[..i]) && Unsigned(rest[j + 1..])
      then Some(KeyParts(Value(s[..i]), rest[..j], Value(rest[j + 1..])))
      else None
  }

  function ParseKey(key: string): Option<KeyParts> {
    if key != "" && key[0] == '-' then
      var parts := ParseUnsigned(key[1..]);
      if parts.Some? then Some(parts.value.(clock := -parts.value.clock)) else None
    else ParseUnsigned(key)
  }

  lemma {:induction false} FirstDashAfterDigits(digits: string, tail: string)
    requires AllDigits(digits)
    ensures FirstDash(digits + "-" + tail) == |digits|
  {
    var s := digits + "-" + tail;
    if digits == "" {
      assert s[0] == '-';
    } else {
      assert s[0] == digits[0] && IsDigit(digits[0]);
      assert s[1..] == digits[1..] + "-" + tail;
      FirstDashAfterDigits(digits[1..], tail);
    }
  }

  lemma UnsignedRoundTrip(clock: nat, id: string, counter: nat)
    ensures ParseUnsigned(Decimal(clock) + "-" + (id + "-" + Decimal(counter)))
         == Some(KeyParts(clock, id, counter))
  {
    var first, last := Decimal(clock), Decimal(counter);
    var rest := id + "-" + last;
    var s := first + "-" + rest;
    DecimalRoundTrip(clock);
    DecimalRoundTrip(counter);
    FirstDashAfterDigits(first, rest);
    assert s[..|first|] == first;
    assert s[|first| + 1..] == rest;
    LastIndexBeforeDigits(id, '-', last);
    assert rest[..|id|] == id;
    assert rest[|id| + 1..] == last;
  }

  /** A key can be read back, even when the identifier contains dashes or digits. */
  lemma KeyRoundTrip(clock: int, id: string, counter: nat)
    ensures ParseKey(Key(clock, id, counter)) == Some(KeyParts(clock, id, counter))
  {
    var key, magnitude := Key(clock, id, counter), if clock < 0 then -clock else clock;
    var rest := id + "-" + Decimal(counter);
    UnsignedRoundTrip(magnitude, id, counter);
    DecimalRoundTrip(magnitude);
    if clock < 0 {
      SignedPrefix(Decimal(magnitude), rest);
    } else {
      assert key[0] == Decimal(magnitude)[0] && IsDigit(key[0]);
    }
  }

  lemma SignedPrefix(digits: string, rest: string)
    ensures var s := ("-" + digits) + "-" + rest; s[0] == '-' && s[1..] == digits + "-" + rest
  {
  }

  /** So two keys are equal only if clock, identifier and counter all are. */
  lemma KeyIsInjective(c1: int, id1: string, n1: nat, c2: int, id2: string, n2: nat)
    ensures Key(c1, id1, n1) == Key(c2, id2, n2) <==> c1 == c2 && id1 == id2 && n1 == n2
  {
    KeyRoundTrip(c1, id1, n1);
    KeyRoundTrip(c2, id2, n2);
  }

  // ---------------------------------------------------------------- keys as they reach the store

  /** What a C string function makes of a string: the part before the first zero character. */
  function CString(s: string): string {
    if s == "" || s[0] == '\0' then "" else [s[0]] + CString(s[1..])
  }

  lemma {:induction false} CStringConcat(a: string, b: string)
    ensures CString(a + b) == if '\0' in a then CString(a) else a + CString(b)
  {
    if a == "" {
      assert a + b == b;
    } else {
      assert (a + b)[0] == a[0] && (a + b)[1..] == a[1..] + b;
      CStringConcat(a[1..], b);
    }
  }

  lemma DigitsHaveNoZeroCharacter(clock: int, counter: nat)
    ensures '\0' !in ToString(clock) + "-" && '\0' !in "-" + Decimal(counter)
  {
    DecimalRoundTrip(if clock < 0 then -clock else clock);
    DecimalRoundTrip(counter);
  }

  /**
    Keys are handed to the store as C strings. Two keys of one connector at one clock reading are the same
    there if and only if their counters are equal or the identifier contains a zero character, which cuts
    the counter off.
   */
  lemma StoredKeysCollideWhen(clock: int, id: string, n1: nat, n2: nat)
    ensures CString(Key(clock, id, n1)) == CString(Key(clock, id, n2)) <==> n1 == n2 || '\0' in id
    ensures '\0' !in id ==> CString(Key(clock, id, n1)) == Key(clock, id, n1)
  {
    StoredKeyIs(clock, id, n1);
    StoredKeyIs(clock, id, n2);
    KeyIsInjective(clock, id, n1, clock, id, n2);
  }

  lemma StoredKeyIs(clock: int, id: string, counter: nat)
    ensures CString(Key(clock, id, counter))
         == if '\0' in id then ToString(clock) + "-" + CString(id) else Key(clock, id, counter)
  {
    DigitsHaveNoZeroCharacter(clock, counter);
    CStringAround(ToString(clock) + "-", id, "-", Decimal(counter));
  }

  lemma CStringAround(first: string, id: string, dash: string, last: string)
    requires '\0' !in first && '\0' !in dash + last
    ensures CString(first + (id + dash + last))
         == if '\0' in id then first + CString(id) else first + (id + dash + last)
  {
    assert id + dash + last == id + (dash + last);
    CStringConcat(first, id + (dash + last));
    CStringConcat(id, dash + last);
    CStringConcat(dash + last, "");
    assert dash + last + "" == dash + last;
  }

  // ---------------------------------------------------------------- the keys of one connector

  /** The keys a connector generates at the given clock readings, starting from a counter value. */
  function Generated(id: string, counter: nat, clocks: seq<int>): seq<string>
    decreases |clocks|
  {
    if clocks == [] then []
    else [Key(clocks[0], id, Tick(counter))] + Generated(id, Tick(counter), clocks[1..])
  }

  /** The counter in the `i`th key after a counter value, counting from zero. */
  function CounterAt(counter: nat, i: nat): nat {
    (counter + i + 1) % COUNTER_LIMIT
  }

  lemma CounterAtStep(counter: nat, i: nat)
    requires i > 0
    ensures CounterAt(Tick(counter), i - 1) == CounterAt(counter, i)
  {
  }

  lemma CountersMeet(counter: nat, i: nat, j: nat)
    requires i <= j
    ensures CounterAt(counter, i) == CounterAt(counter, j) <==> (j - i) % COUNTER_LIMIT == 0
  {
  }

  lemma {:induction false} GeneratedAt(id: string, counter: nat, clocks: seq<int>, i: nat)
    requires i < |clocks|
    ensures |Generated(id, counter, clocks)| == |clocks|
    ensures Generated(id, counter, clocks)[i] == Key(clocks[i], id, CounterAt(counter, i))
    decreases i
  {
    GeneratedLength(id, counter, clocks);
    if i == 0 {
      assert CounterAt(counter, 0) == Tick(counter);
    } else {
      var rest := clocks[1..];
      CounterAtStep(counter, i);
      GeneratedAt(id, Tick(counter), rest, i - 1);
      assert clocks[i] == rest[i - 1];
      assert Generated(id, counter, clocks)[i] == Generated(id, Tick(counter), rest)[i - 1];
    }
  }

  lemma {:induction false} GeneratedLength(id: string, counter: nat, clocks: seq<int>)
    ensures |Generated(id, counter, clocks)| == |clocks|
    decreases |clocks|
  {
    if clocks != [] {
      GeneratedLength(id, Tick(counter), clocks[1..]);
    }
  }

  /**
    Two keys of one connector collide exactly when the clock reads the same and the counter has gone
    round a whole number of times in between.
   */
  lemma KeysCollideWhen(id: string, counter: nat, clocks: seq<int>, i: nat, j: nat)
    requires i <= j < |clocks|
    ensures |Generated(id, counter, clocks)| == |clocks|
    ensures Generated(id, counter, clocks)[i] == Generated(id, counter, clocks)[j]
       <==> clocks[i] == clocks[j] && (j - i) % 1048576 == 0
  {
    GeneratedAt(id, counter, clocks, i);
    GeneratedAt(id, counter, clocks, j);
    KeyIsInjective(clocks[i], id, CounterAt(counter, i), clocks[j], id, CounterAt(counter, j));
    CountersMeet(counter, i, j);
  }

  /** Keys fewer than 2^20 generations apart differ, whatever the clock does. */
  lemma KeysDifferWithinWindow(id: string, counter: nat, clocks: seq<int>, i: nat, j: nat)
    requires i < j < |clocks| && j - i < 1048576
    ensures |Generated(id, counter, clocks)| == |clocks|
    ensures Generated(id, counter, clocks)[i] != Generated(id, counter, clocks)[j]
  {
    KeysCollideWhen(id, counter, clocks, i, j);
  }

  /** Connectors with different identifiers never generate the same key. */
  lemma ConnectorsNeverShareKeys(id1: string, n1: nat, clocks1: seq<int>, i: nat,
                                 id2: string, n2: nat, clocks2: seq<int>, j: nat)
    requires id1 != id2 && i < |clocks1| && j < |clocks2|
    ensures |Generated(id1, n1, clocks1)| == |clocks1| && |Generated(id2, n2, clocks2)| == |clocks2|
    ensures Generated(id1, n1, clocks1)[i] != Generated(id2, n2, clocks2)[j]
  {
    GeneratedAt(id1, n1, clocks1, i);
    GeneratedAt(id2, n2, clocks2, j);
    KeyIsInjective(clocks1[i], id1, CounterAt(n1, i), clocks2[j], id2, CounterAt(n2, j));
  }
}
