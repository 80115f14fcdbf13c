/** Task identifiers: the generator's printer and the parser behind TaskID.PID and
    TaskID.IsValid (internal/taskstore/id.go). */
module TaskIDs {
  import opened Tasks

  const PREFIX := "tsk_"

  /** The largest value of Go's 64-bit int. */
  const MAX_INT := 0x7FFF_FFFF_FFFF_FFFF

  const COUNTER_MODULUS := 0x1_0000_0000_0000_0000

  function Digit(d: nat): char
    requires d < 16
  {
    "0123456789abcdef"[d]
  }

  function Decimal(n: nat): (s: string)
    ensures |s| > 0
  {
    if n < 10 then [Digit(n)] else Decimal(n / 10) + [Digit(n % 10)]
  }

  /** `%d` of a Go int. */
  function Integer(n: int): string {
    if n < 0 then "-" + Decimal(-n) else Decimal(n)
  }

  predicate AllDigits(s: string) {
    forall i :: 0 <= i < |s| ==> '0' <= s[i] <= '9'
  }

  function Value(s: string): nat
    requires AllDigits(s)
  {
    if s == [] then 0 else 10 * Value(s[..|s| - 1]) + (s[|s| - 1] as int - '0' as int)
  }

  /** strconv.Atoi: an optional sign, then at least one digit, within the int range. */
  function Atoi(s: string): Option<int> {
    var signed := |s| > 0 && (s[0] == '-' || s[0] == '+');
    var digits := if signed then s[1..] else s;
    if digits == [] || !AllDigits(digits) then None
    else
      var v: int := if signed && s[0] == '-' then -(Value(digits) as int) else Value(digits);
      if -MAX_INT - 1 <= v <= MAX_INT then Some(v) else None
  }

  /** strings.IndexByte. */
  function IndexOf(s: string, c: char): (r: int)
    ensures -1 <= r < |s|
    ensures r >= 0 ==> s[r] == c && c !in s[..r]
    ensures r < 0 ==> c !in s
  {
    if s == [] then -1
    else if s[0] == c then 0
    else
      var r := IndexOf(s[1..], c);
      assert s == [s[0]] + s[1..];
      if r < 0 then -1
      else
        assert s[..r + 1] == [s[0]] + s[1..][..r];
        r + 1
  }

  /** TaskID.PID: the producer's pid, if the id has the canonical form. */
  function PID(id: TaskID): Option<int> {
    if !(PREFIX <= id) then None
    else
      var rest := id[|PREFIX|..];
      var sep := IndexOf(rest, '_');
      if sep <= 0 then None
      else
        match Atoi(rest[..sep])
        case None => None
        case Some(pid) => if pid <= 0 then None else Some(pid)
  }

  predicate IsValid(id: TaskID) {
    PID(id).Some?
  }

  /** The last `width` hexadecimal digits of n. */
  function Hex(n: nat, width: nat): (s: string)
    ensures |s| == width
  {
    if width == 0 then "" else Hex(n / 16, width - 1) + [Digit(n % 16)]
  }

  /** `%04x` of `counter & 0xFFFF`. */
  function Suffix(counter: nat): (s: string)
    ensures |s| == 4
  {
    Hex(counter % 0x1_0000, 4)
  }

  function Print(pid: int, stamp: string, random: string, counter: nat): TaskID {
    PREFIX + Integer(pid) + "_" + stamp + "_" + (random + Suffix(counter))
  }

  /** An id written out: four lower-case hexadecimal digits end it, however large the counter. */
  lemma PrintExample()
    ensures Print(42, "s", "r", 0x1_BEEF) == "tsk_42_s_rbeef"
  {
    hide Suffix, Integer;
    SuffixExample();
    IntegerExample();
    assert PREFIX + "42" == "tsk_42";
    assert "tsk_42" + "_" + "s" + "_" == "tsk_42_s_";
    assert "r" + "beef" == "rbeef";
  }

  lemma SuffixExample()
    ensures Suffix(0x1_BEEF) == "beef"
  {
    hide Hex;
    HexDigits(0xB, 0xE, 0xE, 0xF);
    assert Suffix(0x1_BEEF) == Hex(0xBEEF, 4);
    assert Digit(0xB) == 'b' && Digit(0xE) == 'e' && Digit(0xF) == 'f';
  }

  lemma HexDigits(a: nat, b: nat, c: nat, d: nat)
    requires a < 16 && b < 16 && c < 16 && d < 16
    ensures Hex(((a * 16 + b) * 16 + c) * 16 + d, 4) == [Digit(a), Digit(b), Digit(c), Digit(d)]
  {
    hide Hex, Digit;
    HexStep((a * 16 + b) * 16 + c, d, 4);
    HexStep(a * 16 + b, c, 3);
    HexStep(a, b, 2);
    HexStep(0, a, 1);
  }

  lemma IntegerExample()
    ensures Integer(42) == "42" && Integer(-7) == "-7"
  {
    assert Decimal(4) == "4" && Decimal(7) == "7";
  }

  lemma HexStep(n: nat, d: nat, width: nat)
    requires width > 0 && d < 16
    ensures Hex(n * 16 + d, width) == Hex(n, width - 1) + [Digit(d)]
    ensures Hex(n, 0) == ""
  {
  }

  class Generator {
    var counter: nat

    ghost predicate Valid()
      reads this
    {
      counter < COUNTER_MODULUS
    }

    constructor ()
      ensures Valid() && counter == 0
    {
      counter := 0;
    }

    /** The pid, the clock stamp and the random bytes come from outside. */
    method Next(pid: int, stamp: string, random: string) returns (id: TaskID)
      requires Valid()
      modifies this
      ensures Valid()
      ensures counter == (old(counter) + 1) % 0x1_0000_0000_0000_0000
      ensures id == Print(pid, stamp, random, counter)
    {
      counter := (counter + 1) % COUNTER_MODULUS;
      var suffix := random + Suffix(counter);
      id := PREFIX + Integer(pid) + "_" + stamp + "_" + suffix;
    }
  }

  lemma {:induction false} DecimalValue(n: nat)
    ensures AllDigits(Decimal(n)) && Value(Decimal(n)) == n
    decreases n
  {
    if n >= 10 {
      DecimalValue(n / 10);
      var s := Decimal(n);
      assert s[..|s| - 1] == Decimal(n / 10);
      assert AllDigits(s);
    } else {
      var s := Decimal(n);
      assert s[..|s| - 1] == [];
    }
  }

  /** Reading an id back gives the pid it was printed with, for every positive pid. */
  lemma PidRoundTrip(pid: int, stamp: string, random: string, counter: nat)
    requires 0 < pid <= MAX_INT
    ensures PID(Print(pid, stamp, random, counter)) == Some(pid)
  {
    var tail := "_" + stamp + "_" + (random + Suffix(counter));
    DecimalValue(pid);
    AtoiOfDecimal(pid);
    PidOf(Decimal(pid), tail, pid);
    hide Decimal, Atoi, Suffix, PID;
    Regroup(PREFIX, Decimal(pid), "_", stamp, random + Suffix(counter));
  }

  /** What a canonical id is: the prefix, a positive decimal number in the int range with an optional plus
      sign, a separator, and anything. */
  lemma PidIff(id: TaskID, pid: int)
    ensures PID(id) == Some(pid) <==> exists number, tail: string :: IsSplit(id, number, tail) && IsNumber(number, pid)
  {
    if PID(id) == Some(pid) {
      PidSplits(id, pid);
    }
    if number, tail: string :| IsSplit(id, number, tail) && IsNumber(number, pid) {
      SplitHasPid(id, number, tail, pid);
    }
  }

  ghost predicate IsSplit(id: TaskID, number: string, tail: string) {
    id == "tsk_" + (number + "_" + tail) && '_' !in number
  }

  lemma PidSplits(id: TaskID, pid: int)
    requires PID(id) == Some(pid)
    ensures exists number, tail: string :: IsSplit(id, number, tail) && IsNumber(number, pid)
  {
    hide AllDigits, Value, Atoi;
    var rest := id[|PREFIX|..];
    var sep := IndexOf(rest, '_');
    var number, tail := rest[..sep], rest[sep + 1..];
    assert rest == number + "_" + tail;
    assert IsSplit(id, number, tail);
    AtoiIff(number, pid);
  }

  lemma SplitHasPid(id: TaskID, number: string, tail: string, pid: int)
    requires IsSplit(id, number, tail) && IsNumber(number, pid)
    ensures PID(id) == Some(pid)
  {
    hide AllDigits, Value, Atoi, IndexOf;
    assert id[|PREFIX|..] == number + "_" + tail;
    SeparatorAt(number, tail);
    assert (number + "_" + tail)[..|number|] == number;
    AtoiIff(number, pid);
  }

  lemma AtoiIff(number: string, pid: int)
    ensures pid > 0 ==> (Atoi(number) == Some(pid) <==> IsNumber(number, pid))
    ensures IsNumber(number, pid) ==> number != ""
  {
    hide AllDigits, Value;
    if number != "" && (number[0] == '+' || number[0] == '-') {
      assert number == [number[0]] + number[1..];
      NotDigits(number);
    }
    if digits: string :| ((number == digits || number == "+" + digits) && digits != "" && AllDigits(digits)
                          && Value(digits) == pid) {
      NotDigits(digits);
      assert number == "+" + digits ==> number[1..] == digits;
    }
  }

  lemma NotDigits(number: string)
    requires number != ""
    ensures AllDigits(number) ==> number[0] != '+' && number[0] != '-'
  {
  }

  ghost predicate IsNumber(number: string, pid: int) {
    && 0 < pid <= 0x7FFF_FFFF_FFFF_FFFF
    && exists digits: string ::
      && (number == digits || number == "+" + digits)
      && digits != "" && AllDigits(digits) && Value(digits) == pid
  }

  lemma SeparatorAt(number: string, tail: string)
    requires '_' !in number
    ensures IndexOf(number + "_" + tail, '_') == |number|
  {
    var s := number + "_" + tail;
    var r := IndexOf(s, '_');
    assert forall i :: 0 <= i < |number| ==> s[i] == number[i];
    assert s[|number|] == '_' && s[|number|] in s;
  }

  lemma Regroup(p: string, d: string, u: string, s: string, r: string)
    ensures p + d + u + s + u + r == p + (d + (u + s + u + r))
  {
  }

  lemma PidOf(digits: string, tail: string, pid: int)
    requires AllDigits(digits) && digits != [] && tail != [] && tail[0] == '_' && Atoi(digits) == Some(pid) && pid > 0
    ensures PID(PREFIX + (digits + tail)) == Some(pid)
  {
    hide AllDigits, Atoi;
    FirstSeparator(digits, tail);
    var id := PREFIX + (digits + tail);
    assert id[|PREFIX|..] == digits + tail;
    assert (digits + tail)[..|digits|] == digits;
  }

  lemma AtoiOfDecimal(n: nat)
    requires n <= MAX_INT
    ensures Atoi(Decimal(n)) == Some(n)
  {
    DecimalValue(n);
    assert '0' <= Decimal(n)[0] <= '9';
  }

  lemma FirstSeparator(digits: string, tail: string)
    requires AllDigits(digits) && tail != [] && tail[0] == '_'
    ensures IndexOf(digits + tail, '_') == |digits|
  {
    var s := digits + tail;
    var r := IndexOf(s, '_');
    assert forall i :: 0 <= i < |digits| ==> s[i] == digits[i];
    assert s[|digits|] == '_' && s[|digits|] in s;
  }

  lemma {:induction false} HexInjective(a: nat, b: nat, width: nat)
    requires Hex(a, width) == Hex(b, width) && a < Power16(width) && b < Power16(width)
    ensures a == b
    decreases width
  {
    if width > 0 {
      var x, y := Hex(a, width), Hex(b, width);
      assert x[..width - 1] == Hex(a / 16, width - 1) && y[..width - 1] == Hex(b / 16, width - 1);
      assert x[width - 1] == Digit(a % 16) && y[width - 1] == Digit(b % 16);
      DigitInjective(a % 16, b % 16);
      HexInjective(a / 16, b / 16, width - 1);
    }
  }

  function Power16(k: nat): nat {
    if k == 0 then 1 else 16 * Power16(k - 1)
  }

  lemma DigitInjective(a: nat, b: nat)
    requires a < 16 && b < 16
    ensures Digit(a) == Digit(b) ==> a == b
  {
  }

  /** Two ids printed with stamps and random parts of equal length collide exactly when pid,
      stamp, random part and the low sixteen counter bits all agree: within one clock tick and
      one random draw, the counter alone keeps 65536 consecutive ids apart. */
  lemma PrintInjective(p: int, q: int, s: string, t: string, x: string, y: string, c: nat, d: nat)
    requires 0 < p <= MAX_INT && 0 < q <= MAX_INT && |s| == |t| && |x| == |y|
    ensures Print(p, s, x, c) == Print(q, t, y, d)
            <==> p == q && s == t && x == y && c % 0x1_0000 == d % 0x1_0000
  {
    if Print(p, s, x, c) == Print(q, t, y, d) {
      PidRoundTrip(p, s, x, c);
      PidRoundTrip(q, t, y, d);
      SamePidPrint(p, s, t, x, y, c, d);
    }
  }

  lemma SamePidPrint(p: int, s: string, t: string, x: string, y: string, c: nat, d: nat)
    requires |s| == |t| && |x| == |y| && Print(p, s, x, c) == Print(p, t, y, d)
    ensures s == t && x == y && c % 0x1_0000 == d % 0x1_0000
  {
    var head := PREFIX + Integer(p) + "_";
    PrintShape(p, s, x, c);
    PrintShape(p, t, y, d);
    SplitEqual(head, s + Tail(x, c), head, t + Tail(y, d));
    SplitEqual(s, Tail(x, c), t, Tail(y, d));
    TailInjective(x, y, c, d);
  }

  lemma PrintShape(p: int, s: string, x: string, c: nat)
    ensures Print(p, s, x, c) == (PREFIX + Integer(p) + "_") + (s + Tail(x, c))
  {
  }

  function Tail(random: string, counter: nat): string {
    "_" + (random + Suffix(counter))
  }

  lemma TailInjective(x: string, y: string, c: nat, d: nat)
    requires |x| == |y| && Tail(x, c) == Tail(y, d)
    ensures x == y && c % 0x1_0000 == d % 0x1_0000
  {
    SplitEqual("_", x + Suffix(c), "_", y + Suffix(d));
    SplitEqual(x, Suffix(c), y, Suffix(d));
    assert Power16(4) == 0x1_0000;
    HexInjective(c % 0x1_0000, d % 0x1_0000, 4);
  }

  lemma SplitEqual(a: string, b: string, c: string, d: string)
    requires |a| == |c| && a + b == c + d
    ensures a == c && b == d
  {
    assert a == (a + b)[..|a|] && c == (c + d)[..|c|];
    assert b == (a + b)[|a|..] && d == (c + d)[|c|..];
  }
}
