/** Base64, streamed bit by bit into cells that are converted in place. */
module Base64 {
  import opened Attempts


  type Byte = b: nat | b < 256

  const PAD: char := '='

  /** The digits A-Z, a-z, 0-9, + and / (table 1 of RFC 4648). */
  function Digit(v: nat): (c: char)
    requires v < 64
    ensures c != PAD
  {
    if v < 26 then ('A' as nat + v) as char
    else if v < 52 then ('a' as nat + (v - 26)) as char
    else if v < 62 then ('0' as nat + (v - 52)) as char
    else if v == 62 then '+'
    else '/'
  }

  function Value(c: char): (v: nat)
    ensures v < 64
  {
    if 'A' <= c <= 'Z' then c as nat - 'A' as nat
    else if 'a' <= c <= 'z' then c as nat - 'a' as nat + 26
    else if '0' <= c <= '9' then c as nat - '0' as nat + 52
    else if c == '+' then 62
    else 63
  }

  lemma DigitsDiffer(v: nat, w: nat)
    requires v < 64 && w < 64
    ensures Value(Digit(v)) == v
    ensures Digit(v) == Digit(w) <==> v == w
  {
  }

  /** Table 1 of RFC 4648. */
  lemma DigitTable(v: nat)
    ensures Digit(0) == 'A' && Digit(25) == 'Z' && Digit(26) == 'a' && Digit(51) == 'z'
    ensures Digit(52) == '0' && Digit(61) == '9' && Digit(62) == '+' && Digit(63) == '/'
    ensures v < 25 || 26 <= v < 51 || 52 <= v < 61 ==> Digit(v + 1) as nat == Digit(v) as nat + 1
  {
  }

  // ----- section 4 of RFC 4648 -----

  /** Groups of three bytes give four digits; a short last group is filled with zero bits and padded. */
  function Encode(s: seq<Byte>): string {
    if s == [] then []
    else if |s| == 1 then [Digit(s[0] / 4), Digit(s[0] % 4 * 16), PAD, PAD]
    else if |s| == 2 then [Digit(s[0] / 4), Digit(s[0] % 4 * 16 + s[1] / 16), Digit(s[1] % 16 * 4), PAD]
    else
      [Digit(s[0] / 4), Digit(s[0] % 4 * 16 + s[1] / 16), Digit(s[1] % 16 * 4 + s[2] / 64), Digit(s[2] % 64)] +
      Encode(s[3..])
  }

  /** The test vectors of section 10 of RFC 4648 for "fo" and "foobar". */
  lemma Vectors()
    ensures Encode([102]) == "Zg==" && Encode([102, 111]) == "Zm8="
    ensures Encode([102, 111, 111, 98, 97, 114]) == "Zm9vYmFy"
  {
    var foobar: seq<Byte> := [102, 111, 111, 98, 97, 114];
    assert foobar[3..] == [98, 97, 114] && foobar[3..][3..] == [];
    assert Encode(foobar[3..]) == "YmFy";
  }

  function Decode(t: string): seq<Byte> {
    if |t| < 4 then []
    else
      var a, b, c, d := Value(t[0]), Value(t[1]), Value(t[2]), Value(t[3]);
      if t[2] == PAD then [a * 4 + b / 16]
      else if t[3] == PAD then [a * 4 + b / 16, b % 16 * 16 + c / 4]
      else [a * 4 + b / 16, b % 16 * 16 + c / 4, c % 4 * 64 + d] + Decode(t[4..])
  }

  lemma Regroup(b0: nat, b1: nat, b2: nat)
    requires b0 < 256 && b1 < 256 && b2 < 256
    ensures var a, b, c, d := b0 / 4, b0 % 4 * 16 + b1 / 16, b1 % 16 * 4 + b2 / 64, b2 % 64;
      && a < 64 && b < 64 && c < 64
      && a * 4 + b / 16 == b0 && b % 16 * 16 + c / 4 == b1 && c % 4 * 64 + d == b2
  {
  }

  /** The encoding takes four digits for every three bytes begun. */
  lemma {:induction false} EncodedLength(s: seq<Byte>)
    ensures |Encode(s)| == 4 * ((|s| + 2) / 3)
  {
    if |s| > 2 {
      EncodedLength(s[3..]);
    }
  }

  lemma WholeGroup(b0: nat, b1: nat, b2: nat, rest: string)
    requires b0 < 256 && b1 < 256 && b2 < 256
    ensures Decode([Digit(b0 / 4), Digit(b0 % 4 * 16 + b1 / 16), Digit(b1 % 16 * 4 + b2 / 64), Digit(b2 % 64)] + rest)
      == [b0, b1, b2] + Decode(rest)
  {
    var t := [Digit(b0 / 4), Digit(b0 % 4 * 16 + b1 / 16), Digit(b1 % 16 * 4 + b2 / 64), Digit(b2 % 64)] + rest;
    Regroup(b0, b1, b2);
    DigitsDiffer(b0 / 4, 0);
    DigitsDiffer(b0 % 4 * 16 + b1 / 16, 0);
    DigitsDiffer(b1 % 16 * 4 + b2 / 64, 0);
    DigitsDiffer(b2 % 64, 0);
    assert t[4..] == rest;
  }

  lemma ShortGroup(b0: nat, b1: nat)
    requires b0 < 256 && b1 < 256
    ensures Decode([Digit(b0 / 4), Digit(b0 % 4 * 16), PAD, PAD]) == [b0]
    ensures Decode([Digit(b0 / 4), Digit(b0 % 4 * 16 + b1 / 16), Digit(b1 % 16 * 4), PAD]) == [b0, b1]
  {
    Regroup(b0, 0, 0);
    Regroup(b0, b1, 0);
    DigitsDiffer(b0 / 4, 0);
    DigitsDiffer(b0 % 4 * 16, 0);
    DigitsDiffer(b0 % 4 * 16 + b1 / 16, 0);
    DigitsDiffer(b1 % 16 * 4, 0);
  }

  lemma EncodeGroup(s: seq<Byte>)
    requires |s| > 2
    ensures Encode(s) == [Digit(s[0] / 4), Digit(s[0] % 4 * 16 + s[1] / 16), Digit(s[1] % 16 * 4 + s[2] / 64),
      Digit(s[2] % 64)] + Encode(s[3..])
  {
  }

  lemma EncodeShort(s: seq<Byte>)
    requires |s| < 3
    ensures Decode(Encode(s)) == s
  {
    if |s| == 1 {
      ShortGroup(s[0], 0);
    } else if |s| == 2 {
      ShortGroup(s[0], s[1]);
    }
  }

  /** Decoding gives the bytes back. */
  lemma {:induction false} RoundTrip(s: seq<Byte>)
    ensures Decode(Encode(s)) == s
  {
    if |s| < 3 {
      EncodeShort(s);
    } else {
      RoundTrip(s[3..]);
      EncodeGroup(s);
      WholeGroup(s[0], s[1], s[2], Encode(s[3..]));
      assert s == [s[0], s[1], s[2]] + s[3..];
    }
  }

  // ----- the loop over bits -----

  function ShiftRight(c: nat, s: nat): nat {
    if s == 0 then c else ShiftRight(c, s - 1) / 2
  }

  /** Bit `k` of a byte, the most significant first. */
  function Bit(c: nat, k: nat): (b: nat)
    requires k < 8
    ensures b < 2
  {
    ShiftRight(c, 7 - k) % 2
  }

  function BitAt(str: seq<Byte>, t: nat): (b: nat)
    requires t < 8 * |str|
    ensures b < 2
  {
    Bit(str[t / 8], t % 8)
  }

  /** The number that the first `c` bits of cell `q` make. */
  function Filled(str: seq<Byte>, q: nat, c: nat): (v: nat)
    requires c <= 6 && 6 * q + c <= 8 * |str|
    ensures v < [1, 2, 4, 8, 16, 32, 64][c]
  {
    if c == 0 then 0 else 2 * Filled(str, q, c - 1) + BitAt(str, 6 * q + c - 1)
  }

  function Added(n: nat): (added: nat)
    ensures (n + added) % 3 == 0 && added < 3
  {
    if n % 3 == 0 then 0 else if n % 3 == 1 then 2 else 1
  }

  /** The cell that the bit before number `t` went to. */
  function Current(t: nat): nat {
    if t == 0 then 0 else (t - 1) / 6
  }

  ghost predicate Streamed(cells: seq<nat>, str: seq<Byte>, t: nat)
    requires t <= 8 * |str|
  {
    && (forall q :: 0 <= q < Current(t) ==>
         q < |cells| && 6 * q + 6 <= t && cells[q] == Digit(Filled(str, q, 6)) as nat)
    && (t > 0 ==> Current(t) < |cells| && cells[Current(t)] == Filled(str, Current(t), t - 6 * Current(t)))
  }

  /** All cells before `q` are converted, and it holds its first `r` bits. */
  ghost predicate Open(cells: seq<nat>, str: seq<Byte>, q: nat, r: nat) {
    && q < |cells| && r <= 6 && 6 * q + r <= 8 * |str| && cells[q] == Filled(str, q, r)
    && forall p :: 0 <= p < q ==> 6 * p + 6 <= 8 * |str| && cells[p] == Digit(Filled(str, p, 6)) as nat
  }

  lemma StillOpen(cells: seq<nat>, str: seq<Byte>, q: nat, r: nat)
    requires 0 < r < 6 && 6 * q + r <= 8 * |str| && Streamed(cells, str, 6 * q + r)
    ensures Open(cells, str, q, r)
  {
    assert Current(6 * q + r) == q;
  }

  lemma Closed(cells: seq<nat>, str: seq<Byte>, q: nat, r: nat)
    requires r < 6 && Open(cells, str, q, r + 1)
    ensures Streamed(cells, str, 6 * q + r + 1)
  {
    assert Current(6 * q + r + 1) == q;
  }

  /** Begins cell `q`: the one before it is converted. */
  method Begin(result: array<nat>, ghost str: seq<Byte>, q: nat)
    requires 6 * q < 8 * |str| && q < result.Length && Streamed(result[..], str, 6 * q)
    modifies result
    ensures Open(result[..], str, q, 0)
    ensures forall p :: q < p < result.Length ==> result[p] == old(result[p])
  {
    if q >= 1 { result[q - 1] := Digit(result[q - 1]) as nat; }
    result[q] := 0;
  }

  /** One turn of the inner loop: bit number `t` goes into its cell, and when a cell begins the
      one before it is converted. */
  method Push(result: array<nat>, ghost str: seq<Byte>, t: nat, bit: nat)
    requires t < 8 * |str| && t / 6 < result.Length && bit == BitAt(str, t)
    requires Streamed(result[..], str, t)
    modifies result
    ensures Streamed(result[..], str, t + 1)
    ensures forall q :: t / 6 < q < result.Length ==> result[q] == old(result[q])
  {
    var cell, r := t / 6, t % 6;
    assert t == 6 * cell + r;
    if r == 0 {
      Begin(result, str, cell);
    } else {
      StillOpen(result[..], str, cell, r);
    }
    AddBit(result, str, cell, r, bit);
  }

  method AddBit(result: array<nat>, ghost str: seq<Byte>, q: nat, ghost r: nat, bit: nat)
    requires r < 6 && 6 * q + r < 8 * |str| && bit == BitAt(str, 6 * q + r) && Open(result[..], str, q, r)
    modifies result
    ensures Streamed(result[..], str, 6 * q + r + 1)
    ensures forall p :: q < p < result.Length ==> result[p] == old(result[p])
  {
    result[q] := 2 * result[q] + bit;
    assert Filled(str, q, r + 1) == 2 * Filled(str, q, r) + BitAt(str, 6 * q + r);
    Closed(result[..], str, q, r);
  }

  /** The inner loop: the eight bits of byte number `j`. */
  method PushByte(result: array<nat>, ghost str: seq<Byte>, i: nat, j: nat, c: nat, ghost groups: nat)
    requires i == 8 * j && j < 3 * groups && j < |str| && 4 * groups < result.Length && c == str[j]
    requires Streamed(result[..], str, i)
    modifies result
    ensures Streamed(result[..], str, i + 8) && result[4 * groups] == old(result[4 * groups])
  {
    for k := 0 to 8
      invariant Streamed(result[..], str, i + k) && result[4 * groups] == old(result[4 * groups])
    {
      PushBit(result, str, i, j, k, c, groups);
    }
  }

  /** Bit `k` of the byte; the cell of the final NUL is not reached. */
  method PushBit(result: array<nat>, ghost str: seq<Byte>, i: nat, ghost j: nat, k: nat, c: nat, ghost groups: nat)
    requires i == 8 * j && k < 8 && j < 3 * groups && j < |str| && 4 * groups < result.Length && c == str[j]
    requires Streamed(result[..], str, i + k)
    modifies result
    ensures Streamed(result[..], str, i + k + 1) && result[4 * groups] == old(result[4 * groups])
  {
    PlaceOf(str, j, k, groups);
    Push(result, str, i + k, Bit(c, k));
  }

  /** The guard of the loop: it lets all reads pass that it should stop. */
  method ByteAt(str: seq<Byte>, j: nat, size: nat) returns (c: Option<nat>)
    ensures j >= size ==> c == Some(0)
    ensures j < size ==> c == if j < |str| then Some(str[j]) else None
  {
    if j >= size { return Some(0); }
    if j >= |str| { return None; }
    return Some(str[j]);
  }

  /** The loop over the bytes, `length` of them, a multiple of three: it reads the buffer all
      along, as the guard against reading past the input is never false, and would read outside
      a buffer that is shorter. */
  method Stream(str: seq<Byte>, length: nat, ghost groups: nat, size: nat, result: array<nat>) returns (inside: bool)
    requires length == 3 * groups && size == 4 * groups < result.Length
    requires result[size] == 0
    modifies result
    ensures inside <==> length <= |str|
    ensures inside ==> result[size] == 0 && Streamed(result[..], str, 24 * groups)
  {
    var i := 0;
    for j := 0 to length
      invariant i == 8 * j <= 8 * |str| && result[size] == 0
      invariant Streamed(result[..], str, i)
    {
      var c := ByteAt(str, j, size);
      if c.None? { return false; }
      PushByte(result, str, i, j, c.value, groups);
      i := i + 8;
    }
    return true;
  }

  lemma PlaceOf(str: seq<Byte>, j: nat, k: nat, groups: nat)
    requires j < 3 * groups && j < |str| && k < 8
    ensures BitAt(str, 8 * j + k) == Bit(str[j], k) && (8 * j + k) / 6 < 4 * groups
  {
  }

  /** After the loop all cells are converted but the last. */
  lemma Complete(cells: seq<nat>, str: seq<Byte>, groups: nat)
    requires 3 * groups <= |str| && Streamed(cells, str, 24 * groups) && |cells| > 4 * groups
    ensures forall q :: 0 <= q < 4 * groups - 1 ==> cells[q] == Digit(Filled(str, q, 6)) as nat
    ensures groups > 0 ==> cells[4 * groups - 1] == Filled(str, 4 * groups - 1, 6)
  {
  }

  /** Converts the last cell when nothing is added, and writes the padding otherwise. */
  method Finish(result: array<nat>, added: nat, size: nat, ghost str: seq<Byte>)
    requires added <= 2 && size < result.Length && result[size] == 0 && 6 * size <= 8 * |str|
    requires size != 1 && (added > 0 ==> size >= 2)
    requires forall q :: 0 <= q < size - 1 ==> result[q] == Digit(Filled(str, q, 6)) as nat
    requires size > 0 ==> result[size - 1] == Filled(str, size - 1, 6)
    modifies result
    ensures result[size] == 0
    ensures forall q :: 0 <= q < size ==>
      result[q] == (if q < size - added then Digit(Filled(str, q, 6)) else PAD) as nat
  {
    if added == 0 && size > added + 1 {
      result[size - 1 - added] := Digit(result[size - 1 - added]) as nat;
    }
    for j := 0 to added
      invariant forall q :: 0 <= q < size - added ==> result[q] == Digit(Filled(str, q, 6)) as nat
      invariant forall q :: size - j <= q < size ==> result[q] == PAD as nat
      invariant result[size] == 0
    {
      result[size - 1 - j] := PAD as nat;
    }
  }

  /** The groups of three that `n` bytes take. */
  function Groups(n: nat): (groups: nat)
    ensures n + Added(n) == 3 * groups
  {
    (n + Added(n)) / 3
  }

  /** The text that `n` bytes at the start of a buffer are converted to. */
  ghost function Text(str: seq<Byte>, n: nat): (text: string)
    requires n + Added(n) <= |str|
    ensures |text| == 4 * Groups(n)
    ensures forall q :: 0 <= q < |text| ==> text[q] == if q < |text| - Added(n) then Digit(Filled(str, q, 6)) else PAD
  {
    seq(4 * Groups(n), q requires 0 <= q < 4 * Groups(n) =>
      if q < 4 * Groups(n) - Added(n) then Digit(Filled(str, q, 6)) else PAD)
  }

  /** Converts `n` bytes at the start of a buffer, to a text that a NUL ends; there is no text
      exactly when the buffer ends before the last group of three does. */
  method Convert(str: seq<Byte>, n: nat) returns (text: Option<array<nat>>)
    requires n <= |str|
    ensures text.None? <==> n + Added(n) > |str|
    ensures text.Some? ==> fresh(text.value) && Holds(text.value[..], Text(str, n))
  {
    var added := Added(n);
    var size := (n + added) * 8 / 6;
    ghost var groups := Groups(n);
    var result := new nat[size + added + 1](_ => 0);
    var inside := Stream(str, n + added, groups, size, result);
    if !inside { return None; }
    Complete(result[..], str, groups);
    Finish(result, added, size, str);
    return Some(result);
  }

  /** The cells hold the text and the NUL that ends it. */
  ghost predicate Holds(cells: seq<nat>, text: string) {
    |text| < |cells| && cells[|text|] == 0 && forall q :: 0 <= q < |text| ==> cells[q] == text[q] as nat
  }

  // ----- the loop against the standard -----

  lemma SixBits(str: seq<Byte>, q: nat)
    requires 6 * q + 6 <= 8 * |str|
    ensures Filled(str, q, 6) ==
      32 * BitAt(str, 6 * q) + 16 * BitAt(str, 6 * q + 1) + 8 * BitAt(str, 6 * q + 2) +
      4 * BitAt(str, 6 * q + 3) + 2 * BitAt(str, 6 * q + 4) + BitAt(str, 6 * q + 5)
  {
    assert Filled(str, q, 1) == 2 * Filled(str, q, 0) + BitAt(str, 6 * q);
    assert Filled(str, q, 2) == 2 * Filled(str, q, 1) + BitAt(str, 6 * q + 1);
    assert Filled(str, q, 3) == 2 * Filled(str, q, 2) + BitAt(str, 6 * q + 2);
    assert Filled(str, q, 4) == 2 * Filled(str, q, 3) + BitAt(str, 6 * q + 3);
    assert Filled(str, q, 5) == 2 * Filled(str, q, 4) + BitAt(str, 6 * q + 4);
  }

  /** Bit `x` of the 24 bits of three bytes. */
  function GroupBit(b0: nat, b1: nat, b2: nat, x: nat): nat
    requires x < 24
  {
    if x < 8 then Bit(b0, x) else if x < 16 then Bit(b1, x - 8) else Bit(b2, x - 16)
  }

  lemma BitOf(str: seq<Byte>, g: nat, r: nat, c: nat)
    requires r < 4 && c < 6 && 3 * g + 3 <= |str|
    ensures BitAt(str, 6 * (4 * g + r) + c) == GroupBit(str[3 * g], str[3 * g + 1], str[3 * g + 2], 6 * r + c)
  {
    var x := 6 * r + c;
    assert 6 * (4 * g + r) + c == 8 * (3 * g) + x;
    assert (8 * (3 * g) + x) / 8 == 3 * g + x / 8 && (8 * (3 * g) + x) % 8 == x % 8;
  }

  lemma SixBitsOf(str: seq<Byte>, g: nat, r: nat, q: nat, b0: nat, b1: nat, b2: nat)
    requires r < 4 && 3 * g + 3 <= |str| && q == 4 * g + r && b0 == str[3 * g] && b1 == str[3 * g + 1] &&
      b2 == str[3 * g + 2]
    ensures BitAt(str, 6 * q) == GroupBit(b0, b1, b2, 6 * r) && BitAt(str, 6 * q + 1) == GroupBit(b0, b1, b2, 6 * r + 1)
    ensures BitAt(str, 6 * q + 2) == GroupBit(b0, b1, b2, 6 * r + 2) &&
      BitAt(str, 6 * q + 3) == GroupBit(b0, b1, b2, 6 * r + 3)
    ensures BitAt(str, 6 * q + 4) == GroupBit(b0, b1, b2, 6 * r + 4) &&
      BitAt(str, 6 * q + 5) == GroupBit(b0, b1, b2, 6 * r + 5)
  {
    BitOf(str, g, r, 0);
    BitOf(str, g, r, 1);
    BitOf(str, g, r, 2);
    BitOf(str, g, r, 3);
    BitOf(str, g, r, 4);
    BitOf(str, g, r, 5);
  }

  lemma CellBits(str: seq<Byte>, g: nat, r: nat)
    requires r < 4 && 3 * g + 3 <= |str|
    ensures Filled(str, 4 * g + r, 6) == Sixth(str[3 * g], str[3 * g + 1], str[3 * g + 2], r)
  {
    var q := 4 * g + r;
    SixBits(str, q);
    SixBitsOf(str, g, r, q, str[3 * g], str[3 * g + 1], str[3 * g + 2]);
  }

  /** The number that six of the 24 bits make. */
  function Sixth(b0: nat, b1: nat, b2: nat, r: nat): nat
    requires r < 4
  {
    32 * GroupBit(b0, b1, b2, 6 * r) + 16 * GroupBit(b0, b1, b2, 6 * r + 1) + 8 * GroupBit(b0, b1, b2, 6 * r + 2) +
    4 * GroupBit(b0, b1, b2, 6 * r + 3) + 2 * GroupBit(b0, b1, b2, 6 * r + 4) + GroupBit(b0, b1, b2, 6 * r + 5)
  }

  lemma Bits(c: nat)
    requires c < 256
    ensures c == 128 * Bit(c, 0) + 64 * Bit(c, 1) + 32 * Bit(c, 2) + 16 * Bit(c, 3) + 8 * Bit(c, 4) + 4 * Bit(c, 5) +
      2 * Bit(c, 6) + Bit(c, 7)
  {
    Shifts(c, 0);
    Shifts(c, 1);
    Shifts(c, 2);
    Shifts(c, 3);
    Shifts(c, 4);
    Shifts(c, 5);
    Shifts(c, 6);
  }

  lemma Shifts(c: nat, s: nat)
    requires s < 7
    ensures ShiftRight(c, s) == 2 * ShiftRight(c, s + 1) + Bit(c, 7 - s)
    ensures ShiftRight(c, 0) == c
    ensures c < 256 ==> ShiftRight(c, 7) == Bit(c, 0)
  {
    if c < 256 {
      Shrinks(c, 7);
    }
  }

  lemma {:induction false} Shrinks(c: nat, s: nat)
    requires c < 256 && s <= 7
    ensures ShiftRight(c, s) < [256, 128, 64, 32, 16, 8, 4, 2][s]
  {
    if s > 0 {
      Shrinks(c, s - 1);
    }
  }

  lemma Parts(c: nat)
    requires c < 256
    ensures c / 4 == 32 * Bit(c, 0) + 16 * Bit(c, 1) + 8 * Bit(c, 2) + 4 * Bit(c, 3) + 2 * Bit(c, 4) + Bit(c, 5)
    ensures c % 4 == 2 * Bit(c, 6) + Bit(c, 7)
    ensures c / 16 == 8 * Bit(c, 0) + 4 * Bit(c, 1) + 2 * Bit(c, 2) + Bit(c, 3)
    ensures c % 16 == 8 * Bit(c, 4) + 4 * Bit(c, 5) + 2 * Bit(c, 6) + Bit(c, 7)
    ensures c / 64 == 2 * Bit(c, 0) + Bit(c, 1)
    ensures c % 64 == 32 * Bit(c, 2) + 16 * Bit(c, 3) + 8 * Bit(c, 4) + 4 * Bit(c, 5) + 2 * Bit(c, 6) + Bit(c, 7)
  {
    Bits(c);
  }

  lemma Sixths(b0: nat, b1: nat, b2: nat, r: nat)
    requires b0 < 256 && b1 < 256 && b2 < 256 && r < 4
    ensures Sixth(b0, b1, b2, r) == Quarter(b0, b1, b2, r)
  {
    Parts(b0);
    Parts(b1);
    Parts(b2);
  }

  /** The four digits of three bytes. */
  function Quarter(b0: nat, b1: nat, b2: nat, r: nat): nat
    requires r < 4
  {
    if r == 0 then b0 / 4 else if r == 1 then b0 % 4 * 16 + b1 / 16 else if r == 2 then b1 % 16 * 4 + b2 / 64
      else b2 % 64
  }

  /** The four cells of a group hold the four digits of its three bytes. */
  lemma GroupCell(str: seq<Byte>, g: nat, r: nat)
    requires r < 4 && 3 * g + 3 <= |str|
    ensures Filled(str, 4 * g + r, 6) == Quarter(str[3 * g], str[3 * g + 1], str[3 * g + 2], r)
  {
    CellBits(str, g, r);
    Sixths(str[3 * g], str[3 * g + 1], str[3 * g + 2], r);
  }

  /** The bits that the loop takes from past the input are zero: the upper four of the next byte
      after one odd byte, the upper two after two. */
  predicate Clean(str: seq<Byte>, n: nat)
    requires n + Added(n) <= |str|
  {
    n % 3 == 0 || str[n] < if n % 3 == 1 then 16 else 64
  }

  lemma LastOne(b0: Byte, next: Byte)
    ensures [Digit(b0 / 4), Digit(b0 % 4 * 16 + next / 16), PAD, PAD] == Encode([b0]) <==> next < 16
  {
    DigitsDiffer(b0 % 4 * 16 + next / 16, b0 % 4 * 16);
    assert Encode([b0])[1] == Digit(b0 % 4 * 16);
  }

  lemma LastTwo(b0: Byte, b1: Byte, next: Byte)
    ensures [Digit(b0 / 4), Digit(b0 % 4 * 16 + b1 / 16), Digit(b1 % 16 * 4 + next / 64), PAD] == Encode([b0, b1]) <==>
      next < 64
  {
    DigitsDiffer(b1 % 16 * 4 + next / 64, b1 % 16 * 4);
    assert Encode([b0, b1])[2] == Digit(b1 % 16 * 4);
  }

  /** The digits that a full group is written as. */
  function Digits4(b0: Byte, b1: Byte, b2: Byte): string {
    [Digit(b0 / 4), Digit(b0 % 4 * 16 + b1 / 16), Digit(b1 % 16 * 4 + b2 / 64), Digit(b2 % 64)]
  }

  /** Text number `q`, when it is a digit. */
  lemma TextAt(str: seq<Byte>, n: nat, g: nat, r: nat)
    requires n + Added(n) <= |str| && r < 4 && 4 * g + r < 4 * Groups(n) - Added(n)
    ensures Quarter(str[3 * g], str[3 * g + 1], str[3 * g + 2], r) < 64
    ensures Text(str, n)[4 * g + r] == Digit(Quarter(str[3 * g], str[3 * g + 1], str[3 * g + 2], r))
  {
    GroupCell(str, g, r);
  }

  lemma OneLeft(str: seq<Byte>, n: nat, g: nat)
    requires n + Added(n) <= |str| && n == 3 * g + 1
    ensures Text(str, n)[4 * g..] == Encode(str[3 * g..n]) <==> str[n] < 16
  {
    LastOne(str[3 * g], str[n]);
    assert str[3 * g..n] == [str[3 * g]];
    OneDigit(str, n, g, str[3 * g]);
  }

  lemma OneDigit(str: seq<Byte>, n: nat, g: nat, b0: Byte)
    requires n + Added(n) <= |str| && n == 3 * g + 1 && b0 == str[3 * g]
    ensures Text(str, n)[4 * g..] == [Digit(b0 / 4), Digit(b0 % 4 * 16 + str[n] / 16), PAD, PAD]
  {
    TextAt(str, n, g, 0);
    TextAt(str, n, g, 1);
    Four(Text(str, n), 4 * g, Digit(b0 / 4), Digit(b0 % 4 * 16 + str[n] / 16), PAD, PAD);
  }

  lemma Four(text: string, i: nat, a: char, b: char, c: char, d: char)
    requires i + 4 == |text| && text[i] == a && text[i + 1] == b && text[i + 2] == c && text[i + 3] == d
    ensures text[i..] == [a, b, c, d]
  {
  }

  lemma TwoDigits(str: seq<Byte>, n: nat, g: nat, b0: Byte, b1: Byte)
    requires n + Added(n) <= |str| && n == 3 * g + 2 && b0 == str[3 * g] && b1 == str[3 * g + 1]
    ensures Text(str, n)[4 * g..] == [Digit(b0 / 4), Digit(b0 % 4 * 16 + b1 / 16), Digit(b1 % 16 * 4 + str[n] / 64),
      PAD]
  {
    TextAt(str, n, g, 0);
    TextAt(str, n, g, 1);
    TextAt(str, n, g, 2);
    Four(Text(str, n), 4 * g, Digit(b0 / 4), Digit(b0 % 4 * 16 + b1 / 16), Digit(b1 % 16 * 4 + str[n] / 64), PAD);
  }

  lemma TwoLeft(str: seq<Byte>, n: nat, g: nat)
    requires n + Added(n) <= |str| && n == 3 * g + 2
    ensures Text(str, n)[4 * g..] == Encode(str[3 * g..n]) <==> str[n] < 64
  {
    var b0, b1 := str[3 * g], str[3 * g + 1];
    TwoDigits(str, n, g, b0, b1);
    LastTwo(b0, b1, str[n]);
    assert str[3 * g..n] == [b0, b1];
  }

  lemma FullGroup(str: seq<Byte>, n: nat, g: nat)
    requires n + Added(n) <= |str| && 3 * g + 3 <= n
    ensures Text(str, n)[4 * g..] == Encode(str[3 * g..n]) <==>
      Text(str, n)[4 * (g + 1)..] == Encode(str[3 * (g + 1)..n])
  {
    GroupText(str, n, g);
    GroupEncoded(str, n, g);
    SamePrefix(Digits4(str[3 * g], str[3 * g + 1], str[3 * g + 2]), Text(str, n)[4 * (g + 1)..],
               Encode(str[3 * (g + 1)..n]));
  }

  lemma GroupText(str: seq<Byte>, n: nat, g: nat)
    requires n + Added(n) <= |str| && 3 * g + 3 <= n
    ensures 4 * g + 4 <= |Text(str, n)|
    ensures Text(str, n)[4 * g..] == Digits4(str[3 * g], str[3 * g + 1], str[3 * g + 2]) + Text(str, n)[4 * (g + 1)..]
  {
    TextAt(str, n, g, 0);
    TextAt(str, n, g, 1);
    TextAt(str, n, g, 2);
    TextAt(str, n, g, 3);
  }

  lemma GroupEncoded(str: seq<Byte>, n: nat, g: nat)
    requires n <= |str| && 3 * g + 3 <= n
    ensures Encode(str[3 * g..n]) == Digits4(str[3 * g], str[3 * g + 1], str[3 * g + 2]) + Encode(str[3 * (g + 1)..n])
  {
    var rest := str[3 * g..n];
    EncodeGroup(rest);
    assert rest[3..] == str[3 * (g + 1)..n];
  }

  lemma SamePrefix(a: string, b: string, c: string)
    ensures a + b == a + c <==> b == c
  {
    assert (a + b)[|a|..] == b && (a + c)[|a|..] == c;
  }

  lemma {:induction false} TextFrom(str: seq<Byte>, n: nat, g: nat)
    requires n + Added(n) <= |str| && 3 * g <= n
    ensures Text(str, n)[4 * g..] == Encode(str[3 * g..n]) <==> Clean(str, n)
    decreases n - 3 * g
  {
    if n >= 3 * g + 3 {
      FullGroup(str, n, g);
      TextFrom(str, n, g + 1);
    } else if n == 3 * g + 1 {
      OneLeft(str, n, g);
    } else if n == 3 * g + 2 {
      TwoLeft(str, n, g);
    }
  }

  /** What the loop makes is the standard encoding exactly when the bits it takes from past the
      input are zero. */
  lemma TextExact(str: seq<Byte>, n: nat)
    requires n + Added(n) <= |str|
    ensures Text(str, n) == Encode(str[..n]) <==> Clean(str, n)
  {
    TextFrom(str, n, 0);
  }

  /** One byte that stands before a byte with upper bits set is not encoded as the standard says. */
  lemma ReadsPastTheInput()
    ensures Text([77, 255, 0], 1) != Encode([77])
  {
    var str: seq<Byte> := [77, 255, 0];
    TextExact(str, 1);
    assert str[..1] == [77];
  }
}
