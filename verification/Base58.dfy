/** The big-number loop that decodes a base-58 key (packages/atlasrails/src/funder.ts). */
module Base58 {
  import opened Prelude

  datatype DecodeError = NotASecretKey

  /** The index of `c` in the alphabet (Letter goes back), spelled by ranges: no 0, I, O or l. */
  function Digit(c: char): (r: Option<nat>)
    ensures r.Some? ==> r.value < 58
  {
    if '1' <= c <= '9' then Some(c as int - '1' as int)
    else if 'A' <= c <= 'H' then Some(9 + c as int - 'A' as int)
    else if 'J' <= c <= 'N' then Some(17 + c as int - 'J' as int)
    else if 'P' <= c <= 'Z' then Some(22 + c as int - 'P' as int)
    else if 'a' <= c <= 'k' then Some(33 + c as int - 'a' as int)
    else if 'm' <= c <= 'z' then Some(44 + c as int - 'm' as int)
    else None
  }

  /** The alphabet itself: 123456789ABCDEFGHJKLMNPQRSTUVWXYZabcdefghijkmnopqrstuvwxyz. */
  function Letter(digit: nat): (c: char)
    requires digit < 58
    ensures Digit(c) == Some(digit) && forall d :: Digit(d) == Some(digit) ==> d == c
  {
    if digit < 9 then '1' + digit as char
    else if digit < 17 then 'A' + (digit - 9) as char
    else if digit < 22 then 'J' + (digit - 17) as char
    else if digit < 33 then 'P' + (digit - 22) as char
    else if digit < 44 then 'a' + (digit - 33) as char
    else 'm' + (digit - 44) as char
  }

  const ALPHABET: string := "123456789" + ("ABCDEFGH" + ("JKLMN" + ("PQRSTUVWXYZ" + ("abcdefghijk" + "mnopqrstuvwxyz"))))

  lemma UpperLetters(d: nat)
    ensures d < 8 ==> "ABCDEFGH"[d] == 'A' + d as char
    ensures d < 5 ==> "JKLMN"[d] == 'J' + d as char
    ensures d < 11 ==> "PQRSTUVWXYZ"[d] == 'P' + d as char
  {
  }

  lemma LowerLetters(d: nat)
    ensures d < 9 ==> "123456789"[d] == '1' + d as char
    ensures d < 11 ==> "abcdefghijk"[d] == 'a' + d as char
    ensures d < 14 ==> "mnopqrstuvwxyz"[d] == 'm' + d as char
  {
  }

  /** The digits are the letters of the alphabet in its order, and nothing else is a digit. */
  lemma DigitIsIndex(c: char)
    ensures |ALPHABET| == 58
    ensures forall d :: 0 <= d < 58 ==> (Digit(c) == Some(d) <==> c == ALPHABET[d])
  {
    forall d | 0 <= d < 58
      ensures ALPHABET[d] == Letter(d)
    {
      AlphabetAt(d);
    }
    forall d | 0 <= d < 58
      ensures Digit(c) == Some(d) <==> c == Letter(d)
    {
    }
  }

  lemma AlphabetAt(d: nat)
    requires d < 58
    ensures |ALPHABET| == 58 && ALPHABET[d] == Letter(d)
  {
    if d < 9 {
      LowerLetters(d);
    } else if d < 17 {
      UpperLetters(d - 9);
    } else if d < 22 {
      UpperLetters(d - 17);
    } else if d < 33 {
      UpperLetters(d - 22);
    } else if d < 44 {
      LowerLetters(d - 33);
    } else {
      LowerLetters(d - 44);
    }
  }

  predicate InAlphabet(s: string) { forall c :: c in s ==> Digit(c).Some? }

  /** The number a string of digits denotes, most significant digit first. */
  function Value(s: string): nat
    requires InAlphabet(s)
  {
    if s == [] then 0 else Value(s[..|s| - 1]) * 58 + Digit(s[|s| - 1]).value
  }

  function BigEndian(b: Bytes): nat {
    if b == [] then 0 else BigEndian(b[..|b| - 1]) * 0x100 + b[|b| - 1]
  }

  function LeadingOnes(s: string): (n: nat)
    ensures n <= |s| && (n < |s| ==> s[n] != '1') && forall i :: 0 <= i < n ==> s[i] == '1'
  {
    if s == [] || s[0] != '1' then 0 else 1 + LeadingOnes(s[1..])
  }

  function Reverse(b: Bytes): (r: Bytes)
    ensures |r| == |b| && forall i :: 0 <= i < |b| ==> r[i] == b[|b| - 1 - i]
  {
    seq(|b|, i requires 0 <= i < |b| => b[|b| - 1 - i])
  }

  /** Little endian, with no needless zero byte on top. */
  predicate Tight(b: Bytes) { b == [0] || (|b| > 0 && b[|b| - 1] != 0) }

  /**
   * What a decoding is, without reference to the loop: the right number, behind as many zero bytes as
   * the string has leading '1's. The number zero itself takes one byte.
   */
  ghost predicate IsDecoding(s: string, out: Bytes) {
    && InAlphabet(s)
    && BigEndian(out) == Value(s)
    && exists body: Bytes :: out == Zeros(LeadingOnes(s)) + body && body != [] && (body == [0] || body[0] != 0)
  }

  method Decode(value: string) returns (r: Result<Bytes, DecodeError>)
    ensures r.Ok? <==> InAlphabet(value)
    ensures r.Ok? ==> IsDecoding(value, r.value)
  {
    var bytes: Bytes := [0];
    for i := 0 to |value|
      invariant InAlphabet(value[..i])
      invariant Tight(bytes) && LittleEndian(bytes) == Value(value[..i])
    {
      var digit := Digit(value[i]);
      if digit.None? {
        assert value[i] in value;
        return Err(NotASecretKey);
      }
      assert value[..i + 1] == value[..i] + [value[i]];
      assert value[..i + 1][..i] == value[..i];
      bytes := MultiplyAdd(bytes, digit.value);
    }
    assert value[..|value|] == value;
    var body := bytes;
    var ones := 0;
    while ones < |value| && value[ones] == '1'
      invariant 0 <= ones <= |value|
      invariant forall j :: 0 <= j < ones ==> value[j] == '1'
      invariant bytes == body + Zeros(ones)
      decreases |value| - ones
    {
      bytes := bytes + [0];
      ones := ones + 1;
      assert Zeros(ones) == Zeros(ones - 1) + [0];
    }
    Padded(value, body, ones);
    return Ok(Reverse(bytes));
  }

  /** The digits of the value, with a zero byte for each leading '1' on top, reversed: that is the decoding. */
  lemma Padded(s: string, body: Bytes, ones: nat)
    requires InAlphabet(s) && Tight(body) && LittleEndian(body) == Value(s)
    requires ones <= |s| && (forall j :: 0 <= j < ones ==> s[j] == '1') && (ones < |s| ==> s[ones] != '1')
    ensures IsDecoding(s, Reverse(body + Zeros(ones)))
  {
    var out := Reverse(body + Zeros(ones));
    assert ones == LeadingOnes(s);
    ReverseValue(body + Zeros(ones));
    PadValue(body, ones);
    assert out == Zeros(ones) + Reverse(body);
    assert Reverse(body)[0] == body[|body| - 1];
  }

  /** One round of the carry loop: bytes := bytes * 58 + digit, in place. */
  method MultiplyAdd(given: Bytes, digit: nat) returns (bytes: Bytes)
    requires Tight(given) && digit < 58
    ensures Tight(bytes) && LittleEndian(bytes) == LittleEndian(given) * 58 + digit
  {
    bytes := given;
    var carry := digit;
    for index := 0 to |given|
      invariant |bytes| == |given| && bytes[index..] == given[index..]
      invariant 0 <= carry < 58
      invariant LittleEndian(bytes[..index]) + Pow256(index) * (carry + 58 * LittleEndian(given[index..]))
             == LittleEndian(given) * 58 + digit
      invariant index == |given| && carry == 0 ==> Tight(bytes)
    {
      ghost var before := bytes;
      ghost var carried := carry;
      var byte: int := bytes[index];
      carry := carry + byte * 58;
      bytes := bytes[index := carry % 0x100];
      carry := carry / 0x100;
      CarryStep(before, bytes, given, index, byte, carried, carry);
    }
    assert bytes[..|given|] == bytes;
    ghost var low := bytes;
    ghost var top := carry;
    while carry > 0
      invariant 0 <= carry < 58
      invariant if carry == 0 then Tight(bytes) else bytes == low && carry == top
      invariant LittleEndian(bytes) + (if carry > 0 then Pow256(|low|) * carry else 0) == LittleEndian(given) * 58 + digit
      decreases carry
    {
      AppendValue(bytes, carry % 0x100);
      bytes := bytes + [carry % 0x100];
      carry := carry / 0x100;
    }
  }

  lemma {:induction false} AppendValue(b: Bytes, top: Byte)
    ensures LittleEndian(b + [top]) == LittleEndian(b) + Pow256(|b|) * top
  {
    if b == [] {
      assert b + [top] == [top];
      assert LittleEndian([top][1..]) == 0;
    } else {
      assert (b + [top])[1..] == b[1..] + [top];
      AppendValue(b[1..], top);
      assert Pow256(|b|) * top == 0x100 * (Pow256(|b| - 1) * top);
    }
  }

  lemma CarryStep(before: Bytes, after: Bytes, given: Bytes, index: nat, byte: int, carried: nat, carry: nat)
    requires |before| == |after| == |given| && index < |given| && byte == before[index]
    requires before[index..] == given[index..]
    requires Tight(given)
    requires carried < 58
    requires after == before[index := (carried + byte * 58) % 0x100]
    requires carry == (carried + byte * 58) / 0x100
    ensures carry < 58 && after[index + 1..] == given[index + 1..]
    ensures LittleEndian(after[..index + 1]) + Pow256(index + 1) * (carry + 58 * LittleEndian(given[index + 1..]))
         == LittleEndian(before[..index]) + Pow256(index) * (carried + 58 * LittleEndian(given[index..]))
    ensures index + 1 == |given| && carry == 0 ==> Tight(after)
  {
    var b, rest := byte, LittleEndian(given[index + 1..]);
    var low := (carried + b * 58) % 0x100;
    assert before[index..][0] == before[index] && given[index..][0] == b && given[index..][1..] == given[index + 1..];
    assert after[index + 1..] == before[index..][1..];
    assert after[..index + 1] == before[..index] + [low];
    AppendValue(before[..index], low);
    CarryArithmetic(Pow256(index), low, carry, carried, b, rest);
  }

  lemma CarryArithmetic(p: nat, low: nat, carry: nat, carried: nat, b: nat, rest: nat)
    requires low + 0x100 * carry == carried + b * 58
    ensures p * low + (0x100 * p) * (carry + 58 * rest) == p * (carried + 58 * (b + 0x100 * rest))
  {
    calc {
      p * low + (0x100 * p) * (carry + 58 * rest);
      p * low + p * (0x100 * (carry + 58 * rest));
      p * (low + 0x100 * (carry + 58 * rest));
      { assert low + 0x100 * (carry + 58 * rest) == carried + 58 * (b + 0x100 * rest); }
      p * (carried + 58 * (b + 0x100 * rest));
    }
  }

  lemma {:induction false} ReverseValue(b: Bytes)
    ensures BigEndian(Reverse(b)) == LittleEndian(b)
  {
    if b != [] {
      assert Reverse(b)[..|b| - 1] == Reverse(b[1..]);
      ReverseValue(b[1..]);
    }
  }

  lemma {:induction false} PadValue(b: Bytes, n: nat)
    ensures LittleEndian(b + Zeros(n)) == LittleEndian(b)
  {
    if n == 0 {
      assert b + Zeros(0) == b;
    } else {
      assert b + Zeros(n) == (b + Zeros(n - 1)) + [0];
      AppendValue(b + Zeros(n - 1), 0);
      PadValue(b, n - 1);
    }
  }

  // ---------------------------------------------------------------- the decoding loses nothing

  lemma LastDigit(s: string)
    requires s != [] && InAlphabet(s)
    ensures s[|s| - 1] in s && InAlphabet(s[..|s| - 1])
    ensures Value(s) % 58 == Digit(s[|s| - 1]).value && Value(s) / 58 == Value(s[..|s| - 1])
  {
    assert s[|s| - 1] in s;
    DivMod(Value(s[..|s| - 1]), Digit(s[|s| - 1]).value);
  }

  lemma SameDigit(c: char, d: char)
    requires Digit(c).Some? && Digit(c) == Digit(d)
    ensures c == d
  {
    var _ := Letter(Digit(c).value);
  }

  lemma DivMod(q: nat, r: nat)
    requires r < 58
    ensures (q * 58 + r) / 58 == q && (q * 58 + r) % 58 == r
  {
  }

  lemma {:induction false} DigitsUnique(s: string, t: string)
    requires InAlphabet(s) && InAlphabet(t) && Value(s) == Value(t)
    requires (s != [] ==> s[0] != '1') && (t != [] ==> t[0] != '1')
    ensures s == t
  {
    if s == [] || t == [] {
      PositiveValue(if s == [] then t else s);
    } else {
      LastDigit(s);
      LastDigit(t);
      DigitsUnique(s[..|s| - 1], t[..|t| - 1]);
      SameDigit(s[|s| - 1], t[|t| - 1]);
      assert s == s[..|s| - 1] + [s[|s| - 1]] && t == t[..|t| - 1] + [t[|t| - 1]];
    }
  }

  lemma {:induction false} PositiveValue(s: string)
    requires InAlphabet(s)
    ensures s != [] && s[0] != '1' ==> Value(s) > 0
  {
    if s != [] && s[0] != '1' {
      assert s[|s| - 1] in s;
      if |s| > 1 { PositiveValue(s[..|s| - 1]); }
    }
  }

  lemma {:induction false} LeadingOnesWorthless(s: string, n: nat)
    requires InAlphabet(s) && n <= LeadingOnes(s)
    ensures Value(s) == Value(s[n..])
    decreases |s|
  {
    if n == |s| {
      OnlyOnes(s);
      assert s[n..] == [];
    } else {
      var last := |s| - 1;
      assert s[last] in s;
      assert s[n..][..|s[n..]| - 1] == s[..last][n..];
      OnesOfPrefix(s, n);
      LeadingOnesWorthless(s[..last], n);
    }
  }

  lemma {:induction false} OnesOfPrefix(s: string, n: nat)
    requires n <= LeadingOnes(s) && n < |s|
    ensures n <= LeadingOnes(s[..|s| - 1])
  {
    var ones := LeadingOnes(s[..|s| - 1]);
    assert ones < |s| - 1 ==> s[ones] != '1';
  }

  lemma {:induction false} OnlyOnes(s: string)
    requires InAlphabet(s) && forall i :: 0 <= i < |s| ==> s[i] == '1'
    ensures Value(s) == 0
  {
    if s != [] { OnlyOnes(s[..|s| - 1]); }
  }

  lemma {:induction false} PositiveBytes(b: Bytes)
    ensures b != [] && b[0] != 0 ==> BigEndian(b) > 0
  {
    if |b| > 1 { PositiveBytes(b[..|b| - 1]); }
  }

  lemma {:induction false} LeadingZerosWorthless(n: nat, b: Bytes)
    ensures BigEndian(Zeros(n) + b) == BigEndian(b)
    decreases |b|, n
  {
    var all := Zeros(n) + b;
    if b != [] {
      assert all[..|all| - 1] == Zeros(n) + b[..|b| - 1];
      LeadingZerosWorthless(n, b[..|b| - 1]);
    } else if n > 0 {
      assert all[..n - 1] == Zeros(n - 1) + b;
      LeadingZerosWorthless(n - 1, b);
    } else {
      assert all == b;
    }
  }

  lemma {:induction false} BytesUnique(a: Bytes, b: Bytes)
    requires BigEndian(a) == BigEndian(b)
    requires (a != [] ==> a[0] != 0) && (b != [] ==> b[0] != 0)
    ensures a == b
  {
    if a == [] || b == [] {
      PositiveBytes(if a == [] then b else a);
    } else {
      BytesUnique(a[..|a| - 1], b[..|b| - 1]);
      assert a == a[..|a| - 1] + [a[|a| - 1]] == b[..|b| - 1] + [b[|b| - 1]] == b;
    }
  }

  lemma ZeroValueIff(s: string)
    requires InAlphabet(s)
    ensures Value(s) == 0 <==> LeadingOnes(s) == |s|
  {
    LeadingOnesWorthless(s, LeadingOnes(s));
    if LeadingOnes(s) < |s| { PositiveValue(s[LeadingOnes(s)..]); }
  }

  lemma ZeroBody(body: Bytes)
    requires body != [] && (body == [0] || body[0] != 0)
    ensures BigEndian(body) == 0 <==> body == [0]
  {
    PositiveBytes(body);
    assert BigEndian([0]) == BigEndian([0][..0]) * 0x100;
  }

  /** A nonzero value is preceded by exactly as many zero bytes as the string has leading '1's. */
  lemma LeadingZeroCount(s: string, out: Bytes)
    requires IsDecoding(s, out)
    ensures Value(s) > 0 ==> LeadingOnes(s) < |out| && out[LeadingOnes(s)] != 0
    ensures Value(s) > 0 ==> forall i :: 0 <= i < LeadingOnes(s) ==> out[i] == 0
    ensures Value(s) == 0 <==> LeadingOnes(s) == |s|
    ensures Value(s) == 0 ==> out == Zeros(|s| + 1)
  {
    var ones := LeadingOnes(s);
    var body :| out == Zeros(ones) + body && body != [] && (body == [0] || body[0] != 0);
    LeadingZerosWorthless(ones, body);
    ZeroBody(body);
    ZeroValueIff(s);
  }

  /** A string has one decoding: the specification leaves the loop no choice. */
  lemma DecodingUnique(s: string, a: Bytes, b: Bytes)
    requires IsDecoding(s, a) && IsDecoding(s, b)
    ensures a == b
  {
    var ones := LeadingOnes(s);
    LeadingZeroCount(s, a);
    LeadingZeroCount(s, b);
    if Value(s) > 0 {
      assert a == Zeros(ones) + a[ones..] && b == Zeros(ones) + b[ones..];
      LeadingZerosWorthless(ones, a[ones..]);
      LeadingZerosWorthless(ones, b[ones..]);
      BytesUnique(a[ones..], b[ones..]);
    }
  }

  /** No two strings decode to the same bytes. */
  lemma DecodingInjective(s: string, t: string, out: Bytes)
    requires IsDecoding(s, out) && IsDecoding(t, out)
    ensures s == t
  {
    LeadingZeroCount(s, out);
    LeadingZeroCount(t, out);
    if Value(s) == 0 {
      assert |s| + 1 == |out| == |t| + 1;
      assert s == t;
    } else {
      SameOnesSameValue(s, t);
    }
  }

  lemma SameOnesSameValue(s: string, t: string)
    requires InAlphabet(s) && InAlphabet(t) && Value(s) == Value(t) && LeadingOnes(s) == LeadingOnes(t)
    ensures s == t
  {
    var n := LeadingOnes(s);
    LeadingOnesWorthless(s, n);
    LeadingOnesWorthless(t, n);
    DigitsUnique(s[n..], t[n..]);
    SameHeadSameTail(s, t, n);
  }

  lemma SameHeadSameTail(s: string, t: string, n: nat)
    requires n <= |s| && n <= |t| && s[n..] == t[n..]
    requires forall i :: 0 <= i < n ==> s[i] == t[i]
    ensures s == t
  {
    assert s[..n] == t[..n];
    assert s == s[..n] + s[n..] && t == t[..n] + t[n..];
  }

  /** Differs from common Base58, where "1" stands for a single zero byte: here it is two. */
  lemma OneDecodesToTwoBytes(out: Bytes)
    requires IsDecoding("1", out)
    ensures out == [0, 0]
  {
    LeadingZeroCount("1", out);
    assert Value("1"[..0]) == 0;
  }
}
