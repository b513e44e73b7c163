/**
 * `base36encode`: a non-negative Python integer written in base 36 with the digits
 * 0-9 then a-z, most significant first, and "0" for zero.
 */
module Base36 {
  import opened Wrappers

  /** The argument as the function sees it: an `int` (a `bool` is one too, as 0 or 1) or anything else. */
  datatype PyValue = PyInt(n: int) | NotInt

  /** The two exceptions the function raises on bad input. */
  datatype EncodeError = TypeError | ValueError

  const Alphabet: string := "0123456789abcdefghijklmnopqrstuvwxyz"

  /** The digits the `while number:` loop produces: none for 0, else the digits of n / 36 and then n % 36. */
  function Digits(n: nat): (r: string)
    decreases n
  {
    if n == 0 then [] else Digits(n / 36) + [Alphabet[n % 36]]
  }

  /** The encoding of a non-negative integer: "0" for zero, the loop's digits otherwise. */
  function Encode(n: nat): string {
    if n == 0 then "0" else Digits(n)
  }

  /** The position of a digit in the alphabet. */
  function DigitValue(c: char): (d: nat)
    requires c in Alphabet
    ensures d < 36 && Alphabet[d] == c
  {
    if '0' <= c <= '9' then c as int - '0' as int else c as int - 'a' as int + 10
  }

  /** Reads a string of alphabet characters back as a base-36 number. */
  function Decode(s: string): nat
    requires forall c | c in s :: c in Alphabet
  {
    if s == [] then 0 else Decode(s[..|s| - 1]) * 36 + DigitValue(s[|s| - 1])
  }

  /** What `base36encode` returns: digits of the alphabet only, no leading zero except "0" itself. */
  predicate Canonical(s: string) {
    s != [] && (forall c | c in s :: c in Alphabet) && (s[0] == '0' ==> s == "0")
  }

  /** The function: TypeError for a non-integer, ValueError for a negative one, the digits otherwise. */
  method Base36Encode(number: PyValue) returns (r: Result<string, EncodeError>)
    ensures number.NotInt? ==> r == Err(TypeError)
    ensures number.PyInt? && number.n < 0 ==> r == Err(ValueError)
    ensures number.PyInt? && number.n >= 0 ==> r == Ok(Encode(number.n))
  {
    if number.NotInt? {
      return Err(TypeError);
    }
    var m := number.n;
    if m < 0 {
      return Err(ValueError);
    }
    if m == 0 {
      return Ok("0");
    }
    assert Encode(number.n) == Digits(number.n);
    var base36 := "";
    while m != 0
      invariant 0 <= m
      invariant Digits(number.n) == Digits(m) + base36
      decreases m
    {
      var i := m % 36;
      m := m / 36;
      base36 := [Alphabet[i]] + base36;
    }
    assert Digits(m) + base36 == base36;
    return Ok(base36);
  }

  lemma {:induction false} DigitsInAlphabet(n: nat)
    ensures forall c | c in Digits(n) :: c in Alphabet
    ensures n > 0 ==> Digits(n) != [] && Digits(n)[0] != '0'
    decreases n
  {
    if n > 0 {
      DigitsInAlphabet(n / 36);
      if n / 36 == 0 {
        assert Digits(n) == [Alphabet[n % 36]];
        assert n % 36 != 0;
      } else {
        assert Digits(n)[0] == Digits(n / 36)[0];
      }
    }
  }

  lemma {:induction false} DecodeDigits(n: nat)
    ensures forall c | c in Digits(n) :: c in Alphabet
    ensures Decode(Digits(n)) == n
    decreases n
  {
    DigitsInAlphabet(n);
    if n > 0 {
      DecodeDigits(n / 36);
      var s := Digits(n);
      assert s[..|s| - 1] == Digits(n / 36);
    }
  }

  /** Every encoding is canonical and reads back as the number encoded. */
  lemma EncodeRoundTrip(n: nat)
    ensures Canonical(Encode(n))
    ensures Decode(Encode(n)) == n
  {
    DigitsInAlphabet(n);
    DecodeDigits(n);
  }

  lemma {:induction false} DigitsOfDecode(s: string)
    requires forall c | c in s :: c in Alphabet
    requires s != [] ==> s[0] != '0'
    ensures Digits(Decode(s)) == s
    decreases |s|
  {
    if s != [] {
      var p := s[..|s| - 1];
      var d := DigitValue(s[|s| - 1]);
      assert forall c | c in p :: c in s;
      DigitsOfDecode(p);
      assert Decode(s) / 36 == Decode(p) && Decode(s) % 36 == d;
      assert s == p + [s[|s| - 1]];
    }
  }

  /** Every canonical string is the encoding of exactly one number, the one it decodes to. */
  lemma EncodeDecode(s: string)
    requires Canonical(s)
    ensures Encode(Decode(s)) == s
  {
    if s == "0" {
      assert Decode(s) == Decode([]) * 36 + DigitValue('0');
    } else {
      DigitsOfDecode(s);
    }
  }

  /** Distinct numbers get distinct strings. */
  lemma EncodeInjective(a: nat, b: nat)
    ensures Encode(a) == Encode(b) <==> a == b
  {
    EncodeRoundTrip(a);
    EncodeRoundTrip(b);
  }

  lemma EncodeExamples()
    ensures Encode(0) == "0" && Encode(35) == "z" && Encode(36) == "10" && Encode(1295) == "zz"
  {
    assert Digits(0) == [];
    assert Digits(1) == "1";
    assert Digits(35) == "z";
    assert Digits(36) == "10";
    assert Digits(1295) == Digits(35) + "z";
  }
}
