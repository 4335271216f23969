/** `generateActivationCode` (backend/routes/auth.js): the first five characters of the lowercase
    hexadecimal form of three random bytes. The bytes are a parameter: randomness is left out. */
module ActivationCode {

  newtype byte = x: int | 0 <= x < 256

  /** The lowercase hexadecimal digit of a nibble. */
  function Digit(n: int): (c: char)
    requires 0 <= n < 16
    ensures IsHexDigit(c)
  {
    if n < 10 then (48 + n) as char else (87 + n) as char
  }

  predicate IsHexDigit(c: char)
  {
    '0' <= c <= '9' || 'a' <= c <= 'f'
  }

  /** The nibble a lowercase hexadecimal digit stands for. */
  function DigitValue(c: char): (n: int)
    requires IsHexDigit(c)
    ensures 0 <= n < 16 && Digit(n) == c
  {
    if c <= '9' then c as int - 48 else c as int - 87
  }

  /** `Buffer.toString("hex")`: two digits per byte, high nibble first. */
  function Hex(bytes: seq<byte>): (s: string)
    ensures |s| == 2 * |bytes|
    ensures forall i :: 0 <= i < |s| ==> IsHexDigit(s[i])
    ensures forall i :: 0 <= i < |bytes| ==>
      s[2 * i] == Digit(bytes[i] as int / 16) && s[2 * i + 1] == Digit(bytes[i] as int % 16)
  {
    if |bytes| == 0 then ""
    else [Digit(bytes[0] as int / 16), Digit(bytes[0] as int % 16)] + Hex(bytes[1..])
  }

  /** Reads back a string of hexadecimal digit pairs. */
  function Unhex(s: string): seq<byte>
    requires |s| % 2 == 0
    requires forall i :: 0 <= i < |s| ==> IsHexDigit(s[i])
  {
    if |s| == 0 then []
    else [(16 * DigitValue(s[0]) + DigitValue(s[1])) as byte] + Unhex(s[2..])
  }

  /** The hexadecimal form loses nothing: reading it back gives the bytes. */
  lemma {:induction false} UnhexHex(bytes: seq<byte>)
    ensures Unhex(Hex(bytes)) == bytes
  {
    if |bytes| > 0 {
      var s := Hex(bytes);
      assert s[2..] == Hex(bytes[1..]);
      UnhexHex(bytes[1..]);
      var b := bytes[0] as int;
      assert DigitValue(s[0]) == b / 16 && DigitValue(s[1]) == b % 16;
      assert bytes == [bytes[0]] + bytes[1..];
    }
  }

  /** `crypto.randomBytes(3).toString("hex").slice(0, 5)`. */
  function Generate(randomBytes: seq<byte>): (code: string)
    requires |randomBytes| == 3
    ensures |code| == 5
    ensures forall i :: 0 <= i < 5 ==> IsHexDigit(code[i])
    ensures code == Hex(randomBytes[..2]) + [Digit(randomBytes[2] as int / 16)]
  {
    var s := Hex(randomBytes);
    assert Hex(randomBytes[..2]) == s[..4];
    s[..5]
  }

  /** Two draws give the same code exactly when they agree on the first two bytes and on the
      high nibble of the third: the low nibble of the third byte is thrown away. */
  lemma GenerateCollision(a: seq<byte>, b: seq<byte>)
    requires |a| == 3 && |b| == 3
    ensures Generate(a) == Generate(b)
        <==> a[0] == b[0] && a[1] == b[1] && a[2] as int / 16 == b[2] as int / 16
  {
    var ca, cb := Generate(a), Generate(b);
    if a[0] == b[0] && a[1] == b[1] && a[2] as int / 16 == b[2] as int / 16 {
      assert a[..2] == b[..2];
    }
    if ca == cb {
      forall i | 0 <= i < 2
        ensures a[i] == b[i]
      {
        assert ca[2 * i] == cb[2 * i] && ca[2 * i + 1] == cb[2 * i + 1];
        assert DigitValue(ca[2 * i]) == a[i] as int / 16 && DigitValue(cb[2 * i]) == b[i] as int / 16;
        assert DigitValue(ca[2 * i + 1]) == a[i] as int % 16 && DigitValue(cb[2 * i + 1]) == b[i] as int % 16;
      }
      assert DigitValue(ca[4]) == a[2] as int / 16 && DigitValue(cb[4]) == b[2] as int / 16;
    }
  }
}
