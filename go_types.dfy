/** Fixed-width Go types used by the configuration structs, and the
    20-byte account address with its textual form. */
module GoTypes {

  /** Go `int64`. */
  newtype int64 = x: int | -0x8000_0000_0000_0000 <= x < 0x8000_0000_0000_0000

  /** Go `uint16`. */
  newtype uint16 = x: int | 0 <= x < 0x1_0000

  /** Go `byte`. */
  newtype byte = x: int | 0 <= x < 0x100

  const AddressLength: nat := 20

  /** An account address: a fixed array of 20 bytes. */
  type Address = a: seq<byte> | |a| == AddressLength witness [0, 0, 0, 0, 0, 0, 0, 0, 0, 0, 0, 0, 0, 0, 0, 0, 0, 0, 0, 0]

  /** The zero value of an address, as Go gives a declared but unset one. */
  const ZeroAddress: Address := [0, 0, 0, 0, 0, 0, 0, 0, 0, 0, 0, 0, 0, 0, 0, 0, 0, 0, 0, 0]

  function Max(x: int64, y: int64): (m: int64)
    ensures m >= x && m >= y
    ensures m == x || m == y
  {
    if x <= y then y else x
  }

  /** The lower-case hexadecimal digit for a value below 16. */
  function HexDigit(n: int): (c: char)
    requires 0 <= n < 16
    ensures '0' <= c <= '9' || 'a' <= c <= 'f'
  {
    if n < 10 then ('0' as int + n) as char else ('a' as int + n - 10) as char
  }

  /** The value of a lower-case hexadecimal digit; the inverse of HexDigit. */
  function HexValue(c: char): (n: int)
    requires '0' <= c <= '9' || 'a' <= c <= 'f'
    ensures 0 <= n < 16
    ensures HexDigit(n) == c
  {
    if c <= '9' then c as int - '0' as int else c as int - 'a' as int + 10
  }

  /** The hexadecimal digit at position `i` of the digits of `bs`: two per
      byte, high nibble first. */
  function NibbleDigit(bs: seq<byte>, i: int): char
    requires 0 <= i < 2 * |bs|
  {
    var b := bs[i / 2] as int;
    if i % 2 == 0 then HexDigit(b / 16) else HexDigit(b % 16)
  }

  function LowerHex(bs: seq<byte>): (h: string)
    ensures |h| == 2 * |bs|
  {
    seq(2 * |bs|, i requires 0 <= i < 2 * |bs| => NibbleDigit(bs, i))
  }

  /** The textual form of an address: "0x" followed by 40 hexadecimal digits. */
  function AddressString(a: Address): (s: string)
    ensures |s| == 2 + 2 * AddressLength
    ensures s[..2] == "0x"
  {
    "0x" + LowerHex(a)
  }

  /** Each digit value has exactly one digit. */
  lemma HexDigitInjective(m: int, n: int)
    requires 0 <= m < 16 && 0 <= n < 16
    ensures HexDigit(m) == HexDigit(n) <==> m == n
  {
    if HexDigit(m) == HexDigit(n) {
      assert HexValue(HexDigit(m)) == m;
      assert HexValue(HexDigit(n)) == n;
    }
  }

  /** Hex encoding of equally long byte strings loses nothing. */
  lemma LowerHexInjective(a: seq<byte>, b: seq<byte>)
    requires |a| == |b|
    ensures LowerHex(a) == LowerHex(b) <==> a == b
  {
    if LowerHex(a) == LowerHex(b) {
      forall k | 0 <= k < |a|
        ensures a[k] == b[k]
      {
        assert LowerHex(a)[2 * k] == LowerHex(b)[2 * k];
        assert LowerHex(a)[2 * k + 1] == LowerHex(b)[2 * k + 1];
        HexDigitInjective(a[k] as int / 16, b[k] as int / 16);
        HexDigitInjective(a[k] as int % 16, b[k] as int % 16);
      }
    }
  }

  /** Comparing the textual forms of two addresses compares the addresses. */
  lemma AddressStringInjective(a: Address, b: Address)
    ensures AddressString(a) == AddressString(b) <==> a == b
  {
    if AddressString(a) == AddressString(b) {
      assert AddressString(a)[2..] == LowerHex(a);
      assert AddressString(b)[2..] == LowerHex(b);
      LowerHexInjective(a, b);
    }
  }
}
