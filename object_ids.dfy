/**
 * MongoDB object ids as the core sees them: twelve bytes, compared by value,
 * and displayed (the `Display` impl the `format!` calls use) as 24 lower-case
 * hexadecimal digits, the high nibble of each byte first.
 */
module ObjectIds {

  type Byte = x: int | 0 <= x < 256

  type ObjectId = b: seq<Byte> | |b| == 12 witness [0, 0, 0, 0, 0, 0, 0, 0, 0, 0, 0, 0]

  predicate IsHexDigit(c: char)
  {
    '0' <= c <= '9' || 'a' <= c <= 'f'
  }

  predicate IsHexText(s: string)
  {
    forall i :: 0 <= i < |s| ==> IsHexDigit(s[i])
  }

  /** The lower-case digit for a nibble. */
  function HexDigit(v: int): (c: char)
    requires 0 <= v < 16
    ensures IsHexDigit(c)
  {
    if v < 10 then ('0' as int + v) as char else ('a' as int + v - 10) as char
  }

  /** The nibble a lower-case digit stands for; the inverse of HexDigit. */
  function HexValue(c: char): (v: int)
    requires IsHexDigit(c)
    ensures 0 <= v < 16 && HexDigit(v) == c
  {
    if c <= '9' then c as int - '0' as int else c as int - 'a' as int + 10
  }

  lemma HexValueOfDigit(v: int)
    requires 0 <= v < 16
    ensures HexValue(HexDigit(v)) == v
  {
  }

  /** Hexadecimal text of a byte string: two digits per byte, high nibble first. */
  function ToHex(bytes: seq<Byte>): (text: string)
    ensures |text| == 2 * |bytes|
    ensures IsHexText(text)
  {
    if bytes == [] then ""
    else [HexDigit(bytes[0] / 16), HexDigit(bytes[0] % 16)] + ToHex(bytes[1..])
  }

  /** Reads hexadecimal text back into bytes, two digits per byte. */
  function FromHex(text: string): (bytes: seq<Byte>)
    requires |text| % 2 == 0 && IsHexText(text)
    ensures |bytes| == |text| / 2
  {
    if text == [] then []
    else [16 * HexValue(text[0]) + HexValue(text[1])] + FromHex(text[2..])
  }

  lemma {:induction false} FromHexToHex(bytes: seq<Byte>)
    ensures FromHex(ToHex(bytes)) == bytes
  {
    if bytes != [] {
      var b := bytes[0];
      assert ToHex(bytes)[2..] == ToHex(bytes[1..]);
      HexValueOfDigit(b / 16);
      HexValueOfDigit(b % 16);
      FromHexToHex(bytes[1..]);
    }
  }

  lemma {:induction false} ToHexFromHex(text: string)
    requires |text| % 2 == 0 && IsHexText(text)
    ensures ToHex(FromHex(text)) == text
  {
    if text != [] {
      var b := 16 * HexValue(text[0]) + HexValue(text[1]);
      assert b / 16 == HexValue(text[0]) && b % 16 == HexValue(text[1]);
      ToHexFromHex(text[2..]);
      assert text == [text[0], text[1]] + text[2..];
    }
  }

  /** `ObjectId`'s `Display`: 24 lower-case hexadecimal digits. */
  function Display(id: ObjectId): (text: string)
    ensures |text| == 24 && IsHexText(text)
    ensures FromHex(text) == id
  {
    FromHexToHex(id);
    ToHex(id)
  }

  /** Distinct ids are displayed differently, so keying maps by the displayed text (as server.rs does) is keying by the id. */
  lemma DisplayInjective(a: ObjectId, b: ObjectId)
    ensures Display(a) == Display(b) <==> a == b
  {
  }
}
