/** `String::from_utf8`: strict UTF-8 validation and decoding (shortest
    forms only, no surrogates, nothing above U+10FFFF). */
module Utf8 {
  import opened Wrappers

  type byte = b: int | 0 <= b < 256

  predicate IsContinuation(b: byte) { 0x80 <= b < 0xC0 }

  function Prepend(c: char, rest: Option<string>): Option<string> {
    match rest
    case None => None
    case Some(s) => Some([c] + s)
  }

  /** Allowed range of the second byte of a three- or four-byte sequence,
      which rules out overlong forms, surrogates and code points past U+10FFFF. */
  predicate SecondByteOk(b0: byte, b1: byte) {
    if b0 == 0xE0 then 0xA0 <= b1 < 0xC0
    else if b0 == 0xED then 0x80 <= b1 < 0xA0
    else if b0 == 0xF0 then 0x90 <= b1 < 0xC0
    else if b0 == 0xF4 then 0x80 <= b1 < 0x90
    else IsContinuation(b1)
  }

  function FromUtf8(bs: seq<byte>): Option<string>
    decreases |bs|
  {
    if bs == [] then Some("")
    else if bs[0] < 0x80 then
      Prepend(bs[0] as char, FromUtf8(bs[1..]))
    else if 0xC2 <= bs[0] < 0xE0 then
      if |bs| >= 2 && IsContinuation(bs[1]) then
        Prepend(((bs[0] as int - 0xC0) * 64 + (bs[1] as int - 0x80)) as char, FromUtf8(bs[2..]))
      else None
    else if 0xE0 <= bs[0] < 0xF0 then
      if |bs| >= 3 && SecondByteOk(bs[0], bs[1]) && IsContinuation(bs[2]) then
        Prepend(((bs[0] as int - 0xE0) * 4096 + (bs[1] as int - 0x80) * 64 + (bs[2] as int - 0x80)) as char,
                FromUtf8(bs[3..]))
      else None
    else if 0xF0 <= bs[0] < 0xF5 then
      if |bs| >= 4 && SecondByteOk(bs[0], bs[1]) && IsContinuation(bs[2]) && IsContinuation(bs[3]) then
        Prepend(((bs[0] as int - 0xF0) * 262144 + (bs[1] as int - 0x80) * 4096 + (bs[2] as int - 0x80) * 64 + (bs[3] as int - 0x80)) as char,
                FromUtf8(bs[4..]))
      else None
    else None
  }

  predicate IsAscii(bs: seq<byte>) {
    forall i :: 0 <= i < |bs| ==> bs[i] < 0x80
  }

  /** Every all-ASCII byte string is valid UTF-8 and decodes byte for byte. */
  lemma {:induction false} AsciiDecodes(bs: seq<byte>)
    requires IsAscii(bs)
    ensures FromUtf8(bs).Some?
    ensures |FromUtf8(bs).value| == |bs|
    ensures forall i :: 0 <= i < |bs| ==> FromUtf8(bs).value[i] as int == bs[i]
  {
    if bs != [] {
      assert IsAscii(bs[1..]) by {
        forall i | 0 <= i < |bs[1..]| ensures bs[1..][i] < 0x80 { assert bs[1..][i] == bs[i + 1]; }
      }
      AsciiDecodes(bs[1..]);
      var s := FromUtf8(bs).value;
      assert s == [bs[0] as char] + FromUtf8(bs[1..]).value;
      forall i | 0 <= i < |bs| ensures s[i] as int == bs[i] {
        if i > 0 { assert s[i] == FromUtf8(bs[1..]).value[i - 1]; assert bs[1..][i - 1] == bs[i]; }
      }
    }
  }

  /** Bytes that open with a continuation byte are not UTF-8. */
  lemma StrayContinuationRejected(bs: seq<byte>)
    requires |bs| >= 1 && IsContinuation(bs[0])
    ensures FromUtf8(bs) == None
  {
  }
}
