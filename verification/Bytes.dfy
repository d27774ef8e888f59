/** Bytes, ASCII classes and the UTF-8 boundaries of text. The scanners work on bytes and cut only at places
    where a string may be sliced: every place they cut is the start of the text, its end, or next to an ASCII
    byte. */
module Bytes {

  type Byte = n: nat | n < 256

  /** The bytes of an ASCII literal. */
  function Ascii(s: string): seq<Byte> {
    seq(|s|, i requires 0 <= i < |s| => (s[i] as int) % 128)
  }

  predicate IsAsciiWhitespace(b: Byte) {
    b == 9 || b == 10 || b == 12 || b == 13 || b == 32
  }

  predicate IsAsciiControl(b: Byte) {
    b < 32 || b == 127
  }

  predicate IsAsciiDigit(b: Byte) {
    48 <= b <= 57
  }

  predicate IsAsciiAlphanumeric(b: Byte) {
    IsAsciiDigit(b) || 65 <= b <= 90 || 97 <= b <= 122
  }

  predicate IsContinuation(b: Byte) {
    128 <= b < 192
  }

  /** Where `str` slicing may cut. */
  predicate IsBoundary(text: seq<Byte>, i: nat) {
    i == 0 || i == |text| || (i < |text| && !IsContinuation(text[i]))
  }

  /** The length a lead byte announces, 0 for a byte that leads nothing. */
  function EncodedLength(lead: Byte): nat {
    if lead < 0x80 then 1
    else if 0xC2 <= lead < 0xE0 then 2
    else if 0xE0 <= lead < 0xF0 then 3
    else if 0xF0 <= lead < 0xF5 then 4
    else 0
  }

  /** Text is a sequence of encodings, each a lead byte and the continuation bytes it announces. */
  predicate IsText(text: seq<Byte>) {
    text == [] ||
    (var n := EncodedLength(text[0]);
     && 0 < n <= |text|
     && (forall i :: 1 <= i < n ==> IsContinuation(text[i]))
     && IsText(text[n..]))
  }

  /** In text, what follows an ASCII byte starts a character. */
  lemma {:induction false} AsciiEndsCharacter(text: seq<Byte>, i: nat)
    requires IsText(text) && i < |text| && text[i] < 0x80
    ensures IsBoundary(text, i + 1)
    decreases |text|
  {
    var n := EncodedLength(text[0]);
    if i >= n {
      AsciiEndsCharacter(text[n..], i - n);
      if i + 1 < |text| { assert text[n..][i - n + 1] == text[i + 1]; }
    } else {
      assert i == 0;
      if 1 < |text| { assert text[n..] != [] && text[n..][0] == text[1]; }
    }
  }
}
