// Text as the bytes of its UTF-8 encoding, one character for each byte.

module Utf8 {

  predicate Tail(c: char) {
    0x80 <= c as int <= 0xBF
  }

  predicate Ascii(c: char) {
    c as int <= 0x7F
  }

  // How many bytes the character that starts with `c` takes, if it can start one.
  function Size(c: char): nat {
    var b := c as int;
    if b <= 0x7F then 1
    else if 0xC2 <= b <= 0xDF then 2
    else if 0xE0 <= b <= 0xEF then 3
    else if 0xF0 <= b <= 0xF4 then 4
    else 0
  }

  // The second byte is restricted further after some first bytes.
  predicate Second(c: char, d: char) {
    match c as int
    case 0xE0 => 0xA0 <= d as int <= 0xBF
    case 0xED => 0x80 <= d as int <= 0x9F
    case 0xF0 => 0x90 <= d as int <= 0xBF
    case 0xF4 => 0x80 <= d as int <= 0x8F
    case _ => Tail(d)
  }

  /** Well-formed text (RFC 3629, section 3 and its grammar in section 4). */
  predicate WellFormed(s: string) {
    s == [] ||
    (var n := Size(s[0]);
     && 1 <= n <= |s|
     && (n >= 2 ==> Second(s[0], s[1]))
     && (forall k :: 2 <= k < n ==> Tail(s[k]))
     && WellFormed(s[n..]))
  }

  /** A string may be cut here. */
  predicate Boundary(s: string, k: nat) {
    k == 0 || k == |s| || (k < |s| && !Tail(s[k]))
  }

  /** No character continues after an ASCII byte. */
  lemma {:induction false} AfterAscii(s: string, k: nat)
    requires WellFormed(s) && k < |s| && Ascii(s[k])
    ensures k + 1 < |s| ==> !Tail(s[k + 1])
  {
    var n := Size(s[0]);
    if n <= k {
      AfterAscii(s[n..], k - n);
    } else if k + 1 < |s| {
      assert k == 0 && n == 1;
      assert WellFormed(s[1..]) && s[1..][0] == s[1];
    }
  }

  lemma EndBoundary(s: string)
    ensures Boundary(s, |s|)
  {
  }

  /** Text can be cut before and after an ASCII byte. */
  lemma AsciiBoundary(s: string, k: nat)
    requires WellFormed(s) && k < |s| && Ascii(s[k])
    ensures Boundary(s, k) && Boundary(s, k + 1)
  {
    AfterAscii(s, k);
  }
}
