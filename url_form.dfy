/**
 * `URLSearchParams.prototype.toString`: the application/x-www-form-urlencoded
 * serializer of section 5.2 of the WHATWG URL Standard. Each name and value is
 * UTF-8 encoded; ASCII alphanumerics and `*-._` are kept, a space becomes `+`,
 * every other byte becomes `%XX` with upper-case hex digits; pairs are joined
 * as `name=value` with `&` between them.
 */
module UrlForm {
  import opened Js

  /** The characters the serializer leaves as they are. */
  predicate IsUnreserved(c: char)
  {
    ('a' <= c <= 'z') || ('A' <= c <= 'Z') || IsDigit(c) || c == '*' || c == '-' || c == '.' || c == '_'
  }

  /** UTF-8 encoding of one Unicode scalar value. */
  function Utf8(c: char): (bytes: seq<nat>)
    ensures 1 <= |bytes| <= 4
    ensures forall i :: 0 <= i < |bytes| ==> bytes[i] < 256
    ensures (c as int < 0x80) <==> |bytes| == 1
  {
    var n := c as int;
    if n < 0x80 then [n]
    else if n < 0x800 then [0xC0 + n / 64, 0x80 + n % 64]
    else if n < 0x10000 then [0xE0 + n / 4096, 0x80 + (n / 64) % 64, 0x80 + n % 64]
    else [0xF0 + n / 262144, 0x80 + (n / 4096) % 64, 0x80 + (n / 64) % 64, 0x80 + n % 64]
  }

  function HexDigit(d: nat): (c: char)
    requires d < 16
  {
    if d < 10 then DigitChar(d) else ('A' as int + d - 10) as char
  }

  function PercentBytes(bytes: seq<nat>): (r: string)
    requires forall i :: 0 <= i < |bytes| ==> bytes[i] < 256
    ensures |r| == 3 * |bytes|
  {
    if bytes == [] then ""
    else ['%', HexDigit(bytes[0] / 16), HexDigit(bytes[0] % 16)] + PercentBytes(bytes[1..])
  }

  function EncodeChar(c: char): (r: string)
    ensures |r| >= 1
    ensures IsUnreserved(c) ==> r == [c]
    ensures c == ' ' ==> r == "+"
    ensures !IsUnreserved(c) && c != ' ' ==> r[0] == '%'
  {
    if IsUnreserved(c) then [c]
    else if c == ' ' then "+"
    else PercentBytes(Utf8(c))
  }

  /** The form-urlencoded byte serializer applied to one name or value. */
  function Encode(s: string): (r: string)
    ensures |r| >= |s|
  {
    if s == [] then "" else EncodeChar(s[0]) + Encode(s[1..])
  }

  /** A name or value made only of unreserved characters is written out as it is. */
  lemma {:induction false} EncodeUnreserved(s: string)
    requires forall i :: 0 <= i < |s| ==> IsUnreserved(s[i])
    ensures Encode(s) == s
  {
    if s != [] {
      EncodeUnreserved(s[1..]);
    }
  }

  /** The encoding never contains a raw `&` or `=`, so pairs stay separable. */
  lemma {:induction false} EncodeHasNoDelimiters(s: string)
    ensures forall i :: 0 <= i < |Encode(s)| ==> Encode(s)[i] != '&' && Encode(s)[i] != '='
  {
    if s != [] {
      EncodeHasNoDelimiters(s[1..]);
      var c := s[0];
      if !IsUnreserved(c) && c != ' ' {
        PercentBytesAlphabet(Utf8(c));
      }
    }
  }

  lemma {:induction false} PercentBytesAlphabet(bytes: seq<nat>)
    requires forall i :: 0 <= i < |bytes| ==> bytes[i] < 256
    ensures forall i :: 0 <= i < |PercentBytes(bytes)| ==> PercentBytes(bytes)[i] != '&' && PercentBytes(bytes)[i] != '='
  {
    if bytes != [] {
      PercentBytesAlphabet(bytes[1..]);
    }
  }

  function Pair(name: string, value: string): string
  {
    Encode(name) + "=" + Encode(value)
  }

  /** `URLSearchParams.toString()` over the appended pairs, in order. */
  function Serialize(pairs: seq<(string, string)>): (r: string)
    ensures pairs == [] <==> r == ""
  {
    if pairs == [] then ""
    else if |pairs| == 1 then Pair(pairs[0].0, pairs[0].1)
    else Pair(pairs[0].0, pairs[0].1) + "&" + Serialize(pairs[1..])
  }
}
