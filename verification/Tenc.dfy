/**
 * The password encoding of the camera's web page (application/services/connect_service.py:65-80): Base64 in the
 * URL alphabet, unpadded, behind two characters picked from the Base64 text (sections 4 and 5 of RFC 4648).
 */
module Tenc {
  import opened Tasks

  type Octet = x: int | 0 <= x < 256
  type Sextet = x: int | 0 <= x < 64

  // ----- Base64 -------------------------------------------------------------------------------------

  /** Table 1 of RFC 4648. */
  function Letter(v: Sextet): char {
    if v < 26 then ('A' as int + v) as char
    else if v < 52 then ('a' as int + (v - 26)) as char
    else if v < 62 then ('0' as int + (v - 52)) as char
    else if v == 62 then '+' else '/'
  }

  function LetterValue(c: char): Option<Sextet> {
    if 'A' <= c <= 'Z' then Some(c as int - 'A' as int)
    else if 'a' <= c <= 'z' then Some(c as int - 'a' as int + 26)
    else if '0' <= c <= '9' then Some(c as int - '0' as int + 52)
    else if c == '+' then Some(62)
    else if c == '/' then Some(63)
    else None
  }

  lemma LetterRoundTrip(v: Sextet)
    ensures LetterValue(Letter(v)) == Some(v) && Letter(v) != '=' && Letter(v) != '-' && Letter(v) != '_'
  {
  }

  /** The alphabet is A to Z, a to z, 0 to 9, plus and slash. */
  lemma LettersInOrder(v: Sextet)
    ensures Letter(0) == 'A' && Letter(25) == 'Z' && Letter(26) == 'a' && Letter(51) == 'z'
    ensures Letter(52) == '0' && Letter(61) == '9' && Letter(62) == '+' && Letter(63) == '/'
    ensures v < 61 && v != 25 && v != 51 ==> Letter(v + 1) as int == Letter(v) as int + 1
  {
  }

  /** `b64encode` */
  function Base64(bs: seq<Octet>): string {
    if bs == [] then ""
    else if |bs| == 1 then [Letter(bs[0] / 4), Letter(bs[0] % 4 * 16), '=', '=']
    else if |bs| == 2 then
      [Letter(bs[0] / 4), Letter(bs[0] % 4 * 16 + bs[1] / 16), Letter(bs[1] % 16 * 4), '=']
    else
      [Letter(bs[0] / 4), Letter(bs[0] % 4 * 16 + bs[1] / 16), Letter(bs[1] % 16 * 4 + bs[2] / 64), Letter(bs[2] % 64)]
      + Base64(bs[3..])
  }

  /** The three bytes of four sextets. */
  function DecodeGroup(a: Sextet, b: Sextet, c: Sextet, d: Sextet): seq<Octet> {
    [a * 4 + b / 16, b % 16 * 16 + c / 4, c % 4 * 64 + d]
  }

  /** Decodes Base64 text: whole groups of four characters, padding at the end of the last group only. */
  function Unbase64(s: string): Option<seq<Octet>> {
    if s == "" then Some([])
    else if |s| < 4 then None
    else
      var a, b := LetterValue(s[0]), LetterValue(s[1]);
      var c, d := LetterValue(s[2]), LetterValue(s[3]);
      if a.None? || b.None? then None
      else if |s| == 4 && s[2] == '=' && s[3] == '=' then Some(DecodeGroup(a.value, b.value, 0, 0)[..1])
      else if c.None? then None
      else if |s| == 4 && s[3] == '=' then Some(DecodeGroup(a.value, b.value, c.value, 0)[..2])
      else if d.None? then None
      else
        match Unbase64(s[4..])
        case None => None
        case Some(rest) => Some(DecodeGroup(a.value, b.value, c.value, d.value) + rest)
  }

  lemma GroupRoundTrip(x: Octet, y: Octet, z: Octet)
    ensures DecodeGroup(x / 4, x % 4 * 16 + y / 16, y % 16 * 4 + z / 64, z % 64) == [x, y, z]
  {
  }

  /** Decoding undoes encoding, for every byte string. */
  lemma {:induction false} Base64RoundTrip(bs: seq<Octet>)
    ensures Unbase64(Base64(bs)) == Some(bs)
  {
    hide Letter, LetterValue, DecodeGroup;
    forall v: Sextet ensures LetterValue(Letter(v)) == Some(v) && Letter(v) != '=' {
      LetterRoundTrip(v);
    }
    if |bs| == 1 {
      GroupRoundTrip(bs[0], 0, 0);
      assert bs == [bs[0], 0, 0][..1];
    } else if |bs| == 2 {
      GroupRoundTrip(bs[0], bs[1], 0);
      assert bs == [bs[0], bs[1], 0][..2];
    } else if |bs| > 2 {
      GroupRoundTrip(bs[0], bs[1], bs[2]);
      Base64RoundTrip(bs[3..]);
      assert Base64(bs)[4..] == Base64(bs[3..]);
      assert bs == [bs[0], bs[1], bs[2]] + bs[3..];
    }
  }

  // ----- The encoding -------------------------------------------------------------------------------

  function UrlChar(c: char): char {
    if c == '+' then '-' else if c == '/' then '_' else c
  }

  function PlainChar(c: char): char {
    if c == '-' then '+' else if c == '_' then '/' else c
  }

  function MapChars(f: char -> char, s: string): (r: string)
    ensures |r| == |s| && forall i :: 0 <= i < |s| ==> r[i] == f(s[i])
  {
    seq(|s|, i requires 0 <= i < |s| => f(s[i]))
  }

  /** `rstrip` of one character. */
  function StripTrailing(s: string, c: char): (r: string)
    ensures |r| <= |s|
  {
    if s != "" && s[|s| - 1] == c then StripTrailing(s[..|s| - 1], c) else s
  }

  /** `tencryption_js` of a password's bytes. */
  function Tencryption(password: seq<Octet>): string {
    Base64(password)
  }

  /** `tencode_url_js`; both index accesses are in range, whatever the text. */
  function TencodeUrl(b64: string): string {
    if b64 == "" then ""
    else
      var converted := StripTrailing(MapChars(UrlChar, b64), '=');
      if converted == "" then ""
      else [b64[|converted| - 1], b64[|converted| / 2]] + converted
  }

  function Padding(n: nat): string {
    if n % 4 == 0 then "" else if n % 4 == 2 then "==" else if n % 4 == 3 then "=" else "==="
  }

  /** The way back: drop the two characters, return to the plain alphabet, pad, and decode. */
  function Undo(text: string): Option<seq<Octet>> {
    if |text| < 2 then Some([])
    else
      var body := MapChars(PlainChar, text[2..]);
      Unbase64(body + Padding(|body|))
  }

  predicate IsLetter(c: char) {
    LetterValue(c).Some?
  }

  /** The characters of Base64 text before its padding. */
  ghost function Unpadded(bs: seq<Octet>): string {
    if bs == [] then ""
    else if |bs| <= 2 then Base64(bs)[..|bs| + 1]
    else Base64(bs)[..4] + Unpadded(bs[3..])
  }

  lemma {:induction false} UnpaddedLetters(bs: seq<Octet>)
    ensures forall i :: 0 <= i < |Unpadded(bs)| ==> IsLetter(Unpadded(bs)[i])
  {
    hide Letter, LetterValue;
    forall v: Sextet ensures LetterValue(Letter(v)).Some? {
      LetterRoundTrip(v);
    }
    if |bs| <= 2 {
    } else {
      UnpaddedLetters(bs[3..]);
    }
  }

  lemma {:induction false} Base64Shape(bs: seq<Octet>)
    ensures Base64(bs) == Unpadded(bs) + Padding(|Unpadded(bs)|)
    ensures Unpadded(bs) == "" <==> bs == []
  {
    hide Base64, Padding;
    if |bs| <= 2 {
      ShortShape(bs);
    } else {
      Base64Next(bs);
      Base64Shape(bs[3..]);
      PaddingNext(|Unpadded(bs[3..])|);
    }
  }

  lemma ShortShape(bs: seq<Octet>)
    requires |bs| <= 2
    ensures Base64(bs) == Unpadded(bs) + Padding(|Unpadded(bs)|)
    ensures Unpadded(bs) == "" <==> bs == []
  {
    hide Letter;
  }

  lemma Base64Next(bs: seq<Octet>)
    requires |bs| > 2
    ensures |Base64(bs)| >= 4 && Base64(bs) == Base64(bs)[..4] + Base64(bs[3..])
  {
    hide Letter;
  }

  lemma PaddingNext(n: nat)
    ensures Padding(4 + n) == Padding(n)
  {
  }

  lemma StripOne(s: string, c: char)
    ensures StripTrailing(s + [c], c) == StripTrailing(s, c)
  {
    assert (s + [c])[..|s + [c]| - 1] == s;
  }

  lemma StripPadding(s: string, n: nat)
    requires s == "" || s[|s| - 1] != '='
    ensures StripTrailing(s + Padding(n), '=') == s
  {
    hide StripTrailing;
    NothingToStrip(s, '=');
    assert s + "" == s && s + "==" == s + "=" + "=" && s + "===" == s + "==" + "=";
    StripOne(s, '=');
    StripOne(s + "=", '=');
    StripOne(s + "==", '=');
  }

  lemma NothingToStrip(s: string, c: char)
    requires s == "" || s[|s| - 1] != c
    ensures StripTrailing(s, c) == s
  {
  }

  lemma CharRoundTrip(c: char)
    requires IsLetter(c)
    ensures PlainChar(UrlChar(c)) == c && UrlChar(c) != '='
  {
  }

  /** Undoing the encoding gives back the bytes of every password. */
  lemma TencRoundTrip(password: seq<Octet>)
    ensures Undo(TencodeUrl(Tencryption(password))) == Some(password)
  {
    hide Base64, Unbase64, UrlChar, PlainChar, IsLetter, Unpadded;
    var body := Unpadded(password);
    Base64Shape(password);
    Base64RoundTrip(password);
    ConvertedIsUrl(password);
    UnpaddedLetters(password);
    var url := MapChars(UrlChar, body);
    forall i | 0 <= i < |body| ensures PlainChar(url[i]) == body[i] {
      CharRoundTrip(body[i]);
    }
    if password != [] {
      var text := TencodeUrl(Base64(password));
      assert text[2..] == url;
      assert MapChars(PlainChar, url) == body;
    }
  }

  lemma PaddingIsKept(body: string)
    ensures MapChars(UrlChar, body + Padding(|body|)) == MapChars(UrlChar, body) + Padding(|body|)
  {
  }

  /** So different passwords have different encodings. */
  lemma TencIsInjective(a: seq<Octet>, b: seq<Octet>)
    requires TencodeUrl(Tencryption(a)) == TencodeUrl(Tencryption(b))
    ensures a == b
  {
    hide Undo, TencodeUrl, Tencryption;
    TencRoundTrip(a);
    TencRoundTrip(b);
  }

  /** The two characters in front are the last and the middle letter of the Base64 text, never padding. */
  lemma PrefixIsLetters(password: seq<Octet>)
    requires password != []
    ensures var text, body := TencodeUrl(Tencryption(password)), Unpadded(password);
            && |text| == |body| + 2 && body != ""
            && text[0] == body[|body| - 1] && text[1] == body[|body| / 2]
            && IsLetter(text[0]) && IsLetter(text[1])
            && forall i :: 0 <= i < |body| ==>
                 text[i + 2] == if body[i] == '+' then '-' else if body[i] == '/' then '_' else body[i]
  {
    hide Base64, IsLetter, Unpadded;
    var body := Unpadded(password);
    Base64Shape(password);
    UnpaddedLetters(password);
    ConvertedIsUrl(password);
  }

  /** What is left of the Base64 text after the alphabet is changed and the padding stripped. */
  lemma ConvertedIsUrl(password: seq<Octet>)
    ensures StripTrailing(MapChars(UrlChar, Base64(password)), '=') == MapChars(UrlChar, Unpadded(password))
  {
    hide Base64, UrlChar, IsLetter, Unpadded;
    var body := Unpadded(password);
    var url := MapChars(UrlChar, body);
    Base64Shape(password);
    UnpaddedLetters(password);
    forall i | 0 <= i < |body| ensures url[i] != '=' {
      CharRoundTrip(body[i]);
    }
    PaddingIsKept(body);
    StripPadding(url, |body|);
  }

  /** The encoding of "1234": its Base64 text is MTIzNA==, whose sixth and fourth characters come first. */
  lemma TencOfFactoryPassword()
    ensures TencodeUrl(Tencryption([0x31, 0x32, 0x33, 0x34])) == "AzMTIzNA"
  {
    hide Base64, StripTrailing;
    Base64OfFactoryPassword();
    var b64, body := "MTIzNA==", "MTIzNA";
    assert Padding(6) == "==" && b64 == body + Padding(6);
    assert MapChars(UrlChar, b64) == b64;
    StripPadding(body, 6);
    assert [b64[5], b64[3]] == "Az";
    assert "Az" + body == "AzMTIzNA";
  }

  lemma Base64OfFactoryPassword()
    ensures Base64([0x31, 0x32, 0x33, 0x34]) == "MTIzNA=="
  {
    var p: seq<Octet> := [0x31, 0x32, 0x33, 0x34];
    assert p[3..] == [0x34];
    LastGroup();
    assert Base64(p) == [Letter(12), Letter(19), Letter(8), Letter(51)] + Base64([0x34]);
    assert "MTIz" + "NA==" == "MTIzNA==";
  }

  lemma LastGroup()
    ensures Base64([0x34]) == "NA=="
  {
  }
}
