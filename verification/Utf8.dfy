/**
 UTF-8 as RFC 3629 gives it: the octet grammar of section 4, the encoding of section 3, and the
 scanning, strict and lossy, that the Rust library builds on them.
 */
module Utf8 {
  type Byte = b: nat | b < 0x100
  type Scalar = c: nat | c < 0xD800 || 0xE000 <= c < 0x11_0000

  const REPLACEMENT: Scalar := 0xFFFD

  // ---- The grammar of section 4 ----

  predicate Tail(b: Byte) {
    0x80 <= b <= 0xBF
  }

  /** One encoded character, production by production. */
  predicate IsChar(s: seq<Byte>) {
    || (|s| == 1 && s[0] <= 0x7F)
    || (|s| == 2 && 0xC2 <= s[0] <= 0xDF && Tail(s[1]))
    || (|s| == 3 && Tail(s[2]) && (
          || (s[0] == 0xE0 && 0xA0 <= s[1] <= 0xBF)
          || (0xE1 <= s[0] <= 0xEC && Tail(s[1]))
          || (s[0] == 0xED && 0x80 <= s[1] <= 0x9F)
          || (0xEE <= s[0] <= 0xEF && Tail(s[1]))))
    || (|s| == 4 && Tail(s[2]) && Tail(s[3]) && (
          || (s[0] == 0xF0 && 0x90 <= s[1] <= 0xBF)
          || (0xF1 <= s[0] <= 0xF3 && Tail(s[1]))
          || (s[0] == 0xF4 && 0x80 <= s[1] <= 0x8F)))
  }

  /** A string of encoded characters. */
  predicate WellFormed(s: seq<Byte>) {
    s == [] || exists n :: 1 <= n <= 4 && n <= |s| && IsChar(s[..n]) && WellFormed(s[n..])
  }

  /** The beginning, not yet the whole, of an encoded character. */
  ghost predicate Begins(s: seq<Byte>) {
    s != [] && exists rest :: rest != [] && IsChar(s + rest)
  }

  // ---- The encoding of section 3 ----

  function Encode(c: Scalar): (s: seq<Byte>)
    ensures 1 <= |s| <= 4
  {
    if c < 0x80 then [c]
    else if c < 0x800 then [0xC0 + c / 64, 0x80 + c % 64]
    else if c < 0x1_0000 then [0xE0 + c / 4096, 0x80 + c / 64 % 64, 0x80 + c % 64]
    else [0xF0 + c / 262144, 0x80 + c / 4096 % 64, 0x80 + c / 64 % 64, 0x80 + c % 64]
  }

  function EncodeAll(text: seq<Scalar>): seq<Byte> {
    if text == [] then [] else Encode(text[0]) + EncodeAll(text[1..])
  }

  /** The bits a byte carries above its marker. */
  function Bits(b: Byte, marker: nat): nat
    requires marker <= b
  {
    b - marker
  }

  function CodePoint(s: seq<Byte>): Scalar
    requires IsChar(s)
  {
    if |s| == 1 then s[0]
    else if |s| == 2 then Bits(s[0], 0xC0) * 64 + Bits(s[1], 0x80)
    else if |s| == 3 then Bits(s[0], 0xE0) * 4096 + Bits(s[1], 0x80) * 64 + Bits(s[2], 0x80)
    else Bits(s[0], 0xF0) * 262144 + Bits(s[1], 0x80) * 4096 + Bits(s[2], 0x80) * 64 + Bits(s[3], 0x80)
  }

  /** The grammar generates exactly the encodings: each character has one, and it decodes to it. */
  lemma EncodeIsChar(c: Scalar)
    ensures IsChar(Encode(c)) && CodePoint(Encode(c)) == c
  {
    if 0x800 <= c < 0x1_0000 {
      Digits3(c);
    } else if c >= 0x1_0000 {
      Digits4(c);
    }
  }

  lemma Digits3(c: nat)
    ensures c / 4096 * 4096 + c / 64 % 64 * 64 + c % 64 == c
  {
    assert c / 64 / 64 == c / 4096;
  }

  lemma Digits4(c: nat)
    ensures c / 262144 * 262144 + c / 4096 % 64 * 4096 + c / 64 % 64 * 64 + c % 64 == c
  {
    Digits3(c);
    assert c / 4096 / 64 == c / 262144;
  }

  lemma CharIsEncoding(s: seq<Byte>)
    requires IsChar(s)
    ensures Encode(CodePoint(s)) == s
  {
    if |s| == 3 {
      ThreeBytes(s, CodePoint(s));
    } else if |s| == 4 {
      FourBytes(s, CodePoint(s));
    }
  }

  lemma ThreeBytes(s: seq<Byte>, c: Scalar)
    requires IsChar(s) && |s| == 3 && c == CodePoint(s)
    ensures Encode(c) == s
  {
    SplitDigits(Bits(s[0], 0xE0), Bits(s[1], 0x80), Bits(s[2], 0x80));
  }

  lemma FourBytes(s: seq<Byte>, c: Scalar)
    requires IsChar(s) && |s| == 4 && c == CodePoint(s)
    ensures Encode(c) == s
  {
    SplitDigits(Bits(s[0], 0xF0) * 64 + Bits(s[1], 0x80), Bits(s[2], 0x80), Bits(s[3], 0x80));
  }

  lemma SplitDigits(a: nat, b: nat, c: nat)
    requires b < 64 && c < 64
    ensures var n := a * 4096 + b * 64 + c;
            n / 4096 == a && n / 64 % 64 == b && n % 64 == c && n / 262144 == a / 64
  {
    var n := a * 4096 + b * 64 + c;
    assert n / 64 == a * 64 + b;
    assert n / 4096 == a;
  }

  // ---- Scanning ----

  /** How many bytes a character with this first byte takes; none when no character has it. */
  function Width(lead: Byte): nat {
    if lead <= 0x7F then 1
    else if 0xC2 <= lead <= 0xDF then 2
    else if 0xE0 <= lead <= 0xEF then 3
    else if 0xF0 <= lead <= 0xF4 then 4
    else 0
  }

  predicate Second(lead: Byte, b: Byte) {
    if lead == 0xE0 then 0xA0 <= b <= 0xBF
    else if lead == 0xED then 0x80 <= b <= 0x9F
    else if lead == 0xF0 then 0x90 <= b <= 0xBF
    else if lead == 0xF4 then 0x80 <= b <= 0x8F
    else Tail(b)
  }

  /** What a string begins with: a character, an unfinished one, or so many bytes of nothing. */
  datatype Scan = Char(width: nat) | Unfinished | Broken(length: nat)

  function Next(s: seq<Byte>): (r: Scan)
    requires s != []
    ensures r.Char? ==> 1 <= r.width <= 4 && r.width <= |s|
    ensures r.Broken? ==> 1 <= r.length <= 3 && r.length <= |s|
    ensures r.Unfinished? ==> |s| <= 3
  {
    var w := Width(s[0]);
    if w == 0 then Broken(1)
    else if w == 1 then Char(1)
    else if |s| == 1 then Unfinished
    else if !Second(s[0], s[1]) then Broken(1)
    else if w == 2 then Char(2)
    else if |s| == 2 then Unfinished
    else if !Tail(s[2]) then Broken(2)
    else if w == 3 then Char(3)
    else if |s| == 3 then Unfinished
    else if !Tail(s[3]) then Broken(3)
    else Char(4)
  }

  /** The scan reads the grammar: it finds a character exactly when the string starts with one. */
  lemma NextIsGrammar(s: seq<Byte>, n: nat)
    requires s != [] && n <= |s|
    ensures Next(s) == Char(n) <==> IsChar(s[..n])
  {
    if 0 < n <= 4 {
      assert forall i :: 0 <= i < n ==> s[..n][i] == s[i];
    }
  }

  /** It finds a character unfinished exactly when the whole string is the beginning of one. */
  lemma UnfinishedIsBeginning(s: seq<Byte>)
    requires s != []
    ensures Next(s).Unfinished? <==> Begins(s)
  {
    if Next(s).Unfinished? {
      var rest := Completion(s);
      assert IsChar(s + rest);
    } else {
      forall rest ensures rest == [] || !IsChar(s + rest) {
        if rest != [] && IsChar(s + rest) {
          BeginningIsUnfinished(s, rest);
        }
      }
    }
  }

  lemma BeginningIsUnfinished(s: seq<Byte>, rest: seq<Byte>)
    requires s != [] && rest != [] && IsChar(s + rest)
    ensures Next(s).Unfinished?
  {
    var n := |s + rest|;
    assert (s + rest)[..n] == s + rest;
    NextIsGrammar(s + rest, n);
    assert forall i :: 0 <= i < |s| ==> (s + rest)[i] == s[i];
  }

  /** Bytes that finish an unfinished character. */
  function Completion(s: seq<Byte>): (rest: seq<Byte>)
    requires s != [] && Next(s).Unfinished?
    ensures rest != [] && IsChar(s + rest) && forall b :: b in rest ==> Tail(b)
  {
    var second: Byte := if s[0] == 0xE0 then 0xA0 else if s[0] == 0xF0 then 0x90 else 0x80;
    var w := Width(s[0]);
    if |s| == 1 then (if w == 2 then [second] else if w == 3 then [second, 0x80] else [second, 0x80, 0x80])
    else if |s| == 2 then (if w == 3 then [0x80] else [0x80, 0x80])
    else [0x80]
  }

  /** What is decided about the beginning of a string stays so whatever follows. */
  lemma NextIsStable(s: seq<Byte>, rest: seq<Byte>)
    requires s != [] && !Next(s).Unfinished?
    ensures Next(s + rest) == Next(s)
  {
    assert forall i :: 0 <= i < |s| ==> (s + rest)[i] == s[i];
  }

  /** The character a string begins with, or a replacement, and how many bytes that takes. */
  function Head(s: seq<Byte>): Scalar
    requires s != []
  {
    match Next(s)
    case Char(n) => NextIsGrammar(s, n); CodePoint(s[..n])
    case _ => REPLACEMENT
  }

  function Taken(s: seq<Byte>): (n: nat)
    requires s != []
    ensures 1 <= n <= |s|
  {
    match Next(s)
    case Char(n) => n
    case Unfinished => |s|
    case Broken(k) => k
  }

  /** What follows does not change how a finished beginning is read. */
  lemma HeadIsStable(s: seq<Byte>, rest: seq<Byte>)
    requires s != [] && !Next(s).Unfinished?
    ensures Head(s + rest) == Head(s) && Taken(s + rest) == Taken(s) && !Next(s + rest).Unfinished?
    ensures (s + rest)[Taken(s)..] == s[Taken(s)..] + rest
  {
    NextIsStable(s, rest);
    assert (s + rest)[..Taken(s)] == s[..Taken(s)];
  }

  // ---- Strict decoding ----

  datatype Validity = Valid | Invalid(validUpTo: nat, errorLength: nat, unfinished: bool)

  function Shift(v: Validity, n: nat): Validity {
    if v.Valid? then v else v.(validUpTo := v.validUpTo + n)
  }

  /** `str::from_utf8`: how far the string is valid, and what stops it there. */
  function Validate(s: seq<Byte>): (v: Validity)
    ensures v.Invalid? ==> v.validUpTo < |s|
  {
    if s == [] then Valid
    else
      match Next(s)
      case Char(n) => Shift(Validate(s[n..]), n)
      case Unfinished => Invalid(0, 0, true)
      case Broken(k) => Invalid(0, k, false)
  }

  /** The characters of a well-formed string. */
  function Decode(s: seq<Byte>): seq<Scalar>
    requires Validate(s).Valid?
  {
    if s == [] then [] else [Head(s)] + Decode(s[Taken(s)..])
  }

  lemma GrammarStep(s: seq<Byte>)
    requires s != []
    ensures WellFormed(s) <==> Next(s).Char? && WellFormed(s[Next(s).width..])
  {
    if Next(s).Char? {
      NextIsGrammar(s, Next(s).width);
    }
    forall n | 1 <= n <= |s| && IsChar(s[..n]) ensures Next(s) == Char(n) {
      NextIsGrammar(s, n);
    }
  }

  /** Validation accepts exactly the well-formed strings. */
  lemma {:induction false} ValidIsWellFormed(s: seq<Byte>)
    ensures Validate(s).Valid? <==> WellFormed(s)
  {
    if s != [] {
      GrammarStep(s);
      if Next(s).Char? {
        ValidIsWellFormed(s[Next(s).width..]);
      }
    }
  }

  /** A string that is not well formed is so up to a point, and is stopped there by what it says. */
  lemma {:induction false} InvalidIsTrue(s: seq<Byte>)
    requires Validate(s).Invalid?
    ensures var v := Validate(s);
            && Validate(s[..v.validUpTo]).Valid?
            && |s[v.validUpTo..]| >= 1
            && Next(s[v.validUpTo..]) == (if v.unfinished then Unfinished else Broken(v.errorLength))
  {
    var v := Validate(s);
    if Next(s).Char? {
      var n := Next(s).width;
      InvalidIsTrue(s[n..]);
      ValidStep(s, n, v.validUpTo);
    } else {
      assert s[0..] == s && s[..0] == [];
    }
  }

  lemma ValidStep(s: seq<Byte>, n: nat, m: nat)
    requires s != [] && Next(s) == Char(n) && n <= m <= |s| && Validate(s[n..][..m - n]).Valid?
    ensures Validate(s[..m]).Valid? && s[m..] == s[n..][m - n..]
  {
    var p := s[..m];
    assert p[n..] == s[n..][..m - n];
    assert forall i :: 0 <= i < |p| ==> p[i] == s[i];
  }

  lemma {:induction false} ValidConcat(a: seq<Byte>, b: seq<Byte>)
    requires Validate(a).Valid?
    ensures Validate(a + b) == Shift(Validate(b), |a|)
  {
    if a == [] {
      assert a + b == b;
    } else {
      HeadIsStable(a, b);
      NextIsStable(a, b);
      ValidConcat(a[Taken(a)..], b);
    }
  }

  /** The encodings of texts are exactly the well-formed strings. */
  lemma {:induction false} EncodingsDecode(text: seq<Scalar>)
    ensures Validate(EncodeAll(text)).Valid? && Decode(EncodeAll(text)) == text
  {
    if text != [] {
      var head, rest := Encode(text[0]), EncodeAll(text[1..]);
      EncodingsDecode(text[1..]);
      EncodeIsChar(text[0]);
      assert (head + rest)[..|head|] == head && (head + rest)[|head|..] == rest;
      NextIsGrammar(head + rest, |head|);
    }
  }

  lemma ValidTail(s: seq<Byte>)
    requires s != [] && Validate(s).Valid?
    ensures Next(s).Char? && Validate(s[Taken(s)..]).Valid? && Decode(s) == [Head(s)] + Decode(s[Taken(s)..])
  {
  }

  lemma HeadEncodes(s: seq<Byte>)
    requires s != [] && Next(s).Char?
    ensures Encode(Head(s)) == s[..Taken(s)]
  {
    NextIsGrammar(s, Taken(s));
    CharIsEncoding(s[..Taken(s)]);
  }

  lemma EncodeCons(c: Scalar, rest: seq<Scalar>)
    ensures EncodeAll([c] + rest) == Encode(c) + EncodeAll(rest)
  {
    assert ([c] + rest)[1..] == rest;
  }

  lemma Rejoin(s: seq<Byte>, n: nat)
    requires n <= |s|
    ensures s[..n] + s[n..] == s
  {
  }

  lemma {:induction false} DecodingsEncode(s: seq<Byte>)
    requires Validate(s).Valid?
    ensures EncodeAll(Decode(s)) == s
  {
    if s != [] {
      ValidTail(s);
      DecodingsEncode(s[Taken(s)..]);
      EncodeCons(Head(s), Decode(s[Taken(s)..]));
      HeadEncodes(s);
      Rejoin(s, Taken(s));
    }
  }

  // ---- Lossy decoding ----

  /** `String::from_utf8_lossy`: one replacement for each unfinished or broken stretch. */
  function Lossy(s: seq<Byte>): seq<Scalar> {
    if s == [] then [] else [Head(s)] + Lossy(s[Taken(s)..])
  }

  /** The unfinished character a string ends in, if it does. */
  function Dangling(s: seq<Byte>): (r: seq<Byte>)
    ensures |r| <= 3 && (r == [] || Next(r).Unfinished?)
  {
    if s == [] || Next(s).Unfinished? then s else Dangling(s[Taken(s)..])
  }

  /** The lossy text of all but what dangles. */
  function Settled(s: seq<Byte>): seq<Scalar> {
    if s == [] || Next(s).Unfinished? then [] else [Head(s)] + Settled(s[Taken(s)..])
  }

  /** What is settled stays settled; what dangles is decoded with what follows. */
  lemma {:induction false} LossySplit(s: seq<Byte>, rest: seq<Byte>)
    ensures Lossy(s + rest) == Settled(s) + Lossy(Dangling(s) + rest)
  {
    if s == [] {
      assert s + rest == rest && Dangling(s) + rest == rest;
    } else if !Next(s).Unfinished? {
      var left := s[Taken(s)..];
      HeadIsStable(s, rest);
      LossySplit(left, rest);
      HeadFirst([Head(s)], Settled(left), Lossy(Dangling(left) + rest));
    }
  }

  lemma HeadFirst<T>(head: seq<T>, a: seq<T>, b: seq<T>)
    ensures head + (a + b) == (head + a) + b
  {
  }
}
