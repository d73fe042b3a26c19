/**
 * The standard base64 encoding with padding of section 4 of RFC 4648, which
 * `Buffer.prototype.toString('base64')` produces, and a strict decoder that
 * inverts it. Encoding goes through 6-bit values ("sextets") so that the
 * arithmetic and the alphabet can be reasoned about separately.
 */
module Base64 {
  import opened Wrappers
  import opened Bytes

  type Sextet = x: int | 0 <= x < 64

  predicate IsAlphabet(c: char)
  {
    ('A' <= c <= 'Z') || ('a' <= c <= 'z') || ('0' <= c <= '9') || c == '+' || c == '/'
  }

  /** The character for a 6-bit value: A-Z, a-z, 0-9, '+', '/'. */
  function Sym(i: Sextet): (c: char)
    ensures IsAlphabet(c)
  {
    if i < 26 then (('A' as int) + i) as char
    else if i < 52 then (('a' as int) + i - 26) as char
    else if i < 62 then (('0' as int) + i - 52) as char
    else if i == 62 then '+'
    else '/'
  }

  /** The 6-bit value of an alphabet character; `None` for any other character. */
  function Index(c: char): (r: Option<Sextet>)
    ensures r.Some? <==> IsAlphabet(c)
    ensures r.Some? ==> Sym(r.value) == c
  {
    if 'A' <= c <= 'Z' then Some((c as int) - ('A' as int))
    else if 'a' <= c <= 'z' then Some((c as int) - ('a' as int) + 26)
    else if '0' <= c <= '9' then Some((c as int) - ('0' as int) + 52)
    else if c == '+' then Some(62)
    else if c == '/' then Some(63)
    else None
  }

  lemma IndexOfSym(i: Sextet)
    ensures Index(Sym(i)) == Some(i)
  {
  }

  /**
   * Every three bytes give four sextets; a final one or two bytes give two or
   * three sextets, the missing low bits being zero.
   */
  function Sextets(b: seq<Byte>): seq<Sextet>
  {
    if |b| == 0 then []
    else if |b| == 1 then [b[0] / 4, (b[0] % 4) * 16]
    else if |b| == 2 then [b[0] / 4, (b[0] % 4) * 16 + b[1] / 16, (b[1] % 16) * 4]
    else [b[0] / 4, (b[0] % 4) * 16 + b[1] / 16, (b[1] % 16) * 4 + b[2] / 64, b[2] % 64] + Sextets(b[3..])
  }

  /** The alphabet characters of a sequence of sextets. */
  function Letters(xs: seq<Sextet>): (r: string)
    ensures |r| == |xs|
    ensures forall k :: 0 <= k < |r| ==> IsAlphabet(r[k])
  {
    if xs == [] then "" else [Sym(xs[0])] + Letters(xs[1..])
  }

  /** The padding that completes the last group of four characters. */
  function Pad(rem: nat): string
  {
    if rem == 1 then "==" else if rem == 2 then "=" else ""
  }

  /** The sextets and the padding fill whole groups of four characters. */
  lemma {:induction false} SextetsPadLength(b: seq<Byte>)
    ensures (|Sextets(b)| + |Pad(|b| % 3)|) % 4 == 0
    ensures |b| % 3 != 0 ==> |Sextets(b)| >= 2
    decreases |b|
  {
    if |b| >= 3 {
      SextetsPadLength(b[3..]);
      assert |Sextets(b)| == 4 + |Sextets(b[3..])|;
      assert |b[3..]| % 3 == |b| % 3;
    }
  }

  /** `Buffer.from(bytes).toString('base64')`. */
  function Encode(b: seq<Byte>): (r: string)
    ensures |r| % 4 == 0
    ensures forall k :: 0 <= k < |r| ==> IsAlphabet(r[k]) || r[k] == '='
    ensures forall k :: 0 <= k < |r| - 2 ==> r[k] != '='
    ensures |b| % 3 == 0 ==> forall k :: 0 <= k < |r| ==> r[k] != '='
  {
    SextetsPadLength(b);
    Letters(Sextets(b)) + Pad(|b| % 3)
  }

  /** The sextets of alphabet characters; `None` if any character is outside the alphabet. */
  function Values(s: string): (r: Option<seq<Sextet>>)
    ensures r.Some? ==> |r.value| == |s|
  {
    if s == [] then Some([])
    else match (Index(s[0]), Values(s[1..]))
      case (Some(x), Some(rest)) => Some([x] + rest)
      case _ => None
  }

  /** Bytes from sextets, rejecting a final group whose unused low bits are set. */
  function FromSextets(xs: seq<Sextet>): Option<seq<Byte>>
  {
    if |xs| == 0 then Some([])
    else if |xs| == 1 then None
    else if |xs| == 2 then
      var one: seq<Byte> := [(xs[0] as int) * 4 + xs[1] / 16];
      if xs[1] % 16 == 0 then Some(one) else None
    else if |xs| == 3 then
      var two: seq<Byte> := [(xs[0] as int) * 4 + xs[1] / 16, (xs[1] as int % 16) * 16 + xs[2] / 4];
      if xs[2] % 4 == 0 then Some(two) else None
    else match FromSextets(xs[4..])
      case Some(rest) =>
        var three: seq<Byte> := [(xs[0] as int) * 4 + xs[1] / 16, (xs[1] as int % 16) * 16 + xs[2] / 4, (xs[2] as int % 4) * 64 + xs[3]];
        Some(three + rest)
      case None => None
  }

  /** How many '=' end `s` (at most two). */
  function PadLength(s: string): (n: nat)
    ensures n <= 2 && n <= |s|
  {
    if |s| >= 2 && s[|s| - 2] == '=' && s[|s| - 1] == '=' then 2
    else if |s| >= 1 && s[|s| - 1] == '=' then 1
    else 0
  }

  /** Strict decoding: length a multiple of four, '=' only as final padding. */
  function Decode(s: string): Option<seq<Byte>>
  {
    if |s| % 4 != 0 then None
    else match Values(s[..|s| - PadLength(s)])
      case Some(xs) => FromSextets(xs)
      case None => None
  }

  lemma {:induction false} ValuesOfLetters(xs: seq<Sextet>)
    ensures Values(Letters(xs)) == Some(xs)
  {
    if xs != [] {
      ValuesOfLetters(xs[1..]);
      IndexOfSym(xs[0]);
      var l := Letters(xs);
      assert l[0] == Sym(xs[0]) && l[1..] == Letters(xs[1..]);
      assert xs == [xs[0]] + xs[1..];
    }
  }

  lemma GroupRoundTrip(b0: Byte, b1: Byte, b2: Byte)
    ensures var i1, i2 := (b0 % 4) * 16 + b1 / 16, (b1 % 16) * 4 + b2 / 64;
      && b0 / 4 * 4 + i1 / 16 == b0
      && (i1 % 16) * 16 + i2 / 4 == b1
      && (i2 % 4) * 64 + b2 % 64 == b2
  {
  }

  /** A full group of four sextets decodes to its three bytes, followed by what the rest decodes to. */
  lemma FromSextetsGroup(xs: seq<Sextet>, rest: seq<Byte>)
    requires |xs| >= 4 && FromSextets(xs[4..]) == Some(rest)
    ensures FromSextets(xs) == Some([(xs[0] as int) * 4 + xs[1] / 16, (xs[1] as int % 16) * 16 + xs[2] / 4,
                                     (xs[2] as int % 4) * 64 + xs[3]] + rest)
  {
  }

  lemma {:induction false} FromSextetsOfBytes(b: seq<Byte>)
    ensures FromSextets(Sextets(b)) == Some(b)
    decreases |b|
  {
    if |b| == 1 || |b| == 2 {
      FromSextetsOfShort(b);
    } else if |b| >= 3 {
      var xs := Sextets(b);
      var i1, i2 := (b[0] % 4) * 16 + b[1] / 16, (b[1] % 16) * 4 + b[2] / 64;
      assert xs == [b[0] / 4, i1, i2, b[2] % 64] + Sextets(b[3..]);
      assert xs[4..] == Sextets(b[3..]);
      FromSextetsOfBytes(b[3..]);
      FromSextetsGroup(xs, b[3..]);
      GroupRoundTrip(b[0], b[1], b[2]);
      assert [(xs[0] as int) * 4 + xs[1] / 16, (xs[1] as int % 16) * 16 + xs[2] / 4,
              (xs[2] as int % 4) * 64 + xs[3]] == [b[0], b[1], b[2]];
      assert b == [b[0], b[1], b[2]] + b[3..];
    }
  }

  /** One or two trailing bytes are read back from their two or three sextets. */
  lemma {:induction false} FromSextetsOfShort(b: seq<Byte>)
    requires |b| == 1 || |b| == 2
    ensures FromSextets(Sextets(b)) == Some(b)
  {
    var b0 := b[0] as int;
    var x1 := (b0 % 4) * 16;
    assert x1 / 16 == b0 % 4 && x1 % 16 == 0;
    if |b| == 1 {
      assert b == [b[0]];
    } else {
      var b1 := b[1] as int;
      var y1, y2 := (b0 % 4) * 16 + b1 / 16, (b1 % 16) * 4;
      assert y1 / 16 == b0 % 4 && y1 % 16 == b1 / 16;
      assert y2 / 4 == b1 % 16 && y2 % 4 == 0;
      assert b == [b[0], b[1]];
    }
  }

  lemma PadLengthOfEncode(b: seq<Byte>)
    ensures PadLength(Encode(b)) == |Pad(|b| % 3)|
  {
    var l := Letters(Sextets(b));
    var s := Encode(b);
    if |b| % 3 != 0 {
      assert |l| >= 2;
      assert s[|s| - |Pad(|b| % 3)| - 1] == l[|l| - 1];
    } else if |s| >= 1 {
      assert s[|s| - 1] == l[|l| - 1];
    }
  }

  /** The encodings of "Man", "Ma" and "M": one group, then one and two padding characters. */
  lemma EncodeVectors()
    ensures Encode([77, 97, 110]) == "TWFu"
    ensures Encode([77, 97]) == "TWE="
    ensures Encode([77]) == "TQ=="
  {
    assert Sextets([77, 97, 110]) == [19, 22, 5, 46];
    LettersOfGroup(19, 22, 5, 46);
    assert Sextets([77, 97]) == [19, 22, 4];
    assert Letters([19, 22, 4]) == [Sym(19)] + Letters([22, 4]);
    assert Sextets([77]) == [19, 16];
    assert Letters([19, 16]) == [Sym(19)] + Letters([16]);
  }

  /** The test vectors of section 10 of RFC 4648 for "", "f", "fo" and "foo". */
  lemma EncodeStandardVectors()
    ensures Encode([]) == ""
    ensures Encode([102]) == "Zg=="
    ensures Encode([102, 111]) == "Zm8="
    ensures Encode([102, 111, 111]) == "Zm9v"
  {
    assert Sextets([102]) == [25, 32];
    assert Letters([25, 32]) == [Sym(25)] + Letters([32]);
    assert Sextets([102, 111]) == [25, 38, 60];
    assert Letters([25, 38, 60]) == [Sym(25)] + Letters([38, 60]);
    assert Sextets([102, 111, 111]) == [25, 38, 61, 47];
    LettersOfGroup(25, 38, 61, 47);
  }

  lemma LettersOfGroup(a: Sextet, b: Sextet, c: Sextet, d: Sextet)
    ensures Letters([a, b, c, d]) == [Sym(a), Sym(b), Sym(c), Sym(d)]
  {
    assert [a, b, c, d][1..] == [b, c, d];
    assert [b, c, d][1..] == [c, d];
    assert [c, d][1..] == [d];
    assert [d][1..] == [];
    assert Letters([d]) == [Sym(d)];
    assert Letters([c, d]) == [Sym(c), Sym(d)];
    assert Letters([b, c, d]) == [Sym(b), Sym(c), Sym(d)];
  }

  /** Decoding undoes encoding, for every byte string. */
  lemma DecodeEncode(b: seq<Byte>)
    ensures Decode(Encode(b)) == Some(b)
  {
    var xs := Sextets(b);
    ValuesOfLetters(xs);
    FromSextetsOfBytes(b);
    PadLengthOfEncode(b);
    SextetsPadLength(b);
    DecodeLettersPad(Letters(xs), Pad(|b| % 3), xs, b);
  }

  lemma DecodeLettersPad(l: string, p: string, xs: seq<Sextet>, b: seq<Byte>)
    requires (|l| + |p|) % 4 == 0 && PadLength(l + p) == |p|
    requires Values(l) == Some(xs) && FromSextets(xs) == Some(b)
    ensures Decode(l + p) == Some(b)
  {
    assert (l + p)[..|l + p| - |p|] == l;
  }

  /** Two byte strings with the same encoding are equal. */
  lemma EncodeInjective(a: seq<Byte>, b: seq<Byte>)
    requires Encode(a) == Encode(b)
    ensures a == b
  {
    DecodeEncode(a);
    DecodeEncode(b);
  }
}
