/** String helpers with the semantics of the JavaScript built-ins the scripts call. */
module Strings {

  /** `s.startsWith(p)`. */
  predicate StartsWith(s: string, p: string)
  {
    |p| <= |s| && s[..|p|] == p
  }

  /** `parts.join(sep)`. */
  function Join(parts: seq<string>, sep: string): string
  {
    if parts == [] then ""
    else if |parts| == 1 then parts[0]
    else parts[0] + sep + Join(parts[1..], sep)
  }

  /** `s.split(c)` for a one-character separator: never empty, separators removed. */
  function Split(s: string, c: char): (r: seq<string>)
    ensures |r| >= 1
    ensures forall k :: 0 <= k < |r| ==> c !in r[k]
    ensures |r| == 1 <==> c !in s
    ensures Join(r, [c]) == s
    decreases |s|
  {
    if s == [] then [""]
    else
      var rest := Split(s[1..], c);
      assert s == [s[0]] + s[1..];
      if s[0] == c then
        JoinEmptyHead(rest, [c]);
        [""] + rest
      else
        assert rest == [rest[0]] + rest[1..];
        JoinConsHead(s[0], rest[0], rest[1..], [c]);
        [[s[0]] + rest[0]] + rest[1..]
  }

  /** Joining after an empty first piece starts with the separator. */
  lemma JoinEmptyHead(rest: seq<string>, sep: string)
    requires rest != []
    ensures Join([""] + rest, sep) == sep + Join(rest, sep)
  {
    assert ([""] + rest)[1..] == rest;
  }

  /** A character at the head of the first piece is the head of the joined text. */
  lemma JoinConsHead(ch: char, first: string, rest: seq<string>, sep: string)
    ensures Join([[ch] + first] + rest, sep) == [ch] + Join([first] + rest, sep)
  {
    if rest != [] {
      assert ([[ch] + first] + rest)[1..] == rest;
      assert ([first] + rest)[1..] == rest;
      assert [ch] + first + sep + Join(rest, sep) == [ch] + (first + sep + Join(rest, sep));
    }
  }

  /** `s.split(c).pop()`: the last piece of the split. */
  function AfterLast(s: string, c: char): string
  {
    var parts := Split(s, c);
    parts[|parts| - 1]
  }

  /** The text after the last `c`: a suffix of `s` free of `c`, preceded by `c` unless it is all of `s`. */
  ghost predicate IsTailAfterLast(s: string, c: char, t: string)
  {
    && |t| <= |s|
    && s[|s| - |t|..] == t
    && c !in t
    && (|t| < |s| ==> s[|s| - |t| - 1] == c)
  }

  lemma {:induction false} AfterLastIsTail(s: string, c: char)
    ensures IsTailAfterLast(s, c, AfterLast(s, c))
    decreases |s|
  {
    if s != [] {
      AfterLastIsTail(s[1..], c);
      var t := AfterLast(s, c);
      AfterLastStep(s, c);
      if c in s {
        assert s[|s| - |t|..] == s[1..][|s| - 1 - |t|..];
        if |t| == |s| - 1 {
          assert t == s[1..];
        }
      }
    }
  }

  /** One step of the split: the last piece is that of the tail, or all of `s` when `s` has no `c`. */
  lemma AfterLastStep(s: string, c: char)
    requires s != []
    ensures AfterLast(s, c) == if c in s then AfterLast(s[1..], c) else s
  {
    var rest := Split(s[1..], c);
    var parts := Split(s, c);
    assert s == [s[0]] + s[1..];
    if s[0] == c {
      assert parts == [""] + rest;
    } else {
      assert parts == [[s[0]] + rest[0]] + rest[1..];
      if c in s {
        assert c in s[1..];
        assert |rest| > 1;
      } else {
        assert rest == [s[1..]];
      }
    }
  }

  /** Only one string is the text after the last `c`. */
  lemma TailAfterLastUnique(s: string, c: char, t: string, u: string)
    requires IsTailAfterLast(s, c, t) && IsTailAfterLast(s, c, u)
    ensures t == u
  {
  }

  /** Decimal rendering of an integer, as `String(n)` gives for a safe integer. */
  function ShowInt(n: int): string
  {
    if n < 0 then "-" + ShowNat(-n) else ShowNat(n)
  }

  function ShowNat(n: nat): (r: string)
    ensures |r| >= 1
    ensures forall k :: 0 <= k < |r| ==> '0' <= r[k] <= '9'
  {
    if n < 10 then [Digit(n)] else ShowNat(n / 10) + [Digit(n % 10)]
  }

  function Digit(d: nat): (c: char)
    requires d < 10
    ensures '0' <= c <= '9' && (c as int) - ('0' as int) == d
  {
    (('0' as int) + d) as char
  }
}
