/** `generateRandomString(length)`: `length` characters drawn from a fixed
    alphabet. `Math.random()` becomes an oracle: the sequence of values in
    [0, 1) it returns, one per iteration. */
module RandomString {

  const Upper: string := "ABCDEFGHIJKLMNOPQRSTUVWXYZ"
  const Lower: string := "abcdefghijklmnopqrstuvwxyz"
  const Digits: string := "0123456789"

  /** `characters`: the 62-character alphabet of upper-case letters,
      lower-case letters and digits, in that order. */
  const Characters: string := Upper + Lower + Digits

  predicate IsAlphanumeric(c: char)
  {
    ('A' <= c <= 'Z') || ('a' <= c <= 'z') || ('0' <= c <= '9')
  }

  /** A value `Math.random()` can return. */
  predicate IsDraw(r: real)
  {
    0.0 <= r < 1.0
  }

  predicate AllDraws(draws: seq<real>)
  {
    forall i :: 0 <= i < |draws| ==> IsDraw(draws[i])
  }

  /** `Math.floor(r * characters.length)`. */
  function Index(r: real): (i: int)
    ensures IsDraw(r) ==> 0 <= i < |Characters|
  {
    (r * (|Characters| as real)).Floor
  }

  /** `s.charAt(i)`: the one character at `i`, or the empty string when `i`
      is out of range. */
  function CharAt(s: string, i: int): (r: string)
    ensures |r| <= 1
    ensures 0 <= i < |s| <==> |r| == 1
    ensures 0 <= i < |s| ==> r == [s[i]]
  {
    if 0 <= i < |s| then [s[i]] else ""
  }

  /** The string the loop builds from the given draws, one character each. */
  function Slug(draws: seq<real>): (r: string)
    requires AllDraws(draws)
    ensures |r| == |draws|
    decreases |draws|
  {
    if draws == [] then ""
    else
      var n := |draws| - 1;
      Slug(draws[..n]) + CharAt(Characters, Index(draws[n]))
  }

  lemma UpperRange()
    ensures forall c :: c in Upper <==> 'A' <= c <= 'Z'
  {
    forall c | 'A' <= c <= 'Z' ensures c in Upper {
      assert Upper[c as int - 'A' as int] == c;
    }
  }

  lemma LowerRange()
    ensures forall c :: c in Lower <==> 'a' <= c <= 'z'
  {
    forall c | 'a' <= c <= 'z' ensures c in Lower {
      assert Lower[c as int - 'a' as int] == c;
    }
  }

  lemma DigitRange()
    ensures forall c :: c in Digits <==> '0' <= c <= '9'
  {
    forall c | '0' <= c <= '9' ensures c in Digits {
      assert Digits[c as int - '0' as int] == c;
    }
  }

  /** The three parts make up the one `characters` literal. */
  lemma CharactersIsLiteral()
    ensures Characters == "ABCDEFGHIJKLMNOPQRSTUVWXYZabcdefghijklmnopqrstuvwxyz0123456789"
  {
  }

  /** The alphabet has 62 characters, every one a letter or a digit, and
      every letter or digit is in it. */
  lemma CharactersAreAlphanumeric()
    ensures |Characters| == 62
    ensures forall c :: c in Characters <==> IsAlphanumeric(c)
  {
    UpperRange();
    LowerRange();
    DigitRange();
  }

  /** Every character the loop builds comes from the alphabet. */
  lemma {:induction false} SlugInAlphabet(draws: seq<real>)
    requires AllDraws(draws)
    ensures forall i :: 0 <= i < |Slug(draws)| ==> Slug(draws)[i] in Characters
    decreases |draws|
  {
    if draws != [] {
      var n := |draws| - 1;
      SlugInAlphabet(draws[..n]);
      var last := Index(draws[n]);
      assert Slug(draws) == Slug(draws[..n]) + [Characters[last]];
    }
  }

  /** A shorter run of the loop builds a prefix of a longer one. */
  lemma {:induction false} SlugPrefix(draws: seq<real>, k: nat)
    requires k <= |draws|
    requires AllDraws(draws)
    ensures Slug(draws[..k]) == Slug(draws)[..k]
    decreases |draws|
  {
    if k < |draws| {
      var n := |draws| - 1;
      SlugPrefix(draws[..n], k);
      assert draws[..n][..k] == draws[..k];
      var front := Slug(draws[..n]);
      assert Slug(draws) == front + CharAt(Characters, Index(draws[n]));
      assert (front + CharAt(Characters, Index(draws[n])))[..k] == front[..k];
    } else {
      assert draws[..k] == draws;
    }
  }

  /** The `for` loop of `generateRandomString`, given the draws of
      `Math.random()` it consumes. */
  method GenerateRandomString(length: nat, draws: seq<real>) returns (slug: string)
    requires |draws| >= length
    requires AllDraws(draws)
    ensures |slug| == length
    ensures forall i :: 0 <= i < |slug| ==> slug[i] in Characters && IsAlphanumeric(slug[i])
    ensures slug == Slug(draws[..length])
  {
    slug := "";
    for times := 0 to length
      invariant slug == Slug(draws[..times])
      invariant slug == Slug(draws[..length])[..times]
    {
      slug := slug + CharAt(Characters, Index(draws[times]));
      assert draws[..times + 1][..times] == draws[..times];
      SlugPrefix(draws[..length], times + 1);
      assert draws[..length][..times + 1] == draws[..times + 1];
    }
    SlugInAlphabet(draws[..length]);
    CharactersAreAlphanumeric();
  }
}
