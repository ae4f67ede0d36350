/** The escape applied to a `data` payload before it is logged and echoed
    back: `raw.replace(/\r/g, "\\r").replace(/\n/g, "\\n")`. */
module Payload {
  // `Count` (occurrences of one character in a string) is shared with the
  // topic splitting, which counts separators with it.
  import opened Topics

  const CR: char := '\r'
  const LF: char := '\n'

  /** No carriage return and no line feed: the payload fits on one log line. */
  predicate SingleLine(s: string)
  {
    CR !in s && LF !in s
  }

  /** `s.replace(/c/g, by)`: every occurrence of `c` replaced by `by`. */
  function ReplaceAll(s: string, c: char, replacement: string): (r: string)
    ensures c !in replacement ==> c !in r
    ensures forall x :: x != c && x !in replacement ==> (x in r <==> x in s)
  {
    if s == [] then []
    else (if s[0] == c then replacement else [s[0]]) + ReplaceAll(s[1..], c, replacement)
  }

  /** The two chained replacements of the handler, in the handler's order.
      The result holds no CR and no LF, and every character other than CR,
      LF and the three introduced ones (`\`, `r`, `n`) occurs in it exactly
      when it occurs in the payload. */
  function Escape(s: string): (r: string)
    ensures SingleLine(r)
    ensures forall x :: x != CR && x != LF && x != '\\' && x != 'r' && x != 'n' ==>
      (x in r <==> x in s)
  {
    ReplaceAll(ReplaceAll(s, CR, ['\\', 'r']), LF, ['\\', 'n'])
  }

  /** Reference definition: each character escaped on its own, in one pass. */
  function EscapeChar(c: char): string
  {
    if c == CR then ['\\', 'r'] else if c == LF then ['\\', 'n'] else [c]
  }

  function EscapeEach(s: string): string
  {
    if s == [] then [] else EscapeChar(s[0]) + EscapeEach(s[1..])
  }

  lemma {:induction false} ReplaceAllAppend(a: string, b: string, c: char, replacement: string)
    ensures ReplaceAll(a + b, c, replacement) == ReplaceAll(a, c, replacement) + ReplaceAll(b, c, replacement)
    decreases |a|
  {
    if a != [] {
      ReplaceAllAppend(a[1..], b, c, replacement);
      assert (a + b)[0] == a[0] && (a + b)[1..] == a[1..] + b;
    } else {
      assert a + b == b;
    }
  }

  /** The chained replacements equal the one-pass escape: replacing CR first
      cannot create a LF for the second replacement to find. */
  lemma {:induction false} EscapeIsPerCharacter(s: string)
    ensures Escape(s) == EscapeEach(s)
    decreases |s|
  {
    if s != [] {
      EscapeIsPerCharacter(s[1..]);
      var head := if s[0] == CR then ['\\', 'r'] else [s[0]];
      ReplaceAllAppend(head, ReplaceAll(s[1..], CR, ['\\', 'r']), LF, ['\\', 'n']);
      if s[0] == CR {
        assert ReplaceAll(head, LF, ['\\', 'n']) == ['\\', 'r'] by {
          assert head == ['\\'] + ['r'];
          ReplaceAllAppend(['\\'], ['r'], LF, ['\\', 'n']);
        }
      }
    }
  }

  lemma {:induction false} EscapeEachAppend(a: string, b: string)
    ensures EscapeEach(a + b) == EscapeEach(a) + EscapeEach(b)
    decreases |a|
  {
    if a != [] {
      EscapeEachAppend(a[1..], b);
      assert (a + b)[0] == a[0] && (a + b)[1..] == a[1..] + b;
    } else {
      assert a + b == b;
    }
  }

  /** The escape works character by character: escaping a concatenation is
      the concatenation of the escapes, so characters keep their order. */
  lemma EscapeAppend(a: string, b: string)
    ensures Escape(a + b) == Escape(a) + Escape(b)
  {
    EscapeIsPerCharacter(a + b);
    EscapeIsPerCharacter(a);
    EscapeIsPerCharacter(b);
    EscapeEachAppend(a, b);
  }

  lemma {:induction false} EscapeEachLength(s: string)
    ensures |EscapeEach(s)| == |s| + Count(s, CR) + Count(s, LF)
    decreases |s|
  {
    if s != [] {
      EscapeEachLength(s[1..]);
    }
  }

  /** Each CR and each LF grows the payload by exactly one character. */
  lemma EscapeLength(s: string)
    ensures |Escape(s)| == |s| + Count(s, CR) + Count(s, LF)
  {
    EscapeIsPerCharacter(s);
    EscapeEachLength(s);
  }

  lemma {:induction false} EscapeEachFixes(s: string)
    requires SingleLine(s)
    ensures EscapeEach(s) == s
    decreases |s|
  {
    if s != [] {
      assert s[0] in s;
      assert SingleLine(s[1..]) by {
        assert forall x :: x in s[1..] ==> x in s;
      }
      EscapeEachFixes(s[1..]);
      assert [s[0]] + s[1..] == s;
    }
  }

  /** A payload with no CR and no LF is echoed verbatim; backslashes already
      in it are not escaped. */
  lemma EscapeFixesSingleLine(s: string)
    requires SingleLine(s)
    ensures Escape(s) == s
  {
    EscapeIsPerCharacter(s);
    EscapeEachFixes(s);
  }

  /** Escaping twice is escaping once. */
  lemma EscapeIdempotent(s: string)
    ensures Escape(Escape(s)) == Escape(s)
  {
    EscapeFixesSingleLine(Escape(s));
  }

  /** The escape is not injective: a real CR and the two characters `\r`
      already present in the payload are echoed alike. */
  lemma EscapeNotInjective(prefix: string, suffix: string)
    ensures prefix + [CR] + suffix != prefix + ['\\', 'r'] + suffix
    ensures Escape(prefix + [CR] + suffix) == Escape(prefix + ['\\', 'r'] + suffix)
  {
    var a := prefix + [CR] + suffix;
    var b := prefix + ['\\', 'r'] + suffix;
    assert a[|prefix|] == CR != b[|prefix|];
    EscapeAppend(prefix + [CR], suffix);
    EscapeAppend(prefix, [CR]);
    EscapeAppend(prefix + ['\\', 'r'], suffix);
    EscapeAppend(prefix, ['\\', 'r']);
    EscapeFixesSingleLine(['\\', 'r']);
    EscapeIsPerCharacter([CR]);
    assert EscapeEach([CR]) == EscapeChar(CR) + EscapeEach([]);
  }
}
