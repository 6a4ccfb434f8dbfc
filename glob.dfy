/**
 * The shell-glob subset used by every project rule: `*` matches any run of
 * characters (including none), every other character matches itself, and the
 * whole value must be consumed by the whole pattern.
 */
module Glob {

  /** True when the pattern has no wildcard, i.e. it only matches literally. */
  predicate NoWildcard(pattern: string) {
    '*' !in pattern
  }

  /** Anchored, case-sensitive glob match of `value` against `pattern`. */
  predicate Match(pattern: string, value: string)
    decreases |pattern| + |value|
  {
    if pattern == [] then value == []
    else if pattern[0] == '*' then
      // the wildcard either stops here or swallows one more character
      Match(pattern[1..], value) || (value != [] && Match(pattern, value[1..]))
    else
      value != [] && pattern[0] == value[0] && Match(pattern[1..], value[1..])
  }

  /** The lone wildcard `*` accepts every value. */
  lemma {:induction false} StarMatchesAnything(value: string)
    ensures Match("*", value)
  {
    if value != [] {
      StarMatchesAnything(value[1..]);
    }
  }

  /** A pattern without wildcards matches exactly the one value equal to it. */
  lemma {:induction false} LiteralMatchIsEquality(pattern: string, value: string)
    requires NoWildcard(pattern)
    ensures Match(pattern, value) <==> pattern == value
  {
    if pattern != [] && value != [] {
      LiteralMatchIsEquality(pattern[1..], value[1..]);
      if pattern[0] == value[0] && pattern[1..] == value[1..] {
        assert pattern == [pattern[0]] + pattern[1..];
        assert value == [value[0]] + value[1..];
      }
    }
  }

  /** `p*` with a literal `p` matches exactly the values that start with `p`. */
  lemma {:induction false} PrefixPatternMatchesPrefixes(prefix: string, value: string)
    requires NoWildcard(prefix)
    ensures Match(prefix + "*", value) <==> prefix <= value
  {
    if prefix == [] {
      assert prefix + "*" == "*";
      StarMatchesAnything(value);
    } else {
      assert (prefix + "*")[0] == prefix[0];
      assert (prefix + "*")[1..] == prefix[1..] + "*";
      if value != [] {
        PrefixPatternMatchesPrefixes(prefix[1..], value[1..]);
      }
    }
  }

  /** Every pattern matches its own text, `*` standing for the character `*`. */
  lemma {:induction false} PatternMatchesItself(pattern: string)
    ensures Match(pattern, pattern)
  {
    if pattern != [] {
      PatternMatchesItself(pattern[1..]);
      if pattern[0] == '*' {
        // the wildcard swallows the literal `*`, then matches nothing
        assert Match(pattern, pattern[1..]);
      }
    }
  }

  /** A literal prefix shared by pattern and value is consumed character by character. */
  lemma {:induction false} LiteralPrefixConsumed(prefix: string, pattern: string, value: string)
    requires NoWildcard(prefix)
    ensures Match(prefix + pattern, prefix + value) <==> Match(pattern, value)
  {
    if prefix != [] {
      assert (prefix + pattern)[0] == prefix[0] && (prefix + pattern)[1..] == prefix[1..] + pattern;
      assert (prefix + value)[0] == prefix[0] && (prefix + value)[1..] == prefix[1..] + value;
      LiteralPrefixConsumed(prefix[1..], pattern, value);
    } else {
      assert prefix + pattern == pattern && prefix + value == value;
    }
  }

  /** A leading wildcard may swallow any run of characters before the rest matches. */
  lemma {:induction false} WildcardSkips(pattern: string, skipped: string, value: string)
    requires Match(pattern, value)
    ensures Match("*" + pattern, skipped + value)
  {
    assert ("*" + pattern)[1..] == pattern;
    if skipped != [] {
      WildcardSkips(pattern, skipped[1..], value);
      assert (skipped + value)[1..] == skipped[1..] + value;
    } else {
      assert skipped + value == value;
    }
  }
}
