/**
 * The JavaScript string operations the cart and checkout code relies on:
 * `\s`, `String.prototype.trim`, ASCII case mapping, and the email pattern
 * `^[^\s@]+@[^\s@]+\.[^\s@]+$` used by both the checkout page and the
 * checkout controller.
 */
module Text {

  import opened Seqs

  /** JavaScript white space and line terminators: what `\s` matches and what `trim` strips. */
  predicate IsSpace(c: char)
  {
    var n := c as int;
    n == 0x09 || n == 0x0A || n == 0x0B || n == 0x0C || n == 0x0D || n == 0x20 ||
    n == 0xA0 || n == 0x1680 || (0x2000 <= n <= 0x200A) || n == 0x2028 || n == 0x2029 ||
    n == 0x202F || n == 0x205F || n == 0x3000 || n == 0xFEFF
  }

  predicate NoSpace(s: string)
  {
    forall i :: 0 <= i < |s| ==> !IsSpace(s[i])
  }

  predicate AllSpace(s: string)
  {
    forall i :: 0 <= i < |s| ==> IsSpace(s[i])
  }

  /** `s.trimStart()` */
  function TrimStart(s: string): string
  {
    if s != [] && IsSpace(s[0]) then TrimStart(s[1..]) else s
  }

  /** `s.trimEnd()` */
  function TrimEnd(s: string): string
  {
    if s != [] && IsSpace(s[|s| - 1]) then TrimEnd(s[..|s| - 1]) else s
  }

  /** `s.trim()` */
  function Trim(s: string): string
  {
    TrimEnd(TrimStart(s))
  }

  /** Trimming the start leaves a suffix of `s` that does not start with white space, and drops only white space. */
  lemma {:induction false} TrimStartSpec(s: string)
    ensures var r := TrimStart(s);
      && |r| <= |s| && r == s[|s| - |r|..]
      && AllSpace(s[..|s| - |r|])
      && (r == [] || !IsSpace(r[0]))
  {
    if s != [] && IsSpace(s[0]) {
      TrimStartSpec(s[1..]);
      var r := TrimStart(s);
      assert s[..|s| - |r|] == [s[0]] + s[1..][..|s| - 1 - |r|];
    }
  }

  /** Trimming the end leaves a prefix of `s` that does not end with white space, and drops only white space. */
  lemma {:induction false} TrimEndSpec(s: string)
    ensures var r := TrimEnd(s);
      && |r| <= |s| && r == s[..|r|]
      && AllSpace(s[|r|..])
      && (r == [] || !IsSpace(r[|r| - 1]))
  {
    if s != [] && IsSpace(s[|s| - 1]) {
      var s' := s[..|s| - 1];
      TrimEndSpec(s');
      var r := TrimEnd(s);
      assert s[|r|..] == s'[|r|..] + [s[|s| - 1]];
    }
  }

  /** `!s.trim()` holds exactly for the strings made of white space only (the empty one included). */
  lemma TrimEmptyIff(s: string)
    ensures Trim(s) == [] <==> AllSpace(s)
  {
    TrimStartSpec(s);
    var t := TrimStart(s);
    TrimEndSpec(t);
    if Trim(s) == [] {
      assert AllSpace(t[0..]);
      assert t == [];
      assert s[..|s|] == s;
    }
  }

  /** Trimming a string without white space gives it back unchanged. */
  lemma TrimNoSpace(s: string)
    requires NoSpace(s)
    ensures Trim(s) == s
  {
    if s != [] {
      assert !IsSpace(s[0]) && !IsSpace(s[|s| - 1]);
    }
  }

  function LowerChar(c: char): char
  {
    if 'A' <= c <= 'Z' then (c as int + 32) as char else c
  }

  function UpperChar(c: char): char
  {
    if 'a' <= c <= 'z' then (c as int - 32) as char else c
  }

  /** `s.toLowerCase()`, on the ASCII letters. */
  function ToLower(s: string): (r: string)
    ensures |r| == |s|
    ensures forall i :: 0 <= i < |s| ==> r[i] == LowerChar(s[i])
  {
    if s == [] then [] else [LowerChar(s[0])] + ToLower(s[1..])
  }

  /** `[^\s@]`: a character each of the three parts of the email pattern may hold. */
  predicate PlainChar(c: char)
  {
    !IsSpace(c) && c != '@'
  }

  /** `[^\s@]+`: a non-empty run of plain characters. */
  predicate PlainRun(w: string)
  {
    w != [] && forall i :: 0 <= i < |w| ==> PlainChar(w[i])
  }

  /** The pattern matches `s` split as `s[..at]`, '@', `s[at+1..dot]`, '.', `s[dot+1..]`. */
  predicate SplitsAsEmail(s: string, at: int, dot: int)
    requires 0 <= at < dot < |s|
  {
    s[at] == '@' && s[dot] == '.' && PlainRun(s[..at]) && PlainRun(s[at + 1..dot]) && PlainRun(s[dot + 1..])
  }

  /** `/^[^\s@]+@[^\s@]+\.[^\s@]+$/.test(s)`: some split of `s` fits the pattern. */
  ghost predicate EmailPattern(s: string)
  {
    exists at, dot | 0 <= at < dot < |s| :: SplitsAsEmail(s, at, dot)
  }

  /** The first index of `c` in `s`, or `|s|` when there is none. */
  function IndexOf(s: string, c: char): (i: nat)
    ensures i <= |s|
    ensures i < |s| ==> s[i] == c
    ensures forall k :: 0 <= k < i ==> s[k] != c
  {
    FirstIndex(s, (x: char) => x == c)
  }

  /** `d` has a '.' with at least one character on each side. */
  predicate HasInnerDot(d: string)
  {
    exists k :: 0 < k < |d| - 1 && d[k] == '.'
  }

  /**
   * The email check as four plain conditions: no white space, exactly one '@',
   * a non-empty part before it, and a domain after it holding an inner '.'.
   */
  predicate IsEmail(s: string)
  {
    var at := IndexOf(s, '@');
    NoSpace(s) && 0 < at < |s| && '@' !in s[at + 1..] && HasInnerDot(s[at + 1..])
  }

  /** A split that fits the pattern meets the four conditions. */
  lemma SplitGivesEmail(s: string, at: int, dot: int)
    requires 0 <= at < dot < |s| && SplitsAsEmail(s, at, dot)
    ensures IsEmail(s)
  {
    forall i | 0 <= i < |s| ensures !IsSpace(s[i]) && (s[i] == '@' ==> i == at) {
      if i < at {
        assert s[i] == s[..at][i];
      } else if at < i < dot {
        assert s[i] == s[at + 1..dot][i - at - 1];
      } else if dot < i {
        assert s[i] == s[dot + 1..][i - dot - 1];
      }
    }
    assert IndexOf(s, '@') == at;
    var d := s[at + 1..];
    assert d[dot - at - 1] == '.';
    forall k | 0 <= k < |d| ensures d[k] != '@' {
      assert d[k] == s[at + 1 + k];
    }
  }

  /** The four conditions give a split that fits the pattern. */
  lemma EmailGivesSplit(s: string) returns (at: int, dot: int)
    requires IsEmail(s)
    ensures 0 <= at < dot < |s| && SplitsAsEmail(s, at, dot)
  {
    at := IndexOf(s, '@');
    var d := s[at + 1..];
    var k :| 0 < k < |d| - 1 && d[k] == '.';
    dot := at + 1 + k;
    forall i | 0 <= i < |d| ensures PlainChar(d[i]) {
      assert d[i] == s[at + 1 + i];
      assert d[i] in d;
    }
    forall i | 0 <= i < at ensures PlainChar(s[..at][i]) {
      assert s[..at][i] == s[i];
    }
    assert s[at + 1..dot] == d[..k];
    assert s[dot + 1..] == d[k + 1..];
  }

  /** The four conditions are exactly what the regular expression accepts. */
  lemma EmailPatternIff(s: string)
    ensures EmailPattern(s) <==> IsEmail(s)
  {
    if EmailPattern(s) {
      var at, dot :| 0 <= at < dot < |s| && SplitsAsEmail(s, at, dot);
      SplitGivesEmail(s, at, dot);
    }
    if IsEmail(s) {
      var at, dot := EmailGivesSplit(s);
    }
  }

  /** Lower-casing keeps an email an email: only letters change, never white space, '@' or '.'. */
  lemma ToLowerKeepsEmail(s: string)
    requires IsEmail(s)
    ensures IsEmail(ToLower(s))
  {
    var at, dot := EmailGivesSplit(s);
    var t := ToLower(s);
    forall i | 0 <= i < |s| && i != at && i != dot ensures PlainChar(t[i]) {
      if i < at {
        assert s[i] == s[..at][i];
      } else if i < dot {
        assert s[i] == s[at + 1..dot][i - at - 1];
      } else {
        assert s[i] == s[dot + 1..][i - dot - 1];
      }
    }
    var local, domain, top := t[..at], t[at + 1..dot], t[dot + 1..];
    forall i | 0 <= i < |local| ensures PlainChar(local[i]) {
      assert local[i] == t[i];
    }
    forall i | 0 <= i < |domain| ensures PlainChar(domain[i]) {
      assert domain[i] == t[at + 1 + i];
    }
    forall i | 0 <= i < |top| ensures PlainChar(top[i]) {
      assert top[i] == t[dot + 1 + i];
    }
    assert SplitsAsEmail(t, at, dot);
    SplitGivesEmail(t, at, dot);
  }

  /** A plain address is accepted. */
  lemma SampleEmailAccepted()
    ensures IsEmail("jo@x.com")
  {
    assert SplitsAsEmail("jo@x.com", 2, 4);
    EmailPatternIff("jo@x.com");
  }

  /** The pattern is anchored, so leading or trailing white space makes an address invalid. */
  lemma PaddedEmailRejected(s: string)
    requires s != [] && (IsSpace(s[0]) || IsSpace(s[|s| - 1]))
    ensures !IsEmail(s) && !EmailPattern(s)
  {
    EmailPatternIff(s);
  }

  /** An address whose part after the first '@' holds no '.' is invalid, whatever dots the local part has. */
  lemma DotlessDomainRejected(s: string)
    requires forall k :: IndexOf(s, '@') < k < |s| ==> s[k] != '.'
    ensures !IsEmail(s) && !EmailPattern(s)
  {
    EmailPatternIff(s);
  }

}
