/**
  The string primitives the aligner relies on: Rust's `str::trim` and
  `" ".repeat(n)`. A string is a sequence of Unicode scalar values and its
  length is the number of characters.
 */
module Text {

  /**
    Rust's `char::is_whitespace`: the 25 characters with the Unicode
    White_Space property, by code point.
   */
  predicate IsWhitespace(c: char)
  {
    var n := c as int;
    || n == 0x09 || n == 0x0A || n == 0x0B || n == 0x0C || n == 0x0D || n == 0x20
    || n == 0x85 || n == 0xA0 || n == 0x1680
    || n == 0x2000 || n == 0x2001 || n == 0x2002 || n == 0x2003 || n == 0x2004 || n == 0x2005
    || n == 0x2006 || n == 0x2007 || n == 0x2008 || n == 0x2009 || n == 0x200A
    || n == 0x2028 || n == 0x2029 || n == 0x202F || n == 0x205F || n == 0x3000
  }

  /**
    Among ASCII characters the whitespace is the space and tab through
    carriage return, and no whitespace character lies above U+3000.
   */
  lemma WhitespaceRange(c: char)
    ensures c as int < 0x80 ==> (IsWhitespace(c) <==> c == ' ' || '\t' <= c <= '\r')
    ensures IsWhitespace(c) ==> c as int <= 0x3000
  {
  }

  ghost predicate AllWhitespace(s: string)
  {
    forall k :: 0 <= k < |s| ==> IsWhitespace(s[k])
  }

  ghost predicate AllSpaces(s: string)
  {
    forall k :: 0 <= k < |s| ==> s[k] == ' '
  }

  /** No whitespace at either end. */
  predicate Trimmed(s: string)
  {
    s == [] || (!IsWhitespace(s[0]) && !IsWhitespace(s[|s| - 1]))
  }

  /** `s` is `m` preceded by the whitespace `s[..lead]` and followed by whitespace only. */
  ghost predicate Surrounds(s: string, lead: nat, m: string)
  {
    && lead + |m| <= |s|
    && s[lead..lead + |m|] == m
    && AllWhitespace(s[..lead])
    && AllWhitespace(s[lead + |m|..])
  }

  /** `n` spaces: `" ".repeat(n)`. */
  function Spaces(n: nat): (r: string)
    ensures |r| == n && AllSpaces(r)
  {
    seq(n, _ => ' ')
  }

  /** Appending no spaces leaves a string as it is. */
  lemma AppendNoSpaces(s: string)
    ensures s + Spaces(0) == s
  {
  }

  /**
    Rust's `str::trim`: drops whitespace from the front and from the back
    until both ends are other characters or nothing is left.
   */
  function Trim(s: string): (r: string)
    ensures |r| <= |s|
    ensures Trimmed(r)
    decreases |s|
  {
    if |s| > 0 && IsWhitespace(s[0]) then Trim(s[1..])
    else if |s| > 0 && IsWhitespace(s[|s| - 1]) then Trim(s[..|s| - 1])
    else s
  }

  /** A whitespace character in front keeps a decomposition one position further on. */
  lemma SurroundsCons(c: char, t: string, lead: nat, m: string)
    requires IsWhitespace(c) && Surrounds(t, lead, m)
    ensures Surrounds([c] + t, lead + 1, m)
  {
    var s := [c] + t;
    assert s[..lead + 1] == [c] + t[..lead];
    assert s[lead + 1..lead + 1 + |m|] == t[lead..lead + |m|];
    assert s[lead + 1 + |m|..] == t[lead + |m|..];
  }

  /** A whitespace character at the back keeps a decomposition. */
  lemma SurroundsSnoc(t: string, c: char, lead: nat, m: string)
    requires IsWhitespace(c) && Surrounds(t, lead, m)
    ensures Surrounds(t + [c], lead, m)
  {
    var s := t + [c];
    assert s[..lead] == t[..lead];
    assert s[lead..lead + |m|] == t[lead..lead + |m|];
    assert s[lead + |m|..] == t[lead + |m|..] + [c];
  }

  /** The number of whitespace characters `Trim` drops from the front of `s`. */
  ghost function TrimmedLead(s: string): nat
    decreases |s|
  {
    if |s| > 0 && IsWhitespace(s[0]) then 1 + TrimmedLead(s[1..])
    else if |s| > 0 && IsWhitespace(s[|s| - 1]) then TrimmedLead(s[..|s| - 1])
    else 0
  }

  /** `Trim` keeps a middle part of `s` that only whitespace surrounds. */
  lemma {:induction false} TrimSpec(s: string)
    ensures Surrounds(s, TrimmedLead(s), Trim(s))
    decreases |s|
  {
    if |s| > 0 && IsWhitespace(s[0]) {
      TrimSpec(s[1..]);
      SurroundsCons(s[0], s[1..], TrimmedLead(s[1..]), Trim(s[1..]));
      assert [s[0]] + s[1..] == s;
    } else if |s| > 0 && IsWhitespace(s[|s| - 1]) {
      TrimSpec(s[..|s| - 1]);
      SurroundsSnoc(s[..|s| - 1], s[|s| - 1], TrimmedLead(s[..|s| - 1]), Trim(s[..|s| - 1]));
      assert s[..|s| - 1] + [s[|s| - 1]] == s;
    } else {
      assert s[..0] == [] && s[0..|s|] == s && s[|s|..] == [];
    }
  }

  /** A non-whitespace character of `s` lies inside the middle part of every decomposition. */
  lemma NonWhitespaceInside(s: string, lead: nat, m: string, k: nat)
    requires Surrounds(s, lead, m)
    requires k < |s| && !IsWhitespace(s[k])
    ensures lead <= k < lead + |m|
  {
  }

  /** Two decompositions whose middles have no whitespace at their ends have the same middle. */
  lemma SameMiddle(s: string, lead: nat, m: string, lead': nat, r: string)
    requires Surrounds(s, lead, m) && Trimmed(m)
    requires Surrounds(s, lead', r) && Trimmed(r)
    ensures m == r
  {
    if r != [] {
      assert s[lead'] == r[0];
      NonWhitespaceInside(s, lead, m, lead');
      assert s[lead' + |r| - 1] == r[|r| - 1];
      NonWhitespaceInside(s, lead, m, lead' + |r| - 1);
    }
    if m != [] {
      assert s[lead] == m[0];
      NonWhitespaceInside(s, lead', r, lead);
      assert s[lead + |m| - 1] == m[|m| - 1];
      NonWhitespaceInside(s, lead', r, lead + |m| - 1);
    }
  }

  /**
    The decomposition of a string into leading whitespace, a middle with no
    whitespace at its ends and trailing whitespace is unique, and `Trim`
    returns its middle.
   */
  lemma TrimUnique(s: string, lead: nat, m: string)
    requires Surrounds(s, lead, m) && Trimmed(m)
    ensures Trim(s) == m
  {
    TrimSpec(s);
    SameMiddle(s, lead, m, TrimmedLead(s), Trim(s));
  }

  /** Trimming twice is trimming once. */
  lemma TrimIdempotent(s: string)
    ensures Trim(Trim(s)) == Trim(s)
  {
    var t := Trim(s);
    assert t[..0] == [] && t[0..|t|] == t && t[|t|..] == [];
    TrimUnique(t, 0, t);
  }

  /** Trimming undoes padding a trimmed string with spaces on either side. */
  lemma TrimPadded(a: nat, m: string, b: nat)
    requires Trimmed(m)
    ensures Trim(Spaces(a) + m + Spaces(b)) == m
  {
    var s := Spaces(a) + m + Spaces(b);
    assert s[..a] == Spaces(a);
    assert s[a..a + |m|] == m;
    assert s[a + |m|..] == Spaces(b);
    TrimUnique(s, a, m);
  }
}
