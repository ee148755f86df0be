/** The handful of Python `str` operations the modelled code relies on:
    substring search (`in`, `re.search` on a literal), `lower`, `capitalize`,
    `strip`, `join` and `replace`. Letters are folded on ASCII only. */
module Text {
  import opened Outcomes

  /** `needle` occurs in `hay` starting at index `i`. */
  predicate OccursAt(hay: string, needle: string, i: nat)
  {
    i + |needle| <= |hay| && hay[i..i + |needle|] == needle
  }

  /** An occurrence inside a slice is an occurrence in the whole string,
      shifted by the slice's start and ending within the slice. */
  lemma OccursInSlice(s: string, needle: string, lo: nat, hi: nat, i: nat)
    requires lo <= hi <= |s|
    requires OccursAt(s[lo..hi], needle, i)
    ensures lo + i + |needle| <= hi && OccursAt(s, needle, lo + i)
  {
    var inner := s[lo..hi];
    assert |inner| == hi - lo;
    var x, y := inner[i..i + |needle|], s[lo + i..lo + i + |needle|];
    forall k | 0 <= k < |needle| ensures x[k] == y[k] {
      assert inner[i + k] == s[lo + i + k];
    }
    assert x == y;
  }

  /** When `s[lo..hi]` is `window`, and no occurrence starts at the first
      `k` positions of `window`, none starts at the matching positions of
      `s`, provided an occurrence there would end inside the window. */
  lemma NoOccurrenceInWindow(s: string, needle: string, lo: nat, hi: nat, window: string, k: nat)
    requires lo <= hi <= |s| && s[lo..hi] == window
    requires k + |needle| <= |window|
    requires forall i :: 0 <= i < k ==> !OccursAt(window, needle, i)
    ensures forall q :: lo <= q < lo + k ==> !OccursAt(s, needle, q)
  {
    forall q | lo <= q < lo + k ensures !OccursAt(s, needle, q) {
      assert !OccursAt(window, needle, q - lo);
      var x, y := window[q - lo..q - lo + |needle|], s[q..q + |needle|];
      forall j | 0 <= j < |needle| ensures x[j] == y[j] {
        assert window[q - lo + j] == s[q + j];
      }
      assert x == y;
    }
  }

  /** Index of the first occurrence of `needle` in `hay` at or after `from`
      (Python's `hay.find(needle, from)`, with `None` for -1). */
  function FindFrom(hay: string, needle: string, from: nat): (r: Option<nat>)
    decreases |hay| - from
    ensures r.Some? ==> from <= r.value && r.value + |needle| <= |hay|
  {
    if from + |needle| > |hay| then None
    else if hay[from..from + |needle|] == needle then Some(from)
    else FindFrom(hay, needle, from + 1)
  }

  /** `FindFrom` returns the first occurrence at or after `from`, and `None`
      exactly when there is none. */
  lemma {:induction false} FindFromSpec(hay: string, needle: string, from: nat)
    ensures var r := FindFrom(hay, needle, from);
      && (r.Some? ==> from <= r.value && OccursAt(hay, needle, r.value))
      && (r.Some? ==> forall j :: from <= j < r.value ==> !OccursAt(hay, needle, j))
      && (r.None? ==> forall j :: from <= j ==> !OccursAt(hay, needle, j))
    decreases |hay| - from
  {
    if from + |needle| <= |hay| && hay[from..from + |needle|] != needle {
      FindFromSpec(hay, needle, from + 1);
    }
  }

  /** Python's `needle in hay` on strings. */
  predicate Contains(hay: string, needle: string)
  {
    FindFrom(hay, needle, 0).Some?
  }

  /** `Contains` holds exactly when there is a position where `needle` occurs. */
  lemma ContainsIff(hay: string, needle: string)
    ensures Contains(hay, needle) <==> exists i :: OccursAt(hay, needle, i)
  {
    FindFromSpec(hay, needle, 0);
    if Contains(hay, needle) {
      assert OccursAt(hay, needle, FindFrom(hay, needle, 0).value);
    }
  }

  function LowerChar(c: char): char
  {
    if 'A' <= c <= 'Z' then (c as int + 32) as char else c
  }

  function UpperChar(c: char): char
  {
    if 'a' <= c <= 'z' then (c as int - 32) as char else c
  }

  /** Python's `str.lower()`, on ASCII letters. */
  function Lower(s: string): (r: string)
    ensures |r| == |s|
    ensures forall i :: 0 <= i < |s| ==> r[i] == LowerChar(s[i])
  {
    if s == [] then [] else [LowerChar(s[0])] + Lower(s[1..])
  }

  /** Python's `str.capitalize()`: the first character upper-cased, every
      other one lower-cased (ASCII letters). */
  function Capitalize(s: string): (r: string)
    ensures |r| == |s|
    ensures s != [] ==> r[0] == UpperChar(s[0]) && r[1..] == Lower(s[1..])
  {
    if s == [] then [] else [UpperChar(s[0])] + Lower(s[1..])
  }

  /** The characters for which Python's `str.isspace()` holds. */
  const Whitespace: set<char> := {
    '\t', '\n', '\U{0B}', '\U{0C}', '\r', '\U{1C}', '\U{1D}', '\U{1E}', '\U{1F}', ' ',
    '\U{85}', '\U{A0}', '\U{1680}',
    '\U{2000}', '\U{2001}', '\U{2002}', '\U{2003}', '\U{2004}', '\U{2005}',
    '\U{2006}', '\U{2007}', '\U{2008}', '\U{2009}', '\U{200A}',
    '\U{2028}', '\U{2029}', '\U{202F}', '\U{205F}', '\U{3000}'}

  /** Python's `str.isspace()` for one character. */
  predicate IsSpace(c: char)
  {
    c in Whitespace
  }

  /** The first index at or after `i` whose character is not whitespace,
      or `|s|` when there is none. */
  function SkipSpaces(s: string, i: nat): (j: nat)
    requires i <= |s|
    ensures i <= j <= |s|
    ensures j == |s| || !IsSpace(s[j])
    ensures forall k :: i <= k < j ==> IsSpace(s[k])
    decreases |s| - i
  {
    if i < |s| && IsSpace(s[i]) then SkipSpaces(s, i + 1) else i
  }

  /** The end of `s[lo..hi]` once its trailing whitespace is dropped. */
  function TrimEnd(s: string, lo: nat, hi: nat): (j: nat)
    requires lo <= hi <= |s|
    ensures lo <= j <= hi
    ensures j == lo || !IsSpace(s[j - 1])
    ensures forall k :: j <= k < hi ==> IsSpace(s[k])
    decreases hi - lo
  {
    if lo < hi && IsSpace(s[hi - 1]) then TrimEnd(s, lo, hi - 1) else hi
  }

  /** `r` is `s[i..i + |r|]` and everything of `s` around it is whitespace. */
  predicate StrippedAt(s: string, r: string, i: nat)
  {
    && i + |r| <= |s|
    && r == s[i..i + |r|]
    && (forall k :: 0 <= k < i ==> IsSpace(s[k]))
    && (forall k :: i + |r| <= k < |s| ==> IsSpace(s[k]))
  }

  /** Python's `str.strip()`: `s` without its leading and trailing whitespace. */
  function Strip(s: string): string
  {
    var i := SkipSpaces(s, 0);
    s[i..TrimEnd(s, i, |s|)]
  }

  /** `Strip` removes exactly the leading and trailing whitespace: the result
      is a slice of `s` surrounded by whitespace only, and it neither starts
      nor ends with whitespace. */
  lemma StripSpec(s: string)
    ensures var r := Strip(s);
      && (r == [] || (!IsSpace(r[0]) && !IsSpace(r[|r| - 1])))
      && StrippedAt(s, r, SkipSpaces(s, 0))
  {
    var i := SkipSpaces(s, 0);
    var j := TrimEnd(s, i, |s|);
    var r := Strip(s);
    if r != [] {
      assert r[0] == s[i];
      assert r[|r| - 1] == s[j - 1];
    }
  }

  /** Stripping cannot create an occurrence: what is absent from `s` is
      absent from `Strip(s)`. */
  lemma StripKeepsAbsent(s: string, needle: string)
    requires forall i :: !OccursAt(s, needle, i)
    ensures forall i :: !OccursAt(Strip(s), needle, i)
  {
    StripSpec(s);
    var r := Strip(s);
    var j := SkipSpaces(s, 0);
    forall i: nat ensures !OccursAt(r, needle, i) {
      if OccursAt(r, needle, i) {
        OccursInSlice(s, needle, j, j + |r|, i);
      }
    }
  }

  /** `"".join(pieces)`, the pieces glued together in order. */
  function Concat(pieces: seq<string>): string
  {
    if pieces == [] then "" else Concat(pieces[..|pieces| - 1]) + pieces[|pieces| - 1]
  }

  /** A single piece glued on its own is that piece. */
  lemma ConcatSingle(x: string)
    ensures Concat([x]) == x
  {
    assert [x][..0] == [];
    assert Concat([x]) == Concat([]) + x;
  }

  /** Gluing two runs of pieces is gluing their results. */
  lemma {:induction false} ConcatAppend(a: seq<string>, b: seq<string>)
    ensures Concat(a + b) == Concat(a) + Concat(b)
    decreases |b|
  {
    if b == [] {
      assert a + b == a;
    } else {
      var init, last := b[..|b| - 1], b[|b| - 1];
      assert (a + b)[..|a + b| - 1] == a + init;
      assert (a + b)[|a + b| - 1] == last;
      ConcatAppend(a, init);
      assert Concat(a + b) == (Concat(a) + Concat(init)) + last;
      assert Concat(b) == Concat(init) + last;
    }
  }

  /** `sep.join(parts)`. */
  function Join(parts: seq<string>, sep: string): string
  {
    if |parts| == 0 then ""
    else if |parts| == 1 then parts[0]
    else parts[0] + sep + Join(parts[1..], sep)
  }

  /** Python's `s.replace(pattern, repl)` for a non-empty `pattern`: every occurrence,
      scanned left to right without overlap, is replaced. */
  function ReplaceAll(s: string, pattern: string, repl: string): string
    requires pattern != []
    decreases |s|
  {
    if |s| < |pattern| then s
    else if s[..|pattern|] == pattern then repl + ReplaceAll(s[|pattern|..], pattern, repl)
    else [s[0]] + ReplaceAll(s[1..], pattern, repl)
  }

  /** A string with no occurrence of `pattern` is left as it is. */
  lemma {:induction false} ReplaceAbsent(s: string, pattern: string, repl: string)
    requires pattern != []
    requires forall i :: !OccursAt(s, pattern, i)
    ensures ReplaceAll(s, pattern, repl) == s
    decreases |s|
  {
    if |s| >= |pattern| {
      assert !OccursAt(s, pattern, 0);
      forall i: nat ensures !OccursAt(s[1..], pattern, i) {
        assert !OccursAt(s, pattern, i + 1);
      }
      ReplaceAbsent(s[1..], pattern, repl);
    }
  }

  /** Text before the first occurrence of `pattern` passes through, that
      occurrence is replaced, and replacing goes on in the rest. */
  lemma {:induction false} ReplaceFirst(p: string, pattern: string, repl: string, rest: string)
    requires pattern != []
    requires forall i :: 0 <= i < |p| ==> !OccursAt(p + pattern + rest, pattern, i)
    ensures ReplaceAll(p + pattern + rest, pattern, repl) == p + repl + ReplaceAll(rest, pattern, repl)
    decreases |p|
  {
    var s := p + pattern + rest;
    if p == [] {
      assert s == pattern + rest;
      assert s[..|pattern|] == pattern && s[|pattern|..] == rest;
    } else {
      assert !OccursAt(s, pattern, 0);
      assert s[..|pattern|] != pattern;
      assert s[1..] == p[1..] + pattern + rest;
      forall i | 0 <= i < |p[1..]| ensures !OccursAt(p[1..] + pattern + rest, pattern, i) {
        assert !OccursAt(s, pattern, i + 1);
        if i + |pattern| <= |s[1..]| {
          assert s[1..][i..i + |pattern|] == s[i + 1..i + 1 + |pattern|];
        }
      }
      ReplaceFirst(p[1..], pattern, repl, rest);
      assert ReplaceAll(s, pattern, repl) == [s[0]] + ReplaceAll(s[1..], pattern, repl);
      assert p == [p[0]] + p[1..];
    }
  }

  /** The decimal digit for `d`. */
  function DigitChar(d: nat): (c: char)
    requires d < 10
    ensures '0' <= c <= '9' && DigitValue(c) == d
  {
    (('0' as int) + d) as char
  }

  /** The value of one decimal digit character. */
  function DigitValue(c: char): int
  {
    c as int - '0' as int
  }

  /** The number a string of decimal digits spells, read left to right:
      each digit multiplies what was read so far by ten and adds itself. */
  function DigitsValue(digits: string): int
  {
    if digits == [] then 0
    else 10 * DigitsValue(digits[..|digits| - 1]) + DigitValue(digits[|digits| - 1])
  }

  /** Python's `str(n)` for a natural number: the decimal digits that spell
      `n`, with no leading zero. */
  function NatToString(n: nat): (r: string)
    ensures r != []
    ensures forall k :: 0 <= k < |r| ==> '0' <= r[k] <= '9'
    ensures r[0] == '0' ==> r == "0"
    ensures DigitsValue(r) == n
  {
    if n < 10 then [DigitChar(n)]
    else
      var r := NatToString(n / 10) + [DigitChar(n % 10)];
      assert r[..|r| - 1] == NatToString(n / 10);
      r
  }

  /** Python's `str(i)` for an integer. */
  function IntToString(i: int): string
  {
    if i < 0 then "-" + NatToString(-i) else NatToString(i)
  }
}
