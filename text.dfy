/**
 * The string primitives the bot relies on, as Python defines them:
 * `str.isspace`, `str.lower`, `str.strip`, `str.split()` without arguments,
 * the substring test `a in b`, `sep.join(parts)` and the slice `s[:n]`.
 *
 * White space and digits are ASCII. Lower-casing covers the ASCII capitals
 * and the Cyrillic capitals U+0400-U+042F (the Russian alphabet the bot's
 * texts are written in, with Ѐ-Џ); every other character, the remaining
 * Cyrillic capitals such as Ґ included, is left unchanged by `lower`. The
 * word characters of the keyword extractor cover the whole Cyrillic block.
 */
module Text {

  /** Python's `str.isspace` on ASCII: tab, line feed, vertical tab, form feed,
      carriage return, the four information separators and the space. */
  predicate IsSpace(c: char) {
    c == ' ' || '\U{9}' <= c <= '\U{D}' || '\U{1C}' <= c <= '\U{1F}'
  }

  predicate IsAsciiDigit(c: char) {
    '0' <= c <= '9'
  }

  /** True when every character is a decimal digit and there is at least one (`str.isdigit`). */
  predicate IsAllDigits(s: string) {
    |s| > 0 && forall i :: 0 <= i < |s| ==> IsAsciiDigit(s[i])
  }

  predicate IsUpper(c: char) {
    'A' <= c <= 'Z' || '\U{400}' <= c <= '\U{42F}'
  }

  /** `str.lower` on one character: A-Z, the Cyrillic capitals А-Я and the capitals Ѐ-Џ. */
  function LowerChar(c: char): (d: char)
    ensures !IsUpper(d)
    ensures IsSpace(d) == IsSpace(c)
    ensures !IsUpper(c) ==> d == c
  {
    if 'A' <= c <= 'Z' then (c as int + 32) as char
    else if '\U{410}' <= c <= '\U{42F}' then (c as int + 32) as char
    else if '\U{400}' <= c <= '\U{40F}' then (c as int + 80) as char
    else c
  }

  function Lower(s: string): (r: string)
    ensures |r| == |s|
    ensures forall i :: 0 <= i < |s| ==> r[i] == LowerChar(s[i])
  {
    seq(|s|, i requires 0 <= i < |s| => LowerChar(s[i]))
  }

  /** Lowering twice is lowering once. */
  lemma LowerIdempotent(s: string)
    ensures Lower(Lower(s)) == Lower(s)
  {
  }

  /** A string without capitals is its own lower-case form. */
  lemma LowerOfLower(s: string)
    requires forall i :: 0 <= i < |s| ==> !IsUpper(s[i])
    ensures Lower(s) == s
  {
  }

  /** A lower-case Cyrillic letter is absent from `Lower(s)` when neither it
      nor its capital occurs in `s`. */
  lemma LowerMissingCyrillic(s: string, c: char)
    requires '\U{430}' <= c <= '\U{44F}'
    requires c !in s && (c as int - 32) as char !in s
    ensures c !in Lower(s)
  {
    forall i | 0 <= i < |s| ensures Lower(s)[i] != c {
      assert s[i] in s;
    }
  }

  // ---------------------------------------------------------------- strip

  function TrimStart(s: string): (r: string)
    ensures |r| <= |s| && r == s[|s| - |r|..]
    ensures r != [] ==> !IsSpace(r[0])
    ensures forall i :: 0 <= i < |s| - |r| ==> IsSpace(s[i])
  {
    if s != [] && IsSpace(s[0]) then TrimStart(s[1..]) else s
  }

  function TrimEnd(s: string): (r: string)
    ensures |r| <= |s| && r == s[..|r|]
    ensures r != [] ==> !IsSpace(r[|r| - 1])
    ensures forall i :: |r| <= i < |s| ==> IsSpace(s[i])
  {
    if s != [] && IsSpace(s[|s| - 1]) then TrimEnd(s[..|s| - 1]) else s
  }

  /** `str.strip()`: the string without leading and trailing whitespace. */
  function Strip(s: string): (r: string)
    ensures r != [] ==> !IsSpace(r[0]) && !IsSpace(r[|r| - 1])
    ensures r == [] <==> forall i :: 0 <= i < |s| ==> IsSpace(s[i])
    ensures IsSubstring(r, s)
  {
    StripFacts(s);
    TrimEnd(TrimStart(s))
  }

  lemma StripFacts(s: string)
    ensures TrimEnd(TrimStart(s)) == [] <==> forall i :: 0 <= i < |s| ==> IsSpace(s[i])
    ensures IsSubstring(TrimEnd(TrimStart(s)), s)
  {
    var t := TrimStart(s);
    var r := TrimEnd(t);
    StripOccurs(s, t, r);
    if r == [] {
      StripAllSpace(s, t);
    } else {
      assert s[|s| - |t|] == r[0];
    }
  }

  lemma StripOccurs(s: string, t: string, r: string)
    requires |t| <= |s| && t == s[|s| - |t|..]
    requires |r| <= |t| && r == t[..|r|]
    ensures OccursAt(r, s, |s| - |t|) && IsSubstring(r, s)
  {
    var k := |s| - |t|;
    assert s[k..k + |r|] == r;
    assert OccursAt(r, s, k);
  }

  lemma StripAllSpace(s: string, t: string)
    requires t == TrimStart(s) && TrimEnd(t) == []
    ensures forall i :: 0 <= i < |s| ==> IsSpace(s[i])
  {
  }

  lemma TrimStartNoSpace(s: string)
    requires s != [] ==> !IsSpace(s[0])
    ensures TrimStart(s) == s
  {
  }

  lemma TrimEndNoSpace(s: string)
    requires s != [] ==> !IsSpace(s[|s| - 1])
    ensures TrimEnd(s) == s
  {
  }

  /** Stripping twice is stripping once. */
  lemma StripIdempotent(s: string)
    ensures Strip(Strip(s)) == Strip(s)
  {
    var r := Strip(s);
    TrimStartNoSpace(r);
    TrimEndNoSpace(r);
  }

  lemma TrimStartLower(s: string)
    ensures TrimStart(Lower(s)) == Lower(TrimStart(s))
  {
    if s != [] && IsSpace(s[0]) {
      assert Lower(s)[1..] == Lower(s[1..]);
      TrimStartLower(s[1..]);
    }
  }

  lemma TrimEndLower(s: string)
    ensures TrimEnd(Lower(s)) == Lower(TrimEnd(s))
  {
    if s != [] && IsSpace(s[|s| - 1]) {
      assert Lower(s)[..|s| - 1] == Lower(s[..|s| - 1]);
      TrimEndLower(s[..|s| - 1]);
    }
  }

  /** Lowering does not move whitespace, so it commutes with stripping. */
  lemma StripLower(s: string)
    ensures Strip(Lower(s)) == Lower(Strip(s))
  {
    TrimStartLower(s);
    TrimEndLower(TrimStart(s));
  }

  // ---------------------------------------------------------------- substrings

  predicate OccursAt(p: string, s: string, i: int) {
    0 <= i && i + |p| <= |s| && s[i..i + |p|] == p
  }

  /** Python's `p in s` on strings; the empty string occurs in every string. */
  predicate IsSubstring(p: string, s: string) {
    exists i | 0 <= i <= |s| - |p| :: OccursAt(p, s, i)
  }

  lemma SubstringTransitive(a: string, b: string, c: string)
    requires IsSubstring(a, b) && IsSubstring(b, c)
    ensures IsSubstring(a, c)
  {
    var i :| 0 <= i <= |b| - |a| && OccursAt(a, b, i);
    var j :| 0 <= j <= |c| - |b| && OccursAt(b, c, j);
    forall m | 0 <= m < |a| ensures c[j + i + m] == a[m] {
      assert c[j + i + m] == b[i + m];
    }
    assert c[j + i..j + i + |a|] == a;
    assert OccursAt(a, c, j + i);
  }

  lemma InfixIsSubstring(p: string, s: string, k: int)
    requires 0 <= k && k + |p| <= |s| && s[k..k + |p|] == p
    ensures IsSubstring(p, s)
  {
    assert OccursAt(p, s, k);
  }

  /** A lower-case pattern found in a text is found in the lower-cased text
      at the same place. */
  lemma LowerKeepsLowerInfix(p: string, s: string, k: int)
    requires OccursAt(p, s, k)
    requires forall i :: 0 <= i < |p| ==> !IsUpper(p[i])
    ensures IsSubstring(p, Lower(s))
  {
    forall i | 0 <= i < |p| ensures Lower(s)[k + i] == p[i] {
      assert s[k + i] == s[k..k + |p|][i];
    }
    InfixIsSubstring(p, Lower(s), k);
  }

  /** A pattern holding a character the text lacks does not occur in it. */
  lemma MissingCharNotSubstring(p: string, s: string, c: char)
    requires c in p && c !in s
    ensures !IsSubstring(p, s)
  {
  }

  // ---------------------------------------------------------------- split

  /** The longest prefix without whitespace. */
  function TakeWord(s: string): (w: string)
    ensures |w| <= |s| && w == s[..|w|]
    ensures forall i :: 0 <= i < |w| ==> !IsSpace(w[i])
    ensures s != [] && !IsSpace(s[0]) ==> w != []
  {
    if s == [] || IsSpace(s[0]) then [] else [s[0]] + TakeWord(s[1..])
  }

  /** `str.split()`: the maximal runs of non-whitespace characters, in order. */
  function Split(s: string): (words: seq<string>)
    ensures forall k :: 0 <= k < |words| ==> words[k] != []
    decreases |s|
  {
    var t := TrimStart(s);
    if t == [] then [] else
      var w := TakeWord(t);
      assert w != [];
      var rest := Split(t[|w|..]);
      ConsNonEmpty(w, rest);
      [w] + rest
  }

  lemma ConsNonEmpty<T>(w: seq<T>, rest: seq<seq<T>>)
    requires w != [] && forall k :: 0 <= k < |rest| ==> rest[k] != []
    ensures forall k :: 0 <= k < |[w] + rest| ==> ([w] + rest)[k] != []
  {
    forall k | 0 <= k < |[w] + rest| ensures ([w] + rest)[k] != [] {
      if k > 0 {
        assert ([w] + rest)[k] == rest[k - 1];
      }
    }
  }

  /** What occurs in a suffix occurs in the whole string. */
  lemma SuffixKeepsSubstring(v: string, s: string, k: int, suffix: string)
    requires 0 <= k <= |s| && suffix == s[k..] && IsSubstring(v, suffix)
    ensures IsSubstring(v, s)
  {
    var i :| 0 <= i <= |suffix| - |v| && OccursAt(v, suffix, i);
    assert s[k + i..k + i + |v|] == suffix[i..i + |v|];
    assert OccursAt(v, s, k + i);
  }

  lemma SuffixKeepsWords(words: seq<string>, s: string, k: int, suffix: string)
    requires 0 <= k <= |s| && suffix == s[k..]
    requires forall v :: v in words ==> IsSubstring(v, suffix)
    ensures forall v :: v in words ==> IsSubstring(v, s)
  {
    forall v | v in words ensures IsSubstring(v, s) {
      SuffixKeepsSubstring(v, s, k, suffix);
    }
  }

  /** Every word of `Split(s)` occurs in `s`. */
  lemma {:induction false} SplitWordsOccur(s: string)
    ensures forall w :: w in Split(s) ==> IsSubstring(w, s)
    decreases |s|
  {
    var t := TrimStart(s);
    if t != [] {
      var w := TakeWord(t);
      var rest := t[|w|..];
      assert Split(s) == [w] + Split(rest);
      assert OccursAt(w, t, 0);
      SuffixKeepsSubstring(w, s, |s| - |t|, t);
      SplitWordsOccur(rest);
      SuffixKeepsWords(Split(rest), t, |w|, rest);
      SuffixKeepsWords(Split(rest), s, |s| - |t|, t);
    }
  }

  /** A non-empty string without whitespace splits into itself. */
  lemma SplitSingleWord(s: string)
    requires s != []
    requires forall i :: 0 <= i < |s| ==> !IsSpace(s[i])
    ensures Split(s) == [s]
  {
    TrimStartNoSpace(s);
    TakeWordWhole(s);
    assert s[|s|..] == [];
  }

  /** Two words separated by one space split into those two words. */
  lemma SplitTwoWords(w1: string, w2: string)
    requires w1 != [] && w2 != []
    requires forall i :: 0 <= i < |w1| ==> !IsSpace(w1[i])
    requires forall i :: 0 <= i < |w2| ==> !IsSpace(w2[i])
    ensures Split(w1 + " " + w2) == [w1, w2]
  {
    var tail := " " + w2;
    var s := w1 + tail;
    assert s == w1 + " " + w2;
    assert s[0] == w1[0];
    TrimStartNoSpace(s);
    TakeWordThenSpace(w1, tail);
    assert s[|w1|..] == tail;
    assert Split(s) == [w1] + Split(tail);
    SplitSpaceWord(w2);
  }

  lemma SplitSpaceWord(w: string)
    requires w != []
    requires forall i :: 0 <= i < |w| ==> !IsSpace(w[i])
    ensures Split(" " + w) == [w]
  {
    var s := " " + w;
    assert s[1..] == w && IsSpace(s[0]);
    TrimStartNoSpace(w);
    assert TrimStart(s) == w;
    TakeWordWhole(w);
    var rest := w[|w|..];
    assert rest == [] && Split(rest) == [];
    assert Split(s) == [w] + Split(rest);
  }

  lemma {:induction false} TakeWordThenSpace(w: string, rest: string)
    requires forall i :: 0 <= i < |w| ==> !IsSpace(w[i])
    requires rest == [] || IsSpace(rest[0])
    ensures TakeWord(w + rest) == w
  {
    if w != [] {
      assert (w + rest)[1..] == w[1..] + rest;
      TakeWordThenSpace(w[1..], rest);
    } else {
      assert w + rest == rest;
    }
  }

  lemma TakeWordWhole(s: string)
    requires forall i :: 0 <= i < |s| ==> !IsSpace(s[i])
    ensures TakeWord(s) == s
  {
    if s != [] {
      TakeWordWhole(s[1..]);
    }
  }

  // ---------------------------------------------------------------- join and slice

  /** `sep.join(parts)`. */
  function Join(parts: seq<string>, sep: string): string {
    if parts == [] then ""
    else if |parts| == 1 then parts[0]
    else Join(parts[..|parts| - 1], sep) + sep + parts[|parts| - 1]
  }

  /** Every part occurs in the joined string. */
  lemma {:induction false} JoinOccurs(parts: seq<string>, sep: string, k: int)
    requires 0 <= k < |parts|
    ensures IsSubstring(parts[k], Join(parts, sep))
  {
    if |parts| == 1 {
      InfixIsSubstring(parts[0], Join(parts, sep), 0);
    } else {
      var init := parts[..|parts| - 1];
      var j := Join(parts, sep);
      if k == |parts| - 1 {
        InfixIsSubstring(parts[k], j, |j| - |parts[k]|);
      } else {
        JoinOccurs(init, sep, k);
        assert init[k] == parts[k];
        InfixIsSubstring(Join(init, sep), j, 0);
        SubstringTransitive(parts[k], Join(init, sep), j);
      }
    }
  }

  /** Python's slice `s[:n]`: the first `n` elements, or for a negative `n`
      all but the last `-n`. */
  function PyTake<T>(s: seq<T>, n: int): (r: seq<T>)
    ensures |r| <= |s| && r == s[..|r|]
    ensures 0 <= n ==> |r| == if n <= |s| then n else |s|
    ensures n < 0 ==> |r| == if |s| + n >= 0 then |s| + n else 0
  {
    if 0 <= n then (if n <= |s| then s[..n] else s)
    else if |s| + n >= 0 then s[..|s| + n]
    else []
  }

  /** A prefix as long as the whole sequence is the whole sequence. */
  lemma PrefixWhole<T>(s: seq<T>, r: seq<T>)
    requires |r| == |s| && r == s[..|r|]
    ensures r == s
  {
    assert s[..|s|] == s;
  }

  /** A list comprehension that maps each element to zero or more results:
      the results of the elements, in the elements' order. */
  function FlatMap<T, U>(f: T -> seq<U>, s: seq<T>): seq<U> {
    if s == [] then [] else f(s[0]) + FlatMap(f, s[1..])
  }

  lemma {:induction false} FlatMapAppend<T, U>(f: T -> seq<U>, a: seq<T>, b: seq<T>)
    ensures FlatMap(f, a + b) == FlatMap(f, a) + FlatMap(f, b)
  {
    if a == [] {
      assert a + b == b;
    } else {
      assert (a + b)[0] == a[0] && (a + b)[1..] == a[1..] + b;
      FlatMapAppend(f, a[1..], b);
    }
  }

  lemma FlatMapSingle<T, U>(f: T -> seq<U>, x: T)
    ensures FlatMap(f, [x]) == f(x)
  {
    assert [x][1..] == [];
  }

  /** Every result comes from some element, the `j`-th. */
  lemma {:induction false} FlatMapFrom<T, U>(f: T -> seq<U>, s: seq<T>, y: U) returns (j: int)
    requires y in FlatMap(f, s)
    ensures 0 <= j < |s| && y in f(s[j])
  {
    if y in f(s[0]) {
      j := 0;
    } else {
      var k := FlatMapFrom(f, s[1..], y);
      assert s[1..][k] == s[k + 1];
      j := k + 1;
    }
  }

  /** Every result of every element is kept. */
  lemma FlatMapKeeps<T, U>(f: T -> seq<U>, s: seq<T>, j: int, y: U)
    requires 0 <= j < |s| && y in f(s[j])
    ensures y in FlatMap(f, s)
  {
    assert s == s[..j] + ([s[j]] + s[j + 1..]);
    FlatMapAppend(f, s[..j], [s[j]] + s[j + 1..]);
    FlatMapAppend(f, [s[j]], s[j + 1..]);
    FlatMapSingle(f, s[j]);
  }

  /** With at most one result per element, there are at most as many results as elements. */
  lemma {:induction false} FlatMapLength<T, U>(f: T -> seq<U>, s: seq<T>)
    requires forall j :: 0 <= j < |s| ==> |f(s[j])| <= 1
    ensures |FlatMap(f, s)| <= |s|
  {
    if s != [] {
      assert forall j :: 0 <= j < |s[1..]| ==> s[1..][j] == s[j + 1];
      FlatMapLength(f, s[1..]);
    }
  }
}
