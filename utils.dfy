/**
 * The self-contained helpers around the bot: phone-number normalisation and
 * validation, keyword extraction, truncation of messages for the log, and a
 * per-user sliding-window rate limit. Lower-casing and white space are those
 * of the Text module; `\w` covers ASCII letters, digits, `_` and the Cyrillic
 * letters. The clock is an integer number of seconds supplied by the caller.
 */
module Utils {
  import opened Wrappers
  import opened Text
  import opened StopList

  // ---------------------------------------------------------------- phone numbers

  /** Every character is a decimal digit (the empty string included). */
  predicate OnlyDigits(s: string) {
    forall i :: 0 <= i < |s| ==> IsAsciiDigit(s[i])
  }

  /** The digits of `s` in order, everything else removed. */
  function DigitsOf(s: string): (r: string)
    ensures |r| <= |s|
    ensures OnlyDigits(r)
  {
    if s == [] then []
    else (if IsAsciiDigit(s[0]) then [s[0]] else []) + DigitsOf(s[1..])
  }

  /** A string of digits has nothing to remove. */
  lemma {:induction false} DigitsOfDigits(s: string)
    requires OnlyDigits(s)
    ensures DigitsOf(s) == s
  {
    if s != [] {
      DigitsOfDigits(s[1..]);
    }
  }

  /** The digits of the number; an 11-digit number starting with 7 or 8 gets
      7 as its first digit, and a 10-digit number starting with 9 gets a 7 in front. */
  function SanitizePhoneNumber(phone: string): (r: string)
    ensures phone == [] ==> r == []
    ensures OnlyDigits(r)
    ensures var d := DigitsOf(phone);
      (|d| == 11 && (d[0] == '7' || d[0] == '8') ==> r == "7" + d[1..])
      && (|d| == 10 && d[0] == '9' ==> r == "7" + d)
      && (!(|d| == 11 && (d[0] == '7' || d[0] == '8')) && !(|d| == 10 && d[0] == '9') ==> r == d)
  {
    if phone == [] then ""
    else
      var cleaned := DigitsOf(phone);
      var withCountry := if |cleaned| == 11 && (cleaned[0] == '7' || cleaned[0] == '8') then "7" + cleaned[1..] else cleaned;
      if |withCountry| == 10 && withCountry[0] == '9' then "7" + withCountry else withCountry
  }

  /** Sanitising a sanitised number changes nothing. */
  lemma SanitizeIdempotent(phone: string)
    ensures SanitizePhoneNumber(SanitizePhoneNumber(phone)) == SanitizePhoneNumber(phone)
  {
    DigitsOfDigits(SanitizePhoneNumber(phone));
  }

  /** True when the sanitised number has eleven digits and starts with 7. */
  function ValidatePhoneNumber(phone: string): (ok: bool)
    ensures ok ==> OnlyDigits(SanitizePhoneNumber(phone)) && |SanitizePhoneNumber(phone)| == 11
  {
    if phone == [] then false
    else
      var cleaned := SanitizePhoneNumber(phone);
      |cleaned| == 11 && cleaned[0] == '7'
  }

  /** A number is valid exactly when its digits are eleven starting with 7 or
      8, or ten starting with 9. */
  lemma ValidPhoneDigits(phone: string)
    ensures var d := DigitsOf(phone);
      ValidatePhoneNumber(phone) <==> (|d| == 11 && (d[0] == '7' || d[0] == '8')) || (|d| == 10 && d[0] == '9')
  {
    var d := DigitsOf(phone);
    if phone == [] {
      assert d == [];
    }
  }

  /** A valid number is its own sanitised form, and stays valid. */
  lemma ValidPhoneIsSanitized(phone: string)
    requires ValidatePhoneNumber(phone)
    ensures var s := SanitizePhoneNumber(phone);
      SanitizePhoneNumber(s) == s && ValidatePhoneNumber(s) && s[0] == '7'
  {
    SanitizeIdempotent(phone);
  }

  lemma {:induction false} DigitsOfAppend(a: string, b: string)
    ensures DigitsOf(a + b) == DigitsOf(a) + DigitsOf(b)
  {
    if a != [] {
      assert (a + b)[0] == a[0];
      assert (a + b)[1..] == a[1..] + b;
      DigitsOfAppend(a[1..], b);
      var head := if IsAsciiDigit(a[0]) then [a[0]] else [];
      calc {
        DigitsOf(a + b);
        head + DigitsOf(a[1..] + b);
        head + (DigitsOf(a[1..]) + DigitsOf(b));
        (head + DigitsOf(a[1..])) + DigitsOf(b);
        DigitsOf(a) + DigitsOf(b);
      }
    } else {
      assert a + b == b;
    }
  }

  /** Spaces, brackets, dashes and a plus sign anywhere in the number make no difference. */
  lemma SanitizeIgnoresSeparator(a: string, c: char, b: string)
    requires !IsAsciiDigit(c)
    ensures SanitizePhoneNumber(a + [c] + b) == SanitizePhoneNumber(a + b)
  {
    DigitsOfAppend(a + [c], b);
    DigitsOfAppend(a, [c]);
    DigitsOfAppend(a, b);
    assert DigitsOf([c]) == [];
    SanitizeByDigits(a + [c] + b, a + b);
  }

  /** The sanitised number depends on the digits alone. */
  lemma SanitizeByDigits(p: string, q: string)
    requires DigitsOf(p) == DigitsOf(q)
    ensures SanitizePhoneNumber(p) == SanitizePhoneNumber(q)
  {
    if p == [] || q == [] {
      assert DigitsOf(p) == [];
    }
  }

  /** The trunk prefix 8 of an eleven-digit number becomes the country code 7. */
  lemma SanitizeTrunkPrefix(rest: string)
    requires OnlyDigits(rest) && |rest| == 10
    ensures SanitizePhoneNumber("8" + rest) == "7" + rest
  {
    assert OnlyDigits("8" + rest);
    DigitsOfDigits("8" + rest);
    assert ("8" + rest)[1..] == rest;
  }

  /** A ten-digit number starting with 9 gets the country code in front. */
  lemma SanitizeTenDigits(rest: string)
    requires OnlyDigits(rest) && |rest| == 9
    ensures SanitizePhoneNumber("9" + rest) == "79" + rest
  {
    assert OnlyDigits("9" + rest);
    DigitsOfDigits("9" + rest);
  }

  // ---------------------------------------------------------------- keywords

  /** A character matched by the regular-expression class `\w`: letters,
      digits and the underscore (ASCII and the Cyrillic letters). */
  predicate IsWordChar(c: char) {
    'a' <= c <= 'z' || 'A' <= c <= 'Z' || IsAsciiDigit(c) || c == '_'
    || '\U{400}' <= c <= '\U{481}' || '\U{48A}' <= c <= '\U{4FF}'
  }

  /** Every character that is neither a word character nor whitespace becomes a space. */
  function Depunctuate(s: string): (r: string)
    ensures |r| == |s|
    ensures forall i :: 0 <= i < |s| ==> IsWordChar(r[i]) || IsSpace(r[i])
  {
    seq(|s|, i requires 0 <= i < |s| => if IsWordChar(s[i]) || IsSpace(s[i]) then s[i] else ' ')
  }

  /** A word worth keeping: longer than two characters, not a stop word, not a number. */
  predicate IsKeyword(w: string) {
    |w| > 2 && !IsStopWord(w) && !IsAllDigits(w)
  }

  /** The keywords among `words`, each once, in order of first occurrence. */
  function Keywords(words: seq<string>): (r: seq<string>)
    ensures forall w :: w in r ==> IsKeyword(w) && w in words
    ensures forall i, j :: 0 <= i < j < |r| ==> r[i] != r[j]
    decreases |words|
  {
    if words == [] then []
    else
      var prev := Keywords(words[..|words| - 1]);
      var w := words[|words| - 1];
      if IsKeyword(w) && w !in prev then prev + [w] else prev
  }

  /** One more word is appended exactly when it is a keyword not seen yet. */
  lemma KeywordsStep(words: seq<string>, i: int)
    requires 0 <= i < |words|
    ensures var prev := Keywords(words[..i]);
      Keywords(words[..i + 1]) == if IsKeyword(words[i]) && words[i] !in prev then prev + [words[i]] else prev
  {
    assert words[..i + 1][..i] == words[..i];
  }

  /** Every keyword of the input is kept. */
  lemma {:induction false} KeywordsComplete(words: seq<string>, w: string)
    requires w in words && IsKeyword(w)
    ensures w in Keywords(words)
    decreases |words|
  {
    var init := words[..|words| - 1];
    if w != words[|words| - 1] {
      assert w in init by {
        var k :| 0 <= k < |words| && words[k] == w;
        assert init[k] == w;
      }
      KeywordsComplete(init, w);
    }
  }

  /** The first position of `w` in `words`. */
  function FirstIndex(words: seq<string>, w: string): (k: nat)
    requires w in words
    ensures k < |words| && words[k] == w
    ensures forall j :: 0 <= j < k ==> words[j] != w
  {
    if words[0] == w then 0 else 1 + FirstIndex(words[1..], w)
  }

  lemma FirstIndexPrefix(words: seq<string>, n: nat, w: string)
    requires n <= |words| && w in words[..n]
    ensures FirstIndex(words[..n], w) == FirstIndex(words, w)
  {
    var k := FirstIndex(words[..n], w);
    assert words[k] == w;
    var m := FirstIndex(words, w);
    assert words[..n][m] == w;
  }

  /** Every element of `r` occurs in `words`, and they come in the order of
      their first occurrences there. */
  predicate FirstOrdered(words: seq<string>, r: seq<string>) {
    (forall k :: 0 <= k < |r| ==> r[k] in words)
    && forall i, j :: 0 <= i < j < |r| ==> FirstIndex(words, r[i]) < FirstIndex(words, r[j])
  }

  /** Order among the first `n` words carries over to the whole list, where
      every such word first occurs before position `n`. */
  lemma FirstOrderedExtend(words: seq<string>, n: nat, prev: seq<string>)
    requires n <= |words| && FirstOrdered(words[..n], prev)
    ensures FirstOrdered(words, prev)
    ensures forall k :: 0 <= k < |prev| ==> FirstIndex(words, prev[k]) < n
  {
    forall k | 0 <= k < |prev| ensures prev[k] in words && FirstIndex(words, prev[k]) == FirstIndex(words[..n], prev[k]) < n {
      FirstIndexPrefix(words, n, prev[k]);
    }
  }

  /** A word first occurring at position `n` may follow words that first occur before it. */
  lemma FirstOrderedAppend(words: seq<string>, n: nat, prev: seq<string>, w: string)
    requires FirstOrdered(words, prev) && forall k :: 0 <= k < |prev| ==> FirstIndex(words, prev[k]) < n
    requires w in words && FirstIndex(words, w) == n
    ensures FirstOrdered(words, prev + [w])
  {
    var r := prev + [w];
    forall i, j | 0 <= i < j < |r| ensures FirstIndex(words, r[i]) < FirstIndex(words, r[j]) {
      assert r[i] == prev[i];
      if j == |prev| {
        assert r[j] == w;
      } else {
        assert r[j] == prev[j];
      }
    }
  }

  /** A prefix of an ordered list is ordered. */
  lemma FirstOrderedPrefix(words: seq<string>, all: seq<string>, r: seq<string>)
    requires FirstOrdered(words, all) && |r| <= |all| && r == all[..|r|]
    ensures FirstOrdered(words, r)
  {
    assert forall k :: 0 <= k < |r| ==> r[k] == all[k];
  }

  /** Keywords come out in the order in which they first occur. */
  lemma {:induction false} KeywordsInFirstOccurrenceOrder(words: seq<string>)
    ensures FirstOrdered(words, Keywords(words))
    decreases |words|
  {
    if words != [] {
      var n := |words| - 1;
      var init := words[..n];
      var prev := Keywords(init);
      var w := words[n];
      KeywordsInFirstOccurrenceOrder(init);
      FirstOrderedExtend(words, n, prev);
      if IsKeyword(w) && w !in prev {
        assert w !in init by {
          if w in init {
            KeywordsComplete(init, w);
          }
        }
        assert FirstIndex(words, w) == n by {
          assert forall j :: 0 <= j < n ==> init[j] == words[j];
        }
        FirstOrderedAppend(words, n, prev, w);
        assert Keywords(words) == prev + [w];
      } else {
        assert Keywords(words) == prev;
      }
      assert FirstOrdered(words, Keywords(words));
    }
  }

  const DefaultMaxKeywords := 5

  /** The keywords of a text: lower-cased, punctuation turned into spaces,
      split on whitespace, filtered, and cut to the first `maxKeywords`. */
  function ExtractKeywords(text: string, maxKeywords: int): (r: seq<string>)
    ensures text == [] ==> r == []
    ensures 0 <= maxKeywords ==> |r| <= maxKeywords
    ensures forall w :: w in r ==> IsKeyword(w) && w in Split(Depunctuate(Lower(text)))
    ensures forall i, j :: 0 <= i < j < |r| ==> r[i] != r[j]
    ensures text != [] ==> var all := Keywords(Split(Depunctuate(Lower(text))));
              |r| <= |all| && r == all[..|r|]
              && (0 <= maxKeywords ==> |r| == if maxKeywords <= |all| then maxKeywords else |all|)
  {
    if text == [] then []
    else
      var all := Keywords(Split(Depunctuate(Lower(text))));
      var r := PyTake(all, maxKeywords);
      assert forall w :: w in r ==> w in all;
      r
  }

  /** The extracted keywords keep the order of their first occurrence in the cleaned text. */
  lemma ExtractKeywordsOrdered(text: string, maxKeywords: int)
    requires text != []
    ensures FirstOrdered(Split(Depunctuate(Lower(text))), ExtractKeywords(text, maxKeywords))
  {
    var words := Split(Depunctuate(Lower(text)));
    var all := Keywords(words);
    var r := ExtractKeywords(text, maxKeywords);
    KeywordsInFirstOccurrenceOrder(words);
    FirstOrderedPrefix(words, all, r);
  }

  /** When the cap does not cut, every keyword of the text is extracted. */
  lemma ExtractKeywordsComplete(text: string, maxKeywords: int, w: string)
    requires text != [] && |Keywords(Split(Depunctuate(Lower(text))))| <= maxKeywords
    requires w in Split(Depunctuate(Lower(text))) && IsKeyword(w)
    ensures w in ExtractKeywords(text, maxKeywords)
  {
    var words := Split(Depunctuate(Lower(text)));
    KeywordsComplete(words, w);
    PrefixWhole(Keywords(words), ExtractKeywords(text, maxKeywords));
  }

  /** The extraction as the helper performs it: one pass over the words,
      appending each new keyword. */
  method ExtractKeywordsFromText(text: string, maxKeywords: int) returns (keywords: seq<string>)
    ensures keywords == ExtractKeywords(text, maxKeywords)
  {
    if text == [] {
      return [];
    }
    var words := Split(Depunctuate(Lower(text)));
    var filtered: seq<string> := [];
    for i := 0 to |words|
      invariant filtered == Keywords(words[..i])
    {
      var word := words[i];
      KeywordsStep(words, i);
      if |word| > 2 && !IsStopWord(word) && !IsAllDigits(word) && word !in filtered {
        filtered := filtered + [word];
      }
    }
    assert words[..|words|] == words;
    keywords := PyTake(filtered, maxKeywords);
  }

  // ---------------------------------------------------------------- log truncation

  const DefaultLogLength := 100
  const Ellipsis := "..."

  /** The message as it is logged: empty stays empty, a short one is kept,
      a long one is cut to `maxLength` characters followed by an ellipsis. */
  function FormatMessageForLogging(message: string, maxLength: int): (r: string)
    ensures message == [] ==> r == []
    ensures message != [] && |message| <= maxLength ==> r == message
    ensures message != [] && |message| > maxLength ==>
              |r| >= |Ellipsis| && r[|r| - |Ellipsis|..] == Ellipsis
              && r[..|r| - |Ellipsis|] == PyTake(message, maxLength)
    ensures 0 <= maxLength < |message| ==> |r| == maxLength + |Ellipsis| && r[..maxLength] == message[..maxLength]
  {
    if message == [] then ""
    else if |message| <= maxLength then message
    else PyTake(message, maxLength) + Ellipsis
  }

  /** A logged message is never longer than the limit plus the ellipsis. */
  lemma LoggedLength(message: string, maxLength: int)
    requires 0 <= maxLength
    ensures |FormatMessageForLogging(message, maxLength)| <= maxLength + |Ellipsis|
    ensures |FormatMessageForLogging(message, maxLength)| <= |message| || |message| > maxLength
  {
  }

  // ---------------------------------------------------------------- rate limit

  const Hour := 3600
  const DefaultMaxMessagesPerHour := 10

  /** The timestamps of the last hour before `now`, in their order. */
  function Recent(history: seq<int>, now: int): (r: seq<int>)
    ensures |r| <= |history|
    ensures forall i :: 0 <= i < |r| ==> r[i] > now - Hour && r[i] in history
    ensures forall i :: 0 <= i < |history| && history[i] > now - Hour ==> history[i] in r
    ensures (forall i :: 0 <= i < |history| ==> history[i] > now - Hour) ==> r == history
  {
    if history == [] then []
    else
      var init := history[..|history| - 1];
      var t := history[|history| - 1];
      var rest := Recent(init, now);
      assert history == init + [t];
      assert forall x :: x in init ==> x in history;
      if t > now - Hour then rest + [t] else rest
  }

  /** Pruning works stamp by stamp, keeping order and repeats: it
      distributes over concatenation... */
  lemma {:induction false} RecentAppend(a: seq<int>, b: seq<int>, now: int)
    ensures Recent(a + b, now) == Recent(a, now) + Recent(b, now)
    decreases |b|
  {
    if b == [] {
      assert a + b == a;
    } else {
      var ab := a + b;
      var init := b[..|b| - 1];
      var t := b[|b| - 1];
      var kept: seq<int> := if t > now - Hour then [t] else [];
      calc {
        Recent(ab, now);
      == { assert ab[..|ab| - 1] == a + init && ab[|ab| - 1] == t; RecentUnfold(ab, now); }
        Recent(a + init, now) + kept;
      == { RecentAppend(a, init, now); }
        (Recent(a, now) + Recent(init, now)) + kept;
      ==
        Recent(a, now) + (Recent(init, now) + kept);
      == { RecentUnfold(b, now); }
        Recent(a, now) + Recent(b, now);
      }
    }
  }

  lemma RecentUnfold(h: seq<int>, now: int)
    requires h != []
    ensures Recent(h, now) == Recent(h[..|h| - 1], now) + if h[|h| - 1] > now - Hour then [h[|h| - 1]] else []
  {
  }

  /** ...and keeps one stamp exactly when it lies within the last hour. */
  lemma RecentSingle(t: int, now: int)
    ensures Recent([t], now) == if t > now - Hour then [t] else []
  {
    assert [t][..0] == [];
  }

  /** Pruning twice at the same moment is pruning once. */
  lemma RecentIdempotent(history: seq<int>, now: int)
    ensures Recent(Recent(history, now), now) == Recent(history, now)
  {
  }

  /** The message histories of the known users, by phone number; `None` for
      a user whose record has no history yet. */
  class RateLimiter {
    var histories: map<string, Option<seq<int>>>

    constructor(histories: map<string, Option<seq<int>>>)
      ensures this.histories == histories
    {
      this.histories := histories;
    }

    /** Whether `userPhone` may send another message at `now`. An unknown user
        always may and nothing is recorded. For a known user the history is cut
        to the last hour; at or over the limit the answer is no, otherwise
        `now` is recorded and the answer is yes. */
    method RateLimitCheck(userPhone: string, now: int, maxMessagesPerHour: int) returns (allowed: bool)
      modifies this
      ensures userPhone !in old(histories) ==> allowed && histories == old(histories)
      ensures userPhone in old(histories) ==>
        (allowed <==> |Recent(old(histories)[userPhone].GetOr([]), now)| < maxMessagesPerHour)
      ensures userPhone in old(histories) ==>
        histories == old(histories)[userPhone := Some(Recent(old(histories)[userPhone].GetOr([]), now)
                                                      + if allowed then [now] else [])]
    {
      if userPhone !in histories {
        return true;
      }
      ghost var history := old(histories)[userPhone].GetOr([]);
      if histories[userPhone].None? {
        histories := histories[userPhone := Some([])];
      }
      assert histories[userPhone].value == history;
      var pruned := Recent(histories[userPhone].value, now);
      histories := histories[userPhone := Some(pruned)];
      assert histories == old(histories)[userPhone := Some(pruned)];
      if |pruned| >= maxMessagesPerHour {
        assert pruned + [] == pruned;
        return false;
      }
      histories := histories[userPhone := Some(pruned + [now])];
      return true;
    }
  }

  /** After a check the history holds only the last hour, and holds at most
      the limit when the message was let through. */
  lemma RateLimitWindow(history: seq<int>, now: int, maxMessagesPerHour: int)
    ensures var pruned := Recent(history, now);
      |pruned| < maxMessagesPerHour ==>
        |pruned + [now]| <= maxMessagesPerHour
        && forall i :: 0 <= i < |pruned + [now]| ==> (pruned + [now])[i] > now - Hour
  {
  }

  /** Of three recorded messages only the two of the last hour count, and
      with a limit of two the next one is refused. */
  lemma RateLimitExample(history: seq<int>, now: int)
    requires now == 10000 && history == [6000, 7000, 8000]
    ensures Recent(history, now) == [7000, 8000]
    ensures |Recent(history, now)| >= 2
  {
    assert Recent(history[..1], now) == [];
    assert history[..2][..1] == history[..1];
    assert Recent(history[..2], now) == [7000];
  }
}
