/** The message-frequency count of log_parser.py: for every log line that
    has the five-space separator, the text after the first separator (up to
    the next one) is examined; if it starts with "receive", each word of it
    that starts with "[Message]" counts once under the word without that
    prefix. The `Counter` is a multiset of message names. Reading the files
    and printing the counts are not modelled. */
module LogParser {
  import opened Common

  /** log_parser.py:12-13. */
  const Separator: string := "     "
  /** log_parser.py:20-21: nine characters. */
  const MessagePrefix: string := "[Message]"
  /** log_parser.py:16. */
  const ReceivePrefix: string := "receive"

  predicate StartsWith(s: string, p: string)
  {
    |p| <= |s| && s[..|p|] == p
  }

  /** `sep` occurs in `s` starting at `i`. */
  predicate OccursAt(s: string, sep: string, i: int)
  {
    0 <= i && i + |sep| <= |s| && s[i..i + |sep|] == sep
  }

  predicate Contains(s: string, sep: string)
  {
    exists i :: 0 <= i <= |s| && OccursAt(s, sep, i)
  }

  /** The leftmost occurrence of `sep` in `s` at or after `k`. */
  function Find(s: string, sep: string, k: nat): (r: Option<nat>)
    ensures r.Some? ==> k <= r.value && r.value + |sep| <= |s|
    decreases |s| - k
  {
    if k + |sep| > |s| then None
    else if s[k..k + |sep|] == sep then Some(k)
    else Find(s, sep, k + 1)
  }

  lemma {:induction false} FindFacts(s: string, sep: string, k: nat)
    ensures Find(s, sep, k).Some? ==>
      OccursAt(s, sep, Find(s, sep, k).value)
      && forall j :: k <= j < Find(s, sep, k).value ==> !OccursAt(s, sep, j)
    ensures Find(s, sep, k).None? ==> forall j :: k <= j ==> !OccursAt(s, sep, j)
    decreases |s| - k
  {
    if k + |sep| <= |s| && s[k..k + |sep|] != sep {
      FindFacts(s, sep, k + 1);
    }
  }

  /** Python's `s.split(sep)` for a non-empty separator: the pieces between
      the occurrences found left to right. */
  function Split(s: string, sep: string): (r: seq<string>)
    requires |sep| > 0
    ensures |r| >= 1
    decreases |s|
  {
    match Find(s, sep, 0)
    case None => [s]
    case Some(i) => [s[..i]] + Split(s[i + |sep|..], sep)
  }

  /** `sep.join(parts)`. */
  function Join(parts: seq<string>, sep: string): string
    decreases |parts|
  {
    if |parts| == 0 then ""
    else if |parts| == 1 then parts[0]
    else parts[0] + sep + Join(parts[1..], sep)
  }

  /** Splitting loses nothing: joining the pieces with the separator gives
      the line back. */
  lemma {:induction false} SplitJoin(s: string, sep: string)
    requires |sep| > 0
    ensures Join(Split(s, sep), sep) == s
    decreases |s|
  {
    FindOccurs(s, sep, 0);
    match Find(s, sep, 0)
    case None =>
    case Some(i) =>
      var t := s[i + |sep|..];
      assert Split(s, sep) == [s[..i]] + Split(t, sep);
      SplitJoin(t, sep);
      AroundOccurrence(s, sep, i);
      JoinStep(s, sep, s[..i], t, Split(t, sep));
  }

  lemma JoinStep(s: string, sep: string, pre: string, t: string, rest: seq<string>)
    requires s == pre + sep + t && |rest| >= 1 && Join(rest, sep) == t
    ensures Join([pre] + rest, sep) == s
  {
    JoinCons(pre, rest, sep);
  }

  /** A separator that is found does occur there. */
  lemma {:induction false} FindOccurs(s: string, sep: string, k: nat)
    ensures Find(s, sep, k).Some? ==> OccursAt(s, sep, Find(s, sep, k).value)
    decreases |s| - k
  {
    if k + |sep| <= |s| && s[k..k + |sep|] != sep {
      FindOccurs(s, sep, k + 1);
    }
  }

  /** A line is the text before an occurrence, the separator and the text
      after it. */
  lemma AroundOccurrence(s: string, sep: string, i: int)
    requires OccursAt(s, sep, i)
    ensures s == s[..i] + sep + s[i + |sep|..]
  {
    assert s == s[..i] + s[i..i + |sep|] + s[i + |sep|..];
  }

  lemma JoinCons(first: string, rest: seq<string>, sep: string)
    requires |rest| >= 1
    ensures Join([first] + rest, sep) == first + sep + Join(rest, sep)
  {
    assert ([first] + rest)[1..] == rest;
  }

  /** No piece contains the separator. */
  lemma {:induction false} SplitPiecesClean(s: string, sep: string)
    requires |sep| > 0
    ensures forall p :: p in Split(s, sep) ==> !Contains(p, sep)
    decreases |s|
  {
    FindFacts(s, sep, 0);
    match Find(s, sep, 0)
    case None =>
      PrefixClean(s, sep, |s|);
      assert s[..|s|] == s;
    case Some(i) =>
      var t := s[i + |sep|..];
      SplitPiecesClean(t, sep);
      PrefixClean(s, sep, i);
  }

  /** Text before the first occurrence holds no occurrence. */
  lemma PrefixClean(s: string, sep: string, i: nat)
    requires |sep| > 0 && i <= |s|
    requires forall j :: 0 <= j < i ==> !OccursAt(s, sep, j)
    ensures !Contains(s[..i], sep)
  {
    forall j | 0 <= j <= i && OccursAt(s[..i], sep, j) ensures false {
      assert s[..i][j..j + |sep|] == s[j..j + |sep|];
      assert OccursAt(s, sep, j);
    }
  }

  /** There is more than one piece exactly when the separator occurs. */
  lemma SplitPieces(s: string, sep: string)
    requires |sep| > 0
    ensures |Split(s, sep)| > 1 <==> Contains(s, sep)
  {
    FindFacts(s, sep, 0);
  }

  /** The second piece of `line.split(Separator)`, if there is one
      (log_parser.py:12-15). */
  function Segment(line: string): Option<string>
  {
    var parts := Split(line, Separator);
    if |parts| > 1 then Some(parts[1]) else None
  }

  /** `message_dict[word[9:]] += 1` when the word has the prefix
      (log_parser.py:20-21). */
  function CountWord(counts: multiset<string>, word: string): multiset<string>
  {
    if StartsWith(word, MessagePrefix) then counts + multiset{word[|MessagePrefix|..]} else counts
  }

  function CountWords(counts: multiset<string>, words: seq<string>): multiset<string>
    decreases |words|
  {
    if words == [] then counts
    else CountWord(CountWords(counts, words[..|words| - 1]), words[|words| - 1])
  }

  /** One turn of the loop over lines (log_parser.py:12-21). */
  function CountLine(counts: multiset<string>, line: string): multiset<string>
  {
    match Segment(line)
    case None => counts
    case Some(segment) =>
      if StartsWith(segment, ReceivePrefix) then CountWords(counts, Split(segment, " ")) else counts
  }

  function CountLines(counts: multiset<string>, lines: seq<string>): multiset<string>
    decreases |lines|
  {
    if lines == [] then counts
    else CountLine(CountLines(counts, lines[..|lines| - 1]), lines[|lines| - 1])
  }

  /** The message names of the qualifying words, in order. */
  function Keys(words: seq<string>): (r: seq<string>)
    ensures |r| <= |words|
    decreases |words|
  {
    if words == [] then []
    else
      var w := words[|words| - 1];
      Keys(words[..|words| - 1]) + if StartsWith(w, MessagePrefix) then [w[|MessagePrefix|..]] else []
  }

  /** The message names that a line contributes. */
  function LineKeys(line: string): seq<string>
  {
    match Segment(line)
    case None => []
    case Some(segment) => if StartsWith(segment, ReceivePrefix) then Keys(Split(segment, " ")) else []
  }

  function AllKeys(lines: seq<string>): seq<string>
    decreases |lines|
  {
    if lines == [] then [] else AllKeys(lines[..|lines| - 1]) + LineKeys(lines[|lines| - 1])
  }

  /** A name is counted exactly when some word is the prefix followed by
      that name. */
  lemma {:induction false} KeysMembers(words: seq<string>)
    ensures forall k :: k in Keys(words) <==>
      exists w :: w in words && StartsWith(w, MessagePrefix) && w[|MessagePrefix|..] == k
    decreases |words|
  {
    if words != [] {
      var init := words[..|words| - 1];
      var w := words[|words| - 1];
      KeysMembers(init);
      assert words == init + [w];
    }
  }

  lemma {:induction false} KeysConcat(a: seq<string>, b: seq<string>)
    ensures Keys(a + b) == Keys(a) + Keys(b)
    decreases |b|
  {
    if b == [] {
      assert a + b == a;
    } else {
      var b1 := b[..|b| - 1];
      assert (a + b)[..|a + b| - 1] == a + b1;
      assert (a + b)[|a + b| - 1] == b[|b| - 1];
      KeysConcat(a, b1);
    }
  }

  /** Counting words adds each qualifying word's name once. */
  lemma {:induction false} CountWordsKeys(counts: multiset<string>, words: seq<string>)
    ensures CountWords(counts, words) == counts + multiset(Keys(words))
    decreases |words|
  {
    if words != [] {
      CountWordsKeys(counts, words[..|words| - 1]);
    }
  }

  /** A word without the prefix changes no count, wherever it stands. */
  lemma IgnoredWord(counts: multiset<string>, before: seq<string>, word: string, after: seq<string>)
    requires !StartsWith(word, MessagePrefix)
    ensures CountWords(counts, before + [word] + after) == CountWords(counts, before + after)
  {
    KeysConcat(before + [word], after);
    KeysConcat(before, [word]);
    KeysConcat(before, after);
    assert Keys([word]) == [] by {
      assert [word][..0] == [];
    }
    CountWordsKeys(counts, before + [word] + after);
    CountWordsKeys(counts, before + after);
  }

  /** A line without the separator, or whose second piece does not start
      with "receive", contributes nothing. */
  lemma IgnoredLine(line: string)
    ensures !Contains(line, Separator) ==> LineKeys(line) == []
    ensures Contains(line, Separator) ==>
      && |Split(line, Separator)| > 1
      && var segment := Split(line, Separator)[1];
         LineKeys(line) == if StartsWith(segment, ReceivePrefix) then Keys(Split(segment, " ")) else []
  {
    SplitPieces(line, Separator);
  }

  /** The counter holds every qualifying word's name once per occurrence:
      its total is the number of qualifying words. */
  lemma {:induction false} CountLinesKeys(lines: seq<string>)
    ensures CountLines(multiset{}, lines) == multiset(AllKeys(lines))
    ensures |CountLines(multiset{}, lines)| == |AllKeys(lines)|
    decreases |lines|
  {
    if lines != [] {
      var line := lines[|lines| - 1];
      CountLinesKeys(lines[..|lines| - 1]);
      match Segment(line)
      case None =>
      case Some(segment) =>
        if StartsWith(segment, ReceivePrefix) {
          CountWordsKeys(CountLines(multiset{}, lines[..|lines| - 1]), Split(segment, " "));
        }
    }
  }

  /** `print_message_freq` on the lines of one file, returning the counter
      instead of printing it. */
  method MessageFreq(lines: seq<string>) returns (messageDict: multiset<string>)
    ensures messageDict == CountLines(multiset{}, lines)
  {
    messageDict := multiset{};
    var i := 0;
    while i < |lines|
      invariant 0 <= i <= |lines|
      invariant messageDict == CountLines(multiset{}, lines[..i])
    {
      assert lines[..i + 1][..i] == lines[..i];
      var line := lines[i];
      var parts := Split(line, Separator);
      if |parts| > 1 {
        var segment := parts[1];
        if StartsWith(segment, ReceivePrefix) {
          var words := Split(segment, " ");
          ghost var start := messageDict;
          var k := 0;
          while k < |words|
            invariant 0 <= k <= |words|
            invariant messageDict == CountWords(start, words[..k])
          {
            assert words[..k + 1][..k] == words[..k];
            if StartsWith(words[k], MessagePrefix) {
              messageDict := messageDict + multiset{words[k][|MessagePrefix|..]};
            }
            k := k + 1;
          }
          assert words[..k] == words;
        }
      }
      i := i + 1;
    }
    assert lines[..i] == lines;
  }
}
