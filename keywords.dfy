/**
  `extractKeywords` of lib/seo-utils.ts: the words of a text, counted in an
  object used as a dictionary, ranked by count, and the ten best appended to
  the existing keywords without repetition.

  The dictionary is a `map` for the counts plus the order in which its keys
  were first inserted. `Object.entries` lists an object's keys that are array
  indices first, in ascending numeric order, and the other keys in insertion
  order; a word made only of digits can be such a key.
*/
module Keywords {
  import opened Text
  import opened Sorting

  /** The stop words of `extractKeywords`. */
  const StopWords: set<string> := {
    "the", "a", "an", "and", "or", "but", "in", "on", "at", "to", "for", "of", "with", "by",
    "is", "are", "was", "were", "be", "been", "have", "has", "had", "do", "does", "did",
    "will", "would", "could", "should", "may", "might", "can", "this", "that", "these", "those"
  }

  /** How many ranked words are added at most. */
  const MaxAdded := 10

  // ---------------------------------------------------------------------------
  // Sequences without repetition

  predicate NoDup(s: seq<string>) {
    forall i, j :: 0 <= i < j < |s| ==> s[i] != s[j]
  }

  /** `[...new Set(s)]`: the distinct elements of `s` in order of first occurrence. */
  function Dedup(s: seq<string>): (r: seq<string>)
    ensures NoDup(r)
    ensures forall x :: x in r <==> x in s
    ensures |r| <= |s|
  {
    if |s| == 0 then []
    else
      var d := Dedup(s[..|s| - 1]);
      var x := s[|s| - 1];
      assert s == s[..|s| - 1] + [x];
      if x in d then d else d + [x]
  }

  /** The distinct elements of `b` that are not in `a`, in order of first occurrence. */
  function Fresh(b: seq<string>, a: seq<string>): (r: seq<string>)
    ensures NoDup(r)
    ensures forall x :: x in r <==> x in b && x !in a
    ensures |r| <= |b|
  {
    if |b| == 0 then []
    else
      var d := Fresh(b[..|b| - 1], a);
      var x := b[|b| - 1];
      assert b == b[..|b| - 1] + [x];
      if x in a || x in d then d else d + [x]
  }

  /** One more element is kept by `Dedup` exactly when it is new. */
  lemma DedupSnoc(s: seq<string>, x: string)
    ensures Dedup(s + [x]) == if x in Dedup(s) then Dedup(s) else Dedup(s) + [x]
  {
    assert (s + [x])[..|s|] == s;
  }

  /** One more element of `b` is kept by `Fresh` exactly when it is in neither `a` nor the earlier ones. */
  lemma FreshSnoc(b: seq<string>, x: string, a: seq<string>)
    ensures Fresh(b + [x], a) == if x in a || x in Fresh(b, a) then Fresh(b, a) else Fresh(b, a) + [x]
  {
    assert (b + [x])[..|b|] == b;
  }

  /** The sequence algebra of the step of `DedupAppend`, over plain sequences. */
  lemma SnocLaw(d: seq<string>, f: seq<string>, x: string, inA: bool, dd: seq<string>, ff: seq<string>)
    requires (x in d + f) == (inA || x in f)
    requires dd == if x in d + f then d + f else (d + f) + [x]
    requires ff == if inA || x in f then f else f + [x]
    ensures dd == d + ff
  {
    if !(inA || x in f) {
      assert (d + f) + [x] == d + (f + [x]);
    }
  }

  lemma InDedupFresh(a: seq<string>, b: seq<string>, x: string)
    ensures x in Dedup(a) + Fresh(b, a) <==> x in a || x in Fresh(b, a)
  {
  }

  /** The step of `DedupAppend`: the law carries over from `b` to `b + [x]`. */
  lemma DedupAppendStep(a: seq<string>, b: seq<string>, x: string)
    requires Dedup(a + b) == Dedup(a) + Fresh(b, a)
    ensures Dedup((a + b) + [x]) == Dedup(a) + Fresh(b + [x], a)
  {
    DedupSnoc(a + b, x);
    FreshSnoc(b, x, a);
    InDedupFresh(a, b, x);
    SnocLaw(Dedup(a), Fresh(b, a), x, x in a, Dedup((a + b) + [x]), Fresh(b + [x], a));
  }

  /** Deduplicating `a + b` deduplicates `a` and then adds the new elements of `b`. */
  lemma {:induction false} DedupAppend(a: seq<string>, b: seq<string>)
    ensures Dedup(a + b) == Dedup(a) + Fresh(b, a)
  {
    if |b| == 0 {
      assert a + b == a;
    } else {
      var b', x := b[..|b| - 1], b[|b| - 1];
      assert b == b' + [x];
      assert a + b == (a + b') + [x];
      DedupAppend(a, b');
      DedupAppendStep(a, b', x);
    }
  }

  // ---------------------------------------------------------------------------
  // The words of a text

  /** A character of a lower-cased `\w` run: `a-z`, `0-9` or `_`. */
  predicate TokenChar(c: char) { IsAsciiLower(c) || IsDigit(c) || c == '_' }

  predicate Token(w: string) {
    forall j :: 0 <= j < |w| ==> TokenChar(w[j])
  }

  /** `.replace(/[^\w\s]/g, ' ')`. */
  function Blank(s: string): (r: string)
    ensures |r| == |s|
    ensures forall i :: 0 <= i < |s| ==> IsWordChar(r[i]) || IsJsSpace(r[i])
    ensures forall i :: 0 <= i < |s| && (IsWordChar(s[i]) || IsJsSpace(s[i])) ==> r[i] == s[i]
    ensures forall i :: 0 <= i < |s| && !(IsWordChar(s[i]) || IsJsSpace(s[i])) ==> r[i] == ' '
  {
    seq(|s|, i requires 0 <= i < |s| => if IsWordChar(s[i]) || IsJsSpace(s[i]) then s[i] else ' ')
  }

  /** The index of the first `\s` character, or `|s|`. */
  function FirstSpace(s: string): (r: nat)
    ensures r <= |s|
    ensures r < |s| ==> IsJsSpace(s[r])
    ensures forall j :: 0 <= j < r ==> !IsJsSpace(s[j])
  {
    if |s| == 0 || IsJsSpace(s[0]) then 0 else 1 + FirstSpace(s[1..])
  }

  /**
    `.split(/\s+/)`: the pieces between maximal runs of `\s`; a leading or
    trailing run gives an empty first or last piece.
  */
  function SplitWs(s: string): (parts: seq<string>)
    ensures |parts| >= 1
    ensures forall k :: 0 <= k < |parts| ==> forall j :: 0 <= j < |parts[k]| ==> !IsJsSpace(parts[k][j])
    ensures forall k :: 0 < k < |parts| - 1 ==> |parts[k]| > 0
    decreases |s|
  {
    var i := FirstSpace(s);
    if i == |s| then [s]
    else
      var rest := TrimStart(s[i..]);
      [s[..i]] + SplitWs(rest)
  }

  /** Every character is a token character or `\s`. */
  predicate TokensAndSpaces(s: string) {
    forall i :: 0 <= i < |s| ==> TokenChar(s[i]) || IsJsSpace(s[i])
  }

  lemma SuffixTokensAndSpaces(s: string, rest: string)
    requires TokensAndSpaces(s) && |rest| <= |s| && rest == s[|s| - |rest|..]
    ensures TokensAndSpaces(rest)
  {
    assert forall j :: 0 <= j < |rest| ==> rest[j] == s[|s| - |rest| + j];
  }

  lemma PrefixToken(s: string, i: nat)
    requires TokensAndSpaces(s) && i <= |s|
    requires forall j :: 0 <= j < i ==> !IsJsSpace(s[j])
    ensures Token(s[..i])
  {
    assert forall j :: 0 <= j < i ==> s[..i][j] == s[j];
  }

  /** The pieces of a text made of token characters and `\s` are tokens. */
  lemma {:induction false} SplitWsTokens(s: string)
    requires TokensAndSpaces(s)
    ensures forall k :: 0 <= k < |SplitWs(s)| ==> Token(SplitWs(s)[k])
    decreases |s|
  {
    var i := FirstSpace(s);
    PrefixToken(s, i);
    if i < |s| {
      var rest := TrimStart(s[i..]);
      SuffixTokensAndSpaces(s, rest);
      SplitWsTokens(rest);
      var parts := SplitWs(s);
      assert parts == [s[..i]] + SplitWs(rest);
      assert forall k :: 0 < k < |parts| ==> parts[k] == SplitWs(rest)[k - 1];
    } else {
      assert SplitWs(s) == [s];
    }
  }

  /** A word `extractKeywords` counts: longer than three characters and not a stop word. */
  predicate Counted(w: string) { |w| > 3 && w !in StopWords }

  /** `.filter(word => word.length > 3 && !commonWords.has(word))`. */
  function CountedOnly(parts: seq<string>): (r: seq<string>)
    ensures forall i :: 0 <= i < |r| ==> Counted(r[i])
    ensures forall w :: w in r <==> w in parts && Counted(w)
    ensures forall w :: Counted(w) ==> multiset(r)[w] == multiset(parts)[w]
  {
    if |parts| == 0 then []
    else
      assert parts == [parts[0]] + parts[1..];
      (if Counted(parts[0]) then [parts[0]] else []) + CountedOnly(parts[1..])
  }

  lemma CountedOnlyCons(x: string, t: seq<string>)
    ensures CountedOnly([x] + t) == (if Counted(x) then [x] else []) + CountedOnly(t)
  {
    assert ([x] + t)[0] == x && ([x] + t)[1..] == t;
  }

  lemma ConsAppend(h: seq<string>, p: seq<string>, q: seq<string>, r: seq<string>)
    requires p == q + r
    ensures h + p == (h + q) + r
  {
  }

  /** The filter keeps the order of the words: it distributes over concatenation. */
  lemma {:induction false} CountedOnlyAppend(a: seq<string>, b: seq<string>)
    ensures CountedOnly(a + b) == CountedOnly(a) + CountedOnly(b)
  {
    if |a| == 0 {
      assert a + b == b;
    } else {
      var x, t := a[0], a[1..];
      assert a == [x] + t;
      assert a + b == [x] + (t + b);
      CountedOnlyAppend(t, b);
      CountedOnlyCons(x, t + b);
      CountedOnlyCons(x, t);
      var h := if Counted(x) then [x] else [];
      ConsAppend(h, CountedOnly(t + b), CountedOnly(t), CountedOnly(b));
    }
  }

  /** A word that can come out of `Words`. */
  predicate IsKeyword(w: string) { Counted(w) && Token(w) }

  /** The `words` array of `extractKeywords`. */
  function Words(text: string): (r: seq<string>)
    ensures forall i :: 0 <= i < |r| ==> IsKeyword(r[i])
    ensures forall w :: Counted(w) ==> multiset(r)[w] == multiset(SplitWs(Blank(ToLower(text))))[w]
  {
    var blanked := Blank(ToLower(text));
    assert TokensAndSpaces(blanked);
    var parts := SplitWs(blanked);
    SplitWsTokens(blanked);
    CountedOnly(parts)
  }

  /** How often `w` occurs in `words`. */
  function Count(words: seq<string>, w: string): nat {
    multiset(words)[w]
  }

  // ---------------------------------------------------------------------------
  // Counting, as the `reduce` callback does it

  /** What the dictionary and its key order say after counting `prefix`. */
  ghost predicate Tallied(prefix: seq<string>, freq: map<string, nat>, keys: seq<string>) {
    && keys == Dedup(prefix)
    && (forall w :: w in freq <==> w in prefix)
    && (forall w :: w in freq ==> freq[w] == Count(prefix, w))
  }

  lemma TallyKeys(prefix: seq<string>, word: string, freq: map<string, nat>, keys: seq<string>)
    requires Tallied(prefix, freq, keys)
    ensures word in freq ==> keys == Dedup(prefix + [word])
    ensures word !in freq ==> keys + [word] == Dedup(prefix + [word])
  {
    DedupSnoc(prefix, word);
  }

  lemma TallyCounts(prefix: seq<string>, word: string, freq: map<string, nat>, keys: seq<string>, v: nat)
    requires Tallied(prefix, freq, keys)
    requires v == (if word in freq then freq[word] else 0) + 1
    ensures forall w :: w in freq[word := v] <==> w in prefix + [word]
    ensures forall w :: w in freq[word := v] ==> freq[word := v][w] == Count(prefix + [word], w)
  {
    assert multiset(prefix + [word]) == multiset(prefix) + multiset{word};
  }

  /** Counting one more word keeps the tally: a known word's count goes up, a new word gets 1 and joins the keys. */
  lemma TallyStep(prefix: seq<string>, word: string, freq: map<string, nat>, keys: seq<string>)
    requires Tallied(prefix, freq, keys)
    ensures word in freq ==> Tallied(prefix + [word], freq[word := freq[word] + 1], keys)
    ensures word !in freq ==> Tallied(prefix + [word], freq[word := 1], keys + [word])
  {
    TallyKeys(prefix, word, freq, keys);
    TallyCounts(prefix, word, freq, keys, (if word in freq then freq[word] else 0) + 1);
  }

  /**
    The `reduce` over `words`: `freq[word] = (freq[word] || 0) + 1`. `keys` is
    the order in which the dictionary's keys were first inserted.
  */
  method WordFrequencies(words: seq<string>) returns (freq: map<string, nat>, keys: seq<string>)
    ensures keys == Dedup(words)
    ensures forall w :: w in freq <==> w in words
    ensures forall w :: w in freq ==> freq[w] == Count(words, w)
  {
    freq, keys := map[], [];
    var i := 0;
    while i < |words|
      invariant 0 <= i <= |words|
      invariant Tallied(words[..i], freq, keys)
    {
      var word := words[i];
      assert words[..i + 1] == words[..i] + [word];
      TallyStep(words[..i], word, freq, keys);
      if word in freq {
        freq := freq[word := freq[word] + 1];
      } else {
        freq := freq[word := 1];
        keys := keys + [word];
      }
      i := i + 1;
    }
    assert words[..i] == words;
  }

  // ---------------------------------------------------------------------------
  // Ranking

  /** The number a string of decimal digits denotes (a non-digit counts as 0). */
  function DigitsValue(s: string): nat {
    if |s| == 0 then 0
    else 10 * DigitsValue(s[..|s| - 1]) + (if IsDigit(s[|s| - 1]) then s[|s| - 1] as int - '0' as int else 0)
  }

  /** An array index: the canonical decimal text of an integer below 2^32 - 1. */
  predicate IsArrayIndex(k: string) {
    && |k| > 0
    && (forall i :: 0 <= i < |k| ==> IsDigit(k[i]))
    && (k[0] != '0' || |k| == 1)
    && DigitsValue(k) < 0xFFFF_FFFF
  }

  function IndexKeys(keys: seq<string>): (r: seq<string>)
    ensures forall i :: 0 <= i < |r| ==> IsArrayIndex(r[i])
  {
    if |keys| == 0 then []
    else (if IsArrayIndex(keys[0]) then [keys[0]] else []) + IndexKeys(keys[1..])
  }

  function NamedKeys(keys: seq<string>): (r: seq<string>)
    ensures forall i :: 0 <= i < |r| ==> !IsArrayIndex(r[i])
  {
    if |keys| == 0 then []
    else (if IsArrayIndex(keys[0]) then [] else [keys[0]]) + NamedKeys(keys[1..])
  }

  /** Larger for smaller indices, so that a non-increasing sort puts indices in ascending order. */
  function IndexRank(k: string): int { -(DigitsValue(k) as int) }

  /** The order `Object.entries` lists the keys in, given their insertion order. */
  function EntryOrder(keys: seq<string>): (r: seq<string>)
    ensures multiset(r) == multiset(keys)
    ensures |IndexKeys(keys)| <= |r|
    ensures forall i :: 0 <= i < |r| ==> (IsArrayIndex(r[i]) <==> i < |IndexKeys(keys)|)
    ensures forall i, j :: 0 <= i < j < |IndexKeys(keys)| ==> DigitsValue(r[i]) <= DigitsValue(r[j])
    ensures r[|IndexKeys(keys)|..] == NamedKeys(keys)
  {
    SplitKeys(keys);
    var sorted := Sort(IndexKeys(keys), IndexRank);
    forall i | 0 <= i < |sorted| ensures IsArrayIndex(sorted[i]) {
      assert sorted[i] in multiset(IndexKeys(keys));
    }
    sorted + NamedKeys(keys)
  }

  lemma {:induction false} SplitKeys(keys: seq<string>)
    ensures multiset(IndexKeys(keys)) + multiset(NamedKeys(keys)) == multiset(keys)
  {
    if |keys| > 0 {
      SplitKeys(keys[1..]);
      assert keys == [keys[0]] + keys[1..];
    }
  }

  function EntryCount(e: (string, int)): int { e.1 }

  /** `Object.entries(wordFreq)`. */
  function Entries(order: seq<string>, words: seq<string>): (r: seq<(string, int)>)
    ensures |r| == |order|
    ensures forall i :: 0 <= i < |r| ==> r[i] == (order[i], Count(words, order[i]))
  {
    seq(|order|, i requires 0 <= i < |order| => (order[i], Count(words, order[i]) as int))
  }

  /** The entries sorted by `(a, b) => b - a` on their counts. */
  function Ranked(words: seq<string>): (r: seq<(string, int)>)
    ensures SortedDesc(r, EntryCount)
    ensures multiset(r) == multiset(Entries(EntryOrder(Dedup(words)), words))
  {
    Sort(Entries(EntryOrder(Dedup(words)), words), EntryCount)
  }

  /** `.slice(0, 10).map(([word]) => word)`. */
  function Leading(ranked: seq<(string, int)>): (r: seq<string>)
    ensures |r| == if |ranked| < MaxAdded then |ranked| else MaxAdded
    ensures forall i :: 0 <= i < |r| ==> r[i] == ranked[i].0
  {
    var n := if |ranked| < MaxAdded then |ranked| else MaxAdded;
    seq(n, i requires 0 <= i < n => ranked[i].0)
  }

  /** Every ranked entry pairs a word of the text with its count. */
  lemma RankedEntries(words: seq<string>, i: int)
    requires 0 <= i < |Ranked(words)|
    ensures Ranked(words)[i].0 in words
    ensures Ranked(words)[i].1 == Count(words, Ranked(words)[i].0)
  {
    var r := Ranked(words);
    var es := Entries(EntryOrder(Dedup(words)), words);
    assert r[i] in multiset(es);
    var j :| 0 <= j < |es| && es[j] == r[i];
    var order := EntryOrder(Dedup(words));
    assert order[j] in multiset(Dedup(words));
  }

  /** Every word of the text has a ranked entry. */
  lemma RankedCovers(words: seq<string>, w: string) returns (p: nat)
    requires w in words
    ensures p < |Ranked(words)| && Ranked(words)[p] == (w, Count(words, w))
  {
    var order := EntryOrder(Dedup(words));
    assert w in multiset(order);
    var j :| 0 <= j < |order| && order[j] == w;
    var es := Entries(order, words);
    assert es[j] in multiset(Ranked(words));
    p :| 0 <= p < |Ranked(words)| && Ranked(words)[p] == es[j];
  }

  /** `sortedWords`: the (at most ten) most frequent words of `words`. */
  function TopWords(words: seq<string>): (r: seq<string>)
    ensures |r| <= MaxAdded
    ensures forall i :: 0 <= i < |r| ==> r[i] in words
    ensures forall i, j :: 0 <= i < j < |r| ==> Count(words, r[i]) >= Count(words, r[j])
    ensures forall w :: w in words && w !in r ==>
              |r| == MaxAdded && forall i :: 0 <= i < |r| ==> Count(words, r[i]) >= Count(words, w)
  {
    var ranked := Ranked(words);
    var r := Leading(ranked);
    forall i | 0 <= i < |r|
      ensures r[i] in words && ranked[i].1 == Count(words, r[i])
    {
      RankedEntries(words, i);
    }
    forall w | w in words && w !in r
      ensures |r| == MaxAdded && forall i :: 0 <= i < |r| ==> Count(words, r[i]) >= Count(words, w)
    {
      var p := RankedCovers(words, w);
      assert p >= |r|;
    }
    r
  }

  // ---------------------------------------------------------------------------
  // extractKeywords

  /** `extractKeywords(text, existingKeywords)`. */
  function ExtractKeywords(text: string, existing: seq<string>): (r: seq<string>)
    ensures r == Dedup(existing) + Added(Words(text), existing)
    ensures NoDup(r)
  {
    DedupAppend(existing, TopWords(Words(text)));
    Dedup(existing + TopWords(Words(text)))
  }

  /** `Object.entries` lists only words of the text. */
  lemma EntryOrderOfWords(words: seq<string>)
    ensures forall i :: 0 <= i < |EntryOrder(Dedup(words))| ==> EntryOrder(Dedup(words))[i] in words
  {
    var order := EntryOrder(Dedup(words));
    forall i | 0 <= i < |order| ensures order[i] in words {
      assert order[i] in multiset(Dedup(words));
    }
  }

  /** `Object.entries` of the dictionary: each key of `order` with its count in `freq`. */
  function DictionaryEntries(freq: map<string, nat>, order: seq<string>): (r: seq<(string, int)>)
    requires forall i :: 0 <= i < |order| ==> order[i] in freq
    ensures |r| == |order|
    ensures forall i :: 0 <= i < |r| ==> r[i] == (order[i], freq[order[i]])
  {
    seq(|order|, i requires 0 <= i < |order| => (order[i], freq[order[i]] as int))
  }

  /** The dictionary the loop fills lists the entries its specification describes. */
  lemma DictionaryEntriesOfWords(words: seq<string>, freq: map<string, nat>)
    requires forall w :: w in freq <==> w in words
    requires forall w :: w in freq ==> freq[w] == Count(words, w)
    ensures forall i :: 0 <= i < |EntryOrder(Dedup(words))| ==> EntryOrder(Dedup(words))[i] in freq
    ensures DictionaryEntries(freq, EntryOrder(Dedup(words))) == Entries(EntryOrder(Dedup(words)), words)
  {
    EntryOrderOfWords(words);
  }

  /** The same computation with the counting loop of the source. */
  method ComputeKeywords(text: string, existing: seq<string>) returns (r: seq<string>)
    ensures r == ExtractKeywords(text, existing)
  {
    var words := Words(text);
    var freq, keys := WordFrequencies(words);
    DictionaryEntriesOfWords(words, freq);
    var entries := DictionaryEntries(freq, EntryOrder(keys));
    r := Dedup(existing + Leading(Sort(entries, EntryCount)));
  }

  /**
    The words `extractKeywords` appends: the ranked words that are not
    existing keywords, at most ten, without repetition, in non-increasing
    order of their counts; a word of the text that is neither existing nor
    added occurs no more often than any added word.
  */
  function Added(words: seq<string>, existing: seq<string>): (r: seq<string>)
    ensures NoDup(r) && |r| <= MaxAdded
    ensures forall i :: 0 <= i < |r| ==> r[i] in words && r[i] !in existing
    ensures forall i, j :: 0 <= i < j < |r| ==> Count(words, r[i]) >= Count(words, r[j])
    ensures forall w, i :: w in words && w !in existing && w !in r && 0 <= i < |r| ==>
              Count(words, r[i]) >= Count(words, w)
  {
    var top := TopWords(words);
    var r := Fresh(top, existing);
    FreshOfRanked(words, existing, top, r);
    r
  }

  /** Keeping the words of a ranked list that are not existing keywords. */
  lemma FreshOfRanked(words: seq<string>, existing: seq<string>, top: seq<string>, r: seq<string>)
    requires |top| <= MaxAdded && r == Fresh(top, existing)
    requires forall i :: 0 <= i < |top| ==> top[i] in words
    requires forall i, j :: 0 <= i < j < |top| ==> Count(words, top[i]) >= Count(words, top[j])
    requires forall w :: w in words && w !in top ==> forall i :: 0 <= i < |top| ==> Count(words, top[i]) >= Count(words, w)
    ensures NoDup(r) && |r| <= MaxAdded
    ensures forall i :: 0 <= i < |r| ==> r[i] in words && r[i] !in existing
    ensures forall i, j :: 0 <= i < j < |r| ==> Count(words, r[i]) >= Count(words, r[j])
    ensures forall w, i :: w in words && w !in existing && w !in r && 0 <= i < |r| ==>
              Count(words, r[i]) >= Count(words, w)
  {
    FreshRanked(words, top, existing);
    FreshOutranks(words, existing, top, r);
    assert forall i :: 0 <= i < |r| ==> r[i] in top;
  }

  /** The kept words of a ranked list outrank every word the list left out. */
  lemma FreshOutranks(words: seq<string>, existing: seq<string>, top: seq<string>, r: seq<string>)
    requires forall w :: w in words && w !in top ==> forall i :: 0 <= i < |top| ==> Count(words, top[i]) >= Count(words, w)
    requires forall x :: x in r <==> x in top && x !in existing
    ensures forall w, i :: w in words && w !in existing && w !in r && 0 <= i < |r| ==>
              Count(words, r[i]) >= Count(words, w)
  {
    forall w, i | w in words && w !in existing && w !in r && 0 <= i < |r|
      ensures Count(words, r[i]) >= Count(words, w)
    {
      assert r[i] in r;
      var j :| 0 <= j < |top| && top[j] == r[i];
    }
  }

  /** Keeping the new elements of a ranked list keeps it ranked. */
  lemma {:induction false} FreshRanked(words: seq<string>, b: seq<string>, a: seq<string>)
    requires forall i, j :: 0 <= i < j < |b| ==> Count(words, b[i]) >= Count(words, b[j])
    ensures forall i, j :: 0 <= i < j < |Fresh(b, a)| ==> Count(words, Fresh(b, a)[i]) >= Count(words, Fresh(b, a)[j])
  {
    if |b| > 0 {
      var b' := b[..|b| - 1];
      FreshRanked(words, b', a);
      var x := b[|b| - 1];
      var d := Fresh(b', a);
      var f := Fresh(b, a);
      assert forall i, j :: 0 <= i < j < |d| ==> Count(words, d[i]) >= Count(words, d[j]);
      if !(x in a || x in d) {
        assert f == d + [x];
        forall i | 0 <= i < |d| ensures Count(words, d[i]) >= Count(words, x) {
          assert d[i] in b';
          var j :| 0 <= j < |b'| && b'[j] == d[i];
          assert b[j] == d[i];
        }
        assert forall i :: 0 <= i < |d| ==> f[i] == d[i];
        assert f[|d|] == x;
      } else {
        assert f == d;
      }
    }
  }

  /** Words that differ only in case are counted together. */
  lemma WordsIgnoreCase(text: string)
    ensures Words(ToLower(text)) == Words(text)
  {
    ToLowerIdempotent(text);
  }
}
