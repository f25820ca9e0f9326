/** `generate_keywords_tool`: the most frequent long words of the content and
    the context, as one comma-separated text block. */
module Keywords {
  import opened Wrappers
  import opened Sequences
  import opened Strings
  import opened ToolResults

  /** The tool's arguments; a missing key is None. */
  datatype KeywordArgs = KeywordArgs(content: Option<string>, context: Option<string>, maxKeywords: Option<int>)

  const DefaultMaxKeywords: int := 10

  // ----- tokenizing: re.findall(r'\b\w+\b', s) -----

  /** The length of the run of word characters that starts `s`. */
  function WordRunLength(s: string): (n: nat)
    ensures n <= |s|
  {
    if s == [] || !IsWordChar(s[0]) then 0 else 1 + WordRunLength(s[1..])
  }

  /** The run is maximal: word characters up to its length, then none. */
  lemma {:induction false} WordRunLengthSpec(s: string)
    ensures forall i :: 0 <= i < WordRunLength(s) ==> IsWordChar(s[i])
    ensures WordRunLength(s) < |s| ==> !IsWordChar(s[WordRunLength(s)])
  {
    if s != [] && IsWordChar(s[0]) {
      WordRunLengthSpec(s[1..]);
      forall i | 0 < i < WordRunLength(s) ensures IsWordChar(s[i]) {
        assert s[i] == s[1..][i - 1];
      }
    }
  }

  /** The maximal runs of word characters of `s`, left to right. */
  function Tokens(s: string): seq<string>
    decreases |s|
  {
    if s == [] then []
    else if !IsWordChar(s[0]) then Tokens(s[1..])
    else
      var n := WordRunLength(s);
      [s[..n]] + Tokens(s[n..])
  }

  /** The word characters of `s`, in order. */
  function WordChars(s: string): string {
    if s == [] then [] else (if IsWordChar(s[0]) then [s[0]] else []) + WordChars(s[1..])
  }

  /** A run is determined by where it stops. */
  lemma {:induction false} WordRunLengthIs(s: string, k: nat)
    requires k <= |s| && forall i :: 0 <= i < k ==> IsWordChar(s[i])
    requires k < |s| ==> !IsWordChar(s[k])
    ensures WordRunLength(s) == k
  {
    if k > 0 {
      WordRunLengthIs(s[1..], k - 1);
    }
  }

  /** Every token is a non-empty run of word characters. */
  lemma {:induction false} TokensAreWords(s: string)
    ensures forall t :: t in Tokens(s) ==> |t| > 0 && AllWordChars(t)
    decreases |s|
  {
    if s != [] {
      if !IsWordChar(s[0]) {
        TokensAreWords(s[1..]);
      } else {
        var n := WordRunLength(s);
        WordRunLengthSpec(s);
        TokensAreWords(s[n..]);
        assert AllWordChars(s[..n]);
      }
    }
  }

  /** Every token occurs verbatim in the text it was taken from. */
  lemma {:induction false} TokensAreInfixes(s: string)
    ensures forall t :: t in Tokens(s) ==> IsInfix(t, s)
    decreases |s|
  {
    if s == [] {
    } else if !IsWordChar(s[0]) {
      TokensAreInfixes(s[1..]);
      forall t | t in Tokens(s) ensures IsInfix(t, s) {
        InfixOfSuffix(t, s, 1);
      }
    } else {
      var n := WordRunLength(s);
      TokensAreInfixes(s[n..]);
      assert InfixAt(s[..n], s, 0);
      forall t | t in Tokens(s) ensures IsInfix(t, s) {
        if t != s[..n] {
          InfixOfSuffix(t, s, n);
        }
      }
    }
  }

  lemma {:induction false} WordCharsOfRun(s: string, n: nat)
    requires n <= |s| && forall i :: 0 <= i < n ==> IsWordChar(s[i])
    ensures WordChars(s) == s[..n] + WordChars(s[n..])
  {
    if n > 0 {
      WordCharsOfRun(s[1..], n - 1);
      assert s[1..][n - 1..] == s[n..];
      assert [s[0]] + s[1..][..n - 1] == s[..n];
    }
  }

  /** The tokens, put back together, are exactly the word characters of `s`:
      tokenizing drops the separators and nothing else. */
  lemma {:induction false} TokensCoverWordChars(s: string)
    ensures Concat(Tokens(s)) == WordChars(s)
    decreases |s|
  {
    if s == [] {
    } else if !IsWordChar(s[0]) {
      TokensCoverWordChars(s[1..]);
    } else {
      var n := WordRunLength(s);
      WordRunLengthSpec(s);
      TokensCoverWordChars(s[n..]);
      WordCharsOfRun(s, n);
      assert ([s[..n]] + Tokens(s[n..]))[1..] == Tokens(s[n..]);
    }
  }

  /** A separator ends the token before it: the tokens of `a`, a non-word
      character and `b` are the tokens of `a` followed by those of `b`. */
  lemma {:induction false} TokensSplitAtSeparator(a: string, c: char, b: string)
    requires !IsWordChar(c)
    ensures Tokens(a + [c] + b) == Tokens(a) + Tokens(b)
    decreases |a|
  {
    var s := a + [c] + b;
    if a == [] {
      assert s[0] == c && s[1..] == b;
      assert Tokens(s) == Tokens(b);
      assert Tokens(a) + Tokens(b) == Tokens(b);
    } else if !IsWordChar(a[0]) {
      assert s[0] == a[0] && s[1..] == a[1..] + [c] + b;
      TokensSplitAtSeparator(a[1..], c, b);
      assert Tokens(s) == Tokens(a[1..]) + Tokens(b);
      assert Tokens(a) == Tokens(a[1..]);
    } else {
      var m := WordRunLength(a);
      WordRunLengthSpec(a);
      forall i | 0 <= i < m ensures IsWordChar(s[i]) {
        assert s[i] == a[i];
      }
      assert s[m] == if m < |a| then a[m] else c;
      WordRunLengthIs(s, m);
      assert s[..m] == a[..m];
      assert s[m..] == a[m..] + [c] + b;
      TokensSplitAtSeparator(a[m..], c, b);
      assert Tokens(s) == [a[..m]] + (Tokens(a[m..]) + Tokens(b));
      assert Tokens(a) == [a[..m]] + Tokens(a[m..]);
    }
  }

  /** A run of word characters is a single token. */
  lemma TokensOfWord(w: string)
    requires |w| > 0 && AllWordChars(w)
    ensures Tokens(w) == [w]
  {
    WordRunLengthIs(w, |w|);
    assert w[..|w|] == w;
  }

  // ----- counting: the `word_freq` dictionary -----

  /** Words longer than three characters are counted; shorter ones are dropped. */
  predicate Counted(w: string) {
    |w| > 3
  }

  function Count(ws: seq<string>, w: string): nat {
    multiset(ws)[w]
  }

  /** The counted words of `ws` in order of first appearance: the key order of a
      Python dict filled while scanning `ws`. */
  function FirstSeen(ws: seq<string>): seq<string> {
    if ws == [] then []
    else
      var keys := FirstSeen(ws[..|ws| - 1]);
      var w := ws[|ws| - 1];
      if Counted(w) && w !in keys then keys + [w] else keys
  }

  /** The keys are exactly the counted words of `ws`, each once. */
  lemma {:induction false} FirstSeenKeys(ws: seq<string>)
    ensures forall w :: w in FirstSeen(ws) <==> w in ws && Counted(w)
    ensures Distinct(FirstSeen(ws))
  {
    if ws != [] {
      var init := ws[..|ws| - 1];
      var w := ws[|ws| - 1];
      assert ws == init + [w];
      FirstSeenKeys(init);
      forall x ensures x in ws <==> x in init || x == w {
      }
    }
  }

  /** Every counted word with its number of occurrences in `ws`: the dictionary
      is defined exactly on the keys. */
  function Frequencies(ws: seq<string>): map<string, nat> {
    map w | w in FirstSeen(ws) :: Count(ws, w)
  }

  /** First appearance in the dictionary and first appearance in the scanned
      words put any two keys in the same order. */
  lemma {:induction false} FirstSeenOrder(ws: seq<string>, a: string, b: string)
    requires a in FirstSeen(ws) && b in FirstSeen(ws)
    ensures a in ws && b in ws
    ensures IndexOf(FirstSeen(ws), a) < IndexOf(FirstSeen(ws), b) <==> IndexOf(ws, a) < IndexOf(ws, b)
  {
    var init := ws[..|ws| - 1];
    var w := ws[|ws| - 1];
    assert ws == init + [w];
    var keys := FirstSeen(init);
    var all := FirstSeen(ws);
    FirstSeenKeys(init);
    FirstSeenKeys(ws);
    assert all == keys || all == keys + [w];
    if a in keys && b in keys {
      FirstSeenOrder(init, a, b);
      IndexOfAppend(keys, [w], a);
      IndexOfAppend(keys, [w], b);
      IndexOfAppend(init, [w], a);
      IndexOfAppend(init, [w], b);
    } else {
      // one of them is the word the last step added
      assert all == keys + [w] && w !in init;
      IndexOfAppend(keys, [w], a);
      IndexOfAppend(keys, [w], b);
      IndexOfAppend(init, [w], a);
      IndexOfAppend(init, [w], b);
    }
  }

  /** Scanning one more word extends the key order only with a new counted word. */
  lemma FirstSeenSnoc(ws: seq<string>, w: string)
    ensures FirstSeen(ws + [w]) ==
      if Counted(w) && w !in FirstSeen(ws) then FirstSeen(ws) + [w] else FirstSeen(ws)
  {
    assert (ws + [w])[..|ws|] == ws;
  }

  /** Scanning one more word adds one to its count when it is counted. */
  lemma FrequenciesSnoc(ws: seq<string>, w: string)
    ensures Frequencies(ws + [w]) ==
      if Counted(w) then Frequencies(ws)[w := Count(ws, w) + 1] else Frequencies(ws)
  {
    var before, after := Frequencies(ws), Frequencies(ws + [w]);
    FirstSeenKeys(ws);
    FirstSeenKeys(ws + [w]);
    assert multiset(ws + [w]) == multiset(ws) + multiset{w};
    var expected := if Counted(w) then before[w := Count(ws, w) + 1] else before;
    forall x ensures x in after <==> x in expected {
      assert x in ws + [w] <==> x in ws || x == w;
    }
    forall x | x in after ensures after[x] == expected[x] {
      assert Count(ws + [w], x) == Count(ws, x) + (if x == w then 1 else 0);
    }
    assert after == expected;
  }

  /** One iteration of the dictionary loop, in the loop's own terms: a counted
      word is appended to the keys when it is not yet a key, and its entry
      becomes `get(word, 0) + 1`. */
  lemma CountStep(words: seq<string>, i: nat, keys: seq<string>, freq: map<string, nat>)
    requires i < |words|
    requires keys == FirstSeen(words[..i]) && freq == Frequencies(words[..i])
    ensures FirstSeen(words[..i + 1]) ==
      if |words[i]| > 3 && words[i] !in freq then keys + [words[i]] else keys
    ensures Frequencies(words[..i + 1]) ==
      if |words[i]| > 3 then freq[words[i] := (if words[i] in freq then freq[words[i]] else 0) + 1] else freq
  {
    var w := words[i];
    assert words[..i + 1] == words[..i] + [w];
    FirstSeenSnoc(words[..i], w);
    FrequenciesSnoc(words[..i], w);
    FirstSeenKeys(words[..i]);
    if w !in freq && Counted(w) {
      assert w !in multiset(words[..i]);
    }
  }

  /** The dictionary loop of the tool: `word_freq[word] = word_freq.get(word, 0) + 1`
      for every counted word. A Python dict is its key order `keys` plus its
      mapping `freq`. */
  method CountFrequencies(words: seq<string>) returns (keys: seq<string>, freq: map<string, nat>)
    ensures keys == FirstSeen(words)
    ensures freq == Frequencies(words)
  {
    keys, freq := [], map[];
    for i := 0 to |words|
      invariant keys == FirstSeen(words[..i])
      invariant freq == Frequencies(words[..i])
    {
      var word := words[i];
      CountStep(words, i, keys, freq);
      if |word| > 3 {
        var count := if word in freq then freq[word] else 0;
        if word !in freq {
          keys := keys + [word];
        }
        freq := freq[word := count + 1];
      }
    }
    assert words[..|words|] == words;
  }

  // ----- ranking: sorted(keys, key=freq, reverse=True) -----

  /** Places `w` before the first element whose count is not above its own. */
  function Insert(w: string, sorted: seq<string>, freq: map<string, nat>): (r: seq<string>)
    requires w in freq && forall x :: x in sorted ==> x in freq
    ensures multiset(r) == multiset(sorted) + multiset{w}
    ensures forall x :: x in r <==> x == w || x in sorted
  {
    if sorted == [] || freq[sorted[0]] <= freq[w] then [w] + sorted
    else
      assert sorted == [sorted[0]] + sorted[1..];
      [sorted[0]] + Insert(w, sorted[1..], freq)
  }

  /** Python's stable descending sort of `keys` by their count: higher counts
      first, equal counts in their order in `keys`. */
  function SortByFrequency(keys: seq<string>, freq: map<string, nat>): (r: seq<string>)
    requires forall k :: k in keys ==> k in freq
    ensures multiset(r) == multiset(keys)
    ensures forall x :: x in r <==> x in keys
  {
    if keys == [] then []
    else
      assert keys == [keys[0]] + keys[1..];
      Insert(keys[0], SortByFrequency(keys[1..], freq), freq)
  }

  /** `a` ranks ahead of `b`: a higher count, or the same count and an earlier
      position in `order`. */
  predicate RankedBefore(a: string, b: string, freq: map<string, nat>, order: seq<string>)
    requires a in freq && b in freq && a in order && b in order
  {
    freq[a] > freq[b] || (freq[a] == freq[b] && IndexOf(order, a) < IndexOf(order, b))
  }

  predicate Ranked(s: seq<string>, freq: map<string, nat>, order: seq<string>)
    requires forall x :: x in s ==> x in freq && x in order
  {
    forall i, j :: 0 <= i < j < |s| ==> RankedBefore(s[i], s[j], freq, order)
  }

  /** A key that ranks ahead of every key of a ranked list can lead it. */
  lemma ConsRanked(y: string, t: seq<string>, freq: map<string, nat>, order: seq<string>)
    requires y in freq && y in order && forall z :: z in t ==> z in freq && z in order
    requires Ranked(t, freq, order)
    requires forall z :: z in t ==> RankedBefore(y, z, freq, order)
    ensures Ranked([y] + t, freq, order)
  {
    var r := [y] + t;
    forall i, j | 0 <= i < j < |r| ensures RankedBefore(r[i], r[j], freq, order) {
      assert r[j] == t[j - 1];
      if i == 0 {
        assert t[j - 1] in t;
      } else {
        assert r[i] == t[i - 1];
      }
    }
  }

  /** A key that counts at least as much as the head of a ranked list, and
      comes before all its keys in `order`, can lead it. */
  lemma PrependRanked(x: string, s: seq<string>, freq: map<string, nat>, order: seq<string>)
    requires x in freq && x in order
    requires forall y :: y in s ==> y in freq && y in order && IndexOf(order, x) < IndexOf(order, y)
    requires Ranked(s, freq, order)
    requires s == [] || freq[s[0]] <= freq[x]
    ensures Ranked([x] + s, freq, order)
  {
    forall z | z in s ensures RankedBefore(x, z, freq, order) {
      var k := IndexOf(s, z);
      if k > 0 {
        assert RankedBefore(s[0], s[k], freq, order);
      }
    }
    ConsRanked(x, s, freq, order);
  }

  lemma {:induction false} InsertRanked(x: string, s: seq<string>, freq: map<string, nat>, order: seq<string>)
    requires x in freq && x in order
    requires forall y :: y in s ==> y in freq && y in order && IndexOf(order, x) < IndexOf(order, y)
    requires Ranked(s, freq, order)
    ensures Ranked(Insert(x, s, freq), freq, order)
  {
    if s == [] || freq[s[0]] <= freq[x] {
      PrependRanked(x, s, freq, order);
    } else {
      var rest := s[1..];
      assert Ranked(rest, freq, order) by {
        forall i, j | 0 <= i < j < |rest| ensures RankedBefore(rest[i], rest[j], freq, order) {
          assert rest[i] == s[i + 1] && rest[j] == s[j + 1];
        }
      }
      InsertRanked(x, rest, freq, order);
      var t := Insert(x, rest, freq);
      forall z | z in t ensures RankedBefore(s[0], z, freq, order) {
        assert z in multiset(t);
        if z != x {
          var k := IndexOf(rest, z);
          assert RankedBefore(s[0], s[k + 1], freq, order);
        }
      }
      ConsRanked(s[0], t, freq, order);
    }
  }

  /** The sort ranks its output: counts never increase, and equal counts keep
      their order in `keys`. */
  lemma {:induction false} SortRanked(keys: seq<string>, freq: map<string, nat>)
    requires Distinct(keys) && forall k :: k in keys ==> k in freq
    ensures Ranked(SortByFrequency(keys, freq), freq, keys)
  {
    if keys != [] {
      var rest := keys[1..];
      var sortedRest := SortByFrequency(rest, freq);
      SortRanked(rest, freq);
      assert keys == [keys[0]] + rest;
      forall y | y in rest ensures IndexOf(keys, y) == 1 + IndexOf(rest, y) {
        IndexOfAppend([keys[0]], rest, y);
      }
      forall y | y in sortedRest ensures y in rest && IndexOf(keys, keys[0]) < IndexOf(keys, y) {
        assert y in multiset(sortedRest);
      }
      assert Ranked(sortedRest, freq, keys) by {
        forall i, j | 0 <= i < j < |sortedRest|
          ensures RankedBefore(sortedRest[i], sortedRest[j], freq, keys)
        {
          assert RankedBefore(sortedRest[i], sortedRest[j], freq, rest);
          assert sortedRest[i] in multiset(sortedRest) && sortedRest[j] in multiset(sortedRest);
        }
      }
      InsertRanked(keys[0], sortedRest, freq, keys);
    }
  }

  // ----- the tool -----

  /** The word stream the tool counts: the words of the lower-cased content,
      then those of the lower-cased context when the context is not empty. */
  function Stream(content: string, context: string): seq<string> {
    Tokens(Lower(content)) + (if context != "" then Tokens(Lower(context)) else [])
  }

  /** The keyword list the tool returns (before joining). */
  function TopKeywords(content: string, context: string, maxKeywords: int): seq<string> {
    var stream := Stream(content, context);
    TakePrefix(SortByFrequency(FirstSeen(stream), Frequencies(stream)), maxKeywords)
  }

  /** `generate_keywords_tool`: missing arguments default to `""`, `""` and 10. */
  method GenerateKeywords(args: KeywordArgs) returns (result: ToolResult)
    ensures IsSingleText(result, Join(TopKeywords(args.content.GetOr(""), args.context.GetOr(""),
                                                  args.maxKeywords.GetOr(DefaultMaxKeywords)), ", "))
  {
    var content := args.content.GetOr("");
    var context := args.context.GetOr("");
    var maxKeywords := args.maxKeywords.GetOr(DefaultMaxKeywords);
    var words := Tokens(Lower(content));
    var contextWords := if context != "" then Tokens(Lower(context)) else [];
    var keys, freq := CountFrequencies(words + contextWords);
    var keywords := TakePrefix(SortByFrequency(keys, freq), maxKeywords);
    result := TextResult(Join(keywords, ", "));
  }

  // ----- what the tool promises -----

  /** Facts shared by the property lemmas below. */
  lemma KeywordsFromSorted(content: string, context: string, maxKeywords: int)
    ensures var stream := Stream(content, context);
            var keys := FirstSeen(stream);
            var sorted := SortByFrequency(keys, Frequencies(stream));
            var r := TopKeywords(content, context, maxKeywords);
            r == sorted[..|r|] &&
            (forall k :: k in sorted <==> k in keys) &&
            Ranked(sorted, Frequencies(stream), keys)
  {
    var stream := Stream(content, context);
    var keys := FirstSeen(stream);
    var sorted := SortByFrequency(keys, Frequencies(stream));
    FirstSeenKeys(stream);
    SortRanked(keys, Frequencies(stream));
    forall k ensures k in sorted <==> k in keys {
      assert k in sorted <==> k in multiset(sorted);
    }
  }

  /** The words of a lower-case text are lower-case. */
  lemma TokensOfLowercase(s: string)
    requires IsLowercase(s)
    ensures forall t :: t in Tokens(s) ==> IsLowercase(t)
  {
    TokensAreInfixes(s);
    forall t, j | t in Tokens(s) && 0 <= j < |t| ensures !IsUpper(t[j]) {
      InfixElements(t, s, j);
    }
  }

  /** Every keyword is a lower-case run of word characters, longer than three
      characters, that occurs as a word of the content or of the context. */
  lemma KeywordsAreCountedWords(content: string, context: string, maxKeywords: int)
    ensures forall k :: k in TopKeywords(content, context, maxKeywords) ==>
      |k| > 3 && AllWordChars(k) && IsLowercase(k) &&
      (k in Tokens(Lower(content)) || k in Tokens(Lower(context)))
  {
    KeywordsFromSorted(content, context, maxKeywords);
    FirstSeenKeys(Stream(content, context));
    var stream := Stream(content, context);
    var r := TopKeywords(content, context, maxKeywords);
    TokensOfLowercase(Lower(content));
    TokensOfLowercase(Lower(context));
    TokensAreWords(Lower(content));
    TokensAreWords(Lower(context));
    forall k | k in r
      ensures |k| > 3 && (k in Tokens(Lower(content)) || k in Tokens(Lower(context)))
    {
      assert k in FirstSeen(stream);
    }
  }

  /** No keyword is repeated, and the list is `max_keywords` long, or shorter
      when fewer words were counted; a negative `max_keywords` drops that many
      from the end, as Python slicing does. */
  lemma KeywordsDistinctAndBounded(content: string, context: string, maxKeywords: int)
    ensures var r := TopKeywords(content, context, maxKeywords);
            var n := |FirstSeen(Stream(content, context))|;
            Distinct(r) &&
            (maxKeywords >= 0 ==> |r| == if maxKeywords <= n then maxKeywords else n) &&
            (maxKeywords < 0 ==> |r| == if n + maxKeywords >= 0 then n + maxKeywords else 0)
  {
    KeywordsFromSorted(content, context, maxKeywords);
    FirstSeenKeys(Stream(content, context));
    var stream := Stream(content, context);
    var keys := FirstSeen(stream);
    var sorted := SortByFrequency(keys, Frequencies(stream));
    var r := TopKeywords(content, context, maxKeywords);
    assert |sorted| == |keys| by {
      assert |multiset(sorted)| == |multiset(keys)|;
    }
    forall i, j | 0 <= i < j < |r| ensures r[i] != r[j] {
      assert RankedBefore(sorted[i], sorted[j], Frequencies(stream), keys);
    }
  }

  /** Keywords come in non-increasing order of their number of occurrences;
      keywords that occur equally often keep the order in which they first
      appear in the content-then-context word stream. */
  lemma KeywordsRanked(content: string, context: string, maxKeywords: int)
    ensures var stream := Stream(content, context);
            var r := TopKeywords(content, context, maxKeywords);
            (forall k :: k in r ==> k in stream) &&
            forall i, j :: 0 <= i < j < |r| ==>
              Count(stream, r[i]) > Count(stream, r[j]) ||
              (Count(stream, r[i]) == Count(stream, r[j]) && IndexOf(stream, r[i]) < IndexOf(stream, r[j]))
  {
    KeywordsFromSorted(content, context, maxKeywords);
    FirstSeenKeys(Stream(content, context));
    var stream := Stream(content, context);
    var keys := FirstSeen(stream);
    var sorted := SortByFrequency(keys, Frequencies(stream));
    var r := TopKeywords(content, context, maxKeywords);
    forall i, j | 0 <= i < j < |r|
      ensures Count(stream, r[i]) > Count(stream, r[j]) ||
              (Count(stream, r[i]) == Count(stream, r[j]) && IndexOf(stream, r[i]) < IndexOf(stream, r[j]))
    {
      assert RankedBefore(sorted[i], sorted[j], Frequencies(stream), keys);
      FirstSeenOrder(stream, r[i], r[j]);
    }
  }

  /** Top-k: a counted word that was left out occurs less often than every
      keyword that was kept, or equally often and first appears after it, so
      a tie at the cut keeps the word seen first. */
  lemma KeywordsAreTopK(content: string, context: string, maxKeywords: int)
    ensures var stream := Stream(content, context);
            var r := TopKeywords(content, context, maxKeywords);
            forall w :: w in stream && Counted(w) && w !in r ==>
              forall i :: 0 <= i < |r| ==>
                Count(stream, w) < Count(stream, r[i]) ||
                (Count(stream, w) == Count(stream, r[i]) && IndexOf(stream, r[i]) < IndexOf(stream, w))
  {
    KeywordsFromSorted(content, context, maxKeywords);
    FirstSeenKeys(Stream(content, context));
    var stream := Stream(content, context);
    var keys := FirstSeen(stream);
    var sorted := SortByFrequency(keys, Frequencies(stream));
    var r := TopKeywords(content, context, maxKeywords);
    forall w, i | w in stream && Counted(w) && w !in r && 0 <= i < |r|
      ensures Count(stream, w) < Count(stream, r[i]) ||
              (Count(stream, w) == Count(stream, r[i]) && IndexOf(stream, r[i]) < IndexOf(stream, w))
    {
      var p := IndexOf(sorted, w);
      assert RankedBefore(sorted[i], sorted[p], Frequencies(stream), keys);
      FirstSeenOrder(stream, sorted[i], w);
    }
  }

  /** The joined text gives back the keyword list: no keyword holds a comma. */
  lemma KeywordTextRoundTrip(content: string, context: string, maxKeywords: int)
    ensures var r := TopKeywords(content, context, maxKeywords);
            SplitCommaList(Join(r, ", ")) == r
  {
    KeywordsAreCountedWords(content, context, maxKeywords);
    var r := TopKeywords(content, context, maxKeywords);
    forall k | 0 <= k < |r| ensures |r[k]| > 0 && ',' !in r[k] {
      assert r[k] in r;
    }
    SplitJoinRoundTrip(r);
  }
}
