/**
 * Shingle extraction (`get_shingles`): the text is cut into clauses at
 * CHUNK_RE, each clause is tokenised with WORD_RE, and every window of 1 to
 * MaxShingleLen consecutive words whose words all pass the length and stopword
 * filter is counted under its space-joined text.
 *
 * The specification is a fold over clauses, window sizes and start positions
 * (`CountClauses`, `CountSizes`, `CountWindows`); the method is proved equal
 * to it, and the lemmas characterise its keys (exactly the accepted windows)
 * and its counts (additive across a delimiter).
 */
module Shingles {
  import opened Text

  const MinWordLen: nat := 2
  const MaxWordLen: nat := 30
  const MaxShingleLen: nat := 3

  /** The character class of CHUNK_RE. */
  const Delimiters: set<char> := {'.', ',', '?', '!', ';', ':'}

  /** A word that does not reject its window. */
  predicate WordOk(w: string, stopwords: set<string>)
  {
    MinWordLen <= |w| <= MaxWordLen && w !in stopwords
  }

  predicate WindowOk(win: seq<string>, stopwords: set<string>)
  {
    forall w :: w in win ==> WordOk(w, stopwords)
  }

  /** Number of start positions of a window of `size` words over `n` words: `xrange(n + 1 - size)`. */
  function WindowCount(n: nat, size: nat): nat
  {
    if n + 1 >= size then n + 1 - size else 0
  }

  /** `d.get(k, 0)`. */
  function CountOf(m: map<string, nat>, k: string): nat
  {
    if k in m then m[k] else 0
  }

  /** One window: counted under its joined text when accepted, ignored when rejected. */
  function CountWindow(m: map<string, nat>, win: seq<string>, stopwords: set<string>): (r: map<string, nat>)
  {
    if WindowOk(win, stopwords) then
      var key := JoinWith(win, ' ');
      m[key := CountOf(m, key) + 1]
    else m
  }

  /** Windows of `size` words starting at positions 0 .. n-1, counted into m. */
  function CountWindows(m: map<string, nat>, words: seq<string>, size: nat, n: nat, stopwords: set<string>): (r: map<string, nat>)
    requires 1 <= size && n <= WindowCount(|words|, size)
    decreases n
  {
    if n == 0 then m
    else CountWindow(CountWindows(m, words, size, n - 1, stopwords), words[n - 1..n - 1 + size], stopwords)
  }

  /** Windows of every size 1 .. maxSize over one clause's words, counted into m. */
  function CountSizes(m: map<string, nat>, words: seq<string>, maxSize: nat, stopwords: set<string>): (r: map<string, nat>)
    decreases maxSize
  {
    if maxSize == 0 then m
    else CountWindows(CountSizes(m, words, maxSize - 1, stopwords), words, maxSize, WindowCount(|words|, maxSize), stopwords)
  }

  /** The windows of the first n clauses, each clause given as its word list, counted into m. */
  function CountClauses(m: map<string, nat>, clauses: seq<seq<string>>, n: nat, stopwords: set<string>): (r: map<string, nat>)
    requires n <= |clauses|
    decreases n
  {
    if n == 0 then m
    else CountSizes(CountClauses(m, clauses, n - 1, stopwords), clauses[n - 1], MaxShingleLen, stopwords)
  }

  /** `[WORD_RE.findall(chunk) for chunk in CHUNK_RE.split(text)]`. */
  function ClauseWords(text: string): (clauses: seq<seq<string>>)
    ensures |clauses| == |Split(text, Delimiters)|
  {
    var chunks := Split(text, Delimiters);
    seq(|chunks|, i requires 0 <= i < |chunks| => Tokens(chunks[i]))
  }

  /** The dict `get_shingles(text)` returns. */
  function ShingleCounts(text: string, stopwords: set<string>): map<string, nat>
  {
    var clauses := ClauseWords(text);
    CountClauses(map[], clauses, |clauses|, stopwords)
  }

  // ----------------------------------------------------------- the algorithm

  /**
   * `get_shingles(text)`, with the stopword set as a parameter: for every
   * clause, every window size and every start position, scan the window's
   * words and count the joined window unless one word rejects it.
   */
  method GetShingles(text: string, stopwords: set<string>) returns (shingles: map<string, nat>)
    ensures shingles == ShingleCounts(text, stopwords)
  {
    shingles := map[];
    var chunks := Split(text, Delimiters);
    ghost var clauses := ClauseWords(text);
    assert forall c :: 0 <= c < |chunks| ==> clauses[c] == Tokens(chunks[c]);
    for c := 0 to |chunks|
      invariant shingles == CountClauses(map[], clauses, c, stopwords)
    {
      shingles := CountChunk(shingles, chunks[c], stopwords, clauses, c);
    }
  }

  /** The body of the `for chunk` loop: tokenise the chunk and count its windows. */
  method CountChunk(m: map<string, nat>, chunk: string, stopwords: set<string>, ghost clauses: seq<seq<string>>, ghost c: nat)
    returns (r: map<string, nat>)
    requires c < |clauses| && clauses[c] == Tokens(chunk)
    requires m == CountClauses(map[], clauses, c, stopwords)
    ensures r == CountClauses(map[], clauses, c + 1, stopwords)
  {
    var words := Tokens(chunk);
    r := CountClause(m, words, stopwords);
  }

  /** The `for size` loop over one clause's words: every window size. */
  method CountClause(m: map<string, nat>, words: seq<string>, stopwords: set<string>) returns (r: map<string, nat>)
    ensures r == CountSizes(m, words, MaxShingleLen, stopwords)
  {
    r := m;
    for size := 1 to MaxShingleLen + 1
      invariant r == CountSizes(m, words, size - 1, stopwords)
    {
      r := CountSize(r, words, size, stopwords);
    }
  }

  /** The body of the `for size` loop: every start position of one window size. */
  method CountSize(m: map<string, nat>, words: seq<string>, size: nat, stopwords: set<string>) returns (r: map<string, nat>)
    requires 1 <= size
    ensures r == CountWindows(m, words, size, WindowCount(|words|, size), stopwords)
  {
    r := m;
    var i := 0;
    while i < |words| + 1 - size
      invariant i <= WindowCount(|words|, size)
      invariant r == CountWindows(m, words, size, i, stopwords)
    {
      r := CountAt(r, words[i..i + size], stopwords);
      i := i + 1;
    }
  }

  /** The `try` block for one window: count its joined text unless a word rejects it. */
  method CountAt(m: map<string, nat>, shin: seq<string>, stopwords: set<string>) returns (r: map<string, nat>)
    ensures r == CountWindow(m, shin, stopwords)
  {
    r := m;
    var ok := Acceptable(shin, stopwords);
    if ok {
      var joined := JoinWith(shin, ' ');
      r := r[joined := (if joined in r then r[joined] else 0) + 1];
    }
  }

  /** The `for word in shin` scan: a window is rejected at its first word that fails the filter. */
  method Acceptable(shin: seq<string>, stopwords: set<string>) returns (ok: bool)
    ensures ok <==> WindowOk(shin, stopwords)
  {
    var j := 0;
    while j < |shin|
      invariant j <= |shin|
      invariant forall k :: 0 <= k < j ==> WordOk(shin[k], stopwords)
    {
      if !WordOk(shin[j], stopwords) {
        assert shin[j] in shin;
        return false;
      }
      j := j + 1;
    }
    return true;
  }

  // ------------------------------------------------- soundness / completeness

  lemma {:induction false} CountWindowsSound(m: map<string, nat>, words: seq<string>, size: nat, n: nat, stopwords: set<string>, x: string)
    returns (i: nat)
    requires 1 <= size && n <= WindowCount(|words|, size)
    requires x in CountWindows(m, words, size, n, stopwords) && x !in m
    ensures i < n && i + size <= |words|
    ensures WindowOk(words[i..i + size], stopwords) && x == JoinWith(words[i..i + size], ' ')
    decreases n
  {
    if n > 0 {
      if x in CountWindows(m, words, size, n - 1, stopwords) {
        i := CountWindowsSound(m, words, size, n - 1, stopwords, x);
      } else {
        i := n - 1;
      }
    }
  }

  /** Counting more windows never drops a key. */
  lemma {:induction false} CountWindowsKeeps(m: map<string, nat>, words: seq<string>, size: nat, n: nat, stopwords: set<string>, x: string)
    requires 1 <= size && n <= WindowCount(|words|, size)
    requires x in m
    ensures x in CountWindows(m, words, size, n, stopwords)
    decreases n
  {
    if n > 0 {
      CountWindowsKeeps(m, words, size, n - 1, stopwords, x);
    }
  }

  lemma {:induction false} CountSizesKeeps(m: map<string, nat>, words: seq<string>, maxSize: nat, stopwords: set<string>, x: string)
    requires x in m
    ensures x in CountSizes(m, words, maxSize, stopwords)
    decreases maxSize
  {
    if maxSize > 0 {
      CountSizesKeeps(m, words, maxSize - 1, stopwords, x);
      CountWindowsKeeps(CountSizes(m, words, maxSize - 1, stopwords), words, maxSize, WindowCount(|words|, maxSize), stopwords, x);
    }
  }

  lemma {:induction false} CountClausesKeeps(m: map<string, nat>, clauses: seq<seq<string>>, n: nat, stopwords: set<string>, x: string)
    requires n <= |clauses| && x in m
    ensures x in CountClauses(m, clauses, n, stopwords)
    decreases n
  {
    if n > 0 {
      CountClausesKeeps(m, clauses, n - 1, stopwords, x);
      CountSizesKeeps(CountClauses(m, clauses, n - 1, stopwords), clauses[n - 1], MaxShingleLen, stopwords, x);
    }
  }

  lemma {:induction false} CountWindowsComplete(m: map<string, nat>, words: seq<string>, size: nat, n: nat, stopwords: set<string>, i: nat)
    requires 1 <= size && n <= WindowCount(|words|, size)
    requires i < n && WindowOk(words[i..i + size], stopwords)
    ensures JoinWith(words[i..i + size], ' ') in CountWindows(m, words, size, n, stopwords)
    decreases n
  {
    if i < n - 1 {
      CountWindowsComplete(m, words, size, n - 1, stopwords, i);
      var key := JoinWith(words[i..i + size], ' ');
      var prev := CountWindows(m, words, size, n - 1, stopwords);
      assert key in prev;
    }
  }

  lemma {:induction false} CountSizesSound(m: map<string, nat>, words: seq<string>, maxSize: nat, stopwords: set<string>, x: string)
    returns (i: nat, j: nat)
    requires x in CountSizes(m, words, maxSize, stopwords) && x !in m
    ensures i < j <= |words| && j - i <= maxSize
    ensures WindowOk(words[i..j], stopwords) && x == JoinWith(words[i..j], ' ')
    decreases maxSize
  {
    if maxSize > 0 {
      var prev := CountSizes(m, words, maxSize - 1, stopwords);
      if x in prev {
        i, j := CountSizesSound(m, words, maxSize - 1, stopwords, x);
      } else {
        i := CountWindowsSound(prev, words, maxSize, WindowCount(|words|, maxSize), stopwords, x);
        j := i + maxSize;
      }
    }
  }

  lemma {:induction false} CountSizesComplete(m: map<string, nat>, words: seq<string>, maxSize: nat, stopwords: set<string>, i: nat, j: nat)
    requires i < j <= |words| && j - i <= maxSize
    requires WindowOk(words[i..j], stopwords)
    ensures JoinWith(words[i..j], ' ') in CountSizes(m, words, maxSize, stopwords)
    decreases maxSize
  {
    var prev := CountSizes(m, words, maxSize - 1, stopwords);
    if j - i == maxSize {
      CountWindowsComplete(prev, words, maxSize, WindowCount(|words|, maxSize), stopwords, i);
    } else {
      CountSizesComplete(m, words, maxSize - 1, stopwords, i, j);
      CountWindowsKeeps(prev, words, maxSize, WindowCount(|words|, maxSize), stopwords, JoinWith(words[i..j], ' '));
    }
  }

  lemma {:induction false} CountClausesSound(m: map<string, nat>, clauses: seq<seq<string>>, n: nat, stopwords: set<string>, x: string)
    returns (ci: nat, i: nat, j: nat)
    requires n <= |clauses|
    requires x in CountClauses(m, clauses, n, stopwords) && x !in m
    ensures ci < n && i < j <= |clauses[ci]| && j - i <= MaxShingleLen
    ensures WindowOk(clauses[ci][i..j], stopwords) && x == JoinWith(clauses[ci][i..j], ' ')
    decreases n
  {
    if n > 0 {
      var prev := CountClauses(m, clauses, n - 1, stopwords);
      if x in prev {
        ci, i, j := CountClausesSound(m, clauses, n - 1, stopwords, x);
      } else {
        ci := n - 1;
        i, j := CountSizesSound(prev, clauses[n - 1], MaxShingleLen, stopwords, x);
      }
    }
  }

  /** A key present once clause `ci` has been counted stays present after the first `n` clauses. */
  lemma {:induction false} CountClausesKeepsFrom(m: map<string, nat>, clauses: seq<seq<string>>, ci: nat, n: nat, stopwords: set<string>, x: string)
    requires ci < n <= |clauses|
    requires x in CountClauses(m, clauses, ci + 1, stopwords)
    ensures x in CountClauses(m, clauses, n, stopwords)
    decreases n
  {
    if ci + 1 < n {
      CountClausesKeepsFrom(m, clauses, ci, n - 1, stopwords, x);
      CountSizesKeeps(CountClauses(m, clauses, n - 1, stopwords), clauses[n - 1], MaxShingleLen, stopwords, x);
    }
  }

  /** An accepted window of clause `ci` is counted once that clause has been. */
  lemma CountClauseComplete(m: map<string, nat>, clauses: seq<seq<string>>, stopwords: set<string>, ci: nat, i: nat, j: nat, x: string)
    requires ci < |clauses|
    requires i < j <= |clauses[ci]| && j - i <= MaxShingleLen
    requires WindowOk(clauses[ci][i..j], stopwords) && x == JoinWith(clauses[ci][i..j], ' ')
    ensures x in CountClauses(m, clauses, ci + 1, stopwords)
  {
    CountSizesComplete(CountClauses(m, clauses, ci, stopwords), clauses[ci], MaxShingleLen, stopwords, i, j);
  }

  lemma CountClausesComplete(m: map<string, nat>, clauses: seq<seq<string>>, n: nat, stopwords: set<string>, ci: nat, i: nat, j: nat, x: string)
    requires n <= |clauses| && ci < n
    requires i < j <= |clauses[ci]| && j - i <= MaxShingleLen
    requires WindowOk(clauses[ci][i..j], stopwords) && x == JoinWith(clauses[ci][i..j], ' ')
    ensures x in CountClauses(m, clauses, n, stopwords)
  {
    CountClauseComplete(m, clauses, stopwords, ci, i, j, x);
    CountClausesKeepsFrom(m, clauses, ci, n, stopwords, x);
  }

  /** The clause-word window [i, j) of clause ci of `text` is accepted and reads `x`. */
  ghost predicate AcceptedWindow(text: string, stopwords: set<string>, x: string, ci: nat, i: nat, j: nat)
  {
    var clauses := ClauseWords(text);
    && ci < |clauses|
    && i < j <= |clauses[ci]|
    && j - i <= MaxShingleLen
    && WindowOk(clauses[ci][i..j], stopwords)
    && x == JoinWith(clauses[ci][i..j], ' ')
  }

  /**
   * The keys of `get_shingles(text)` are exactly the texts of accepted
   * windows: 1 to MaxShingleLen consecutive words of ONE clause, every word
   * passing the filter. So no key spans a delimiter, a clause with fewer words
   * than a size has no window of that size, and whether a window is kept
   * depends on that window's words alone.
   */
  lemma ShingleKeys(text: string, stopwords: set<string>, x: string)
    ensures x in ShingleCounts(text, stopwords)
        <==> exists ci: nat, i: nat, j: nat :: AcceptedWindow(text, stopwords, x, ci, i, j)
  {
    var clauses := ClauseWords(text);
    if x in ShingleCounts(text, stopwords) {
      var ci, i, j := CountClausesSound(map[], clauses, |clauses|, stopwords, x);
      assert AcceptedWindow(text, stopwords, x, ci, i, j);
    }
    if exists ci: nat, i: nat, j: nat :: AcceptedWindow(text, stopwords, x, ci, i, j) {
      var ci: nat, i: nat, j: nat :| AcceptedWindow(text, stopwords, x, ci, i, j);
      CountClausesComplete(map[], clauses, |clauses|, stopwords, ci, i, j, x);
    }
  }

  /** `get_shingles("")` is the empty dict. */
  lemma EmptyText(stopwords: set<string>)
    ensures ShingleCounts("", stopwords) == map[]
  {
    assert Split("", Delimiters) == [""];
    assert Tokens("") == [];
    assert ClauseWords("") == [[]];
  }

  /** A shingle text: 1 to MaxShingleLen space-separated words, each passing the filter. */
  predicate IsShingle(x: string, stopwords: set<string>)
  {
    var ws := Split(x, {' '});
    1 <= |ws| <= MaxShingleLen && forall w :: w in ws ==> WordOk(w, stopwords)
  }

  /** Every key of `get_shingles(text)` splits back into 1 to 3 acceptable words. */
  lemma ShingleWellFormed(text: string, stopwords: set<string>, x: string)
    requires x in ShingleCounts(text, stopwords)
    ensures IsShingle(x, stopwords)
  {
    var chunks := Split(text, Delimiters);
    var clauses := ClauseWords(text);
    var ci, i, j := CountClausesSound(map[], clauses, |clauses|, stopwords, x);
    var words := clauses[ci];
    assert words == Tokens(chunks[ci]);
    var win := words[i..j];
    forall w | w in win ensures NoneOf(w, {' '}) {
      assert w in words;
      TokenChars(w);
    }
    SplitJoin(win, ' ', {' '});
  }

  /** Every value of the map is at least 1. */
  predicate Positive(m: map<string, nat>)
  {
    forall k :: k in m ==> m[k] >= 1
  }

  lemma {:induction false} CountWindowsPositive(m: map<string, nat>, words: seq<string>, size: nat, n: nat, stopwords: set<string>)
    requires 1 <= size && n <= WindowCount(|words|, size)
    requires Positive(m)
    ensures Positive(CountWindows(m, words, size, n, stopwords))
    decreases n
  {
    if n > 0 {
      CountWindowsPositive(m, words, size, n - 1, stopwords);
    }
  }

  lemma {:induction false} CountSizesPositive(m: map<string, nat>, words: seq<string>, maxSize: nat, stopwords: set<string>)
    requires Positive(m)
    ensures Positive(CountSizes(m, words, maxSize, stopwords))
    decreases maxSize
  {
    if maxSize > 0 {
      CountSizesPositive(m, words, maxSize - 1, stopwords);
      CountWindowsPositive(CountSizes(m, words, maxSize - 1, stopwords), words, maxSize, WindowCount(|words|, maxSize), stopwords);
    }
  }

  lemma {:induction false} CountClausesPositive(m: map<string, nat>, clauses: seq<seq<string>>, n: nat, stopwords: set<string>)
    requires n <= |clauses| && Positive(m)
    ensures Positive(CountClauses(m, clauses, n, stopwords))
    decreases n
  {
    if n > 0 {
      CountClausesPositive(m, clauses, n - 1, stopwords);
      CountSizesPositive(CountClauses(m, clauses, n - 1, stopwords), clauses[n - 1], MaxShingleLen, stopwords);
    }
  }

  /** Every shingle `get_shingles` returns was seen at least once. */
  lemma ShingleCountsPositive(text: string, stopwords: set<string>)
    ensures Positive(ShingleCounts(text, stopwords))
  {
    var clauses := ClauseWords(text);
    CountClausesPositive(map[], clauses, |clauses|, stopwords);
  }

  // ------------------------------------------------------------- additivity

  lemma {:induction false} CountWindowsAdd(m: map<string, nat>, words: seq<string>, size: nat, n: nat, stopwords: set<string>, x: string)
    requires 1 <= size && n <= WindowCount(|words|, size)
    ensures CountOf(CountWindows(m, words, size, n, stopwords), x)
         == CountOf(m, x) + CountOf(CountWindows(map[], words, size, n, stopwords), x)
    decreases n
  {
    if n > 0 {
      CountWindowsAdd(m, words, size, n - 1, stopwords, x);
    }
  }

  lemma {:induction false} CountSizesAdd(m: map<string, nat>, words: seq<string>, maxSize: nat, stopwords: set<string>, x: string)
    ensures CountOf(CountSizes(m, words, maxSize, stopwords), x)
         == CountOf(m, x) + CountOf(CountSizes(map[], words, maxSize, stopwords), x)
    decreases maxSize
  {
    if maxSize > 0 {
      var n := WindowCount(|words|, maxSize);
      CountSizesAdd(m, words, maxSize - 1, stopwords, x);
      CountWindowsAdd(CountSizes(m, words, maxSize - 1, stopwords), words, maxSize, n, stopwords, x);
      CountWindowsAdd(CountSizes(map[], words, maxSize - 1, stopwords), words, maxSize, n, stopwords, x);
    }
  }

  lemma {:induction false} CountClausesAdd(m: map<string, nat>, clauses: seq<seq<string>>, n: nat, stopwords: set<string>, x: string)
    requires n <= |clauses|
    ensures CountOf(CountClauses(m, clauses, n, stopwords), x)
         == CountOf(m, x) + CountOf(CountClauses(map[], clauses, n, stopwords), x)
    decreases n
  {
    if n > 0 {
      CountClausesAdd(m, clauses, n - 1, stopwords, x);
      CountSizesAdd(CountClauses(m, clauses, n - 1, stopwords), clauses[n - 1], MaxShingleLen, stopwords, x);
      CountSizesAdd(CountClauses(map[], clauses, n - 1, stopwords), clauses[n - 1], MaxShingleLen, stopwords, x);
    }
  }

  lemma {:induction false} CountClausesPrefix(m: map<string, nat>, clauses: seq<seq<string>>, more: seq<seq<string>>, n: nat, stopwords: set<string>)
    requires n <= |clauses|
    ensures CountClauses(m, clauses + more, n, stopwords) == CountClauses(m, clauses, n, stopwords)
    decreases n
  {
    if n > 0 {
      CountClausesPrefix(m, clauses, more, n - 1, stopwords);
      var prev := CountClauses(m, clauses, n - 1, stopwords);
      var words := clauses[n - 1];
      assert (clauses + more)[n - 1] == words;
      calc {
        CountClauses(m, clauses + more, n, stopwords);
        CountSizes(CountClauses(m, clauses + more, n - 1, stopwords), (clauses + more)[n - 1], MaxShingleLen, stopwords);
        CountSizes(prev, words, MaxShingleLen, stopwords);
      }
    }
  }

  lemma {:induction false} CountClausesAppend(m: map<string, nat>, a: seq<seq<string>>, b: seq<seq<string>>, n: nat, stopwords: set<string>)
    requires n <= |b|
    ensures CountClauses(m, a + b, |a| + n, stopwords)
         == CountClauses(CountClauses(m, a, |a|, stopwords), b, n, stopwords)
    decreases n
  {
    if n == 0 {
      CountClausesPrefix(m, a, b, |a|, stopwords);
    } else {
      CountClausesAppend(m, a, b, n - 1, stopwords);
      var prev := CountClauses(m, a + b, |a| + n - 1, stopwords);
      assert (a + b)[|a| + n - 1] == b[n - 1];
      assert CountClauses(m, a + b, |a| + n, stopwords) == CountSizes(prev, b[n - 1], MaxShingleLen, stopwords);
    }
  }

  /**
   * Counts are additive across a delimiter: the text on either side of it is
   * counted on its own, so no window straddles the delimiter.
   */
  lemma CountsSplitAtDelimiter(a: string, d: char, b: string, stopwords: set<string>, x: string)
    requires d in Delimiters
    ensures CountOf(ShingleCounts(a + [d] + b, stopwords), x)
         == CountOf(ShingleCounts(a, stopwords), x) + CountOf(ShingleCounts(b, stopwords), x)
  {
    SplitAt(a, d, b, Delimiters);
    var ca, cb := ClauseWords(a), ClauseWords(b);
    assert ClauseWords(a + [d] + b) == ca + cb;
    CountsOfAppend(ca, cb, stopwords, x);
  }

  /** Counting two clause lists one after the other adds their counts. */
  lemma CountsOfAppend(ca: seq<seq<string>>, cb: seq<seq<string>>, stopwords: set<string>, x: string)
    ensures CountOf(CountClauses(map[], ca + cb, |ca + cb|, stopwords), x)
         == CountOf(CountClauses(map[], ca, |ca|, stopwords), x) + CountOf(CountClauses(map[], cb, |cb|, stopwords), x)
  {
    CountClausesAppend(map[], ca, cb, |cb|, stopwords);
    CountClausesAdd(CountClauses(map[], ca, |ca|, stopwords), cb, |cb|, stopwords, x);
  }

  // ------------------------------------------------------------ exact counts

  /** The window is accepted and reads `x`. */
  predicate Reads(win: seq<string>, stopwords: set<string>, x: string)
  {
    WindowOk(win, stopwords) && x == JoinWith(win, ' ')
  }

  /** How many of the windows of `size` words starting before n read `x`. */
  ghost function SizeHits(words: seq<string>, size: nat, n: nat, stopwords: set<string>, x: string): nat
    requires 1 <= size && n <= WindowCount(|words|, size)
    decreases n
  {
    if n == 0 then 0
    else SizeHits(words, size, n - 1, stopwords, x) + if Reads(words[n - 1..n - 1 + size], stopwords, x) then 1 else 0
  }

  /** How many windows of 1 to k words of one clause read `x`. */
  ghost function ClauseHits(words: seq<string>, k: nat, stopwords: set<string>, x: string): nat
    decreases k
  {
    if k == 0 then 0 else ClauseHits(words, k - 1, stopwords, x) + SizeHits(words, k, WindowCount(|words|, k), stopwords, x)
  }

  /** How many windows of 1 to MaxShingleLen words, over the first n clauses, read `x`. */
  ghost function Hits(clauses: seq<seq<string>>, n: nat, stopwords: set<string>, x: string): nat
    requires n <= |clauses|
    decreases n
  {
    if n == 0 then 0 else Hits(clauses, n - 1, stopwords, x) + ClauseHits(clauses[n - 1], MaxShingleLen, stopwords, x)
  }

  /** A window adds one to the count of `x` exactly when it is accepted and reads `x`; no other count moves. */
  lemma CountWindowOf(m: map<string, nat>, win: seq<string>, stopwords: set<string>, x: string)
    ensures CountOf(CountWindow(m, win, stopwords), x) == CountOf(m, x) + if Reads(win, stopwords, x) then 1 else 0
  {
  }

  lemma {:induction false} CountWindowsExact(m: map<string, nat>, words: seq<string>, size: nat, n: nat, stopwords: set<string>, x: string)
    requires 1 <= size && n <= WindowCount(|words|, size)
    ensures CountOf(CountWindows(m, words, size, n, stopwords), x) == CountOf(m, x) + SizeHits(words, size, n, stopwords, x)
    decreases n
  {
    if n > 0 {
      CountWindowsExact(m, words, size, n - 1, stopwords, x);
      CountWindowOf(CountWindows(m, words, size, n - 1, stopwords), words[n - 1..n - 1 + size], stopwords, x);
    }
  }

  lemma {:induction false} CountSizesExact(m: map<string, nat>, words: seq<string>, k: nat, stopwords: set<string>, x: string)
    ensures CountOf(CountSizes(m, words, k, stopwords), x) == CountOf(m, x) + ClauseHits(words, k, stopwords, x)
    decreases k
  {
    if k > 0 {
      CountSizesExact(m, words, k - 1, stopwords, x);
      CountWindowsExact(CountSizes(m, words, k - 1, stopwords), words, k, WindowCount(|words|, k), stopwords, x);
    }
  }

  lemma {:induction false} CountClausesExact(m: map<string, nat>, clauses: seq<seq<string>>, n: nat, stopwords: set<string>, x: string)
    requires n <= |clauses|
    ensures CountOf(CountClauses(m, clauses, n, stopwords), x) == CountOf(m, x) + Hits(clauses, n, stopwords, x)
    decreases n
  {
    if n > 0 {
      CountClausesExact(m, clauses, n - 1, stopwords, x);
      CountClauseExact(m, clauses, n, stopwords, x);
    }
  }

  /** Counting clause n - 1 on top of the clauses before it adds that clause's hits. */
  lemma CountClauseExact(m: map<string, nat>, clauses: seq<seq<string>>, n: nat, stopwords: set<string>, x: string)
    requires 0 < n <= |clauses|
    ensures CountOf(CountClauses(m, clauses, n, stopwords), x)
         == CountOf(CountClauses(m, clauses, n - 1, stopwords), x) + ClauseHits(clauses[n - 1], MaxShingleLen, stopwords, x)
  {
    CountSizesExact(CountClauses(m, clauses, n - 1, stopwords), clauses[n - 1], MaxShingleLen, stopwords, x);
  }

  /**
   * The count of `x` in `get_shingles(text)` is the number of windows, over
   * all clauses, all sizes 1 to MaxShingleLen and all start positions, that
   * are accepted and read `x` (0 when there is none).
   */
  lemma ShingleCountsExact(text: string, stopwords: set<string>, x: string)
    ensures CountOf(ShingleCounts(text, stopwords), x) == Hits(ClauseWords(text), |ClauseWords(text)|, stopwords, x)
  {
    var clauses := ClauseWords(text);
    CountClausesExact(map[], clauses, |clauses|, stopwords, x);
  }
}
