/**
 * String helpers the indexers rely on: ASCII case folding (`str.lower()`),
 * splitting at a set of separator characters (`CHUNK_RE.split`,
 * `str.split(' ')`), joining with a separator (`' '.join`), and a hand-written
 * scanner with the semantics of `WORD_RE.findall`, where
 * `WORD_RE = \w+(?:[\-\_\']+\w+)?` and `\w` is the ASCII class `[a-zA-Z0-9_]`.
 */
module Text {

  /** ASCII case folding of one character. */
  function LowerChar(c: char): char
  {
    if 'A' <= c <= 'Z' then (c as int + 32) as char else c
  }

  /** An ASCII capital letter. */
  predicate IsUpper(c: char)
  {
    'A' <= c <= 'Z'
  }

  /**
   * `s.lower()` on ASCII text: the length is kept, no capital survives, every
   * capital becomes the small letter at the same place in the alphabet, and
   * every other character is kept.
   */
  function Lower(s: string): (r: string)
    ensures |r| == |s|
    ensures forall c :: c in r ==> !IsUpper(c)
    ensures forall i :: 0 <= i < |s| && IsUpper(s[i]) ==> 'a' <= r[i] <= 'z' && r[i] as int - 'a' as int == s[i] as int - 'A' as int
    ensures forall i :: 0 <= i < |s| && !IsUpper(s[i]) ==> r[i] == s[i]
  {
    var r := seq(|s|, i requires 0 <= i < |s| => LowerChar(s[i]));
    assert forall c :: c in r ==> !IsUpper(c) by {
      forall c | c in r ensures !IsUpper(c) {
        var i :| 0 <= i < |r| && r[i] == c;
      }
    }
    r
  }

  /** Lowering twice is lowering once. */
  lemma LowerIdempotent(s: string)
    ensures Lower(Lower(s)) == Lower(s)
  {
    var r := Lower(s);
    assert forall i :: 0 <= i < |r| ==> !IsUpper(r[i]) by {
      forall i | 0 <= i < |r| ensures !IsUpper(r[i]) {
        assert r[i] in r;
      }
    }
  }

  // ---------------------------------------------------------------- splitting

  /** No character of `s` is a separator. */
  predicate NoneOf(s: string, seps: set<char>)
  {
    forall c :: c in s ==> c !in seps
  }

  /** Index of the first separator in `s`, or |s| when there is none. */
  function IndexOfAny(s: string, seps: set<char>): (i: nat)
    ensures i <= |s|
    ensures forall j :: 0 <= j < i ==> s[j] !in seps
    ensures i < |s| ==> s[i] in seps
  {
    if s == [] || s[0] in seps then 0 else 1 + IndexOfAny(s[1..], seps)
  }

  /**
   * `re.split` with a one-character class as the pattern: cut at every
   * separator and drop it; empty pieces are kept, so there is always one more
   * piece than there are separators.
   */
  function Split(s: string, seps: set<char>): (parts: seq<string>)
    ensures |parts| >= 1
    ensures forall p :: p in parts ==> NoneOf(p, seps)
    decreases |s|
  {
    var i := IndexOfAny(s, seps);
    if i == |s| then [s] else [s[..i]] + Split(s[i + 1..], seps)
  }

  /** `sep.join(parts)`. */
  function JoinWith(parts: seq<string>, sep: char): string
  {
    if parts == [] then []
    else if |parts| == 1 then parts[0]
    else parts[0] + [sep] + JoinWith(parts[1..], sep)
  }

  /** Splitting undoes joining, when no part holds a separator. */
  lemma {:induction false} SplitJoin(parts: seq<string>, sep: char, seps: set<char>)
    requires |parts| >= 1 && sep in seps
    requires forall p :: p in parts ==> NoneOf(p, seps)
    ensures Split(JoinWith(parts, sep), seps) == parts
  {
    var s := JoinWith(parts, sep);
    var p := parts[0];
    assert p in parts;
    if |parts| == 1 {
      assert forall j :: 0 <= j < |s| ==> s[j] !in seps by {
        forall j | 0 <= j < |s| ensures s[j] !in seps { assert s[j] in p; }
      }
    } else {
      var rest := JoinWith(parts[1..], sep);
      assert s == p + [sep] + rest;
      assert NoneOf(p, seps);
      var i := IndexOfAny(s, seps);
      assert i == |p| by {
        assert forall j :: 0 <= j < |p| ==> s[j] !in seps by {
          forall j | 0 <= j < |p| ensures s[j] !in seps { assert s[j] == p[j] && p[j] in p; }
        }
        assert s[|p|] == sep;
      }
      assert s[..i] == p;
      assert s[i + 1..] == rest;
      SplitJoin(parts[1..], sep, seps);
    }
  }

  /** Splitting at a separator splits the two sides independently. */
  lemma {:induction false} SplitAt(a: string, d: char, b: string, seps: set<char>)
    requires d in seps
    ensures Split(a + [d] + b, seps) == Split(a, seps) + Split(b, seps)
    decreases |a|
  {
    var s := a + [d] + b;
    var ia := IndexOfAny(a, seps);
    var i := IndexOfAny(s, seps);
    assert i == ia by {
      assert forall j :: 0 <= j < |a| ==> s[j] == a[j];
      if ia < |a| {
        assert s[ia] in seps;
      } else {
        assert s[|a|] == d;
      }
    }
    if ia == |a| {
      assert s[..i] == a;
      assert s[i + 1..] == b;
    } else {
      assert s[..i] == a[..ia];
      assert s[i + 1..] == a[ia + 1..] + [d] + b;
      SplitAt(a[ia + 1..], d, b, seps);
    }
  }

  // ----------------------------------------------------------------- WORD_RE

  /** `\w` without the UNICODE flag. */
  predicate IsWordChar(c: char)
  {
    'a' <= c <= 'z' || 'A' <= c <= 'Z' || '0' <= c <= '9' || c == '_'
  }

  /** The class `[\-\_\']` of characters that may join two word runs. */
  predicate IsJoiner(c: char)
  {
    c == '-' || c == '_' || c == '\''
  }

  /**
   * `t` matches `\w+(?:[\-\_\']+\w+)?` with the first word run t[..w) and,
   * when the group is taken, the joiners t[w..k) and the second word run t[k..).
   */
  predicate TokenSplit(t: string, w: nat, k: nat)
  {
    && 0 < w <= k <= |t|
    && (forall j :: 0 <= j < w ==> IsWordChar(t[j]))
    && (|| w == k == |t|
        || (&& w < k < |t|
            && (forall j :: w <= j < k ==> IsJoiner(t[j]))
            && (forall j :: k <= j < |t| ==> IsWordChar(t[j]))))
  }

  /** What one match of WORD_RE looks like: a word run, then at most one joiner run and one more word run. */
  predicate IsToken(t: string)
  {
    exists w, k | 0 < w <= k <= |t| :: TokenSplit(t, w, k)
  }

  /** A token holds only word characters and joiners (so never a space). */
  lemma TokenChars(t: string)
    requires IsToken(t)
    ensures forall c :: c in t ==> IsWordChar(c) || IsJoiner(c)
  {
    var w: nat, k: nat :| TokenSplit(t, w, k);
    forall c | c in t ensures IsWordChar(c) || IsJoiner(c) {
      var j :| 0 <= j < |t| && t[j] == c;
    }
  }

  /**
   * The joiners that are not word characters ('-' and '\'') of a token form
   * one contiguous run: a token never holds two separate joiner groups.
   */
  lemma OneJoinerRun(t: string, i: nat, m: nat, j: nat)
    requires IsToken(t) && i < m < j < |t|
    requires IsJoiner(t[i]) && !IsWordChar(t[i]) && IsJoiner(t[j]) && !IsWordChar(t[j])
    ensures IsJoiner(t[m])
  {
    var w: nat, k: nat :| TokenSplit(t, w, k);
    assert TokenSplit(t, w, k);
  }

  /** End of the maximal run of word characters starting at p (greedy `\w*`). */
  function WordRunEnd(s: string, p: nat): (e: nat)
    requires p <= |s|
    ensures p <= e <= |s|
    ensures forall j :: p <= j < e ==> IsWordChar(s[j])
    ensures e < |s| ==> !IsWordChar(s[e])
    decreases |s| - p
  {
    if p < |s| && IsWordChar(s[p]) then WordRunEnd(s, p + 1) else p
  }

  /** End of the maximal run of joiner characters starting at p (greedy `[\-\_\']*`). */
  function JoinerRunEnd(s: string, p: nat): (e: nat)
    requires p <= |s|
    ensures p <= e <= |s|
    ensures forall j :: p <= j < e ==> IsJoiner(s[j])
    ensures e < |s| ==> !IsJoiner(s[e])
    decreases |s| - p
  {
    if p < |s| && IsJoiner(s[p]) then JoinerRunEnd(s, p + 1) else p
  }

  /**
   * The optional group `(?:[\-\_\']+\w+)?` after a word run ending at w, with
   * the joiners s[w..k) still to try: the regex engine backtracks the greedy
   * joiner run until a word character follows it, so the group resumes at the
   * LARGEST k > w with s[k] a word character ('_' is both) and then takes a
   * maximal word run; with no such k the group matches nothing.
   */
  function GroupEnd(s: string, w: nat, k: nat): (e: nat)
    requires w <= k <= |s|
    requires forall j :: w <= j < k ==> IsJoiner(s[j])
    ensures w <= e <= |s|
    ensures e == w || (&& (forall j :: w <= j < e ==> IsWordChar(s[j]) || IsJoiner(s[j]))
                       && IsWordChar(s[e - 1])
                       && (e < |s| ==> !IsWordChar(s[e])))
    decreases k
  {
    if k == w then w
    else if k < |s| && IsWordChar(s[k]) then WordRunEnd(s, k)
    else GroupEnd(s, w, k - 1)
  }

  /**
   * Where the group's second word run starts: when the group matches
   * something, it is a word run from some k' with joiners before it.
   */
  lemma GroupStart(s: string, w: nat, k: nat) returns (k': nat)
    requires w <= k <= |s|
    requires forall j :: w <= j < k ==> IsJoiner(s[j])
    ensures GroupEnd(s, w, k) == w || (w < k' <= k && k' < GroupEnd(s, w, k) && GroupEnd(s, w, k) == WordRunEnd(s, k'))
    decreases k
  {
    if k == w {
      k' := w;
    } else if k < |s| && IsWordChar(s[k]) {
      k' := k;
    } else {
      k' := GroupStart(s, w, k - 1);
    }
  }

  /** A word run s[..w) followed by the optional group is one WORD_RE token. */
  lemma GroupShape(s: string, w: nat, k: nat)
    requires 0 < w <= k <= |s|
    requires forall j :: 0 <= j < w ==> IsWordChar(s[j])
    requires forall j :: w <= j < k ==> IsJoiner(s[j])
    ensures IsToken(s[..GroupEnd(s, w, k)])
  {
    var e := GroupEnd(s, w, k);
    var k' := GroupStart(s, w, k);
    if e == w {
      assert TokenSplit(s[..e], w, w);
    } else {
      assert TokenSplit(s[..e], w, k');
    }
  }

  /** End of the WORD_RE match that starts at the word character s[0]. */
  function MatchEnd(s: string): (e: nat)
    requires s != [] && IsWordChar(s[0])
    ensures 0 < e <= |s|
    ensures IsToken(s[..e])
    ensures e < |s| ==> !IsWordChar(s[e])
  {
    var w := WordRunEnd(s, 0);
    var e := GroupEnd(s, w, JoinerRunEnd(s, w));
    GroupShape(s, w, JoinerRunEnd(s, w));
    e
  }

  /**
   * `WORD_RE.findall(s)`: scan left to right; at a word character take the
   * match there and resume after it, otherwise skip one character.
   */
  function Tokens(s: string): (ts: seq<string>)
    ensures forall t :: t in ts ==> IsToken(t)
    decreases |s|
  {
    if s == [] then []
    else if IsWordChar(s[0]) then
      var e := MatchEnd(s);
      [s[..e]] + Tokens(s[e..])
    else Tokens(s[1..])
  }

  /** Every character of every token comes from the scanned text. */
  lemma {:induction false} TokensFrom(s: string)
    ensures forall t, c :: t in Tokens(s) && c in t ==> c in s
    decreases |s|
  {
    if s != [] {
      if IsWordChar(s[0]) {
        var e := MatchEnd(s);
        TokensFrom(s[e..]);
        forall t, c | t in Tokens(s) && c in t ensures c in s {
          if t == s[..e] {
            var j :| 0 <= j < |t| && t[j] == c;
            assert s[j] == c;
          } else {
            assert t in Tokens(s[e..]);
            var j :| 0 <= j < |s[e..]| && s[e..][j] == c;
            assert s[e + j] == c;
          }
        }
      } else {
        TokensFrom(s[1..]);
        forall t, c | t in Tokens(s) && c in t ensures c in s {
          var j :| 0 <= j < |s[1..]| && s[1..][j] == c;
          assert s[1 + j] == c;
        }
      }
    }
  }

  /**
   * After `.lower()`, every token holds only small letters, digits, '_', '-'
   * and '\'': `\w` has no capital left to match.
   */
  lemma LoweredTokens(s: string)
    ensures forall t, c :: t in Tokens(Lower(s)) && c in t ==>
              'a' <= c <= 'z' || '0' <= c <= '9' || c == '_' || c == '-' || c == '\''
  {
    TokensFrom(Lower(s));
    forall t | t in Tokens(Lower(s)) {
      TokenChars(t);
    }
  }

  /** Tokenising space-separated plain words gives the words back. */
  lemma {:induction false} TokensOfWords(ws: seq<string>)
    requires forall w :: w in ws ==> w != [] && forall c :: c in w ==> IsWordChar(c)
    ensures Tokens(JoinWith(ws, ' ')) == ws
  {
    if ws != [] {
      var w := ws[0];
      var rest := if |ws| == 1 then [] else [' '] + JoinWith(ws[1..], ' ');
      var s := JoinWith(ws, ' ');
      assert s == w + rest;
      assert w in ws && w[0] in w;
      assert forall j :: 0 <= j < |w| ==> IsWordChar(s[j]) by {
        forall j | 0 <= j < |w| ensures IsWordChar(s[j]) { assert s[j] == w[j] && w[j] in w; }
      }
      assert |w| < |s| ==> s[|w|] == ' ';
      var wEnd := WordRunEnd(s, 0);
      assert wEnd == |w|;
      assert JoinerRunEnd(s, wEnd) == |w|;
      assert MatchEnd(s) == |w|;
      assert s[..|w|] == w;
      assert s[|w|..] == rest;
      if |ws| > 1 {
        assert Tokens(rest) == Tokens(JoinWith(ws[1..], ' '));
        assert forall v :: v in ws[1..] ==> v in ws;
        TokensOfWords(ws[1..]);
      }
    }
  }

  /** A joiner group is taken once: "x-y-z" is the two tokens "x-y" and "z". */
  lemma OneJoinerGroup()
    ensures Tokens("x-y-z") == ["x-y", "z"]
  {
    var s := "x-y-z";
    assert WordRunEnd(s, 0) == 1;
    assert JoinerRunEnd(s, 1) == 2;
    assert WordRunEnd(s, 2) == 3;
    assert MatchEnd(s) == 3;
    assert s[..3] == "x-y";
    assert s[3..] == "-z";
    assert WordRunEnd("z", 0) == 1;
    assert MatchEnd("z") == 1;
    assert "z"[..1] == "z" && "z"[1..] == [];
    assert Tokens("z") == ["z"];
    assert Tokens("-z") == Tokens("z");
  }

  /** '_' is a word character and a joiner: a trailing "-_" keeps the '_'. */
  lemma UnderscoreBacktrack()
    ensures Tokens("a-_") == ["a-_"]
  {
    var s := "a-_";
    assert WordRunEnd(s, 0) == 1;
    assert JoinerRunEnd(s, 1) == 3;
    assert WordRunEnd(s, 2) == 3;
    assert GroupEnd(s, 1, 3) == GroupEnd(s, 1, 2) == 3;
    assert MatchEnd(s) == 3;
    assert s[..3] == s && s[3..] == [];
  }
}
