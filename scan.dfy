/**
 * The word scan of an incoming chat line (`ws.onmessage`): the line is split
 * on runs of JavaScript whitespace (`split(/\s+/)`), each word loses its
 * trailing run of `. , ; : ! ? )` (`replace(/[.,;:!?)]+$/, "")`), and the
 * first cleaned word found in the channel map, else in the global map, is the
 * emote shown.
 */
module Scan {
  import opened Common

  /** JavaScript's `\s` class: the ECMAScript WhiteSpace and LineTerminator code points. */
  predicate IsSpace(c: char)
  {
    var n := c as int;
    n == 0x09 || n == 0x0A || n == 0x0B || n == 0x0C || n == 0x0D || n == 0x20
    || n == 0xA0 || n == 0x1680 || (0x2000 <= n <= 0x200A) || n == 0x2028 || n == 0x2029
    || n == 0x202F || n == 0x205F || n == 0x3000 || n == 0xFEFF
  }

  /** The characters `[.,;:!?)]` stripped from the end of a word. */
  predicate IsTrailingPunct(c: char)
  {
    c == '.' || c == ',' || c == ';' || c == ':' || c == '!' || c == '?' || c == ')'
  }

  predicate NoSpace(w: string)
  {
    forall k :: 0 <= k < |w| ==> !IsSpace(w[k])
  }

  /** The text with every whitespace character dropped. */
  function RemoveSpaces(s: string): string
  {
    if s == [] then []
    else (if IsSpace(s[0]) then [] else [s[0]]) + RemoveSpaces(s[1..])
  }

  function Concat(ws: seq<string>): string
  {
    if ws == [] then [] else ws[0] + Concat(ws[1..])
  }

  /** Index of the first whitespace character at or after `i`, or `|s|`. */
  function NextSpace(s: string, i: nat): (j: nat)
    requires i <= |s|
    ensures i <= j <= |s|
    ensures forall k :: i <= k < j ==> !IsSpace(s[k])
    ensures j < |s| ==> IsSpace(s[j])
    decreases |s| - i
  {
    if i == |s| || IsSpace(s[i]) then i else NextSpace(s, i + 1)
  }

  /** Index of the first non-whitespace character at or after `i`, or `|s|`. */
  function SkipSpaces(s: string, i: nat): (j: nat)
    requires i <= |s|
    ensures i <= j <= |s|
    ensures forall k :: i <= k < j ==> IsSpace(s[k])
    ensures j < |s| ==> !IsSpace(s[j])
    decreases |s| - i
  {
    if i == |s| || !IsSpace(s[i]) then i else SkipSpaces(s, i + 1)
  }

  lemma {:induction false} RemoveSpacesAppend(a: string, b: string)
    ensures RemoveSpaces(a + b) == RemoveSpaces(a) + RemoveSpaces(b)
  {
    if a != [] {
      assert (a + b)[1..] == a[1..] + b;
      RemoveSpacesAppend(a[1..], b);
    } else {
      assert a + b == b;
    }
  }

  lemma {:induction false} RemoveSpacesOfWord(w: string)
    requires NoSpace(w)
    ensures RemoveSpaces(w) == w
  {
    if w != [] {
      RemoveSpacesOfWord(w[1..]);
    }
  }

  lemma {:induction false} RemoveSpacesOfBlanks(w: string)
    requires forall k :: 0 <= k < |w| ==> IsSpace(w[k])
    ensures RemoveSpaces(w) == []
  {
    if w != [] {
      RemoveSpacesOfBlanks(w[1..]);
    }
  }

  /**
   * `s.split(/\s+/)`: the maximal runs of non-whitespace, in order, with an
   * empty word in front when `s` starts with whitespace and one at the end
   * when it ends with whitespace; `""` splits into `[""]`.
   */
  function Words(s: string): (ws: seq<string>)
    ensures |ws| >= 1
    ensures forall i :: 0 <= i < |ws| ==> NoSpace(ws[i])
    decreases |s|
  {
    var i := NextSpace(s, 0);
    if i == |s| then [s]
    else [s[..i]] + Words(s[SkipSpaces(s, i)..])
  }

  /** Dropping whitespace from a word, a run of whitespace and a rest keeps the word and the rest. */
  lemma SplitAtRun(word: string, run: string, rest: string)
    requires NoSpace(word)
    requires forall k :: 0 <= k < |run| ==> IsSpace(run[k])
    ensures RemoveSpaces(word + run + rest) == word + RemoveSpaces(rest)
  {
    RemoveSpacesOfWord(word);
    RemoveSpacesOfBlanks(run);
    RemoveSpacesAppend(word, run);
    assert RemoveSpaces(word + run) == word;
    RemoveSpacesAppend(word + run, rest);
  }

  /** Together the words hold exactly the line's non-whitespace text, in order. */
  lemma {:induction false} WordsCoverText(s: string)
    ensures Concat(Words(s)) == RemoveSpaces(s)
    decreases |s|
  {
    var i := NextSpace(s, 0);
    if i == |s| {
      RemoveSpacesOfWord(s);
    } else {
      var j := SkipSpaces(s, i);
      var word, run, rest := s[..i], s[i..j], s[j..];
      assert NoSpace(word) by {
        assert forall k :: 0 <= k < |word| ==> word[k] == s[k];
      }
      assert forall k :: 0 <= k < |run| ==> IsSpace(run[k]) by {
        assert forall k :: 0 <= k < |run| ==> run[k] == s[i + k];
      }
      assert word + run + rest == s;
      SplitAtRun(word, run, rest);
      WordsCoverText(rest);
      assert Words(s) == [word] + Words(rest);
      assert Concat([word] + Words(rest)) == word + Concat(Words(rest)) by {
        assert ([word] + Words(rest))[1..] == Words(rest);
      }
    }
  }

  /**
   * A line without whitespace is one word; otherwise only the first and the
   * last word can be empty, the first one only when the line starts with
   * whitespace.
   */
  lemma {:induction false} WordsShape(s: string)
    ensures NoSpace(s) ==> Words(s) == [s]
    ensures |s| > 0 && !IsSpace(s[0]) ==> |Words(s)[0]| > 0
    ensures forall i :: 0 < i < |Words(s)| - 1 ==> |Words(s)[i]| > 0
    decreases |s|
  {
    var i := NextSpace(s, 0);
    if i < |s| {
      var j := SkipSpaces(s, i);
      var rest := Words(s[j..]);
      WordsShape(s[j..]);
      assert Words(s)[1..] == rest;
      if |rest| >= 2 {
        assert |s[j..]| > 0 && !IsSpace(s[j..][0]);
      }
    }
  }

  /** A non-empty run of whitespace. */
  predicate IsRun(r: string)
  {
    r != [] && forall k :: 0 <= k < |r| ==> IsSpace(r[k])
  }

  /** `ws[0] + runs[0] + ws[1] + ... + runs[n-1] + ws[n]`. */
  function Interleave(ws: seq<string>, runs: seq<string>): string
    requires |ws| == |runs| + 1
    decreases |runs|
  {
    if runs == [] then ws[0] else ws[0] + runs[0] + Interleave(ws[1..], runs[1..])
  }

  /** The whitespace runs `split(/\s+/)` breaks at, in order. */
  function Gaps(s: string): seq<string>
    decreases |s|
  {
    var i := NextSpace(s, 0);
    if i == |s| then [] else [s[i..SkipSpaces(s, i)]] + Gaps(s[SkipSpaces(s, i)..])
  }

  /** There is one run between each two neighbouring words. */
  lemma {:induction false} GapsBetweenWords(s: string)
    ensures |Gaps(s)| == |Words(s)| - 1
    decreases |s|
  {
    var i := NextSpace(s, 0);
    if i < |s| {
      GapsBetweenWords(s[SkipSpaces(s, i)..]);
    }
  }

  /** Every run is a non-empty stretch of whitespace. */
  lemma {:induction false} GapsAreRuns(s: string)
    ensures forall r :: r in Gaps(s) ==> IsRun(r)
    decreases |s|
  {
    var i := NextSpace(s, 0);
    if i < |s| {
      var j := SkipSpaces(s, i);
      var run := s[i..j];
      assert IsRun(run) by {
        assert forall k :: 0 <= k < |run| ==> run[k] == s[i + k];
      }
      GapsAreRuns(s[j..]);
      assert Gaps(s) == [run] + Gaps(s[j..]);
    }
  }

  lemma InterleaveCons(w: string, ws: seq<string>, r: string, runs: seq<string>)
    requires |ws| == |runs| + 1
    ensures Interleave([w] + ws, [r] + runs) == w + r + Interleave(ws, runs)
  {
    assert ([w] + ws)[1..] == ws && ([r] + runs)[1..] == runs;
  }

  lemma WordsUnfold(s: string, i: nat, j: nat)
    requires i == NextSpace(s, 0) < |s| && j == SkipSpaces(s, i)
    ensures Words(s) == [s[..i]] + Words(s[j..])
  {
  }

  lemma GapsUnfold(s: string, i: nat, j: nat)
    requires i == NextSpace(s, 0) < |s| && j == SkipSpaces(s, i)
    ensures Gaps(s) == [s[i..j]] + Gaps(s[j..])
  {
  }

  lemma SliceThree(s: string, i: nat, j: nat)
    requires i <= j <= |s|
    ensures s[..i] + s[i..j] + s[j..] == s
  {
  }

  /** One step of the split: the first word, the run after it, and the split of the rest. */
  lemma SplitStep(s: string) returns (word: string, run: string, rest: string)
    requires NextSpace(s, 0) < |s|
    ensures Words(s) == [word] + Words(rest)
    ensures Gaps(s) == [run] + Gaps(rest)
    ensures word + run + rest == s
    ensures |rest| < |s|
  {
    var i := NextSpace(s, 0);
    var j := SkipSpaces(s, i);
    WordsUnfold(s, i, j);
    GapsUnfold(s, i, j);
    SliceThree(s, i, j);
    word, run, rest := s[..i], s[i..j], s[j..];
  }

  /**
   * The words break exactly at the whitespace runs: the line is its words with
   * a run between each two neighbours. Since no word holds whitespace and
   * every run is non-empty whitespace (`GapsAreRuns`), this fixes the split.
   */
  lemma {:induction false} WordsBreakAtRuns(s: string)
    ensures |Gaps(s)| == |Words(s)| - 1
    ensures Interleave(Words(s), Gaps(s)) == s
    decreases |s|
  {
    GapsBetweenWords(s);
    if NextSpace(s, 0) < |s| {
      var word, run, rest := SplitStep(s);
      WordsBreakAtRuns(rest);
      InterleaveCons(word, Words(rest), run, Gaps(rest));
    }
  }

  /** `word.replace(/[.,;:!?)]+$/, "")`. */
  function Clean(w: string): (c: string)
    // the cleaned word is a prefix of the word ...
    ensures |c| <= |w| && c == w[..|c|]
    // ... that no longer ends in the stripped class ...
    ensures |c| > 0 ==> !IsTrailingPunct(c[|c| - 1])
    // ... and only characters of that class were removed
    ensures forall k :: |c| <= k < |w| ==> IsTrailingPunct(w[k])
    decreases |w|
  {
    if |w| > 0 && IsTrailingPunct(w[|w| - 1]) then Clean(w[..|w| - 1]) else w
  }

  /** Stripping twice is stripping once. */
  lemma CleanIdempotent(w: string)
    ensures Clean(Clean(w)) == Clean(w)
  {
  }

  datatype Hit = Hit(name: string, url: string)

  /** A word names an emote when its cleaned form is a key of either map. */
  predicate Matches(w: string, chat: map<string, string>, global: map<string, string>)
  {
    Clean(w) in chat || Clean(w) in global
  }

  /** The emote the word resolves to: the channel map is consulted before the global map. */
  function Resolve(w: string, chat: map<string, string>, global: map<string, string>): Hit
    requires Matches(w, chat, global)
  {
    var c := Clean(w);
    if c in chat then Hit(c, chat[c]) else Hit(c, global[c])
  }

  /** The first word, in order, that names an emote. */
  function FirstHit(ws: seq<string>, chat: map<string, string>, global: map<string, string>): Option<Hit>
  {
    if ws == [] then None
    else if Matches(ws[0], chat, global) then Some(Resolve(ws[0], chat, global))
    else FirstHit(ws[1..], chat, global)
  }

  /**
   * What the scan promises: no hit exactly when no word matches; otherwise the
   * hit is the cleaned form of the first matching word, with the channel map's
   * URL whenever the channel map has that name.
   */
  lemma {:induction false} FirstHitMeaning(ws: seq<string>, chat: map<string, string>, global: map<string, string>)
    ensures FirstHit(ws, chat, global).None? <==> forall i :: 0 <= i < |ws| ==> !Matches(ws[i], chat, global)
    ensures FirstHit(ws, chat, global).Some? ==>
      exists i :: 0 <= i < |ws| && Matches(ws[i], chat, global)
        && (forall j :: 0 <= j < i ==> !Matches(ws[j], chat, global))
        && FirstHit(ws, chat, global).value.name == Clean(ws[i])
    ensures FirstHit(ws, chat, global).Some? ==>
      var h := FirstHit(ws, chat, global).value;
      (h.name in chat && h.url == chat[h.name]) || (h.name !in chat && h.name in global && h.url == global[h.name])
  {
    if ws != [] {
      FirstHitMeaning(ws[1..], chat, global);
      if !Matches(ws[0], chat, global) {
        if FirstHit(ws, chat, global).Some? {
          var i :| 0 <= i < |ws[1..]| && Matches(ws[1..][i], chat, global)
            && (forall j :: 0 <= j < i ==> !Matches(ws[1..][j], chat, global))
            && FirstHit(ws[1..], chat, global).value.name == Clean(ws[1..][i]);
          assert Matches(ws[i + 1], chat, global);
        }
        if forall i :: 0 <= i < |ws[1..]| ==> !Matches(ws[1..][i], chat, global) {
          forall i | 0 <= i < |ws| ensures !Matches(ws[i], chat, global) {
            if i > 0 { assert ws[i] == ws[1..][i - 1]; }
          }
        }
      }
    }
  }

  /**
   * The `for (const word of words)` loop with its early `return`: returns the
   * emote to show, if any.
   */
  method ScanMessage(message: string, chat: map<string, string>, global: map<string, string>) returns (hit: Option<Hit>)
    ensures hit == FirstHit(Words(message), chat, global)
  {
    var words := Words(message);
    var i := 0;
    while i < |words|
      invariant 0 <= i <= |words|
      invariant FirstHit(words, chat, global) == FirstHit(words[i..], chat, global)
    {
      var clean := Clean(words[i]);
      if clean in chat {
        return Some(Hit(clean, chat[clean]));
      }
      if clean in global {
        return Some(Hit(clean, global[clean]));
      }
      assert words[i..][1..] == words[i + 1..];
      i := i + 1;
    }
    hit := None;
  }
}
