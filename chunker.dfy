/** The story's sentence chunker,
      story.split(/(?<=\.)\s+/).map((s) => s.trim()).filter(Boolean)
    which the result page uses for its paragraphs and the chunked playback
    strategy for the pieces it sends to the speech endpoint one at a time. */
module Chunker {
  import opened Js

  /** Position k of s is where the regular expression matches: the character
      before it is a '.', and a run of white space starts at k. */
  predicate IsBreak(s: string, k: int) {
    0 < k < |s| && s[k - 1] == '.' && IsSpace(s[k])
  }

  /** No '.' in s is immediately followed by white space. */
  predicate NoBreak(s: string) {
    forall k :: 0 < k < |s| ==> !IsBreak(s, k)
  }

  predicate EndsWithPeriod(s: string) {
    s != [] && s[|s| - 1] == '.'
  }

  /** The first break at or after i, or |s| when there is none. */
  function NextBreak(s: string, i: nat): (k: nat)
    requires i <= |s|
    ensures i <= k <= |s|
    ensures k < |s| ==> IsBreak(s, k)
    ensures forall j :: i <= j < k ==> !IsBreak(s, j)
    decreases |s| - i
  {
    if i == |s| then |s|
    else if IsBreak(s, i) then i
    else NextBreak(s, i + 1)
  }

  /** NextBreak finds the first break. */
  lemma {:induction false} NextBreakAt(s: string, i: nat, k: nat)
    requires i <= k <= |s|
    requires forall j :: i <= j < k ==> !IsBreak(s, j)
    requires k < |s| ==> IsBreak(s, k)
    ensures NextBreak(s, i) == k
    decreases k - i
  {
    if i < k {
      NextBreakAt(s, i + 1, k);
    }
  }

  /** One piece of the split, with the white space the match consumed after it
      ("" after the last piece). */
  datatype Piece = Piece(text: string, sep: string)

  function Join(ps: seq<Piece>): string {
    if ps == [] then "" else ps[0].text + ps[0].sep + Join(ps[1..])
  }

  /** The first piece of s when s has a break at k and its white space runs
      to e: free of breaks, ending in '.', cut off by a non-empty run of white
      space. */
  lemma HeadShape(s: string, k: nat, e: nat)
    requires k < |s| && k == NextBreak(s, 0) && e == SkipSpace(s, k)
    ensures NoBreak(s[..k]) && EndsWithPeriod(s[..k])
    ensures s[k..e] != "" && AllSpace(s[k..e])
  {
    forall j | 0 < j < k ensures !IsBreak(s[..k], j) {
      assert !IsBreak(s, j);
    }
    assert s[..k][k - 1] == s[k - 1];
    assert IsSpace(s[k]);
    forall j | 0 <= j < e - k ensures IsSpace(s[k..e][j]) { assert s[k..e][j] == s[k + j]; }
  }

  /** `s.split(/(?<=\.)\s+/)`: the text up to the first break, the run of
      white space there, and the split of what follows. */
  function Split(s: string): (ps: seq<Piece>)
    ensures |ps| > 0
    decreases |s|
  {
    var k := NextBreak(s, 0);
    if k == |s| then [Piece(s, "")]
    else
      var e := SkipSpace(s, k);
      assert IsSpace(s[k]);
      [Piece(s[..k], s[k..e])] + Split(s[e..])
  }

  /** Putting the separators back gives s again. */
  lemma {:induction false} SplitJoins(s: string)
    ensures Join(Split(s)) == s
    decreases |s|
  {
    var k := NextBreak(s, 0);
    if k < |s| {
      var e := SkipSpace(s, k);
      var ps := Split(s);
      SplitJoins(s[e..]);
      assert ps[1..] == Split(s[e..]);
      assert s[..k] + s[k..e] + s[e..] == s;
    }
  }

  /** No piece holds a '.' followed by white space; every piece but the last
      ends in '.' and was cut off by a non-empty run of white space; the last
      has nothing after it. */
  predicate WellCut(ps: seq<Piece>) {
    |ps| > 0 &&
    (forall i :: 0 <= i < |ps| ==> NoBreak(ps[i].text)) &&
    (forall i :: 0 <= i < |ps| - 1 ==>
       EndsWithPeriod(ps[i].text) && ps[i].sep != "" && AllSpace(ps[i].sep)) &&
    ps[|ps| - 1].sep == ""
  }

  /** A sentence cut off by white space, put in front of well-cut pieces. */
  lemma WellCutCons(p: Piece, rest: seq<Piece>)
    requires NoBreak(p.text) && EndsWithPeriod(p.text) && p.sep != "" && AllSpace(p.sep)
    requires WellCut(rest)
    ensures WellCut([p] + rest)
  {
    var ps := [p] + rest;
    assert forall i :: 1 <= i < |ps| ==> ps[i] == rest[i - 1];
  }

  /** Split cuts every story well. */
  lemma {:induction false} SplitPieces(s: string)
    ensures WellCut(Split(s))
    decreases |s|
  {
    var k := NextBreak(s, 0);
    if k == |s| {
      assert NoBreak(s);
    } else {
      var e := SkipSpace(s, k);
      HeadShape(s, k, e);
      SplitPieces(s[e..]);
      WellCutCons(Piece(s[..k], s[k..e]), Split(s[e..]));
    }
  }

  /** The first piece starts where the story starts. */
  lemma SplitHead(s: string)
    ensures Split(s)[0].text == "" || (s != "" && Split(s)[0].text[0] == s[0])
  {
  }

  /** The match is greedy: it takes the whole run of white space, so no piece
      after the first starts with white space. */
  lemma {:induction false} SplitGreedy(s: string)
    ensures forall i :: 0 < i < |Split(s)| ==> Split(s)[i].text == "" || !IsSpace(Split(s)[i].text[0])
    decreases |s|
  {
    var k := NextBreak(s, 0);
    if k < |s| {
      var e := SkipSpace(s, k);
      var ps := Split(s);
      assert IsSpace(s[k]);
      SplitGreedy(s[e..]);
      SplitHead(s[e..]);
      assert forall i :: 1 <= i < |ps| ==> ps[i] == Split(s[e..])[i - 1];
    }
  }

  function TrimTexts(ps: seq<Piece>): (r: seq<string>)
    ensures |r| == |ps|
    ensures forall i :: 0 <= i < |ps| ==> r[i] == Trim(ps[i].text)
  {
    if ps == [] then [] else [Trim(ps[0].text)] + TrimTexts(ps[1..])
  }

  /** `filter(Boolean)` on strings: the non-empty ones, in order. */
  function NonEmpty(xs: seq<string>): (r: seq<string>)
    ensures |r| <= |xs|
    ensures forall i :: 0 <= i < |r| ==> r[i] != "" && r[i] in xs
    ensures forall x :: x in xs && x != "" ==> x in r
  {
    if xs == [] then []
    else if xs[0] == "" then NonEmpty(xs[1..])
    else [xs[0]] + NonEmpty(xs[1..])
  }

  /** Filtering keeps the order: filtering two lists one after the other is
      filtering their concatenation. */
  lemma {:induction false} NonEmptyAppend(xs: seq<string>, ys: seq<string>)
    ensures NonEmpty(xs + ys) == NonEmpty(xs) + NonEmpty(ys)
    decreases |xs|
  {
    if xs != [] {
      assert (xs + ys)[1..] == xs[1..] + ys;
      NonEmptyAppend(xs[1..], ys);
    } else {
      assert xs + ys == ys;
    }
  }

  /** The chunks of a story. */
  function Chunks(s: string): seq<string> {
    NonEmpty(TrimTexts(Split(s)))
  }

  /** Cutting the blank ends off a piece keeps it free of breaks. */
  lemma TrimKeepsNoBreak(t: string)
    requires NoBreak(t)
    ensures NoBreak(Trim(t))
  {
    var a := SkipSpace(t, 0);
    var r := Trim(t);
    forall k | 0 < k < |r| ensures !IsBreak(r, k) {
      assert r[k - 1] == t[a + k - 1] && r[k] == t[a + k];
      assert !IsBreak(t, a + k);
    }
  }

  /** A piece ending in '.' still ends in '.' once trimmed. */
  lemma TrimKeepsPeriod(t: string)
    requires EndsWithPeriod(t)
    ensures EndsWithPeriod(Trim(t))
  {
    var a := SkipSpace(t, 0);
    assert a < |t| by { assert !IsSpace(t[|t| - 1]); }
    assert SkipSpaceBack(t, a, |t|) == |t|;
  }

  lemma {:induction false} NonEmptyKeepsPeriods(xs: seq<string>)
    requires forall i :: 0 <= i < |xs| - 1 ==> EndsWithPeriod(xs[i])
    ensures forall i :: 0 <= i < |NonEmpty(xs)| - 1 ==> EndsWithPeriod(NonEmpty(xs)[i])
    decreases |xs|
  {
    if xs != [] {
      NonEmptyKeepsPeriods(xs[1..]);
      if xs[0] != "" && NonEmpty(xs[1..]) != [] {
        assert |xs| > 1 by { assert NonEmpty(xs[1..])[0] in xs[1..]; }
        assert EndsWithPeriod(xs[0]);
      }
    }
  }

  /** What every chunk looks like: non-empty, no white space at either end, no
      '.' followed by white space inside, and all but the last end in '.'. */
  lemma ChunkShape(s: string)
    ensures forall i :: 0 <= i < |Chunks(s)| ==>
              Chunks(s)[i] != "" && Trimmed(Chunks(s)[i]) && NoBreak(Chunks(s)[i])
    ensures forall i :: 0 <= i < |Chunks(s)| - 1 ==> EndsWithPeriod(Chunks(s)[i])
  {
    SplitPieces(s);
    var ps := Split(s);
    var ts := TrimTexts(ps);
    forall i | 0 <= i < |ts| ensures Trimmed(ts[i]) && NoBreak(ts[i]) {
      TrimKeepsNoBreak(ps[i].text);
    }
    forall i | 0 <= i < |ts| - 1 ensures EndsWithPeriod(ts[i]) {
      TrimKeepsPeriod(ps[i].text);
    }
    NonEmptyKeepsPeriods(ts);
    var cs := NonEmpty(ts);
    forall i | 0 <= i < |cs| ensures Trimmed(cs[i]) && NoBreak(cs[i]) {
      assert cs[i] in ts;
    }
  }

  /** The chunks of a story with one sentence: that sentence. */
  lemma OneSentence(a: string)
    requires a != "" && Trimmed(a) && NoBreak(a)
    ensures Chunks(a) == [a]
  {
    assert NextBreak(a, 0) == |a|;
    TrimOfTrimmed(a);
  }

  /** A sentence a, a run of white space w and the rest b of the story: the
      chunks are a followed by the chunks of b, so chunking keeps source order. */
  lemma {:induction false} SentenceThenRest(a: string, w: string, b: string)
    requires a != "" && Trimmed(a) && NoBreak(a) && EndsWithPeriod(a)
    requires w != "" && AllSpace(w)
    requires b != "" ==> !IsSpace(b[0])
    ensures Chunks(a + w + b) == [a] + Chunks(b)
  {
    var s := a + w + b;
    assert IsBreak(s, |a|) by { assert s[|a| - 1] == a[|a| - 1] && s[|a|] == w[0]; }
    forall j | 0 <= j < |a| ensures !IsBreak(s, j) {
      if 0 < j { assert s[j - 1] == a[j - 1] && s[j] == a[j] && !IsBreak(a, j); }
    }
    NextBreakAt(s, 0, |a|);
    var k := NextBreak(s, 0);
    forall j | |a| <= j < |a| + |w| ensures IsSpace(s[j]) { assert s[j] == w[j - |a|]; }
    assert |a| + |w| < |s| ==> s[|a| + |w|] == b[0];
    SkipSpaceAt(s, k, |a| + |w|);
    var e := SkipSpace(s, k);
    assert s[..k] == a && s[k..e] == w && s[e..] == b;
    assert Split(s) == [Piece(a, w)] + Split(b);
    TrimOfTrimmed(a);
    assert TrimTexts([Piece(a, w)] + Split(b)) == [a] + TrimTexts(Split(b)) by {
      assert ([Piece(a, w)] + Split(b))[1..] == Split(b);
    }
    assert ([a] + TrimTexts(Split(b)))[1..] == TrimTexts(Split(b));
  }

  /** Sentences joined with single spaces, as the result page shows them. */
  function JoinSentences(cs: seq<string>): string {
    if cs == [] then "" else if |cs| == 1 then cs[0] else cs[0] + " " + JoinSentences(cs[1..])
  }

  lemma {:induction false} JoinSentencesStart(cs: seq<string>)
    requires cs != [] && cs[0] != ""
    ensures JoinSentences(cs) != "" && JoinSentences(cs)[0] == cs[0][0]
  {
  }

  /** Round trip: any list of well-formed chunks (what ChunkShape promises of
      Chunks), joined with spaces, chunks back into the same list. */
  lemma {:induction false} ChunksOfJoin(cs: seq<string>)
    requires forall c :: c in cs ==> c != "" && Trimmed(c) && NoBreak(c)
    requires forall i :: 0 <= i < |cs| - 1 ==> EndsWithPeriod(cs[i])
    ensures Chunks(JoinSentences(cs)) == cs
    decreases |cs|
  {
    if cs == [] {
      assert Split("") == [Piece("", "")];
    } else if |cs| == 1 {
      assert cs[0] in cs;
      OneSentence(cs[0]);
    } else {
      var rest := cs[1..];
      var j := JoinSentences(rest);
      assert rest[0] in cs;
      JoinSentencesStart(rest);
      assert AllSpace(" ");
      SentenceThenRest(cs[0], " ", j);
      assert forall c :: c in rest ==> c in cs;
      ChunksOfJoin(rest);
      calc {
        Chunks(JoinSentences(cs));
        Chunks(cs[0] + " " + j);
        [cs[0]] + Chunks(j);
        [cs[0]] + rest;
        cs;
      }
    }
  }
}
