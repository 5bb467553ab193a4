/** The multi-split shuffle of probability.js and its trial counter.

    A shuffle cuts the deck into `splitCount` chunks from the front, weaves the
    chunks round-robin and finishes with a cut (a left rotation). The random
    cut point is a parameter here; the trial counter receives one cut point per
    shuffle per trial. */
module Shuffle {

  /** Number of cards in the canonical deck `1..99`. */
  const CardCount := 99

  // ---------------------------------------------------------------------------
  // Chunks

  /** The chunks read back to back. */
  function Concat(cs: seq<seq<int>>): seq<int> {
    if cs == [] then [] else Concat(cs[..|cs| - 1]) + cs[|cs| - 1]
  }

  lemma {:induction false} ConcatCons(c: seq<int>, cs: seq<seq<int>>)
    ensures Concat([c] + cs) == c + Concat(cs)
  {
    if cs != [] {
      var all := [c] + cs;
      assert all[..|all| - 1] == [c] + cs[..|cs| - 1];
      ConcatCons(c, cs[..|cs| - 1]);
    } else {
      assert ([c] + cs)[..0] == [];
    }
  }

  /** The split of lines 3-9: while at least two chunks remain to be made, the
      next one takes `floor(remaining / chunksLeft)` cards from the front; the
      last chunk is whatever is left. With `m <= 1` the loop does not run and
      the single chunk is the whole deck. */
  function Chunks(d: seq<int>, m: int): seq<seq<int>>
    decreases m
  {
    if m <= 1 then [d] else [d[..|d| / m]] + Chunks(d[|d| / m..], m - 1)
  }

  lemma {:induction false} ChunksCount(d: seq<int>, m: int)
    ensures |Chunks(d, m)| == if m <= 1 then 1 else m
    decreases m
  {
    if m > 1 {
      ChunksCount(d[|d| / m..], m - 1);
    }
  }

  /** No card is lost, duplicated or moved by the split. */
  lemma {:induction false} ChunksConcat(d: seq<int>, m: int)
    ensures Concat(Chunks(d, m)) == d
    decreases m
  {
    if m <= 1 {
      assert Concat([d]) == Concat([]) + d;
    } else {
      var q := |d| / m;
      ChunksConcat(d[q..], m - 1);
      ConcatCons(d[..q], Chunks(d[q..], m - 1));
      assert d[..q] + d[q..] == d;
    }
  }

  /** Chunk `i` of the first `m - 1` holds `floor(rem / (m - i))` cards, where
      `rem` is the number of cards in it and the chunks after it. */
  lemma {:induction false} ChunkSizes(d: seq<int>, m: int, i: int)
    requires 0 <= i < m - 1
    ensures |Chunks(d, m)| == m
    ensures |Chunks(d, m)[i]| == |Concat(Chunks(d, m)[i..])| / (m - i)
    decreases m
  {
    ChunksCount(d, m);
    var q := |d| / m;
    var rest := Chunks(d[q..], m - 1);
    assert Chunks(d, m) == [d[..q]] + rest;
    if i == 0 {
      ChunksConcat(d, m);
      assert Chunks(d, m)[0..] == Chunks(d, m);
    } else {
      ChunkSizes(d[q..], m - 1, i - 1);
      assert Chunks(d, m)[i..] == rest[i - 1..];
    }
  }

  // ---------------------------------------------------------------------------
  // Weave

  /** The front card of a chunk, if it has one. */
  function Front(c: seq<int>): seq<int> {
    if c == [] then [] else [c[0]]
  }

  /** The chunk after `shift()`; an empty chunk stays empty. */
  function Behead(c: seq<int>): seq<int> {
    if c == [] then [] else c[1..]
  }

  /** The cards one pass of the inner `for` loop pushes: the front card of every
      non-empty chunk, in chunk order. */
  function Heads(cs: seq<seq<int>>): seq<int> {
    if cs == [] then [] else Heads(cs[..|cs| - 1]) + Front(cs[|cs| - 1])
  }

  /** The chunks after one pass of the inner loop. */
  function Tails(cs: seq<seq<int>>): seq<seq<int>> {
    if cs == [] then [] else Tails(cs[..|cs| - 1]) + [Behead(cs[|cs| - 1])]
  }

  lemma {:induction false} HeadsTailsSnoc(cs: seq<seq<int>>, c: seq<int>)
    ensures Heads(cs + [c]) == Heads(cs) + Front(c)
    ensures Tails(cs + [c]) == Tails(cs) + [Behead(c)]
    ensures Concat(cs + [c]) == Concat(cs) + c
  {
    assert (cs + [c])[..|cs|] == cs;
  }

  lemma {:induction false} FrontBehead(c: seq<int>)
    ensures Front(c) + Behead(c) == c
    ensures multiset(Front(c)) + multiset(Behead(c)) == multiset(c)
    ensures |Front(c)| + |Behead(c)| == |c|
  {
    if c != [] {
      assert c == Front(c) + Behead(c);
    }
  }

  /** One pass takes one card from every non-empty chunk, so it makes
      progress while any chunk has a card. */
  lemma {:induction false} PassMovesHeads(cs: seq<seq<int>>)
    ensures |Tails(cs)| == |cs|
    ensures |Heads(cs)| + |Concat(Tails(cs))| == |Concat(cs)|
    ensures |Concat(cs)| > 0 ==> |Heads(cs)| > 0
  {
    if cs != [] {
      var init, c := cs[..|cs| - 1], cs[|cs| - 1];
      assert cs == init + [c];
      PassMovesHeads(init);
      HeadsTailsSnoc(init, c);
      HeadsTailsSnoc(Tails(init), Behead(c));
      FrontBehead(c);
    }
  }

  /** The cards a pass takes and the cards it leaves are the cards of the
      chunks. */
  lemma {:induction false} PassKeepsCards(cs: seq<seq<int>>)
    ensures multiset(Heads(cs)) + multiset(Concat(Tails(cs))) == multiset(Concat(cs))
  {
    if cs != [] {
      var init, c := cs[..|cs| - 1], cs[|cs| - 1];
      assert cs == init + [c];
      PassKeepsCards(init);
      HeadsTailsSnoc(init, c);
      var ti := Tails(init);
      HeadsTailsSnoc(ti, Behead(c));
      FrontBehead(c);
      assert multiset(Heads(cs)) == multiset(Heads(init)) + multiset(Front(c));
      assert multiset(Concat(Tails(cs))) == multiset(Concat(ti)) + multiset(Behead(c));
    }
  }

  /** The weave of lines 12-19, as a reference definition: a round of heads,
      then the weave of what is left, until every chunk is empty. */
  function Weave(cs: seq<seq<int>>): seq<int>
    decreases |Concat(cs)|
  {
    if |Concat(cs)| == 0 then []
    else
      PassMovesHeads(cs);
      Heads(cs) + Weave(Tails(cs))
  }

  /** The woven sequence holds exactly the cards of the chunks. */
  lemma {:induction false} WeavePermutation(cs: seq<seq<int>>)
    ensures |Weave(cs)| == |Concat(cs)|
    ensures multiset(Weave(cs)) == multiset(Concat(cs))
    decreases |Concat(cs)|
  {
    if |Concat(cs)| > 0 {
      PassMovesHeads(cs);
      PassKeepsCards(cs);
      WeavePermutation(Tails(cs));
    }
  }

  /** `splits.some(chunk => chunk.length > 0)`. */
  function AnyCards(cs: seq<seq<int>>): (b: bool)
    ensures b <==> |Concat(cs)| > 0
  {
    if cs == [] then false
    else
      assert Concat(cs) == Concat(cs[..|cs| - 1]) + cs[|cs| - 1];
      cs[|cs| - 1] != [] || AnyCards(cs[..|cs| - 1])
  }

  /** A single chunk weaves to itself. */
  lemma {:induction false} WeaveSingle(c: seq<int>)
    ensures Weave([c]) == c
    decreases |c|
  {
    assert [c][..0] == [];
    assert Concat([c]) == c;
    if c != [] {
      assert Heads([c]) == [c[0]];
      assert Tails([c]) == [c[1..]];
      WeaveSingle(c[1..]);
    }
  }

  lemma AppendInit(a: seq<seq<int>>, b: seq<seq<int>>)
    requires b != []
    ensures (a + b)[..|a + b| - 1] == a + b[..|b| - 1]
    ensures (a + b)[|a + b| - 1] == b[|b| - 1]
  {
  }

  /** A pass over chunks laid side by side is the two passes side by side. */
  lemma {:induction false} HeadsAppend(a: seq<seq<int>>, b: seq<seq<int>>)
    ensures Heads(a + b) == Heads(a) + Heads(b)
    decreases |b|
  {
    if b == [] {
      assert a + b == a;
    } else {
      var init, c := b[..|b| - 1], b[|b| - 1];
      HeadsAppend(a, init);
      assert Heads(a + b) == Heads(a + init) + Front(c) by {
        AppendInit(a, b);
      }
      assert Heads(b) == Heads(init) + Front(c);
    }
  }

  lemma {:induction false} TailsAppend(a: seq<seq<int>>, b: seq<seq<int>>)
    ensures Tails(a + b) == Tails(a) + Tails(b)
    decreases |b|
  {
    if b == [] {
      assert a + b == a;
    } else {
      var init, c := b[..|b| - 1], b[|b| - 1];
      TailsAppend(a, init);
      assert Tails(a + b) == Tails(a + init) + [Behead(c)] by {
        AppendInit(a, b);
      }
      assert Tails(b) == Tails(init) + [Behead(c)];
    }
  }

  lemma {:induction false} ConcatAppend(a: seq<seq<int>>, b: seq<seq<int>>)
    ensures Concat(a + b) == Concat(a) + Concat(b)
    decreases |b|
  {
    if b == [] {
      assert a + b == a;
    } else {
      var init, c := b[..|b| - 1], b[|b| - 1];
      ConcatAppend(a, init);
      assert Concat(a + b) == Concat(a + init) + c by {
        AppendInit(a, b);
      }
      assert Concat(b) == Concat(init) + c;
    }
  }

  lemma EmptyPass()
    ensures Heads([[]]) == [] && Tails([[]]) == [[]] && Concat([[]]) == []
  {
    var none: seq<seq<int>> := [];
    HeadsTailsSnoc(none, []);
    assert none + [[]] == [[]];
  }

  /** A pass takes no card from an inserted empty chunk. */
  lemma HeadsSkipEmpty(a: seq<seq<int>>, b: seq<seq<int>>)
    ensures Heads(a + [[]] + b) == Heads(a + b)
  {
    EmptyPass();
    HeadsAppend(a + [[]], b);
    HeadsAppend(a, [[]]);
    HeadsAppend(a, b);
  }

  /** An inserted empty chunk adds no card. */
  lemma ConcatSkipsEmpty(a: seq<seq<int>>, b: seq<seq<int>>)
    ensures Concat(a + [[]] + b) == Concat(a + b)
  {
    EmptyPass();
    ConcatAppend(a + [[]], b);
    ConcatAppend(a, [[]]);
    ConcatAppend(a, b);
  }

  /** After a pass the inserted empty chunk is still empty and in its place. */
  lemma TailsSkipEmpty(a: seq<seq<int>>, b: seq<seq<int>>)
    ensures Tails(a + [[]] + b) == Tails(a) + [[]] + Tails(b)
    ensures Tails(a + b) == Tails(a) + Tails(b)
  {
    EmptyPass();
    TailsAppend(a + [[]], b);
    TailsAppend(a, [[]]);
    TailsAppend(a, b);
  }

  /** An empty chunk anywhere among the chunks is skipped in every round:
      the weave is the same without it. */
  lemma {:induction false} WeaveSkipsEmpty(a: seq<seq<int>>, b: seq<seq<int>>)
    ensures Weave(a + [[]] + b) == Weave(a + b)
    decreases |Concat(a + b)|
  {
    ConcatSkipsEmpty(a, b);
    if |Concat(a + b)| > 0 {
      HeadsSkipEmpty(a, b);
      TailsSkipEmpty(a, b);
      PassMovesHeads(a + b);
      WeaveSkipsEmpty(Tails(a), Tails(b));
    }
  }

  /** An empty first chunk is skipped in every round. */
  lemma WeaveEmptyThen(b: seq<int>)
    ensures Weave([[], b]) == b
  {
    var none: seq<seq<int>> := [];
    WeaveSkipsEmpty(none, [b]);
    assert none + [[]] + [b] == [[], b];
    assert none + [b] == [b];
    WeaveSingle(b);
  }

  /** The chunk each card of one pass comes from, in the order of `Heads`. */
  function Lanes(cs: seq<seq<int>>): (o: seq<nat>)
    ensures |o| == |Heads(cs)|
    ensures forall k :: 0 <= k < |o| ==> o[k] < |cs|
  {
    if cs == [] then []
    else Lanes(cs[..|cs| - 1]) + (if cs[|cs| - 1] == [] then [] else [|cs| - 1])
  }

  /** The chunk each card of the weave comes from. */
  function Origins(cs: seq<seq<int>>): (o: seq<nat>)
    ensures |o| == |Weave(cs)|
    ensures forall k :: 0 <= k < |o| ==> o[k] < |cs|
    decreases |Concat(cs)|
  {
    if |Concat(cs)| == 0 then []
    else
      PassMovesHeads(cs);
      Lanes(cs) + Origins(Tails(cs))
  }

  /** The cards of `w` at the positions where `o` names chunk `c`, in order. */
  function Pick(w: seq<int>, o: seq<nat>, c: nat): seq<int>
    requires |w| == |o|
  {
    if w == [] then []
    else Pick(w[..|w| - 1], o[..|o| - 1], c) + (if o[|o| - 1] == c then [w[|w| - 1]] else [])
  }

  lemma {:induction false} PickAppend(w1: seq<int>, o1: seq<nat>, w2: seq<int>, o2: seq<nat>, c: nat)
    requires |w1| == |o1| && |w2| == |o2|
    ensures Pick(w1 + w2, o1 + o2, c) == Pick(w1, o1, c) + Pick(w2, o2, c)
    decreases |w2|
  {
    if w2 == [] {
      assert w1 + w2 == w1 && o1 + o2 == o1;
    } else {
      var n := |w2| - 1;
      assert (w1 + w2)[..|w1 + w2| - 1] == w1 + w2[..n];
      assert (o1 + o2)[..|o1 + o2| - 1] == o1 + o2[..n];
      PickAppend(w1, o1, w2[..n], o2[..n], c);
    }
  }

  lemma PickOne(x: int, o: nat, c: nat)
    ensures Pick([x], [o], c) == if o == c then [x] else []
  {
    assert [x][..0] == [] && [o][..0] == [];
  }

  /** Of one pass, chunk `c` gives its front card and no other chunk gives
      anything to `c`. */
  lemma {:induction false} PickHeads(cs: seq<seq<int>>, c: nat)
    ensures Pick(Heads(cs), Lanes(cs), c) == if c < |cs| then Front(cs[c]) else []
  {
    if cs != [] {
      var init, last := cs[..|cs| - 1], cs[|cs| - 1];
      var mine: seq<nat> := if last == [] then [] else [|cs| - 1];
      assert Heads(cs) == Heads(init) + Front(last);
      assert Lanes(cs) == Lanes(init) + mine;
      PickHeads(init, c);
      PickAppend(Heads(init), Lanes(init), Front(last), mine, c);
      assert Pick(Front(last), mine, c) == if c == |cs| - 1 then Front(last) else [] by {
        if last != [] {
          PickOne(last[0], |cs| - 1, c);
        }
      }
      if c < |cs| - 1 {
        assert init[c] == cs[c];
      }
    }
  }

  /** After a pass chunk `c` has lost its front card. */
  lemma {:induction false} TailsAt(cs: seq<seq<int>>, c: nat)
    requires c < |cs|
    ensures |Tails(cs)| == |cs| && Tails(cs)[c] == Behead(cs[c])
  {
    var init, last := cs[..|cs| - 1], cs[|cs| - 1];
    assert cs == init + [last];
    HeadsTailsSnoc(init, last);
    PassMovesHeads(init);
    if c < |cs| - 1 {
      TailsAt(init, c);
    }
  }

  /** Each chunk keeps its own order in the weave: the cards that came from
      chunk `c` are, in order, exactly the cards of `cs[c]`. */
  lemma {:induction false} WeaveKeepsChunkOrder(cs: seq<seq<int>>, c: nat)
    requires c < |cs|
    ensures Pick(Weave(cs), Origins(cs), c) == cs[c]
    decreases |Concat(cs)|
  {
    if |Concat(cs)| == 0 {
      ChunkInConcat(cs, c);
    } else {
      var ts := Tails(cs);
      PassMovesHeads(cs);
      assert Pick(Weave(cs), Origins(cs), c)
          == Pick(Heads(cs), Lanes(cs), c) + Pick(Weave(ts), Origins(ts), c) by {
        assert Weave(cs) == Heads(cs) + Weave(ts);
        assert Origins(cs) == Lanes(cs) + Origins(ts);
        PickAppend(Heads(cs), Lanes(cs), Weave(ts), Origins(ts), c);
      }
      PickHeads(cs, c);
      TailsAt(cs, c);
      WeaveKeepsChunkOrder(ts, c);
      FrontBehead(cs[c]);
    }
  }

  lemma {:induction false} ChunkInConcat(cs: seq<seq<int>>, c: nat)
    requires c < |cs|
    ensures |cs[c]| <= |Concat(cs)|
  {
    var init := cs[..|cs| - 1];
    assert cs == init + [cs[|cs| - 1]];
    HeadsTailsSnoc(init, cs[|cs| - 1]);
    if c < |cs| - 1 {
      ChunkInConcat(init, c);
    }
  }

  /** One round over two chunks when the first one still has a card. */
  lemma WeaveTwoRound(a: seq<int>, b: seq<int>)
    requires a != [] && b != []
    ensures Weave([a, b]) == [a[0], b[0]] + Weave([a[1..], b[1..]])
  {
    var cs := [a, b];
    var none: seq<seq<int>> := [];
    HeadsTailsSnoc(none, a);
    assert none + [a] == [a];
    HeadsTailsSnoc([a], b);
    assert [a] + [b] == cs;
    assert Heads(cs) == [a[0]] + [b[0]];
    assert Tails(cs) == [a[1..]] + [b[1..]] == [a[1..], b[1..]];
    assert Concat(cs) == a + b;
  }

  /** `w` is the riffle of `a` and `b`: `a0 b0 a1 b1 ...`, then the cards of
      `b` that have no partner in `a`. */
  predicate Riffled(a: seq<int>, b: seq<int>, w: seq<int>)
    requires |a| <= |b|
  {
    |w| == |a| + |b|
    && (forall i :: 0 <= i < |a| ==> w[2 * i] == a[i] && w[2 * i + 1] == b[i])
    && (forall j :: |a| <= j < |b| ==> w[|a| + j] == b[j])
  }

  lemma RiffleStep(a: seq<int>, b: seq<int>, w: seq<int>)
    requires a != [] && |a| <= |b| && Riffled(a[1..], b[1..], w)
    ensures Riffled(a, b, [a[0], b[0]] + w)
  {
    var v := [a[0], b[0]] + w;
    forall i | 1 <= i < |a|
      ensures v[2 * i] == a[i] && v[2 * i + 1] == b[i]
    {
      assert v[2 * i] == w[2 * (i - 1)];
      assert v[2 * i + 1] == w[2 * (i - 1) + 1];
    }
    forall j | |a| <= j < |b|
      ensures v[|a| + j] == b[j]
    {
      assert v[|a| + j] == w[(|a| - 1) + (j - 1)];
    }
  }

  /** The weave of two chunks with `|a| <= |b|` (the only shapes the split
      gives for `splitCount == 2`) is their riffle. */
  lemma {:induction false} TwoWayWeave(a: seq<int>, b: seq<int>)
    requires |a| <= |b|
    ensures Riffled(a, b, Weave([a, b]))
    decreases |a|
  {
    if a == [] {
      WeaveEmptyThen(b);
      assert [a, b] == [[], b];
    } else {
      WeaveTwoRound(a, b);
      TwoWayWeave(a[1..], b[1..]);
      RiffleStep(a, b, Weave([a[1..], b[1..]]));
    }
  }

  /** The deck `1..10` split in two weaves to `1 6 2 7 3 8 4 9 5 10`. */
  lemma WeaveTenCardsInTwo()
    ensures Weave(Chunks(seq(10, i => i + 1), 2)) == [1, 6, 2, 7, 3, 8, 4, 9, 5, 10]
  {
    var a, b := [1, 2, 3, 4, 5], [6, 7, 8, 9, 10];
    TenCardsInTwoChunks();
    TwoWayWeave(a, b);
    var w := Weave([a, b]);
    assert Riffled(a, b, w);
    assert w[0] == a[0] && w[1] == b[0];
    assert w[2] == a[1] && w[3] == b[1];
    assert w[4] == a[2] && w[5] == b[2];
    assert w[6] == a[3] && w[7] == b[3];
    assert w[8] == a[4] && w[9] == b[4];
  }

  lemma TenCardsInTwoChunks()
    ensures Chunks(seq(10, i => i + 1), 2) == [[1, 2, 3, 4, 5], [6, 7, 8, 9, 10]]
  {
    var d := seq(10, i => i + 1);
    assert d[..5] == [1, 2, 3, 4, 5];
    assert d[5..] == [6, 7, 8, 9, 10];
    assert Chunks(d, 2) == [d[..5]] + Chunks(d[5..], 1);
  }

  // ---------------------------------------------------------------------------
  // Cut

  /** `s.slice(k).concat(s.slice(0, k))`: a left rotation by `k`. */
  function Cut(s: seq<int>, k: int): seq<int>
    requires 0 <= k <= |s|
  {
    s[k..] + s[..k]
  }

  /** The cut keeps the deck's cards. */
  lemma CutKeepsCards(s: seq<int>, k: int)
    requires 0 <= k <= |s|
    ensures |Cut(s, k)| == |s|
    ensures multiset(Cut(s, k)) == multiset(s)
  {
    assert s[..k] + s[k..] == s;
  }

  lemma CutRotates(s: seq<int>, k: int)
    requires 0 <= k <= |s|
    ensures |Cut(s, k)| == |s|
    ensures multiset(Cut(s, k)) == multiset(s)
    ensures forall i :: 0 <= i < |s| ==> Cut(s, k)[i] == if i + k < |s| then s[i + k] else s[i + k - |s|]
  {
    CutKeepsCards(s, k);
  }

  /** The cut points `floor(r * n / 2) + n / 4` can take for `r` in `[0, 1)`
      once `slice` has truncated them: `floor(n/4)` up to
      `floor(n/4) + ceil(n/2) - 1`, and only 0 for the empty deck. */
  predicate ValidCut(n: int, k: int) {
    if n <= 0 then k == 0 else n / 4 <= k <= n / 4 + (n + 1) / 2 - 1
  }

  lemma ValidCutInDeck(n: nat, k: int)
    requires ValidCut(n, k)
    ensures 0 <= k <= n
    ensures n > 0 ==> k < n
  {
  }

  // ---------------------------------------------------------------------------
  // The shuffle

  /** `shuffleDeckMultipleSplits(deck, splitCount)` with the cut point `k`. */
  function Shuffle(deck: seq<int>, splitCount: int, k: int): (r: seq<int>)
    requires ValidCut(|deck|, k)
    ensures |r| == |deck|
    ensures multiset(r) == multiset(deck)
  {
    var cs := Chunks(deck, splitCount);
    ChunksConcat(deck, splitCount);
    WeavePermutation(cs);
    CutKeepsCards(Weave(cs), k);
    Cut(Weave(cs), k)
  }

  /** With at most one split the weave does nothing and the shuffle is the cut. */
  lemma ShuffleSingleSplit(deck: seq<int>, splitCount: int, k: int)
    requires splitCount <= 1 && ValidCut(|deck|, k)
    ensures Shuffle(deck, splitCount, k) == Cut(deck, k)
  {
    WeaveSingle(deck);
  }

  lemma QuotientAtMost(a: nat, m: int)
    requires m > 1
    ensures 0 <= a / m <= a
  {
    var q := a / m;
    assert q * m <= a;
    assert q <= q * m;
  }

  /** Taking the next chunk off the front of what remains. */
  lemma ChunksStep(done: seq<seq<int>>, remaining: seq<int>, m: int)
    requires m > 1
    ensures var size := |remaining| / m;
            0 <= size <= |remaining|
            && done + Chunks(remaining, m) == (done + [remaining[..size]]) + Chunks(remaining[size..], m - 1)
  {
    var size := |remaining| / m;
    QuotientAtMost(|remaining|, m);
    var rest := Chunks(remaining[size..], m - 1);
    assert Chunks(remaining, m) == [remaining[..size]] + rest;
    assert done + ([remaining[..size]] + rest) == (done + [remaining[..size]]) + rest;
  }

  /** Lines 3-9: `splits` is pushed and `remainingDeck` spliced from the front. */
  method SplitDeck(deck: seq<int>, splitCount: int) returns (splits: seq<seq<int>>)
    ensures splits == Chunks(deck, splitCount)
  {
    splits := [];
    var remaining := deck;
    var i := 0;
    while i < splitCount - 1
      invariant 0 <= i && (splitCount >= 1 ==> i <= splitCount - 1)
      invariant splits + Chunks(remaining, splitCount - i) == Chunks(deck, splitCount)
    {
      var size := |remaining| / (splitCount - i);
      ChunksStep(splits, remaining, splitCount - i);
      splits := splits + [remaining[..size]];
      remaining := remaining[size..];
      i := i + 1;
    }
    assert Chunks(remaining, splitCount - i) == [remaining];
    splits := splits + [remaining];
  }

  /** One pass of the inner `for` loop of lines 14-18: the front card of
      every non-empty chunk is shifted off and pushed, in chunk order. */
  method WeavePass(chunks: seq<seq<int>>) returns (splits: seq<seq<int>>, taken: seq<int>)
    ensures splits == Tails(chunks)
    ensures taken == Heads(chunks)
  {
    splits, taken := chunks, [];
    var c := 0;
    while c < |splits|
      invariant 0 <= c <= |splits| == |chunks|
      invariant splits[..c] == Tails(chunks[..c])
      invariant splits[c..] == chunks[c..]
      invariant taken == Heads(chunks[..c])
    {
      ghost var front := chunks[..c];
      assert Tails(chunks[..c + 1]) == Tails(front) + [Behead(chunks[c])]
             && Heads(chunks[..c + 1]) == Heads(front) + Front(chunks[c]) by {
        assert chunks[..c + 1] == front + [chunks[c]];
        HeadsTailsSnoc(front, chunks[c]);
      }
      assert splits[c] == chunks[c];
      ghost var prev := splits;
      if |splits[c]| > 0 {
        taken := taken + [splits[c][0]];
        splits := splits[c := splits[c][1..]];
      }
      assert taken == Heads(front) + Front(chunks[c]);
      assert splits[c] == Behead(chunks[c]) && splits[..c] == prev[..c];
      assert splits[c + 1..] == prev[c + 1..];
      assert splits[..c + 1] == splits[..c] + [splits[c]];
      c := c + 1;
    }
    assert chunks[..c] == chunks && splits[..c] == splits;
  }

  /** Lines 12-19: while some chunk has a card, take the front card of every
      non-empty chunk in chunk order. */
  method WeaveChunks(chunks: seq<seq<int>>) returns (shuffled: seq<int>)
    ensures shuffled == Weave(chunks)
  {
    var splits := chunks;
    shuffled := [];
    while AnyCards(splits)
      invariant shuffled + Weave(splits) == Weave(chunks)
      decreases |Concat(splits)|
    {
      PassMovesHeads(splits);
      var taken;
      ghost var before := splits;
      splits, taken := WeavePass(splits);
      assert Weave(before) == taken + Weave(splits);
      shuffled := shuffled + taken;
    }
  }

  /** The whole of `shuffleDeckMultipleSplits`: the caller's deck is a value,
      so the work on `remaining` and the chunks never reaches it. */
  method ShuffleDeck(deck: seq<int>, splitCount: int, cutPoint: int) returns (shuffled: seq<int>)
    requires ValidCut(|deck|, cutPoint)
    ensures shuffled == Shuffle(deck, splitCount, cutPoint)
    ensures multiset(shuffled) == multiset(deck)
  {
    var splits := SplitDeck(deck, splitCount);
    var woven := WeaveChunks(splits);
    ChunksConcat(deck, splitCount);
    WeavePermutation(splits);
    shuffled := woven[cutPoint..] + woven[..cutPoint];
  }

  // ---------------------------------------------------------------------------
  // Trials

  /** `Array.from({ length: 99 }, (_, i) => i + 1)`. */
  function InitialDeck(): (d: seq<int>)
    ensures |d| == CardCount
  {
    seq(CardCount, i => i + 1)
  }

  lemma InitialDeckHolds(card: int)
    ensures card in InitialDeck() <==> 1 <= card <= CardCount
  {
    if 1 <= card <= CardCount {
      assert InitialDeck()[card - 1] == card;
    }
    if card in InitialDeck() {
      var i :| 0 <= i < CardCount && InitialDeck()[i] == card;
    }
  }

  /** The deck after the first `count` shuffles of one trial, `cuts[j]` being
      the cut point of shuffle `j`. */
  function ShuffleRepeated(deck: seq<int>, splitCount: int, cuts: seq<int>, count: int): (r: seq<int>)
    requires count <= |cuts|
    requires forall j :: 0 <= j < count ==> ValidCut(|deck|, cuts[j])
    ensures |r| == |deck|
    ensures multiset(r) == multiset(deck)
    decreases count
  {
    if count <= 0 then deck
    else Shuffle(ShuffleRepeated(deck, splitCount, cuts, count - 1), splitCount, cuts[count - 1])
  }

  /** `deck.slice(0, topX)`: a negative end counts from the back of the deck. */
  function TopCards(deck: seq<int>, topX: int): (top: seq<int>)
    ensures top <= deck
    ensures topX >= 0 ==> |top| == if topX <= |deck| then topX else |deck|
    ensures topX < 0 ==> |top| == if |deck| + topX >= 0 then |deck| + topX else 0
  {
    if topX >= 0 then deck[..if topX <= |deck| then topX else |deck|]
    else deck[..if |deck| + topX >= 0 then |deck| + topX else 0]
  }

  /** The cut-point oracle covers every shuffle of every trial, and every cut
      point is one the random cut could produce on a 99-card deck. */
  predicate ValidOracle(cuts: seq<seq<int>>, iterations: int, shuffleCount: int) {
    iterations <= |cuts| && forall i :: 0 <= i < iterations ==> ValidRow(cuts[i], shuffleCount)
  }

  /** The cut points of one trial. */
  predicate ValidRow(cuts: seq<int>, shuffleCount: int) {
    shuffleCount <= |cuts| && forall j :: 0 <= j < shuffleCount ==> ValidCut(CardCount, cuts[j])
  }

  lemma OracleRow(cuts: seq<seq<int>>, iterations: int, shuffleCount: int, i: int)
    requires ValidOracle(cuts, iterations, shuffleCount) && 0 <= i < iterations
    ensures ValidRow(cuts[i], shuffleCount)
  {
  }

  lemma OraclePrefix(cuts: seq<seq<int>>, iterations: int, n: int, shuffleCount: int)
    requires ValidOracle(cuts, iterations, shuffleCount) && n <= iterations
    ensures ValidOracle(cuts, n, shuffleCount)
  {
  }

  /** The deck at the end of one trial: `1..99` after `shuffleCount` shuffles. */
  function TrialDeck(splitCount: int, cuts: seq<int>, shuffleCount: int): (d: seq<int>)
    requires ValidRow(cuts, shuffleCount)
    ensures |d| == CardCount
    ensures multiset(d) == multiset(InitialDeck())
  {
    ShuffleRepeated(InitialDeck(), splitCount, cuts, shuffleCount)
  }

  /** Line 39: the target card is among the top `topX` cards after the trial's shuffles. */
  predicate TrialSucceeds(targetCard: int, topX: int, shuffleCount: int, splitCount: int, cuts: seq<int>)
    requires ValidRow(cuts, shuffleCount)
  {
    targetCard in TopCards(TrialDeck(splitCount, cuts, shuffleCount), topX)
  }

  /** The number of successful trials among the first `n`. */
  function Successes(targetCard: int, topX: int, shuffleCount: int, splitCount: int,
                     cuts: seq<seq<int>>, n: int): (count: nat)
    requires ValidOracle(cuts, n, shuffleCount)
    ensures count <= if n < 0 then 0 else n
    decreases n
  {
    if n <= 0 then 0
    else
      Successes(targetCard, topX, shuffleCount, splitCount, cuts, n - 1)
      + (if TrialSucceeds(targetCard, topX, shuffleCount, splitCount, cuts[n - 1]) then 1 else 0)
  }

  /** One trial, lines 31-41: a fresh copy of the canonical deck, `shuffleCount`
      shuffles with the cut points `cuts`, then the top-`topX` test. */
  method RunTrial(initialDeck: seq<int>, targetCard: int, topX: int, shuffleCount: int,
                  splitCount: int, cuts: seq<int>) returns (hit: bool)
    requires initialDeck == InitialDeck() && ValidRow(cuts, shuffleCount)
    ensures hit == TrialSucceeds(targetCard, topX, shuffleCount, splitCount, cuts)
  {
    var deck := initialDeck;
    var j := 0;
    while j < shuffleCount
      invariant 0 <= j && (j == 0 || j <= shuffleCount)
      invariant deck == ShuffleRepeated(initialDeck, splitCount, cuts, j)
    {
      deck := ShuffleDeck(deck, splitCount, cuts[j]);
      j := j + 1;
    }
    hit := targetCard in TopCards(deck, topX);
  }

  /** One pass of the trial loop: run trial `i` and add it to the tally of
      the trials before it. */
  method CountTrial(initialDeck: seq<int>, targetCard: int, topX: int, shuffleCount: int,
                    splitCount: int, cuts: seq<seq<int>>, i: int, successes: nat) returns (next: nat)
    requires initialDeck == InitialDeck()
    requires 0 <= i && ValidOracle(cuts, i + 1, shuffleCount)
    requires successes == Successes(targetCard, topX, shuffleCount, splitCount, cuts, i)
    ensures next == Successes(targetCard, topX, shuffleCount, splitCount, cuts, i + 1)
  {
    OracleRow(cuts, i + 1, shuffleCount, i);
    var hit := RunTrial(initialDeck, targetCard, topX, shuffleCount, splitCount, cuts[i]);
    next := if hit then successes + 1 else successes;
  }

  /** Lines 26-42 up to the success count; `cuts[i][j]` is the cut point of
      shuffle `j` in trial `i`. */
  method CountSuccesses(targetCard: int, topX: int, shuffleCount: int, splitCount: int,
                        iterations: int, cuts: seq<seq<int>>) returns (successes: nat)
    requires ValidOracle(cuts, iterations, shuffleCount)
    ensures successes == Successes(targetCard, topX, shuffleCount, splitCount, cuts, iterations)
  {
    successes := 0;
    var i := 0;
    while i < iterations
      invariant 0 <= i && (i == 0 || i <= iterations)
      invariant successes == Successes(targetCard, topX, shuffleCount, splitCount, cuts, i)
    {
      OraclePrefix(cuts, iterations, i + 1, shuffleCount);
      successes := CountTrial(InitialDeck(), targetCard, topX, shuffleCount, splitCount, cuts, i, successes);
      i := i + 1;
    }
  }

  /** How many of the top `topX` cards of a 99-card deck are looked at. */
  function TopBound(topX: int): (b: nat)
    ensures b <= CardCount
  {
    if topX >= 0 then (if topX <= CardCount then topX else CardCount)
    else if CardCount + topX >= 0 then CardCount + topX else 0
  }

  /** Without shuffles the deck is `1..99` and a trial succeeds exactly when
      the target is one of the first `TopBound(topX)` numbers. */
  lemma UnshuffledTrial(targetCard: int, topX: int, shuffleCount: int, splitCount: int, cuts: seq<int>)
    requires shuffleCount <= 0
    ensures TrialSucceeds(targetCard, topX, shuffleCount, splitCount, cuts)
            <==> 1 <= targetCard <= TopBound(topX)
  {
    var top := TopCards(InitialDeck(), topX);
    assert |top| == TopBound(topX);
    if 1 <= targetCard <= TopBound(topX) {
      assert top[targetCard - 1] == targetCard;
    }
  }

  /** Without shuffles the count is all or nothing, whatever the oracle. */
  lemma {:induction false} UnshuffledSuccesses(targetCard: int, topX: int, shuffleCount: int,
                                               splitCount: int, cuts: seq<seq<int>>, n: int)
    requires shuffleCount <= 0 && ValidOracle(cuts, n, shuffleCount)
    ensures Successes(targetCard, topX, shuffleCount, splitCount, cuts, n)
            == if n > 0 && 1 <= targetCard <= TopBound(topX) then n else 0
  {
    if n > 0 {
      UnshuffledSuccesses(targetCard, topX, shuffleCount, splitCount, cuts, n - 1);
      UnshuffledTrial(targetCard, topX, shuffleCount, splitCount, cuts[n - 1]);
    }
  }

  /** A single trial cannot find a card that is not in the deck. */
  lemma AbsentTargetMissesTrial(targetCard: int, topX: int, shuffleCount: int, splitCount: int, cuts: seq<int>)
    requires !(1 <= targetCard <= CardCount) && ValidRow(cuts, shuffleCount)
    ensures !TrialSucceeds(targetCard, topX, shuffleCount, splitCount, cuts)
  {
    var deck := TrialDeck(splitCount, cuts, shuffleCount);
    InitialDeckHolds(targetCard);
    assert targetCard !in multiset(deck);
    assert targetCard !in TopCards(deck, topX);
  }

  /** A card that is not in `1..99` is never found, since shuffles only permute. */
  lemma {:induction false} AbsentTargetNeverFound(targetCard: int, topX: int, shuffleCount: int,
                                                  splitCount: int, cuts: seq<seq<int>>, n: int)
    requires !(1 <= targetCard <= CardCount) && ValidOracle(cuts, n, shuffleCount)
    ensures Successes(targetCard, topX, shuffleCount, splitCount, cuts, n) == 0
  {
    if n > 0 {
      OraclePrefix(cuts, n, n - 1, shuffleCount);
      AbsentTargetNeverFound(targetCard, topX, shuffleCount, splitCount, cuts, n - 1);
      OracleRow(cuts, n, shuffleCount, n - 1);
      AbsentTargetMissesTrial(targetCard, topX, shuffleCount, splitCount, cuts[n - 1]);
    }
  }

  /** For non-negative `topX`, looking at more cards never loses a success. */
  lemma {:induction false} SuccessesMonotoneInTopX(targetCard: int, x: int, y: int, shuffleCount: int,
                                                   splitCount: int, cuts: seq<seq<int>>, n: int)
    requires 0 <= x <= y && ValidOracle(cuts, n, shuffleCount)
    ensures Successes(targetCard, x, shuffleCount, splitCount, cuts, n)
            <= Successes(targetCard, y, shuffleCount, splitCount, cuts, n)
  {
    if n > 0 {
      SuccessesMonotoneInTopX(targetCard, x, y, shuffleCount, splitCount, cuts, n - 1);
      OracleRow(cuts, n, shuffleCount, n - 1);
      var deck := TrialDeck(splitCount, cuts[n - 1], shuffleCount);
      assert TopCards(deck, x) <= TopCards(deck, y);
    }
  }

  /** Across zero the count is not monotone: `slice(0, -1)` keeps 98 cards
      while `slice(0, 0)` keeps none. */
  lemma NegativeTopXKeepsMore(cuts: seq<seq<int>>)
    requires ValidOracle(cuts, 1, 0)
    ensures Successes(1, -1, 0, 2, cuts, 1) == 1
    ensures Successes(1, 0, 0, 2, cuts, 1) == 0
  {
    UnshuffledSuccesses(1, -1, 0, 2, cuts, 1);
    UnshuffledSuccesses(1, 0, 0, 2, cuts, 1);
  }
}
