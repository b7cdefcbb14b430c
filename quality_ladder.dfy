/** The quality ladder of the video session (the pure part of
    `updateQualityLevels` in the video player hook): the engine's
    representations are mapped to levels, zero heights are dropped, the levels
    are sorted by height, highest first, one level is kept per height, a
    single fallback level is synthesised when nothing is left, and an "Auto"
    entry is put in front of a ladder with two or more real levels. */
module QualityLadder {
  import opened Common

  /** One representation (rendition) as the streaming engine reports it: its
      own `height` and the `RESOLUTION` height of its playlist attributes,
      either of which may be missing. */
  datatype Rep = Rep(height: Option<int>, resolutionHeight: Option<int>)

  datatype QualityLevel = QualityLevel(index: int, height: int, text: string)

  /** The synthetic entry that stands for the engine's own choice. */
  const AutoLevel := QualityLevel(-1, 0, "Auto")

  /** JavaScript's `height || attributes.RESOLUTION.height || 0`: the first
      of the two heights that is present and non-zero, otherwise 0. */
  function EffectiveHeight(r: Rep): (h: int)
    ensures h != 0 ==> (r.height.Some? && h == r.height.value) || (r.resolutionHeight.Some? && h == r.resolutionHeight.value)
    ensures r.height.Some? && r.height.value != 0 ==> h == r.height.value
  {
    if r.height.Some? && r.height.value != 0 then r.height.value
    else if r.resolutionHeight.Some? && r.resolutionHeight.value != 0 then r.resolutionHeight.value
    else 0
  }

  /** The template string `${height}p`. */
  function HeightLabel(h: int): string
  {
    (if h < 0 then "-" + NatToString(-h) else NatToString(h)) + "p"
  }

  /** The level built for the representation at position `i`. */
  function LevelOf(reps: seq<Rep>, i: nat): QualityLevel
    requires i < |reps|
  {
    var h := EffectiveHeight(reps[i]);
    QualityLevel(i, h, HeightLabel(h))
  }

  /** `representations.map((rep, index) => ...)`. */
  function MapLevels(reps: seq<Rep>): (m: seq<QualityLevel>)
    ensures |m| == |reps|
    ensures forall i :: 0 <= i < |reps| ==> m[i] == LevelOf(reps, i)
  {
    seq(|reps|, i requires 0 <= i < |reps| => LevelOf(reps, i))
  }

  /** Positions in `s` carry strictly increasing `index` values. */
  ghost predicate IncreasingIndices(s: seq<QualityLevel>)
  {
    forall i, j :: 0 <= i < j < |s| ==> s[i].index < s[j].index
  }

  /** `.filter(level => level.height > 0)`. */
  function FilterPositive(s: seq<QualityLevel>): (r: seq<QualityLevel>)
    ensures forall x :: x in r <==> x in s && x.height > 0
    ensures IncreasingIndices(s) ==> IncreasingIndices(r)
  {
    if s == [] then []
    else
      var rest := FilterPositive(s[1..]);
      assert forall x :: x in rest ==> x in s[1..];
      if s[0].height > 0 then [s[0]] + rest else rest
  }

  /** The order a stable sort by descending height leaves behind when its
      input has increasing indices: higher first, and among equal heights the
      earlier representation first. */
  predicate Before(a: QualityLevel, b: QualityLevel)
  {
    a.height > b.height || (a.height == b.height && a.index < b.index)
  }

  ghost predicate Ordered(s: seq<QualityLevel>)
  {
    forall i, j :: 0 <= i < j < |s| ==> Before(s[i], s[j])
  }

  /** Inserts `x` in front of the first element that is not higher than it. */
  function Insert(x: QualityLevel, s: seq<QualityLevel>): (r: seq<QualityLevel>)
    ensures multiset(r) == multiset(s) + multiset{x}
  {
    if s == [] then [x]
    else if s[0].height <= x.height then [x] + s
    else
      assert s == [s[0]] + s[1..];
      [s[0]] + Insert(x, s[1..])
  }

  /** Inserting a level whose index is below every index of an ordered
      sequence keeps it ordered: this is where stability is used. */
  lemma {:induction false} InsertOrdered(x: QualityLevel, s: seq<QualityLevel>)
    requires Ordered(s)
    requires forall k :: 0 <= k < |s| ==> x.index < s[k].index
    ensures Ordered(Insert(x, s))
  {
    if s != [] && s[0].height > x.height {
      InsertOrdered(x, s[1..]);
      var rest := Insert(x, s[1..]);
      forall y | y in rest ensures Before(s[0], y) {
        assert y in multiset(rest);
        if y != x {
          assert y in multiset(s[1..]);
          var k :| 0 <= k < |s[1..]| && s[1..][k] == y;
          assert Before(s[0], s[k + 1]);
        }
      }
      var r := [s[0]] + rest;
      forall i, j | 0 <= i < j < |r| ensures Before(r[i], r[j]) {
        if i > 0 {
          assert r[i] == rest[i - 1] && r[j] == rest[j - 1];
        } else {
          assert r[j] in rest;
        }
      }
    }
  }

  /** `.sort((a, b) => b.height - a.height)`. JavaScript's sort is stable, so
      equal heights keep the order in which they were found. */
  function SortDescending(s: seq<QualityLevel>): (r: seq<QualityLevel>)
    ensures multiset(r) == multiset(s)
  {
    if s == [] then []
    else
      assert s == [s[0]] + s[1..];
      Insert(s[0], SortDescending(s[1..]))
  }

  /** A stable sort of levels found in representation order leaves them
      ordered by height, highest first, and by position among equal heights. */
  lemma {:induction false} SortOrdered(s: seq<QualityLevel>)
    requires IncreasingIndices(s)
    ensures Ordered(SortDescending(s))
  {
    if s != [] {
      SortOrdered(s[1..]);
      var rest := SortDescending(s[1..]);
      forall k | 0 <= k < |rest| ensures s[0].index < rest[k].index {
        assert rest[k] in multiset(rest);
        var p :| 0 <= p < |s[1..]| && s[1..][p] == rest[k];
        assert s[0].index < s[p + 1].index;
      }
      InsertOrdered(s[0], rest);
    }
  }

  /** `self.findIndex(t => t.height === h)`. */
  function FindHeight(s: seq<QualityLevel>, h: int): (r: int)
    ensures -1 <= r < |s|
    ensures r >= 0 ==> s[r].height == h
    ensures forall k :: 0 <= k < |s| && (r == -1 || k < r) ==> s[k].height != h
  {
    if s == [] then -1
    else if s[0].height == h then 0
    else
      var k := FindHeight(s[1..], h);
      if k == -1 then -1 else k + 1
  }

  /** Some element of `s` has height `h`. */
  ghost predicate HasHeight(s: seq<QualityLevel>, h: int)
  {
    exists k :: 0 <= k < |s| && s[k].height == h
  }

  /** `levels.filter((level, index, self) => index === self.findIndex(...))`
      applied to the first `n` elements of `s`: an element is kept when it is
      the first of its height. */
  function DedupPrefix(s: seq<QualityLevel>, n: nat): (r: seq<QualityLevel>)
    requires n <= |s|
    ensures |r| <= n
    ensures forall x :: x in r ==> x in s[..n]
  {
    if n == 0 then []
    else if FindHeight(s, s[n - 1].height) == n - 1 then DedupPrefix(s, n - 1) + [s[n - 1]]
    else DedupPrefix(s, n - 1)
  }

  function Dedup(s: seq<QualityLevel>): (r: seq<QualityLevel>)
    ensures |r| <= |s|
    ensures forall x :: x in r ==> x in s
  {
    assert s[..|s|] == s;
    DedupPrefix(s, |s|)
  }

  /** Every kept element is the first element of `s[..n]` with its height. */
  lemma {:induction false} DedupKeepsFirsts(s: seq<QualityLevel>, n: nat)
    requires n <= |s|
    ensures forall k :: 0 <= k < |DedupPrefix(s, n)| ==>
      0 <= FindHeight(s, DedupPrefix(s, n)[k].height) < n
      && s[FindHeight(s, DedupPrefix(s, n)[k].height)] == DedupPrefix(s, n)[k]
  {
    if n > 0 {
      DedupKeepsFirsts(s, n - 1);
    }
  }

  /** Every height of `s[..n]` is kept. */
  lemma {:induction false} DedupComplete(s: seq<QualityLevel>, n: nat)
    requires n <= |s|
    ensures forall i :: 0 <= i < n ==> HasHeight(DedupPrefix(s, n), s[i].height)
  {
    if n > 0 {
      DedupComplete(s, n - 1);
      var prev := DedupPrefix(s, n - 1);
      var r := DedupPrefix(s, n);
      var je := FindHeight(s, s[n - 1].height);
      if je == n - 1 {
        assert r == prev + [s[n - 1]];
        forall i | 0 <= i < n ensures HasHeight(r, s[i].height) {
          if i < n - 1 {
            var k :| 0 <= k < |prev| && prev[k].height == s[i].height;
            assert r[k] == prev[k];
          } else {
            assert r[|r| - 1] == s[n - 1];
          }
        }
      } else {
        assert r == prev;
        assert HasHeight(prev, s[je].height);
      }
    }
  }

  /** Deduplicating an ordered sequence leaves heights strictly descending. */
  lemma {:induction false} DedupDescending(s: seq<QualityLevel>, n: nat)
    requires n <= |s|
    requires Ordered(s)
    ensures forall i, j :: 0 <= i < j < |DedupPrefix(s, n)| ==>
      DedupPrefix(s, n)[i].height > DedupPrefix(s, n)[j].height
  {
    if n > 0 {
      DedupDescending(s, n - 1);
      DedupKeepsFirsts(s, n - 1);
      var prev := DedupPrefix(s, n - 1);
      var e := s[n - 1];
      if FindHeight(s, e.height) == n - 1 {
        var r := prev + [e];
        assert r == DedupPrefix(s, n);
        forall k | 0 <= k < |prev| ensures prev[k].height > e.height {
          var p := FindHeight(s, prev[k].height);
          assert 0 <= p < n - 1 && s[p] == prev[k];
          assert Before(s[p], s[n - 1]);
          assert s[p].height != e.height;
        }
        forall i, j | 0 <= i < j < |r| ensures r[i].height > r[j].height {
          if j < |prev| {
            assert r[i] == prev[i] && r[j] == prev[j];
          } else {
            assert r[i] == prev[i] && r[j] == e;
          }
        }
      }
    }
  }

  /** The levels built from a non-empty representation list, before any
      fallback or Auto entry. */
  function RealLevels(reps: seq<Rep>): (r: seq<QualityLevel>)
    ensures reps == [] ==> r == []
    ensures forall l :: l in r ==> l.height > 0
  {
    if |reps| > 0 then
      var candidates := FilterPositive(MapLevels(reps));
      var sorted := SortDescending(candidates);
      assert forall l :: l in sorted ==> l in multiset(candidates);
      Dedup(sorted)
    else []
  }

  /** `vhs.representations?.() || []`, falling back to the master playlist's
      variants when that list is empty. */
  function SourceReps(representations: Option<seq<Rep>>, masterPlaylists: seq<Rep>): (reps: seq<Rep>)
    ensures representations.Some? && |representations.value| > 0 ==> reps == representations.value
    ensures representations.None? || representations.value == [] ==> reps == masterPlaylists
  {
    var primary := if representations.Some? then representations.value else [];
    if |primary| == 0 then masterPlaylists else primary
  }

  /** `currentMedia?.attributes?.RESOLUTION?.height || videoEl.videoHeight`. */
  function FallbackHeight(mediaHeight: Option<int>, videoHeight: int): (h: int)
    ensures mediaHeight.Some? && mediaHeight.value != 0 ==> h == mediaHeight.value
    ensures mediaHeight.None? || mediaHeight.value == 0 ==> h == videoHeight
  {
    if mediaHeight.Some? && mediaHeight.value != 0 then mediaHeight.value else videoHeight
  }

  /** The ladder without its Auto entry: the real levels, or else a single
      level at index 0 for a positive fallback height, or else nothing. */
  function Levels(reps: seq<Rep>, fallback: int): (r: seq<QualityLevel>)
    ensures r == [] <==> RealLevels(reps) == [] && fallback <= 0
    ensures r != RealLevels(reps) ==>
      RealLevels(reps) == [] && fallback > 0 && r == [QualityLevel(0, fallback, HeightLabel(fallback))]
  {
    var found := RealLevels(reps);
    if |found| == 0 && fallback > 0 then [QualityLevel(0, fallback, HeightLabel(fallback))]
    else found
  }

  /** `levels.length > 1 ? [Auto, ...levels] : levels`. */
  function WithAuto(levels: seq<QualityLevel>): (r: seq<QualityLevel>)
    ensures |levels| > 1 ==> |r| == |levels| + 1 && r[0] == AutoLevel && r[1..] == levels
    ensures |levels| <= 1 ==> r == levels
  {
    if |levels| > 1 then [AutoLevel] + levels else levels
  }

  // ---------------------------------------------------------------------
  // Properties of the ladder

  /** The candidates (mapped and filtered levels) in sorted order. */
  function Sorted(reps: seq<Rep>): seq<QualityLevel>
  {
    SortDescending(FilterPositive(MapLevels(reps)))
  }

  /** An element of the sorted candidates is the level of the representation
      at its index, and that representation has a positive height. */
  lemma SortedMember(reps: seq<Rep>, l: QualityLevel)
    requires l in Sorted(reps)
    ensures 0 <= l.index < |reps| && l == LevelOf(reps, l.index) && l.height > 0
  {
    var m := MapLevels(reps);
    assert l in multiset(Sorted(reps));
    assert l in FilterPositive(m);
    var i :| 0 <= i < |m| && m[i] == l;
  }

  lemma SortedIsOrdered(reps: seq<Rep>)
    ensures Ordered(Sorted(reps))
  {
    var m := MapLevels(reps);
    assert IncreasingIndices(m);
    SortOrdered(FilterPositive(m));
  }

  /** Every real level describes one representation: its index is a position
      of the list, its height is that representation's height and is positive,
      and its label is "<height>p". */
  lemma {:induction false} RealLevelsDescribeReps(reps: seq<Rep>)
    ensures forall k :: 0 <= k < |RealLevels(reps)| ==>
      var l := RealLevels(reps)[k];
      && 0 <= l.index < |reps|
      && l.height > 0
      && l.height == EffectiveHeight(reps[l.index])
      && l.text == HeightLabel(l.height)
  {
    if |reps| > 0 {
      var s := Sorted(reps);
      DedupKeepsFirsts(s, |s|);
      forall k | 0 <= k < |RealLevels(reps)|
        ensures var l := RealLevels(reps)[k];
          0 <= l.index < |reps| && l.height > 0 &&
          l.height == EffectiveHeight(reps[l.index]) && l.text == HeightLabel(l.height)
      {
        var l := RealLevels(reps)[k];
        assert l == s[FindHeight(s, l.height)];
        SortedMember(reps, l);
      }
    }
  }

  /** Heights strictly decrease along the real levels, so no height occurs twice. */
  lemma {:induction false} RealLevelsStrictlyDescending(reps: seq<Rep>)
    ensures forall i, j :: 0 <= i < j < |RealLevels(reps)| ==>
      RealLevels(reps)[i].height > RealLevels(reps)[j].height
  {
    if |reps| > 0 {
      SortedIsOrdered(reps);
      DedupDescending(Sorted(reps), |Sorted(reps)|);
    }
  }

  /** The level kept for a height is the first representation with that
      height: no earlier representation has it. */
  lemma {:induction false} RealLevelsKeepFirst(reps: seq<Rep>)
    ensures forall i, k :: 0 <= i < |RealLevels(reps)| && 0 <= k < |reps| && k < RealLevels(reps)[i].index ==>
      EffectiveHeight(reps[k]) != RealLevels(reps)[i].height
  {
    RealLevelsDescribeReps(reps);
    if |reps| > 0 {
      var s := Sorted(reps);
      SortedIsOrdered(reps);
      DedupKeepsFirsts(s, |s|);
      forall i, k | 0 <= i < |RealLevels(reps)| && 0 <= k < |reps|
        ensures EffectiveHeight(reps[k]) == RealLevels(reps)[i].height ==> RealLevels(reps)[i].index <= k
      {
        var l := RealLevels(reps)[i];
        if EffectiveHeight(reps[k]) == l.height {
          var j := FindHeight(s, l.height);
          assert s[j] == l;
          var m := MapLevels(reps);
          assert m[k] in FilterPositive(m);
          assert m[k] in multiset(s);
          var q :| 0 <= q < |s| && s[q] == m[k];
          assert j <= q;
          if j < q {
            assert Before(s[j], s[q]);
          }
        }
      }
    }
  }

  /** Every positive representation height appears in the real levels. */
  lemma {:induction false} RealLevelsComplete(reps: seq<Rep>)
    ensures forall k :: 0 <= k < |reps| && EffectiveHeight(reps[k]) > 0 ==>
      HasHeight(RealLevels(reps), EffectiveHeight(reps[k]))
  {
    if |reps| > 0 {
      var s := Sorted(reps);
      DedupComplete(s, |s|);
      forall k | 0 <= k < |reps| && EffectiveHeight(reps[k]) > 0
        ensures HasHeight(RealLevels(reps), EffectiveHeight(reps[k]))
      {
        var m := MapLevels(reps);
        assert m[k] in FilterPositive(m);
        assert m[k] in multiset(s);
        var q :| 0 <= q < |s| && s[q] == m[k];
      }
    }
  }

  /** Every level of the ladder, fallback included, has a positive height and
      a non-negative index, so the only entry with index -1 is Auto. */
  lemma {:induction false} LevelsPositive(reps: seq<Rep>, fallback: int)
    ensures forall l :: l in Levels(reps, fallback) ==> l.height > 0 && l.index >= 0
  {
    RealLevelsDescribeReps(reps);
  }

  /** The Auto entry is prepended exactly when there are two or more levels,
      and the real levels follow it unchanged. */
  lemma {:induction false} AutoEntryRule(reps: seq<Rep>, fallback: int)
    ensures var levels := Levels(reps, fallback);
      && (|levels| > 1 ==> WithAuto(levels) == [AutoLevel] + levels)
      && (|levels| <= 1 ==>
            WithAuto(levels) == levels && forall l :: l in WithAuto(levels) ==> l.index != -1)
  {
    LevelsPositive(reps, fallback);
  }
}
