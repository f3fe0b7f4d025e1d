/**
 * "Popular tracks" on the music and artist pages: an artist's songs sorted
 * by views, most viewed first, and cut to six.
 */
module Popular {
  import opened Json
  import Lists

  const PopularCount: nat := 6

  /**
   * `parseInt(song.views || 0)`. The `views` column is an integer, so a
   * number is read as itself and a missing or `null` count as 0.
   */
  function Views(song: Item): int
  {
    match Get(song, "views")
    case Some(Num(n)) => n
    case _ => 0
  }

  predicate SortedByViews(s: seq<Item>)
  {
    forall i, j :: 0 <= i < j < |s| ==> Views(s[i]) >= Views(s[j])
  }

  /** Puts `x` before the first element it out-views (ties keep `x` first). */
  function Insert(x: Item, s: seq<Item>): (r: seq<Item>)
    requires SortedByViews(s)
    ensures SortedByViews(r)
    ensures |r| == |s| + 1
    ensures r[0] == x || (s != [] && r[0] == s[0])
  {
    if s == [] || Views(x) >= Views(s[0]) then
      ConsSorted(x, s);
      [x] + s
    else
      var tail := s[1..];
      assert SortedByViews(tail);
      var rest := Insert(x, tail);
      assert Views(rest[0]) <= Views(s[0]) by {
        if rest[0] != x {
          assert rest[0] == tail[0] == s[1];
        }
      }
      ConsSorted(s[0], rest);
      [s[0]] + rest
  }

  /** Inserting adds `x` and loses nothing. */
  lemma {:induction false} InsertPermutes(x: Item, s: seq<Item>)
    requires SortedByViews(s)
    ensures multiset(Insert(x, s)) == multiset(s) + multiset{x}
    decreases |s|
  {
    if s != [] && Views(x) < Views(s[0]) {
      var tail := s[1..];
      assert SortedByViews(tail);
      InsertPermutes(x, tail);
      assert s == [s[0]] + tail;
      assert Insert(x, s) == [s[0]] + Insert(x, tail);
    }
  }

  /** A head out-viewing the first element of a sorted list keeps it sorted. */
  lemma ConsSorted(h: Item, t: seq<Item>)
    requires SortedByViews(t) && (t == [] || Views(h) >= Views(t[0]))
    ensures SortedByViews([h] + t)
  {
    var s := [h] + t;
    forall i, j | 0 <= i < j < |s|
      ensures Views(s[i]) >= Views(s[j])
    {
      if i == 0 {
        assert s[j] == t[j - 1];
        assert Views(t[0]) >= Views(t[j - 1]) || j == 1;
      }
    }
  }

  /** The songs of `s` with exactly `v` views, in their order in `s`. */
  function Tier(s: seq<Item>, v: int): seq<Item>
  {
    if s == [] then [] else (if Views(s[0]) == v then [s[0]] else []) + Tier(s[1..], v)
  }

  /** The tier of a list with a head in front. */
  lemma TierCons(h: Item, t: seq<Item>, v: int)
    ensures Tier([h] + t, v) == (if Views(h) == v then [h] else []) + Tier(t, v)
  {
    var c := [h] + t;
    assert c[0] == h && c[1..] == t;
  }

  /** `x` goes ahead of every song with as many views, which keep their order behind it. */
  lemma {:induction false} InsertTier(x: Item, s: seq<Item>, v: int)
    requires SortedByViews(s)
    ensures Tier(Insert(x, s), v) == (if Views(x) == v then [x] else []) + Tier(s, v)
    decreases |s|
  {
    if s != [] && Views(x) < Views(s[0]) {
      var tail := s[1..];
      assert SortedByViews(tail);
      InsertTier(x, tail, v);
      assert Insert(x, s) == [s[0]] + Insert(x, tail);
      TierCons(s[0], Insert(x, tail), v);
      assert s == [s[0]] + tail;
      TierCons(s[0], tail, v);
    } else {
      assert Insert(x, s) == [x] + s;
      TierCons(x, s, v);
    }
  }

  lemma InsertKeepsTiers(x: Item, s: seq<Item>)
    requires SortedByViews(s)
    ensures forall v :: Tier(Insert(x, s), v) == (if Views(x) == v then [x] else []) + Tier(s, v)
  {
    forall v
      ensures Tier(Insert(x, s), v) == (if Views(x) == v then [x] else []) + Tier(s, v)
    {
      InsertTier(x, s, v);
    }
  }

  /**
   * `.sort((a, b) => parseInt(b.views || 0) - parseInt(a.views || 0))`:
   * most viewed first, and stable, as JavaScript's sort is: songs with equal
   * views keep their catalogue order.
   */
  function SortByViews(s: seq<Item>): (r: seq<Item>)
    ensures SortedByViews(r)
    ensures multiset(r) == multiset(s)
    ensures |r| == |s|
    ensures forall v :: Tier(r, v) == Tier(s, v)
  {
    if s == [] then []
    else
      assert s == [s[0]] + s[1..];
      InsertPermutes(s[0], SortByViews(s[1..]));
      InsertKeepsTiers(s[0], SortByViews(s[1..]));
      Insert(s[0], SortByViews(s[1..]))
  }

  /** The six most viewed songs that `belongs` picks, in order. */
  function PopularTracks(songs: seq<Item>, belongs: Item -> bool): seq<Item>
  {
    Lists.Prefix(SortByViews(Lists.Filter(songs, belongs)), PopularCount)
  }

  /**
   * The first six of the sorted songs `belongs` picks (all of them when
   * fewer), most viewed first, each taken from those songs.
   */
  lemma PopularTracksChosen(songs: seq<Item>, belongs: Item -> bool)
    ensures var picked := Lists.Filter(songs, belongs);
      var r := PopularTracks(songs, belongs);
      && |r| == (if |picked| < PopularCount then |picked| else PopularCount)
      && SortedByViews(r)
      && multiset(r) <= multiset(picked)
      && forall x :: x in r ==> x in songs && belongs(x)
  {
    var picked := Lists.Filter(songs, belongs);
    var sorted := SortByViews(picked);
    var r := PopularTracks(songs, belongs);
    assert sorted == r + sorted[|r|..];
    assert multiset(sorted) == multiset(r) + multiset(sorted[|r|..]);
    forall x | x in r
      ensures x in songs && belongs(x)
    {
      assert x in multiset(sorted);
    }
  }

  /** A picked song left out has no more views than any song shown. */
  lemma PopularTracksMaximal(songs: seq<Item>, belongs: Item -> bool, y: Item)
    ensures var r := PopularTracks(songs, belongs);
      y in songs && belongs(y) && y !in r ==> forall x :: x in r ==> Views(y) <= Views(x)
  {
    var picked := Lists.Filter(songs, belongs);
    var sorted := SortByViews(picked);
    var r := PopularTracks(songs, belongs);
    if y in songs && belongs(y) && y !in r {
      assert y in multiset(sorted) by {
        assert y in picked;
      }
      var j :| 0 <= j < |sorted| && sorted[j] == y;
      forall x | x in r
        ensures Views(y) <= Views(x)
      {
        var i :| 0 <= i < |r| && r[i] == x;
        assert sorted[i] == x;
        assert i < j;
      }
    }
  }
}
