/** SorterPlaylist: a Spotify playlist held as an array of SpotifySongs, with
    the songs the API could not preview dropped and the remaining slots left
    null at the tail, and its nearest-neighbour reordering. The distance
    between two songs is a parameter `dist`; in the program it is
    `SpotifySong.distance`, whose metric properties SpotifySongs.DistanceMetric
    states. */
module Playlists {
  import opened Common
  import opened JavaStrings
  import opened PythonEnv
  import opened Songs
  import opened SpotifySongs
  import opened Queues
  import EmotionPoints

  // ---------------------------------------------------------------------------
  // Links

  const PlaylistMarker: string := "open.spotify.com/playlist/"

  /** `getPlaylistID(url)`: the text after the first playlist marker, up to
      the first '?'. IllegalArgumentException exactly when the link holds no
      playlist marker; otherwise an id free of '?' that directly follows the
      first marker. */
  function GetPlaylistID(url: string): (r: Result<string>)
    ensures r == Err(IllegalArgument) <==> forall i :: !OccursAt(url, PlaylistMarker, i)
    ensures r.Ok? ==> '?' !in r.value && OccursAt(url, PlaylistMarker + r.value, IndexOf(url, PlaylistMarker))
    ensures r == IdAfter(url, PlaylistMarker)
  {
    var idx := IndexOf(url, PlaylistMarker);
    var r := IdAfter(url, PlaylistMarker);
    if r.Err? then r
    else
      assert url[idx..idx + |PlaylistMarker| + |r.value|] == PlaylistMarker + r.value by {
        assert url[idx..idx + |PlaylistMarker|] == PlaylistMarker;
        assert url[idx + |PlaylistMarker|..][..|r.value|] == r.value;
      }
      r
  }

  /** `isPlaylist(s)`: the marker occurs at an index greater than 0, that is,
      it occurs, but not at the very start. */
  predicate IsPlaylist(s: string)
    ensures IsPlaylist(s) <==> !OccursAt(s, PlaylistMarker, 0) && exists i :: OccursAt(s, PlaylistMarker, i)
  {
    IndexOf(s, PlaylistMarker) > 0
  }

  /** A share link "https://open.spotify.com/playlist/<id>?<query>" is a
      playlist link, and its id is <id>. */
  lemma PlaylistLinkId(id: string, query: string)
    requires id != [] && '?' !in id
    ensures IsPlaylist("https://" + PlaylistMarker + id + "?" + query)
    ensures GetPlaylistID("https://" + PlaylistMarker + id + "?" + query) == Ok(id)
  {
    var url := "https://" + PlaylistMarker + id + "?" + query;
    assert OccursAt(url, PlaylistMarker, 8) by {
      assert url[8..8 + |PlaylistMarker|] == PlaylistMarker;
    }
    forall i | 0 <= i < 8 ensures !OccursAt(url, PlaylistMarker, i) {
      assert url[i] != 'o';
      assert url[i..i + |PlaylistMarker|][0] == url[i];
    }
    assert url == "https://" + PlaylistMarker + id + ("?" + query);
    IdOfLink("https://", PlaylistMarker, id, "?" + query);
  }

  /** Every text `isPlaylist` accepts holds the marker, so `getPlaylistID`
      does not reject it as an invalid URL; a track link is no playlist link. */
  lemma IsPlaylistHasMarker(s: string, id: string)
    requires IsPlaylist(s)
    ensures GetPlaylistID(s) != Err(IllegalArgument)
    ensures !IsPlaylist(PlaylistMarker + id)
  {
    var t := PlaylistMarker + id;
    assert OccursAt(t, PlaylistMarker, 0) by {
      assert t[..|PlaylistMarker|] == PlaylistMarker;
    }
  }

  // ---------------------------------------------------------------------------
  // The shape of the songs array

  /** No song after a null slot: the non-null songs fill a prefix. */
  ghost predicate NullTail(s: seq<SpotifySong?>)
  {
    forall i, j :: 0 <= i < j < |s| && s[i] == null ==> s[j] == null
  }

  ghost predicate AllNull(s: seq<SpotifySong?>)
  {
    forall i :: 0 <= i < |s| ==> s[i] == null
  }

  /** The state of one step of `sort`: the songs not yet placed have their
      nulls at the tail, and the last placed song is null only once nothing
      but nulls is left. Under it, `distance` is never called on null. */
  ghost predicate Ready(pool: seq<SpotifySong?>, prev: SpotifySong?)
  {
    NullTail(pool) && (prev == null ==> AllNull(pool))
  }

  // ---------------------------------------------------------------------------
  // The nearest-neighbour tour

  /** The inner loop of `sort` from `j` on, with `pool[best]` the closest song
      to `prev` so far: a candidate replaces it only when it is strictly
      closer. The result is the first closest song of the scanned part. */
  function ScanFrom(pool: seq<SpotifySong?>, prev: SpotifySong?, dist: (SpotifySong, SpotifySong) -> real,
                    best: nat, j: nat): (r: nat)
    requires best < j <= |pool| && Ready(pool, prev)
    ensures best <= r < |pool|
    ensures r == best || (j <= r && pool[r] != null)
    decreases |pool| - j
  {
    if j == |pool| then best
    else if pool[j] != null && dist(prev, pool[best]) > dist(prev, pool[j]) then
      ScanFrom(pool, prev, dist, j, j + 1)
    else
      ScanFrom(pool, prev, dist, best, j + 1)
  }

  /** The scan ends on the first closest song: no scanned song is closer, and
      every scanned song before it is strictly farther. */
  lemma {:induction false} ScanFromBest(pool: seq<SpotifySong?>, prev: SpotifySong?,
                                       dist: (SpotifySong, SpotifySong) -> real, best: nat, j: nat)
    requires best < j <= |pool| && Ready(pool, prev) && prev != null && pool[best] != null
    ensures var r := ScanFrom(pool, prev, dist, best, j);
            && dist(prev, pool[r]) <= dist(prev, pool[best])
            && (r != best ==> dist(prev, pool[r]) < dist(prev, pool[best]))
            && (forall k :: j <= k < |pool| && pool[k] != null ==> dist(prev, pool[r]) <= dist(prev, pool[k]))
            && (forall k :: j <= k < r && pool[k] != null ==> dist(prev, pool[r]) < dist(prev, pool[k]))
    decreases |pool| - j
  {
    if j < |pool| {
      if pool[j] != null && dist(prev, pool[best]) > dist(prev, pool[j]) {
        ScanFromBest(pool, prev, dist, j, j + 1);
      } else {
        ScanFromBest(pool, prev, dist, best, j + 1);
      }
    }
  }

  /** The slot of the pool `sort` picks next: the closest song to `prev`, the
      first one in pool order among equally close ones; `pool[0]` when only
      nulls are left. */
  function Nearest(pool: seq<SpotifySong?>, prev: SpotifySong?, dist: (SpotifySong, SpotifySong) -> real): (c: nat)
    requires |pool| > 0 && Ready(pool, prev)
    ensures c < |pool|
    ensures pool[0] == null ==> c == 0
    ensures pool[0] != null ==> pool[c] != null
    ensures prev != null && pool[0] != null ==>
              && (forall k :: 0 <= k < |pool| && pool[k] != null ==> dist(prev, pool[c]) <= dist(prev, pool[k]))
              && (forall k :: 0 <= k < c && pool[k] != null ==> dist(prev, pool[c]) < dist(prev, pool[k]))
  {
    if prev != null && pool[0] != null then
      ScanFromBest(pool, prev, dist, 0, 1);
      ScanFrom(pool, prev, dist, 0, 1)
    else
      ScanFrom(pool, prev, dist, 0, 1)
  }

  /** The pool after song `c` is placed: `songs[idx] = songs[i]; songs[i] = null`
      moves the first slot into the vacated one, and the scan goes on after it. */
  function Remaining(pool: seq<SpotifySong?>, c: nat): seq<SpotifySong?>
    requires c < |pool|
  {
    pool[c := pool[0]][1..]
  }

  lemma RemainingReady(pool: seq<SpotifySong?>, prev: SpotifySong?, c: nat)
    requires c < |pool| && Ready(pool, prev)
    requires c == 0 || pool[c] != null
    ensures Ready(Remaining(pool, c), pool[c])
  {
    var rest := Remaining(pool, c);
    forall i, j | 0 <= i < j < |rest| && rest[i] == null ensures rest[j] == null {
      assert i + 1 != c;
      assert pool[i + 1] == null;
      assert pool[j + 1] == null;
    }
    if pool[c] == null {
      forall i | 0 <= i < |rest| ensures rest[i] == null {
        assert pool[i + 1] == null;
      }
    }
  }

  lemma RemainingPermutes(pool: seq<SpotifySong?>, c: nat)
    requires c < |pool|
    ensures multiset([pool[c]] + Remaining(pool, c)) == multiset(pool)
  {
    var updated := pool[c := pool[0]];
    assert updated == [updated[0]] + Remaining(pool, c);
    assert multiset(updated) == multiset(pool) - multiset{pool[c]} + multiset{pool[0]};
  }

  /** The songs in the order `sort` places them after `prev`: the nearest one
      first, then the tour of the rest from it. */
  function Tour(pool: seq<SpotifySong?>, prev: SpotifySong?, dist: (SpotifySong, SpotifySong) -> real): (r: seq<SpotifySong?>)
    requires Ready(pool, prev)
    ensures |r| == |pool|
    decreases |pool|
  {
    if pool == [] then []
    else
      var c := Nearest(pool, prev, dist);
      RemainingReady(pool, prev, c);
      [pool[c]] + Tour(Remaining(pool, c), pool[c], dist)
  }

  /** Each song after the first is no farther from its predecessor than any
      song placed after it, i.e. than any song not yet placed at that step. */
  ghost predicate Greedy(r: seq<SpotifySong?>, dist: (SpotifySong, SpotifySong) -> real)
  {
    forall k, m :: 0 < k <= m < |r| && r[k - 1] != null && r[k] != null && r[m] != null ==>
      dist(r[k - 1], r[k]) <= dist(r[k - 1], r[m])
  }

  lemma {:induction false} TourPermutes(pool: seq<SpotifySong?>, prev: SpotifySong?, dist: (SpotifySong, SpotifySong) -> real)
    requires Ready(pool, prev)
    ensures multiset(Tour(pool, prev, dist)) == multiset(pool)
    decreases |pool|
  {
    if pool != [] {
      var c := Nearest(pool, prev, dist);
      RemainingReady(pool, prev, c);
      TourPermutes(Remaining(pool, c), pool[c], dist);
      RemainingPermutes(pool, c);
    }
  }

  lemma {:induction false} TourReady(pool: seq<SpotifySong?>, prev: SpotifySong?, dist: (SpotifySong, SpotifySong) -> real)
    requires Ready(pool, prev)
    ensures Ready(Tour(pool, prev, dist), prev)
    decreases |pool|
  {
    if pool != [] {
      var c := Nearest(pool, prev, dist);
      RemainingReady(pool, prev, c);
      var rest := Tour(Remaining(pool, c), pool[c], dist);
      TourReady(Remaining(pool, c), pool[c], dist);
      var r := Tour(pool, prev, dist);
      assert r == [pool[c]] + rest;
      forall i, j | 0 <= i < j < |r| && r[i] == null ensures r[j] == null {
        assert r[j] == rest[j - 1];
        if i > 0 {
          assert r[i] == rest[i - 1];
        }
      }
      if prev == null {
        assert pool[0] == null;
      }
    }
  }

  lemma {:induction false} TourGreedy(pool: seq<SpotifySong?>, prev: SpotifySong?, dist: (SpotifySong, SpotifySong) -> real)
    requires Ready(pool, prev)
    ensures Greedy([prev] + Tour(pool, prev, dist), dist)
    decreases |pool|
  {
    if pool != [] {
      var c := Nearest(pool, prev, dist);
      RemainingReady(pool, prev, c);
      var x := pool[c];
      var tail := [x] + Tour(Remaining(pool, c), x, dist);
      TourGreedy(Remaining(pool, c), x, dist);
      TourPermutes(Remaining(pool, c), x, dist);
      RemainingPermutes(pool, c);
      assert multiset(tail) == multiset(pool);
      forall m | 0 <= m < |tail| && prev != null && x != null && tail[m] != null
        ensures dist(prev, x) <= dist(prev, tail[m])
      {
        assert tail[m] in multiset(pool);
        NearestBeats(pool, prev, dist, tail[m]);
      }
      GreedyCons(prev, tail, dist);
    }
  }

  /** The nearest song is at least as near as any song of the pool. */
  lemma NearestBeats(pool: seq<SpotifySong?>, prev: SpotifySong?, dist: (SpotifySong, SpotifySong) -> real, y: SpotifySong?)
    requires |pool| > 0 && Ready(pool, prev) && prev != null && y != null && y in pool
    ensures pool[Nearest(pool, prev, dist)] != null
    ensures dist(prev, pool[Nearest(pool, prev, dist)]) <= dist(prev, y)
  {
    var idx :| 0 <= idx < |pool| && pool[idx] == y;
    assert pool[0] != null;
  }

  /** A greedy walk stays greedy with a step in front of it that goes to the
      nearest of its songs. */
  lemma GreedyCons(p: SpotifySong?, t: seq<SpotifySong?>, dist: (SpotifySong, SpotifySong) -> real)
    requires t != [] && Greedy(t, dist)
    requires forall m :: 0 <= m < |t| && p != null && t[0] != null && t[m] != null ==> dist(p, t[0]) <= dist(p, t[m])
    ensures Greedy([p] + t, dist)
  {
    var r := [p] + t;
    forall k, m | 0 < k <= m < |r| && r[k - 1] != null && r[k] != null && r[m] != null
      ensures dist(r[k - 1], r[k]) <= dist(r[k - 1], r[m])
    {
      assert r[k - 1] == ([p] + t)[k - 1] && r[k] == t[k - 1] && r[m] == t[m - 1];
      if k > 1 {
        assert r[k - 1] == t[k - 2];
      }
    }
  }


  /** What `sort` leaves in the array: the start song, then the tour of the
      others, where the start slot was refilled with `songs[0]`. */
  function Sorted(a: seq<SpotifySong?>, start: nat, dist: (SpotifySong, SpotifySong) -> real): seq<SpotifySong?>
    requires start < |a| && a[start] != null && NullTail(a)
  {
    RemainingReady(a, a[start], start);
    [a[start]] + Tour(Remaining(a, start), a[start], dist)
  }

  /** The reordering is a nearest-neighbour tour from the start song: same
      length, the same songs (a permutation, nulls included), the nulls still
      at the tail, and each song the closest one still unplaced to the song
      before it. */
  lemma SortedIsTour(a: seq<SpotifySong?>, start: nat, dist: (SpotifySong, SpotifySong) -> real)
    requires start < |a| && a[start] != null && NullTail(a)
    ensures |Sorted(a, start, dist)| == |a|
    ensures Sorted(a, start, dist)[0] == a[start]
    ensures multiset(Sorted(a, start, dist)) == multiset(a)
    ensures NullTail(Sorted(a, start, dist))
    ensures Greedy(Sorted(a, start, dist), dist)
  {
    RemainingReady(a, a[start], start);
    var rest := Remaining(a, start);
    TourPermutes(rest, a[start], dist);
    TourReady(rest, a[start], dist);
    TourGreedy(rest, a[start], dist);
    RemainingPermutes(a, start);
    var s := Sorted(a, start, dist);
    var t := Tour(rest, a[start], dist);
    assert s == [a[start]] + t;
    forall i, j | 0 <= i < j < |s| && s[i] == null ensures s[j] == null {
      assert i > 0;
      assert s[i] == t[i - 1] && s[j] == t[j - 1];
    }
  }

  // ---------------------------------------------------------------------------
  // Building the playlist

  /** What `sapi.getPlaylist(id)` returns, as far as the playlist reads it. */
  datatype PlaylistData = PlaylistData(name: string, tracks: seq<Track>)

  /** The tracks that have a preview, in order. */
  function Previewed(tracks: seq<Track>): (r: seq<Track>)
    ensures |r| <= |tracks|
  {
    if tracks == [] then []
    else
      var last := tracks[|tracks| - 1];
      Previewed(tracks[..|tracks| - 1]) + (if last.previewUrl.Some? then [last] else [])
  }

  /** A track is kept exactly when it is in the playlist and has a preview,
      and every clip cached belongs to a kept track. */
  lemma {:induction false} PreviewedFilters(home: string, tracks: seq<Track>)
    ensures forall x :: x in Previewed(tracks) <==> x in tracks && x.previewUrl.Some?
    ensures forall p :: p in Clips(home, tracks) <==> exists x :: x in Previewed(tracks) && p == ClipPath(home, x.id)
  {
    if tracks != [] {
      var init, last := tracks[..|tracks| - 1], tracks[|tracks| - 1];
      PreviewedFilters(home, init);
      assert tracks == init + [last];
    }
  }

  /** The clip paths of the tracks with a preview. */
  function Clips(home: string, tracks: seq<Track>): set<string>
  {
    if tracks == [] then {}
    else
      var last := tracks[|tracks| - 1];
      Clips(home, tracks[..|tracks| - 1]) + (if last.previewUrl.Some? then {ClipPath(home, last.id)} else {})
  }

  /** One step of the tour: the nearest song, then the tour of the rest. */
  lemma TourStep(pool: seq<SpotifySong?>, prev: SpotifySong?, dist: (SpotifySong, SpotifySong) -> real)
    requires Ready(pool, prev) && pool != []
    ensures Ready(Remaining(pool, Nearest(pool, prev, dist)), pool[Nearest(pool, prev, dist)])
    ensures var c := Nearest(pool, prev, dist);
            Tour(pool, prev, dist) == [pool[c]] + Tour(Remaining(pool, c), pool[c], dist)
  {
    RemainingReady(pool, prev, Nearest(pool, prev, dist));
  }

  /** The first step of `sort`: the start song is placed and `songs[0]`
      moves into its slot. */
  lemma SortStart(a: seq<SpotifySong?>, start: nat, dist: (SpotifySong, SpotifySong) -> real)
    requires start < |a| && a[start] != null && NullTail(a)
    ensures var after := a[start := a[0]][0 := null];
            && Ready(after[1..], a[start])
            && Sorted(a, start, dist) == [a[start]] + Tour(after[1..], a[start], dist)
  {
    RemainingReady(a, a[start], start);
    SwapOut(a, 0, start);
    assert a[0..] == a;
  }

  /** A later step of `sort`: the nearest song at `idx` is placed and
      `songs[i]` moves into its slot. */
  lemma SortStep(s: seq<SpotifySong?>, i: nat, idx: nat, prev: SpotifySong?, dist: (SpotifySong, SpotifySong) -> real)
    requires i <= idx < |s| && Ready(s[i..], prev)
    requires idx - i == Nearest(s[i..], prev, dist)
    ensures var after := s[idx := s[i]][i := null];
            && Ready(after[i + 1..], s[idx])
            && [s[idx]] + Tour(after[i + 1..], s[idx], dist) == Tour(s[i..], prev, dist)
  {
    TourStep(s[i..], prev, dist);
    SwapOut(s, i, idx);
  }

  /** The swap of one step of `sort` on the whole array leaves, after slot
      `i`, the remaining pool of the step. */
  lemma SwapOut(s: seq<SpotifySong?>, i: nat, idx: nat)
    requires i <= idx < |s|
    ensures s[idx := s[i]][i := null][i + 1..] == Remaining(s[i..], idx - i)
  {
    var left := s[idx := s[i]][i := null][i + 1..];
    var right := Remaining(s[i..], idx - i);
    assert |left| == |right|;
    forall k | 0 <= k < |left| ensures left[k] == right[k] {
      if i + 1 + k == idx {
        assert right[k] == s[i];
      } else {
        assert right[k] == s[i + 1 + k];
      }
    }
  }

  /** The inner loop of `sort`: the slot of the song nearest to `prev` among
      `a[i..]`, a candidate replacing the best so far only when strictly
      closer. */
  method NearestSlot(a: array<SpotifySong?>, i: nat, prev: SpotifySong?, dist: (SpotifySong, SpotifySong) -> real)
    returns (idx: nat)
    requires i < a.Length && Ready(a[i..], prev)
    ensures i <= idx < a.Length && idx - i == Nearest(a[i..], prev, dist)
  {
    ghost var pool := a[i..];
    var closest := a[i];
    idx := i;
    for j := i + 1 to a.Length
      invariant i <= idx < j
      invariant closest == a[idx]
      invariant ScanFrom(pool, prev, dist, idx - i, j - i) == Nearest(pool, prev, dist)
    {
      assert a[j] == pool[j - i] && closest == pool[idx - i];
      if a[j] != null && dist(prev, closest) > dist(prev, a[j]) {
        closest := a[j];
        idx := j;
      }
    }
  }

  /** Moving the head of the tour to the end of the placed prefix keeps the
      whole. */
  lemma Placed(placed: seq<SpotifySong?>, song: SpotifySong?, rest: seq<SpotifySong?>, target: seq<SpotifySong?>)
    requires placed + ([song] + rest) == target
    ensures (placed + [song]) + rest == target
  {
    assert (placed + [song]) + rest == placed + ([song] + rest);
  }

  /** The state of `sort` before the outer loop places slot `i`: the slots
      of the old array before `i` are null, the rest is the pool, and the
      placed prefix followed by the tour of the pool from the last placed
      song is the result. */
  ghost predicate SortInv(old_: seq<SpotifySong?>, placed: seq<SpotifySong?>, i: nat,
                          target: seq<SpotifySong?>, dist: (SpotifySong, SpotifySong) -> real)
  {
    && 1 <= i <= |old_| && |placed| == |old_|
    && Ready(old_[i..], placed[i - 1])
    && placed[..i] + Tour(old_[i..], placed[i - 1], dist) == target
    && (forall k :: 0 <= k < i ==> old_[k] == null)
  }

  /** One pass of the outer loop of `sort`, on values: the nearest song goes
      into slot `i` of the new array and `old_[i]` moves into its slot. */
  lemma SortInvStep(old_: seq<SpotifySong?>, placed: seq<SpotifySong?>, i: nat, idx: nat,
                    target: seq<SpotifySong?>, dist: (SpotifySong, SpotifySong) -> real)
    requires SortInv(old_, placed, i, target, dist) && i <= idx < |old_|
    requires idx - i == Nearest(old_[i..], placed[i - 1], dist)
    ensures SortInv(old_[idx := old_[i]][i := null], placed[i := old_[idx]], i + 1, target, dist)
  {
    var after := old_[idx := old_[i]][i := null];
    var next := placed[i := old_[idx]];
    SortStep(old_, i, idx, placed[i - 1], dist);
    assert next[..i + 1] == placed[..i] + [old_[idx]];
    Placed(placed[..i], old_[idx], Tour(after[i + 1..], old_[idx], dist), target);
  }

  /** One pass of the outer loop of `sort`: the inner scan finds the nearest
      song, which goes into slot `i` of the new array, and `a[i]` moves into
      its slot. */
  method PlaceNext(a: array<SpotifySong?>, newArr: array<SpotifySong?>, i: nat,
                   dist: (SpotifySong, SpotifySong) -> real, ghost target: seq<SpotifySong?>)
    requires a != newArr && i < a.Length && SortInv(a[..], newArr[..], i, target, dist)
    modifies a, newArr
    ensures SortInv(a[..], newArr[..], i + 1, target, dist)
  {
    ghost var before := a[..];
    ghost var placed := newArr[..];
    var idx := NearestSlot(a, i, newArr[i - 1], dist);
    SortInvStep(before, placed, i, idx, target, dist);
    newArr[i] := a[idx];
    a[idx] := a[i];
    a[i] := null;
    assert a[..] == before[idx := before[i]][i := null];
    assert newArr[..] == placed[i := before[idx]];
  }

  /** The first step of `sort()`: the start song goes into slot 0 of the new
      array and `a[0]` moves into its slot. */
  method PlaceFirst(a: array<SpotifySong?>, newArr: array<SpotifySong?>, start: nat,
                    dist: (SpotifySong, SpotifySong) -> real)
    requires a != newArr && a.Length == newArr.Length
    requires NullTail(a[..]) && start < a.Length && a[start] != null
    modifies a, newArr
    ensures SortInv(a[..], newArr[..], 1, Sorted(old(a[..]), start, dist), dist)
  {
    ghost var orig := a[..];
    newArr[0] := a[start];
    a[start] := a[0];
    a[0] := null;
    SortStart(orig, start, dist);
    assert a[..] == orig[start := orig[0]][0 := null];
    assert newArr[..1] == [orig[start]];
  }

  /** The body of `sort()` on the array itself: the start song goes first,
      `a[0]` moves into its slot, and each following slot of the new array gets
      the song nearest to the one before it, found by the inner scan and
      swapped out of `a`, which is left all null. */
  method SortInto(a: array<SpotifySong?>, start: nat, dist: (SpotifySong, SpotifySong) -> real)
    returns (newArr: array<SpotifySong?>)
    requires NullTail(a[..]) && start < a.Length && a[start] != null
    modifies a
    ensures fresh(newArr) && newArr[..] == Sorted(old(a[..]), start, dist)
    ensures forall k :: 0 <= k < a.Length ==> a[k] == null
  {
    ghost var target := Sorted(a[..], start, dist);
    newArr := new SpotifySong?[a.Length];
    PlaceFirst(a, newArr, start, dist);
    var i := 1;
    while i < a.Length
      invariant SortInv(a[..], newArr[..], i, target, dist)
    {
      PlaceNext(a, newArr, i, dist, target);
      i := i + 1;
    }
    assert newArr[..] == newArr[..i];
  }

  // ---------------------------------------------------------------------------
  // Scoring the slots, on snapshots: `refs[k]` is the song of slot k (null for
  // an empty slot), `before[k]` and `now[k]` its emotions when the loop
  // started and now, and `scores[k]` what the scorer returns for its file.

  type Samples = Option<seq<EmotionPoints.EmotionPoint>>

  /** A per-slot snapshot agrees on slots that hold the same song. */
  ghost predicate Aligned<T>(refs: seq<Song?>, xs: seq<T>)
  {
    && |xs| == |refs|
    && forall j, k :: 0 <= j < |refs| && 0 <= k < |refs| && refs[j] == refs[k] ==> xs[j] == xs[k]
  }

  /** A song scored before keeps its samples, and one scored since holds the
      scorer's output. */
  ghost predicate Kept(refs: seq<Song?>, before: seq<Samples>, now: seq<Samples>,
                       scores: seq<Result<seq<EmotionPoints.EmotionPoint>>>)
    requires |before| == |now| == |scores| == |refs|
  {
    forall k :: 0 <= k < |refs| && refs[k] != null ==>
      && (before[k].Some? ==> now[k] == before[k])
      && (before[k].None? && now[k].Some? ==> scores[k] == Ok(now[k].value))
  }

  /** What scoring the slots before `i` leaves: the songs are kept, every song
      before `i` is scored, and a song only held by slots from `i` on is
      untouched. */
  ghost predicate ScoredUpTo(i: nat, refs: seq<Song?>, before: seq<Samples>, now: seq<Samples>,
                             scores: seq<Result<seq<EmotionPoints.EmotionPoint>>>)
    requires i <= |refs| && |before| == |now| == |scores| == |refs|
  {
    && Kept(refs, before, now, scores)
    && (forall k :: 0 <= k < i && refs[k] != null ==> now[k].Some?)
    && (forall j :: i <= j < |refs| && refs[j] != null && refs[j] !in refs[..i] ==> now[j] == before[j])
  }

  /** The failure at slot `i`: its song was and stays unscored and the
      scorer's error is `e`; otherwise the state is as after the slots before
      `i`, with the songs only held by slots after `i` untouched. */
  ghost predicate FailedAt(i: nat, e: Error, refs: seq<Song?>, before: seq<Samples>, now: seq<Samples>,
                           scores: seq<Result<seq<EmotionPoints.EmotionPoint>>>)
    requires i < |refs| && |before| == |now| == |scores| == |refs|
  {
    && refs[i] != null && before[i].None? && now[i].None? && scores[i] == Err(e)
    && Kept(refs, before, now, scores)
    && (forall k :: 0 <= k < i && refs[k] != null ==> now[k].Some?)
    && (forall j :: i < j < |refs| && refs[j] != null && refs[j] !in refs[..i + 1] ==> now[j] == before[j])
  }

  /** A song still unscored at slot `i` is held by no slot before `i`, so it
      still has the emotions it started with. */
  lemma UnscoredUntouched(i: nat, refs: seq<Song?>, before: seq<Samples>, now: seq<Samples>,
                          scores: seq<Result<seq<EmotionPoints.EmotionPoint>>>)
    requires i < |refs| && |before| == |scores| == |refs|
    requires Aligned(refs, now) && ScoredUpTo(i, refs, before, now, scores)
    requires refs[i] != null && now[i].None?
    ensures refs[i] !in refs[..i] && before[i] == now[i]
  {
  }

  /** Slot `i` scored: every slot holding its song now has `v`, the samples it
      had or, if it had none, the scorer's output. */
  lemma SlotScored(i: nat, refs: seq<Song?>, before: seq<Samples>, now: seq<Samples>,
                   scores: seq<Result<seq<EmotionPoints.EmotionPoint>>>, v: Samples, now': seq<Samples>)
    requires i < |refs| && |before| == |now| == |scores| == |now'| == |refs|
    requires Aligned(refs, before) && Aligned(refs, now) && Aligned(refs, scores)
    requires ScoredUpTo(i, refs, before, now, scores) && refs[i] != null
    requires now[i].Some? ==> v == now[i]
    requires now[i].None? ==> scores[i].Ok? && v == Some(scores[i].value)
    requires forall k :: 0 <= k < |refs| ==> now'[k] == if refs[k] == refs[i] then v else now[k]
    ensures Aligned(refs, now') && ScoredUpTo(i + 1, refs, before, now', scores)
  {
    if now[i].None? {
      UnscoredUntouched(i, refs, before, now, scores);
    }
    forall k | 0 <= k < |refs| && refs[k] != null
      ensures (before[k].Some? ==> now'[k] == before[k])
      ensures (before[k].None? && now'[k].Some? ==> scores[k] == Ok(now'[k].value))
    {
      if refs[k] == refs[i] {
        assert before[k] == before[i] && now[k] == now[i] && scores[k] == scores[i];
      }
    }
    forall j | i + 1 <= j < |refs| && refs[j] != null && refs[j] !in refs[..i + 1]
      ensures now'[j] == before[j]
    {
      assert refs[..i + 1] == refs[..i] + [refs[i]];
    }
  }

  /** Slot `i` failed: its song stays unscored and the loop stops there. */
  lemma SlotFailed(i: nat, e: Error, refs: seq<Song?>, before: seq<Samples>, now: seq<Samples>,
                   scores: seq<Result<seq<EmotionPoints.EmotionPoint>>>, now': seq<Samples>)
    requires i < |refs| && |before| == |now| == |scores| == |now'| == |refs|
    requires Aligned(refs, now) && ScoredUpTo(i, refs, before, now, scores)
    requires refs[i] != null && now[i].None? && scores[i] == Err(e)
    requires forall k :: 0 <= k < |refs| ==> now'[k] == if refs[k] == refs[i] then None else now[k]
    ensures Aligned(refs, now') && FailedAt(i, e, refs, before, now', scores)
  {
    UnscoredUntouched(i, refs, before, now, scores);
    forall k | 0 <= k < |refs|
      ensures now'[k] == now[k]
    {
      if refs[k] == refs[i] {
        assert now[k] == now[i];
      }
    }
    assert now' == now;
    forall j | i < j < |refs| && refs[j] != null && refs[j] !in refs[..i + 1]
      ensures now[j] == before[j]
    {
      assert refs[..i + 1] == refs[..i] + [refs[i]];
    }
  }

  /** An empty slot: nothing is scored. */
  lemma SlotEmpty(i: nat, refs: seq<Song?>, before: seq<Samples>, now: seq<Samples>,
                  scores: seq<Result<seq<EmotionPoints.EmotionPoint>>>)
    requires i < |refs| && |before| == |now| == |scores| == |refs|
    requires ScoredUpTo(i, refs, before, now, scores) && refs[i] == null
    ensures ScoredUpTo(i + 1, refs, before, now, scores)
  {
    forall j | i + 1 <= j < |refs| && refs[j] != null && refs[j] !in refs[..i + 1]
      ensures now[j] == before[j]
    {
      assert refs[..i + 1] == refs[..i] + [refs[i]];
    }
  }

  /** `a[i] = v` after the first `i` averages are written: they gain `v`,
      and the slots after `i` keep their values. */
  method PutAverage(a: array<real>, i: nat, v: real)
    requires i < a.Length
    modifies a
    ensures a[..i + 1] == old(a[..i]) + [v]
    ensures forall k :: i < k < a.Length ==> a[k] == old(a[k])
  {
    a[i] := v;
    assert a[..i + 1] == old(a[..i]) + [v];
  }

  class SorterPlaylist {
    var songs: array<SpotifySong?>
    var name: string

    ghost predicate Valid()
      reads this, songs
    {
      NullTail(songs[..])
    }

    /** The fields as the constructor sets them before its loop: `n` empty slots. */
    constructor (name: string, n: nat)
      ensures Valid() && this.name == name && fresh(songs) && songs.Length == n
      ensures forall k :: 0 <= k < n ==> songs[k] == null
    {
      this.name := name;
      songs := new SpotifySong?[n](_ => null);
    }

    /** `get(i)`; an index outside the array raises the index exception. */
    function Get(i: int): (r: Result<SpotifySong?>)
      reads this, songs
      ensures r.Ok? <==> 0 <= i < songs.Length
      ensures r.Ok? ==> r.value == songs[i]
      ensures r.Err? ==> r.error == IndexOutOfBounds
    {
      if 0 <= i < songs.Length then Ok(songs[i]) else Err(IndexOutOfBounds)
    }

    /** `length()`: the number of slots, null ones included. */
    function Length(): int
      reads this
    {
      songs.Length
    }

    /** `name()`. */
    function Name(): string
      reads this
    {
      name
    }

    /** The songs held by the slots before `n`. */
    ghost function Held(n: int): set<Song>
      reads this, songs
      requires 0 <= n <= songs.Length
    {
      set m | 0 <= m < n && songs[m] != null :: songs[m].song
    }

    /** Each slot's song, null for an empty slot. */
    ghost function Refs(): (r: seq<Song?>)
      reads this, songs
      ensures |r| == songs.Length
    {
      seq(songs.Length, k requires 0 <= k < songs.Length reads this, songs =>
        if songs[k] == null then null else songs[k].song)
    }

    /** Each slot's song's emotions, `None` for an empty slot. */
    ghost function Emotions(): (e: seq<Samples>)
      reads this, songs, Held(songs.Length)
      ensures |e| == songs.Length
    {
      seq(songs.Length, k requires 0 <= k < songs.Length reads this, songs, Held(songs.Length) =>
        if songs[k] == null then None else songs[k].song.emotions)
    }

    /** What the scorer returns for each slot's song's file. */
    ghost function Scores(penv: PythonEnvHandler, exec: Command -> Process, parse: string -> Option<real>)
      : (r: seq<Result<seq<EmotionPoints.EmotionPoint>>>)
      reads this, songs, Held(songs.Length), penv
      ensures |r| == songs.Length
    {
      seq(songs.Length, k requires 0 <= k < songs.Length reads this, songs, Held(songs.Length), penv =>
        if songs[k] == null then Err(NullPointer)
        else Score(penv.python, penv.home, songs[k].song.filePath, exec, parse))
    }

    /** One pass of `setEmotions`' loop: slot `i`'s song, if any, through
        `SpotifySong.setEmotions`. */
    method ScoreSlot(i: nat, ghost refs: seq<Song?>, ghost before: seq<Samples>,
                     ghost scores: seq<Result<seq<EmotionPoints.EmotionPoint>>>,
                     penv: PythonEnvHandler, exec: Command -> Process, parse: string -> Option<real>)
      returns (r: Outcome)
      requires i < songs.Length && refs == Refs() && |before| == |scores| == songs.Length
      requires Aligned(refs, before) && Aligned(refs, scores) && Aligned(refs, Emotions())
      requires songs[i] != null ==> scores[i] == Score(penv.python, penv.home, songs[i].song.filePath, exec, parse)
      requires ScoredUpTo(i, refs, before, Emotions(), scores)
      modifies Held(songs.Length)`emotions
      ensures Aligned(refs, Emotions())
      ensures r.Pass? ==> ScoredUpTo(i + 1, refs, before, Emotions(), scores)
      ensures r.Fail? ==> FailedAt(i, r.error, refs, before, Emotions(), scores)
    {
      r := Pass;
      ghost var now := Emotions();
      var s := songs[i];
      if s != null {
        var x := s.song;
        assert x in Held(songs.Length);
        var ran;
        r, ran := x.SetEmotions(penv, exec, parse);
        ghost var now' := Emotions();
        assert forall k :: 0 <= k < songs.Length ==> now'[k] == if refs[k] == x then x.emotions else now[k];
        if r.Pass? {
          SlotScored(i, refs, before, now, scores, x.emotions, now');
        } else {
          SlotFailed(i, r.error, refs, before, now, scores, now');
        }
      } else {
        SlotEmpty(i, refs, before, now, scores);
      }
    }

    /** Reading `Kept` back on the slots' songs: a song that had samples in
        `before` still has them, and one scored since holds the scorer's
        output for its file. */
    lemma Rescored(refs: seq<Song?>, before: seq<Samples>,
                   scores: seq<Result<seq<EmotionPoints.EmotionPoint>>>,
                   penv: PythonEnvHandler, exec: Command -> Process, parse: string -> Option<real>)
      requires refs == Refs() && |before| == |scores| == songs.Length
      requires forall k :: 0 <= k < songs.Length && songs[k] != null ==>
                 scores[k] == Score(penv.python, penv.home, songs[k].song.filePath, exec, parse)
      requires Kept(refs, before, Emotions(), scores)
      ensures forall k :: 0 <= k < songs.Length && songs[k] != null ==>
                && (before[k].Some? ==> songs[k].song.emotions == before[k])
                && (before[k].None? && songs[k].song.emotions.Some? ==>
                      Score(penv.python, penv.home, songs[k].song.filePath, exec, parse)
                      == Ok(songs[k].song.emotions.value))
    {
      var now := Emotions();
      forall k | 0 <= k < songs.Length && songs[k] != null
        ensures refs[k] != null && now[k] == songs[k].song.emotions
      {
      }
    }

    /** The loop stopped at slot `i` with the scorer's error `e`. */
    lemma StoppedAt(i: nat, e: Error, refs: seq<Song?>, before: seq<Samples>,
                    scores: seq<Result<seq<EmotionPoints.EmotionPoint>>>,
                    penv: PythonEnvHandler, exec: Command -> Process, parse: string -> Option<real>)
      requires i < songs.Length && refs == Refs() && |before| == |scores| == songs.Length
      requires forall k :: 0 <= k < songs.Length && songs[k] != null ==>
                 scores[k] == Score(penv.python, penv.home, songs[k].song.filePath, exec, parse)
      requires FailedAt(i, e, refs, before, Emotions(), scores)
      ensures songs[i] != null && before[i].None? && songs[i].song.emotions.None?
      ensures Score(penv.python, penv.home, songs[i].song.filePath, exec, parse) == Err(e)
      ensures forall j :: 0 <= j < i && songs[j] != null ==> songs[j].song.emotions.Some?
      ensures forall j :: i < j < songs.Length && songs[j] != null && songs[j].song !in Held(i + 1) ==>
                songs[j].song.emotions == before[j]
    {
      var now := Emotions();
      forall k | 0 <= k < songs.Length && songs[k] != null
        ensures refs[k] == songs[k].song && now[k] == songs[k].song.emotions
      {
      }
      forall j | i < j < songs.Length && songs[j] != null && songs[j].song !in Held(i + 1)
        ensures songs[j].song.emotions == before[j]
      {
        forall m | 0 <= m < i + 1
          ensures refs[m] != refs[j]
        {
          if songs[m] != null {
            assert songs[m].song in Held(i + 1);
          }
        }
        assert refs[j] !in refs[..i + 1];
      }
    }

    /** The loop ran over every slot: every song is scored. */
    lemma RanThrough(refs: seq<Song?>, before: seq<Samples>,
                     scores: seq<Result<seq<EmotionPoints.EmotionPoint>>>)
      requires refs == Refs() && |before| == |scores| == songs.Length
      requires ScoredUpTo(songs.Length, refs, before, Emotions(), scores)
      ensures forall k :: 0 <= k < songs.Length && songs[k] != null ==> songs[k].song.emotions.Some?
    {
      var now := Emotions();
      forall k | 0 <= k < songs.Length && songs[k] != null
        ensures songs[k].song.emotions.Some?
      {
        assert refs[k] != null && now[k] == songs[k].song.emotions;
      }
    }

    /** The loop of `setEmotions`: slot by slot through `ScoreSlot` until
        the first error, against the snapshots taken before it. */
    method ScoreSlots(ghost refs: seq<Song?>, ghost before: seq<Samples>,
                      ghost scores: seq<Result<seq<EmotionPoints.EmotionPoint>>>,
                      penv: PythonEnvHandler, exec: Command -> Process, parse: string -> Option<real>)
      returns (o: Outcome, ghost at: nat)
      requires refs == Refs() && |before| == |scores| == songs.Length
      requires Aligned(refs, before) && Aligned(refs, scores) && Aligned(refs, Emotions())
      requires forall k :: 0 <= k < songs.Length && songs[k] != null ==>
                 scores[k] == Score(penv.python, penv.home, songs[k].song.filePath, exec, parse)
      requires ScoredUpTo(0, refs, before, Emotions(), scores)
      modifies Held(songs.Length)`emotions
      ensures o.Pass? ==> ScoredUpTo(songs.Length, refs, before, Emotions(), scores)
      ensures o.Fail? ==> at < songs.Length && FailedAt(at, o.error, refs, before, Emotions(), scores)
    {
      at := 0;
      var i := 0;
      while i < songs.Length
        invariant 0 <= i <= songs.Length && refs == Refs()
        invariant Aligned(refs, Emotions())
        invariant forall k :: 0 <= k < songs.Length && songs[k] != null ==>
                    scores[k] == Score(penv.python, penv.home, songs[k].song.filePath, exec, parse)
        invariant ScoredUpTo(i, refs, before, Emotions(), scores)
      {
        var r := ScoreSlot(i, refs, before, scores, penv, exec, parse);
        if r.Fail? {
          return r, i;
        }
        i := i + 1;
      }
      o := Pass;
    }

    /** `setEmotions(penv)`: every non-null song in turn through
        `SpotifySong.setEmotions`; the first error ends the loop. Songs scored
        before stay as they were, the others are scored with the scorer's
        output, and on an error the failing song is left unscored, the songs
        of the slots before it are all scored, and the songs only held by
        slots after it are untouched. */
    method SetEmotions(penv: PythonEnvHandler, exec: Command -> Process, parse: string -> Option<real>)
      returns (o: Outcome)
      modifies Held(songs.Length)`emotions
      ensures forall k :: 0 <= k < songs.Length && songs[k] != null ==>
                && songs[k].song.filePath == old(songs[k].song.filePath)
                && songs[k].song.title == old(songs[k].song.title)
                && (old(songs[k].song.emotions).Some? ==> songs[k].song.emotions == old(songs[k].song.emotions))
                && (old(songs[k].song.emotions).None? && songs[k].song.emotions.Some? ==>
                      Score(penv.python, penv.home, songs[k].song.filePath, exec, parse)
                      == Ok(songs[k].song.emotions.value))
      ensures o == Pass ==> forall k :: 0 <= k < songs.Length && songs[k] != null ==> songs[k].song.emotions.Some?
      ensures o.Fail? ==>
                exists k :: 0 <= k < songs.Length && songs[k] != null
                  && old(songs[k].song.emotions).None? && songs[k].song.emotions.None?
                  && Score(penv.python, penv.home, songs[k].song.filePath, exec, parse) == Err(o.error)
                  && (forall j :: 0 <= j < k && songs[j] != null ==> songs[j].song.emotions.Some?)
                  && (forall j :: k < j < songs.Length && songs[j] != null && songs[j].song !in Held(k + 1) ==>
                        songs[j].song.emotions == old(songs[j].song.emotions))
    {
      ghost var refs := Refs();
      ghost var before := Emotions();
      ghost var scores := Scores(penv, exec, parse);
      forall j, k | 0 <= j < |refs| && 0 <= k < |refs| && refs[j] == refs[k]
        ensures before[j] == before[k] && scores[j] == scores[k]
      {
      }
      assert forall k :: 0 <= k < songs.Length && songs[k] != null ==>
               before[k] == songs[k].song.emotions;
      assert refs[..0] == [];
      ghost var at;
      o, at := ScoreSlots(refs, before, scores, penv, exec, parse);
      Rescored(refs, before, scores, penv, exec, parse);
      if o.Fail? {
        StoppedAt(at, o.error, refs, before, scores, penv, exec, parse);
      } else {
        RanThrough(refs, before, scores);
      }
    }

    /** Every scored non-null song has at least one sample, so its averages
        are real numbers rather than the source's NaN. */
    ghost predicate SamplesNonEmpty()
      reads this, songs, set k | 0 <= k < songs.Length && songs[k] != null :: songs[k].song
    {
      forall k :: 0 <= k < songs.Length && songs[k] != null && songs[k].song.emotions.Some? ==>
        |songs[k].song.emotions.value| > 0
    }

    /** Slot by slot, the song's average arousal, 0.0 for an empty slot or an
        unscored song. */
    ghost function ArousalRow(): (r: seq<real>)
      reads this, songs, set k | 0 <= k < songs.Length && songs[k] != null :: songs[k].song
      requires SamplesNonEmpty()
      ensures |r| == songs.Length
    {
      seq(songs.Length, k requires 0 <= k < songs.Length && SamplesNonEmpty()
                          reads this, songs, set m | 0 <= m < songs.Length && songs[m] != null :: songs[m].song =>
        if songs[k] == null || songs[k].song.emotions.None? then 0.0 else songs[k].song.AverageArousal())
    }

    /** Slot by slot, the song's average valence, 0.0 for an empty slot or an
        unscored song. */
    ghost function ValenceRow(): (r: seq<real>)
      reads this, songs, set k | 0 <= k < songs.Length && songs[k] != null :: songs[k].song
      requires SamplesNonEmpty()
      ensures |r| == songs.Length
    {
      seq(songs.Length, k requires 0 <= k < songs.Length && SamplesNonEmpty()
                          reads this, songs, set m | 0 <= m < songs.Length && songs[m] != null :: songs[m].song =>
        if songs[k] == null || songs[k].song.emotions.None? then 0.0 else songs[k].song.AverageValence())
    }

    /** Some non-null song has not been scored yet. */
    ghost predicate SomeUnscored()
      reads this, songs, set k | 0 <= k < songs.Length && songs[k] != null :: songs[k].song
    {
      exists k :: 0 <= k < songs.Length && songs[k] != null && songs[k].song.emotions.None?
    }

    /** `avgArousals()`: slot by slot, the song's average arousal, 0.0 for a
        null slot. A non-null song not yet scored has no samples to stream,
        and the call raises NullPointerException there. */
    method AvgArousals() returns (r: Result<array<real>>)
      requires SamplesNonEmpty()
      ensures r.Err? <==> SomeUnscored()
      ensures r.Err? ==> r.error == NullPointer
      ensures r.Ok? ==>
                && fresh(r.value) && r.value.Length == songs.Length
                && forall k :: 0 <= k < songs.Length ==>
                     r.value[k] == (if songs[k] == null then 0.0 else songs[k].song.AverageArousal())
    {
      var a := new real[songs.Length](_ => 0.0);
      ghost var row := ArousalRow();
      for i := 0 to songs.Length
        invariant forall k :: 0 <= k < i && songs[k] != null ==> songs[k].song.emotions.Some?
        invariant a[..i] == row[..i] && forall k :: i <= k < a.Length ==> a[k] == 0.0
      {
        if songs[i] != null {
          if songs[i].song.emotions.None? {
            return Err(NullPointer);
          }
          PutAverage(a, i, songs[i].song.AverageArousal());
        } else {
          assert a[..i + 1] == a[..i] + [a[i]];
        }
      }
      r := Ok(a);
    }

    /** `avgValences()`: slot by slot, the song's average valence, 0.0 for a
        null slot. A non-null song not yet scored has no samples to stream,
        and the call raises NullPointerException there. */
    method AvgValences() returns (r: Result<array<real>>)
      requires SamplesNonEmpty()
      ensures r.Err? <==> SomeUnscored()
      ensures r.Err? ==> r.error == NullPointer
      ensures r.Ok? ==>
                && fresh(r.value) && r.value.Length == songs.Length
                && forall k :: 0 <= k < songs.Length ==>
                     r.value[k] == (if songs[k] == null then 0.0 else songs[k].song.AverageValence())
    {
      var a := new real[songs.Length](_ => 0.0);
      ghost var row := ValenceRow();
      for i := 0 to songs.Length
        invariant forall k :: 0 <= k < i && songs[k] != null ==> songs[k].song.emotions.Some?
        invariant a[..i] == row[..i] && forall k :: i <= k < a.Length ==> a[k] == 0.0
      {
        if songs[i] != null {
          if songs[i].song.emotions.None? {
            return Err(NullPointer);
          }
          PutAverage(a, i, songs[i].song.AverageValence());
        } else {
          assert a[..i + 1] == a[..i] + [a[i]];
        }
      }
      r := Ok(a);
    }

    /** `asQueue()`: a full queue over the songs array itself, null slots
        included, built by the array constructor as written. */
    method AsQueue() returns (q: ArrayQueue<SpotifySong?>)
      ensures fresh(q) && q.Valid()
      ensures q.arr == songs && q.size == songs.Length && q.count == songs.Length
      ensures q.Contents() == songs[..]
    {
      q := new ArrayQueue<SpotifySong?>.FromArray(songs);
    }

    /** `sort()`, with the random start slot as `start`: the start song goes
        first, `songs[0]` moves into its slot, and each following slot gets the
        song nearest to the one before it, found by the inner scan and swapped
        out of the old array; then the field takes the new array. The old
        array is left all null. */
    method Sort(start: nat, dist: (SpotifySong, SpotifySong) -> real)
      requires Valid() && start < songs.Length && songs[start] != null
      modifies this, songs
      ensures Valid() && fresh(songs) && name == old(name)
      ensures songs[..] == Sorted(old(songs[..]), start, dist)
      ensures forall k :: 0 <= k < old(songs).Length ==> old(songs)[k] == null
    {
      var sorted := SortInto(songs, start, dist);
      SortedIsTour(old(songs[..]), start, dist);
      songs := sorted;
    }
  }

  /** Slot song `s` is the song made from track `kt`: its id, link, joined
      artists, title and clip path come from the track, and it has no
      emotions yet. */
  ghost predicate MadeFrom(s: SpotifySong?, kt: Track, home: string)
    reads s, if s != null then {s.song} else {}
  {
    && s != null && kt.artistNames != []
    && s.id == kt.id && s.url == kt.href
    && s.artists == JoinWith(kt.artistNames, ", ")
    && s.song.title == kt.name
    && s.song.filePath == ClipPath(home, kt.id)
    && s.song.emotions == None
  }

  /** One more track adds itself to the kept tracks and its clip to the
      cached files exactly when it has a preview. */
  lemma KeptStep(tracks: seq<Track>, t: nat, home: string, files: set<string>)
    requires t < |tracks|
    ensures Previewed(tracks[..t + 1])
            == Previewed(tracks[..t]) + (if tracks[t].previewUrl.Some? then [tracks[t]] else [])
    ensures files + Clips(home, tracks[..t + 1])
            == (files + Clips(home, tracks[..t])) + (if tracks[t].previewUrl.Some? then {ClipPath(home, tracks[t].id)} else {})
  {
    assert tracks[..t + 1][..t] == tracks[..t];
  }

  /** Slots filled up to `i` and null from there on have a null tail. */
  lemma NullTailFrom(s: seq<SpotifySong?>, i: nat)
    requires i <= |s|
    requires forall k :: 0 <= k < i ==> s[k] != null
    requires forall k :: i <= k < |s| ==> s[k] == null
    ensures NullTail(s)
  {
  }

  /** One pass of the constructor's loop: the track made into a SpotifySong
      (its clip cached) that goes into slot `i`, or dropped for want of a
      preview; a track without artists fails. The slots before `i` keep
      their songs and those after the last filled one are untouched. */
  method TakeTrack(slots: array<SpotifySong?>, i: nat, track: Track, home: string,
                   files: set<string>, ghost kept: seq<Track>)
    returns (o: Outcome, next: nat, cached: set<string>)
    requires i < slots.Length && |kept| == i
    requires forall k :: 0 <= k < i ==> MadeFrom(slots[k], kept[k], home)
    modifies slots
    ensures o.Fail? <==> track.artistNames == []
    ensures o.Fail? ==> o.error == IndexOutOfBounds && cached == files
    ensures o.Pass? ==>
              var took := if track.previewUrl.Some? then [track] else [];
              && next == i + |took|
              && cached == files + (if track.previewUrl.Some? then {ClipPath(home, track.id)} else {})
              && (forall k :: 0 <= k < next ==> MadeFrom(slots[k], (kept + took)[k], home))
              && (forall k :: next <= k < slots.Length ==> slots[k] == old(slots[k]))
  {
    var s;
    s, cached := FromTrack(track, home, files);
    next := i;
    if s.Err? && s.error != NoPreview {
      return Fail(s.error), next, cached;
    }
    o := Pass;
    if s.Ok? {
      slots[i] := s.value;
      next := i + 1;
    }
  }

  /** The loop of `new SorterPlaylist(sapi, url)`: each track is made into a
      SpotifySong (its clip cached) that goes into the next free slot; a track
      without a preview is dropped, and any other error ends the loop. */
  method FillSlots(slots: array<SpotifySong?>, tracks: seq<Track>, home: string, files: set<string>)
    returns (o: Outcome, cached: set<string>)
    requires slots.Length == |tracks| && forall k :: 0 <= k < |tracks| ==> slots[k] == null
    modifies slots
    ensures o.Fail? <==> exists k :: 0 <= k < |tracks| && tracks[k].artistNames == []
    ensures o.Fail? ==> o.error == IndexOutOfBounds
    ensures o.Fail? ==>
              exists k :: 0 <= k < |tracks| && tracks[k].artistNames == []
                && (forall j :: 0 <= j < k ==> tracks[j].artistNames != [])
                && cached == files + Clips(home, tracks[..k])
    ensures o.Pass? ==>
              var kept := Previewed(tracks);
              && cached == files + Clips(home, tracks) && NullTail(slots[..])
              && (forall k :: |kept| <= k < |tracks| ==> slots[k] == null)
              && (forall k :: 0 <= k < |kept| ==> MadeFrom(slots[k], kept[k], home))
  {
    cached := files;
    var i := 0;
    var t := 0;
    ghost var kept: seq<Track> := [];
    while t < |tracks|
      invariant 0 <= t <= |tracks|
      invariant kept == Previewed(tracks[..t]) && i == |kept| && i <= t
      invariant forall k :: 0 <= k < t ==> tracks[k].artistNames != []
      invariant cached == files + Clips(home, tracks[..t])
      invariant forall k :: i <= k < |tracks| ==> slots[k] == null
      invariant forall k :: 0 <= k < i ==> MadeFrom(slots[k], kept[k], home)
    {
      KeptStep(tracks, t, home, files);
      var step;
      step, i, cached := TakeTrack(slots, i, tracks[t], home, cached, kept);
      if step.Fail? {
        assert tracks[t].artistNames == [];
        return step, cached;
      }
      kept := Previewed(tracks[..t + 1]);
      t := t + 1;
    }
    assert tracks[..t] == tracks;
    NullTailFrom(slots[..], i);
    o := Pass;
  }

  /** `new SorterPlaylist(sapi, url)`, with the Web API as `fetch`: the id
      from the link, the playlist fetched by it, one slot per track, and each
      track made into a SpotifySong (its clip cached) into the next free slot.
      A track without a preview raises NoPreviewException, which is caught:
      the slot index is not advanced and the song is dropped. Any other error
      ends construction. */
  method FromUrl(url: string, fetch: string -> PlaylistData, home: string, files: set<string>)
    returns (r: Result<SorterPlaylist>, cached: set<string>)
    ensures GetPlaylistID(url).Err? ==> r == Err(GetPlaylistID(url).error) && cached == files
    ensures GetPlaylistID(url).Ok? ==>
              var data := fetch(GetPlaylistID(url).value);
              var kept := Previewed(data.tracks);
              && (r.Err? <==> exists k :: 0 <= k < |data.tracks| && data.tracks[k].artistNames == [])
              && (r.Err? ==> r.error == IndexOutOfBounds)
              && (r.Err? ==>
                    exists k :: 0 <= k < |data.tracks| && data.tracks[k].artistNames == []
                      && (forall j :: 0 <= j < k ==> data.tracks[j].artistNames != [])
                      && cached == files + Clips(home, data.tracks[..k]))
              && (r.Ok? ==>
                    var p := r.value;
                    && fresh(p) && fresh(p.songs) && p.Valid()
                    && p.name == data.name && p.songs.Length == |data.tracks|
                    && cached == files + Clips(home, data.tracks)
                    && (forall k :: |kept| <= k < p.songs.Length ==> p.songs[k] == null)
                    && (forall k :: 0 <= k < |kept| ==> MadeFrom(p.songs[k], kept[k], home)))
  {
    var id := GetPlaylistID(url);
    if id.Err? {
      return Err(id.error), files;
    }
    var data := fetch(id.value);
    var tracks := data.tracks;
    var p := new SorterPlaylist(data.name, |tracks|);
    var o;
    o, cached := FillSlots(p.songs, tracks, home, files);
    if o.Fail? {
      return Err(o.error), cached;
    }
    r := Ok(p);
  }
}
