/** SpotifySong: a Song whose clip is the track's 30-second preview, cached
    under the cache root and named after the track id, with the Spotify
    metadata kept beside it. The Web API, the image and the byte copy of the
    download are not modelled: a track is the record the API returns, and the
    file system is the set of paths that exist. */
module SpotifySongs {
  import opened Common
  import opened JavaStrings
  import opened EmotionPoints
  import opened PythonEnv
  import opened Songs

  // ---------------------------------------------------------------------------
  // Links

  const TrackMarker: string := "open.spotify.com/track/"

  /** The id in a share link: the text after the first `marker`, up to the
      first '?' (`url.substring(idx + marker.length()).split("\\?")[0]`).
      No marker raises IllegalArgumentException; a remainder made only of '?'
      splits into nothing and raises ArrayIndexOutOfBoundsException. */
  function IdAfter(url: string, marker: string): (r: Result<string>)
    ensures r == Err(IllegalArgument) <==> IndexOf(url, marker) == -1
    ensures r == Err(IndexOutOfBounds) <==>
              var idx := IndexOf(url, marker);
              idx != -1 && |url| > idx + |marker|
              && forall i :: idx + |marker| <= i < |url| ==> url[i] == '?'
    ensures r.Ok? ==>
              var rest := url[IndexOf(url, marker) + |marker|..];
              r.value <= rest && '?' !in r.value && (|r.value| == |rest| || rest[|r.value|] == '?')
  {
    var idx := IndexOf(url, marker);
    if idx == -1 then Err(IllegalArgument)
    else
      var rest := url[idx + |marker|..];
      SplitEmpty(rest, '?');
      assert (forall i :: 0 <= i < |rest| ==> rest[i] == '?')
             <==> (forall i :: idx + |marker| <= i < |url| ==> url[i] == '?') by {
        forall i | idx + |marker| <= i < |url| ensures url[i] == rest[i - idx - |marker|] { }
      }
      var pieces := Split(rest, '?');
      if pieces == [] then Err(IndexOutOfBounds)
      else
        SplitHead(rest, '?');
        Ok(pieces[0])
  }

  /** `getSongID(url)`: IllegalArgumentException exactly when the link holds
      no track marker; otherwise an id free of '?' that directly follows the
      first marker. */
  function GetSongID(url: string): (r: Result<string>)
    ensures r == Err(IllegalArgument) <==> forall i :: !OccursAt(url, TrackMarker, i)
    ensures r.Ok? ==> '?' !in r.value && OccursAt(url, TrackMarker + r.value, IndexOf(url, TrackMarker))
    ensures r == IdAfter(url, TrackMarker)
  {
    var idx := IndexOf(url, TrackMarker);
    var r := IdAfter(url, TrackMarker);
    if r.Err? then r
    else
      assert url[idx..idx + |TrackMarker| + |r.value|] == TrackMarker + r.value by {
        assert url[idx..idx + |TrackMarker|] == TrackMarker;
        assert url[idx + |TrackMarker|..][..|r.value|] == r.value;
      }
      r
  }

  /** `isSong(s)`: the marker occurs at an index greater than 0, that is, it
      occurs, but not at the very start. */
  predicate IsSong(s: string)
    ensures IsSong(s) <==> !OccursAt(s, TrackMarker, 0) && exists i :: OccursAt(s, TrackMarker, i)
  {
    IndexOf(s, TrackMarker) > 0
  }

  /** The id of a link `prefix + marker + id + rest` is `id` when the first
      marker is the one after `prefix` and `rest` is empty or a query. */
  lemma IdOfLink(prefix: string, marker: string, id: string, rest: string)
    requires id != [] && '?' !in id && (rest == [] || rest[0] == '?')
    requires IndexOf(prefix + marker + id + rest, marker) == |prefix|
    ensures IdAfter(prefix + marker + id + rest, marker) == Ok(id)
  {
    var url := prefix + marker + id + rest;
    assert url[|prefix| + |marker|..] == id + rest;
    assert url[|prefix| + |marker|] == id[0];
    var r := IdAfter(url, marker).value;
    assert r <= id + rest;
    forall k | 0 <= k < |id| ensures (id + rest)[k] != '?' {
      assert (id + rest)[k] == id[k] && id[k] in id;
    }
    forall k | 0 <= k < |r| ensures r[k] != '?' && r[k] == (id + rest)[k] {
      assert r[k] in r;
    }
    assert rest != [] ==> (id + rest)[|id|] == '?';
    assert |r| == |id|;
    assert r == (id + rest)[..|id|] == id;
  }

  /** A share link "https://open.spotify.com/track/<id>?<query>" yields <id>. */
  lemma ShareLinkId(id: string, query: string)
    requires id != [] && '?' !in id
    ensures GetSongID("https://" + TrackMarker + id + "?" + query) == Ok(id)
  {
    var url := "https://" + TrackMarker + id + "?" + query;
    assert OccursAt(url, TrackMarker, 8) by {
      assert url[8..8 + |TrackMarker|] == TrackMarker;
    }
    forall i | 0 <= i < 8 ensures !OccursAt(url, TrackMarker, i) {
      assert url[i] != 'o';
      assert url[i..i + |TrackMarker|][0] == url[i];
    }
    assert url == "https://" + TrackMarker + id + ("?" + query);
    IdOfLink("https://", TrackMarker, id, "?" + query);
  }

  /** `isSong` and `getSongID` disagree on a link that starts with the marker:
      the id is found, yet the text is not recognised as a song link. A link
      that is recognised always has an id or the index error. */
  lemma IsSongRejectsBareMarker(id: string)
    requires id != [] && '?' !in id
    ensures !IsSong(TrackMarker + id)
    ensures GetSongID(TrackMarker + id) == Ok(id)
  {
    var url := TrackMarker + id;
    assert OccursAt(url, TrackMarker, 0) by { assert url[..|TrackMarker|] == TrackMarker; }
    assert url == [] + TrackMarker + id + [];
    IdOfLink([], TrackMarker, id, []);
  }

  lemma IsSongHasMarker(s: string)
    requires IsSong(s)
    ensures GetSongID(s) != Err(IllegalArgument)
  {
  }

  // ---------------------------------------------------------------------------
  // Artists

  /** The names with `sep` between consecutive ones. */
  function JoinWith(names: seq<string>, sep: string): string
    requires |names| >= 1
  {
    if |names| == 1 then names[0] else names[0] + sep + JoinWith(names[1..], sep)
  }

  /** What the StringBuilder holds after the loop: every name followed by `sep`. */
  function Suffixed(names: seq<string>, sep: string): string
  {
    if names == [] then [] else names[0] + sep + Suffixed(names[1..], sep)
  }

  lemma {:induction false} SuffixedIsJoinPlusSep(names: seq<string>, sep: string)
    requires |names| >= 1
    ensures Suffixed(names, sep) == JoinWith(names, sep) + sep
    decreases |names|
  {
    if |names| > 1 {
      SuffixedIsJoinPlusSep(names[1..], sep);
    }
  }

  lemma {:induction false} SuffixedAppend(names: seq<string>, i: nat, sep: string)
    requires i < |names|
    ensures Suffixed(names[..i + 1], sep) == Suffixed(names[..i], sep) + names[i] + sep
    decreases i
  {
    if i > 0 {
      assert names[..i + 1][1..] == names[1..][..i];
      assert names[..i][1..] == names[1..][..i - 1];
      SuffixedAppend(names[1..], i - 1, sep);
    } else {
      assert names[..1] == [names[0]];
    }
  }

  /** The artists loop: append each name and `sep`, then cut the last `sep`
      off; with no artists the cut raises StringIndexOutOfBoundsException. */
  method JoinArtists(names: seq<string>, sep: string) returns (r: Result<string>)
    requires sep != []
    ensures names == [] ==> r == Err(IndexOutOfBounds)
    ensures names != [] ==> r == Ok(JoinWith(names, sep))
  {
    var builder := "";
    var i := 0;
    while i < |names|
      invariant 0 <= i <= |names|
      invariant builder == Suffixed(names[..i], sep)
    {
      SuffixedAppend(names, i, sep);
      builder := builder + names[i] + sep;
      i := i + 1;
    }
    assert names[..i] == names;
    if |builder| < |sep| {
      return Err(IndexOutOfBounds);
    }
    if names != [] {
      SuffixedIsJoinPlusSep(names, sep);
    }
    r := Ok(builder[..|builder| - |sep|]);
  }

  /** Names joined with "," and split again at ',' are the names, when none
      holds a comma and the last is non-empty. */
  lemma {:induction false} ArtistsSplitBack(names: seq<string>)
    requires |names| >= 1 && names[|names| - 1] != []
    requires forall k :: 0 <= k < |names| ==> ',' !in names[k]
    ensures Split(JoinWith(names, ","), ',') == names
  {
    JoinWithChar(names, ',');
    SplitJoin(names, ',');
  }

  lemma {:induction false} JoinWithChar(names: seq<string>, c: char)
    requires |names| >= 1
    ensures JoinWith(names, [c]) == Join(names, c)
    decreases |names|
  {
    if |names| > 1 {
      JoinWithChar(names[1..], c);
    }
  }

  // ---------------------------------------------------------------------------
  // The song

  /** What the Web API returns for a track, as far as the song reads it. */
  datatype Track = Track(href: string, previewUrl: Option<string>, albumName: string,
                         id: string, artistNames: seq<string>, name: string)

  /** `OUTPUT_PATH + id + ".mp3"`. */
  function ClipPath(home: string, id: string): string
  {
    OutputPath(home) + id + ".mp3"
  }

  function Abs(x: real): real { if x < 0.0 then -x else x }

  /** `Math.pow(x, n)` for a natural exponent. */
  function Pow(x: real, n: nat): real
  {
    if n == 0 then 1.0 else x * Pow(x, n - 1)
  }

  /** `Math.pow(x, 2) + Math.pow(y, 2)` for the absolute differences x and y
      of the two averages: the square of `distance`. */
  function SquaredDistance(a1: real, v1: real, a2: real, v2: real): (d: real)
  {
    var x := Abs(a1 - a2);
    var y := Abs(v1 - v2);
    Pow(x, 2) + Pow(y, 2)
  }

  /** What `Math.sqrt` is taken to be on non-negative arguments. */
  ghost predicate IsSqrt(sqrt: real -> real)
  {
    forall x :: x >= 0.0 ==> sqrt(x) >= 0.0 && Pow(sqrt(x), 2) == x
  }

  class SpotifySong {
    /** The Song this object also is: path, title and emotions. */
    const song: Song
    var url: string
    var previewUrl: Option<string>
    var album: string
    var id: string
    var artists: string

    constructor (url: string, track: Track, artists: string)
      ensures this.url == url && previewUrl == track.previewUrl && album == track.albumName
      ensures id == track.id && this.artists == artists
      ensures fresh(song) && song.title == track.name && song.emotions == None
    {
      this.url := url;
      previewUrl := track.previewUrl;
      album := track.albumName;
      id := track.id;
      this.artists := artists;
      song := new Song([], track.name);
    }

    /** `cacheSongClip()`: without a preview, NoPreviewException before anything
        changes; otherwise the song's path becomes the cache path, the clip is
        downloaded only when that file does not exist yet, and the path is
        returned either way. `cached` is the set of existing paths afterwards. */
    method CacheSongClip(home: string, files: set<string>)
      returns (r: Result<string>, downloaded: bool, cached: set<string>)
      modifies song`filePath
      ensures previewUrl.None? ==>
                r == Err(NoPreview) && !downloaded && cached == files
                && song.filePath == old(song.filePath)
      ensures previewUrl.Some? ==>
                r == Ok(ClipPath(home, id)) && song.filePath == ClipPath(home, id)
                && (downloaded <==> ClipPath(home, id) !in files)
                && cached == files + {ClipPath(home, id)}
    {
      if previewUrl.None? {
        return Err(NoPreview), false, files;
      }
      var fullOutFP := ClipPath(home, id);
      song.SetFilePath(fullOutFP);
      downloaded := fullOutFP !in files;
      cached := files;
      if downloaded {
        cached := cached + {fullOutFP};
        song.SetFilePath(fullOutFP);
      }
      r := Ok(fullOutFP);
    }

    /** `updateEmotions(penv)`: only `setEmotions`, so a scored song is not
        scored again. */
    method UpdateEmotions(penv: PythonEnvHandler, exec: Command -> Process, parse: string -> Option<real>)
      returns (o: Outcome, ran: bool)
      modifies song`emotions
      ensures old(song.emotions).Some? ==> o == Pass && !ran && song.emotions == old(song.emotions)
      ensures old(song.emotions).None? ==>
                ran &&
                match Score(penv.python, penv.home, song.filePath, exec, parse)
                case Ok(es) => o == Pass && song.emotions == Some(es)
                case Err(e) => o == Fail(e) && song.emotions == None
    {
      o, ran := song.SetEmotions(penv, exec, parse);
    }

    /** Both songs are scored, so `distance` is defined. */
    predicate Scored(other: SpotifySong)
      reads this, song, other, other.song
    {
      && song.emotions.Some? && |song.emotions.value| > 0
      && other.song.emotions.Some? && |other.song.emotions.value| > 0
    }

    /** `distance(s)`: the Euclidean distance of the two average points, a
        non-negative number whose square is the squared distance. */
    function Distance(other: SpotifySong, sqrt: real -> real): (r: real)
      reads this, song, other, other.song
      requires Scored(other)
      ensures IsSqrt(sqrt) ==>
                r >= 0.0 && Pow(r, 2) == SquaredDistance(song.AverageArousal(), song.AverageValence(),
                                                        other.song.AverageArousal(), other.song.AverageValence())
    {
      var d := SquaredDistance(song.AverageArousal(), song.AverageValence(),
                               other.song.AverageArousal(), other.song.AverageValence());
      SquaredDistanceMetric(song.AverageArousal(), song.AverageValence(),
                            other.song.AverageArousal(), other.song.AverageValence());
      sqrt(d)
    }
  }

  /** A number times itself is never negative, and zero only at zero. */
  lemma SelfProduct(a: real, b: real)
    requires a == b
    ensures a * b >= 0.0
    ensures a * b > 0.0 <==> a != 0.0
  {
    if a < 0.0 {
      assert a * b == (-a) * (-b);
    }
  }

  /** A square is never negative, and zero only at zero. */
  lemma {:induction false} SquareSign(x: real)
    ensures Pow(x, 2) >= 0.0
    ensures Pow(x, 2) > 0.0 <==> x != 0.0
  {
    var p := Pow(x, 1);
    assert p == x * Pow(x, 0);
    SelfProduct(x, p);
    assert Pow(x, 2) == x * p;
  }

  /** The square of the distance is symmetric, never negative, and positive
      exactly when the two points differ in a coordinate. */
  lemma SquaredDistanceMetric(a1: real, v1: real, a2: real, v2: real)
    ensures SquaredDistance(a1, v1, a2, v2) == SquaredDistance(a2, v2, a1, v1)
    ensures SquaredDistance(a1, v1, a2, v2) >= 0.0
    ensures SquaredDistance(a1, v1, a2, v2) > 0.0 <==> a1 != a2 || v1 != v2
  {
    var x, y := Abs(a1 - a2), Abs(v1 - v2);
    SquareSign(x);
    SquareSign(y);
  }

  /** `distance` is symmetric and non-negative, and positive exactly when the
      two songs differ in average arousal or average valence. */
  lemma DistanceMetric(s: SpotifySong, t: SpotifySong, sqrt: real -> real)
    requires IsSqrt(sqrt) && s.Scored(t)
    ensures t.Scored(s)
    ensures s.Distance(t, sqrt) == t.Distance(s, sqrt)
    ensures s.Distance(t, sqrt) >= 0.0
    ensures s.Distance(t, sqrt) > 0.0 <==>
              s.song.AverageArousal() != t.song.AverageArousal()
              || s.song.AverageValence() != t.song.AverageValence()
  {
    var a1, v1 := s.song.AverageArousal(), s.song.AverageValence();
    var a2, v2 := t.song.AverageArousal(), t.song.AverageValence();
    SquaredDistanceMetric(a1, v1, a2, v2);
    var d := SquaredDistance(a1, v1, a2, v2);
    assert sqrt(d) >= 0.0 && Pow(sqrt(d), 2) == d;
    SquareSign(sqrt(d));
  }

  /** `new SpotifySong(track)`: the track's metadata, its artists joined with
      ", ", its name as title, then `cacheSongClip()`; a missing preview raises
      NoPreviewException and no track artists the index exception. */
  method FromTrack(track: Track, home: string, files: set<string>)
    returns (r: Result<SpotifySong>, cached: set<string>)
    ensures track.artistNames == [] ==> r == Err(IndexOutOfBounds) && cached == files
    ensures track.artistNames != [] && track.previewUrl.None? ==> r == Err(NoPreview) && cached == files
    ensures track.artistNames != [] && track.previewUrl.Some? ==>
              && r.Ok? && fresh(r.value) && fresh(r.value.song)
              && r.value.url == track.href && r.value.id == track.id
              && r.value.album == track.albumName && r.value.previewUrl == track.previewUrl
              && r.value.artists == JoinWith(track.artistNames, ", ")
              && r.value.song.title == track.name && r.value.song.emotions == None
              && r.value.song.filePath == ClipPath(home, track.id)
              && cached == files + {ClipPath(home, track.id)}
  {
    var artists := JoinArtists(track.artistNames, ", ");
    if artists.Err? {
      return Err(artists.error), files;
    }
    var s := new SpotifySong(track.href, track, artists.value);
    var clip, downloaded;
    clip, downloaded, cached := s.CacheSongClip(home, files);
    if clip.Err? {
      return Err(clip.error), cached;
    }
    r := Ok(s);
  }

  /** `new SpotifySong(sapi, url)`: the id from the link (IllegalArgumentException
      without the track marker), the track fetched by that id, the artists
      joined with ",", the title, then `cacheSongClip()`. */
  method FromUrl(url: string, fetch: string -> Track, home: string, files: set<string>)
    returns (r: Result<SpotifySong>, cached: set<string>)
    ensures GetSongID(url).Err? ==> r == Err(GetSongID(url).error) && cached == files
    ensures GetSongID(url).Ok? ==>
              var track := fetch(GetSongID(url).value);
              && (track.artistNames == [] ==> r == Err(IndexOutOfBounds) && cached == files)
              && (track.artistNames != [] && track.previewUrl.None? ==> r == Err(NoPreview) && cached == files)
              && (track.artistNames != [] && track.previewUrl.Some? ==>
                    && r.Ok? && fresh(r.value) && fresh(r.value.song)
                    && r.value.url == url && r.value.id == track.id
                    && r.value.album == track.albumName && r.value.previewUrl == track.previewUrl
                    && r.value.artists == JoinWith(track.artistNames, ",")
                    && r.value.song.title == track.name && r.value.song.emotions == None
                    && r.value.song.filePath == ClipPath(home, track.id)
                    && cached == files + {ClipPath(home, track.id)})
  {
    var id := GetSongID(url);
    if id.Err? {
      return Err(id.error), files;
    }
    var track := fetch(id.value);
    var artists := JoinArtists(track.artistNames, ",");
    if artists.Err? {
      return Err(artists.error), files;
    }
    var s := new SpotifySong(url, track, artists.value);
    var clip, downloaded;
    clip, downloaded, cached := s.CacheSongClip(home, files);
    if clip.Err? {
      return Err(clip.error), cached;
    }
    r := Ok(s);
  }

  /** A second `cacheSongClip()` on the same song finds the file the first one
      left and downloads nothing. */
  method CacheTwice(s: SpotifySong, home: string, files: set<string>)
    returns (first: bool, second: bool)
    modifies s.song`filePath
    ensures s.previewUrl.Some? ==> !second
    ensures s.previewUrl.Some? ==> (first <==> ClipPath(home, s.id) !in files)
  {
    var r1, r2, cached;
    r1, first, cached := s.CacheSongClip(home, files);
    r2, second, cached := s.CacheSongClip(home, cached);
  }
}
