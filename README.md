# songsorter core, modelled in Dafny

songsorter takes a Spotify playlist or a local mp3 and scores each song's
emotion. A Python scorer running in a virtual environment emits one
(arousal, valence) point per half-second of audio. The tool averages those
points and names the mood on a twelve-sector circumplex wheel. It then
orders a playlist by a nearest-neighbour walk through (arousal, valence)
space. This project models the core of that system and proves properties
of the model:

- `EmotionPoints` (emotion_point.dfy) models the (arousal, valence) point
  and its mapping from an angle to a mood label (`EmotionPoint.java`).
- `Songs` (song.dfy) models a song:
  - its title taken from its path;
  - its set-once emotion samples;
  - the arousal and valence projections and their averages;
  - its mood (`Song.java`).
- `SpotifySongs` (spotify_song.dfy) models a Spotify track song (`SpotifySong.java`):
  - the track id cut from a share link;
  - the joined artist names;
  - clip caching, modelled over a set of cached paths;
  - the Euclidean distance between two songs.
- `PythonEnv` (python_env_handler.dfy) models the Python environment
  handler (`PythonEnvHandler.java`):
  - the bootstrap commands and their exit codes;
  - package installation;
  - running the scorer;
  - clearing the cache;
  - the parser of the printed PyTorch tensor.
- `Playlists` (sorter_playlist.dfy) models the playlist
  (`SorterPlaylist.java`):
  - its link check;
  - its construction from tracks, where tracks without a preview are
    dropped and the remaining slots are left null;
  - per-song scoring and averages;
  - its queue view;
  - the nearest-neighbour sort.
- `Queues` (array_queue.dfy) models the fixed-capacity circular queue
  (`ArrayQueue.java`, `QueueInterface.java`) as a class over an array, with
  its contents given as a ghost window of the array.
- `JavaStrings` (java_strings.dfy) models the Java string operations the
  core relies on: `indexOf`, `lastIndexOf`, `split` with a one-character
  pattern, and `strip`.
- `Common` (common.dfy) holds `Option`, `Result`, `Outcome` and the
  exceptions the core raises, as an `Error` datatype.

Doubles are modelled as `real`. The following are parameters of the
operations that use them:
- `Math.atan`/`Math.atan2` in degrees, pinned down by the predicates
  `IsAtanDegrees`/`IsAtan2Degrees`;
- `Math.sqrt`, pinned down by `IsSqrt`;
- `Double.parseDouble`;
- `Runtime.exec`, as a map from a command to an exit code and output lines;
- the Spotify Web API fetches, as maps from an id to a track or a playlist;
- the song-distance function handed to the sort;
- `Math.random`, whose pick is the sort's `start` argument.

Exceptions become `Err`/`Fail` values.

Where the described intent of the system and the code disagree, the model
follows the code, and "## Findings" pairs each such member with a corrected
one:
- `parseOut` silently drops an odd trailing token and returns an empty
  array for an empty tensor body, where a parse error is meant
  (`PythonEnv.ParseOutChecked` is the corrected parser).
- `peek` does not check for emptiness.
- The array constructor of `ArrayQueue` breaks first-in first-out order
  after a dequeue and an enqueue.
- `asEmotion` uses the single-argument arc tangent and swaps the axes.

Some behaviour as written that the contracts state:
- `new SorterPlaylist` catches only the missing preview. A track with no
  artists raises `StringIndexOutOfBoundsException` out of the constructor,
  after the clips of the tracks before it are cached.
- `avgArousals` and `avgValences` raise `NullPointerException` on a playlist
  with an unscored song. The playlist view draws its chart
  (`Main.java:573`) right after building the playlist, and nothing on that
  path scores the songs.
- The sort's start is drawn by retrying random slots until a non-null one
  comes up.

## Model

| member | source | states |
|---|---|---|
| EmotionPoints.Divide | src/main/java/songsorter/music/EmotionPoint.java:47 | the double quotient arousal/valence is NaN exactly when both are zero, and the real quotient whenever valence is non-zero |
| EmotionPoints.Theta | src/main/java/songsorter/music/EmotionPoint.java:47 | the angle is NaN exactly at the origin, and with a genuine arc tangent it never leaves [-90, 90] |
| EmotionPoints.AsEmotion | src/main/java/songsorter/music/EmotionPoint.java:46-88 | Unknown if and only if arousal and valence are both zero, otherwise a wheel label; with a genuine arc tangent only Satisfied, Enthusiastic, Energetic or Activated (the other eight labels are unreachable) |
| EmotionPoints.Sector | src/main/java/songsorter/music/EmotionPoint.java:49-87 | the label is Unknown exactly when the angle is NaN (no else-if sector matches) |
| EmotionPoints.SectorNamesEveryAngle | src/main/java/songsorter/music/EmotionPoint.java:49-84 | every defined angle, including negative ones and ones beyond 360, gets one of the twelve wheel labels |
| EmotionPoints.SatisfiedArc | src/main/java/songsorter/music/EmotionPoint.java:49-51 | Satisfied covers exactly the angles at most 15 or above 345 degrees |
| EmotionPoints.LabelArc | src/main/java/songsorter/music/EmotionPoint.java:52-84 | the k-th wheel label (k = 1..11) covers exactly the half-open arc (15+30(k-1), 15+30k] |
| EmotionPoints.AtanConflatesOppositeQuadrants | src/main/java/songsorter/music/EmotionPoint.java:47 | as written, (1, 1) and (-1, -1) both come out Enthusiastic |
| EmotionPoints.CorrectedKeepsArousalHalves | src/main/java/songsorter/music/EmotionPoint.java:47-87 | with the two-argument arctangent, positive arousal lands in the upper half of the wheel and negative arousal in the lower half; (-1, -1) is Sad |
| Songs.TitleOf | src/main/java/songsorter/music/Song.java:30-35 | the title raises an index exception exactly when the path is non-empty and made only of slashes; otherwise it contains no slash |
| Songs.TitleIsFileName | src/main/java/songsorter/music/Song.java:33-34 | the title of dir/name is name |
| Songs.TitleOfBareName | src/main/java/songsorter/music/Song.java:33-34 | a path without a slash is its own title |
| Songs.TitleIgnoresTrailingSlash | src/main/java/songsorter/music/Song.java:33-34 | a trailing slash does not change the title |
| Songs.NewSong | src/main/java/songsorter/music/Song.java:30-35 | fails exactly when the title does; otherwise a fresh song with that path and title and no emotions |
| Songs.NewScoredSong | src/main/java/songsorter/music/Song.java:46-53 | the title error first, then the scorer's or parser's error; otherwise a fresh song holding exactly the scored samples |
| Songs.Song.SetFilePath | src/main/java/songsorter/music/Song.java:68-70 | the path becomes the argument and nothing else changes |
| Songs.Song.SetTitle | src/main/java/songsorter/music/Song.java:84-86 | the title becomes the argument and nothing else changes |
| Songs.Song.SetEmotions | src/main/java/songsorter/music/Song.java:103-107 | set once: with emotions already present nothing runs and they stay; otherwise the scorer runs and the emotions become its parsed output, or stay absent with its error |
| Songs.Arousals | src/main/java/songsorter/music/Song.java:113-115 | same length as the samples, the i-th entry is the i-th sample's arousal |
| Songs.Valences | src/main/java/songsorter/music/Song.java:121-123 | same length as the samples, the i-th entry is the i-th sample's valence |
| Songs.ProjectionsZip | src/main/java/songsorter/music/Song.java:113-123 | the two projections lose nothing: zipping them back gives the samples |
| Songs.Song.AverageArousal | src/main/java/songsorter/music/Song.java:129-131 | the average arousal lies between the arousals of two of the samples |
| Songs.Song.AverageValence | src/main/java/songsorter/music/Song.java:137-139 | the average valence lies between the valences of two of the samples |
| Songs.Song.AsEmotion | src/main/java/songsorter/music/Song.java:147-149 | Unknown exactly when both averages are zero; with a genuine arc tangent otherwise Satisfied, Enthusiastic, Energetic or Activated |
| Songs.MeanBounds | src/main/java/songsorter/music/Song.java:129-139 | the average of non-empty samples lies between any lower and upper bound of the samples |
| Songs.MeanOfConstant | src/main/java/songsorter/music/Song.java:129-139 | the average of constant samples is that constant |
| Songs.AsEmotionSwapsAxes | src/main/java/songsorter/music/Song.java:147-149 | as written, a song whose one sample is (arousal 1, valence 0) is labelled Satisfied, while the corrected argument order labels it Activated |
| Queues.ArrayQueue.constructor | src/main/java/songsorter/queue/ArrayQueue.java:23-29 | an empty queue of capacity n with back one slot before front |
| Queues.ArrayQueue.FromArray | src/main/java/songsorter/queue/ArrayQueue.java:31-37 | a full queue over the caller's own array, contents the array in order, with back = length, so aligned only for length 0 or 1 |
| Queues.ArrayQueue.FromArrayAligned | src/main/java/songsorter/queue/ArrayQueue.java:31-37 | the corrected array constructor: full, contents the array in order, and aligned |
| Queues.ArrayQueue.Size | src/main/java/songsorter/queue/ArrayQueue.java:43-46 | the number of queued elements |
| Queues.ArrayQueue.IsEmpty | src/main/java/songsorter/queue/ArrayQueue.java:52-55 | true exactly when nothing is queued |
| Queues.ArrayQueue.IsFull | src/main/java/songsorter/queue/ArrayQueue.java:61-63 | true exactly when the queue holds capacity elements |
| Queues.ArrayQueue.Peek | src/main/java/songsorter/queue/ArrayQueue.java:69-72 | as written: the head when there is one; never NoSuchElementException, only an index exception at capacity 0 |
| Queues.ArrayQueue.PeekChecked | src/main/java/songsorter/queue/QueueInterface.java:24-28 | the corrected peek: the head when non-empty, NoSuchElementException exactly when empty |
| Queues.ArrayQueue.Enqueue | src/main/java/songsorter/queue/ArrayQueue.java:79-87 | a full queue raises QueueOverflow and is unchanged; otherwise back advances with wrap-around, the slot is written, and on an aligned queue the contents gain x at the end; alignment is preserved |
| Queues.ArrayQueue.Dequeue | src/main/java/songsorter/queue/ArrayQueue.java:94-103 | an empty queue raises NoSuchElementException and is unchanged; otherwise it returns the head and the contents lose it; alignment is preserved |
| Queues.WindowPush | src/main/java/songsorter/queue/ArrayQueue.java:84-86 | writing the slot after the last queued one appends to the circular window |
| Queues.WindowPop | src/main/java/songsorter/queue/ArrayQueue.java:99-101 | advancing front with wrap-around drops the head of the window |
| Queues.Drain | src/main/java/songsorter/Main.java:576-582 | dequeuing until empty yields the queue's contents in order and leaves it empty |
| Queues.CapacityThree | src/main/java/songsorter/queue/ArrayQueue.java:23-103 | a capacity-3 queue refuses a fourth element, yields its three in first-in first-out order, then raises on empty |
| Queues.FromArrayOverwrites | src/main/java/songsorter/queue/ArrayQueue.java:31-37 | as written, over [p, q, r]: dequeue gives p, enqueue x overwrites q, and the rest drains as x, r, p |
| Queues.FromArrayAlignedKeepsOrder | src/main/java/songsorter/queue/ArrayQueue.java:31-37 | corrected, the same steps drain as q, r, x |
| JavaStrings.IndexOf | src/main/java/songsorter/music/SpotifySong.java:200 | -1 or the first position where the pattern occurs, with no earlier occurrence |
| JavaStrings.IndexOfChar | src/main/java/songsorter/python/PythonEnvHandler.java:218 | -1 or the first position of the character, with no earlier one |
| JavaStrings.LastIndexOf | src/main/java/songsorter/python/PythonEnvHandler.java:214 | -1 or the last position of the character, with no later one |
| JavaStrings.Split | src/main/java/songsorter/music/Song.java:33 | no piece holds the separator; a string without it is one piece; otherwise the last piece is non-empty; joined with the separator the pieces give the string up to separators at its end |
| JavaStrings.Strip | src/main/java/songsorter/python/PythonEnvHandler.java:219 | the result neither starts nor ends with white space and is a slice of the string with only white space cut off on either side |
| JavaStrings.SplitEmpty | src/main/java/songsorter/music/Song.java:33-34 | split yields no pieces exactly when the string is non-empty and made only of separators |
| JavaStrings.SplitHead | src/main/java/songsorter/music/SpotifySong.java:203 | the first piece is a separator-free prefix ending at the first separator or at the end |
| JavaStrings.SplitLast | src/main/java/songsorter/music/Song.java:33-34 | the last piece of dir/name is name |
| JavaStrings.SplitTrailingSeparator | src/main/java/songsorter/music/Song.java:33-34 | one trailing separator does not change the pieces of a string that is not all separators |
| JavaStrings.SplitJoin | src/main/java/songsorter/python/PythonEnvHandler.java:215 | splitting the join of separator-free pieces, the last non-empty, gives the pieces back |
| JavaStrings.StripLeadingCuts | src/main/java/songsorter/python/PythonEnvHandler.java:219 | leading strip removes exactly a whitespace prefix, leaving none at the front |
| JavaStrings.StripTrailingCuts | src/main/java/songsorter/python/PythonEnvHandler.java:219 | trailing strip removes exactly a whitespace suffix, leaving none at the end |
| JavaStrings.StripPadded | src/main/java/songsorter/python/PythonEnvHandler.java:219 | strip undoes the single leading space the printed tensor puts before a valence |
| SpotifySongs.GetSongID | src/main/java/songsorter/music/SpotifySong.java:196-206 | IllegalArgument exactly when the link holds no track marker; otherwise a '?'-free id right after the first marker; the whole result is `IdAfter`'s, so the id runs up to the first '?' after the marker, including the index error of an all-'?' remainder |
| SpotifySongs.IsSong | src/main/java/songsorter/music/SpotifySong.java:320-322 | true exactly when the marker occurs but not at the very start |
| SpotifySongs.IdAfter | src/main/java/songsorter/music/SpotifySong.java:196-206 | IllegalArgument exactly when the marker is absent, an index exception exactly when only '?'s follow it, otherwise the '?'-free text right after the marker up to the first '?' |
| SpotifySongs.IdOfLink | src/main/java/songsorter/music/SpotifySong.java:196-206 | the id between the marker and an optional query is recovered |
| SpotifySongs.ShareLinkId | src/main/java/songsorter/music/SpotifySong.java:196-206 | a https share link with a query yields its track id |
| SpotifySongs.IsSongRejectsBareMarker | src/main/java/songsorter/music/SpotifySong.java:320-322 | a link that starts with the marker is not a song, yet its id is extractable |
| SpotifySongs.IsSongHasMarker | src/main/java/songsorter/music/SpotifySong.java:320-322 | whatever isSong accepts, getSongID does not reject as invalid |
| SpotifySongs.JoinArtists | src/main/java/songsorter/music/SpotifySong.java:175-182 | no artists raises an index exception; otherwise the names joined by the separator, with the trailing separator cut |
| SpotifySongs.ArtistsSplitBack | src/main/java/songsorter/music/SpotifySong.java:96-101 | comma-joined comma-free artist names split back into the names |
| SpotifySongs.SpotifySong.CacheSongClip | src/main/java/songsorter/music/SpotifySong.java:215-247 | no preview raises NoPreview and changes nothing; otherwise the path is id.mp3 in the cache, it becomes the song's path, a download happens exactly when the path was not cached, and afterwards it is cached |
| SpotifySongs.SpotifySong.UpdateEmotions | src/main/java/songsorter/music/SpotifySong.java:311-313 | the set-once scoring of the underlying song |
| SpotifySongs.SpotifySong.constructor | src/main/java/songsorter/music/SpotifySong.java:169-189 | the link, preview, album, id and artists as given, and a fresh unscored song titled with the track name |
| SpotifySongs.SpotifySong.Distance | src/main/java/songsorter/music/SpotifySong.java:342-346 | with a genuine square root, a non-negative number whose square is the squared distance of the two average points |
| SpotifySongs.SquaredDistanceMetric | src/main/java/songsorter/music/SpotifySong.java:342-346 | the squared distance is symmetric, non-negative and zero exactly for equal points |
| SpotifySongs.DistanceMetric | src/main/java/songsorter/music/SpotifySong.java:342-346 | distance between scored songs is symmetric, non-negative and positive exactly when their averages differ |
| SpotifySongs.FromTrack | src/main/java/songsorter/music/SpotifySong.java:169-189 | no artists raises an index exception, no preview raises NoPreview; otherwise a fresh unscored song with the track's link, id, album, preview, ", "-joined artists, name and cached clip path, and the clip cached |
| SpotifySongs.FromUrl | src/main/java/songsorter/music/SpotifySong.java:88-108 | the id errors first; then as for a track: a fresh unscored song with the track's id, album and preview, ","-joined artists, the given link, and the clip cached |
| SpotifySongs.CacheTwice | src/main/java/songsorter/music/SpotifySong.java:224 | caching a clip twice downloads at most once |
| PythonEnv.RunInOrder | src/main/java/songsorter/python/PythonEnvHandler.java:62-96 | commands run in order while each exits 0; success exactly when all ran with exit 0; failure carries the exit code of the last one run |
| PythonEnv.InitRun | src/main/java/songsorter/python/PythonEnvHandler.java:62-96 | the bootstrap stops at the first of its three commands to fail, with that command's exit code |
| PythonEnv.PythonEnvHandler.constructor | src/main/java/songsorter/python/PythonEnvHandler.java:22-26 | pip, python and venv paths under the cache folder |
| PythonEnv.PythonEnvHandler.Init | src/main/java/songsorter/python/PythonEnvHandler.java:62-96 | with the venv present nothing runs; otherwise the three commands run in order, and pip/python are reassigned only once the venv command succeeds |
| PythonEnv.PythonEnvHandler.InstallPackages | src/main/java/songsorter/python/PythonEnvHandler.java:136-176 | runs exactly the requirements install and succeeds exactly when it exits 0 |
| PythonEnv.PythonEnvHandler.RunCommand | src/main/java/songsorter/python/PythonEnvHandler.java:186-206 | runs the scorer on the file; a non-zero exit raises PythonError with that code, otherwise the output lines, each newline-terminated |
| PythonEnv.Open | src/main/java/songsorter/python/PythonEnvHandler.java:35-38 | succeeds exactly when the bootstrap (if needed) and the requirements install both exit 0; the outcome, with the PythonError exit code of a failure, and the commands run are those of running the bootstrap commands (none when the venv exists) and then the install, in order |
| PythonEnv.RunInOrderAppend | src/main/java/songsorter/python/PythonEnvHandler.java:35-38 | running two command lists in turn is running the first and, only if all of it passed, the second |
| PythonEnv.Removable | src/main/java/songsorter/python/PythonEnvHandler.java:233-236 | exactly the listed names other than venv, requirements.txt, scripts and models |
| PythonEnv.ClearCache | src/main/java/songsorter/python/PythonEnvHandler.java:230-239 | deletes nothing when the folder cannot be listed, otherwise exactly the removable entries |
| PythonEnv.Body | src/main/java/songsorter/python/PythonEnvHandler.java:214 | an index exception exactly when the last ']' is before position 8; otherwise the text from 8 up to the last ']' |
| PythonEnv.BodyOfPrinted | src/main/java/songsorter/python/PythonEnvHandler.java:214 | the body of "tensor([" + body + "]" + a suffix without ']' is body |
| PythonEnv.ArousalTextSuffix | src/main/java/songsorter/python/PythonEnvHandler.java:218 | the arousal text is the suffix after the first '[' (the whole token if none) |
| PythonEnv.ValenceText | src/main/java/songsorter/python/PythonEnvHandler.java:219 | an index exception exactly for an empty token |
| PythonEnv.ParseRow | src/main/java/songsorter/python/PythonEnvHandler.java:217-220 | a row parses exactly when both cut texts parse, into the point (arousal, valence) |
| PythonEnv.ParsePairsRows | src/main/java/songsorter/python/PythonEnvHandler.java:215-222 | the tokens parse exactly when every pair (2k, 2k+1) parses, and point k is that pair's row |
| PythonEnv.ParsePairsByPair | src/main/java/songsorter/python/PythonEnvHandler.java:215-222 | the same, over the list of token pairs |
| PythonEnv.OddTokenIgnored | src/main/java/songsorter/python/PythonEnvHandler.java:216 | an odd trailing token is ignored, not reported |
| PythonEnv.ParseOutSpec | src/main/java/songsorter/python/PythonEnvHandler.java:213-224 | the index exception when the body cannot be cut; a success has one point per pair of comma-separated tokens |
| PythonEnv.ReadPairs | src/main/java/songsorter/python/PythonEnvHandler.java:215-223 | the loop over the tokens computes the recursive pairwise parse |
| PythonEnv.ParseOut | src/main/java/songsorter/python/PythonEnvHandler.java:213-224 | the method computes the body cut, the comma split and the pairwise parse |
| PythonEnv.RowTokensParse | src/main/java/songsorter/python/PythonEnvHandler.java:215-222 | the tokens of printed rows parse back to those rows |
| PythonEnv.PrintedTokens | src/main/java/songsorter/python/PythonEnvHandler.java:215 | the comma split of printed rows gives the row tokens |
| PythonEnv.ParseOutChecked | src/main/java/songsorter/python/PythonEnvHandler.java:213-224 | the corrected parser: a body with no tokens or an odd number of them is Malformed; a success is non-empty, has exactly one point per two tokens, and agrees with parseOut |
| PythonEnv.EmptyTensorAsWritten | src/main/java/songsorter/python/PythonEnvHandler.java:215-217 | as written, "tensor([])" parses to no points; the corrected parser reports it as malformed |
| PythonEnv.CheckedRoundTrip | src/main/java/songsorter/python/PythonEnvHandler.java:213-224 | the corrected parser reads back every printed tensor of at least one row |
| PythonEnv.CheckedRejectsCutRow | src/main/java/songsorter/python/PythonEnvHandler.java:215-217 | the corrected parser reports a printed tensor with one extra token as malformed |
| PythonEnv.PrintedRoundTrip | src/main/java/songsorter/python/PythonEnvHandler.java:213-224 | parsing a printed tensor of any rows gives back those rows |
| Playlists.GetPlaylistID | src/main/java/songsorter/music/SorterPlaylist.java:65-75 | IllegalArgument exactly when the link holds no playlist marker; otherwise a '?'-free id right after the first marker; the whole result is `IdAfter`'s, so the id runs up to the first '?' after the marker, including the index error of an all-'?' remainder |
| Playlists.IsPlaylist | src/main/java/songsorter/music/SorterPlaylist.java:194-196 | true exactly when the marker occurs but not at the very start |
| Playlists.PlaylistLinkId | src/main/java/songsorter/music/SorterPlaylist.java:65-75 | a https playlist share link is a playlist and yields its id |
| Playlists.IsPlaylistHasMarker | src/main/java/songsorter/music/SorterPlaylist.java:194-196 | whatever isPlaylist accepts has an extractable id; a link starting with the marker is refused |
| Playlists.ScanFromBest | src/main/java/songsorter/music/SorterPlaylist.java:216-221 | the scan ends on a song at least as near as every later candidate and strictly nearer than every earlier one it passed |
| Playlists.Nearest | src/main/java/songsorter/music/SorterPlaylist.java:214-221 | the pick is nearest among the populated slots and strictly nearer than any earlier one (first found wins ties) |
| Playlists.RemainingPermutes | src/main/java/songsorter/music/SorterPlaylist.java:222-224 | the pick plus the remaining pool is a permutation of the pool |
| Playlists.TourPermutes | src/main/java/songsorter/music/SorterPlaylist.java:213-225 | the nearest-neighbour walk is a permutation of the pool |
| Playlists.TourGreedy | src/main/java/songsorter/music/SorterPlaylist.java:213-225 | each song in the walk is at least as near to its predecessor as every song placed after it |
| Playlists.SortedIsTour | src/main/java/songsorter/music/SorterPlaylist.java:202-228 | the sorted playlist starts with the start song, is a permutation, keeps nulls at the tail, and is greedy |
| Playlists.NearestSlot | src/main/java/songsorter/music/SorterPlaylist.java:214-221 | the inner loop finds the slot of the nearest song |
| Playlists.PlaceFirst | src/main/java/songsorter/music/SorterPlaylist.java:209-211 | placing the start song establishes the sort invariant |
| Playlists.SortInvStep | src/main/java/songsorter/music/SorterPlaylist.java:222-224 | placing the nearest song and swapping it out keeps the sort invariant |
| Playlists.PlaceNext | src/main/java/songsorter/music/SorterPlaylist.java:214-224 | one outer iteration keeps the sort invariant |
| Playlists.SortInto | src/main/java/songsorter/music/SorterPlaylist.java:203-225 | the new array is the nearest-neighbour order; the old one is left all null |
| Playlists.SorterPlaylist.Sort | src/main/java/songsorter/music/SorterPlaylist.java:202-228 | the songs field becomes the nearest-neighbour order from the start slot |
| Playlists.SorterPlaylist.constructor | src/main/java/songsorter/music/SorterPlaylist.java:44-46 | all-null slots, one per track, and the name |
| Playlists.SorterPlaylist.Get | src/main/java/songsorter/music/SorterPlaylist.java:82-84 | the slot at i, or an index exception exactly when i is out of range |
| Playlists.SorterPlaylist.ScoreSlot | src/main/java/songsorter/music/SorterPlaylist.java:95-96 | one pass of the loop, on snapshots of each slot's song, its emotions before the loop and now, and its scorer output: a null slot changes nothing; otherwise every slot holding the same song gets its old samples or the scorer's output, or the pass fails with the scorer's error and the song stays unscored; songs held only by later slots are untouched |
| Playlists.SorterPlaylist.ScoreSlots | src/main/java/songsorter/music/SorterPlaylist.java:94-97 | the loop: it ends with every slot's song scored and kept, or stops at the first slot whose scoring fails, with the earlier slots scored and the songs held only by later slots untouched |
| Playlists.SlotScored | src/main/java/songsorter/music/SorterPlaylist.java:95-96 | a song scored at slot i is scored in every slot that holds it, and the invariant moves from i to i + 1 |
| Playlists.SlotFailed | src/main/java/songsorter/music/SorterPlaylist.java:95-96 | a failed pass leaves the song unscored everywhere and describes the state where the loop stops |
| Playlists.SorterPlaylist.SetEmotions | src/main/java/songsorter/music/SorterPlaylist.java:93-98 | every song either keeps its emotions or gets its scorer output; success means every song is scored; a failure stops at the first song whose scoring fails: it stays unscored with the scorer's error, every earlier slot's song is scored, and the songs held only by later slots are untouched |
| Playlists.SorterPlaylist.AvgArousals | src/main/java/songsorter/music/SorterPlaylist.java:104-112 | NullPointerException exactly when some song is unscored (Song.java:113-114 streams its null samples); otherwise a fresh array with each song's average arousal, 0 for null slots |
| Playlists.SorterPlaylist.AvgValences | src/main/java/songsorter/music/SorterPlaylist.java:118-126 | NullPointerException exactly when some song is unscored (Song.java:121-122 streams its null samples); otherwise a fresh array with each song's average valence, 0 for null slots |
| Playlists.SorterPlaylist.AsQueue | src/main/java/songsorter/music/SorterPlaylist.java:132-134 | the array constructor as written over the songs array itself: a full queue whose contents are the slots in order |
| Playlists.PreviewedFilters | src/main/java/songsorter/music/SorterPlaylist.java:48-57 | the kept tracks are exactly the tracks with a preview, and the cached clips are exactly theirs |
| Playlists.TakeTrack | src/main/java/songsorter/music/SorterPlaylist.java:49-56 | a track without artists aborts; one without a preview is skipped; otherwise it fills the next slot and its clip is cached |
| Playlists.FillSlots | src/main/java/songsorter/music/SorterPlaylist.java:48-57 | aborts exactly when some track has no artists, at the first such track, with the clips of the tracks before it cached; otherwise the previewed tracks fill the leading slots in order, the rest are null, and every clip is cached |
| Playlists.FromUrl | src/main/java/songsorter/music/SorterPlaylist.java:40-58 | a bad link fails first; otherwise a playlist named after the fetched one, one slot per track, filled as above, or the index exception at the first track without artists with the clips before it cached |

## Left out

- Network, file and image I/O: the Spotify Web API, the preview download, `ImageIO` album art, the `Files.copy` of resources in `installPackages`, and the existence checks. These become parameters: a fetch function, a `set<string>` of cached paths, and a `venvExists` flag.
- Floating point: doubles are reals, so -0.0, infinities in averages, NaN other than 0/0, and rounding are not modelled. `Math.atan`, `Math.atan2` and `Math.sqrt` are functions constrained by predicates.
- `Math.random`: the sort's start slot is a parameter that must hold a song. The source's retry loop never ends on an all-null playlist and fails on an empty one; neither case is modelled.
- Playlists.SorterPlaylist.Sort: requires nulls only at the tail, which every playlist built by the constructor satisfies. A null followed by a song would make `distance` throw at line 217.
- Playlists.SorterPlaylist.Length and Playlists.SorterPlaylist.Name: plain getters, no contract.
- `asDataset`, `asChart`, `toString`, the getters, `version()`, the GUI (`Main.java`, `SongPanel.java`) and printing are not modelled.
- The constructors `SpotifySong(Track, penv)` and `SpotifySong(PlaylistTrack, penv)` are not modelled. SpotifySong.java:145 loops over the artists of the field `spotTrack` before line 151 assigns it, so the first always raises NullPointerException there; the second delegates to the first (line 123). `SpotifySong(sapi, url, penv)` (lines 54-76) is `SpotifySongs.FromUrl` followed by `setEmotions`. `Song(fp, penv)` is modelled as `Songs.NewScoredSong`.
- The cast `(Track) t.getTrack()`, which throws for podcast episodes in a playlist, is not modelled.
- Songs.Song.AverageArousal: requires a scored song with at least one sample. On an unscored song the source raises NullPointerException from `Arrays.stream(null)` (Song.java:114 and :122), the exception SongPanel.java:99-103 catches; with no samples it divides by zero and returns NaN.
- Songs.Song.AverageValence: the same precondition, for the same two reasons.
- Songs.Song.AsEmotion: the same precondition, for the same two reasons.
- SpotifySongs.SpotifySong.Distance: the same precondition, for the same two reasons.
- Playlists.SorterPlaylist.AvgArousals: requires every scored song to have at least one sample, since the source's average is then NaN, which reals do not model.
- Playlists.SorterPlaylist.AvgValences: requires every scored song to have at least one sample, for the same reason.
- Queues.ArrayQueue.constructor: the capacity is a `nat`, so the NegativeArraySizeException of a negative capacity is not modelled.
- JavaStrings.Strip: treats as whitespace only the characters below 128 that `Character.isWhitespace` accepts, not the Unicode white space above them.
- SpotifySongs.JoinArtists: requires a non-empty separator; both callers pass ", " or ",".
- Queues.ArrayQueue.Peek: only the presence of a value is stated for an empty queue, not which stale slot it returns.
- `QueueInterface` is a Java interface; its operations are the class's methods, specified through `Contents()`.
- `Double.parseDouble` is a parameter `parse`. A `None` from it is `NumberFormatException`.

## Findings

| source | as written | input that shows it | evidently intended | confidence | as-written member | corrected member |
|---|---|---|---|---|---|---|
| src/main/java/songsorter/music/EmotionPoint.java:47 | `Math.atan(arousal/valence)` gives angles in [-90, 90] only | (-1, -1) gets 45 degrees, Enthusiastic, the same as (1, 1) | the full-circle angle `atan2(arousal, valence)` in [0, 360), so (-1, -1) is Sad | not executed | EmotionPoints.AtanConflatesOppositeQuadrants | EmotionPoints.CorrectedKeepsArousalHalves |
| src/main/java/songsorter/music/Song.java:148 | `new EmotionPoint(getAverageValence(), getAverageArousal())` swaps the axes | a song with the one sample (arousal 1, valence 0) is labelled Satisfied | arousal first, giving Activated | not executed | Songs.AsEmotionSwapsAxes | Songs.Song.AsEmotionCorrected |
| src/main/java/songsorter/queue/ArrayQueue.java:35 | the array constructor sets `back = a.length` | over [p, q, r]: dequeue, enqueue x, then drain gives x, r, p | `back = a.length - 1`, draining q, r, x | not executed | Queues.FromArrayOverwrites | Queues.FromArrayAlignedKeepsOrder |
| src/main/java/songsorter/queue/ArrayQueue.java:70-72 | `peek` returns `arr[front]` without checking for emptiness | peek on an empty queue of capacity 1 returns the unset slot | NoSuchElementException on an empty queue | not executed | Queues.ArrayQueue.Peek | Queues.ArrayQueue.PeekChecked |
| src/main/java/songsorter/python/PythonEnvHandler.java:215-217 | an empty tensor body splits into one empty token and the loop reads no pair | "tensor([])" parses to an empty array of points | a parse error for an empty matrix body | not executed | PythonEnv.EmptyTensorAsWritten | PythonEnv.ParseOutChecked |
| src/main/java/songsorter/python/PythonEnvHandler.java:216-217 | the loop stops before an odd last token and the array has length/2 slots | a printed tensor with one extra token after its rows parses to the rows alone | a parse error for an odd token count | not executed | PythonEnv.OddTokenIgnored | PythonEnv.CheckedRejectsCutRow |
