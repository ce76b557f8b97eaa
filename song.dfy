/** Song: an audio file with a title and, once scored, the emotion samples of
    its clip, with the per-axis projections and averages built on them. */
module Songs {
  import opened Common
  import opened JavaStrings
  import opened EmotionPoints
  import opened PythonEnv

  /** `fp.split("/")[splitted.length - 1]`: the last non-empty piece of the
      path. A path made only of slashes splits into nothing, and the index -1
      raises ArrayIndexOutOfBoundsException. */
  function TitleOf(fp: string): (r: Result<string>)
    ensures r.Err? <==> fp != [] && forall i :: 0 <= i < |fp| ==> fp[i] == '/'
    ensures r.Err? ==> r.error == IndexOutOfBounds
    ensures r.Ok? ==> '/' !in r.value
  {
    SplitEmpty(fp, '/');
    var splitted := Split(fp, '/');
    if |splitted| == 0 then Err(IndexOutOfBounds)
    else
      assert '/' !in fp ==> splitted == [fp];
      Ok(splitted[|splitted| - 1])
  }

  /** The title is the file name after the last slash. */
  lemma TitleIsFileName(dir: string, name: string)
    requires name != [] && '/' !in name
    ensures TitleOf(dir + "/" + name) == Ok(name)
  {
    assert dir + "/" + name == dir + ['/'] + name;
    SplitLast(dir, name, '/');
  }

  /** A path without a slash is its own title, the empty path included. */
  lemma TitleOfBareName(fp: string)
    requires '/' !in fp
    ensures TitleOf(fp) == Ok(fp)
  {
  }

  /** A trailing slash does not change the title. */
  lemma TitleIgnoresTrailingSlash(fp: string)
    requires exists i :: 0 <= i < |fp| && fp[i] != '/'
    ensures TitleOf(fp + "/") == TitleOf(fp)
  {
    SplitTrailingSeparator(fp, '/');
  }

  /** What scoring the file at `fp` yields: the scorer's output, parsed, or the
      exception raised by `runCommand` or `parseOut`. */
  function Score(python: string, home: string, fp: string,
                 exec: Command -> Process, parse: string -> Option<real>): Result<seq<EmotionPoint>>
  {
    var process := exec(ScoreCommand(python, home, fp));
    if process.exitCode != 0 then Err(PythonError(process.exitCode))
    else ParseOutSpec(Terminated(process.lines), parse)
  }

  /** `getArousalAsList()` on the samples. */
  function Arousals(es: seq<EmotionPoint>): (r: seq<real>)
    ensures |r| == |es| && forall i :: 0 <= i < |es| ==> r[i] == es[i].arousal
  {
    seq(|es|, i requires 0 <= i < |es| => es[i].arousal)
  }

  /** `getValenceAsList()` on the samples. */
  function Valences(es: seq<EmotionPoint>): (r: seq<real>)
    ensures |r| == |es| && forall i :: 0 <= i < |es| ==> r[i] == es[i].valence
  {
    seq(|es|, i requires 0 <= i < |es| => es[i].valence)
  }

  /** Pairs the two lists back into samples. */
  function Zip(arousals: seq<real>, valences: seq<real>): (r: seq<EmotionPoint>)
    requires |arousals| == |valences|
    ensures |r| == |arousals|
    ensures forall i :: 0 <= i < |r| ==> r[i] == EmotionPoint(arousals[i], valences[i])
  {
    seq(|arousals|, i requires 0 <= i < |arousals| => EmotionPoint(arousals[i], valences[i]))
  }

  /** The two projections lose nothing: zipped again they are the samples. */
  lemma ProjectionsZip(es: seq<EmotionPoint>)
    ensures Zip(Arousals(es), Valences(es)) == es
  {
  }

  /** `DoubleStream.sum()`, over reals. */
  function Sum(xs: seq<real>): real
  {
    if xs == [] then 0.0 else xs[0] + Sum(xs[1..])
  }

  /** `sum / length`: the mean of a non-empty list. */
  function Mean(xs: seq<real>): real
    requires |xs| > 0
  {
    Sum(xs) / |xs| as real
  }

  lemma {:induction false} SumBounds(xs: seq<real>, lo: real, hi: real)
    requires forall i :: 0 <= i < |xs| ==> lo <= xs[i] <= hi
    ensures |xs| as real * lo <= Sum(xs) <= |xs| as real * hi
  {
    if xs != [] {
      SumBounds(xs[1..], lo, hi);
    }
  }

  /** The mean lies between the least and the greatest sample. */
  lemma MeanBounds(xs: seq<real>, lo: real, hi: real)
    requires |xs| > 0
    requires forall i :: 0 <= i < |xs| ==> lo <= xs[i] <= hi
    ensures lo <= Mean(xs) <= hi
  {
    SumBounds(xs, lo, hi);
    var n := |xs| as real;
    assert Sum(xs) / n >= lo by {
      assert Sum(xs) >= n * lo;
    }
  }

  /** The index of a least element of a non-empty list, the first one on a tie. */
  function ArgMin(xs: seq<real>): (i: nat)
    requires |xs| > 0
    ensures i < |xs| && forall k :: 0 <= k < |xs| ==> xs[i] <= xs[k]
  {
    if |xs| == 1 then 0
    else
      var j := ArgMin(xs[1..]) + 1;
      if xs[0] <= xs[j] then 0 else j
  }

  /** The index of a greatest element of a non-empty list, the first one on a tie. */
  function ArgMax(xs: seq<real>): (i: nat)
    requires |xs| > 0
    ensures i < |xs| && forall k :: 0 <= k < |xs| ==> xs[k] <= xs[i]
  {
    if |xs| == 1 then 0
    else
      var j := ArgMax(xs[1..]) + 1;
      if xs[0] >= xs[j] then 0 else j
  }

  /** The mean of a list of one value is that value. */
  lemma MeanOfConstant(xs: seq<real>, c: real)
    requires |xs| > 0 && forall i :: 0 <= i < |xs| ==> xs[i] == c
    ensures Mean(xs) == c
  {
    MeanBounds(xs, c, c);
  }

  class Song {
    var filePath: string
    var title: string
    /** `emotions`, with `None` for the null of a song never scored. */
    var emotions: Option<seq<EmotionPoint>>

    /** Sets the fields as the path constructor leaves them. */
    constructor (fp: string, title: string)
      ensures filePath == fp && this.title == title && emotions == None
    {
      filePath := fp;
      this.title := title;
      emotions := None;
    }

    /** `setFilePath(fp)`: changes the path and nothing else. */
    method SetFilePath(fp: string)
      modifies this`filePath
      ensures filePath == fp
    {
      filePath := fp;
    }

    /** `setTitle(t)`: changes the title and nothing else. */
    method SetTitle(t: string)
      modifies this`title
      ensures title == t
    {
      title := t;
    }

    /** `setEmotions(penv)`: a set-once cache. Unscored, the song's file is run
        through the scorer and the parsed output stored, unless an exception
        leaves it unscored; once scored, nothing runs and nothing changes.
        `ran` says whether the scorer ran. */
    method SetEmotions(penv: PythonEnvHandler, exec: Command -> Process, parse: string -> Option<real>)
      returns (o: Outcome, ran: bool)
      modifies this`emotions
      ensures old(emotions).Some? ==> o == Pass && !ran && emotions == old(emotions)
      ensures old(emotions).None? ==> ran
      ensures old(emotions).None? ==>
                match Score(penv.python, penv.home, filePath, exec, parse)
                case Ok(es) => o == Pass && emotions == Some(es)
                case Err(e) => o == Fail(e) && emotions == None
    {
      if emotions.Some? {
        return Pass, false;
      }
      ran := true;
      var output, command := penv.RunCommand(filePath, exec);
      if output.Err? {
        return Fail(output.error), ran;
      }
      var points := ParseOut(output.value, parse);
      if points.Err? {
        return Fail(points.error), ran;
      }
      emotions := Some(points.value);
      o := Pass;
    }

    /** `getAverageArousal()`: lies between the arousals of two of the samples. */
    function AverageArousal(): (r: real)
      reads this
      requires emotions.Some? && |emotions.value| > 0
      ensures exists i, j :: 0 <= i < |emotions.value| && 0 <= j < |emotions.value|
                && emotions.value[i].arousal <= r <= emotions.value[j].arousal
    {
      var xs := Arousals(emotions.value);
      var lo, hi := ArgMin(xs), ArgMax(xs);
      MeanBounds(xs, xs[lo], xs[hi]);
      assert emotions.value[lo].arousal <= Mean(xs) <= emotions.value[hi].arousal;
      Mean(xs)
    }

    /** `getAverageValence()`: lies between the valences of two of the samples. */
    function AverageValence(): (r: real)
      reads this
      requires emotions.Some? && |emotions.value| > 0
      ensures exists i, j :: 0 <= i < |emotions.value| && 0 <= j < |emotions.value|
                && emotions.value[i].valence <= r <= emotions.value[j].valence
    {
      var xs := Valences(emotions.value);
      var lo, hi := ArgMin(xs), ArgMax(xs);
      MeanBounds(xs, xs[lo], xs[hi]);
      assert emotions.value[lo].valence <= Mean(xs) <= emotions.value[hi].valence;
      Mean(xs)
    }

    /** `asEmotion()` as written: the averages are passed to `EmotionPoint(a, v)`
        the wrong way round, valence as arousal. Unknown exactly when both
        averages are zero; otherwise one of the four labels the single-argument
        arc tangent reaches. */
    function AsEmotion(atanDegrees: real -> real): (l: Label)
      reads this
      requires emotions.Some? && |emotions.value| > 0
      ensures l == Unknown <==> AverageArousal() == 0.0 && AverageValence() == 0.0
      ensures IsAtanDegrees(atanDegrees) ==> l in {Unknown, Satisfied, Enthusiastic, Energetic, Activated}
    {
      EmotionPoints.AsEmotion(EmotionPoint(AverageValence(), AverageArousal()), atanDegrees)
    }

    /** The intended classification of the song: the average point with
        arousal as arousal, placed on the whole circle. */
    function AsEmotionCorrected(atan2Degrees: (real, real) -> real): Label
      reads this
      requires emotions.Some? && |emotions.value| > 0
    {
      EmotionPoints.AsEmotionCorrected(EmotionPoint(AverageArousal(), AverageValence()), atan2Degrees)
    }
  }

  /** `new Song(fp)`: the path and its title, unscored; a path of slashes only
      raises instead. */
  method NewSong(fp: string) returns (r: Result<Song>)
    ensures r.Err? <==> TitleOf(fp).Err?
    ensures r.Err? ==> r.error == IndexOutOfBounds
    ensures r.Ok? ==> fresh(r.value) && r.value.filePath == fp
                      && r.value.title == TitleOf(fp).value && r.value.emotions == None
  {
    var title := TitleOf(fp);
    if title.Err? {
      return Err(title.error);
    }
    var song := new Song(fp, title.value);
    r := Ok(song);
  }

  /** `new Song(fp, penv)`: the path constructor followed by `setEmotions`. */
  method NewScoredSong(fp: string, penv: PythonEnvHandler, exec: Command -> Process,
                       parse: string -> Option<real>) returns (r: Result<Song>)
    ensures TitleOf(fp).Err? ==> r == Err(IndexOutOfBounds)
    ensures TitleOf(fp).Ok? ==>
              match Score(penv.python, penv.home, fp, exec, parse)
              case Err(e) => r == Err(e)
              case Ok(es) => r.Ok? && fresh(r.value) && r.value.filePath == fp
                             && r.value.title == TitleOf(fp).value && r.value.emotions == Some(es)
  {
    r := NewSong(fp);
    if r.Err? {
      return;
    }
    var song := r.value;
    var o, ran := song.SetEmotions(penv, exec, parse);
    if o.Fail? {
      return Err(o.error);
    }
  }

  /** The argument swap in `asEmotion`: a clip whose one sample has arousal 1
      and valence 0, pure activation, is reported as Satisfied (0 degrees) as
      written, and as Activated (90 degrees) by the intended classification. */
  lemma AsEmotionSwapsAxes(s: Song, atanDegrees: real -> real, atan2Degrees: (real, real) -> real)
    requires IsAtanDegrees(atanDegrees) && IsAtan2Degrees(atan2Degrees)
    requires s.emotions == Some([EmotionPoint(1.0, 0.0)])
    ensures s.AsEmotion(atanDegrees) == Satisfied
    ensures s.AsEmotionCorrected(atan2Degrees) == Activated
  {
    MeanOfConstant(Arousals([EmotionPoint(1.0, 0.0)]), 1.0);
    MeanOfConstant(Valences([EmotionPoint(1.0, 0.0)]), 0.0);
    assert Divide(0.0, 1.0) == Finite(0.0);
  }
}
