/** PythonEnvHandler: the virtual environment in the cache directory that runs
    the emotion scorer, the runner that captures its output, and `parseOut`,
    which turns the printed PyTorch N x 2 tensor into emotion points.

    Processes are abstract: `exec` maps a command line to the exit code and
    the standard-output lines the process would produce. File existence is an
    input. `Double.parseDouble` is the partial function `parse`. */
module PythonEnv {
  import opened Common
  import opened JavaStrings
  import opened EmotionPoints

  // ---------------------------------------------------------------------------
  // Paths and commands

  /** `OUTPUT_PATH`, the cache root below the user's home directory. */
  function OutputPath(home: string): string
  {
    home + "/Library/Caches/" + "io.github.etashj.songsorter/"
  }

  function PipPath(home: string): string { OutputPath(home) + "venv/bin/pip" }

  function PythonPath(home: string): string { OutputPath(home) + "venv/bin/python3" }

  type Command = seq<string>

  /** What a finished process reports: its exit code and its output lines. */
  datatype Process = Process(exitCode: int, lines: seq<string>)

  function VenvCommand(home: string): Command
  {
    ["python3.9", "-m", "venv", OutputPath(home) + "venv"]
  }

  function SetuptoolsCommand(pip: string): Command { [pip, "install", "setuptools"] }

  function UpgradePipCommand(pip: string): Command { [pip, "install", "--upgrade", "pip"] }

  function RequirementsCommand(pip: string, home: string): Command
  {
    [pip, "install", "-r", OutputPath(home) + "requirements.txt"]
  }

  function ScoreCommand(python: string, home: string, fp: string): Command
  {
    [python, OutputPath(home) + "scripts/demo.py", fp]
  }

  /** The three commands `init` runs when the venv is missing. */
  function InitCommands(home: string): seq<Command>
  {
    [VenvCommand(home), SetuptoolsCommand(PipPath(home)), UpgradePipCommand(PipPath(home))]
  }

  /** The commands that ran and how the sequence ended. */
  datatype Run = Run(outcome: Outcome, ran: seq<Command>)

  /** Runs `cmds` in order and stops at the first non-zero exit code, which
      becomes a PythonError. */
  function RunInOrder(cmds: seq<Command>, exec: Command -> Process): (r: Run)
    ensures r.ran <= cmds
    ensures forall k :: 0 <= k < |r.ran| - 1 ==> exec(r.ran[k]).exitCode == 0
    ensures r.outcome == Pass <==> r.ran == cmds && forall k :: 0 <= k < |cmds| ==> exec(cmds[k]).exitCode == 0
    ensures r.outcome.Fail? ==>
              r.ran != [] && exec(r.ran[|r.ran| - 1]).exitCode != 0
              && r.outcome == Fail(PythonError(exec(r.ran[|r.ran| - 1]).exitCode))
    decreases |cmds|
  {
    if cmds == [] then Run(Pass, [])
    else
      var code := exec(cmds[0]).exitCode;
      if code != 0 then Run(Fail(PythonError(code)), [cmds[0]])
      else
        var rest := RunInOrder(cmds[1..], exec);
        Run(rest.outcome, [cmds[0]] + rest.ran)
  }

  /** The three commands of `init()` run one after the other until one of
      them exits with a non-zero code. */
  lemma InitRun(home: string, exec: Command -> Process)
    ensures var cmds, r := InitCommands(home), RunInOrder(InitCommands(home), exec);
            if exec(cmds[0]).exitCode != 0 then r == Run(Fail(PythonError(exec(cmds[0]).exitCode)), cmds[..1])
            else if exec(cmds[1]).exitCode != 0 then r == Run(Fail(PythonError(exec(cmds[1]).exitCode)), cmds[..2])
            else if exec(cmds[2]).exitCode != 0 then r == Run(Fail(PythonError(exec(cmds[2]).exitCode)), cmds)
            else r == Run(Pass, cmds)
  {
    var cmds := InitCommands(home);
    assert cmds[1..][1..] == cmds[2..] && cmds[2..][1..] == [];
    assert cmds[..1] == [cmds[0]] && cmds[..2] == [cmds[0]] + [cmds[1]];
    assert cmds == [cmds[0]] + ([cmds[1]] + [cmds[2]]);
  }

  /** The captured standard output: every line followed by a newline. */
  function Terminated(lines: seq<string>): string
  {
    if lines == [] then [] else lines[0] + "\n" + Terminated(lines[1..])
  }

  /** The cache entries `clearCache` keeps. */
  const Keep: set<string> := {"venv", "requirements.txt", "scripts", "models"}

  /** The entries of a listing that `clearCache` tries to delete, in order. */
  function Removable(names: seq<string>): (r: seq<string>)
    ensures forall n :: n in r <==> n in names && n !in Keep
    ensures |r| <= |names|
  {
    if names == [] then []
    else if names[0] in Keep then Removable(names[1..])
    else [names[0]] + Removable(names[1..])
  }

  // ---------------------------------------------------------------------------
  // The handler

  class PythonEnvHandler {
    const home: string
    var pip: string
    var python: string
    const venv: string

    /** The field initialisers. */
    constructor (home: string)
      ensures this.home == home
      ensures pip == PipPath(home) && python == PythonPath(home)
      ensures venv == OutputPath(home) + "venv"
    {
      this.home := home;
      pip := PipPath(home);
      python := PythonPath(home);
      venv := OutputPath(home) + "venv";
    }

    /** `init()`: nothing when the venv directory exists; otherwise create it,
        point pip and python into it, install setuptools and upgrade pip, and
        raise PythonError at the first non-zero exit code. */
    method Init(venvExists: bool, exec: Command -> Process) returns (o: Outcome, ran: seq<Command>)
      modifies this
      ensures venvExists ==> o == Pass && ran == []
      ensures !venvExists ==> Run(o, ran) == RunInOrder(InitCommands(home), exec)
      ensures venvExists || exec(VenvCommand(home)).exitCode != 0 ==>
                pip == old(pip) && python == old(python)
      ensures !venvExists && exec(VenvCommand(home)).exitCode == 0 ==>
                pip == PipPath(home) && python == PythonPath(home)
    {
      o, ran := Pass, [];
      if !venvExists {
        ghost var cmds := InitCommands(home);
        InitRun(home, exec);
        var command := VenvCommand(home);
        var process := exec(command);
        ran := ran + [command];
        assert ran == cmds[..1];
        if process.exitCode != 0 {
          return Fail(PythonError(process.exitCode)), ran;
        }
        pip := PipPath(home);
        python := PythonPath(home);

        command := SetuptoolsCommand(pip);
        process := exec(command);
        ran := ran + [command];
        assert ran == cmds[..2];
        if process.exitCode != 0 {
          return Fail(PythonError(process.exitCode)), ran;
        }

        command := UpgradePipCommand(pip);
        process := exec(command);
        ran := ran + [command];
        if process.exitCode != 0 {
          return Fail(PythonError(process.exitCode)), ran;
        }
        assert ran == InitCommands(home);
      }
    }

    /** `installPackages()`, its exit-code decision only: `pip install -r
        requirements.txt` and PythonError on a non-zero exit code. */
    method InstallPackages(exec: Command -> Process) returns (o: Outcome, ran: seq<Command>)
      ensures ran == [RequirementsCommand(pip, home)]
      ensures Run(o, ran) == RunInOrder([RequirementsCommand(pip, home)], exec)
      ensures o == Pass <==> exec(RequirementsCommand(pip, home)).exitCode == 0
    {
      var command := RequirementsCommand(pip, home);
      var process := exec(command);
      ran := [command];
      assert [command][1..] == [];
      if process.exitCode != 0 {
        return Fail(PythonError(process.exitCode)), ran;
      }
      o := Pass;
    }

    /** `runCommand(fp)`: runs the scorer on `fp`, collects every output line
        followed by a newline, and raises PythonError exactly when the exit code
        is non-zero. */
    method RunCommand(fp: string, exec: Command -> Process) returns (r: Result<string>, command: Command)
      ensures command == ScoreCommand(python, home, fp)
      ensures exec(command).exitCode != 0 ==> r == Err(PythonError(exec(command).exitCode))
      ensures exec(command).exitCode == 0 ==> r == Ok(Terminated(exec(command).lines))
    {
      command := ScoreCommand(python, home, fp);
      var process := exec(command);
      var output := "";
      var i := 0;
      assert process.lines[0..] == process.lines;
      while i < |process.lines|
        invariant 0 <= i <= |process.lines|
        invariant output + Terminated(process.lines[i..]) == Terminated(process.lines)
      {
        assert process.lines[i..][1..] == process.lines[i + 1..];
        output := output + process.lines[i] + "\n";
        i := i + 1;
      }
      assert process.lines[i..] == [];
      assert output == Terminated(process.lines);
      if process.exitCode != 0 {
        return Err(PythonError(process.exitCode)), command;
      }
      r := Ok(output);
    }
  }

  /** Running `a + b` is running `a`, and, only if all of `a` passed, then
      running `b`. */
  lemma {:induction false} RunInOrderAppend(a: seq<Command>, b: seq<Command>, exec: Command -> Process)
    ensures var ra, rb := RunInOrder(a, exec), RunInOrder(b, exec);
            RunInOrder(a + b, exec) == if ra.outcome == Pass then Run(rb.outcome, a + rb.ran) else ra
    decreases |a|
  {
    if a == [] {
      assert a + b == b;
    } else {
      var ab := a + b;
      assert ab[0] == a[0] && ab[1..] == a[1..] + b;
      var code := exec(a[0]).exitCode;
      if code != 0 {
        assert RunInOrder(ab, exec) == Run(Fail(PythonError(code)), [a[0]]);
        assert RunInOrder(a, exec) == Run(Fail(PythonError(code)), [a[0]]);
      } else {
        RunInOrderAppend(a[1..], b, exec);
        var rest, rb := RunInOrder(a[1..], exec), RunInOrder(b, exec);
        var restb := RunInOrder(a[1..] + b, exec);
        assert RunInOrder(a, exec) == Run(rest.outcome, [a[0]] + rest.ran);
        assert RunInOrder(ab, exec) == Run(restb.outcome, [a[0]] + restb.ran);
        if rest.outcome == Pass {
          assert [a[0]] + (a[1..] + rb.ran) == a + rb.ran;
        }
      }
    }
  }

  /** `new PythonEnvHandler()`: the field initialisers, then `init()`, then,
      if that succeeded, `installPackages()`. */
  method Open(home: string, venvExists: bool, exec: Command -> Process)
    returns (h: PythonEnvHandler, o: Outcome, ran: seq<Command>)
    ensures fresh(h) && h.home == home
    ensures h.pip == PipPath(home) && h.python == PythonPath(home)
    ensures venvExists ==> ran == [RequirementsCommand(PipPath(home), home)]
    ensures o == Pass <==>
              (venvExists || RunInOrder(InitCommands(home), exec).outcome == Pass)
              && exec(RequirementsCommand(PipPath(home), home)).exitCode == 0
    ensures Run(o, ran) ==
              RunInOrder((if venvExists then [] else InitCommands(home)) + [RequirementsCommand(PipPath(home), home)], exec)
  {
    ghost var setup := if venvExists then [] else InitCommands(home);
    RunInOrderAppend(setup, [RequirementsCommand(PipPath(home), home)], exec);
    h := new PythonEnvHandler(home);
    var ranInit;
    o, ranInit := h.Init(venvExists, exec);
    if o.Fail? {
      return h, o, ranInit;
    }
    var ranInstall;
    o, ranInstall := h.InstallPackages(exec);
    ran := ranInit + ranInstall;
  }

  /** `clearCache()`: with no listing (null) nothing happens; otherwise every
      entry except venv, requirements.txt, scripts and models is deleted, in
      listing order, and the outcome of each delete is ignored. Returns the
      names whose deletion was attempted. */
  method ClearCache(listing: Option<seq<string>>) returns (deleted: seq<string>)
    ensures listing.None? ==> deleted == []
    ensures listing.Some? ==> deleted == Removable(listing.value)
  {
    deleted := [];
    if listing.Some? {
      var files := listing.value;
      var i := 0;
      while i < |files|
        invariant 0 <= i <= |files|
        invariant deleted + Removable(files[i..]) == Removable(files)
      {
        assert files[i..][1..] == files[i + 1..];
        if files[i] !in Keep {
          deleted := deleted + [files[i]];
        }
        i := i + 1;
      }
      assert files[i..] == [];
    }
  }

  // ---------------------------------------------------------------------------
  // parseOut

  /** `s.substring(8, s.lastIndexOf(']'))`: the text between "tensor([" and the
      last ']', or the StringIndexOutOfBoundsException when that ']' is missing
      or sits before index 8. */
  function Body(s: string): (r: Result<string>)
    ensures r.Err? <==> LastIndexOf(s, ']') < 8
    ensures r.Err? ==> r.error == IndexOutOfBounds
    ensures r.Ok? ==> 8 + |r.value| < |s| && r.value == s[8..8 + |r.value|]
                      && s[8 + |r.value|] == ']' && ']' !in s[8 + |r.value| + 1..]
  {
    var last := LastIndexOf(s, ']');
    if last < 8 then Err(IndexOutOfBounds)
    else
      assert forall k :: last < k < |s| ==> s[k] != ']';
      Ok(s[8..last])
  }

  /** `t.substring(t.indexOf('[') + 1)`: the token after its first '[', or the
      whole token when it has none. */
  function ArousalText(t: string): string
  {
    if IndexOfChar(t, '[') < 0 then t else AfterFirst(t, '[')
  }

  /** What follows the first `c` of `t`, found by walking `t`. */
  function AfterFirst(t: string, c: char): string
  {
    if t == [] then [] else if t[0] == c then t[1..] else AfterFirst(t[1..], c)
  }

  /** Walking to the first `c` is cutting after its index. */
  lemma {:induction false} AfterFirstCuts(t: string, c: char)
    requires IndexOfChar(t, c) >= 0
    ensures AfterFirst(t, c) == t[IndexOfChar(t, c) + 1..]
  {
    if t[0] != c {
      AfterFirstCuts(t[1..], c);
      assert t[1..][IndexOfChar(t[1..], c) + 1..] == t[IndexOfChar(t, c) + 1..];
    }
  }

  /** The arousal text is a suffix of the token: all of it when there is no
      '[', and what follows the first '[' otherwise. */
  lemma ArousalTextSuffix(t: string)
    ensures var r := ArousalText(t);
            && |r| <= |t| && r == t[|t| - |r|..]
            && ('[' !in t ==> r == t)
            && ('[' in t ==> |r| < |t| && t[|t| - |r| - 1] == '[' && '[' !in t[..|t| - |r| - 1])
  {
    var i := IndexOfChar(t, '[');
    if i >= 0 {
      AfterFirstCuts(t, '[');
      assert forall k :: 0 <= k < i ==> t[..|t| - |ArousalText(t)| - 1][k] == t[k];
    }
  }

  /** `t.substring(0, t.length() - 1).strip()`: the token without its last
      character (the closing ']'), trimmed; an empty token raises. */
  function ValenceText(t: string): (r: Result<string>)
    ensures r.Err? <==> t == []
    ensures r.Err? ==> r.error == IndexOutOfBounds
  {
    if t == [] then Err(IndexOutOfBounds) else Ok(Strip(t[..|t| - 1]))
  }

  /** One row: the arousal is parsed first, then the valence is cut and parsed. */
  function ParseRow(a: string, v: string, parse: string -> Option<real>): (r: Result<EmotionPoint>)
    ensures r.Ok? <==> parse(ArousalText(a)).Some? && v != [] && parse(ValenceText(v).value).Some?
    ensures r.Ok? ==> r.value == EmotionPoint(parse(ArousalText(a)).value, parse(ValenceText(v).value).value)
  {
    match parse(ArousalText(a))
    case None => Err(NumberFormat)
    case Some(x) =>
      match ValenceText(v)
      case Err(e) => Err(e)
      case Ok(vt) =>
        match parse(vt)
        case None => Err(NumberFormat)
        case Some(y) => Ok(EmotionPoint(x, y))
  }

  /** The loop of `parseOut` over the tokens two at a time; a last odd token is
      never read. */
  function ParsePairs(ts: seq<string>, parse: string -> Option<real>): (r: Result<seq<EmotionPoint>>)
    ensures r.Ok? ==> 2 * |r.value| <= |ts| <= 2 * |r.value| + 1
    decreases |ts|
  {
    if |ts| < 2 then Ok([])
    else
      match ParseRow(ts[0], ts[1], parse)
      case Err(e) => Err(e)
      case Ok(p) =>
        match ParsePairs(ts[2..], parse)
        case Err(e) => Err(e)
        case Ok(ps) => Ok([p] + ps)
  }

  /** What `parseOut(s)` returns or raises: the index exception when the body
      cannot be cut; otherwise one point per pair of comma-separated tokens, a
      last odd token ignored (`ParsePairsRows` says which pairs must parse). */
  function ParseOutSpec(s: string, parse: string -> Option<real>): (r: Result<seq<EmotionPoint>>)
    ensures Body(s).Err? ==> r == Err(IndexOutOfBounds)
    ensures r.Ok? ==> Body(s).Ok? && |r.value| == |Split(Body(s).value, ',')| / 2
  {
    match Body(s)
    case Err(e) => Err(e)
    case Ok(b) => ParsePairs(Split(b, ','), parse)
  }

  /** `ps` in front of the points of a successful result. */
  function Prepend(ps: seq<EmotionPoint>, r: Result<seq<EmotionPoint>>): Result<seq<EmotionPoint>>
  {
    match r
    case Ok(qs) => Ok(ps + qs)
    case Err(e) => Err(e)
  }

  /** The pairs from token `i` on, as the loop of `parseOut` reads them by
      index. */
  function ParsePairsFrom(ts: seq<string>, i: nat, parse: string -> Option<real>): Result<seq<EmotionPoint>>
    decreases |ts| - i
  {
    if i + 2 > |ts| then Ok([])
    else
      match ParseRow(ts[i], ts[i + 1], parse)
      case Err(e) => Err(e)
      case Ok(p) => Prepend([p], ParsePairsFrom(ts, i + 2, parse))
  }

  /** One step of reading by index: the row at `i`, then the rows after it. */
  lemma ParsePairsFromStep(ts: seq<string>, i: nat, parse: string -> Option<real>)
    requires i + 2 <= |ts|
    ensures var row := ParseRow(ts[i], ts[i + 1], parse);
            ParsePairsFrom(ts, i, parse)
            == if row.Err? then Err(row.error) else Prepend([row.value], ParsePairsFrom(ts, i + 2, parse))
  {
  }

  /** Reading by index from `i` is parsing the tokens after `i`. */
  lemma {:induction false} ParsePairsFromSuffix(ts: seq<string>, i: nat, parse: string -> Option<real>)
    requires i <= |ts|
    ensures ParsePairsFrom(ts, i, parse) == ParsePairs(ts[i..], parse)
    decreases |ts| - i
  {
    if i + 2 <= |ts| {
      ParsePairsFromSuffix(ts, i + 2, parse);
      assert ts[i..][2..] == ts[i + 2..];
    }
  }

  /** Reading by index from the start is parsing all the tokens. */
  lemma ParsePairsFromStart(ts: seq<string>, parse: string -> Option<real>)
    ensures ParsePairsFrom(ts, 0, parse) == ParsePairs(ts, parse)
  {
    ParsePairsFromSuffix(ts, 0, parse);
    assert ts[0..] == ts;
  }

  lemma PrependNothing(r: Result<seq<EmotionPoint>>)
    ensures Prepend([], r) == r
  {
    if r.Ok? {
      assert [] + r.value == r.value;
    }
  }

  lemma PrependAll(ps: seq<EmotionPoint>)
    ensures Prepend(ps, Ok([])) == Ok(ps)
  {
    assert ps + [] == ps;
  }

  lemma PrependPrepend(ps: seq<EmotionPoint>, qs: seq<EmotionPoint>, r: Result<seq<EmotionPoint>>)
    ensures Prepend(ps, Prepend(qs, r)) == Prepend(ps + qs, r)
  {
    if r.Ok? {
      assert ps + (qs + r.value) == (ps + qs) + r.value;
    }
  }

  /** One step of the loop of `parseOut` at token `i`, with the points `done`
      read so far: a row that does not parse is the error of the whole parse,
      and one that does joins the points read. */
  lemma ReadStep(ts: seq<string>, i: nat, done: seq<EmotionPoint>, whole: Result<seq<EmotionPoint>>,
                 parse: string -> Option<real>)
    requires i + 2 <= |ts| && whole == ParsePairs(ts, parse)
    requires whole == Prepend(done, ParsePairsFrom(ts, i, parse))
    ensures var row := ParseRow(ts[i], ts[i + 1], parse);
            && (row.Err? ==> whole == Err(row.error))
            && (row.Ok? ==> whole == Prepend(done + [row.value], ParsePairsFrom(ts, i + 2, parse)))
  {
    var row := ParseRow(ts[i], ts[i + 1], parse);
    ParsePairsFromStep(ts, i, parse);
    if row.Ok? {
      PrependPrepend(done, [row.value], ParsePairsFrom(ts, i + 2, parse));
    }
  }

  /** Token `i = 2n` with a token after it is the start of pair `n`, which has
      a slot in the array of `len / 2` points. */
  lemma HalfStep(i: nat, n: nat, len: nat)
    requires i == 2 * n && i + 1 < len
    ensures i / 2 == n && n < len / 2
  {
  }

  /** When the loop stops at `i = 2n`, every slot of the array is written. */
  lemma HalfExit(i: nat, n: nat, len: nat)
    requires i == 2 * n && i <= len && !(i < len - 1)
    ensures n == len / 2
  {
  }

  /** `points[k] = p` after the first `k` points are written: they gain `p`. */
  method Store(points: array<EmotionPoint>, k: nat, p: EmotionPoint)
    requires k < points.Length
    modifies points
    ensures points[..k + 1] == old(points[..k]) + [p]
  {
    points[k] := p;
    assert points[..k + 1] == old(points[..k]) + [p];
  }

  /** `parseOut(s)`: cuts the body, splits it at commas, and reads the
      tokens two at a time. */
  method ParseOut(s: string, parse: string -> Option<real>) returns (r: Result<seq<EmotionPoint>>)
    ensures r == ParseOutSpec(s, parse)
  {
    var body := Body(s);
    if body.Err? {
      return Err(body.error);
    }
    var splitted := Split(body.value, ',');
    r := ReadPairs(splitted, parse);
  }

  /** The loop of `parseOut`: an array of half as many points as tokens,
      point `i / 2` made from tokens `i` and `i + 1`. */
  method ReadPairs(splitted: seq<string>, parse: string -> Option<real>) returns (r: Result<seq<EmotionPoint>>)
    ensures r == ParsePairs(splitted, parse)
  {
    var points := new EmotionPoint[|splitted| / 2];
    var i := 0;
    ghost var n := 0;
    ghost var whole := ParsePairsFrom(splitted, 0, parse);
    PrependNothing(whole);
    ParsePairsFromStart(splitted, parse);
    while i < |splitted| - 1
      invariant 0 <= i <= |splitted| && i == 2 * n && n <= points.Length
      invariant whole == Prepend(points[..n], ParsePairsFrom(splitted, i, parse))
    {
      var row := ParseRow(splitted[i], splitted[i + 1], parse);
      ReadStep(splitted, i, points[..n], whole, parse);
      if row.Err? {
        return Err(row.error);
      }
      HalfStep(i, n, |splitted|);
      Store(points, i / 2, row.value);
      i, n := i + 2, n + 1;
    }
    HalfExit(i, n, |splitted|);
    assert points[..n] == points[..];
    PrependAll(points[..]);
    r := Ok(points[..]);
  }

  // ---------------------------------------------------------------------------
  // Properties of parseOut

  /** The tokens taken two at a time, as `parseOut` walks them; a last odd
      token is not in any pair. */
  ghost function Pairs(ts: seq<string>): (r: seq<(string, string)>)
    ensures 2 * |r| <= |ts| <= 2 * |r| + 1
    decreases |ts|
  {
    if |ts| < 2 then [] else [(ts[0], ts[1])] + Pairs(ts[2..])
  }

  /** Pair k is made of tokens 2k and 2k+1. */
  lemma {:induction false} PairsAt(ts: seq<string>)
    ensures forall k :: 0 <= k < |Pairs(ts)| ==> Pairs(ts)[k] == (ts[2 * k], ts[2 * k + 1])
    decreases |ts|
  {
    if |ts| >= 2 {
      var rest := ts[2..];
      PairsAt(rest);
      forall k | 1 <= k < |Pairs(ts)| ensures Pairs(ts)[k] == (ts[2 * k], ts[2 * k + 1]) {
        assert Pairs(ts)[k] == Pairs(rest)[k - 1];
        assert ts[2 * k] == rest[2 * (k - 1)] && ts[2 * k + 1] == rest[2 * (k - 1) + 1];
      }
    }
  }

  /** The pairs of at least two tokens: the first two, then the pairs of the rest. */
  lemma PairsCons(ts: seq<string>)
    requires |ts| >= 2
    ensures |Pairs(ts)| == |Pairs(ts[2..])| + 1 && Pairs(ts)[0] == (ts[0], ts[1])
    ensures forall k :: 1 <= k < |Pairs(ts)| ==> Pairs(ts)[k] == Pairs(ts[2..])[k - 1]
  {
  }

  /** When the first row and the rest parse, the points are the first row's
      point followed by the rest's points. */
  lemma ParsePairsCons(ts: seq<string>, parse: string -> Option<real>)
    requires |ts| >= 2 && ParseRow(ts[0], ts[1], parse).Ok? && ParsePairs(ts[2..], parse).Ok?
    ensures ParsePairs(ts, parse)
            == Ok([ParseRow(ts[0], ts[1], parse).value] + ParsePairs(ts[2..], parse).value)
    ensures |ParsePairs(ts, parse).value| == |ParsePairs(ts[2..], parse).value| + 1
    ensures ParsePairs(ts, parse).value[0] == ParseRow(ts[0], ts[1], parse).value
    ensures forall k :: 1 <= k < |ParsePairs(ts, parse).value| ==>
              ParsePairs(ts, parse).value[k] == ParsePairs(ts[2..], parse).value[k - 1]
  {
    var p, ps := ParseRow(ts[0], ts[1], parse).value, ParsePairs(ts[2..], parse).value;
    assert ParsePairs(ts, parse) == Ok([p] + ps);
  }

  /** `parseOut`'s loop row by row: the parse succeeds exactly when every pair
      parses, and then point k is the row of pair k. */
  lemma {:induction false} ParsePairsByPair(ts: seq<string>, parse: string -> Option<real>)
    ensures ParsePairs(ts, parse).Ok? <==>
              forall k :: 0 <= k < |Pairs(ts)| ==> ParseRow(Pairs(ts)[k].0, Pairs(ts)[k].1, parse).Ok?
    ensures ParsePairs(ts, parse).Ok? ==>
              forall k :: 0 <= k < |Pairs(ts)| ==>
                Ok(ParsePairs(ts, parse).value[k]) == ParseRow(Pairs(ts)[k].0, Pairs(ts)[k].1, parse)
    decreases |ts|
  {
    if |ts| >= 2 {
      var rest := ts[2..];
      ParsePairsByPair(rest, parse);
      PairsCons(ts);
      if ParseRow(ts[0], ts[1], parse).Err? {
        assert 0 < |Pairs(ts)| && !ParseRow(Pairs(ts)[0].0, Pairs(ts)[0].1, parse).Ok?;
        assert ParsePairs(ts, parse).Err?;
      } else if ParsePairs(rest, parse).Err? {
        var j :| 0 <= j < |Pairs(rest)| && !ParseRow(Pairs(rest)[j].0, Pairs(rest)[j].1, parse).Ok?;
        assert Pairs(ts)[j + 1] == Pairs(rest)[j];
      } else {
        ParsePairsCons(ts, parse);
      }
    }
  }

  /** A successful parse has one point per pair of tokens, point k made from
      tokens 2k and 2k+1; it succeeds exactly when every pair parses. */
  lemma ParsePairsRows(ts: seq<string>, parse: string -> Option<real>)
    ensures ParsePairs(ts, parse).Ok? <==>
              forall k :: 0 <= k && 2 * k + 1 < |ts| ==> ParseRow(ts[2 * k], ts[2 * k + 1], parse).Ok?
    ensures ParsePairs(ts, parse).Ok? ==>
              forall k :: 0 <= k && 2 * k + 1 < |ts| ==>
                Ok(ParsePairs(ts, parse).value[k]) == ParseRow(ts[2 * k], ts[2 * k + 1], parse)
  {
    ParsePairsByPair(ts, parse);
    PairsAt(ts);
  }

  /** A token left over after the last pair changes nothing. */
  lemma {:induction false} OddTokenIgnored(ts: seq<string>, t: string, parse: string -> Option<real>)
    requires |ts| % 2 == 0
    ensures ParsePairs(ts + [t], parse) == ParsePairs(ts, parse)
    decreases |ts|
  {
    if |ts| >= 2 {
      assert (ts + [t])[2..] == ts[2..] + [t];
      OddTokenIgnored(ts[2..], t, parse);
    }
  }

  // ---------------------------------------------------------------------------
  // The printed form of a tensor, and the round trip through parseOut

  /** The indentation PyTorch puts before every row after the first. */
  const Indent: string := "\n        "

  /** The comma-separated tokens of rows printed as `[a, v]` and separated by
      `,` plus the indentation: `lead[a`, then ` v]`. */
  function RowTokens(rows: seq<EmotionPoint>, lead: string, fmt: real -> string): (r: seq<string>)
    ensures |r| == 2 * |rows|
    ensures rows != [] ==> r[|r| - 1] == " " + fmt(rows[|rows| - 1].valence) + "]"
    decreases |rows|
  {
    if rows == [] then []
    else [lead + "[" + fmt(rows[0].arousal), " " + fmt(rows[0].valence) + "]"]
         + RowTokens(rows[1..], Indent, fmt)
  }

  /** `print(t)` for an N x 2 tensor `t` whose numbers print as `fmt` gives
      them, followed by `suffix` (such as `, grad_fn=...)` or `)`). */
  function Printed(rows: seq<EmotionPoint>, fmt: real -> string, suffix: string): string
  {
    "tensor([" + (if rows == [] then "" else Join(RowTokens(rows, "", fmt), ',')) + "]" + suffix
  }

  /** What the round trip needs of the number format: every printed number is
      non-empty, has no comma and no white space at its ends, and parses back. */
  ghost predicate PrintsAndParses(fmt: real -> string, parse: string -> Option<real>)
  {
    forall x :: fmt(x) != [] && ',' !in fmt(x)
                && !IsWhitespace(fmt(x)[0]) && !IsWhitespace(fmt(x)[|fmt(x)| - 1])
                && parse(fmt(x)) == Some(x)
  }

  lemma {:induction false} RowTokensCommaFree(rows: seq<EmotionPoint>, lead: string, fmt: real -> string)
    requires ',' !in lead && forall x :: ',' !in fmt(x)
    ensures forall k :: 0 <= k < |RowTokens(rows, lead, fmt)| ==> ',' !in RowTokens(rows, lead, fmt)[k]
    decreases |rows|
  {
    if rows != [] {
      RowTokensCommaFree(rows[1..], Indent, fmt);
      var t := RowTokens(rows, lead, fmt);
      assert t[2..] == RowTokens(rows[1..], Indent, fmt);
      var a := lead + "[" + fmt(rows[0].arousal);
      assert ',' !in a by { assert a == lead + ['['] + fmt(rows[0].arousal); }
    }
  }

  /** One printed row parses back to its point. */
  lemma RowParses(lead: string, a: real, v: real, fmt: real -> string, parse: string -> Option<real>)
    requires '[' !in lead && PrintsAndParses(fmt, parse)
    ensures ParseRow(lead + "[" + fmt(a), " " + fmt(v) + "]", parse) == Ok(EmotionPoint(a, v))
  {
    var fa, fv := fmt(a), fmt(v);
    IndexOfCharAfter(lead, '[', fa);
    assert lead + "[" + fa == lead + ['['] + fa;
    AfterFirstCuts(lead + "[" + fa, '[');
    assert ArousalText(lead + "[" + fa) == fa;
    var t := " " + fv + "]";
    assert t[..|t| - 1] == [' '] + fv;
    StripPadded(fv);
    assert ValenceText(t) == Ok(fv);
  }

  /** The printed rows, cut into tokens, parse back to the rows. */
  lemma {:induction false} RowTokensParse(rows: seq<EmotionPoint>, lead: string,
                                          fmt: real -> string, parse: string -> Option<real>)
    requires '[' !in lead && PrintsAndParses(fmt, parse)
    ensures ParsePairs(RowTokens(rows, lead, fmt), parse) == Ok(rows)
    decreases |rows|
  {
    if rows != [] {
      var ts := RowTokens(rows, lead, fmt);
      var first, rest := rows[0], rows[1..];
      assert ts[0] == lead + "[" + fmt(first.arousal) && ts[1] == " " + fmt(first.valence) + "]";
      assert ts[2..] == RowTokens(rest, Indent, fmt);
      RowParses(lead, first.arousal, first.valence, fmt, parse);
      RowTokensParse(rest, Indent, fmt, parse);
      ParsePairsCons(ts, parse);
      assert [first] + rest == rows;
    }
  }

  /** The body of a printed tensor is the text between "tensor([" and the
      closing bracket. */
  lemma BodyOfPrinted(body: string, suffix: string)
    requires ']' !in suffix
    ensures Body("tensor([" + body + "]" + suffix) == Ok(body)
  {
    var s := "tensor([" + body + "]" + suffix;
    assert s == ("tensor([" + body) + [']'] + suffix;
    LastIndexOfBefore("tensor([" + body, ']', suffix);
    assert s[8..8 + |body|] == body;
  }

  /** Parsing the printed tensor gives back its rows, in order, whatever
      follows the closing bracket as long as it holds no ']'. */
  lemma PrintedRoundTrip(rows: seq<EmotionPoint>, fmt: real -> string,
                         parse: string -> Option<real>, suffix: string)
    requires PrintsAndParses(fmt, parse)
    requires ']' !in suffix
    ensures ParseOutSpec(Printed(rows, fmt, suffix), parse) == Ok(rows)
  {
    var body := if rows == [] then "" else Join(RowTokens(rows, "", fmt), ',');
    BodyOfPrinted(body, suffix);
    assert ParseOutSpec(Printed(rows, fmt, suffix), parse) == ParsePairs(Split(body, ','), parse);
    if rows == [] {
      assert Split(body, ',') == [""];
    } else {
      PrintedTokens(rows, fmt);
      RowTokensParse(rows, "", fmt, parse);
    }
  }

  /** The printed rows split back into their tokens. */
  lemma PrintedTokens(rows: seq<EmotionPoint>, fmt: real -> string)
    requires rows != [] && forall x :: fmt(x) != [] && ',' !in fmt(x)
    ensures Split(Join(RowTokens(rows, "", fmt), ','), ',') == RowTokens(rows, "", fmt)
  {
    var ts := RowTokens(rows, "", fmt);
    RowTokensCommaFree(rows, "", fmt);
    assert ts[|ts| - 1] != [];
    SplitJoin(ts, ',');
  }

  // ---------------------------------------------------------------------------
  // parseOut as intended: a malformed tensor is an error, not a short result

  /** `parseOut` with the parse error it is meant to raise: a body without
      tokens, or with an odd number of them, is Malformed; otherwise the
      tokens are read two at a time as before. */
  function ParseOutChecked(s: string, parse: string -> Option<real>): (r: Result<seq<EmotionPoint>>)
    ensures Body(s).Err? ==> r == Err(IndexOutOfBounds)
    ensures Body(s).Ok? ==>
              var ts := Split(Body(s).value, ',');
              && (|ts| == 0 || |ts| % 2 == 1 ==> r == Err(Malformed))
              && (r.Ok? ==> r.value != [] && 2 * |r.value| == |ts|)
    ensures r.Ok? ==> r == ParseOutSpec(s, parse)
  {
    match Body(s)
    case Err(e) => Err(e)
    case Ok(b) =>
      var ts := Split(b, ',');
      if |ts| == 0 || |ts| % 2 == 1 then Err(Malformed) else ParsePairs(ts, parse)
  }

  /** As written, an empty tensor, and so a clip the scorer gave no rows for,
      parses to no points at all; the intended parser reports it as malformed. */
  lemma EmptyTensorAsWritten(suffix: string, parse: string -> Option<real>)
    requires ']' !in suffix
    ensures ParseOutSpec("tensor([]" + suffix, parse) == Ok([])
    ensures ParseOutChecked("tensor([]" + suffix, parse) == Err(Malformed)
  {
    assert "tensor([]" + suffix == "tensor([" + "" + "]" + suffix;
    BodyOfPrinted("", suffix);
    assert Split("", ',') == [""];
  }

  /** With a body of `2n` tokens, `n` positive, the intended parser reads the
      tokens as `parseOut` does. */
  lemma CheckedOfBody(text: string, body: string, n: nat, parse: string -> Option<real>)
    requires Body(text) == Ok(body)
    requires |Split(body, ',')| == 2 * n && n > 0
    ensures ParseOutChecked(text, parse) == ParsePairs(Split(body, ','), parse)
  {
    assert (2 * n) % 2 == 0;
  }

  /** With a body of `2n + 1` tokens the intended parser reports the tensor
      as malformed. */
  lemma MalformedOfBody(text: string, body: string, n: nat, parse: string -> Option<real>)
    requires Body(text) == Ok(body)
    requires |Split(body, ',')| == 2 * n + 1
    ensures ParseOutChecked(text, parse) == Err(Malformed)
  {
    assert (2 * n + 1) % 2 == 1;
  }

  /** The intended parser still reads back every printed tensor with at least
      one row. */
  lemma CheckedRoundTrip(rows: seq<EmotionPoint>, fmt: real -> string,
                         parse: string -> Option<real>, suffix: string)
    requires PrintsAndParses(fmt, parse)
    requires ']' !in suffix && rows != []
    ensures ParseOutChecked(Printed(rows, fmt, suffix), parse) == Ok(rows)
  {
    var ts := RowTokens(rows, "", fmt);
    var body := Join(ts, ',');
    var text := "tensor([" + body + "]" + suffix;
    assert Printed(rows, fmt, suffix) == text;
    BodyOfPrinted(body, suffix);
    PrintedTokens(rows, fmt);
    RowTokensParse(rows, "", fmt, parse);
    assert Split(body, ',') == ts && |ts| == 2 * |rows|;
    CheckedOfBody(text, body, |rows|, parse);
  }

  /** A printed tensor with one more non-empty token after its rows, a row cut
      in half, is malformed for the intended parser. */
  lemma CheckedRejectsCutRow(rows: seq<EmotionPoint>, fmt: real -> string,
                             parse: string -> Option<real>, suffix: string, extra: string)
    requires forall x :: fmt(x) != [] && ',' !in fmt(x)
    requires ']' !in suffix && extra != [] && ',' !in extra
    ensures ParseOutChecked("tensor([" + Join(RowTokens(rows, "", fmt) + [extra], ',') + "]" + suffix, parse)
            == Err(Malformed)
  {
    var ts := RowTokens(rows, "", fmt);
    var odd := ts + [extra];
    var body := Join(odd, ',');
    BodyOfPrinted(body, suffix);
    RowTokensCommaFree(rows, "", fmt);
    forall k | 0 <= k < |odd| ensures ',' !in odd[k] {
      if k < |ts| {
        assert odd[k] == ts[k];
      }
    }
    assert odd[|odd| - 1] == extra;
    SplitJoin(odd, ',');
    assert |Split(body, ',')| == 2 * |rows| + 1;
    MalformedOfBody("tensor([" + body + "]" + suffix, body, |rows|, parse);
  }
}
