/**
 * `api/utils.py`: the lenient `ensure_ftp_path` with its `create_dirs`
 * switch, the composition `process_and_upload` over an abstract canvas and
 * session, and `process_intercalaire`.
 */
module Utils {
  import opened Wrappers
  import opened Numeric
  import opened Text
  import opened Raster
  import opened PhotoUtils
  import opened Ftp
  import opened FtpUtils

  // ---------------------------------------------------------------- ensure_ftp_path (lenient)

  /**
   * One segment: enter it; when that is refused and `create_dirs` is set,
   * make it and enter it. A refused `mkd` skips the second `cwd`, and the
   * error is swallowed either way.
   */
  function LenientStep(r: Remote, directory: string, createDirs: bool): (r': Remote)
    ensures r'.files == r.files && r'.account == r.account && r'.connected == r.connected
    ensures r.dirs <= r'.dirs && (!createDirs ==> r'.dirs == r.dirs)
    ensures |r.trace| <= |r'.trace| && r'.trace[..|r.trace|] == r.trace
    ensures !createDirs ==> forall k :: |r.trace| <= k < |r'.trace| ==> r'.trace[k].command.Cwd?
  {
    if directory == "" then r
    else if CanCwd(r, directory) then CwdStep(r, directory)
    else
      var r1 := CwdStep(r, directory);
      if !createDirs then r1
      else if !CanMkd(r1, directory) then MkdStep(r1, directory)
      else
        var r2 := MkdStep(r1, directory);
        CwdStep(r2, directory)
  }

  /** The loop over the pieces, as a fold: nothing in it can raise. */
  function LenientWalk(r: Remote, pieces: seq<string>, createDirs: bool): (r': Remote)
    ensures r'.files == r.files && r'.account == r.account && r'.connected == r.connected
    ensures r.dirs <= r'.dirs && (!createDirs ==> r'.dirs == r.dirs)
    ensures |r.trace| <= |r'.trace| && r'.trace[..|r.trace|] == r.trace
    ensures !createDirs ==> forall k :: |r.trace| <= k < |r'.trace| ==> r'.trace[k].command.Cwd?
    decreases |pieces|
  {
    if pieces == [] then r
    else
      var mid := LenientWalk(r, pieces[..|pieces| - 1], createDirs);
      var r' := LenientStep(mid, pieces[|pieces| - 1], createDirs);
      assert r'.trace[..|r.trace|] == mid.trace[..|mid.trace|][..|r.trace|];
      r'
  }

  /**
   * `ensure_ftp_path(ftp, path, create_dirs)` of `api/utils.py`: nothing for
   * an empty path; a leading '/' sends the session to the root first (the one
   * call outside any `try`), then every non-empty piece is walked. Only that
   * first `cwd('/')` can raise, and only when there is no session.
   */
  function EnsurePathLenient(r: Remote, path: string, createDirs: bool): (run: Run)
    ensures path == "" ==> run == Run(r, false)
    ensures run.raised <==> |path| > 0 && path[0] == '/' && !CanCwd(r, "/")
    ensures |path| > 0 && path[0] == '/' ==>
              |run.remote.trace| > |r.trace| && run.remote.trace[|r.trace|] == Reply(Cwd("/"), CanCwd(r, "/"))
    ensures run.remote.files == r.files && run.remote.account == r.account
    ensures |r.trace| <= |run.remote.trace| && run.remote.trace[..|r.trace|] == r.trace
    ensures !createDirs ==> run.remote.dirs == r.dirs
    ensures !createDirs ==> forall k :: |r.trace| <= k < |run.remote.trace| ==> run.remote.trace[k].command.Cwd?
  {
    if path == "" then Run(r, false)
    else if path[0] == '/' then
      var r1 := CwdStep(r, "/");
      if !CanCwd(r, "/") then Run(r1, true)
      else
        var r2 := LenientWalk(r1, Split(path[1..], "/"), createDirs);
        assert r2.trace[..|r.trace|] == r1.trace[..|r1.trace|][..|r.trace|];
        assert r2.trace[|r.trace|] == r2.trace[..|r1.trace|][|r.trace|];
        if !createDirs then
          OnlyCwdAfter(r.trace, r1.trace, r2.trace);
          Run(r2, false)
        else Run(r2, false)
    else Run(LenientWalk(r, Split(path, "/"), createDirs), false)
  }

  /** Two stretches of `cwd` replies, one after the other, are one stretch. */
  lemma OnlyCwdAfter(t0: seq<Reply>, t1: seq<Reply>, t2: seq<Reply>)
    requires |t0| <= |t1| <= |t2| && t2[..|t1|] == t1
    requires forall k :: |t0| <= k < |t1| ==> t1[k].command.Cwd?
    requires forall k :: |t1| <= k < |t2| ==> t2[k].command.Cwd?
    ensures forall k :: |t0| <= k < |t2| ==> t2[k].command.Cwd?
  {
    forall k | |t0| <= k < |t1|
      ensures t2[k].command.Cwd?
    {
      assert t2[k] == t2[..|t1|][k];
    }
  }

  /** The walk on a session, one `cwd`/`mkd` at a time. */
  method EnsureFtpPathLenient(ftp: Session, path: string, createDirs: bool) returns (raised: bool)
    modifies ftp
    ensures Run(ftp.State(), raised) == EnsurePathLenient(old(ftp.State()), path, createDirs)
  {
    raised := false;
    if path == "" {
      return;
    }
    var rest := path;
    if path[0] == '/' {
      var atRoot := ftp.Cwd("/");
      if !atRoot {
        raised := true;
        return;
      }
      rest := path[1..];
    }
    LenientWalkFtp(ftp, Split(rest, "/"), createDirs);
  }

  /** `for directory in path.split('/')` on a session. */
  method LenientWalkFtp(ftp: Session, pieces: seq<string>, createDirs: bool)
    modifies ftp
    ensures ftp.State() == LenientWalk(old(ftp.State()), pieces, createDirs)
  {
    ghost var start := ftp.State();
    for i := 0 to |pieces|
      invariant ftp.State() == LenientWalk(start, pieces[..i], createDirs)
    {
      assert pieces[..i + 1][..i] == pieces[..i];
      LenientStepFtp(ftp, pieces[i], createDirs);
    }
    assert pieces[..|pieces|] == pieces;
  }

  /** One piece of the walk on a session; every error is swallowed. */
  method LenientStepFtp(ftp: Session, directory: string, createDirs: bool)
    modifies ftp
    ensures ftp.State() == LenientStep(old(ftp.State()), directory, createDirs)
  {
    if directory != "" {
      var entered := ftp.Cwd(directory);
      if !entered && createDirs {
        var made := ftp.Mkd(directory);
        if made {
          entered := ftp.Cwd(directory);
        }
      }
    }
  }

  /** The walk keeps the tree well-formed. */
  lemma {:induction false} LenientWalkKeepsValid(r: Remote, pieces: seq<string>, createDirs: bool)
    requires ValidRemote(r)
    ensures ValidRemote(LenientWalk(r, pieces, createDirs))
    decreases |pieces|
  {
    if pieces != [] {
      var n := |pieces| - 1;
      var directory := pieces[n];
      LenientWalkKeepsValid(r, pieces[..n], createDirs);
      var mid := LenientWalk(r, pieces[..n], createDirs);
      StepsKeepValid(mid, mid.account, directory, "");
      var r1 := CwdStep(mid, directory);
      StepsKeepValid(r1, mid.account, directory, "");
      var r2 := MkdStep(r1, directory);
      StepsKeepValid(r2, mid.account, directory, "");
    }
  }

  /** Empty pieces are skipped: walking the pieces is walking the path's segments. */
  lemma {:induction false} LenientSkipsEmpty(r: Remote, pieces: seq<string>, createDirs: bool)
    ensures LenientWalk(r, pieces, createDirs) == LenientWalk(r, NonEmpty(pieces), createDirs)
    decreases |pieces|
  {
    if pieces != [] {
      var n := |pieces| - 1;
      var init, x := pieces[..n], pieces[n];
      assert pieces == init + [x];
      assert [x][1..] == [];
      NonEmptyAppend(init, [x]);
      LenientSkipsEmpty(r, init, createDirs);
      var ne := NonEmpty(init);
      assert NonEmpty(pieces) == ne + NonEmpty([x]);
      assert LenientWalk(r, pieces, createDirs) == LenientStep(LenientWalk(r, init, createDirs), x, createDirs);
      if x != "" {
        assert NonEmpty([x]) == [x];
        assert (ne + [x])[..|ne|] == ne;
        assert LenientWalk(r, ne + [x], createDirs) == LenientStep(LenientWalk(r, ne, createDirs), x, createDirs);
      } else {
        assert NonEmpty([x]) == [];
        assert ne + [] == ne;
      }
    }
  }

  /**
   * Where the enter-or-make walk of `api/ftp_utils.py` does not raise, the
   * lenient walk with `create_dirs` set goes through the same states.
   */
  lemma {:induction false} LenientAgreesWithNested(r: Remote, pieces: seq<string>)
    requires !NestedWalk(Run(r, false), pieces).raised
    ensures LenientWalk(r, pieces, true) == NestedWalk(Run(r, false), pieces).remote
    decreases |pieces|
  {
    if pieces != [] {
      var n := |pieces| - 1;
      var init, x := pieces[..n], pieces[n];
      var mid := NestedWalk(Run(r, false), init);
      assert !mid.raised;
      LenientAgreesWithNested(r, init);
    }
  }

  /** The directory, relative to which `ensure_ftp_path` walks `path`. */
  function WalkBase(r: Remote, path: string): Path
  {
    if |path| > 0 && path[0] == '/' then [] else r.cwd
  }

  /** With `create_dirs` set and nothing in the way, the walk ends one level per segment below its base. */
  lemma LenientReaches(r: Remote, path: string)
    requires ValidRemote(r) && r.connected
    requires NoFileOnPath(r.files, WalkBase(r, path) + Segments(path), |WalkBase(r, path)|)
    ensures Reached(r, EnsurePathLenient(r, path, true), WalkBase(r, path) + Segments(path))
  {
    if path == "" {
      SegmentsOfPlainName(path);
      assert r.cwd + Segments(path) == r.cwd;
    } else if path[0] == '/' {
      RootSegments();
      StepsKeepValid(r, r.account, "/", "");
      var r1 := CwdStep(r, "/");
      assert r1.cwd == [] && r1.files == r.files && r1.dirs == r.dirs;
      SegmentsDropLeadingSlash(path);
      assert [] + Segments(path[1..]) == Segments(path);
      LenientPiecesReach(r1, path[1..]);
    } else {
      LenientPiecesReach(r, path);
    }
  }

  /** The segment loop with `create_dirs`, from wherever the session stands, reaches the path's segments below it. */
  lemma LenientPiecesReach(r: Remote, path: string)
    requires ValidRemote(r) && r.connected
    requires NoFileOnPath(r.files, r.cwd + Segments(path), |r.cwd|)
    ensures Reached(r, Run(LenientWalk(r, Split(path, "/"), true), false), r.cwd + Segments(path))
  {
    var segs := Segments(path);
    SegmentsArePlain(path);
    LenientSkipsEmpty(r, Split(path, "/"), true);
    NestedWalkReaches(r, segs);
    LenientAgreesWithNested(r, segs);
  }

  /** Every prefix of a directory of a well-formed tree is a directory. */
  lemma {:induction false} PrefixesExist(r: Remote, p: Path, k: nat)
    requires ValidRemote(r) && p in r.dirs && k <= |p|
    ensures p[..k] in r.dirs
    decreases |p|
  {
    if k < |p| {
      assert Parent(p)[..k] == p[..k];
      PrefixesExist(r, Parent(p), k);
    } else {
      assert p[..k] == p;
    }
  }

  /**
   * Through directories that all exist, the walk only enters: it ends one
   * level per segment below where it started and makes nothing, whatever
   * `create_dirs` says.
   */
  lemma {:induction false} LenientWalkExisting(r: Remote, segs: seq<string>, createDirs: bool)
    requires ValidRemote(r) && r.connected && r.cwd + segs in r.dirs
    requires forall name :: name in segs ==> name != "" && '/' !in name
    ensures LenientWalk(r, segs, createDirs).cwd == r.cwd + segs
    ensures LenientWalk(r, segs, createDirs).dirs == r.dirs
    decreases |segs|
  {
    if segs != [] {
      var n := |segs| - 1;
      var init, x := segs[..n], segs[n];
      assert x in segs;
      PrefixMembers(segs, n);
      var t := r.cwd + segs;
      PrefixesExist(r, t, |r.cwd| + n);
      assert t[..|r.cwd| + n] == r.cwd + init;
      LenientWalkExisting(r, init, createDirs);
      var mid := LenientWalk(r, init, createDirs);
      SegmentsOfPlainName(x);
      assert Resolve(mid.cwd, x) == t;
      assert CanCwd(mid, x);
    } else {
      assert r.cwd + segs == r.cwd;
    }
  }

  // ---------------------------------------------------------------- defaults and scale

  /** `get_value_with_default(values, index, default)`: the entry when there is one and it is not `None`. */
  function ValueOrDefault<T>(values: seq<Option<T>>, index: nat, default: T): (v: T)
    ensures index < |values| && values[index].Some? ==> v == values[index].value
    ensures index >= |values| || values[index].None? ==> v == default
  {
    if index < |values| && values[index].Some? then values[index].value else default
  }

  /** The width text sizes are scaled against. */
  const ReferenceWidth: int := 1000

  /** `result_w` is truthy: given and not 0. */
  predicate WidthGiven(resultW: Option<int>)
  {
    resultW.Some? && resultW.value != 0
  }

  /** `target_width`: the requested final width, or else the template's. */
  function TargetWidth(resultW: Option<int>, templateWidth: nat): int
  {
    if WidthGiven(resultW) then resultW.value else templateWidth
  }

  /** `scale_factor`: the target width over the reference width. */
  function ScaleFactor(resultW: Option<int>, templateWidth: nat): (scale: real)
    ensures scale * ReferenceWidth as real == TargetWidth(resultW, templateWidth) as real
  {
    TargetWidth(resultW, templateWidth) as real / ReferenceWidth as real
  }

  /** `int(font_size * scale_factor)`. */
  function AdjustedFontSize(fontSize: int, scale: real): int
  {
    Trunc(fontSize as real * scale)
  }

  /**
   * A text's drawn size is its requested size times the target width over
   * 1000, rounded down: at a target width of 1000 the size is kept.
   */
  lemma FontSizeFollowsTargetWidth(fontSize: int, resultW: Option<int>, templateWidth: nat)
    requires fontSize >= 0 && TargetWidth(resultW, templateWidth) >= 0
    ensures var n := AdjustedFontSize(fontSize, ScaleFactor(resultW, templateWidth));
            var t := TargetWidth(resultW, templateWidth);
            n * ReferenceWidth <= fontSize * t < (n + 1) * ReferenceWidth
    ensures TargetWidth(resultW, templateWidth) == ReferenceWidth ==>
              AdjustedFontSize(fontSize, ScaleFactor(resultW, templateWidth)) == fontSize
  {
    var t := TargetWidth(resultW, templateWidth);
    var n := AdjustedFontSize(fontSize, ScaleFactor(resultW, templateWidth));
    assert fontSize as real * ScaleFactor(resultW, templateWidth) == fontSize as real / 1000.0 * t as real;
    AspectBounds(n, fontSize as real / 1000.0 * t as real, fontSize, 1000, t);
    if t == ReferenceWidth {
      TruncOfInt(fontSize);
    }
  }

  // ---------------------------------------------------------------- layer geometry

  /** `int((width_factor / 100) * current_template.width)`. */
  function ScaledWidth(widthFactor: real, canvasWidth: nat): int
  {
    Trunc(widthFactor / 100.0 * canvasWidth as real)
  }

  /** `w` is `width_factor` percent of the canvas width, truncated: the exact share lies in `[w, w + 1)`. */
  predicate WidthShare(w: int, widthFactor: real, canvasWidth: nat)
  {
    w as real <= widthFactor / 100.0 * canvasWidth as real < w as real + 1.0
  }

  /**
   * The size a layer is resized to: its width is a share of the canvas
   * width, its height keeps the layer's aspect ratio (`scaled_width / (w /
   * h)`), both truncated. A zero side divides by zero, and a size that is
   * not positive on both axes is refused with both values.
   */
  function LayerSize(img: Image, widthFactor: real, canvasWidth: nat): (r: Result<Image, ImageError>)
    ensures r == Err(ZeroDivision) <==> img.width == 0 || img.height == 0
    ensures r.Err? ==> r.error == ZeroDivision || (r.error.InvalidDimensions? && (r.error.width <= 0 || r.error.height <= 0))
    ensures r.Ok? ==> r.value.width > 0 && r.value.height > 0 && r.value.mode == img.mode
    ensures r.Ok? ==> WidthShare(r.value.width, widthFactor, canvasWidth)
    ensures r.Ok? ==> r.value.height * img.width <= r.value.width * img.height < (r.value.height + 1) * img.width
  {
    if img.width == 0 || img.height == 0 then Err(ZeroDivision)
    else
      var width := ScaledWidth(widthFactor, canvasWidth);
      var aspect := img.width as real / img.height as real;
      var exact := width as real / aspect;
      var height := Trunc(exact);
      if width <= 0 || height <= 0 then Err(InvalidDimensions(width, height))
      else
        assert exact == width as real / img.width as real * img.height as real;
        AspectBounds(height, exact, width, img.width, img.height);
        Ok(Image(width, height, img.mode))
  }

  /** `int(p / 100 * size)`: a percentage of a canvas side, truncated. */
  function PercentOf(p: int, size: nat): (v: int)
    ensures 0 <= p ==> 0 <= v && v * 100 <= p * size < (v + 1) * 100
    ensures 0 <= p <= 100 ==> v <= size
  {
    var v := Trunc(p as real / 100.0 * size as real);
    if 0 <= p then
      PercentBounds(p, size);
      v
    else v
  }

  lemma PercentBounds(p: int, size: nat)
    requires 0 <= p
    ensures var v := Trunc(p as real / 100.0 * size as real);
            0 <= v && v * 100 <= p * size < (v + 1) * 100 && (p <= 100 ==> v <= size)
  {
    var exact := p as real / 100.0 * size as real;
    RealProductNonNegative(p as real / 100.0, size as real);
    var v := Trunc(exact);
    AspectBounds(v, exact, p, 100, size);
    if p <= 100 {
      MulMonotone(p, 100, size);
    }
  }

  lemma RealProductNonNegative(a: real, b: real)
    requires 0.0 <= a && 0.0 <= b
    ensures 0.0 <= a * b
  {
  }

  /** `(int(x / 100 * W), int(y / 100 * H))`: where a layer is pasted on a `W` x `H` canvas. */
  function PastePosition(x: int, y: int, width: nat, height: nat): (p: (int, int))
  {
    (PercentOf(x, width), PercentOf(y, height))
  }

  // ---------------------------------------------------------------- one layer

  /** The steps of one layer, in the order `process_and_upload` applies them. */
  datatype Stage = CropStage | RotateStage | FilterStage | ResizeStage | WatermarkStage | PasteStage

  /** The full sequence of steps; the watermark only when there is a watermark text. */
  function LayerOrder(watermark: bool): seq<Stage>
  {
    [CropStage, RotateStage, FilterStage, ResizeStage] + (if watermark then [WatermarkStage] else []) + [PasteStage]
  }

  /** One layer's settings, defaults applied: crop 0/0, rotation 0, filter 'none', width 100%, position 0/0. */
  datatype LayerSettings = LayerSettings(top: int, bottom: int, rotation: int, filter: string,
                                         widthFactor: real, x: int, y: int)

  /** The arguments of a `process_and_upload` call, in its parameter order. */
  datatype Job = Job(
    templateUrl: string, imageUrl: string, resultFile: Option<string>, resultW: Option<int>,
    xs: seq<Option<int>>, ys: seq<Option<int>>, rs: seq<Option<int>>, ws: seq<Option<real>>,
    cs: seq<Option<string>>, dhs: seq<Option<int>>, dbs: seq<Option<int>>,
    ts: seq<Option<string>>, tfs: seq<Option<string>>, tcs: seq<Option<string>>,
    tts: seq<Option<int>>, txs: seq<Option<int>>, tys: seq<Option<int>>,
    ftpHost: string, ftpUsername: string, ftpPassword: string,
    dpi: Option<int>, params: ImageParams, watermarkText: Option<string>)

  /** The `params` dictionary of the image routers, logged with the request. */
  datatype ImageParams = ImageParams(
    templateUrl: string, imageUrl: string, resultFile: Option<string>, resultW: Option<int>,
    xs: seq<Option<int>>, ys: seq<Option<int>>, rs: seq<Option<int>>, ws: seq<Option<real>>,
    cs: seq<Option<string>>, dhs: seq<Option<int>>, dbs: seq<Option<int>>,
    ts: seq<Option<string>>, tfs: seq<Option<string>>, tcs: seq<Option<string>>,
    tts: seq<Option<int>>, txs: seq<Option<int>>, tys: seq<Option<int>>)

  /** Layer `i`'s settings, each looked up with its default. */
  function SettingsAt(job: Job, i: nat): (s: LayerSettings)
    ensures s.top == ValueOrDefault(job.dhs, i, 0) && s.bottom == ValueOrDefault(job.dbs, i, 0)
    ensures s.rotation == ValueOrDefault(job.rs, i, 0) && s.filter == ValueOrDefault(job.cs, i, "none")
    ensures s.widthFactor == ValueOrDefault(job.ws, i, 100.0)
    ensures s.x == ValueOrDefault(job.xs, i, 0) && s.y == ValueOrDefault(job.ys, i, 0)
  {
    LayerSettings(ValueOrDefault(job.dhs, i, 0), ValueOrDefault(job.dbs, i, 0), ValueOrDefault(job.rs, i, 0),
                  ValueOrDefault(job.cs, i, "none"), ValueOrDefault(job.ws, i, 100.0),
                  ValueOrDefault(job.xs, i, 0), ValueOrDefault(job.ys, i, 0))
  }

  /** `if watermark_text:`: given and not empty. */
  predicate WatermarkGiven(watermarkText: Option<string>)
  {
    watermarkText.Some? && watermarkText.value != ""
  }

  /** How far one layer got: the steps it completed, and either its paste or the error that stopped it. */
  datatype LayerRun = LayerRun(stages: seq<Stage>, outcome: Result<Event, ImageError>)

  /**
   * One iteration of the image loop: crop, rotate, filter, size check and
   * resize, optional watermark (which turns the layer into RGB), paste at
   * the percentage position of the canvas. The first step that raises stops
   * the layer.
   */
  function TransformLayer(image: Image, index: nat, s: LayerSettings, watermark: bool,
                          width: nat, height: nat, arbitrary: RotationOracle): (run: LayerRun)
    ensures run.stages <= LayerOrder(watermark)
    ensures run.outcome.Ok? <==> run.stages == LayerOrder(watermark)
    ensures run.outcome.Ok? ==>
              var e := run.outcome.value;
              e.Paste? && e.layer == index && (e.x, e.y) == PastePosition(s.x, s.y, width, height) &&
              WidthShare(e.image.width, s.widthFactor, width) &&
              (watermark ==> e.image.mode == RGB)
  {
    var cropped := ApplyCrop(image, s.top as real, s.bottom as real);
    if cropped.Err? then LayerRun([], Err(cropped.error))
    else
      var rotated := ApplyRotation(cropped.value, s.rotation, arbitrary);
      var filtered := ApplyFilter(rotated, s.filter);
      if filtered.Err? then LayerRun([CropStage, RotateStage], Err(filtered.error))
      else
        var size := LayerSize(filtered.value, s.widthFactor, width);
        if size.Err? then LayerRun([CropStage, RotateStage, FilterStage], Err(size.error))
        else
          var layer := if watermark then Image(size.value.width, size.value.height, RGB) else size.value;
          var (x, y) := PastePosition(s.x, s.y, width, height);
          LayerRun(LayerOrder(watermark), Ok(Event.Paste(index, layer, x, y)))
  }

  // ---------------------------------------------------------------- the image loop

  /** The pastes made so far, and the index and error of the layer that raised, if one did. */
  datatype LayerPass = LayerPass(pastes: seq<Event>, failed: Option<(nat, ImageError)>)

  /** What each layer comes to on its own: its paste, or the error it raises. */
  function Outcomes(images: seq<Image>, job: Job, width: nat, height: nat, arbitrary: RotationOracle)
    : (outcomes: seq<Result<Event, ImageError>>)
    ensures |outcomes| == |images|
  {
    seq(|images|, i requires 0 <= i < |images| =>
      TransformLayer(images[i], i, SettingsAt(job, i), WatermarkGiven(job.watermarkText), width, height, arbitrary).outcome)
  }

  /** The loop over the layers' outcomes: collect the pastes until the first error. */
  function Pass(outcomes: seq<Result<Event, ImageError>>): (pass: LayerPass)
    ensures pass.failed.None? ==> |pass.pastes| == |outcomes|
    ensures pass.failed.Some? ==> var i := pass.failed.value.0;
              i < |outcomes| && |pass.pastes| == i && outcomes[i] == Err(pass.failed.value.1)
    ensures forall k :: 0 <= k < |pass.pastes| ==> outcomes[k] == Ok(pass.pastes[k])
    decreases |outcomes|
  {
    if outcomes == [] then LayerPass([], None)
    else
      var n := |outcomes| - 1;
      var before := Pass(outcomes[..n]);
      if before.failed.Some? then before
      else if outcomes[n].Err? then LayerPass(before.pastes, Some((n, outcomes[n].error)))
      else LayerPass(before.pastes + [outcomes[n].value], None)
  }

  /** Once an outcome is an error, the later ones change nothing. */
  lemma {:induction false} PassFailureStays(outcomes: seq<Result<Event, ImageError>>, k: nat)
    requires k <= |outcomes| && Pass(outcomes[..k]).failed.Some?
    ensures Pass(outcomes) == Pass(outcomes[..k])
    decreases |outcomes|
  {
    if k < |outcomes| {
      var n := |outcomes| - 1;
      assert outcomes[..n][..k] == outcomes[..k];
      PassFailureStays(outcomes[..n], k);
    } else {
      assert outcomes[..k] == outcomes;
    }
  }

  /** The outcomes of a prefix of the layers are the prefix of the outcomes. */
  lemma OutcomesPrefix(images: seq<Image>, job: Job, width: nat, height: nat, arbitrary: RotationOracle, k: nat)
    requires k <= |images|
    ensures Outcomes(images[..k], job, width, height, arbitrary) == Outcomes(images, job, width, height, arbitrary)[..k]
  {
  }

  /** An outcome that pastes extends the pass's events by that paste. */
  lemma PassStepPastes(outcomes: seq<Result<Event, ImageError>>, i: nat, base: seq<Event>, after: seq<Event>)
    requires i < |outcomes| && Pass(outcomes[..i]).failed.None? && outcomes[i].Ok?
    requires after == base + Pass(outcomes[..i]).pastes + [outcomes[i].value]
    ensures Pass(outcomes[..i + 1]).failed.None? && after == base + Pass(outcomes[..i + 1]).pastes
  {
    assert outcomes[..i + 1][..i] == outcomes[..i];
  }

  /** An outcome that is an error ends the pass with the pastes made before it and that error. */
  lemma PassStepRaises(outcomes: seq<Result<Event, ImageError>>, i: nat)
    requires i < |outcomes| && Pass(outcomes[..i]).failed.None? && outcomes[i].Err?
    ensures Pass(outcomes) == LayerPass(Pass(outcomes[..i]).pastes, Some((i, outcomes[i].error)))
  {
    assert outcomes[..i + 1][..i] == outcomes[..i];
    PassFailureStays(outcomes, i + 1);
  }

  /**
   * The image loop over `images`, layer `i` taking the `i`-th settings: every
   * layer is pasted in input order, or the first one that raises ends the
   * loop and no later layer is touched.
   */
  function Layers(images: seq<Image>, job: Job, width: nat, height: nat, arbitrary: RotationOracle): (pass: LayerPass)
    ensures pass.failed.None? ==> |pass.pastes| == |images|
    ensures pass.failed.Some? ==> var i := pass.failed.value.0;
              i < |images| && |pass.pastes| == i &&
              TransformLayer(images[i], i, SettingsAt(job, i), WatermarkGiven(job.watermarkText), width, height, arbitrary).outcome
                == Err(pass.failed.value.1)
    ensures forall k :: 0 <= k < |pass.pastes| ==>
              TransformLayer(images[k], k, SettingsAt(job, k), WatermarkGiven(job.watermarkText),
                             width, height, arbitrary).outcome == Ok(pass.pastes[k])
  {
    var outcomes := Outcomes(images, job, width, height, arbitrary);
    var pass := Pass(outcomes);
    assert forall k :: 0 <= k < |pass.pastes| ==> outcomes[k] == Ok(pass.pastes[k]);
    pass
  }

  /** One more layer: nothing once a layer has raised, else that layer's paste or error. */
  lemma LayersNext(images: seq<Image>, job: Job, width: nat, height: nat, arbitrary: RotationOracle, i: nat)
    requires i < |images|
    ensures var before := Layers(images[..i], job, width, height, arbitrary);
            var run := TransformLayer(images[i], i, SettingsAt(job, i), WatermarkGiven(job.watermarkText),
                                      width, height, arbitrary);
            Layers(images[..i + 1], job, width, height, arbitrary)
              == if before.failed.Some? then before
                 else if run.outcome.Err? then LayerPass(before.pastes, Some((i, run.outcome.error)))
                 else LayerPass(before.pastes + [run.outcome.value], None)
  {
    var all := Outcomes(images, job, width, height, arbitrary);
    OutcomesPrefix(images, job, width, height, arbitrary, i);
    OutcomesPrefix(images, job, width, height, arbitrary, i + 1);
    assert all[..i + 1][..i] == all[..i];
  }

  /** Once a layer has raised, the later layers change nothing. */
  lemma LayersFailureStays(images: seq<Image>, job: Job, width: nat, height: nat, arbitrary: RotationOracle, k: nat)
    requires k <= |images| && Layers(images[..k], job, width, height, arbitrary).failed.Some?
    ensures Layers(images, job, width, height, arbitrary) == Layers(images[..k], job, width, height, arbitrary)
  {
    OutcomesPrefix(images, job, width, height, arbitrary, k);
    PassFailureStays(Outcomes(images, job, width, height, arbitrary), k);
  }

  /** The default watermark colour "000000" always decodes, so the watermark of a layer never raises. */
  lemma DefaultWatermarkColourDecodes()
    ensures DecodeColor("000000", 100) == Some(Rgba(0, 0, 0, 100))
  {
    assert HexByte(0) == "00";
    assert "000000" == HexByte(0) + HexByte(0) + HexByte(0);
    DecodeEncodedColor(0, 0, 0, 100);
  }

  /**
   * The image loop on the canvas: each layer goes through the steps in
   * order and is pasted, until one raises.
   */
  method ComposeLayers(canvas: Canvas, images: seq<Image>, job: Job, arbitrary: RotationOracle, installed: set<string>)
    returns (failed: Option<(nat, ImageError)>)
    modifies canvas
    ensures var pass := Layers(images, job, canvas.width, canvas.height, arbitrary);
            canvas.events == old(canvas.events) + pass.pastes && failed == pass.failed
  {
    var watermark := WatermarkGiven(job.watermarkText);
    ghost var base := canvas.events;
    for i := 0 to |images|
      invariant Layers(images[..i], job, canvas.width, canvas.height, arbitrary).failed.None?
      invariant canvas.events == base + Layers(images[..i], job, canvas.width, canvas.height, arbitrary).pastes
    {
      var error := DrawLayerStep(canvas, images, i, job, watermark, arbitrary, installed, base);
      if error.Some? {
        return Some((i, error.value));
      }
    }
    assert images[..|images|] == images;
    failed := None;
  }

  /** One pass of the image loop, stated against the fold: layer `i` either extends the pastes or ends the loop. */
  method DrawLayerStep(canvas: Canvas, images: seq<Image>, i: nat, job: Job, watermark: bool, arbitrary: RotationOracle,
                       installed: set<string>, ghost base: seq<Event>)
    returns (error: Option<ImageError>)
    requires watermark == WatermarkGiven(job.watermarkText)
    requires i < |images| && Layers(images[..i], job, canvas.width, canvas.height, arbitrary).failed.None?
    requires canvas.events == base + Layers(images[..i], job, canvas.width, canvas.height, arbitrary).pastes
    modifies canvas
    ensures error.None? ==> && Layers(images[..i + 1], job, canvas.width, canvas.height, arbitrary).failed.None?
                            && canvas.events == base + Layers(images[..i + 1], job, canvas.width, canvas.height, arbitrary).pastes
    ensures error.Some? ==> && Layers(images, job, canvas.width, canvas.height, arbitrary).failed == Some((i, error.value))
                            && canvas.events == base + Layers(images, job, canvas.width, canvas.height, arbitrary).pastes
  {
    ghost var before := canvas.events;
    error := DrawLayer(canvas, images[i], i, SettingsAt(job, i), watermark, job.watermarkText, arbitrary, installed);
    LayerStepEvents(images, i, job, canvas.width, canvas.height, arbitrary, base, before, canvas.events, error);
  }

  /** The events of one pass of the image loop, appended to those of the passes before it, are those of the loop. */
  lemma LayerStepEvents(images: seq<Image>, i: nat, job: Job, width: nat, height: nat, arbitrary: RotationOracle,
                        base: seq<Event>, before: seq<Event>, after: seq<Event>, error: Option<ImageError>)
    requires i < |images| && Layers(images[..i], job, width, height, arbitrary).failed.None?
    requires before == base + Layers(images[..i], job, width, height, arbitrary).pastes
    requires var run := TransformLayer(images[i], i, SettingsAt(job, i), WatermarkGiven(job.watermarkText),
                                       width, height, arbitrary);
             && (error.Some? <==> run.outcome.Err?)
             && (run.outcome.Err? ==> error.value == run.outcome.error && after == before)
             && (run.outcome.Ok? ==> after == before + [run.outcome.value])
    ensures error.None? ==> && Layers(images[..i + 1], job, width, height, arbitrary).failed.None?
                            && after == base + Layers(images[..i + 1], job, width, height, arbitrary).pastes
    ensures error.Some? ==> && Layers(images, job, width, height, arbitrary).failed == Some((i, error.value))
                            && after == base + Layers(images, job, width, height, arbitrary).pastes
  {
    var all := Outcomes(images, job, width, height, arbitrary);
    OutcomesPrefix(images, job, width, height, arbitrary, i);
    if error.Some? {
      PassStepRaises(all, i);
    } else {
      OutcomesPrefix(images, job, width, height, arbitrary, i + 1);
      PassStepPastes(all, i, base, after);
    }
  }

  /** One pass of the image loop on the canvas: the layer's error, or its paste. */
  method DrawLayer(canvas: Canvas, image: Image, i: nat, s: LayerSettings, watermark: bool,
                   watermarkText: Option<string>, arbitrary: RotationOracle, installed: set<string>)
    returns (error: Option<ImageError>)
    requires watermark == WatermarkGiven(watermarkText)
    modifies canvas
    ensures var run := TransformLayer(image, i, s, watermark, canvas.width, canvas.height, arbitrary);
            && (error.Some? <==> run.outcome.Err?)
            && (run.outcome.Err? ==> error.value == run.outcome.error && canvas.events == old(canvas.events))
            && (run.outcome.Ok? ==> canvas.events == old(canvas.events) + [run.outcome.value])
  {
    var cropped := ApplyCrop(image, s.top as real, s.bottom as real);
    if cropped.Err? {
      return Some(cropped.error);
    }
    var rotated := ApplyRotation(cropped.value, s.rotation, arbitrary);
    var filtered := ApplyFilter(rotated, s.filter);
    if filtered.Err? {
      return Some(filtered.error);
    }
    var size := LayerSize(filtered.value, s.widthFactor, canvas.width);
    if size.Err? {
      return Some(size.error);
    }
    var layer := size.value;
    if watermark {
      DefaultWatermarkColourDecodes();
      var marked := ApplyWatermark(layer, watermarkText.value, "arial", 30, "000000", 100, 5, installed);
      layer := marked.value.image;
    }
    var (x, y) := PastePosition(s.x, s.y, canvas.width, canvas.height);
    canvas.Paste(i, layer, x, y);
    error := None;
  }

  // ---------------------------------------------------------------- the text loop

  /**
   * Text `i`: nothing when its text is empty, else `add_text` with the
   * font, colour and position looked up with their defaults, at the scaled
   * size, aligned left; `None` when `add_text` raises on the colour.
   */
  function TextLayer(job: Job, i: nat, width: nat, height: nat, scale: real, installed: set<string>)
    : (draws: Option<seq<Event>>)
    ensures draws.None? <==> ValueOrDefault(job.ts, i, "") != "" && !HashColourParses(ValueOrDefault(job.tcs, i, "000000"))
    ensures draws == Some([]) <==> ValueOrDefault(job.ts, i, "") == ""
    ensures draws.Some? ==>
              forall k :: 0 <= k < |draws.value| ==>
                draws.value[k].DrawText? && draws.value[k].size == AdjustedFontSize(ValueOrDefault(job.tts, i, 20), scale) &&
                draws.value[k].fill == "#" + ValueOrDefault(job.tcs, i, "000000") &&
                draws.value[k].font == ResolveFont(TextFontPath(ValueOrDefault(job.tfs, i, "arial")), installed)
  {
    var text := ValueOrDefault(job.ts, i, "");
    var color := ValueOrDefault(job.tcs, i, "000000");
    if text == "" then Some([])
    else if !HashColourParses(color) then None
    else
      var font := ResolveFont(TextFontPath(ValueOrDefault(job.tfs, i, "arial")), installed);
      var size := AdjustedFontSize(ValueOrDefault(job.tts, i, 20), scale);
      var x := ValueOrDefault(job.txs, i, 0) as real;
      var y := ValueOrDefault(job.tys, i, 0) as real;
      TextDrawsCoverText(width, height, text, font, size, x, y, color, "left");
      Some(TextDraws(width, height, text, font, size, x, y, color, "left"))
  }

  /** The texts drawn so far, and the text that raised, if one did. */
  datatype TextPass = TextPass(draws: seq<Event>, failed: Option<nat>)

  /** What each text comes to on its own: its drawn lines, or `None` when `add_text` raises. */
  function TextSteps(job: Job, width: nat, height: nat, scale: real, installed: set<string>)
    : (steps: seq<Option<seq<Event>>>)
    ensures |steps| == |job.ts|
  {
    seq(|job.ts|, i requires 0 <= i < |job.ts| => TextLayer(job, i, width, height, scale, installed))
  }

  /** The loop over the texts' steps: collect the drawings until the first text that raises. */
  function TextFold(steps: seq<Option<seq<Event>>>): (pass: TextPass)
    ensures pass.failed.None? <==> forall i :: 0 <= i < |steps| ==> steps[i].Some?
    ensures pass.failed.Some? ==>
              var i := pass.failed.value;
              i < |steps| && steps[i].None? && forall j :: 0 <= j < i ==> steps[j].Some?
    ensures (forall i, k :: 0 <= i < |steps| && steps[i].Some? && 0 <= k < |steps[i].value| ==> steps[i].value[k].DrawText?) ==>
              forall k :: 0 <= k < |pass.draws| ==> pass.draws[k].DrawText?
    decreases |steps|
  {
    if steps == [] then TextPass([], None)
    else
      var n := |steps| - 1;
      var before := TextFold(steps[..n]);
      assert forall i :: 0 <= i < n ==> steps[..n][i] == steps[i];
      if before.failed.Some? then before
      else if steps[n].None? then TextPass(before.draws, Some(n))
      else
        var drawn := before.draws + steps[n].value;
        assert forall k :: |before.draws| <= k < |drawn| ==> drawn[k] == steps[n].value[k - |before.draws|];
        TextPass(drawn, None)
  }

  /** One more step of the fold: nothing once a text has raised, else that text's draws or its failure. */
  lemma TextFoldNext(steps: seq<Option<seq<Event>>>, i: nat)
    requires i < |steps|
    ensures var before := TextFold(steps[..i]);
            TextFold(steps[..i + 1])
              == if before.failed.Some? then before
                 else if steps[i].None? then TextPass(before.draws, Some(i))
                 else TextPass(before.draws + steps[i].value, None)
  {
    assert steps[..i + 1][..i] == steps[..i];
  }

  /** Once a step has raised, the later steps change nothing. */
  lemma {:induction false} TextFoldFailureStays(steps: seq<Option<seq<Event>>>, k: nat)
    requires k <= |steps| && TextFold(steps[..k]).failed.Some?
    ensures TextFold(steps) == TextFold(steps[..k])
    decreases |steps|
  {
    if k < |steps| {
      var n := |steps| - 1;
      assert steps[..n][..k] == steps[..k];
      TextFoldFailureStays(steps[..n], k);
      TextFoldNext(steps, n);
      assert steps[..n + 1] == steps;
    } else {
      assert steps[..k] == steps;
    }
  }

  /** The first `n` passes of the text loop: every text in order, until one raises. */
  function TextsUpTo(job: Job, n: nat, width: nat, height: nat, scale: real, installed: set<string>): (pass: TextPass)
    requires n <= |job.ts|
    ensures forall k :: 0 <= k < |pass.draws| ==> pass.draws[k].DrawText?
  {
    var steps := TextSteps(job, width, height, scale, installed)[..n];
    assert forall i :: 0 <= i < n ==> steps[i] == TextLayer(job, i, width, height, scale, installed);
    TextFold(steps)
  }

  /** The text loop ends without failure exactly when no text raises, and otherwise at the first text that raises. */
  lemma TextsUpToStops(job: Job, n: nat, width: nat, height: nat, scale: real, installed: set<string>)
    requires n <= |job.ts|
    ensures var pass := TextsUpTo(job, n, width, height, scale, installed);
            && (pass.failed.None? <==> forall i :: 0 <= i < n ==> TextLayer(job, i, width, height, scale, installed).Some?)
            && (pass.failed.Some? ==>
                  var i := pass.failed.value;
                  i < n && TextLayer(job, i, width, height, scale, installed).None? &&
                  forall j :: 0 <= j < i ==> TextLayer(job, j, width, height, scale, installed).Some?)
  {
    var steps := TextSteps(job, width, height, scale, installed)[..n];
    assert forall i :: 0 <= i < n ==> steps[i] == TextLayer(job, i, width, height, scale, installed);
  }

  /** One more pass of the text loop: nothing once a text has raised, else that text's draws or its failure. */
  lemma TextsNext(job: Job, n: nat, width: nat, height: nat, scale: real, installed: set<string>)
    requires n < |job.ts|
    ensures var before := TextsUpTo(job, n, width, height, scale, installed);
            var last := TextLayer(job, n, width, height, scale, installed);
            TextsUpTo(job, n + 1, width, height, scale, installed)
              == if before.failed.Some? then before
                 else if last.None? then TextPass(before.draws, Some(n))
                 else TextPass(before.draws + last.value, None)
  {
    TextFoldNext(TextSteps(job, width, height, scale, installed), n);
  }

  /** Once a text has raised, the later passes change nothing. */
  lemma TextsFailureStays(job: Job, n: nat, k: nat, width: nat, height: nat, scale: real, installed: set<string>)
    requires k <= n <= |job.ts| && TextsUpTo(job, k, width, height, scale, installed).failed.Some?
    ensures TextsUpTo(job, n, width, height, scale, installed) == TextsUpTo(job, k, width, height, scale, installed)
  {
    var steps := TextSteps(job, width, height, scale, installed);
    assert steps[..n][..k] == steps[..k];
    TextFoldFailureStays(steps[..n], k);
  }

  /** A fold that raises has drawn exactly the steps before the one that raised. */
  lemma TextFoldStopAtFailure(steps: seq<Option<seq<Event>>>)
    requires TextFold(steps).failed.Some?
    ensures var pass := TextFold(steps);
            pass.draws == TextFold(steps[..pass.failed.value]).draws
  {
    var i := TextFold(steps).failed.value;
    assert forall j :: 0 <= j < i ==> steps[..i][j] == steps[j];
    assert TextFold(steps[..i]).failed.None?;
    TextFoldStepRaises(steps, i);
  }

  /** A text loop that raises has drawn exactly the texts before the one that raised. */
  lemma TextsStopAtFailure(job: Job, n: nat, width: nat, height: nat, scale: real, installed: set<string>)
    requires n <= |job.ts| && TextsUpTo(job, n, width, height, scale, installed).failed.Some?
    ensures var pass := TextsUpTo(job, n, width, height, scale, installed);
            pass.draws == TextsUpTo(job, pass.failed.value, width, height, scale, installed).draws
  {
    var steps := TextSteps(job, width, height, scale, installed);
    var i := TextFold(steps[..n]).failed.value;
    TextFoldStopAtFailure(steps[..n]);
    assert steps[..n][..i] == steps[..i];
  }

  /** One pass of the text loop: text `i`, drawn unless it is empty; whether `add_text` raised. */
  method DrawTextLayer(canvas: Canvas, job: Job, i: nat, scale: real, installed: set<string>) returns (raised: bool)
    modifies canvas
    ensures var step := TextLayer(job, i, canvas.width, canvas.height, scale, installed);
            && (raised <==> step.None?)
            && canvas.events == old(canvas.events) + (if raised then [] else step.value)
  {
    var text := ValueOrDefault(job.ts, i, "");
    var fontName := ValueOrDefault(job.tfs, i, "arial");
    var color := ValueOrDefault(job.tcs, i, "000000");
    var fontSize := ValueOrDefault(job.tts, i, 20);
    var tx := ValueOrDefault(job.txs, i, 0);
    var ty := ValueOrDefault(job.tys, i, 0);
    raised := false;
    if text != "" {
      raised := AddText(canvas, text, fontName, AdjustedFontSize(fontSize, scale), tx as real, ty as real, color, "left", installed);
    }
  }

  /** Before the first text, nothing is drawn and nothing has raised. */
  lemma TextsStart(job: Job, width: nat, height: nat, scale: real, installed: set<string>)
    ensures TextsUpTo(job, 0, width, height, scale, installed) == TextPass([], None)
  {
  }

  /** `for i in range(len(ts))` on the canvas: the texts in order, until one raises. */
  method DrawTexts(canvas: Canvas, job: Job, scale: real, installed: set<string>) returns (failed: Option<nat>)
    modifies canvas
    ensures var pass := TextsUpTo(job, |job.ts|, canvas.width, canvas.height, scale, installed);
            canvas.events == old(canvas.events) + pass.draws && failed == pass.failed
  {
    ghost var base := canvas.events;
    TextsStart(job, canvas.width, canvas.height, scale, installed);
    for i := 0 to |job.ts|
      invariant TextsUpTo(job, i, canvas.width, canvas.height, scale, installed).failed.None?
      invariant canvas.events == base + TextsUpTo(job, i, canvas.width, canvas.height, scale, installed).draws
    {
      var raised := DrawTextStep(canvas, job, i, scale, installed, base);
      if raised {
        return Some(i);
      }
    }
    failed := None;
  }

  /** One pass of the text loop, stated against the fold: text `i` either extends the drawn prefix or ends the loop. */
  method DrawTextStep(canvas: Canvas, job: Job, i: nat, scale: real, installed: set<string>, ghost base: seq<Event>)
      returns (raised: bool)
    requires i < |job.ts| && TextsUpTo(job, i, canvas.width, canvas.height, scale, installed).failed.None?
    requires canvas.events == base + TextsUpTo(job, i, canvas.width, canvas.height, scale, installed).draws
    modifies canvas
    ensures !raised ==> && TextsUpTo(job, i + 1, canvas.width, canvas.height, scale, installed).failed.None?
                        && canvas.events == base + TextsUpTo(job, i + 1, canvas.width, canvas.height, scale, installed).draws
    ensures raised ==> && TextsUpTo(job, |job.ts|, canvas.width, canvas.height, scale, installed).failed == Some(i)
                       && canvas.events == base + TextsUpTo(job, |job.ts|, canvas.width, canvas.height, scale, installed).draws
  {
    ghost var before := canvas.events;
    raised := DrawTextLayer(canvas, job, i, scale, installed);
    TextStepEvents(job, i, canvas.width, canvas.height, scale, installed, base, before, canvas.events, raised);
  }

  /** A step that draws extends the fold's events by its own. */
  lemma TextFoldStepDraws(steps: seq<Option<seq<Event>>>, i: nat, base: seq<Event>, after: seq<Event>)
    requires i < |steps| && TextFold(steps[..i]).failed.None? && steps[i].Some?
    requires after == base + TextFold(steps[..i]).draws + steps[i].value
    ensures TextFold(steps[..i + 1]).failed.None? && after == base + TextFold(steps[..i + 1]).draws
  {
    TextFoldNext(steps, i);
  }

  /** A step that raises ends the fold with the events drawn before it. */
  lemma TextFoldStepRaises(steps: seq<Option<seq<Event>>>, i: nat)
    requires i < |steps| && TextFold(steps[..i]).failed.None? && steps[i].None?
    ensures TextFold(steps) == TextPass(TextFold(steps[..i]).draws, Some(i))
  {
    TextFoldNext(steps, i);
    TextFoldFailureStays(steps, i + 1);
  }

  /** The events of one pass of the text loop, appended to those of the passes before it, are those of the loop. */
  lemma TextStepEvents(job: Job, i: nat, width: nat, height: nat, scale: real, installed: set<string>,
                       base: seq<Event>, before: seq<Event>, after: seq<Event>, raised: bool)
    requires i < |job.ts| && TextsUpTo(job, i, width, height, scale, installed).failed.None?
    requires before == base + TextsUpTo(job, i, width, height, scale, installed).draws
    requires var step := TextLayer(job, i, width, height, scale, installed);
             && (raised <==> step.None?)
             && after == before + (if raised then [] else step.value)
    ensures !raised ==> && TextsUpTo(job, i + 1, width, height, scale, installed).failed.None?
                        && after == base + TextsUpTo(job, i + 1, width, height, scale, installed).draws
    ensures raised ==> && TextsUpTo(job, |job.ts|, width, height, scale, installed).failed == Some(i)
                       && after == base + TextsUpTo(job, |job.ts|, width, height, scale, installed).draws
  {
    var steps := TextSteps(job, width, height, scale, installed);
    if raised {
      assert steps[..|job.ts|] == steps;
      TextFoldStepRaises(steps, i);
    } else {
      TextFoldStepDraws(steps, i, base, after);
    }
  }

  // ---------------------------------------------------------------- the result upload

  /** `if result_file:`: given and not empty. */
  predicate FileGiven(resultFile: Option<string>)
  {
    resultFile.Some? && resultFile.value != ""
  }

  /**
   * The upload block as written: log in, make sure of the directory part of
   * `result_file`, then `STOR result_file` from the directory the walk left
   * the session in. Every failure propagates; leaving the `with` block ends
   * the session.
   */
  function UploadResultAsWritten(r: Remote, c: Credentials, resultFile: string, content: string, createDirs: bool): (run: Run)
    ensures !CanOpen(r, c) ==> run.raised && run.remote.files == r.files
    ensures !run.remote.connected
  {
    var r1 := OpenStep(r, c);
    if !r1.connected then Run(r1, true)
    else
      var e := EnsurePathLenient(r1, PathSplit(resultFile).0, createDirs);
      if e.raised then Run(QuitStep(e.remote), true)
      else Run(QuitStep(StorStep(e.remote, resultFile, content)), !CanStor(e.remote, resultFile))
  }

  /**
   * The upload block as its variables say it is meant: once the walk stands
   * in the directory part, store under the file name part.
   */
  function UploadResult(r: Remote, c: Credentials, resultFile: string, content: string, createDirs: bool): (run: Run)
    ensures !CanOpen(r, c) ==> run.raised && run.remote.files == r.files
    ensures !run.remote.connected
  {
    var r1 := OpenStep(r, c);
    if !r1.connected then Run(r1, true)
    else
      var (dir, filename) := PathSplit(resultFile);
      var e := EnsurePathLenient(r1, dir, createDirs);
      if e.raised then Run(QuitStep(e.remote), true)
      else Run(QuitStep(StorStep(e.remote, filename, content)), !CanStor(e.remote, filename))
  }

  /** The upload block on a session, as written. */
  method UploadResultFile(ftp: Session, c: Credentials, resultFile: string, content: string, createDirs: bool)
    returns (raised: bool)
    modifies ftp
    ensures Run(ftp.State(), raised) == UploadResultAsWritten(old(ftp.State()), c, resultFile, content, createDirs)
  {
    var loggedIn := ftp.Open(c);
    if !loggedIn {
      return true;
    }
    var (dir, filename) := PathSplit(resultFile);
    raised := EnsureFtpPathLenient(ftp, dir, createDirs);
    if !raised {
      var stored := ftp.Stor(resultFile, content);
      raised := !stored;
    }
    ftp.Quit();
  }

  /** Through existing directories the walk enters every segment and makes nothing. */
  lemma LenientReachesExisting(r: Remote, path: string, createDirs: bool)
    requires ValidRemote(r) && r.connected
    requires WalkBase(r, path) + Segments(path) in r.dirs
    ensures Reached(r, EnsurePathLenient(r, path, createDirs), WalkBase(r, path) + Segments(path))
    ensures EnsurePathLenient(r, path, createDirs).remote.dirs == r.dirs
  {
    var segs := Segments(path);
    SegmentsArePlain(path);
    if path == "" {
      SegmentsOfPlainName(path);
      assert r.cwd + segs == r.cwd;
    } else if path[0] == '/' {
      assert WalkBase(r, path) + segs == segs;
      AbsoluteExistingReached(r, path, createDirs);
    } else {
      LenientSkipsEmpty(r, Split(path, "/"), createDirs);
      WalkExistingReached(r, segs, createDirs);
    }
  }

  lemma AbsoluteExistingReached(r: Remote, path: string, createDirs: bool)
    requires ValidRemote(r) && r.connected && path != "" && path[0] == '/'
    requires Segments(path) in r.dirs
    ensures Reached(r, EnsurePathLenient(r, path, createDirs), Segments(path))
    ensures EnsurePathLenient(r, path, createDirs).remote.dirs == r.dirs
  {
    var segs := Segments(path);
    SegmentsArePlain(path);
    RootSegments();
    StepsKeepValid(r, r.account, "/", "");
    var r1 := CwdStep(r, "/");
    assert r1.cwd == [] && r1.files == r.files && r1.dirs == r.dirs;
    SegmentsDropLeadingSlash(path);
    LenientSkipsEmpty(r1, Split(path[1..], "/"), createDirs);
    assert [] + segs == segs;
    WalkExistingReached(r1, segs, createDirs);
    assert EnsurePathLenient(r, path, createDirs) == Run(LenientWalk(r1, segs, createDirs), false);
  }

  /** The walk through existing directories, as a `Reached` fact. */
  lemma WalkExistingReached(r: Remote, segs: seq<string>, createDirs: bool)
    requires ValidRemote(r) && r.connected && r.cwd + segs in r.dirs
    requires forall name :: name in segs ==> name != "" && '/' !in name
    ensures Reached(r, Run(LenientWalk(r, segs, createDirs), false), r.cwd + segs)
    ensures LenientWalk(r, segs, createDirs).dirs == r.dirs
  {
    LenientWalkExisting(r, segs, createDirs);
    LenientWalkKeepsValid(r, segs, createDirs);
  }

  /**
   * After logging in, the walk over the directory part of `result_file`
   * stands in that directory: made along the way with `create_dirs`, or
   * already there without it.
   */
  lemma UploadEntersDirectory(r: Remote, c: Credentials, resultFile: string, createDirs: bool)
    requires ValidRemote(r) && c == r.account
    requires NoFileOnPath(r.files, Segments(PathSplit(resultFile).0), 0)
    requires createDirs || Segments(PathSplit(resultFile).0) in r.dirs
    ensures var r1 := OpenStep(r, c);
            Reached(r1, EnsurePathLenient(r1, PathSplit(resultFile).0, createDirs), Segments(PathSplit(resultFile).0))
  {
    var dir := PathSplit(resultFile).0;
    var r1 := OpenStep(r, c);
    StepsKeepValid(r, c, "/", "");
    assert WalkBase(r1, dir) + Segments(dir) == Segments(dir);
    if createDirs {
      LenientReaches(r1, dir);
    } else {
      LenientReachesExisting(r1, dir, false);
    }
  }

  /**
   * The corrected upload stores the file exactly at the path `result_file`
   * names, from the login directory, and changes no other file.
   */
  lemma UploadResultLands(r: Remote, c: Credentials, resultFile: string, content: string, createDirs: bool)
    requires ValidRemote(r) && c == r.account
    requires PathSplit(resultFile).1 != ""
    requires NoFileOnPath(r.files, Segments(PathSplit(resultFile).0), 0)
    requires createDirs || Segments(PathSplit(resultFile).0) in r.dirs
    requires Segments(resultFile) !in r.dirs
    ensures var run := UploadResult(r, c, resultFile, content, createDirs);
            !run.raised && run.remote.files == r.files[Segments(resultFile) := content]
  {
    var (dir, filename) := PathSplit(resultFile);
    PathSplitSegments(resultFile);
    SlashOccurs(filename);
    SegmentsOfPlainName(filename);
    UploadEntersDirectory(r, c, resultFile, createDirs);
    var e := EnsurePathLenient(OpenStep(r, c), dir, createDirs);
    var t := Segments(resultFile);
    assert Resolve(e.remote.cwd, filename) == t;
    assert Parent(t) == Segments(dir);
    assert CanStor(e.remote, filename);
  }

  /**
   * As written, the upload still stores the file exactly at the path
   * `result_file` names when that path is absolute or has no directory part:
   * then it does not matter where the walk left the session.
   */
  lemma UploadResultAsWrittenLands(r: Remote, c: Credentials, resultFile: string, content: string, createDirs: bool)
    requires ValidRemote(r) && c == r.account
    requires PathSplit(resultFile).1 != ""
    requires (|resultFile| > 0 && resultFile[0] == '/') || Segments(PathSplit(resultFile).0) == []
    requires NoFileOnPath(r.files, Segments(PathSplit(resultFile).0), 0)
    requires createDirs || Segments(PathSplit(resultFile).0) in r.dirs
    requires Segments(resultFile) !in r.dirs
    ensures var run := UploadResultAsWritten(r, c, resultFile, content, createDirs);
            !run.raised && run.remote.files == r.files[Segments(resultFile) := content]
  {
    var (dir, filename) := PathSplit(resultFile);
    PathSplitSegments(resultFile);
    SlashOccurs(filename);
    SegmentsOfPlainName(filename);
    UploadEntersDirectory(r, c, resultFile, createDirs);
    var e := EnsurePathLenient(OpenStep(r, c), dir, createDirs);
    var t := Segments(resultFile);
    assert Resolve(e.remote.cwd, resultFile) == t;
    assert Parent(t) == Segments(dir);
    assert CanStor(e.remote, resultFile);
  }

  /**
   * As written, a relative `result_file` with a directory part `D` is
   * resolved from inside `D`: the file can only land at `D` + `D` + name,
   * and when that doubled directory is missing the upload raises and stores
   * nothing.
   */
  lemma UploadResultAsWrittenDoubles(r: Remote, c: Credentials, resultFile: string, content: string, createDirs: bool)
    requires ValidRemote(r) && c == r.account
    requires PathSplit(resultFile).1 != "" && resultFile[0] != '/'
    requires Segments(PathSplit(resultFile).0) != []
    requires NoFileOnPath(r.files, Segments(PathSplit(resultFile).0), 0)
    requires createDirs || Segments(PathSplit(resultFile).0) in r.dirs
    ensures var d := Segments(PathSplit(resultFile).0);
            var run := UploadResultAsWritten(r, c, resultFile, content, createDirs);
            && (!run.raised ==> run.remote.files == r.files[d + Segments(resultFile) := content])
            && (d + d !in r.dirs ==> run.raised && run.remote.files == r.files)
  {
    var (dir, filename) := PathSplit(resultFile);
    var d := Segments(dir);
    PathSplitSegments(resultFile);
    SlashOccurs(filename);
    SegmentsOfPlainName(filename);
    UploadEntersDirectory(r, c, resultFile, createDirs);
    var e := EnsurePathLenient(OpenStep(r, c), dir, createDirs);
    var t := d + Segments(resultFile);
    assert Resolve(e.remote.cwd, resultFile) == t;
    assert Parent(t) == d + d;
    if d + d !in r.dirs {
      assert |d + d| > |d|;
      assert d + d !in e.remote.dirs;
    }
  }

  // ---------------------------------------------------------------- the whole job

  /** Where `log_request_to_ftp` and the job's error logs go. */
  const RequestLogFolder: string := "/logs"
  const ErrorLogFolder: string := "/error_logs"

  /** What `datetime.now` returns for each log the job may write, and the request time in ISO form. */
  datatype Clock = Clock(request: ClockTime, isoRequest: string, stepError: ClockTime, textError: ClockTime,
                         generalError: ClockTime)

  /** A time `datetime.now` can return. */
  type ClockTime = t: DateTime | ValidDateTime(t) witness DateTime(2000, 1, 1, 0, 0, 0)

  /**
   * Why a job stopped: a layer raised, a text raised, the final resize
   * raised, the JPEG writer refused the image, or the upload session raised.
   */
  datatype Failure =
    | LayerFailed(index: nat, error: ImageError)
    | TextFailed(index: nat)
    | ResizeFailed(error: ImageError)
    | SaveRefused
    | UploadFailed

  datatype Outcome = Completed | Failed(failure: Failure)

  /**
   * What the job meets besides its arguments: the loaded template and
   * images, PIL's rotation, the installed fonts, the clock, how Python
   * prints `params` and an exception, and the JPEG encoder.
   */
  datatype Context = Context(template: Image, images: seq<Image>, arbitrary: RotationOracle, installed: set<string>,
                             clock: Clock, paramsText: string, describe: Failure -> string,
                             encode: (Image, seq<Event>) -> string)

  /** The server after the job, what was drawn on the canvas in order, the final image, and how the job ended. */
  datatype JobRun = JobRun(remote: Remote, events: seq<Event>, final: Image, outcome: Outcome)

  function JobCredentials(job: Job): Credentials
  {
    Credentials(job.ftpHost, job.ftpUsername, job.ftpPassword)
  }

  /** `str(n)` for a natural number. */
  function DecimalText(n: nat): (s: string)
    ensures |s| >= 1
  {
    if n < 10 then ["0123456789"[n]] else DecimalText(n / 10) + ["0123456789"[n % 10]]
  }

  /** The log line of a layer that raised. */
  function StepErrorMessage(i: nat, what: string): string
  {
    "Erreur \U{e0} l'\U{e9}tape " + DecimalText(i) + " : " + what
  }

  /** The log line of a text that raised. */
  function TextErrorMessage(i: nat, what: string): string
  {
    "Erreur ajout texte \U{e0} l'\U{e9}tape " + DecimalText(i) + " : " + what
  }

  /** The log line of anything that reaches the outer handler. */
  function GeneralErrorMessage(what: string): string
  {
    "Erreur g\U{e9}n\U{e9}rale : " + what
  }

  /** The request log, written before anything else. */
  function RequestLogged(r: Remote, job: Job, ctx: Context): Remote
  {
    UploadLog(r, JobCredentials(job), RequestLogFolder, RequestLogName(ctx.clock.request),
              RequestLogMessage(ctx.clock.isoRequest, ctx.paramsText))
  }

  /** The log of a layer that raised, written by the image loop's own handler. */
  function StepLogged(r: Remote, job: Job, ctx: Context, i: nat, f: Failure): Remote
  {
    UploadLog(r, JobCredentials(job), ErrorLogFolder, ErrorLogName(ctx.clock.stepError), StepErrorMessage(i, ctx.describe(f)))
  }

  /** The log of a text that raised, written by the text loop's own handler. */
  function TextLogged(r: Remote, job: Job, ctx: Context, i: nat, f: Failure): Remote
  {
    UploadLog(r, JobCredentials(job), ErrorLogFolder, ErrorLogName(ctx.clock.textError), TextErrorMessage(i, ctx.describe(f)))
  }

  /** The log of the outer handler, for every failure. */
  function GeneralLogged(r: Remote, job: Job, ctx: Context, f: Failure): Remote
  {
    UploadLog(r, JobCredentials(job), ErrorLogFolder, ErrorLogName(ctx.clock.generalError), GeneralErrorMessage(ctx.describe(f)))
  }

  /** A resize that succeeds keeps the mode and gives a non-empty image from a non-empty one, so it keeps what the JPEG writer accepts. */
  lemma ResizeKeepsSavable(img: Image, newWidth: int)
    requires ApplyResizeTemplate(img, newWidth).Ok?
    ensures img.width > 0 && img.height > 0
    ensures JpegSavable(ApplyResizeTemplate(img, newWidth).value) <==> JpegSavable(img)
  {
  }

  /**
   * The end of the job once every layer is pasted and every text drawn:
   * resize to `result_w` when given; then, when `result_file` is given,
   * encode the JPEG and upload it. A failure of any of these is logged by
   * the outer handler.
   */
  function FinishRun(r: Remote, job: Job, ctx: Context, events: seq<Event>): (run: JobRun)
    ensures run.events == events
    ensures run.outcome.Failed? ==> !run.outcome.failure.LayerFailed? && !run.outcome.failure.TextFailed?
    ensures (run.outcome.Failed? && run.outcome.failure.ResizeFailed?) <==>
              WidthGiven(job.resultW) && ApplyResizeTemplate(ctx.template, job.resultW.value).Err?
    ensures run.outcome == Failed(SaveRefused) ==> FileGiven(job.resultFile) && !JpegSavable(run.final)
    ensures run.outcome == Failed(UploadFailed) ==> FileGiven(job.resultFile) && JpegSavable(run.final)
    ensures run.outcome == Completed && FileGiven(job.resultFile) ==> JpegSavable(run.final)
    ensures FileGiven(job.resultFile) && !JpegSavable(ctx.template) ==> run.outcome.Failed? && !run.outcome.failure.UploadFailed?
    ensures run.outcome.Failed? && !run.outcome.failure.UploadFailed? ==> run.remote == GeneralLogged(r, job, ctx, run.outcome.failure)
    ensures run.outcome == Completed ==>
              if WidthGiven(job.resultW) then run.final.width == job.resultW.value && run.final.mode == ctx.template.mode
              else run.final == ctx.template
  {
    var t := ctx.template;
    var resized := if WidthGiven(job.resultW) then ApplyResizeTemplate(t, job.resultW.value) else Ok(t);
    if resized.Err? then
      var f := ResizeFailed(resized.error);
      JobRun(GeneralLogged(r, job, ctx, f), events, t, Failed(f))
    else if !FileGiven(job.resultFile) then JobRun(r, events, resized.value, Completed)
    else if !JpegSavable(resized.value) then JobRun(GeneralLogged(r, job, ctx, SaveRefused), events, resized.value, Failed(SaveRefused))
    else
      var up := UploadResultAsWritten(r, JobCredentials(job), job.resultFile.value, ctx.encode(resized.value, events), true);
      if up.raised then JobRun(GeneralLogged(up.remote, job, ctx, UploadFailed), events, resized.value, Failed(UploadFailed))
      else JobRun(up.remote, events, resized.value, Completed)
  }

  /**
   * `process_and_upload`: log the request; paste every layer; draw the
   * texts; then resize, encode and upload. A layer or a text that raises is
   * logged twice, by its loop's handler and by the outer one, and the job
   * stops there.
   */
  function ProcessAndUploadRun(r: Remote, job: Job, ctx: Context): (run: JobRun)
  {
    var logged := RequestLogged(r, job, ctx);
    var t := ctx.template;
    var pass := Layers(ctx.images, job, t.width, t.height, ctx.arbitrary);
    if pass.failed.Some? then
      var (i, e) := pass.failed.value;
      var f := LayerFailed(i, e);
      JobRun(GeneralLogged(StepLogged(logged, job, ctx, i, f), job, ctx, f), pass.pastes, t, Failed(f))
    else
      var texts := TextsUpTo(job, |job.ts|, t.width, t.height, ScaleFactor(job.resultW, t.width), ctx.installed);
      if texts.failed.Some? then
        var i := texts.failed.value;
        var f := TextFailed(i);
        JobRun(GeneralLogged(TextLogged(logged, job, ctx, i, f), job, ctx, f), pass.pastes + texts.draws, t, Failed(f))
      else FinishRun(logged, job, ctx, pass.pastes + texts.draws)
  }

  /** The end of the job on the session, once the canvas is complete. */
  method Finish(ftp: Session, job: Job, ctx: Context, events: seq<Event>) returns (final: Image, outcome: Outcome)
    modifies ftp
    ensures var run := FinishRun(old(ftp.State()), job, ctx, events);
            ftp.State() == run.remote && final == run.final && outcome == run.outcome
  {
    var c := JobCredentials(job);
    final := ctx.template;
    if WidthGiven(job.resultW) {
      var resized := ApplyResizeTemplate(final, job.resultW.value);
      if resized.Err? {
        var f := ResizeFailed(resized.error);
        LogToFtp(ftp, c, GeneralErrorMessage(ctx.describe(f)), ErrorLogFolder, ctx.clock.generalError);
        return final, Failed(f);
      }
      final := resized.value;
    }
    if FileGiven(job.resultFile) {
      if !JpegSavable(final) {
        LogToFtp(ftp, c, GeneralErrorMessage(ctx.describe(SaveRefused)), ErrorLogFolder, ctx.clock.generalError);
        return final, Failed(SaveRefused);
      }
      var raised := UploadResultFile(ftp, c, job.resultFile.value, ctx.encode(final, events), true);
      if raised {
        LogToFtp(ftp, c, GeneralErrorMessage(ctx.describe(UploadFailed)), ErrorLogFolder, ctx.clock.generalError);
        return final, Failed(UploadFailed);
      }
    }
    outcome := Completed;
  }

  /**
   * `process_and_upload` on a session and a fresh canvas copied from the
   * template: it leaves the server, the canvas, the final image and the
   * outcome exactly as the specification of the job says.
   */
  method ProcessAndUpload(ftp: Session, job: Job, ctx: Context) returns (canvas: Canvas, final: Image, outcome: Outcome)
    modifies ftp
    ensures fresh(canvas)
    ensures var run := ProcessAndUploadRun(old(ftp.State()), job, ctx);
            ftp.State() == run.remote && canvas.events == run.events && final == run.final && outcome == run.outcome
  {
    ghost var r0 := ftp.State();
    var c := JobCredentials(job);
    LogRequestToFtp(ftp, ctx.paramsText, c, RequestLogFolder, ctx.clock.request, ctx.clock.isoRequest);
    ghost var logged := ftp.State();
    assert logged == RequestLogged(r0, job, ctx);
    canvas := new Canvas(ctx.template);
    var scale := ScaleFactor(job.resultW, ctx.template.width);
    var failed := ComposeLayers(canvas, ctx.images, job, ctx.arbitrary, ctx.installed);
    assert ftp.State() == logged;
    ghost var pass := Layers(ctx.images, job, ctx.template.width, ctx.template.height, ctx.arbitrary);
    assert canvas.events == pass.pastes && failed == pass.failed;
    if failed.Some? {
      var (i, e) := failed.value;
      var f := LayerFailed(i, e);
      LogToFtp(ftp, c, StepErrorMessage(i, ctx.describe(f)), ErrorLogFolder, ctx.clock.stepError);
      assert ftp.State() == StepLogged(logged, job, ctx, i, f);
      LogToFtp(ftp, c, GeneralErrorMessage(ctx.describe(f)), ErrorLogFolder, ctx.clock.generalError);
      assert ftp.State() == GeneralLogged(StepLogged(logged, job, ctx, i, f), job, ctx, f);
      return canvas, ctx.template, Failed(f);
    }
    var textFailed := DrawTexts(canvas, job, scale, ctx.installed);
    assert ftp.State() == logged;
    ghost var texts := TextsUpTo(job, |job.ts|, ctx.template.width, ctx.template.height, scale, ctx.installed);
    assert canvas.events == pass.pastes + texts.draws && textFailed == texts.failed;
    if textFailed.Some? {
      var i := textFailed.value;
      var f := TextFailed(i);
      LogToFtp(ftp, c, TextErrorMessage(i, ctx.describe(f)), ErrorLogFolder, ctx.clock.textError);
      assert ftp.State() == TextLogged(logged, job, ctx, i, f);
      LogToFtp(ftp, c, GeneralErrorMessage(ctx.describe(f)), ErrorLogFolder, ctx.clock.generalError);
      return canvas, ctx.template, Failed(f);
    }
    final, outcome := Finish(ftp, job, ctx, canvas.events);
  }

  /**
   * The canvas gets every layer, in input order, before any text. A layer
   * that raises ends the job with only the layers before it pasted and no
   * text drawn; it is the only way the job fails at a layer.
   */
  lemma ImagesBeforeTexts(r: Remote, job: Job, ctx: Context)
    ensures var run := ProcessAndUploadRun(r, job, ctx);
            var pass := Layers(ctx.images, job, ctx.template.width, ctx.template.height, ctx.arbitrary);
            && (run.outcome.Failed? && run.outcome.failure.LayerFailed? <==> pass.failed.Some?)
            && (pass.failed.Some? ==>
                  run.outcome == Failed(LayerFailed(pass.failed.value.0, pass.failed.value.1)) &&
                  |run.events| == pass.failed.value.0 < |ctx.images| &&
                  forall k :: 0 <= k < |run.events| ==> run.events[k].Paste? && run.events[k].layer == k)
            && (pass.failed.None? ==>
                  |ctx.images| <= |run.events| &&
                  (forall k :: 0 <= k < |ctx.images| ==> run.events[k].Paste? && run.events[k].layer == k) &&
                  (forall k :: |ctx.images| <= k < |run.events| ==> run.events[k].DrawText?))
  {
    var t := ctx.template;
    var pass := Layers(ctx.images, job, t.width, t.height, ctx.arbitrary);
    var run := ProcessAndUploadRun(r, job, ctx);
    LayerPastesInOrder(ctx.images, job, t.width, t.height, ctx.arbitrary);
    JobEventsShape(r, job, ctx);
    if pass.failed.None? {
      var texts := TextsUpTo(job, |job.ts|, t.width, t.height, ScaleFactor(job.resultW, t.width), ctx.installed);
      forall k | |ctx.images| <= k < |run.events| ensures run.events[k].DrawText? {
        assert run.events[k] == texts.draws[k - |ctx.images|];
      }
    }
  }

  /**
   * What the job's canvas holds and how it fails at a layer: with a failing
   * layer, only the pastes before it and that layer's failure; otherwise the
   * pastes and then the texts' draws, and no layer failure.
   */
  lemma JobEventsShape(r: Remote, job: Job, ctx: Context)
    ensures var run := ProcessAndUploadRun(r, job, ctx);
            var t := ctx.template;
            var pass := Layers(ctx.images, job, t.width, t.height, ctx.arbitrary);
            && (pass.failed.Some? ==>
                  run.events == pass.pastes && run.outcome == Failed(LayerFailed(pass.failed.value.0, pass.failed.value.1)))
            && (pass.failed.None? ==>
                  && run.events == pass.pastes + TextsUpTo(job, |job.ts|, t.width, t.height, ScaleFactor(job.resultW, t.width), ctx.installed).draws
                  && !(run.outcome.Failed? && run.outcome.failure.LayerFailed?))
  {
  }

  /** The pastes of the image loop are pastes of the layers in input order. */
  lemma LayerPastesInOrder(images: seq<Image>, job: Job, width: nat, height: nat, arbitrary: RotationOracle)
    ensures var pass := Layers(images, job, width, height, arbitrary);
            forall k :: 0 <= k < |pass.pastes| ==> pass.pastes[k].Paste? && pass.pastes[k].layer == k
  {
    var pass := Layers(images, job, width, height, arbitrary);
    forall k | 0 <= k < |pass.pastes|
      ensures pass.pastes[k].Paste? && pass.pastes[k].layer == k
    {
      var lr := TransformLayer(images[k], k, SettingsAt(job, k), WatermarkGiven(job.watermarkText), width, height, arbitrary);
      assert lr.outcome == Ok(pass.pastes[k]);
    }
  }

  /**
   * When every layer is pasted but a text raises, the job ends with that
   * text's failure, caused by a non-empty text whose colour PIL cannot read:
   * the texts before it are drawn and nothing after, and the server gets
   * the text loop's log and the outer handler's log after the request log,
   * and no result.
   */
  lemma TextFailureEndsJob(r: Remote, job: Job, ctx: Context)
    requires Layers(ctx.images, job, ctx.template.width, ctx.template.height, ctx.arbitrary).failed.None?
    requires TextsUpTo(job, |job.ts|, ctx.template.width, ctx.template.height, ScaleFactor(job.resultW, ctx.template.width),
                       ctx.installed).failed.Some?
    ensures var t := ctx.template;
            var scale := ScaleFactor(job.resultW, t.width);
            var i := TextsUpTo(job, |job.ts|, t.width, t.height, scale, ctx.installed).failed.value;
            var run := ProcessAndUploadRun(r, job, ctx);
            && run.outcome == Failed(TextFailed(i))
            && ValueOrDefault(job.ts, i, "") != "" && !HashColourParses(ValueOrDefault(job.tcs, i, "000000"))
            && run.events == Layers(ctx.images, job, t.width, t.height, ctx.arbitrary).pastes
                             + TextsUpTo(job, i, t.width, t.height, scale, ctx.installed).draws
            && run.remote == GeneralLogged(TextLogged(RequestLogged(r, job, ctx), job, ctx, i, TextFailed(i)), job, ctx, TextFailed(i))
  {
    var t := ctx.template;
    TextsStopAtFailure(job, |job.ts|, t.width, t.height, ScaleFactor(job.resultW, t.width), ctx.installed);
  }

  /** The job's two log folders are one level below the root. */
  lemma LogFolderSegments()
    ensures Segments(RequestLogFolder) == ["logs"] && Segments(ErrorLogFolder) == ["error_logs"]
  {
    SegmentsDropLeadingSlash(RequestLogFolder);
    assert RequestLogFolder[1..] == "logs";
    SegmentsOfPlainName("logs");
    SegmentsDropLeadingSlash(ErrorLogFolder);
    assert ErrorLogFolder[1..] == "error_logs";
    SegmentsOfPlainName("error_logs");
  }

  /**
   * One log of the job on a well-formed server with the right credentials:
   * it lands at the folder's one segment followed by its name, and only
   * the folder itself can be a new directory.
   */
  lemma JobLogLands(r: Remote, c: Credentials, folder: string, segment: string, name: string, content: string)
    requires |folder| > 0 && folder[0] == '/' && '\\' !in folder && Segments(folder) == [segment]
    requires ValidRemote(r) && c == r.account
    requires name != "" && '/' !in name && '\\' !in name
    requires [segment] !in r.files && [segment, name] !in r.dirs
    ensures var r' := UploadLog(r, c, folder, name, content);
            && r'.files == r.files[[segment, name] := content]
            && ValidRemote(r') && r'.account == r.account && r.dirs <= r'.dirs
            && (forall d :: d in r'.dirs && d !in r.dirs ==> d == [segment])
  {
    assert [segment][..1] == [segment];
    assert [segment] + [name] == [segment, name];
    AbsoluteLogLands(r, c, folder, name, content);
    var r' := UploadLog(r, c, folder, name, content);
    forall d | d in r'.dirs && d !in r.dirs ensures d == [segment] {
      assert d == [segment][..|d|];
    }
  }

  /**
   * On a well-formed server reached with the right credentials, a job whose
   * layer raises writes exactly three files: the request log in "/logs",
   * then the loop's and the outer handler's logs in "/error_logs". When
   * both error logs fall in the same second the second replaces the first.
   */
  lemma LayerFailureWritesOnlyLogs(r: Remote, job: Job, ctx: Context)
    requires ValidRemote(r) && r.account == JobCredentials(job)
    requires Layers(ctx.images, job, ctx.template.width, ctx.template.height, ctx.arbitrary).failed.Some?
    requires ["logs"] !in r.files && ["error_logs"] !in r.files
    requires ["logs", RequestLogName(ctx.clock.request)] !in r.dirs
    requires ["error_logs", ErrorLogName(ctx.clock.stepError)] !in r.dirs
    requires ["error_logs", ErrorLogName(ctx.clock.generalError)] !in r.dirs
    ensures var run := ProcessAndUploadRun(r, job, ctx);
            var failed := Layers(ctx.images, job, ctx.template.width, ctx.template.height, ctx.arbitrary).failed.value;
            var f := LayerFailed(failed.0, failed.1);
            && run.outcome == Failed(f)
            && run.remote.files ==
                 r.files[["logs", RequestLogName(ctx.clock.request)] := RequestLogMessage(ctx.clock.isoRequest, ctx.paramsText)]
                        [["error_logs", ErrorLogName(ctx.clock.stepError)] := StepErrorMessage(failed.0, ctx.describe(f))]
                        [["error_logs", ErrorLogName(ctx.clock.generalError)] := GeneralErrorMessage(ctx.describe(f))]
  {
    LogFolderSegments();
    var c := JobCredentials(job);
    var failed := Layers(ctx.images, job, ctx.template.width, ctx.template.height, ctx.arbitrary).failed.value;
    var f := LayerFailed(failed.0, failed.1);
    var n1, n2, n3 := RequestLogName(ctx.clock.request), ErrorLogName(ctx.clock.stepError), ErrorLogName(ctx.clock.generalError);
    var m1, m2, m3 := RequestLogMessage(ctx.clock.isoRequest, ctx.paramsText), StepErrorMessage(failed.0, ctx.describe(f)),
                      GeneralErrorMessage(ctx.describe(f));
    LogNamesArePlain(ctx.clock.request);
    LogNamesArePlain(ctx.clock.stepError);
    LogNamesArePlain(ctx.clock.generalError);
    var r1 := RequestLogged(r, job, ctx);
    JobLogLands(r, c, RequestLogFolder, "logs", n1, m1);
    var r2 := StepLogged(r1, job, ctx, failed.0, f);
    JobLogLands(r1, c, ErrorLogFolder, "error_logs", n2, m2);
    var r3 := GeneralLogged(r2, job, ctx, f);
    JobLogLands(r2, c, ErrorLogFolder, "error_logs", n3, m3);
    assert ProcessAndUploadRun(r, job, ctx) == JobRun(r3, Layers(ctx.images, job, ctx.template.width, ctx.template.height, ctx.arbitrary).pastes, ctx.template, Failed(f));
  }

  /**
   * On a well-formed server reached with the right credentials, a job whose
   * layers, texts and resize succeed, whose template the JPEG writer
   * accepts, and whose `result_file` is absolute or has no directory part,
   * stores the encoded result at the path `result_file` names, beside its
   * request log, and touches no other file.
   */
  lemma CompletedJobStoresResult(r: Remote, job: Job, ctx: Context)
    requires ValidRemote(r) && r.account == JobCredentials(job)
    requires Layers(ctx.images, job, ctx.template.width, ctx.template.height, ctx.arbitrary).failed.None?
    requires TextsUpTo(job, |job.ts|, ctx.template.width, ctx.template.height, ScaleFactor(job.resultW, ctx.template.width),
                       ctx.installed).failed.None?
    requires WidthGiven(job.resultW) ==> ApplyResizeTemplate(ctx.template, job.resultW.value).Ok?
    requires JpegSavable(ctx.template)
    requires FileGiven(job.resultFile) && PathSplit(job.resultFile.value).1 != ""
    requires job.resultFile.value[0] == '/' || Segments(PathSplit(job.resultFile.value).0) == []
    requires ["logs"] !in r.files && ["logs", RequestLogName(ctx.clock.request)] !in r.dirs
    requires var d := Segments(PathSplit(job.resultFile.value).0);
             NoFileOnPath(r.files, d, 0) && !(|d| >= 2 && d[..2] == ["logs", RequestLogName(ctx.clock.request)])
    requires Segments(job.resultFile.value) !in r.dirs && Segments(job.resultFile.value) != ["logs"]
    ensures var run := ProcessAndUploadRun(r, job, ctx);
            && run.outcome == Completed
            && run.remote.files ==
                 r.files[["logs", RequestLogName(ctx.clock.request)] := RequestLogMessage(ctx.clock.isoRequest, ctx.paramsText)]
                        [Segments(job.resultFile.value) := ctx.encode(run.final, run.events)]
  {
    LogFolderSegments();
    var c := JobCredentials(job);
    var n1 := RequestLogName(ctx.clock.request);
    LogNamesArePlain(ctx.clock.request);
    JobLogLands(r, c, RequestLogFolder, "logs", n1, RequestLogMessage(ctx.clock.isoRequest, ctx.paramsText));
    var r1 := RequestLogged(r, job, ctx);
    var resultFile := job.resultFile.value;
    var d := Segments(PathSplit(resultFile).0);
    forall k | 0 < k <= |d| ensures d[..k] !in r1.files {
      if k == 2 {
        assert d[..k] != ["logs", n1];
      }
    }
    var t := ctx.template;
    var events := Layers(ctx.images, job, t.width, t.height, ctx.arbitrary).pastes
                  + TextsUpTo(job, |job.ts|, t.width, t.height, ScaleFactor(job.resultW, t.width), ctx.installed).draws;
    FinishStoresResult(r1, job, ctx, events);
    assert ProcessAndUploadRun(r, job, ctx) == FinishRun(r1, job, ctx, events);
  }

  /**
   * Once the canvas is complete, a resize that succeeds, an image the JPEG
   * writer accepts and an upload with nothing in the way end the job with
   * the result stored.
   */
  lemma FinishStoresResult(r: Remote, job: Job, ctx: Context, events: seq<Event>)
    requires ValidRemote(r) && r.account == JobCredentials(job)
    requires WidthGiven(job.resultW) ==> ApplyResizeTemplate(ctx.template, job.resultW.value).Ok?
    requires JpegSavable(ctx.template)
    requires FileGiven(job.resultFile) && PathSplit(job.resultFile.value).1 != ""
    requires job.resultFile.value[0] == '/' || Segments(PathSplit(job.resultFile.value).0) == []
    requires NoFileOnPath(r.files, Segments(PathSplit(job.resultFile.value).0), 0)
    requires Segments(job.resultFile.value) !in r.dirs
    ensures var run := FinishRun(r, job, ctx, events);
            && run.outcome == Completed
            && run.remote.files == r.files[Segments(job.resultFile.value) := ctx.encode(run.final, events)]
  {
    var t := ctx.template;
    if WidthGiven(job.resultW) {
      ResizeKeepsSavable(t, job.resultW.value);
    }
    var final := if WidthGiven(job.resultW) then ApplyResizeTemplate(t, job.resultW.value).value else t;
    var content := ctx.encode(final, events);
    UploadResultAsWrittenLands(r, JobCredentials(job), job.resultFile.value, content, true);
  }

  // ---------------------------------------------------------------- process_intercalaire

  /** One dictionary of `text_blocks`; a key the dictionary lacks is `None`. */
  datatype TextBlock = TextBlock(text: Option<string>, fontName: Option<string>, fontSize: Option<int>,
                                 x: Option<real>, y: Option<real>, color: Option<string>, align: Option<string>)

  /** The arguments of a `process_intercalaire` call. */
  datatype Intercalaire = Intercalaire(resultFile: string, backgroundColor: string, width: int, height: int,
                                       blocks: seq<TextBlock>, ftpHost: string, ftpUsername: string, ftpPassword: string)

  /** Why one block's `add_text` call raised: a required key is missing, or PIL cannot read the colour. */
  datatype BlockError = MissingKey(key: string) | UnreadableColour(colour: string)

  /**
   * Why a sheet was not made: `Image.new` refused the size or the background
   * colour, a block raised, the JPEG writer refused the empty sheet, or the
   * upload raised.
   */
  datatype SheetFailure = NegativeSize | UnreadableBackground | BlockFailed(block: nat, error: BlockError) | EmptySheet | UploadRefused

  /** The installed fonts, the time of the error log, how Python prints the exception, and the JPEG encoder. */
  datatype SheetContext = SheetContext(installed: set<string>, now: ClockTime, describe: SheetFailure -> string,
                                       encode: (Image, seq<Event>) -> string)

  /** The server afterwards, what was drawn, and the returned message or the re-raised failure. */
  datatype SheetRun = SheetRun(remote: Remote, events: seq<Event>, outcome: Result<string, SheetFailure>)

  const SheetMessage: string := "Intercalaire created successfully"
  const SheetLogFolder: string := "error_logs"

  /** A block holding the three keys `add_text` reads without a default. */
  predicate Complete(block: TextBlock)
  {
    block.text.Some? && block.x.Some? && block.y.Some?
  }

  /** The colour a block is drawn in, before `add_text` puts '#' in front: "black" when the key is missing. */
  function BlockColour(block: TextBlock): string
  {
    block.color.GetOr("black")
  }

  /** A block that draws: complete, with a colour of its own that PIL reads. */
  predicate Drawable(block: TextBlock)
  {
    Complete(block) && block.color.Some? && HashColourParses(block.color.value)
  }

  /**
   * One block's `add_text` call: "text", "x" and "y" are required and read
   * in that order; the font defaults to "arial", the size to 20, the colour
   * to "black" and the alignment to "left". The colour is read at the first
   * `draw.text`, and the default "#black" is not a colour PIL reads.
   */
  function BlockText(block: TextBlock, width: nat, height: nat, installed: set<string>): (r: Result<seq<Event>, BlockError>)
    ensures r.Ok? <==> Drawable(block)
    ensures block.text.None? ==> r == Err(MissingKey("text"))
    ensures block.text.Some? && block.x.None? ==> r == Err(MissingKey("x"))
    ensures block.text.Some? && block.x.Some? && block.y.None? ==> r == Err(MissingKey("y"))
    ensures Complete(block) && !Drawable(block) ==> r == Err(UnreadableColour(BlockColour(block)))
  {
    if block.text.None? then Err(MissingKey("text"))
    else if block.x.None? then Err(MissingKey("x"))
    else if block.y.None? then Err(MissingKey("y"))
    else if !HashColourParses(BlockColour(block)) then Err(UnreadableColour(BlockColour(block)))
    else
      NamedColourRefused();
      var font := ResolveFont(TextFontPath(block.fontName.GetOr("arial")), installed);
      Ok(TextDraws(width, height, block.text.value, font, block.fontSize.GetOr(20), block.x.value, block.y.value,
                   BlockColour(block), block.align.GetOr("left")))
  }

  /** A complete block without a "color" key raises on the default colour. */
  lemma DefaultBlockColourRaises(block: TextBlock, width: nat, height: nat, installed: set<string>)
    requires Complete(block) && block.color.None?
    ensures BlockText(block, width, height, installed) == Err(UnreadableColour("black"))
  {
    NamedColourRefused();
  }

  /**
   * A drawable block draws its text line by line, joined back it is the
   * block's text, with the block's font, size, colour and alignment or
   * their defaults.
   */
  lemma BlockTextDraws(block: TextBlock, width: nat, height: nat, installed: set<string>)
    requires Drawable(block)
    ensures var draws := BlockText(block, width, height, installed).value;
            && |draws| >= 1
            && Join(seq(|draws|, i requires 0 <= i < |draws| => if draws[i].DrawText? then draws[i].text else ""),
                    LineBreak) == block.text.value
            && forall i :: 0 <= i < |draws| ==>
                 draws[i].DrawText? &&
                 draws[i].font == ResolveFont(TextFontPath(block.fontName.GetOr("arial")), installed) &&
                 draws[i].size == block.fontSize.GetOr(20) && draws[i].fill == "#" + block.color.value &&
                 draws[i].align == block.align.GetOr("left")
  {
    var font := ResolveFont(TextFontPath(block.fontName.GetOr("arial")), installed);
    var size, color, align := block.fontSize.GetOr(20), block.color.value, block.align.GetOr("left");
    var draws := TextDraws(width, height, block.text.value, font, size, block.x.value, block.y.value, color, align);
    assert BlockText(block, width, height, installed).value == draws;
    TextDrawsCoverText(width, height, block.text.value, font, size, block.x.value, block.y.value, color, align);
    assert seq(|draws|, i requires 0 <= i < |draws| => if draws[i].DrawText? then draws[i].text else "")
        == seq(|draws|, i requires 0 <= i < |draws| => draws[i].text);
  }

  /** The text drawn so far, and the block that raised and why, if one did. */
  datatype BlockPass = BlockPass(draws: seq<Event>, failed: Option<(nat, BlockError)>)

  /** What each block comes to on its own: its drawn lines, or why it raises. */
  function BlockSteps(blocks: seq<TextBlock>, width: nat, height: nat, installed: set<string>)
    : (steps: seq<Result<seq<Event>, BlockError>>)
    ensures |steps| == |blocks|
  {
    seq(|blocks|, i requires 0 <= i < |blocks| => BlockText(blocks[i], width, height, installed))
  }

  /** The loop over the blocks' steps: collect the drawings until the first block that raises. */
  function DrawPass(steps: seq<Result<seq<Event>, BlockError>>): (pass: BlockPass)
    ensures pass.failed.None? <==> forall i :: 0 <= i < |steps| ==> steps[i].Ok?
    ensures pass.failed.Some? ==>
              var i := pass.failed.value.0;
              i < |steps| && steps[i] == Err(pass.failed.value.1) && forall j :: 0 <= j < i ==> steps[j].Ok?
    decreases |steps|
  {
    if steps == [] then BlockPass([], None)
    else
      var n := |steps| - 1;
      var before := DrawPass(steps[..n]);
      assert forall i :: 0 <= i < n ==> steps[..n][i] == steps[i];
      if before.failed.Some? then before
      else if steps[n].Err? then BlockPass(before.draws, Some((n, steps[n].error)))
      else BlockPass(before.draws + steps[n].value, None)
  }

  /** Once a step has failed, the later steps change nothing. */
  lemma {:induction false} DrawPassFailureStays(steps: seq<Result<seq<Event>, BlockError>>, k: nat)
    requires k <= |steps| && DrawPass(steps[..k]).failed.Some?
    ensures DrawPass(steps) == DrawPass(steps[..k])
    decreases |steps|
  {
    if k < |steps| {
      var n := |steps| - 1;
      assert steps[..n][..k] == steps[..k];
      DrawPassFailureStays(steps[..n], k);
    } else {
      assert steps[..k] == steps;
    }
  }

  /** The steps of a prefix of the blocks are the prefix of the steps. */
  lemma BlockStepsPrefix(blocks: seq<TextBlock>, width: nat, height: nat, installed: set<string>, k: nat)
    requires k <= |blocks|
    ensures BlockSteps(blocks[..k], width, height, installed) == BlockSteps(blocks, width, height, installed)[..k]
  {
  }

  /**
   * The block loop: every block is drawn in order, or the first one that
   * raises ends it.
   */
  function Blocks(blocks: seq<TextBlock>, width: nat, height: nat, installed: set<string>): (pass: BlockPass)
    ensures pass.failed.None? <==> forall i :: 0 <= i < |blocks| ==> Drawable(blocks[i])
    ensures pass.failed.Some? ==>
              var i := pass.failed.value.0;
              i < |blocks| && BlockText(blocks[i], width, height, installed) == Err(pass.failed.value.1) &&
              forall j :: 0 <= j < i ==> Drawable(blocks[j])
  {
    var steps := BlockSteps(blocks, width, height, installed);
    assert forall i :: 0 <= i < |blocks| ==> (steps[i].Ok? <==> Drawable(blocks[i]));
    DrawPass(steps)
  }

  /** One more block: nothing once a block has raised, else that block's text or why it raises. */
  lemma BlocksNext(blocks: seq<TextBlock>, width: nat, height: nat, installed: set<string>, i: nat)
    requires i < |blocks|
    ensures var before := Blocks(blocks[..i], width, height, installed);
            var step := BlockText(blocks[i], width, height, installed);
            Blocks(blocks[..i + 1], width, height, installed)
              == if before.failed.Some? then before
                 else if step.Err? then BlockPass(before.draws, Some((i, step.error)))
                 else BlockPass(before.draws + step.value, None)
  {
    var all := BlockSteps(blocks, width, height, installed);
    BlockStepsPrefix(blocks, width, height, installed, i);
    BlockStepsPrefix(blocks, width, height, installed, i + 1);
    assert all[..i + 1][..i] == all[..i];
  }

  /** Once a block has raised, the later blocks change nothing. */
  lemma BlocksFailureStays(blocks: seq<TextBlock>, width: nat, height: nat, installed: set<string>, k: nat)
    requires k <= |blocks| && Blocks(blocks[..k], width, height, installed).failed.Some?
    ensures Blocks(blocks, width, height, installed) == Blocks(blocks[..k], width, height, installed)
  {
    BlockStepsPrefix(blocks, width, height, installed, k);
    DrawPassFailureStays(BlockSteps(blocks, width, height, installed), k);
  }

  /** A step that draws extends the pass's events by its own. */
  lemma DrawPassStepDraws(steps: seq<Result<seq<Event>, BlockError>>, i: nat, base: seq<Event>, after: seq<Event>)
    requires i < |steps| && DrawPass(steps[..i]).failed.None? && steps[i].Ok?
    requires after == base + DrawPass(steps[..i]).draws + steps[i].value
    ensures DrawPass(steps[..i + 1]).failed.None? && after == base + DrawPass(steps[..i + 1]).draws
  {
    assert steps[..i + 1][..i] == steps[..i];
  }

  /** A step that fails ends the pass with the events drawn before it and its error. */
  lemma DrawPassStepRaises(steps: seq<Result<seq<Event>, BlockError>>, i: nat)
    requires i < |steps| && DrawPass(steps[..i]).failed.None? && steps[i].Err?
    ensures DrawPass(steps) == BlockPass(DrawPass(steps[..i]).draws, Some((i, steps[i].error)))
  {
    assert steps[..i + 1][..i] == steps[..i];
    DrawPassFailureStays(steps, i + 1);
  }

  /** The credentials the sheet's upload logs in with. */
  function SheetCredentials(call: Intercalaire): Credentials
  {
    Credentials(call.ftpHost, call.ftpUsername, call.ftpPassword)
  }

  /** The credentials of the error log as written: the password passed as the user name too. */
  function SheetLogCredentialsAsWritten(call: Intercalaire): Credentials
  {
    Credentials(call.ftpHost, call.ftpPassword, call.ftpPassword)
  }

  /** The error log's message. */
  function SheetErrorMessage(what: string): string
  {
    "Error creating intercalaire: " + what
  }

  /** The handler's log, as written. */
  function SheetLogged(r: Remote, call: Intercalaire, ctx: SheetContext, f: SheetFailure): Remote
  {
    UploadLog(r, SheetLogCredentialsAsWritten(call), SheetLogFolder, ErrorLogName(ctx.now), SheetErrorMessage(ctx.describe(f)))
  }

  /** The handler's log with the credentials the upload used, as evidently intended. */
  function SheetLoggedIntended(r: Remote, call: Intercalaire, ctx: SheetContext, f: SheetFailure): Remote
  {
    UploadLog(r, SheetCredentials(call), SheetLogFolder, ErrorLogName(ctx.now), SheetErrorMessage(ctx.describe(f)))
  }

  /**
   * `process_intercalaire`: a blank RGB sheet of the requested size and
   * background, every block drawn on it in order, the JPEG uploaded to
   * `result_file` without making directories. Any failure is logged in
   * "error_logs" and raised again.
   */
  function ProcessIntercalaireRun(r: Remote, call: Intercalaire, ctx: SheetContext): (run: SheetRun)
    ensures run.outcome.Ok? ==> run.outcome.value == SheetMessage
    ensures run.outcome == Err(NegativeSize) <==> call.width < 0 || call.height < 0
    ensures run.outcome == Err(UnreadableBackground) <==>
              0 <= call.width && 0 <= call.height && !HashColourParses(call.backgroundColor)
    ensures run.outcome == Err(EmptySheet) ==> call.width == 0 || call.height == 0
    ensures run.outcome.Ok? ==>
              0 < call.width && 0 < call.height && HashColourParses(call.backgroundColor) &&
              forall i :: 0 <= i < |call.blocks| ==> Drawable(call.blocks[i])
    ensures run.outcome.Err? ==> run.remote == SheetLogged(r, call, ctx, run.outcome.error) || run.outcome == Err(UploadRefused)
  {
    if call.width < 0 || call.height < 0 then SheetRun(SheetLogged(r, call, ctx, NegativeSize), [], Err(NegativeSize))
    else if !HashColourParses(call.backgroundColor) then
      SheetRun(SheetLogged(r, call, ctx, UnreadableBackground), [], Err(UnreadableBackground))
    else
      var pass := Blocks(call.blocks, call.width, call.height, ctx.installed);
      if pass.failed.Some? then
        var f := BlockFailed(pass.failed.value.0, pass.failed.value.1);
        SheetRun(SheetLogged(r, call, ctx, f), pass.draws, Err(f))
      else
        var sheet := Image(call.width, call.height, RGB);
        if !JpegSavable(sheet) then SheetRun(SheetLogged(r, call, ctx, EmptySheet), pass.draws, Err(EmptySheet))
        else
          var up := UploadResultAsWritten(r, SheetCredentials(call), call.resultFile, ctx.encode(sheet, pass.draws), false);
          if up.raised then SheetRun(SheetLogged(up.remote, call, ctx, UploadRefused), pass.draws, Err(UploadRefused))
          else SheetRun(up.remote, pass.draws, Ok(SheetMessage))
  }

  /** The block loop on a canvas. */
  method DrawBlocks(canvas: Canvas, blocks: seq<TextBlock>, installed: set<string>) returns (failed: Option<(nat, BlockError)>)
    modifies canvas
    ensures var pass := Blocks(blocks, canvas.width, canvas.height, installed);
            canvas.events == old(canvas.events) + pass.draws && failed == pass.failed
  {
    ghost var base := canvas.events;
    for i := 0 to |blocks|
      invariant Blocks(blocks[..i], canvas.width, canvas.height, installed).failed.None?
      invariant canvas.events == base + Blocks(blocks[..i], canvas.width, canvas.height, installed).draws
    {
      var error := DrawBlockStep(canvas, blocks, i, installed, base);
      if error.Some? {
        return Some((i, error.value));
      }
    }
    assert blocks[..|blocks|] == blocks;
    failed := None;
  }

  /** One pass of the sheet loop, stated against the fold: block `i` either extends the drawn prefix or ends the pass. */
  method DrawBlockStep(canvas: Canvas, blocks: seq<TextBlock>, i: nat, installed: set<string>, ghost base: seq<Event>)
      returns (error: Option<BlockError>)
    requires i < |blocks| && Blocks(blocks[..i], canvas.width, canvas.height, installed).failed.None?
    requires canvas.events == base + Blocks(blocks[..i], canvas.width, canvas.height, installed).draws
    modifies canvas
    ensures error.None? ==> && Blocks(blocks[..i + 1], canvas.width, canvas.height, installed).failed.None?
                            && canvas.events == base + Blocks(blocks[..i + 1], canvas.width, canvas.height, installed).draws
    ensures error.Some? ==> && Blocks(blocks, canvas.width, canvas.height, installed).failed == Some((i, error.value))
                            && canvas.events == base + Blocks(blocks, canvas.width, canvas.height, installed).draws
  {
    ghost var before := canvas.events;
    error := DrawBlock(canvas, blocks[i], installed);
    BlockStepEvents(blocks, i, canvas.width, canvas.height, installed, base, before, canvas.events, error);
  }

  /** The events of one pass of the sheet loop, appended to those of the passes before it, are those of the loop. */
  lemma BlockStepEvents(blocks: seq<TextBlock>, i: nat, width: nat, height: nat, installed: set<string>,
                        base: seq<Event>, before: seq<Event>, after: seq<Event>, error: Option<BlockError>)
    requires i < |blocks| && Blocks(blocks[..i], width, height, installed).failed.None?
    requires before == base + Blocks(blocks[..i], width, height, installed).draws
    requires var step := BlockText(blocks[i], width, height, installed);
             && (error.Some? <==> step.Err?)
             && (step.Err? ==> error.value == step.error && after == before)
             && (step.Ok? ==> after == before + step.value)
    ensures error.None? ==> && Blocks(blocks[..i + 1], width, height, installed).failed.None?
                            && after == base + Blocks(blocks[..i + 1], width, height, installed).draws
    ensures error.Some? ==> && Blocks(blocks, width, height, installed).failed == Some((i, error.value))
                            && after == base + Blocks(blocks, width, height, installed).draws
  {
    var all := BlockSteps(blocks, width, height, installed);
    BlockStepsPrefix(blocks, width, height, installed, i);
    if error.Some? {
      DrawPassStepRaises(all, i);
    } else {
      BlockStepsPrefix(blocks, width, height, installed, i + 1);
      DrawPassStepDraws(all, i, base, after);
    }
  }

  /**
   * One pass of the block loop: `block["text"]`, `block["x"]` and
   * `block["y"]` raise when missing, then `add_text` raises on a colour PIL
   * cannot read, or draws the text.
   */
  method DrawBlock(canvas: Canvas, block: TextBlock, installed: set<string>) returns (error: Option<BlockError>)
    modifies canvas
    ensures var step := BlockText(block, canvas.width, canvas.height, installed);
            && (error.Some? <==> step.Err?)
            && (step.Err? ==> error.value == step.error && canvas.events == old(canvas.events))
            && (step.Ok? ==> canvas.events == old(canvas.events) + step.value)
  {
    if block.text.None? {
      return Some(MissingKey("text"));
    }
    if block.x.None? {
      return Some(MissingKey("x"));
    }
    if block.y.None? {
      return Some(MissingKey("y"));
    }
    var color := BlockColour(block);
    var raised := AddText(canvas, block.text.value, block.fontName.GetOr("arial"), block.fontSize.GetOr(20),
                          block.x.value, block.y.value, color, block.align.GetOr("left"), installed);
    error := if raised then Some(UnreadableColour(color)) else None;
  }

  /** `process_intercalaire` on a session: the server, the drawing and the outcome are those of its specification. */
  method ProcessIntercalaire(ftp: Session, call: Intercalaire, ctx: SheetContext)
    returns (events: seq<Event>, outcome: Result<string, SheetFailure>)
    modifies ftp
    ensures var run := ProcessIntercalaireRun(old(ftp.State()), call, ctx);
            ftp.State() == run.remote && events == run.events && outcome == run.outcome
  {
    ghost var r0 := ftp.State();
    var c, logAs := SheetCredentials(call), SheetLogCredentialsAsWritten(call);
    if call.width < 0 || call.height < 0 {
      LogToFtp(ftp, logAs, SheetErrorMessage(ctx.describe(NegativeSize)), SheetLogFolder, ctx.now);
      return [], Err(NegativeSize);
    }
    if !HashColourParses(call.backgroundColor) {
      LogToFtp(ftp, logAs, SheetErrorMessage(ctx.describe(UnreadableBackground)), SheetLogFolder, ctx.now);
      return [], Err(UnreadableBackground);
    }
    var sheet := Image(call.width, call.height, RGB);
    var canvas := new Canvas(sheet);
    var failed := DrawBlocks(canvas, call.blocks, ctx.installed);
    assert ftp.State() == r0;
    ghost var pass := Blocks(call.blocks, call.width, call.height, ctx.installed);
    events := canvas.events;
    assert events == pass.draws && failed == pass.failed;
    if failed.Some? {
      var f := BlockFailed(failed.value.0, failed.value.1);
      LogToFtp(ftp, logAs, SheetErrorMessage(ctx.describe(f)), SheetLogFolder, ctx.now);
      assert ftp.State() == SheetLogged(r0, call, ctx, f);
      return events, Err(f);
    }
    if !JpegSavable(sheet) {
      LogToFtp(ftp, logAs, SheetErrorMessage(ctx.describe(EmptySheet)), SheetLogFolder, ctx.now);
      return events, Err(EmptySheet);
    }
    var raised := UploadResultFile(ftp, c, call.resultFile, ctx.encode(sheet, events), false);
    ghost var up := ftp.State();
    assert Run(up, raised) == UploadResultAsWritten(r0, c, call.resultFile, ctx.encode(sheet, pass.draws), false);
    if raised {
      LogToFtp(ftp, logAs, SheetErrorMessage(ctx.describe(UploadRefused)), SheetLogFolder, ctx.now);
      assert ftp.State() == SheetLogged(up, call, ctx, UploadRefused);
      return events, Err(UploadRefused);
    }
    outcome := Ok(SheetMessage);
  }

  /**
   * On a well-formed server reached with the right credentials, a non-empty
   * sheet with a readable background whose blocks all draw, whose
   * `result_file` is absolute or has no directory part, and whose directory
   * exists, is stored at the path `result_file` names, and no other file
   * changes.
   */
  lemma SheetLands(r: Remote, call: Intercalaire, ctx: SheetContext)
    requires ValidRemote(r) && r.account == SheetCredentials(call)
    requires 0 < call.width && 0 < call.height && HashColourParses(call.backgroundColor)
    requires forall i :: 0 <= i < |call.blocks| ==> Drawable(call.blocks[i])
    requires PathSplit(call.resultFile).1 != ""
    requires call.resultFile[0] == '/' || Segments(PathSplit(call.resultFile).0) == []
    requires Segments(PathSplit(call.resultFile).0) in r.dirs
    requires Segments(call.resultFile) !in r.dirs
    ensures var run := ProcessIntercalaireRun(r, call, ctx);
            && run.outcome == Ok(SheetMessage)
            && run.remote.files == r.files[Segments(call.resultFile) := ctx.encode(Image(call.width, call.height, RGB), run.events)]
  {
    var d := Segments(PathSplit(call.resultFile).0);
    forall k | 0 < k <= |d| ensures d[..k] !in r.files {
      PrefixesExist(r, d, k);
    }
    var sheet := Image(call.width, call.height, RGB);
    var pass := Blocks(call.blocks, call.width, call.height, ctx.installed);
    assert pass.failed.None? && JpegSavable(sheet);
    var content := ctx.encode(sheet, pass.draws);
    UploadResultAsWrittenLands(r, SheetCredentials(call), call.resultFile, content, false);
    var up := UploadResultAsWritten(r, SheetCredentials(call), call.resultFile, content, false);
    assert ProcessIntercalaireRun(r, call, ctx) == SheetRun(up.remote, pass.draws, Ok(SheetMessage));
  }

  /**
   * The error log as written logs in with the password as the user name:
   * for an account whose user name differs from its password it never
   * logs in, and the server is left as it was; only when the two are equal
   * is it the intended log.
   */
  lemma SheetLogAsWrittenIsLost(r: Remote, call: Intercalaire, ctx: SheetContext, f: SheetFailure)
    requires r.account == SheetCredentials(call)
    ensures call.ftpUsername != call.ftpPassword ==>
              SheetLogged(r, call, ctx, f).files == r.files && SheetLogged(r, call, ctx, f).dirs == r.dirs
    ensures call.ftpUsername == call.ftpPassword ==> SheetLogged(r, call, ctx, f) == SheetLoggedIntended(r, call, ctx, f)
  {
    if call.ftpUsername != call.ftpPassword {
      assert !CanOpen(r, SheetLogCredentialsAsWritten(call));
    }
  }

  /**
   * With the upload's own credentials the log is written: on a well-formed
   * server where "error_logs/error_logs" exists it lands there, the
   * relative folder being entered before the relative name is resolved.
   */
  lemma SheetLogLands(r: Remote, call: Intercalaire, ctx: SheetContext, f: SheetFailure)
    requires ValidRemote(r) && r.account == SheetCredentials(call)
    requires ["error_logs"] !in r.files && ["error_logs", "error_logs"] in r.dirs
    requires ["error_logs", "error_logs", ErrorLogName(ctx.now)] !in r.dirs
    ensures SheetLoggedIntended(r, call, ctx, f).files ==
              r.files[["error_logs", "error_logs", ErrorLogName(ctx.now)] := SheetErrorMessage(ctx.describe(f))]
  {
    LogNamesArePlain(ctx.now);
    RelativeLogLands(r, SheetCredentials(call), SheetLogFolder, ErrorLogName(ctx.now), SheetErrorMessage(ctx.describe(f)));
  }
}
