/**
 * `api/router/router_image.py`: `create_image` gathers the ten numbered
 * image layers and the two numbered texts of the query into lists, keeps
 * the image layers whose x position is given and the texts that are given,
 * each kept layer with all of its own settings, and hands the cleaned lists
 * to the image job. With no x position at all the request is refused.
 */
module RouterImage {
  import opened Wrappers
  import opened Lists
  import opened Ftp
  import opened FtpUtils
  import opened Utils

  /** The query of `create_image`, each numbered parameter gathered with its siblings: `x` is `[x1, ..., x10]`. */
  datatype ImageQuery = ImageQuery(
    ftpId: Option<int>, templateUrl: string, imageUrl: string, resultFile: Option<string>, dpi: Option<int>,
    watermarkText: Option<string>, resultW: Option<int>,
    x: seq<Option<int>>, y: seq<Option<int>>, r: seq<Option<int>>, w: seq<Option<real>>,
    c: seq<Option<string>>, dh: seq<Option<int>>, db: seq<Option<int>>,
    t: seq<Option<string>>, tf: seq<Option<string>>, tc: seq<Option<string>>,
    tt: seq<Option<int>>, tx: seq<Option<int>>, ty: seq<Option<int>>)

  const ImageLayers: nat := 10
  const TextLayers: nat := 2

  /** The lists as the endpoint builds them: ten image entries and two text entries each. */
  predicate WellFormed(q: ImageQuery)
  {
    && |q.x| == ImageLayers && |q.y| == ImageLayers && |q.r| == ImageLayers && |q.w| == ImageLayers
    && |q.c| == ImageLayers && |q.dh| == ImageLayers && |q.db| == ImageLayers
    && |q.t| == TextLayers && |q.tf| == TextLayers && |q.tc| == TextLayers
    && |q.tt| == TextLayers && |q.tx| == TextLayers && |q.ty| == TextLayers
  }

  /**
   * What the query string can deliver: the parameters with a default other
   * than `None` (the FTP id, `result_file`, `dpi`, `x1`, `y1` and every
   * text's position, colour and size) are always present.
   */
  predicate HttpBound(q: ImageQuery)
  {
    && WellFormed(q)
    && q.ftpId.Some? && q.resultFile.Some? && q.dpi.Some?
    && q.x[0].Some? && q.y[0].Some?
    && (forall i :: 0 <= i < TextLayers ==> q.tx[i].Some? && q.ty[i].Some? && q.tc[i].Some? && q.tt[i].Some?)
  }

  /** Why the endpoint answers with an error instead of starting a job. */
  datatype RouterError = NoImagePosition | CredentialsRefused(error: CredentialError)

  /**
   * `create_image`: refuse a query without any x position (HTTP 400),
   * project the image lists on the positions where x is given and the text
   * lists on those where the text is given, look the credentials up, and
   * build the job's arguments and its `params`.
   */
  function CreateImage(q: ImageQuery, env: map<string, string>): (res: Result<Job, RouterError>)
    requires WellFormed(q)
    ensures res == Err(NoImagePosition) <==> SomeIndices(q.x) == []
    ensures SomeIndices(q.x) != [] ==>
              (res.Ok? <==> FtpSecurity(q.ftpId, env).Ok?) &&
              (res.Err? ==> res.error == CredentialsRefused(FtpSecurity(q.ftpId, env).error))
    ensures res.Ok? ==> JobCredentials(res.value) == FtpSecurity(q.ftpId, env).value
  {
    var valid := SomeIndices(q.x);
    if valid == [] then Err(NoImagePosition)
    else
      var texts := SomeIndices(q.t);
      var xs, ys, rs, ws := Project(q.x, valid), Project(q.y, valid), Project(q.r, valid), Project(q.w, valid);
      var cs, dhs, dbs := Project(q.c, valid), Project(q.dh, valid), Project(q.db, valid);
      var ts, tfs, tcs := Project(q.t, texts), Project(q.tf, texts), Project(q.tc, texts);
      var tts, txs, tys := Project(q.tt, texts), Project(q.tx, texts), Project(q.ty, texts);
      var params := ImageParams(q.templateUrl, q.imageUrl, q.resultFile, q.resultW,
                                xs, ys, rs, ws, cs, dhs, dbs, ts, tfs, tcs, tts, txs, tys);
      var creds := FtpSecurity(q.ftpId, env);
      if creds.Err? then Err(CredentialsRefused(creds.error))
      else
        Ok(Job(q.templateUrl, q.imageUrl, q.resultFile, q.resultW, xs, ys, rs, ws, cs, dhs, dbs,
               ts, tfs, tcs, tts, txs, tys, creds.value.host, creds.value.user, creds.value.password,
               q.dpi, params, q.watermarkText))
  }

  /**
   * Layer `k` of the job is the `k`-th query layer with an x position, with
   * every one of its own settings, `None` included; text `k` is the `k`-th
   * given text with its own font, colour, size and position. The x and text
   * lists are those lists with `None` dropped.
   */
  lemma CreateImageAligns(q: ImageQuery, env: map<string, string>)
    requires WellFormed(q) && CreateImage(q, env).Ok?
    ensures var job := CreateImage(q, env).value;
            var valid, texts := SomeIndices(q.x), SomeIndices(q.t);
            && |job.xs| == |job.ys| == |job.rs| == |job.ws| == |job.cs| == |job.dhs| == |job.dbs| == |valid|
            && |job.ts| == |job.tfs| == |job.tcs| == |job.tts| == |job.txs| == |job.tys| == |texts|
            && (forall k :: 0 <= k < |valid| ==>
                  var i := valid[k];
                  job.xs[k] == q.x[i] && job.ys[k] == q.y[i] && job.rs[k] == q.r[i] && job.ws[k] == q.w[i] &&
                  job.cs[k] == q.c[i] && job.dhs[k] == q.dh[i] && job.dbs[k] == q.db[i])
            && (forall k :: 0 <= k < |texts| ==>
                  var i := texts[k];
                  job.ts[k] == q.t[i] && job.tfs[k] == q.tf[i] && job.tcs[k] == q.tc[i] &&
                  job.tts[k] == q.tt[i] && job.txs[k] == q.tx[i] && job.tys[k] == q.ty[i])
            && job.xs == FilterNone(q.x) && job.ts == FilterNone(q.t)
  {
    FilterNoneIsProjection(q.x);
    FilterNoneIsProjection(q.t);
  }

  /** The job's `params` carry exactly the arguments it is started with. */
  lemma ParamsMatchArguments(q: ImageQuery, env: map<string, string>)
    requires WellFormed(q) && CreateImage(q, env).Ok?
    ensures var job := CreateImage(q, env).value;
            var p := job.params;
            && p.templateUrl == job.templateUrl && p.imageUrl == job.imageUrl
            && p.resultFile == job.resultFile && p.resultW == job.resultW
            && p.xs == job.xs && p.ys == job.ys && p.rs == job.rs && p.ws == job.ws
            && p.cs == job.cs && p.dhs == job.dhs && p.dbs == job.dbs
            && p.ts == job.ts && p.tfs == job.tfs && p.tcs == job.tcs
            && p.tts == job.tts && p.txs == job.txs && p.tys == job.tys
  {
  }

  /** A job has between one and ten image layers, every one with an x position, and at most two texts, none absent. */
  lemma LayerBounds(q: ImageQuery, env: map<string, string>)
    requires WellFormed(q) && CreateImage(q, env).Ok?
    ensures var job := CreateImage(q, env).value;
            && 1 <= |job.xs| <= ImageLayers && |job.ts| <= TextLayers
            && (forall k :: 0 <= k < |job.xs| ==> job.xs[k].Some?)
            && (forall k :: 0 <= k < |job.ts| ==> job.ts[k].Some?)
  {
    FilterNoneIsProjection(q.x);
    FilterNoneIsProjection(q.t);
  }

  /** `x1` defaults to 0, so a query the HTTP layer has bound is never refused for lack of an x position. */
  lemma NoPositionNeverRaised(q: ImageQuery, env: map<string, string>)
    requires HttpBound(q)
    ensures CreateImage(q, env) != Err(NoImagePosition)
  {
    assert 0 in SomeIndices(q.x);
  }

  /** Layer `i` of the query as the job will read it: its own values, or the job's defaults where absent. */
  function QuerySettings(q: ImageQuery, i: nat): (s: LayerSettings)
    requires i < |q.x| && WellFormed(q)
    ensures s.x == q.x[i].GetOr(0) && s.y == q.y[i].GetOr(0) && s.rotation == q.r[i].GetOr(0)
    ensures s.widthFactor == q.w[i].GetOr(100.0) && s.filter == q.c[i].GetOr("none")
    ensures s.top == q.dh[i].GetOr(0) && s.bottom == q.db[i].GetOr(0)
  {
    LayerSettings(q.dh[i].GetOr(0), q.db[i].GetOr(0), q.r[i].GetOr(0), q.c[i].GetOr("none"),
                  q.w[i].GetOr(100.0), q.x[i].GetOr(0), q.y[i].GetOr(0))
  }

  /**
   * End to end: the settings the image job applies to its layer `k` are
   * the query's settings of the `k`-th layer with an x position.
   */
  lemma JobLayerIsQueryLayer(q: ImageQuery, env: map<string, string>, k: nat)
    requires WellFormed(q) && CreateImage(q, env).Ok?
    requires k < |SomeIndices(q.x)|
    ensures SettingsAt(CreateImage(q, env).value, k) == QuerySettings(q, SomeIndices(q.x)[k])
  {
    CreateImageAligns(q, env);
  }
}
