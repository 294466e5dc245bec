/**
 * `api/router/image.py`: the older `create_image` endpoint. It gathers the
 * same numbered parameters as the newer router into lists, but drops `None`
 * from every list on its own, with no check that any x position was given,
 * before handing the lists to the image job.
 */
module ImageRouter {
  import opened Wrappers
  import opened Lists
  import opened FtpUtils
  import opened Utils
  import RouterImage

  /** Also bound by the HTTP layer here: `watermark_text` defaults to "watermark". */
  predicate HttpBound(q: RouterImage.ImageQuery)
  {
    RouterImage.HttpBound(q) && q.watermarkText.Some?
  }

  /**
   * `create_image`: filter `None` out of each list independently, look the
   * credentials up, and build the job's arguments and its `params`. A query
   * is refused only when its FTP id has no credentials.
   */
  function CreateImage(q: RouterImage.ImageQuery, env: map<string, string>): (res: Result<Job, CredentialError>)
    requires RouterImage.WellFormed(q)
    ensures res.Ok? <==> FtpSecurity(q.ftpId, env).Ok?
    ensures res.Err? ==> res.error == FtpSecurity(q.ftpId, env).error
    ensures res.Ok? ==> JobCredentials(res.value) == FtpSecurity(q.ftpId, env).value
  {
    var xs, ys, rs, ws := FilterNone(q.x), FilterNone(q.y), FilterNone(q.r), FilterNone(q.w);
    var cs, dhs, dbs := FilterNone(q.c), FilterNone(q.dh), FilterNone(q.db);
    var ts, tfs, tcs := FilterNone(q.t), FilterNone(q.tf), FilterNone(q.tc);
    var tts, txs, tys := FilterNone(q.tt), FilterNone(q.tx), FilterNone(q.ty);
    var params := ImageParams(q.templateUrl, q.imageUrl, q.resultFile, q.resultW,
                              xs, ys, rs, ws, cs, dhs, dbs, ts, tfs, tcs, tts, txs, tys);
    var creds := FtpSecurity(q.ftpId, env);
    if creds.Err? then Err(creds.error)
    else
      Ok(Job(q.templateUrl, q.imageUrl, q.resultFile, q.resultW, xs, ys, rs, ws, cs, dhs, dbs,
             ts, tfs, tcs, tts, txs, tys, creds.value.host, creds.value.user, creds.value.password,
             q.dpi, params, q.watermarkText))
  }

  /** Every list of the job holds only values, and no more of them than the query held. */
  lemma JobListsHoldValues(q: RouterImage.ImageQuery, env: map<string, string>)
    requires RouterImage.WellFormed(q) && CreateImage(q, env).Ok?
    ensures var job := CreateImage(q, env).value;
            && |job.xs| <= RouterImage.ImageLayers && |job.ts| <= RouterImage.TextLayers
            && (forall k :: 0 <= k < |job.xs| ==> job.xs[k].Some? && job.xs[k] in q.x)
            && (forall k :: 0 <= k < |job.rs| ==> job.rs[k].Some? && job.rs[k] in q.r)
            && (forall k :: 0 <= k < |job.ts| ==> job.ts[k].Some? && job.ts[k] in q.t)
  {
  }

  /** Unlike the newer router, a query without any x position still starts a job, with no image layer. */
  lemma NoPositionStillDispatches(q: RouterImage.ImageQuery, env: map<string, string>)
    requires RouterImage.WellFormed(q) && FtpSecurity(q.ftpId, env).Ok?
    requires forall i :: 0 <= i < |q.x| ==> q.x[i].None?
    ensures CreateImage(q, env).Ok? && CreateImage(q, env).value.xs == []
    ensures RouterImage.CreateImage(q, env) == Err(RouterImage.NoImagePosition)
  {
    FilterNoneOfNothing(q.x);
  }

  /** The text settings the HTTP layer always binds reach the job whole, two entries each. */
  lemma BoundTextSettingsKept(q: RouterImage.ImageQuery, env: map<string, string>)
    requires HttpBound(q) && CreateImage(q, env).Ok?
    ensures var job := CreateImage(q, env).value;
            job.txs == q.tx && job.tys == q.ty && job.tcs == q.tc && job.tts == q.tt &&
            |job.txs| == |job.tys| == |job.tcs| == |job.tts| == RouterImage.TextLayers
  {
    FilterNoneKeepsFull(q.tx);
    FilterNoneKeepsFull(q.ty);
    FilterNoneKeepsFull(q.tc);
    FilterNoneKeepsFull(q.tt);
  }

  /**
   * When every image list holds values exactly where `x` does and every
   * text list exactly where `t` does, independent filtering keeps each
   * layer's settings together, and both routers start the same job.
   */
  lemma AlignedQueriesAgree(q: RouterImage.ImageQuery, env: map<string, string>)
    requires RouterImage.WellFormed(q) && CreateImage(q, env).Ok?
    requires SomeIndices(q.x) != []
    requires forall i :: 0 <= i < RouterImage.ImageLayers ==>
               (q.x[i].Some? <==> q.y[i].Some?) && (q.x[i].Some? <==> q.r[i].Some?) &&
               (q.x[i].Some? <==> q.w[i].Some?) && (q.x[i].Some? <==> q.c[i].Some?) &&
               (q.x[i].Some? <==> q.dh[i].Some?) && (q.x[i].Some? <==> q.db[i].Some?)
    requires forall i :: 0 <= i < RouterImage.TextLayers ==>
               (q.t[i].Some? <==> q.tf[i].Some?) && (q.t[i].Some? <==> q.tc[i].Some?) &&
               (q.t[i].Some? <==> q.tt[i].Some?) && (q.t[i].Some? <==> q.tx[i].Some?) &&
               (q.t[i].Some? <==> q.ty[i].Some?)
    ensures RouterImage.CreateImage(q, env) == Ok(CreateImage(q, env).value)
  {
    FilterNoneIsProjection(q.x);
    AlignedFilterIsProjection(q.x, q.y);
    AlignedFilterIsProjection(q.x, q.r);
    AlignedFilterIsProjection(q.x, q.w);
    AlignedFilterIsProjection(q.x, q.c);
    AlignedFilterIsProjection(q.x, q.dh);
    AlignedFilterIsProjection(q.x, q.db);
    FilterNoneIsProjection(q.t);
    AlignedFilterIsProjection(q.t, q.tf);
    AlignedFilterIsProjection(q.t, q.tc);
    AlignedFilterIsProjection(q.t, q.tt);
    AlignedFilterIsProjection(q.t, q.tx);
    AlignedFilterIsProjection(q.t, q.ty);
  }

  /**
   * Independent filtering shifts settings between layers: when the first
   * image has `x1` but no `r1` and the second has `r2` but no `x2`, the first
   * pasted image is rotated by the second image's angle, while the newer
   * router keeps its rotation at the default 0.
   */
  lemma RotationShiftsToOtherLayer(q: RouterImage.ImageQuery, env: map<string, string>)
    requires RouterImage.WellFormed(q) && FtpSecurity(q.ftpId, env).Ok?
    requires q.x[0].Some? && q.r[0] == None && q.x[1] == None && q.r[1].Some?
    ensures CreateImage(q, env).Ok? && RouterImage.CreateImage(q, env).Ok?
    ensures SettingsAt(CreateImage(q, env).value, 0).x == q.x[0].value
    ensures SettingsAt(CreateImage(q, env).value, 0).rotation == q.r[1].value
    ensures SettingsAt(RouterImage.CreateImage(q, env).value, 0).x == q.x[0].value
    ensures SettingsAt(RouterImage.CreateImage(q, env).value, 0).rotation == 0
  {
    var xi, ri := SomeIndices(q.x), SomeIndices(q.r);
    FilterNoneIsProjection(q.x);
    FilterNoneIsProjection(q.r);
    assert 0 in xi;
    assert xi[0] == 0;
    assert 1 in ri;
    assert ri[0] == 1 by {
      assert ri[0] != 0;
    }
    RouterImage.JobLayerIsQueryLayer(q, env, 0);
  }

  /** A query the previous lemma applies to: `x1=10`, `x3=30`, `r2=45`, `r3=90`, everything else at its default. */
  function ShiftedRotationQuery(): (q: RouterImage.ImageQuery)
    ensures RouterImage.WellFormed(q) && q.ftpId == Some(1)
    ensures q.x[0] == Some(10) && q.r[0] == None && q.x[1] == None && q.r[1] == Some(45)
  {
    var none10: seq<Option<int>> := seq(10, _ => None);
    var none2: seq<Option<int>> := [None, None];
    RouterImage.ImageQuery(
      Some(1), "template.jpg", "image.jpg", Some("test.jpg"), Some(300), Some("watermark"), None,
      [Some(10), None, Some(30)] + seq(7, _ => None), [Some(0)] + seq(9, _ => None),
      [None, Some(45), Some(90)] + seq(7, _ => None), seq(10, _ => None),
      seq(10, _ => None), none10, none10,
      [None, None], [None, None], [Some("000000"), Some("000000")], [Some(10), Some(10)],
      [Some(1), Some(50)], [Some(96), Some(96)])
  }
}
