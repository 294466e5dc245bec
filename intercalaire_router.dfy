/**
 * `api/router/intercalaire.py`: `create_intercalaire` gathers two text
 * blocks and two additional images from the query into lists, drops `None`
 * from each list on its own, looks the FTP credentials up and hands the
 * sheet's size, colour, target file and a `params` dictionary to the
 * intercalaire job. The size is not checked here.
 */
module IntercalaireRouter {
  import opened Wrappers
  import opened Lists
  import opened Ftp
  import opened FtpUtils

  /** The query of `create_intercalaire`; each numbered parameter gathered with its sibling: `t` is `[t1, t2]`. */
  datatype SheetQuery = SheetQuery(
    resultFile: Option<string>, ftpId: Option<int>, backgroundColor: string, width: int, height: int,
    t: seq<Option<string>>, tx: seq<Option<int>>, ty: seq<Option<int>>, tf: seq<Option<string>>,
    tc: seq<Option<string>>, tt: seq<Option<int>>,
    x: seq<Option<int>>, y: seq<Option<int>>, r: seq<Option<int>>, w: seq<Option<int>>,
    c: seq<Option<string>>, dh: seq<Option<int>>, db: seq<Option<int>>)

  const SheetLayers: nat := 2

  /** The lists as the endpoint builds them: two entries each. */
  predicate WellFormed(q: SheetQuery)
  {
    && |q.t| == SheetLayers && |q.tx| == SheetLayers && |q.ty| == SheetLayers && |q.tf| == SheetLayers
    && |q.tc| == SheetLayers && |q.tt| == SheetLayers
    && |q.x| == SheetLayers && |q.y| == SheetLayers && |q.r| == SheetLayers && |q.w| == SheetLayers
    && |q.c| == SheetLayers && |q.dh| == SheetLayers && |q.db| == SheetLayers
  }

  /**
   * What the query string can deliver: `result_file`, the FTP id and every
   * text's font, colour and size have defaults other than `None`.
   */
  predicate HttpBound(q: SheetQuery)
  {
    && WellFormed(q)
    && q.resultFile.Some? && q.ftpId.Some?
    && (forall i :: 0 <= i < SheetLayers ==> q.tf[i].Some? && q.tc[i].Some? && q.tt[i].Some?)
  }

  /** The `params` dictionary handed to the job. */
  datatype SheetParams = SheetParams(
    resultFile: Option<string>, backgroundColor: string, width: int, height: int,
    xs: seq<Option<int>>, ys: seq<Option<int>>, rs: seq<Option<int>>, ws: seq<Option<int>>,
    cs: seq<Option<string>>, dhs: seq<Option<int>>, dbs: seq<Option<int>>,
    ts: seq<Option<string>>, tfs: seq<Option<string>>, tcs: seq<Option<string>>,
    tts: seq<Option<int>>, txs: seq<Option<int>>, tys: seq<Option<int>>)

  /** The eight arguments the job is sent. */
  datatype SheetTask = SheetTask(
    resultFile: Option<string>, backgroundColor: string, width: int, height: int, params: SheetParams,
    ftpHost: string, ftpUsername: string, ftpPassword: string)

  /**
   * `create_intercalaire`: filter each list, look the credentials up and
   * build the job's arguments. Only a missing credential stops it.
   */
  function CreateIntercalaire(q: SheetQuery, env: map<string, string>): (res: Result<SheetTask, CredentialError>)
    requires WellFormed(q)
    ensures res.Ok? <==> FtpSecurity(q.ftpId, env).Ok?
    ensures res.Err? ==> res.error == FtpSecurity(q.ftpId, env).error
    ensures res.Ok? ==> Credentials(res.value.ftpHost, res.value.ftpUsername, res.value.ftpPassword)
                          == FtpSecurity(q.ftpId, env).value
  {
    var xs, ys, rs, ws := FilterNone(q.x), FilterNone(q.y), FilterNone(q.r), FilterNone(q.w);
    var cs, dhs, dbs := FilterNone(q.c), FilterNone(q.dh), FilterNone(q.db);
    var ts, tfs, tcs := FilterNone(q.t), FilterNone(q.tf), FilterNone(q.tc);
    var tts, txs, tys := FilterNone(q.tt), FilterNone(q.tx), FilterNone(q.ty);
    var creds := FtpSecurity(q.ftpId, env);
    if creds.Err? then Err(creds.error)
    else
      var params := SheetParams(q.resultFile, q.backgroundColor, q.width, q.height,
                                xs, ys, rs, ws, cs, dhs, dbs, ts, tfs, tcs, tts, txs, tys);
      Ok(SheetTask(q.resultFile, q.backgroundColor, q.width, q.height, params,
                   creds.value.host, creds.value.user, creds.value.password))
  }

  /**
   * The endpoint does not look at the size: any width and height, negative
   * ones included, give the same answer, and reach the job and its `params`
   * unchanged, as do the target file and the background colour.
   */
  lemma SizeNotChecked(q: SheetQuery, env: map<string, string>, width: int, height: int)
    requires WellFormed(q)
    ensures var q' := q.(width := width, height := height);
            && CreateIntercalaire(q', env).Ok? == CreateIntercalaire(q, env).Ok?
            && (CreateIntercalaire(q', env).Ok? ==>
                  var task := CreateIntercalaire(q', env).value;
                  && task.width == width && task.height == height
                  && task.params.width == width && task.params.height == height
                  && task.resultFile == q.resultFile && task.params.resultFile == q.resultFile
                  && task.backgroundColor == q.backgroundColor
                  && task.params.backgroundColor == q.backgroundColor)
  {
  }

  /** Every list of `params` holds only values taken from the query, at most two of them. */
  lemma ParamsHoldValues(q: SheetQuery, env: map<string, string>)
    requires WellFormed(q) && CreateIntercalaire(q, env).Ok?
    ensures var p := CreateIntercalaire(q, env).value.params;
            && |p.ts| <= SheetLayers && |p.xs| <= SheetLayers
            && (forall k :: 0 <= k < |p.ts| ==> p.ts[k].Some? && p.ts[k] in q.t)
            && (forall k :: 0 <= k < |p.txs| ==> p.txs[k].Some? && p.txs[k] in q.tx)
            && (forall k :: 0 <= k < |p.xs| ==> p.xs[k].Some? && p.xs[k] in q.x)
  {
  }

  /** The font, colour and size the HTTP layer always binds reach `params` whole, two entries each. */
  lemma BoundTextSettingsKept(q: SheetQuery, env: map<string, string>)
    requires HttpBound(q) && CreateIntercalaire(q, env).Ok?
    ensures var p := CreateIntercalaire(q, env).value.params;
            p.tfs == q.tf && p.tcs == q.tc && p.tts == q.tt &&
            |p.tfs| == |p.tcs| == |p.tts| == SheetLayers
  {
    FilterNoneKeepsFull(q.tf);
    FilterNoneKeepsFull(q.tc);
    FilterNoneKeepsFull(q.tt);
  }

  /**
   * Positions have no default: with both texts given but only the second
   * positioned, that position is the only entry of `txs`, paired by index
   * with the first text.
   */
  lemma TextPositionShifts(q: SheetQuery, env: map<string, string>)
    requires WellFormed(q) && CreateIntercalaire(q, env).Ok?
    requires q.t[0].Some? && q.t[1].Some? && q.tx[0].None? && q.tx[1].Some?
    ensures var p := CreateIntercalaire(q, env).value.params;
            |p.ts| == 2 && p.ts[0] == q.t[0] && p.txs == [q.tx[1]]
  {
    assert q.t[..1] == [q.t[0]] && q.t[..1][..0] == [];
    assert q.tx[..1] == [q.tx[0]] && q.tx[..1][..0] == [];
    assert FilterNone(q.tx[..1]) == [];
    assert q.tx[..2] == q.tx;
  }
}
