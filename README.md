# Arc-En-Soft photo API: a verified model of the composition core

The service composes a school photo sheet. A FastAPI endpoint gathers
numbered query parameters into lists (`x1..x10`, `t1, t2`, ...) and hands
them to a Celery job. The job does the following:

- downloads a template and the photos;
- crops, rotates, filters, resizes, optionally watermarks and pastes each
  photo onto the template;
- draws up to two texts;
- resizes the result;
- uploads the JPEG to an FTP server.

It logs the request and every failure to the same server. A second job
draws text blocks on a plain coloured sheet (an "intercalaire").

This project models that core in Dafny and proves what the code promises:

- the list handling of the three routers (`api/router/router_image.py`,
  `api/router/image.py`, `api/router/intercalaire.py`);
- the layout arithmetic and the per-layer helpers (`api/photo_utils.py`);
- the image and text loops of the jobs (`api/utils.py`);
- the two different directory walks, the credential lookup, the log names
  and paths, and the uploads (`api/utils.py`, `api/ftp_utils.py`).

Modules:

- `Wrappers`: `Option` and `Result`. `Lists`: the routers' list
  comprehensions. `Numeric`: Python's `int()` and `round()` on reals.
- `Text`: `str.split`, `"/".join`, `lstrip`/`rstrip`, `os.path.join`,
  `os.path.split` and `str.replace`.
- `Raster`: abstract images (size and colour mode) and the `Canvas` class.
  A canvas has a fixed size and an event list that `Paste` and `DrawText`
  extend in place.
- `Ftp`: the FTP server as a `Remote` value and a `Session` class whose
  `Open`/`Cwd`/`Mkd`/`Stor`/`Quit` methods change the session's fields and
  record a reply trace.
  - Directories and files are paths of segments, and the login directory
    is the root.
  - `Cwd` into a missing directory is refused.
  - `Mkd` needs the parent directory and a free name.
  - `Stor` needs the parent directory.
- `PhotoUtils`, `FtpUtils`, `Utils`: the three core files.
  - The loops (`ensure_ftp_path`, the image loop, the text loop, the block
    loop, the watermark loop, `add_text`'s line loop) are methods with
    `for` loops on a `Session` or a `Canvas`.
  - Each of those methods is proved equal to a fold function. The
    properties are then proved about the fold.
- `RouterImage`, `ImageRouter`, `IntercalaireRouter`: the three endpoints,
  as pure functions from the query to the job's arguments.

The image and sheet jobs are methods on a `Session`. Their `ensures`
clauses equate the resulting server, canvas events and outcome with the
functions `Utils.ProcessAndUploadRun` and `Utils.ProcessIntercalaireRun`.

Percentages are exact reals; Python float rounding is not modelled. Every
`int()` the code applies on purpose is modelled as truncation toward zero.

The time, how Python prints `params` and an exception, and the JPEG encoder
are parameters of the jobs (`Utils.Context`, `Utils.SheetContext`). PIL's
rotation by angles that are not a multiple of 90 degrees is also a
parameter. So are the set of installed font files and the loaded images.

Several quirks are kept as written:

- A relative log folder nests. `log_to_ftp` enters the folder, then stores
  under the folder-relative path, so a log for `"error_logs"` lands in
  `error_logs/error_logs/` (`FtpUtils.RelativeLogFolderNests`).
- When the job's step handler and its outer handler log in the same second,
  the second log replaces the first. The model's clock gives each log call
  its own time, so the two times may be equal.
- A sheet block without "color" is drawn in "#black", which PIL does not
  read, so such a block raises (`Utils.DefaultBlockColourRaises`).
- The jobs, the log sessions and `upload_file_ftp` walk and store exactly as
  written. Where the walk as written and the intended walk differ, the
  Findings below show both.

## Model

| member | source | states |
|---|---|---|
| Ftp.Session.constructor | api/utils.py:237 | a session object starts from the given server state |
| Ftp.Session.Open | api/utils.py:237 | logging in succeeds exactly when the credentials are the server's; then the session is connected at the root |
| Ftp.Session.Cwd | api/utils.py:88 | `cwd` succeeds exactly when the resolved directory exists on a connected session; only then does the current directory move, and nothing else changes but the reply trace |
| Ftp.Session.Mkd | api/utils.py:92 | `mkd` succeeds exactly when the parent exists and the name is free; only then is the directory added |
| Ftp.Session.Stor | api/utils.py:242 | `STOR` succeeds exactly when the target's parent directory exists and the target is not a directory; only then is the file written, relative to the current directory |
| Ftp.Session.Quit | api/utils.py:237 | leaving the `with` block disconnects and keeps every directory and file |
| Ftp.OpenStep | api/utils.py:237 | the server's answer to a login: connected exactly on the right credentials, at the root; directories and files unchanged |
| Ftp.CwdStep | api/utils.py:88 | the answer to `cwd`: only the current directory moves, and only into an existing directory |
| Ftp.MkdStep | api/utils.py:92 | the answer to `mkd`: at most the resolved directory is added; files and the current directory unchanged |
| Ftp.StorStep | api/utils.py:242 | the answer to `STOR`: at most the resolved file is written; directories and the current directory unchanged |
| Ftp.QuitStep | api/utils.py:237 | the answer to `quit`: disconnected, directories and files unchanged |
| Ftp.StepsKeepValid | api/ftp_utils.py:70-75 | every command keeps the tree well formed: the root exists, every directory's parent exists, the current directory exists, and files sit in existing directories |
| Ftp.MkdThenCwd | api/ftp_utils.py:74-75 | after a successful `mkd(name)`, `cwd(name)` succeeds and a second `mkd(name)` is refused |
| Numeric.Trunc | api/utils.py:167 | Python `int()` of a float: within one of the input, on the side of zero |
| Numeric.RoundHalfEven | api/photo_utils.py:136 | PIL's rounding of the crop box: the nearest integer, ties to the even one |
| Numeric.RoundMonotone | api/photo_utils.py:136 | rounding keeps order, so a box whose lower edge is not above its upper edge has a non-negative height |
| Text.Split | api/photo_utils.py:193 | `str.split` always yields at least one piece |
| Text.Find | api/photo_utils.py:193 | the first occurrence of the separator, or none when it does not occur |
| Text.JoinSplit | api/photo_utils.py:193 | joining the pieces of a split with the separator gives back the string |
| Text.SplitPiecesAvoidSeparator | api/photo_utils.py:193 | no piece of a split contains the separator |
| Text.SplitAround | api/utils.py:85 | splitting on a character at a point where it occurs splits each side apart |
| Text.NonEmpty | api/utils.py:86 | `if directory:` keeps only non-empty pieces, all taken from the input |
| Text.LStrip | api/ftp_utils.py:63 | `lstrip('/')` removes every leading '/' and only those: the result is a suffix that does not start with '/' |
| Text.RStrip | api/utils.py:238 | `rstrip('/')` removes every trailing '/' and only those |
| Text.SegmentsIgnoreLeadingSlashes | api/ftp_utils.py:63-68 | stripping leading slashes does not change the non-empty segments the walk visits |
| Text.SegmentsIgnoreTrailingSlashes | api/utils.py:238 | stripping trailing slashes does not change the non-empty segments |
| Text.ReplaceChar | api/ftp_utils.py:94 | `.replace('\\', '/')` keeps the length and swaps exactly that character |
| Text.AfterLastSlash | api/utils.py:238 | `os.path.split` cuts just after the last '/', and the tail holds no '/' |
| Text.PathSplitSegments | api/utils.py:238 | the tail of `os.path.split` holds no '/', and the head's segments followed by the tail are the path's segments |
| Text.SegmentsPathJoin | api/ftp_utils.py:145 | `os.path.join(a, b)` for a relative `b` has the segments of `a` followed by those of `b` |
| PhotoUtils.TextFontPath | api/photo_utils.py:165-179 | `add_text`'s font table gives a path exactly for the six known names, and '' otherwise |
| PhotoUtils.WatermarkFontPath | api/photo_utils.py:33-44 | the watermark's table is the text table without "roboto" |
| PhotoUtils.UnknownFontFallsBack | api/photo_utils.py:180-184 | an unknown font name ends on PIL's default font in both tables |
| PhotoUtils.ApplyCrop | api/photo_utils.py:132-136 | the crop raises exactly when the two percentages add up to more than 100 on a non-empty image; otherwise it keeps the width and the mode |
| PhotoUtils.CropInvertedWhen | api/photo_utils.py:132-136 | the box's lower edge is above its upper edge exactly in that case |
| PhotoUtils.CropNothingKeepsImage | api/photo_utils.py:132-136 | cropping 0% top and bottom returns the image unchanged |
| PhotoUtils.CropKeepsShare | api/photo_utils.py:132-136 | the kept height is within one pixel of `(100 - dh - db)%` of the height |
| PhotoUtils.ApplyRotation | api/photo_utils.py:129-130 | angles of 0 and 180 modulo 360 keep the size; 90 and 270 swap width and height |
| PhotoUtils.ApplyFilter | api/photo_utils.py:138-151 | 'nb' gives a grayscale image of the same size; 'cartoon' succeeds exactly on RGB images; any other name returns the image unchanged |
| PhotoUtils.ApplyResizeTemplate | api/photo_utils.py:78-82 | a zero width divides by zero; otherwise the resize succeeds exactly when the new width is positive and the truncated height `new_width * height / width` is at least 1, and then the width is exactly the requested one, the mode is kept and the height is the aspect-preserving height truncated; every other case is PIL's refusal of a non-positive size |
| PhotoUtils.DecodeColor | api/photo_utils.py:57 | a colour decodes exactly when `int(…, 16)` reads each of its three two-character slices; each channel is then above -16 and below 256, and the fourth value is the transparency |
| PhotoUtils.DecodeThreeSlices | api/photo_utils.py:57 | a colour made of three two-character slices decodes exactly when each slice is read by `int(…, 16)`, to those three values and the transparency |
| PhotoUtils.ParseHex | api/photo_utils.py:57 | `int(s, 16)` on a slice of at most two characters: a value above -16 and below 256; on hexadecimal digits alone, their value, and an empty slice is refused |
| PhotoUtils.ShortSlicesParse | api/photo_utils.py:57 | `int()` reads "-1" as -1 and " f" as 15, and refuses "1-" |
| PhotoUtils.SignedAndSpacedChannelsDecode | api/photo_utils.py:57 | so "-1-1-1" decodes to the channels -1, -1, -1 and " f f f" to 15, 15, 15, while "1-1-1-" raises |
| PhotoUtils.HexByteParses | api/photo_utils.py:57 | `int(s, 16)` of a channel's two hex digits is the channel |
| PhotoUtils.DecodeEncodedColor | api/photo_utils.py:57 | "RRGGBB" decodes to exactly `(R, G, B, transparency)` |
| PhotoUtils.WatermarkSpotInside | api/photo_utils.py:63-69 | every watermark position lies inside a non-empty image |
| PhotoUtils.ApplyWatermark | api/photo_utils.py:9-75 | the watermark succeeds exactly when the colour decodes; then the result is an RGB image of the same size with `repeat_count + 1` marks; mark `i` is at `i` steps of `size // (repeat_count + 1)` with the text, the font, the size and the decoded colour |
| PhotoUtils.PlaceMarks | api/photo_utils.py:63-69 | the watermark loop makes `repeat_count + 1` marks; mark `i` carries the text, font, size and fill at `i` steps of `size // (repeat_count + 1)` |
| PhotoUtils.TextDrawsCoverText | api/photo_utils.py:193-197 | `add_text` draws at least one line, no line holds "<br>", and the lines joined with "<br>" are the text |
| PhotoUtils.TextLinesStack | api/photo_utils.py:186-197 | consecutive lines share their left edge and are `font_size + 5` apart |
| PhotoUtils.AddText | api/photo_utils.py:165-199 | `add_text` raises exactly when PIL cannot read "#" + colour, and then draws nothing; otherwise the canvas gets exactly one draw per line, in order, at `(x/100*W, y/100*H + i*(font_size+5))`, filled "#" + colour |
| PhotoUtils.NamedColourRefused | api/photo_utils.py:197 | "#black" is not a colour PIL reads, while "#000000" and "#FFF" are |
| Raster.Canvas.constructor | api/utils.py:143 | the canvas copies the template's size and mode, with nothing drawn yet |
| Raster.Canvas.Paste | api/utils.py:183 | a paste appends exactly one paste event |
| Raster.Canvas.DrawText | api/photo_utils.py:197 | a text draw appends exactly one draw event |
| FtpUtils.FtpSecurity | api/ftp_utils.py:18-56 | only id 1 is supported; it yields the three variables exactly when all are set and non-empty; otherwise it names the first missing one, in the order host, user, password |
| FtpUtils.Digits | api/ftp_utils.py:93 | a zero-padded `strftime` field has exactly its width, all digits |
| FtpUtils.DigitsValueOfDigits | api/ftp_utils.py:93 | a zero-padded field reads back as its number |
| FtpUtils.Stamp | api/ftp_utils.py:93 | `%Y%m%d_%H%M%S` is 15 characters: digits with '_' at index 8 |
| FtpUtils.StampRoundTrip | api/ftp_utils.py:93 | the time can be read back from its stamp |
| FtpUtils.StampFields | api/ftp_utils.py:93 | each field sits at its place in the stamp, zero-padded |
| FtpUtils.LogNamesArePlain | api/ftp_utils.py:93 | log file names are non-empty and hold no '/' and no '\' |
| FtpUtils.LogNamesDistinct | api/ftp_utils.py:144 | an error log never has a request log's name, and two logs share a name only when they share the second |
| FtpUtils.LogFilePathSegments | api/ftp_utils.py:145 | `join(folder, name)` with '\' replaced has the folder's segments and then the name, and it is absolute exactly when the folder is |
| FtpUtils.PathPiecesSegments | api/ftp_utils.py:63-68 | the pieces the walk visits, empty ones skipped, are the path's segments |
| FtpUtils.EnsureFtpPathConcat | api/ftp_utils.py:59-76 | the walk as written, on a session, equals the fold that enters or makes the concatenation of the segments so far |
| FtpUtils.ConcatStepOn | api/ftp_utils.py:67-75 | one iteration as written: skip an empty piece, else extend `current_path` and enter or make it |
| FtpUtils.EnterOrMakeOn | api/ftp_utils.py:70-75 | `cwd`, and on refusal `mkd` then `cwd`; a refused `mkd` or second `cwd` raises |
| FtpUtils.ConcatRaisedStays | api/ftp_utils.py:73-75 | once an iteration raises, the walk as written does nothing more |
| FtpUtils.EnsureFtpPath | api/ftp_utils.py:59-76 | the corrected walk on a session equals the fold that enters or makes one segment per iteration |
| FtpUtils.NestedRaisedStays | api/ftp_utils.py:73-75 | once an iteration raises, the corrected walk does nothing more |
| FtpUtils.NestedSkipsEmpty | api/ftp_utils.py:68 | empty pieces change nothing in the corrected walk |
| FtpUtils.ConcatSkipsEmpty | api/ftp_utils.py:68 | empty pieces change nothing in the walk as written |
| FtpUtils.EnterOrMakeDescends | api/ftp_utils.py:70-75 | with no file in the way, entering or making a name ends one level down, without raising |
| FtpUtils.MakeThenEnter | api/ftp_utils.py:73-75 | when `cwd` is refused, `mkd` then `cwd` reach the new directory, adding only it |
| FtpUtils.EnterOrMakeFresh | api/ftp_utils.py:73-75 | a missing directory is made and entered; the files are unchanged |
| FtpUtils.NestedWalkReaches | api/ftp_utils.py:67-75 | the corrected walk ends below the start, one level per segment; only prefixes of the path are made; no file changes |
| FtpUtils.EnsureNestedReaches | api/ftp_utils.py:59-76 | the corrected `ensure_ftp_path` reaches the path's directory, relative to the current directory |
| FtpUtils.PiecesOfTwoNames | api/ftp_utils.py:63-64 | "a/b" splits into the pieces and segments `a`, `b` |
| FtpUtils.ConcatWalkTwoNames | api/ftp_utils.py:66-75 | from the root, the walk as written on "a/b" makes `/a` and `/a/ab` and ends in `/a/ab` |
| FtpUtils.NestedTwoNames | api/ftp_utils.py:59-76 | the corrected walk on "a/b" ends in `/a/b` |
| FtpUtils.ConcatNestsWrongly | api/ftp_utils.py:66-71 | the walk as written ends in `/a/ab` and never makes `/a/b`, where the corrected walk ends |
| FtpUtils.ConcatAgreesOnOneSegment | api/ftp_utils.py:66-71 | on a path with at most one segment, such as "/logs" and "/error_logs", the two walks are identical |
| FtpUtils.UploadLog | api/ftp_utils.py:104-121 | the log session never stays connected, and a refused login changes nothing |
| FtpUtils.UploadLogFile | api/ftp_utils.py:104-124 | the log session on a session object: log in, `cwd('/')`, ensure the folder unless it is '/', `STOR join(folder, name)`, leave; every error is swallowed |
| FtpUtils.LogRequestToFtp | api/ftp_utils.py:77-124 | `log_request_to_ftp` stores "Request received at ... with parameters: ..." under `request_log_<stamp>.txt` |
| FtpUtils.LogToFtp | api/ftp_utils.py:127-163 | `log_to_ftp` stores the message under `error_log_<stamp>.txt` |
| FtpUtils.AbsoluteLogLands | api/ftp_utils.py:104-117 | with an absolute folder of at most one segment (as the job's "/logs" and "/error_logs") and nothing in the way, the walk as written makes the folder if needed and the log is stored at folder/name; no other file changes and only prefixes of the folder are made |
| FtpUtils.AbsoluteLogLandsOrIsLost | api/ftp_utils.py:104-124 | for an absolute folder of any depth, the log session as written either writes exactly folder/name or leaves every file as it was |
| FtpUtils.ConcatWalkKeepsFiles | api/ftp_utils.py:66-75 | the walk as written writes no file |
| FtpUtils.RootSession | api/ftp_utils.py:105-106 | with the right credentials, the session logs in and reaches the root |
| FtpUtils.AbsoluteFolderReached | api/ftp_utils.py:106-108 | from the root, the corrected walk reaches the folder's directory, or stays at the root for '/' |
| FtpUtils.AbsoluteLogStores | api/ftp_utils.py:112-116 | the absolute log path is stored at folder/name, whatever the current directory |
| FtpUtils.NestedWalkKeepsFiles | api/ftp_utils.py:67-75 | the walk writes no file |
| FtpUtils.UploadLogPlain | api/ftp_utils.py:153-159 | for a one-segment relative folder, the log session enters or makes the folder and then stores |
| FtpUtils.PlainLogTarget | api/ftp_utils.py:145 | the relative log path resolves to `folder/folder/name` from inside the folder |
| FtpUtils.RelativeLogFolderNests | api/ftp_utils.py:153-159 | a relative folder's log is stored at `folder/folder/name` or nowhere |
| FtpUtils.RelativeLogLands | api/ftp_utils.py:153-159 | when `folder/folder` exists, the log lands there and no other file changes |
| FtpUtils.PlainLogStores | api/ftp_utils.py:159 | from inside the folder, the relative `STOR` writes `folder/folder/name` |
| FtpUtils.UploadTarget | api/ftp_utils.py:186 | the upload name has no leading '/' |
| FtpUtils.UploadTargetSegments | api/ftp_utils.py:181-186 | the upload name has the requested path's segments |
| FtpUtils.UploadFile | api/ftp_utils.py:179-190 | `upload_file_ftp` raises on a refused login and always leaves the session |
| FtpUtils.UploadFileFtp | api/ftp_utils.py:179-190 | on a session: log in, ensure the directory part, `cwd('/')`, store the target; every error propagates |
| FtpUtils.UploadReachesDirectory | api/ftp_utils.py:181-182 | after login, the walk as written reaches the directory part of an output path with at most one directory segment |
| FtpUtils.UploadFileLands | api/ftp_utils.py:179-190 | for a directory part of at most one segment and nothing in the way, the upload does not raise and writes exactly the output path |
| FtpUtils.UploadFileLandsOrRaises | api/ftp_utils.py:179-190 | for any output path with a file name, the upload either raises and writes no file, or writes exactly the output path and nothing else |
| FtpUtils.UploadTargetResolves | api/ftp_utils.py:185-186 | from the root the target resolves to the output path's segments, the directory part's followed by the file name |
| FtpUtils.UploadStoresAtTarget | api/ftp_utils.py:185-190 | after the walk, `cwd('/')` succeeds and the store writes the output path |
| Utils.LenientStep | api/utils.py:86-95 | one segment: no file changes; without `create_dirs` no directory is made and only `cwd` is issued |
| Utils.LenientWalk | api/utils.py:85-95 | the loop never raises, keeps files, makes directories only with `create_dirs`, and only extends the trace |
| Utils.EnsurePathLenient | api/utils.py:74-95 | an empty path issues nothing; an absolute path first issues `cwd('/')`, the only call that can raise; files never change; without `create_dirs` no directory is made and only `cwd` is issued |
| Utils.EnsureFtpPathLenient | api/utils.py:74-95 | the walk on a session, one `cwd`/`mkd` at a time, equals its fold |
| Utils.LenientWalkFtp | api/utils.py:85-95 | the loop over the pieces on a session leaves it exactly as the fold of the pieces does |
| Utils.LenientStepFtp | api/utils.py:86-95 | one piece on a session: enter it, else (with `create_dirs`) make it and enter it, swallowing every refusal, exactly as one step of the fold |
| Utils.LenientWalkKeepsValid | api/utils.py:85-95 | the walk keeps the tree well formed |
| Utils.LenientSkipsEmpty | api/utils.py:86 | empty segments change nothing |
| Utils.LenientAgreesWithNested | api/utils.py:85-95 | with `create_dirs`, when nothing is refused, this walk and the corrected walk of `api/ftp_utils.py` agree |
| Utils.LenientReaches | api/utils.py:74-95 | with `create_dirs` and nothing in the way, the walk ends at its base (the root for an absolute path) plus the path's segments |
| Utils.LenientPiecesReach | api/utils.py:85-95 | from a valid connected state with nothing in the way, the walk over the path's pieces with `create_dirs` ends at the current directory plus the path's segments |
| Utils.LenientWalkExisting | api/utils.py:85-88 | through existing directories the walk enters each segment and makes nothing |
| Utils.LenientReachesExisting | api/utils.py:74-95 | through existing directories, with or without `create_dirs`, the walk reaches the path and makes nothing |
| Utils.AbsoluteExistingReached | api/utils.py:80-88 | an absolute path through existing directories is reached from the root |
| Utils.WalkExistingReached | api/utils.py:85-88 | the segment loop through existing directories reaches the path |
| Utils.ValueOrDefault | api/utils.py:139-140 | the entry when the index is in range and the entry is not `None`, and the default otherwise |
| Utils.ScaleFactor | api/utils.py:126-128 | the scale is the target width (`result_w` if truthy, else the template width) over 1000 |
| Utils.FontSizeFollowsTargetWidth | api/utils.py:204 | a drawn size is the requested size times target width / 1000, rounded down; at a target of 1000 it is kept |
| Utils.LayerSize | api/utils.py:166-174 | the width is a share of the current canvas width; the height keeps the layer's aspect ratio; a zero side divides by zero; a non-positive width or height raises with both values |
| Utils.PercentOf | api/utils.py:181-182 | `int(p/100*size)` for `p >= 0`: the truncated share, within the size when `p <= 100` |
| Utils.PercentBounds | api/utils.py:181-182 | the truncation of the real share is that value |
| Utils.SettingsAt | api/utils.py:153-182 | layer `i`'s settings are looked up with defaults crop 0/0, rotation 0, filter 'none', width 100, position 0/0 |
| Utils.TransformLayer | api/utils.py:150-183 | one layer passes crop, rotate, filter, resize, optional watermark and paste, in that order, up to the first step that raises; the paste is at the percentage position of the canvas with a width share of the canvas, and RGB when watermarked |
| Utils.Pass | api/utils.py:146-188 | the loop keeps every paste up to the first layer that raises and stops there |
| Utils.PassFailureStays | api/utils.py:185-188 | after a layer raises, later layers change nothing |
| Utils.PassStepPastes | api/utils.py:147-183 | a layer that pastes extends the loop's events by its paste |
| Utils.PassStepRaises | api/utils.py:185-188 | a layer that raises ends the loop with the pastes made before it and that layer's error |
| Utils.Layers | api/utils.py:146-188 | the image loop: paste `k` is layer `k`'s paste; it stops at the first failing layer, with that layer's error |
| Utils.LayersNext | api/utils.py:146-188 | one more iteration of the image loop: stay failed, fail at this layer, or add its paste |
| Utils.LayersFailureStays | api/utils.py:185-188 | once a layer has failed, the loop's result is fixed |
| Utils.DefaultWatermarkColourDecodes | api/photo_utils.py:14-15 | the default watermark colour decodes, so a watermark never raises |
| Utils.ComposeLayers | api/utils.py:146-188 | the image loop on the canvas appends exactly the passes' pastes and reports the failing layer |
| Utils.DrawLayer | api/utils.py:147-183 | one layer on the canvas: it raises exactly when the layer's steps do, and pastes nothing then; otherwise it appends the paste |
| Utils.LayerStepEvents | api/utils.py:146-188 | the canvas events after one layer, appended to those before it, are the image loop's events so far, or its final events with the error when the layer raised |
| Utils.DrawLayerStep | api/utils.py:146-188 | one iteration of the image loop on the canvas extends the pastes, or ends the loop at this layer with its error |
| Utils.TextLayer | api/utils.py:195-216 | an empty text draws nothing; a non-empty text raises exactly when PIL cannot read "#" + its colour; otherwise every line has the scaled size, "#" + colour and the looked-up font, with defaults "", "arial", "000000" and 20 |
| Utils.TextSteps | api/utils.py:193-216 | one step per text of the job, each being that text's draws or its failure |
| Utils.TextFold | api/utils.py:191-220 | the loop over the texts' steps ends without failure exactly when every step draws; otherwise at the first step that raises; it draws only text when every step does |
| Utils.TextFoldNext | api/utils.py:191-220 | one more step of the loop: stay failed, fail at this step, or add its draws |
| Utils.TextFoldFailureStays | api/utils.py:217-220 | once a step has raised, later steps change nothing |
| Utils.TextFoldStepDraws | api/utils.py:193-216 | a step that draws extends the loop's events by its own draws |
| Utils.TextFoldStepRaises | api/utils.py:217-220 | a step that raises ends the loop with the events drawn before it |
| Utils.TextsUpTo | api/utils.py:191-220 | the text loop draws only text |
| Utils.TextsUpToStops | api/utils.py:191-220 | the text loop ends without failure exactly when no text raises, and otherwise at the first text that raises, every text before it having drawn |
| Utils.TextsFailureStays | api/utils.py:217-220 | once a text has raised, later texts change nothing |
| Utils.TextsNext | api/utils.py:193-220 | one more iteration of the text loop: stay failed, fail at this text, or add its draws |
| Utils.DrawTextLayer | api/utils.py:194-216 | one text on the canvas raises exactly when that text fails, drawing nothing; otherwise it appends exactly that text's draws |
| Utils.TextStepEvents | api/utils.py:193-220 | the canvas events after one text, appended to those before it, are the text loop's events so far, or its final events when the text raised |
| Utils.DrawTextStep | api/utils.py:193-220 | one iteration of the text loop on the canvas extends the drawn prefix, or ends the loop at this text with the loop's final events |
| Utils.DrawTexts | api/utils.py:191-220 | the text loop on the canvas appends the texts in order up to the one that raises, and reports it |
| Utils.UploadResultAsWritten | api/utils.py:237-242 | the upload block as written always leaves the session, and raises and writes nothing on a refused login |
| Utils.UploadResult | api/utils.py:237-242 | the corrected upload block raises and writes nothing on a refused login, and always leaves the session |
| Utils.UploadResultFile | api/utils.py:235-246 | the upload block as written, on a session, equals its function |
| Utils.UploadEntersDirectory | api/utils.py:238-240 | after login, the walk with `create_dirs` reaches the directory part of `result_file` |
| Utils.UploadResultLands | api/utils.py:237-243 | the corrected upload stores the JPEG exactly at `result_file` and changes no other file |
| Utils.UploadResultAsWrittenLands | api/utils.py:237-242 | as written, an absolute `result_file`, or one without a directory part, is stored exactly there with nothing in the way, and no other file changes |
| Utils.UploadResultAsWrittenDoubles | api/utils.py:238-242 | as written, a relative `result_file` with a directory is stored under that directory twice, or the upload raises and writes nothing |
| Utils.FinishRun | api/utils.py:222-252 | the end of the job never fails at a layer or a text; it fails at the resize exactly when `result_w` is truthy and the resize is refused; with `result_file` given, a final image the JPEG writer refuses fails the save, and one it accepts is uploaded; a template it refuses can never complete; every failure but the upload's is logged once by the outer handler; on success the final image is resized to `result_w` when it is truthy, and is the template otherwise |
| Utils.ResizeKeepsSavable | api/photo_utils.py:78-82 | a resize that succeeds starts from a non-empty image and keeps whether the JPEG writer accepts it |
| Utils.Finish | api/utils.py:222-252 | the resize and upload on a session equal their function |
| Utils.ProcessAndUpload | api/utils.py:97-252 | the whole job on a session and a fresh canvas equals `ProcessAndUploadRun`: the server, the canvas events, the final image and the outcome |
| Utils.ImagesBeforeTexts | api/utils.py:146-220 | all pastes come before any text, in layer order; a failing layer ends the job with only the earlier layers pasted and no text drawn, and it is the only way a job fails at a layer |
| Utils.JobEventsShape | api/utils.py:146-220 | a job whose layer raises holds only the pastes before it and fails with that layer's error; otherwise its canvas holds the pastes, then the texts' draws, and it does not fail at a layer |
| Utils.TextsStopAtFailure | api/utils.py:193-220 | a text loop that raises has drawn exactly the texts before the one that raised |
| Utils.TextFailureEndsJob | api/utils.py:190-252 | when the layers pass and a text raises, that text is non-empty with a colour PIL cannot read, the job fails at it with the earlier texts drawn, and the server gets the text log and the general log after the request log |
| Utils.JobLogLands | api/utils.py:187 | a log for "/error_logs" or "/logs" lands in that folder, adding at most the folder |
| Utils.LayerFailureWritesOnlyLogs | api/utils.py:185-188 | when a layer raises, the only files written are the request log, the step log and the general log, and the job fails at that layer |
| Utils.CompletedJobStoresResult | api/utils.py:227-246 | a job that passes every layer and text, with a resize that succeeds, a template the JPEG writer accepts and a `result_file` that is absolute or has no directory part, completes and writes the request log and the JPEG at `result_file`, nothing else |
| Utils.FinishStoresResult | api/utils.py:222-246 | under the same conditions, the resize and upload complete and write only the JPEG |
| Utils.BlockText | api/utils.py:38-48 | a block draws exactly when it has "text", "x", "y" and a "color" PIL reads; otherwise it raises on the first missing key, in that order, or on its colour, the missing colour meaning "black" |
| Utils.DefaultBlockColourRaises | api/utils.py:46 | a complete block without "color" raises on "black" |
| Utils.BlockTextDraws | api/utils.py:38-48 | a block that draws, draws its text line by line, the lines joined are the text, with the defaults "arial", 20 and "left" and its own colour |
| Utils.DrawPass | api/utils.py:38-48 | the loop over the blocks' steps ends without failure exactly when every step succeeds; otherwise it stops at the first failing step, with its error |
| Utils.DrawPassFailureStays | api/utils.py:38-48 | after a block raises, later blocks change nothing |
| Utils.Blocks | api/utils.py:38-48 | the block loop succeeds exactly when every block draws; otherwise it stops at the first block that raises, with its reason |
| Utils.BlocksNext | api/utils.py:38-48 | one more iteration of the block loop |
| Utils.DrawPassStepDraws | api/utils.py:39-48 | a block step that draws extends the loop's events by its own draws |
| Utils.DrawPassStepRaises | api/utils.py:39-48 | a block step that raises ends the loop with the events drawn before it and that block's error |
| Utils.BlocksFailureStays | api/utils.py:38-48 | once a block has failed, the loop's result is fixed |
| Utils.ProcessIntercalaireRun | api/utils.py:28-72 | a negative size is exactly the `Image.new` size failure, and otherwise an unreadable background is exactly its colour failure; the job returns its success message only when the sheet is non-empty, the background readable and every block draws; an empty sheet is refused by the JPEG writer; every failure but the upload's is logged by the handler as written |
| Utils.DrawBlocks | api/utils.py:38-48 | the block loop on the canvas appends exactly the blocks' draws and reports the block that raised and why |
| Utils.DrawBlock | api/utils.py:39-48 | one block on the canvas: it raises on a missing key or an unreadable colour without drawing, and otherwise appends its draws |
| Utils.BlockStepEvents | api/utils.py:38-48 | the canvas events after one block, appended to those before it, are the block loop's events so far, or its final events with the error when the block raised |
| Utils.DrawBlockStep | api/utils.py:38-48 | one iteration of the block loop on the canvas extends the drawn prefix, or ends the loop at this block with its error |
| Utils.ProcessIntercalaire | api/utils.py:28-72 | the sheet job on a session equals `ProcessIntercalaireRun` |
| Utils.SheetLands | api/utils.py:34-61 | a non-empty sheet with a readable background whose blocks all draw, and a `result_file` that is absolute or has no directory part in an existing directory, is stored exactly at `result_file`, and no other file changes |
| Utils.SheetLogAsWrittenIsLost | api/utils.py:65-71 | as written the error log logs in with the password as user name: it changes nothing when the two differ, and is the intended log when they are equal |
| Utils.SheetLogLands | api/utils.py:64-71 | with the upload's credentials the error log lands, under the nested relative folder |
| Lists.FilterNone | api/router/image.py:198-210 | dropping `None` keeps only values, each from the input, and keeps every value of the input |
| Lists.SomeIndices | api/router/router_image.py:200 | the positions holding a value, ascending, and all of them |
| Lists.FilterNoneIsProjection | api/router/router_image.py:200-208 | dropping `None` is projecting onto the value positions |
| Lists.SameShapeSameIndices | api/router/image.py:198-210 | lists with values at the same places have the same value positions |
| Lists.AlignedFilterIsProjection | api/router/image.py:198-210 | filtering a list alone equals projecting it on another list's positions when both hold values at the same places |
| Lists.FilterNoneKeepsFull | api/router/image.py:207-210 | a list with no `None` is kept whole |
| Lists.FilterNoneOfNothing | api/router/image.py:198 | a list of `None` filters to nothing |
| RouterImage.CreateImage | api/router/router_image.py:184-282 | refused with 400 exactly when no x is given; otherwise it starts a job exactly when the credentials are found, with them |
| RouterImage.CreateImageAligns | api/router/router_image.py:208-223 | job layer `k` is the `k`-th query layer with an x, with all its own settings (`None` kept); text `k` is the `k`-th given text with its own settings |
| RouterImage.ParamsMatchArguments | api/router/router_image.py:229-282 | `params` carries exactly the job's arguments |
| RouterImage.LayerBounds | api/router/router_image.py:185-223 | a job has 1 to 10 layers, each with an x, and at most 2 texts, none absent |
| RouterImage.NoPositionNeverRaised | api/router/router_image.py:70-74 | since `x1` defaults to 0, a bound query is never refused for lack of an x |
| RouterImage.QuerySettings | api/utils.py:131-140 | a query layer read with the job's defaults |
| RouterImage.JobLayerIsQueryLayer | api/router/router_image.py:208-214 | the settings the job applies to layer `k` are those of the `k`-th query layer with an x |
| ImageRouter.CreateImage | api/router/image.py:183-265 | the older endpoint starts a job exactly when the credentials are found, with them |
| ImageRouter.JobListsHoldValues | api/router/image.py:197-210 | every job list holds only values from the query, at most 10 layers and 2 texts |
| ImageRouter.NoPositionStillDispatches | api/router/image.py:197-265 | without any x the older endpoint still starts a job, with no layer, where the newer one answers 400 |
| ImageRouter.BoundTextSettingsKept | api/router/image.py:168-178 | text positions, colours and sizes have defaults, so they keep both entries |
| ImageRouter.AlignedQueriesAgree | api/router/image.py:197-210 | when every list holds values where x (or t) does, both endpoints start the same job |
| ImageRouter.RotationShiftsToOtherLayer | api/router/image.py:198-200 | with `x1` and `r2` but no `r1` and no `x2`, the first layer is rotated by `r2`; the newer endpoint keeps rotation 0 |
| ImageRouter.ShiftedRotationQuery | api/router/image.py:69-73 | a concrete query meeting the previous lemma's conditions |
| IntercalaireRouter.CreateIntercalaire | api/router/intercalaire.py:77-147 | the job is started exactly when the credentials are found, with them |
| IntercalaireRouter.SizeNotChecked | api/router/intercalaire.py:113-147 | any width and height, negative ones included, reach the job and `params` unchanged, as do `result_file` and the colour |
| IntercalaireRouter.ParamsHoldValues | api/router/intercalaire.py:93-105 | every list of `params` holds only query values, at most two |
| IntercalaireRouter.BoundTextSettingsKept | api/router/intercalaire.py:100-103 | fonts, colours and sizes keep both entries |
| IntercalaireRouter.TextPositionShifts | api/router/intercalaire.py:100-104 | with both texts but only `tx2`, `txs` is `[tx2]`, paired with the first text |

## Findings

| source | as written | input that shows it | evidently intended | confidence | as-written member | corrected member |
|---|---|---|---|---|---|---|
| api/ftp_utils.py:69-71 | `current_path += directory` with no separator; after `cwd("a")` the relative `cwd("ab")` makes and enters `/a/ab` | `ensure_ftp_path(ftp, "a/b")` from the root | create and enter `/a/b`, one level per segment | high (not executed) | FtpUtils.ConcatNestsWrongly | FtpUtils.EnsureNestedReaches |
| api/utils.py:238-242 | after entering the directory part of `result_file`, `STOR result_file` names the directory again | `result_file = "exemple/test.jpg"` (the sheet endpoint's default) from the root | store `test.jpg` in `exemple/` | medium (not executed) | Utils.UploadResultAsWrittenDoubles | Utils.UploadResultLands |
| api/utils.py:65-68 | the error log logs in with `ftp_username=ftp_password` | any sheet failure on a server whose user name differs from its password | log in with the upload's user name | high (not executed) | Utils.SheetLogAsWrittenIsLost | Utils.SheetLogLands |
| api/router/image.py:198-204 | each list drops `None` on its own, so a setting moves to another layer | `x1=10, r2=45`, no `r1`, no `x2` | keep each layer's settings together, as `api/router/router_image.py` does | medium (not executed) | ImageRouter.RotationShiftsToOtherLayer | RouterImage.JobLayerIsQueryLayer |

The jobs, the log sessions and `upload_file_ftp` are modelled as written: they walk with `FtpUtils.EnsureConcat`, store `result_file` as given, and the sheet's handler logs in with the password as user name. The corrected members stand beside them, with the intended property proved:

- `FtpUtils.EnsureNested`, the walk one level per segment;
- `Utils.UploadResult`, the upload that stores the file name once the walk stands in its directory;
- `Utils.SheetLoggedIntended`, the sheet's log with the upload's credentials.

Where the two agree the landing lemmas are stated about the code as written: for the one-segment folders the logs use, `FtpUtils.ConcatAgreesOnOneSegment` shows the two walks identical; an absolute `result_file`, or one without a directory part, lands where it names (`Utils.UploadResultAsWrittenLands`). The fourth row contrasts the older endpoint with the newer one; both are modelled as written.

## Left out

- Downloading the template and photos (`load_image`), temp files, `os.remove` and `clean_up_files`: I/O. The loaded images are a parameter of the job.
- Pixel work: resampling, grayscale conversion, the OpenCV cartoon pipeline, alpha compositing, glyph rasterisation, JPEG and DPI encoding. An image is its size and mode; the encoder is a parameter.
- PhotoUtils.ApplyRotation: the size after an angle that is not a multiple of 90 degrees comes from a supplied function, because PIL's expanded bounding box depends on floating-point trigonometry.
- PhotoUtils.ApplyFilter: 'cartoon' keeps the image's size and mode; only its refusal of non-RGB input is modelled.
- PhotoUtils.ApplyWatermark: the composited pixels are not modelled; the marks record what `draw.text` is called with.
- Utils.TransformLayer: an exception inside PIL's `paste`, or a cartoon filter on an RGBA image, is not modelled beyond the errors listed in `PhotoUtils.ImageError`.
- Python float rounding in the percentage arithmetic: reals are exact, and only the deliberate `int()` and PIL's box rounding are modelled.
- Utils.TextLayer: of the failures inside `add_text`, only the colour PIL cannot read is modelled; a font file that fails to load, and a font size that recent Pillow versions refuse, are not. An unknown font falls back to the default font as in the source.
- PhotoUtils.ParseHex: digits outside ASCII, which Python's `int()` also accepts, are not modelled. The "0x" prefix and '_' separators need more than the two characters a slice holds.
- PhotoUtils.DecodeColor: a channel below 0 is passed on as it is; PIL clips it when drawing, which is pixel work.
- FtpUtils.AbsoluteLogLands, FtpUtils.UploadReachesDirectory, FtpUtils.UploadFileLands: stated for paths of at most one directory segment, because the walk as written nests deeper paths wrongly (see Findings); FtpUtils.AbsoluteLogLandsOrIsLost and FtpUtils.UploadFileLandsOrRaises cover every depth.
- Utils.CompletedJobStoresResult, Utils.FinishStoresResult, Utils.SheetLands: stated for a `result_file` that is absolute or has no directory part, because as written a relative one with a directory is stored under that directory twice (see Findings).
- PhotoUtils.JpegSavable: the JPEG writer's refusals are modelled by size and mode; the DPI value and encoder errors are not.
- The `strategy` and `dpi` arguments `api/utils.py` passes to `add_text`, and `is_template` to `load_image`: `api/photo_utils.py` accepts neither. The call is modelled with the parameters `add_text` has.
- The background colour of the sheet is checked as PIL reads "#" + colour; the pixels it paints are not modelled.
- `Image.new` with a size PIL refuses is modelled as a negative width or height; other refusals, such as an image too large for memory, are not.
- The Celery plumbing (`api/tasks.py`, `api/celery_worker.py`, `router_celery.py`):
  - The Celery signatures do not match `process_and_upload`'s 23 parameters.
  - No `process_intercalaire_task` is defined.
  - The sheet endpoint sends `params` where the job expects text blocks.
  
  Each job is modelled from its own arguments.
- The FTP server's reply texts, `pwd`, and "." or ".." in paths. The login directory is the root.
- Logger and `print` output: they change no state.
- The HTTP layer's validation of the `FontType`/`FilterType` enums: the routers are modelled from the values they receive. `HttpBound` predicates record which parameters always have a value.
- The job reads the clock once per log call. `Utils.Clock` gives each call its own time, and equal times are allowed.
- How Python prints an exception or `params`: these are parameters (`describe`, `paramsText`).
- The tests in `api/tests/test_text_rendering.py` and the expectations at `api/tests/test_image_processing.py:100-101` and `api/tests/test_image_processing.py:202-203` contradict the code; the model follows the code (positions and widths from the canvas width).
