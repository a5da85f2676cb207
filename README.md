# echosplit handler, modelled in Dafny

`handler.py` is the whole backend: `handler(event)` receives an event holding
an object key (`"filename"`) and an optional bucket. It checks the filename
and downloads the object from S3 to `os.path.join("uploads", filename)`.
That is `uploads/<filename>` for a relative filename and the filename itself
for an absolute one. It then runs the Demucs separation tool once, with model
`mdx_extra_q`, MP3 output and output root `separated`. Finally it uploads the
four stems (vocals, drums, bass, other, in that order) to `<base>/<stem>.mp3`,
where `<base>` is the filename without its extension.

The download, the tool run and the uploads (lines 40-60) are guarded. Inside
them, the first exception stops the run: a subprocess that exits non-zero is answered with
`Demucs failed: ...` and status 500, any other exception with its text and
status 500. A truthy filename that is not a string makes `splitext` (line 37)
raise a `TypeError` before the guarded block, and that exception escapes the
handler.

The project has five modules, one per file:

- `PosixPath` (`posix_path.dfy`) models the two path operations the handler
  builds its names with, `os.path.splitext` and `os.path.join`, with the
  semantics of Python's `posixpath`. It proves:
  - `splitext` matches an independent description of a root/extension split,
    and that split is unique;
  - `join` restarts at an absolute part, and otherwise extends its first
    argument.
- `Naming` (`naming.dfy`) holds the constants of the handler and the names
  derived from a filename: the job base, the local download path, the tool's
  command line, the stem files and the stem keys.
- `Handler` (`handler.dfy`) holds the event and effect types and the
  specification of one call as a value. `Job` is the guarded part and
  `Invocation` is the whole call. Each gives the response and the external
  effects performed, in order.
  - The class `Runtime` holds the object store and the effect log. Its
    methods run the handler step by step: download, tool run, stem loop.
  - `Runtime.Handle` is proved to return `Invocation`'s response. Its log
    grows by exactly the effects `Invocation` performs, and its store changes
    exactly by the uploads among them that complete.
- `HandlerProperties` (`handler_properties.dfy`) proves what one call
  guarantees:
  - when it rejects the event, and which bucket it uses;
  - the exact effect sequence when nothing fails;
  - that the first failure stops everything, and how it is reported;
  - which stems are stored after a failed upload.
- `CollectionFacts` (`collection_facts.dfy`) holds small sequence and map
  facts used by the proofs.

The object store and the separation tool are not modelled. A `World`
parameter (`Effect -> Outcome`) says how each download, tool run and upload
turns out:
- `Ok`;
- `ProcessError(detail)`: the tool exits non-zero;
- `Raised(detail)`: any other exception.

Event values are `Null`, `Str(s)`, or `Other(truthy)` for any other JSON
value. The configured default bucket (`S3_BUCKET`) is the `Runtime`'s
`defaultBucket`. It may be `Null`.

The handler is synchronous: it returns only after the last upload or the
first failure. Vocals are uploaded first, and nothing is uploaded after the
stems.
`HandlerProperties.VocalsAloneWhenDrumsFails` proves the consequence: a
failed drums upload leaves the vocals stem stored alone.

## Model

| member | source | states |
|---|---|---|
| PosixPath.RFind | handler.py:37 | the index `splitext` finds for a character is its last occurrence, or -1 when it does not occur |
| PosixPath.HasNonDot | handler.py:37 | the leading-dot scan of `splitext` is true exactly when some character in the range is not a dot |
| PosixPath.SplitExt | handler.py:37 | root and extension concatenate back to the filename; the extension is empty or one dot followed by neither a dot nor '/'; a non-empty filename keeps a non-empty root |
| PosixPath.BaseName | handler.py:37 | the final component contains no '/', is a suffix of the path, and is preceded by '/' when shorter than the path |
| PosixPath.SplitExtIsExtSplit | handler.py:37 | the split meets the reference description: the extension is empty exactly when no dot of the final component follows a non-dot character |
| PosixPath.ExtSplitUnique | handler.py:37 | the reference description admits only the split `splitext` computes |
| PosixPath.SplitExtLastDot | handler.py:37 | `song.wav` splits into `song` and `.wav`; `a.b.mp3` splits at its last dot |
| PosixPath.SplitExtLeadingDots | handler.py:37 | `.hidden` and `d.x/f` have no extension; `..a.b` splits into `..a` and `.b` |
| PosixPath.JoinStep | handler.py:38 | one step of `os.path.join`: an absolute part replaces the path, otherwise the part is appended after a '/' when needed; characterised by `JoinRestartsAtAbsolute` and `JoinExtends`; `JoinStepRelative` and `JoinStepBelow` unfold it |
| PosixPath.Join | handler.py:55 | `os.path.join` over several parts; characterised by `JoinExtends`, `JoinRestartsAtAbsolute` and `JoinOne` |
| PosixPath.JoinExtends | handler.py:55 | the joined path ends with its last part and, when no part is absolute, starts with the first argument |
| PosixPath.JoinRestartsAtAbsolute | handler.py:38 | an absolute part discards everything joined before it |
| PosixPath.JoinStepRelative | handler.py:58 | unfolding helper: joining a relative part gives the path, then one '/' unless the path is empty or already ends with '/', then the part |
| Naming.JobBase | handler.py:37 | the job base is a prefix of the filename, non-empty for a non-empty filename |
| Naming.LocalInput | handler.py:38 | the local download path `os.path.join("uploads", filename)`; `LocalInputPath` gives it in closed form |
| Naming.ToolArgv | handler.py:46-52 | the separation tool's command line; `CompletesWhenNothingFails` states it word for word as the effect performed |
| Naming.OutDir | handler.py:55 | the tool's output directory `os.path.join(OUTPUT_BASE, MODEL, base)`; `OutDirPath` gives it in closed form |
| Naming.StemSource | handler.py:58 | the local file of one stem; `StemSourceInOutDir` and `StemSourceMirrorsKey` give its exact form |
| Naming.StemKey | handler.py:59 | the object key `<base>/<stem>.mp3`; `StemKeyInjective` and `StemKeysDistinct` show that keys do not collide |
| Naming.LocalInputPath | handler.py:38 | a relative filename is downloaded to `uploads/<filename>`; an absolute one to the filename itself |
| Naming.OutDirPath | handler.py:55 | the tool's output directory is `separated/mdx_extra_q/<base>` for a relative base, the base itself for an absolute one |
| Naming.StemSourceInOutDir | handler.py:58 | each stem file is the output directory, one '/' unless the directory already ends with '/', then `<stem>.mp3`: it lies directly in that directory |
| Naming.StemSourceMirrorsKey | handler.py:55-59 | for a non-empty relative base without a trailing '/', the stem file is `separated/mdx_extra_q/` followed by the stem's object key |
| Naming.StemKeyInjective | handler.py:59 | equal keys `<base>/<stem>.mp3` come from equal bases and equal stems, for stems without '/' |
| Naming.StemKeysDistinct | handler.py:56-59 | the four stem keys of one job are pairwise distinct |
| Handler.Truthy | handler.py:33 | Python truthiness of an event value: `None`, the empty string and falsy other values are falsy; `MissingFilenameRejected` shows it decides the 400 response |
| Handler.Get | handler.py:32 | `event.get(key, default)`; `UsesSelectedBucket` states its result |
| Handler.SelectedBucket | handler.py:36 | the job's bucket; `UsesSelectedBucket` states it is the event's entry when present, else the default, and that every transfer names it |
| Handler.UploadPlan | handler.py:55-60 | the four uploads of the stem loop, in order; `CompletesWhenNothingFails` lists them and `StemKeysDistinct` shows their keys differ; `UploadPlanAt` unfolds it |
| Handler.Plan | handler.py:40-60 | the effects of a call in which nothing fails; `CompletesWhenNothingFails` lists it effect by effect and `JobFollowsPlan` shows the try block follows it; `PlanShape` unfolds it |
| Handler.PlanShape | handler.py:40-60 | unfolding helper: the plan is the download, then the tool run, then one upload per stem |
| Handler.UploadPlanAt | handler.py:57-60 | unfolding helper: upload i uploads stem i's file from the output directory under stem i's key |
| Handler.Job | handler.py:40-67 | the try block as a value: its response and the effects performed; characterised by `JobFollowsPlan`, `FirstFailureStopsJob`, `CompletesWhenNothingFails`, `JobPublishesStemPrefix` and `UploadFailureKeepsEarlierStems` |
| Handler.Invocation | handler.py:27-67 | one call of `handler(event)` as a value; characterised by `MissingFilenameRejected`, `NonStringFilenameEscapes` and `UsesSelectedBucket`, and `Runtime.Handle` is proved to agree with it |
| Handler.Publish | handler.py:60 | the store after a run of effects: each completed upload stores its local file under its key; characterised by `PublishSnoc`, `PublishAppend`, `PublishWithoutUploads` and `PublishCompletedUploads` |
| Handler.PublishSnoc | handler.py:60 | unfolding helper: one more effect changes the store only when it is an upload that completes, and then only at that upload's key |
| Handler.ErrorResponse | handler.py:64-67 | a caught exception is answered with status 500 |
| Handler.FirstFailure | handler.py:40-60 | the index found is the first effect that does not complete: all effects before it complete |
| Handler.Performed | handler.py:40-67 | the effects carried out form a prefix of the plan; all but the last complete, and when the plan is cut short the last one failed |
| Handler.FinalOutcome | handler.py:40-67 | a run ends `Ok` exactly when every effect of the plan completes |
| Handler.JobFollowsPlan | handler.py:40-67 | the guarded block carries out the plan (download, tool run, four uploads) up to and including the first failing effect, and completes exactly when the plan runs through |
| Handler.PublishWithoutUploads | handler.py:42-52 | the download and the tool run leave the object store unchanged |
| Handler.PublishAppend | handler.py:57-60 | the store after two runs of effects is the store after the first, updated by the second |
| Handler.Runtime.constructor | handler.py:9 | a runtime starts with the configured default bucket, the given store and an empty effect log |
| Handler.Runtime.DownloadFile | handler.py:42 | the download is logged and its outcome is the world's |
| Handler.Runtime.RunProcess | handler.py:46-52 | the tool run is logged and its outcome is the world's |
| Handler.Runtime.UploadFile | handler.py:60 | the upload is logged; a completed upload stores the local file under the key, a failed one leaves the store unchanged |
| Handler.Runtime.UploadStems | handler.py:55-60 | the stem loop uploads the stems in order up to and including the first failure; its log and store are those of the uploads it performs, and it reports how they ended |
| Handler.Runtime.RunJob | handler.py:40-67 | the try block returns `Job`'s response, logs exactly `Job`'s effects, and stores exactly the completed uploads among them |
| Handler.Runtime.Handle | handler.py:27-67 | the handler returns `Invocation`'s response, logs exactly its effects, and stores exactly the completed uploads among them |
| HandlerProperties.MissingFilenameRejected | handler.py:32-34 | the 400 "No filename provided" response comes exactly from a missing or falsy filename, and then nothing is performed |
| HandlerProperties.NonStringFilenameEscapes | handler.py:37 | a truthy filename that is not a string raises before any effect |
| HandlerProperties.UsesSelectedBucket | handler.py:36 | the bucket is the event's `"bucket"` entry when present, else the default; every download and upload performed names it |
| HandlerProperties.CompletesWhenNothingFails | handler.py:40-62 | with no failure, the effects are download, `demucs <local> -n mdx_extra_q --mp3 --out separated`, then the vocals, drums, bass and other uploads, and the response is completion with the filename |
| HandlerProperties.FirstFailureStopsJob | handler.py:40-67 | when effect k is the first to fail, exactly the first k+1 effects are performed and the response is status 500 with "Demucs failed: " and the detail for a non-zero exit of the tool, the bare detail otherwise |
| HandlerProperties.DownloadFailureStopsJob | handler.py:42 | a failed download is the only effect: no tool run and no upload |
| HandlerProperties.ToolFailureReported | handler.py:46-65 | a non-zero tool exit is answered with "Demucs failed: " and the detail, status 500, after exactly the download and the tool run |
| HandlerProperties.PublishCompletedUploads | handler.py:57-60 | completed uploads of the first n stems store exactly those n stems' files under their keys, on top of the prior store |
| HandlerProperties.JobPublishesStemPrefix | handler.py:54-62 | after any run of the try block the store gained the stems of a prefix of the stem list, and the whole list exactly when the response is completion |
| HandlerProperties.UploadFailureKeepsEarlierStems | handler.py:57-67 | when upload i is the first to fail, the effects are the download, the tool run and uploads 0..i; the store gained exactly stems 0..i-1; the response reports upload i's failure |
| HandlerProperties.StemObjectsExactly | handler.py:56-59 | the first n stems' objects are keyed by exactly those stems' keys, each holding its own stem file |
| HandlerProperties.VocalsAloneWhenDrumsFails | handler.py:56-60 | from an empty store, a completed vocals upload followed by a failed drums upload leaves only the vocals object |

## Left out

- Configuration (lines 1-17) is not modelled: `load_dotenv` and the boto3 client with its credentials and region. The default bucket is a constructor parameter of `Runtime`.
- `os.makedirs` (lines 24-25) is not modelled, and neither is the local file system. Whether a local path can be written or read is part of the `World`.
- S3 and Demucs themselves are not modelled. Whether each effect completes, and the text of its exception, comes from the `World`. The model does not follow the files Demucs actually writes. The handler reads them from `os.path.join("separated", "mdx_extra_q", base)`. That is `separated/mdx_extra_q/<base>/<stem>.mp3` for a relative base and `<base>/<stem>.mp3` for an absolute one (`OutDirPath`). A `demucs` that cannot be started raises an ordinary exception and is answered with its bare text, which the `World` expresses as `Raised`. If the tool writes them elsewhere, the model sees only a failing upload.
- Exception texts (`str(e)`) are opaque `detail` strings.
- Handler.Publish and Handler.Runtime.UploadFile take an upload that raises to leave no object behind. An upload that lands in the bucket but whose response is lost, so that `upload_file` raises anyway, is not modelled. `UploadFailureKeepsEarlierStems`, `JobPublishesStemPrefix` and `VocalsAloneWhenDrumsFails` depend on this.
- Exceptions that are not `Exception` subclasses, such as `KeyboardInterrupt`, are not modelled.
- Filenames of type `bytes` or path-like objects are not modelled, since they cannot arrive in a JSON event. Every non-string value is `Other`, whose truthy case raises `TypeError` at `splitext`.
- The response is a `Response` value, not the Python `(dict, status)` tuple or the bare dict on success.
- `os.path.join` and `os.path.splitext` are modelled for POSIX paths only, with separator '/' and no alternative separator.
