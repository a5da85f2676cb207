/**
 * The request handler: validate the event, pick the bucket, then download
 * the input object, run the separation tool once and upload the four stems
 * (vocals, drums, bass, other, in that order), stopping at the first
 * failure.
 *
 * The object store and the separation tool are outside the model: a
 * `World` says how each external effect turns out, and a `Runtime` object
 * keeps the objects uploaded so far and the log of effects performed.
 * `Invocation` is the specification of one invocation as a value (its
 * response and the effects it performs); `Runtime.Handle` is the
 * step-by-step handler, proved to agree with it.
 */
module Handler {
  import opened PosixPath
  import opened Naming
  import opened CollectionFacts

  /**
   * A value of the event dictionary, as far as the handler tells values
   * apart: `None`, a string, or any other value (a number, a boolean, a
   * list, a dictionary) together with its truthiness.
   */
  datatype Value = Null | Str(s: string) | Other(truthy: bool)

  /** The event dictionary the handler is invoked with. */
  type Event = map<string, Value>

  /** Truthiness of a value: `not v` is false. */
  predicate Truthy(v: Value)
  {
    match v
    case Null => false
    case Str(s) => s != []
    case Other(t) => t
  }

  /** `event.get(key, default)`. */
  function Get(event: Event, key: string, default: Value): Value
  {
    if key in event then event[key] else default
  }

  /** The bucket of a job: the event's `"bucket"` entry when there is one, else the configured default. */
  function SelectedBucket(event: Event, defaultBucket: Value): Value
  {
    Get(event, "bucket", defaultBucket)
  }

  /** The name of one stored object. */
  datatype ObjectRef = ObjectRef(bucket: Value, key: string)

  /** An external effect the handler performs. */
  datatype Effect =
    | Download(bucket: Value, key: string, localPath: string)
    | RunTool(argv: seq<string>)
    | Upload(localPath: string, bucket: Value, key: string)

  /**
   * How an effect turns out: it completes (for the tool, with exit status
   * 0); it raises the subprocess error for a non-zero exit status; or it
   * raises any other exception. The details are the exceptions' texts.
   */
  datatype Outcome = Ok | ProcessError(detail: string) | Raised(detail: string)

  /** The object store and the separation tool, as seen by one invocation. */
  type World = Effect -> Outcome

  /** What the handler returns, or that an exception escapes it. */
  datatype Response =
    | Completed(message: string, filename: string)
    | Failed(error: string, status: int)
    | Uncaught

  /** The response for an exception caught by the handler. */
  function ErrorResponse(o: Outcome): (r: Response)
    requires !o.Ok?
    ensures r.Failed? && r.status == 500
  {
    match o
    case ProcessError(d) => Failed("Demucs failed: " + d, 500)
    case Raised(d) => Failed(d, 500)
  }

  /** The uploads of the stems, in order. */
  function UploadPlan(bucket: Value, base: string): seq<Effect>
  {
    seq(|Stems|, i requires 0 <= i < |Stems| =>
      Upload(StemSource(base, Stems[i]), bucket, StemKey(base, Stems[i])))
  }

  /** The effects of an invocation in which nothing fails, in the order they happen. */
  function Plan(bucket: Value, filename: string): seq<Effect>
  {
    [Download(bucket, filename, LocalInput(filename)), RunTool(ToolArgv(filename))]
      + UploadPlan(bucket, JobBase(filename))
  }

  /** Index of the first effect of `plan` that does not complete, or `|plan|` when all complete. */
  function FirstFailure(plan: seq<Effect>, world: World): (k: nat)
    ensures k <= |plan|
    ensures forall j :: 0 <= j < k ==> world(plan[j]).Ok?
    ensures k < |plan| ==> !world(plan[k]).Ok?
  {
    if plan == [] then 0
    else if world(plan[0]).Ok? then 1 + FirstFailure(plan[1..], world)
    else 0
  }

  /** The effects of `plan` that are carried out: all of them, or those up to and including the first that fails. */
  function Performed(plan: seq<Effect>, world: World): (done: seq<Effect>)
    ensures done <= plan
    ensures forall j :: 0 <= j < |done| - 1 ==> world(done[j]).Ok?
    ensures |done| < |plan| ==> done != [] && !world(done[|done| - 1]).Ok?
  {
    var k := FirstFailure(plan, world);
    if k == |plan| then plan else plan[..k + 1]
  }

  /** How carrying out `plan` ends: `Ok` when every effect completes, else the outcome of the first that fails. */
  function FinalOutcome(plan: seq<Effect>, world: World): (o: Outcome)
    ensures o.Ok? <==> forall j :: 0 <= j < |plan| ==> world(plan[j]).Ok?
  {
    var k := FirstFailure(plan, world);
    if k == |plan| then Ok else world(plan[k])
  }

  /** One invocation: what it returns and which effects it performs, in order. */
  datatype Run = Run(response: Response, performed: seq<Effect>)

  /**
   * The guarded part of the handler: download the input, run the tool, then
   * upload the stems until one fails; the response reports how it ended.
   */
  function Job(bucket: Value, filename: string, world: World): Run
  {
    var download := Download(bucket, filename, LocalInput(filename));
    var tool := RunTool(ToolArgv(filename));
    var uploads := UploadPlan(bucket, JobBase(filename));
    if !world(download).Ok? then Run(ErrorResponse(world(download)), [download])
    else if !world(tool).Ok? then Run(ErrorResponse(world(tool)), [download, tool])
    else
      var o := FinalOutcome(uploads, world);
      Run(if o.Ok? then Completed("Processing complete", filename) else ErrorResponse(o),
          [download, tool] + Performed(uploads, world))
  }

  /**
   * Specification of `handler(event)`: reject a missing or empty filename,
   * let a filename that is not a string escape, otherwise run the job in
   * the selected bucket.
   */
  function Invocation(event: Event, defaultBucket: Value, world: World): Run
  {
    var filename := Get(event, "filename", Null);
    if !Truthy(filename) then Run(Failed("No filename provided", 400), [])
    else if !filename.Str? then Run(Uncaught, [])
    else Job(SelectedBucket(event, defaultBucket), filename.s, world)
  }

  /** The store after `effects`: each completed upload stores its local file under its key. */
  function Publish(objects: map<ObjectRef, string>, effects: seq<Effect>, world: World): map<ObjectRef, string>
    decreases |effects|
  {
    if effects == [] then objects
    else
      var last := effects[|effects| - 1];
      var before := Publish(objects, effects[..|effects| - 1], world);
      if last.Upload? && world(last).Ok? then before[ObjectRef(last.bucket, last.key) := last.localPath]
      else before
  }

  /** The objects of the first `n` stems of a job. */
  function StemObjects(bucket: Value, base: string, n: nat): map<ObjectRef, string>
    requires n <= |Stems|
  {
    if n == 0 then map[]
    else StemObjects(bucket, base, n - 1)[ObjectRef(bucket, StemKey(base, Stems[n - 1])) := StemSource(base, Stems[n - 1])]
  }

  /** The plan is the download and the tool run, followed by one upload per stem. */
  lemma PlanShape(bucket: Value, filename: string)
    ensures var d := Download(bucket, filename, LocalInput(filename));
      var t := RunTool(ToolArgv(filename));
      var uploads := UploadPlan(bucket, JobBase(filename));
      && Plan(bucket, filename) == [d, t] + uploads
      && |uploads| == |Stems|
  {
  }

  /** Upload `i` of a job stores stem `i`'s file from the tool's output directory under the stem's key. */
  lemma UploadPlanAt(bucket: Value, base: string, i: nat)
    requires i < |Stems|
    ensures |UploadPlan(bucket, base)| == |Stems|
    ensures UploadPlan(bucket, base)[i] == Upload(StemSource(base, Stems[i]), bucket, StemKey(base, Stems[i]))
  {
  }

  /** Effects that all complete only shift where the first failure is found. */
  lemma {:induction false} FirstFailureAfterOk(done: seq<Effect>, rest: seq<Effect>, world: World)
    requires forall j :: 0 <= j < |done| ==> world(done[j]).Ok?
    ensures FirstFailure(done + rest, world) == |done| + FirstFailure(rest, world)
    decreases |done|
  {
    if done == [] {
      assert done + rest == rest;
    } else {
      assert (done + rest)[1..] == done[1..] + rest;
      FirstFailureAfterOk(done[1..], rest, world);
    }
  }

  /** Carrying out effects that all complete, then `rest`, performs them and then what `rest` performs, and ends as `rest` does. */
  lemma PerformedAfterOk(done: seq<Effect>, rest: seq<Effect>, world: World)
    requires forall j :: 0 <= j < |done| ==> world(done[j]).Ok?
    ensures Performed(done + rest, world) == done + Performed(rest, world)
    ensures FinalOutcome(done + rest, world) == FinalOutcome(rest, world)
  {
    FirstFailureAfterOk(done, rest, world);
    var k := FirstFailure(rest, world);
    if k < |rest| {
      assert (done + rest)[..|done| + k + 1] == done + rest[..k + 1];
      assert (done + rest)[|done| + k] == rest[k];
    }
  }

  /** A failing first effect is the only one performed. */
  lemma PerformedStopsAtHead(e: Effect, rest: seq<Effect>, world: World)
    requires !world(e).Ok?
    ensures Performed([e] + rest, world) == [e]
    ensures FinalOutcome([e] + rest, world) == world(e)
  {
    assert ([e] + rest)[..1] == [e];
  }

  /** When every effect before `i` completes and effect `i` fails, the run stops at `i`. */
  lemma StopsAt(plan: seq<Effect>, world: World, i: nat)
    requires i < |plan| && i <= FirstFailure(plan, world) && !world(plan[i]).Ok?
    ensures FirstFailure(plan, world) == i
    ensures Performed(plan, world) == plan[..i + 1]
    ensures FinalOutcome(plan, world) == world(plan[i])
  {
  }

  /** When every effect before `i` completes and so does effect `i`, the first failure lies beyond `i`. */
  lemma PassesAt(plan: seq<Effect>, world: World, i: nat)
    requires i < |plan| && i <= FirstFailure(plan, world) && world(plan[i]).Ok?
    ensures i + 1 <= FirstFailure(plan, world)
  {
  }

  /** When no effect fails, the whole plan is performed and the run ends `Ok`. */
  lemma RunsThrough(plan: seq<Effect>, world: World)
    requires |plan| <= FirstFailure(plan, world)
    ensures Performed(plan, world) == plan
    ensures FinalOutcome(plan, world) == Ok
  {
  }

  /** The job carries out its plan up to and including the first failing effect, and reports how the plan ended. */
  lemma JobFollowsPlan(bucket: Value, filename: string, world: World)
    ensures var plan := Plan(bucket, filename);
      var o := FinalOutcome(plan, world);
      Job(bucket, filename, world) ==
        Run(if o.Ok? then Completed("Processing complete", filename) else ErrorResponse(o), Performed(plan, world))
  {
    var d := Download(bucket, filename, LocalInput(filename));
    var t := RunTool(ToolArgv(filename));
    var uploads := UploadPlan(bucket, JobBase(filename));
    PlanShape(bucket, filename);
    PairPrefix(d, t, uploads);
    if !world(d).Ok? {
      PerformedStopsAtHead(d, [t] + uploads, world);
    } else if !world(t).Ok? {
      PerformedAfterOk([d], [t] + uploads, world);
      PerformedStopsAtHead(t, uploads, world);
    } else {
      PerformedAfterOk([d, t], uploads, world);
    }
  }

  /** The store after one more effect. */
  lemma PublishSnoc(objects: map<ObjectRef, string>, effects: seq<Effect>, e: Effect, world: World)
    ensures var before := Publish(objects, effects, world);
      Publish(objects, effects + [e], world) ==
        if e.Upload? && world(e).Ok? then before[ObjectRef(e.bucket, e.key) := e.localPath] else before
  {
    assert (effects + [e])[..|effects|] == effects;
  }

  /** Publishing two runs of effects one after the other is publishing them together. */
  lemma {:induction false} PublishAppend(objects: map<ObjectRef, string>, first: seq<Effect>, second: seq<Effect>, world: World)
    ensures Publish(objects, first + second, world) == Publish(Publish(objects, first, world), second, world)
    decreases |second|
  {
    if second == [] {
      assert first + second == first;
    } else {
      var all := first + second;
      assert all[..|all| - 1] == first + second[..|second| - 1];
      assert all[|all| - 1] == second[|second| - 1];
      PublishAppend(objects, first, second[..|second| - 1], world);
    }
  }

  /** Effects other than uploads leave the store as it is. */
  lemma {:induction false} PublishWithoutUploads(objects: map<ObjectRef, string>, effects: seq<Effect>, world: World)
    requires forall j :: 0 <= j < |effects| ==> !effects[j].Upload?
    ensures Publish(objects, effects, world) == objects
    decreases |effects|
  {
    if effects != [] {
      PublishWithoutUploads(objects, effects[..|effects| - 1], world);
    }
  }

  /** The object store, the effect log and the configured default bucket. */
  class Runtime {
    const defaultBucket: Value
    var objects: map<ObjectRef, string>
    var log: seq<Effect>

    constructor (defaultBucket: Value, objects: map<ObjectRef, string>)
      ensures this.defaultBucket == defaultBucket && this.objects == objects && log == []
    {
      this.defaultBucket := defaultBucket;
      this.objects := objects;
      log := [];
    }

    /** `s3.download_file(bucket, key, localPath)`. */
    method DownloadFile(bucket: Value, key: string, localPath: string, world: World) returns (o: Outcome)
      modifies this`log
      ensures log == old(log) + [Download(bucket, key, localPath)]
      ensures o == world(Download(bucket, key, localPath))
    {
      log := log + [Download(bucket, key, localPath)];
      o := world(Download(bucket, key, localPath));
    }

    /** `subprocess.run(argv, check=True)`. */
    method RunProcess(argv: seq<string>, world: World) returns (o: Outcome)
      modifies this`log
      ensures log == old(log) + [RunTool(argv)]
      ensures o == world(RunTool(argv))
    {
      log := log + [RunTool(argv)];
      o := world(RunTool(argv));
    }

    /** `s3.upload_file(localPath, bucket, key)`: a completed upload stores the file under the key. */
    method UploadFile(localPath: string, bucket: Value, key: string, world: World) returns (o: Outcome)
      modifies this`log, this`objects
      ensures log == old(log) + [Upload(localPath, bucket, key)]
      ensures o == world(Upload(localPath, bucket, key))
      ensures objects == if o.Ok? then old(objects)[ObjectRef(bucket, key) := localPath] else old(objects)
    {
      log := log + [Upload(localPath, bucket, key)];
      o := world(Upload(localPath, bucket, key));
      if o.Ok? {
        objects := objects[ObjectRef(bucket, key) := localPath];
      }
    }

    /**
     * The stem loop: upload each stem's file under its key, in order,
     * stopping at the first upload that fails.
     */
    method UploadStems(bucket: Value, base: string, world: World) returns (o: Outcome)
      modifies this`log, this`objects
      ensures var uploads := UploadPlan(bucket, base);
        && o == FinalOutcome(uploads, world)
        && log == old(log) + Performed(uploads, world)
        && objects == Publish(old(objects), Performed(uploads, world), world)
    {
      ghost var uploads := UploadPlan(bucket, base);
      ghost var done: seq<Effect> := [];
      var outDir := OutDir(base);
      var i := 0;
      while i < |Stems|
        invariant 0 <= i <= |Stems|
        invariant i <= FirstFailure(uploads, world)
        invariant done == uploads[..i]
        invariant log == old(log) + done
        invariant objects == Publish(old(objects), done, world)
      {
        var stem := Stems[i];
        var src := Join(outDir, [stem + ".mp3"]);
        var destKey := base + "/" + stem + ".mp3";
        UploadPlanAt(bucket, base, i);
        o := UploadFile(src, bucket, destKey, world);
        TakeSnoc(uploads, i);
        AppendAssoc(old(log), done, [uploads[i]]);
        PublishSnoc(old(objects), done, uploads[i], world);
        done := done + [uploads[i]];
        if !o.Ok? {
          StopsAt(uploads, world, i);
          return;
        }
        PassesAt(uploads, world, i);
        i := i + 1;
      }
      assert done == uploads;
      RunsThrough(uploads, world);
      return Ok;
    }

    /** The guarded part of `handler(event)`: download, separate, upload the stems. */
    method RunJob(bucket: Value, filename: string, world: World) returns (r: Response)
      modifies this`log, this`objects
      ensures var run := Job(bucket, filename, world);
        && r == run.response
        && log == old(log) + run.performed
        && objects == Publish(old(objects), run.performed, world)
    {
      var base := JobBase(filename);
      var localIn := LocalInput(filename);
      ghost var download := Download(bucket, filename, localIn);
      ghost var tool := RunTool(ToolArgv(filename));

      var o := DownloadFile(bucket, filename, localIn, world);
      if !o.Ok? {
        PublishWithoutUploads(old(objects), [download], world);
        return ErrorResponse(o);
      }
      o := RunProcess(["demucs", localIn, "-n", ModelName, "--mp3", "--out", OutputBase], world);
      SnocSnoc(old(log), download, tool);
      if !o.Ok? {
        PublishWithoutUploads(old(objects), [download, tool], world);
        return ErrorResponse(o);
      }
      ghost var started := [download, tool];
      ghost var uploaded := Performed(UploadPlan(bucket, base), world);
      PublishWithoutUploads(old(objects), started, world);
      PublishAppend(old(objects), started, uploaded, world);
      AppendAssoc(old(log), started, uploaded);
      o := UploadStems(bucket, base, world);
      if !o.Ok? {
        return ErrorResponse(o);
      }
      return Completed("Processing complete", filename);
    }

    /** `handler(event)`. */
    method Handle(event: Event, world: World) returns (r: Response)
      modifies this`log, this`objects
      ensures var run := Invocation(event, defaultBucket, world);
        && r == run.response
        && log == old(log) + run.performed
        && objects == Publish(old(objects), run.performed, world)
    {
      var filename := Get(event, "filename", Null);
      if !Truthy(filename) {
        return Failed("No filename provided", 400);
      }
      if !filename.Str? {
        // splitext raises a TypeError outside the try block
        return Uncaught;
      }
      var bucket := Get(event, "bucket", defaultBucket);
      r := RunJob(bucket, filename.s, world);
    }
  }
}
