/**
 * What one invocation of the handler does, stated over the specification
 * `Handler.Invocation` and the job it runs: when it rejects the event, which
 * bucket it touches, which effects it performs in which order, how a
 * failure is reported and which stems end up stored.
 */
module HandlerProperties {
  import opened CollectionFacts
  import opened Naming
  import opened Handler

  /** The 400 response comes exactly from a missing or falsy filename, and then nothing is performed. */
  lemma MissingFilenameRejected(event: Event, defaultBucket: Value, world: World)
    ensures var run := Invocation(event, defaultBucket, world);
      run.response == Failed("No filename provided", 400) <==> !Truthy(Get(event, "filename", Null))
    ensures !Truthy(Get(event, "filename", Null)) ==> Invocation(event, defaultBucket, world).performed == []
  {
    var filename := Get(event, "filename", Null);
    if Truthy(filename) && filename.Str? {
      var run := Job(SelectedBucket(event, defaultBucket), filename.s, world);
      assert run.response.Completed? || run.response.status == 500;
    }
  }

  /** A filename that is present and truthy but not a string escapes the handler before any effect. */
  lemma NonStringFilenameEscapes(event: Event, defaultBucket: Value, world: World)
    requires "filename" in event && event["filename"].Other? && event["filename"].truthy
    ensures Invocation(event, defaultBucket, world) == Run(Uncaught, [])
  {
  }

  /** Every download and upload of an invocation names the event's bucket when it has one, else the default bucket. */
  lemma UsesSelectedBucket(event: Event, defaultBucket: Value, world: World)
    ensures SelectedBucket(event, defaultBucket) == if "bucket" in event then event["bucket"] else defaultBucket
    ensures var performed := Invocation(event, defaultBucket, world).performed;
      forall e :: e in performed && !e.RunTool? ==> e.bucket == SelectedBucket(event, defaultBucket)
  {
    var filename := Get(event, "filename", Null);
    if Truthy(filename) && filename.Str? {
      var bucket := SelectedBucket(event, defaultBucket);
      var plan := Plan(bucket, filename.s);
      JobFollowsPlan(bucket, filename.s, world);
      PlanShape(bucket, filename.s);
      forall e | e in plan && !e.RunTool?
        ensures e.bucket == bucket
      {
        var j :| 0 <= j < |plan| && plan[j] == e;
        if j >= 2 {
          assert e == UploadPlan(bucket, JobBase(filename.s))[j - 2];
        }
      }
    }
  }

  /**
   * With every effect completing, the job downloads the object to its local
   * path, runs the tool once and uploads vocals, drums, bass and other in
   * that order, then reports completion with the filename.
   */
  lemma CompletesWhenNothingFails(bucket: Value, filename: string, world: World)
    requires var plan := Plan(bucket, filename);
      forall j :: 0 <= j < |plan| ==> world(plan[j]).Ok?
    ensures var base := JobBase(filename);
      Job(bucket, filename, world) == Run(Completed("Processing complete", filename), [
        Download(bucket, filename, LocalInput(filename)),
        RunTool(["demucs", LocalInput(filename), "-n", "mdx_extra_q", "--mp3", "--out", "separated"]),
        Upload(StemSource(base, "vocals"), bucket, StemKey(base, "vocals")),
        Upload(StemSource(base, "drums"), bucket, StemKey(base, "drums")),
        Upload(StemSource(base, "bass"), bucket, StemKey(base, "bass")),
        Upload(StemSource(base, "other"), bucket, StemKey(base, "other"))])
  {
    var plan := Plan(bucket, filename);
    JobFollowsPlan(bucket, filename, world);
    RunsThrough(plan, world);
    PlanShape(bucket, filename);
  }

  /**
   * When effect `k` of the plan is the first that fails, the job performs the
   * plan up to and including it, and answers with status 500 and that
   * failure's detail, prefixed by "Demucs failed: " for a subprocess error.
   */
  lemma FirstFailureStopsJob(bucket: Value, filename: string, world: World, k: nat)
    requires var plan := Plan(bucket, filename);
      k < |plan| && (forall j :: 0 <= j < k ==> world(plan[j]).Ok?) && !world(plan[k]).Ok?
    ensures var plan := Plan(bucket, filename);
      var run := Job(bucket, filename, world);
      && run.performed == plan[..k + 1]
      && run.response == ErrorResponse(world(plan[k]))
      && run.response.status == 500
      && (world(plan[k]).ProcessError? ==> run.response.error == "Demucs failed: " + world(plan[k]).detail)
      && (world(plan[k]).Raised? ==> run.response.error == world(plan[k]).detail)
  {
    var plan := Plan(bucket, filename);
    JobFollowsPlan(bucket, filename, world);
    StopsAt(plan, world, k);
  }

  /** A failing download is the only effect: the tool never runs and nothing is uploaded. */
  lemma DownloadFailureStopsJob(bucket: Value, filename: string, world: World)
    requires !world(Download(bucket, filename, LocalInput(filename))).Ok?
    ensures var run := Job(bucket, filename, world);
      && run.performed == [Download(bucket, filename, LocalInput(filename))]
      && run.response == ErrorResponse(world(Download(bucket, filename, LocalInput(filename))))
  {
    PlanShape(bucket, filename);
    FirstFailureStopsJob(bucket, filename, world, 0);
  }

  /** A non-zero exit of the tool is reported as "Demucs failed: ..." with status 500, and no stem is uploaded. */
  lemma ToolFailureReported(bucket: Value, filename: string, world: World, detail: string)
    requires world(Download(bucket, filename, LocalInput(filename))).Ok?
    requires world(RunTool(ToolArgv(filename))) == ProcessError(detail)
    ensures Job(bucket, filename, world) ==
      Run(Failed("Demucs failed: " + detail, 500), [Download(bucket, filename, LocalInput(filename)), RunTool(ToolArgv(filename))])
  {
    var plan := Plan(bucket, filename);
    PlanShape(bucket, filename);
    FirstFailureStopsJob(bucket, filename, world, 1);
    assert plan[..2] == [plan[0], plan[1]];
  }

  /** Publishing uploads that all complete stores the stems they carry, one by one. */
  lemma {:induction false} PublishCompletedUploads(objects: map<ObjectRef, string>, bucket: Value, base: string, n: nat, world: World)
    requires n <= |Stems|
    requires forall j :: 0 <= j < n ==> world(UploadPlan(bucket, base)[j]).Ok?
    ensures Publish(objects, UploadPlan(bucket, base)[..n], world) == objects + StemObjects(bucket, base, n)
    decreases n
  {
    var ups := UploadPlan(bucket, base);
    if n == 0 {
      assert ups[..0] == [];
    } else {
      PublishCompletedUploads(objects, bucket, base, n - 1, world);
      TakeSnoc(ups, n - 1);
      PublishSnoc(objects, ups[..n - 1], ups[n - 1], world);
      UploadPlanAt(bucket, base, n - 1);
      UnionUpdate(objects, StemObjects(bucket, base, n - 1), ObjectRef(bucket, StemKey(base, Stems[n - 1])), StemSource(base, Stems[n - 1]));
    }
  }

  /**
   * The store after a job holds the stems of a prefix of the stem list, in
   * upload order, and the whole list exactly when the job completes.
   */
  lemma JobPublishesStemPrefix(objects: map<ObjectRef, string>, bucket: Value, filename: string, world: World)
    ensures var run := Job(bucket, filename, world);
      exists n :: 0 <= n <= |Stems|
        && Publish(objects, run.performed, world) == objects + StemObjects(bucket, JobBase(filename), n)
        && (n == |Stems| <==> run.response.Completed?)
  {
    var base := JobBase(filename);
    var d := Download(bucket, filename, LocalInput(filename));
    var t := RunTool(ToolArgv(filename));
    var ups := UploadPlan(bucket, base);
    var run := Job(bucket, filename, world);
    if !world(d).Ok? || !world(t).Ok? {
      assert forall j :: 0 <= j < |run.performed| ==> !run.performed[j].Upload?;
      PublishWithoutUploads(objects, run.performed, world);
      PublishCompletedUploads(objects, bucket, base, 0, world);
      assert StemObjects(bucket, base, 0) == map[];
    } else {
      var k := FirstFailure(ups, world);
      PublishWithoutUploads(objects, [d, t], world);
      PublishAppend(objects, [d, t], Performed(ups, world), world);
      PublishCompletedUploads(objects, bucket, base, k, world);
      if k == |ups| {
        RunsThrough(ups, world);
        assert ups[..k] == ups;
      } else {
        StopsAt(ups, world, k);
        TakeSnoc(ups, k);
        PublishSnoc(objects, ups[..k], ups[k], world);
      }
    }
  }

  /**
   * When upload `i` is the first that fails, the job has performed the
   * download, the tool run and the uploads up to `i`, and the store holds
   * exactly the stems before `i` in addition to what it held.
   */
  lemma UploadFailureKeepsEarlierStems(objects: map<ObjectRef, string>, bucket: Value, filename: string, world: World, i: nat)
    requires world(Download(bucket, filename, LocalInput(filename))).Ok? && world(RunTool(ToolArgv(filename))).Ok?
    requires var ups := UploadPlan(bucket, JobBase(filename));
      i < |Stems| && (forall j :: 0 <= j < i ==> world(ups[j]).Ok?) && !world(ups[i]).Ok?
    ensures var ups := UploadPlan(bucket, JobBase(filename));
      var run := Job(bucket, filename, world);
      && run.performed == [Download(bucket, filename, LocalInput(filename)), RunTool(ToolArgv(filename))] + ups[..i + 1]
      && run.response == ErrorResponse(world(ups[i]))
      && Publish(objects, run.performed, world) == objects + StemObjects(bucket, JobBase(filename), i)
  {
    var base := JobBase(filename);
    var d := Download(bucket, filename, LocalInput(filename));
    var t := RunTool(ToolArgv(filename));
    var ups := UploadPlan(bucket, base);
    StopsAt(ups, world, i);
    PublishWithoutUploads(objects, [d, t], world);
    PublishAppend(objects, [d, t], ups[..i + 1], world);
    TakeSnoc(ups, i);
    PublishSnoc(objects, ups[..i], ups[i], world);
    PublishCompletedUploads(objects, bucket, base, i, world);
  }

  /**
   * The objects of the first `n` stems are stored under the stems' keys, each
   * holding its stem's local file, and no other object is among them.
   */
  lemma {:induction false} StemObjectsExactly(bucket: Value, base: string, n: nat)
    requires n <= |Stems|
    ensures forall j :: 0 <= j < |Stems| ==>
      (ObjectRef(bucket, StemKey(base, Stems[j])) in StemObjects(bucket, base, n) <==> j < n)
    ensures forall j :: 0 <= j < n ==>
      StemObjects(bucket, base, n)[ObjectRef(bucket, StemKey(base, Stems[j]))] == StemSource(base, Stems[j])
    ensures forall ref :: ref in StemObjects(bucket, base, n) ==>
      exists j :: 0 <= j < n && ref == ObjectRef(bucket, StemKey(base, Stems[j]))
    decreases n
  {
    if n > 0 {
      StemObjectsExactly(bucket, base, n - 1);
      forall j | 0 <= j < n - 1
        ensures StemKey(base, Stems[j]) != StemKey(base, Stems[n - 1])
      {
        StemKeysDistinct(base, j, n - 1);
      }
      forall j | n - 1 < j < |Stems|
        ensures StemKey(base, Stems[j]) != StemKey(base, Stems[n - 1])
      {
        StemKeysDistinct(base, n - 1, j);
      }
    }
  }

  /**
   * Starting from an empty store, a job whose vocals upload completes and
   * whose drums upload fails leaves the vocals stem stored alone.
   */
  lemma VocalsAloneWhenDrumsFails(bucket: Value, filename: string, world: World)
    requires world(Download(bucket, filename, LocalInput(filename))).Ok? && world(RunTool(ToolArgv(filename))).Ok?
    requires var ups := UploadPlan(bucket, JobBase(filename));
      world(ups[0]).Ok? && !world(ups[1]).Ok?
    ensures var base := JobBase(filename);
      Publish(map[], Job(bucket, filename, world).performed, world) ==
        map[ObjectRef(bucket, StemKey(base, "vocals")) := StemSource(base, "vocals")]
  {
    var base := JobBase(filename);
    UploadFailureKeepsEarlierStems(map[], bucket, filename, world, 1);
    assert map[] + StemObjects(bucket, base, 1) == StemObjects(bucket, base, 1);
  }
}
