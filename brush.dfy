/**
 * The glyph brush: the coordinator between the layout engine, which lays out
 * the queued text and packs glyph bitmaps into an atlas, and the pipeline,
 * which owns the atlas texture on the GPU.
 *
 * Each attempt asks the layout engine to process the queue. The engine hands
 * over the atlas patches it rasterised, which are forwarded to the pipeline,
 * and then either succeeds (with new instances to upload, or nothing new to
 * draw) or reports that the atlas is too small and suggests a bigger size.
 * On that report the brush picks a new size, rebuilds the pipeline's atlas
 * and tells the engine, and tries again.
 *
 * The layout engine is a parameter: a function from the current atlas size
 * and the attempt number to what that attempt produces. The original retries
 * without bound; here the number of attempts is bounded by `fuel`.
 */
module Brush {
  import opened Instances
  import opened Gpu
  import opened Pipelines

  /** An atlas or texture size, width then height (u32 values in the original). */
  type Dims = (nat, nat)

  /** The largest atlas side the brush picks on its own. */
  const MaxImageDimension: nat := 2048

  predicate WithinMax(d: Dims) {
    d.0 <= MaxImageDimension && d.1 <= MaxImageDimension
  }

  predicate BelowMaxOnSomeAxis(d: Dims) {
    d.0 < MaxImageDimension || d.1 < MaxImageDimension
  }

  /**
   * The new atlas size after the engine suggested `suggested` while the atlas
   * is `current`: capped at 2048 by 2048 when the suggestion is over 2048 on
   * some axis and the atlas is still under 2048 on some axis, and otherwise
   * the suggestion as it is.
   */
  function NewCacheSize(suggested: Dims, current: Dims): (r: Dims)
    ensures r == suggested || r == (MaxImageDimension, MaxImageDimension)
    ensures WithinMax(suggested) ==> r == suggested
    ensures BelowMaxOnSomeAxis(current) ==> WithinMax(r)
    ensures !BelowMaxOnSomeAxis(current) ==> r == suggested
  {
    if !WithinMax(suggested) && BelowMaxOnSomeAxis(current) then
      (MaxImageDimension, MaxImageDimension)
    else
      suggested
  }

  /** A 256 by 256 atlas asked to grow to 300 by 300 becomes 300 by 300. */
  lemma GrowsToSuggestion()
    ensures NewCacheSize((300, 300), (256, 256)) == (300, 300)
  {
  }

  /**
   * The size does not only grow: an atlas wider than 2048 is capped back to
   * 2048 when it is still short on the other axis, and a smaller suggestion
   * is adopted as it is.
   */
  lemma SizeCanShrink()
    ensures NewCacheSize((5000, 200), (4096, 100)) == (2048, 2048)
    ensures NewCacheSize((100, 100), (300, 300)) == (100, 100)
  {
  }

  /** Once the atlas is at least 2048 on both axes, any suggestion is adopted, however large. */
  lemma NoCapAtFullSize()
    ensures NewCacheSize((4096, 4096), (2048, 2048)) == (4096, 4096)
  {
  }

  /** A rectangle of the atlas in texels, `min` inclusive and `max` exclusive. */
  datatype Rectangle = Rectangle(min: Dims, max: Dims)

  type AtlasRect = r: Rectangle | r.min.0 <= r.max.0 && r.min.1 <= r.max.1
    witness Rectangle((0, 0), (0, 0))

  /** A newly rasterised glyph bitmap and where in the atlas it goes. */
  datatype Patch = Patch(rect: AtlasRect, data: seq<bv8>)

  /** Rust's `as u16` on an unsigned value: the low 16 bits. */
  function AsU16(n: nat): (r: u16)
    ensures r as int == n % 0x1_0000
    ensures n < 0x1_0000 ==> r as int == n
  {
    (n % 0x1_0000) as u16
  }

  /** What is recorded for one patch: its corner and extent cast to u16, its bytes untouched. */
  function Forward(p: Patch): (c: Command)
    ensures c.UpdateCache? && c.data == p.data
    ensures c.offset.0 as int == p.rect.min.0 % 0x1_0000 && c.offset.1 as int == p.rect.min.1 % 0x1_0000
    ensures c.size.0 as int == (p.rect.max.0 - p.rect.min.0) % 0x1_0000
    ensures c.size.1 as int == (p.rect.max.1 - p.rect.min.1) % 0x1_0000
  {
    Command.UpdateCache(
      (AsU16(p.rect.min.0), AsU16(p.rect.min.1)),
      (AsU16(p.rect.max.0 - p.rect.min.0), AsU16(p.rect.max.1 - p.rect.min.1)),
      p.data)
  }

  /** A patch whose corners fit in 16 bits is forwarded with its exact corner and extent. */
  lemma ForwardExact(p: Patch)
    requires p.rect.max.0 < 0x1_0000 && p.rect.max.1 < 0x1_0000
    ensures Forward(p).UpdateCache?
    ensures Forward(p).offset.0 as int == p.rect.min.0 && Forward(p).offset.1 as int == p.rect.min.1
    ensures Forward(p).size.0 as int == p.rect.max.0 - p.rect.min.0
    ensures Forward(p).size.1 as int == p.rect.max.1 - p.rect.min.1
    ensures Forward(p).data == p.data
  {
  }

  /** The patch updates, in the order the engine hands the patches over. */
  function ForwardAll(patches: seq<Patch>): (r: seq<Command>)
    ensures |r| == |patches|
    ensures forall i :: 0 <= i < |patches| ==> r[i] == Forward(patches[i])
  {
    seq(|patches|, i requires 0 <= i < |patches| => Forward(patches[i]))
  }

  datatype BrushAction =
    /** New instances to upload and draw. */
    | Draw(vertices: seq<Instance>)
    /** Nothing changed since the last frame: draw what is already uploaded. */
    | ReDraw

  datatype BrushResult = Ok(action: BrushAction) | TextureTooSmall(suggested: Dims)

  /** What one call into the layout engine produces. */
  datatype LayoutStep = LayoutStep(patches: seq<Patch>, result: BrushResult)

  /** The layout engine: what attempt `attempt` produces with an atlas of the given size. */
  type Layout = (Dims, nat) -> LayoutStep

  datatype Outcome = Finished(action: BrushAction) | OutOfFuel

  /**
   * The effect of the retry loop: the commands recorded, the atlas sizes
   * chosen one after the other, the final atlas size and how it ended.
   */
  datatype Run = Run(trace: seq<Command>, resizes: seq<Dims>, dims: Dims, outcome: Outcome)

  /** What follows the loop: the instances are uploaded for a draw, nothing for a redraw. */
  function Uploads(action: BrushAction): (r: seq<Command>)
    ensures |r| <= 1
    ensures Uploaded(r) == UploadsFor(Finished(action))
    ensures action.ReDraw? ==> r == []
  {
    if action.Draw? then
      var r := [Command.Upload(action.vertices)];
      assert r[1..] == [];
      r
    else []
  }

  /** The retry loop from attempt `attempt` with atlas size `dims` and `fuel` attempts left. */
  function Retry(layout: Layout, dims: Dims, attempt: nat, fuel: nat): (run: Run)
    ensures |run.resizes| <= fuel
    ensures run.outcome.OutOfFuel? <==> |run.resizes| == fuel
    decreases fuel
  {
    if fuel == 0 then
      Run([], [], dims, OutOfFuel)
    else
      var step := layout(dims, attempt);
      match step.result
      case Ok(action) =>
        Run(ForwardAll(step.patches) + Uploads(action), [], dims, Finished(action))
      case TextureTooSmall(suggested) =>
        var next := NewCacheSize(suggested, dims);
        var rest := Retry(layout, next, attempt + 1, fuel - 1);
        Run(ForwardAll(step.patches) + rest.trace, [next] + rest.resizes, rest.dims, rest.outcome)
  }

  /** The instance sets uploaded by a command trace, in order. */
  function Uploaded(trace: seq<Command>): seq<seq<Instance>> {
    if trace == [] then []
    else (if trace[0].Upload? then [trace[0].instances] else []) + Uploaded(trace[1..])
  }

  lemma {:induction false} UploadedAppend(a: seq<Command>, b: seq<Command>)
    ensures Uploaded(a + b) == Uploaded(a) + Uploaded(b)
    decreases |a|
  {
    if a == [] {
      assert a + b == b;
    } else {
      var head := if a[0].Upload? then [a[0].instances] else [];
      assert (a + b)[0] == a[0] && (a + b)[1..] == a[1..] + b;
      assert Uploaded(a + b) == head + Uploaded(a[1..] + b);
      UploadedAppend(a[1..], b);
      assert head + (Uploaded(a[1..]) + Uploaded(b)) == (head + Uploaded(a[1..])) + Uploaded(b);
    }
  }

  /** Forwarding patches uploads no instances. */
  lemma {:induction false} ForwardAllUploadsNothing(patches: seq<Patch>)
    ensures Uploaded(ForwardAll(patches)) == []
    decreases |patches|
  {
    if patches != [] {
      assert ForwardAll(patches)[1..] == ForwardAll(patches[1..]);
      ForwardAllUploadsNothing(patches[1..]);
    }
  }

  /** The instances uploaded by a run that ends in `outcome`. */
  function UploadsFor(outcome: Outcome): seq<seq<Instance>> {
    if outcome.Finished? && outcome.action.Draw? then [outcome.action.vertices] else []
  }

  /**
   * Exactly the vertices of the final `Draw` are uploaded, once, after every
   * patch; a `ReDraw`, or a run cut short, uploads nothing.
   */
  lemma {:induction false} RetryUploads(layout: Layout, dims: Dims, attempt: nat, fuel: nat)
    ensures Uploaded(Retry(layout, dims, attempt, fuel).trace) == UploadsFor(Retry(layout, dims, attempt, fuel).outcome)
    ensures var run := Retry(layout, dims, attempt, fuel);
      run.outcome.Finished? && run.outcome.action.Draw? ==>
        |run.trace| > 0 && run.trace[|run.trace| - 1] == Command.Upload(run.outcome.action.vertices)
    decreases fuel
  {
    if fuel > 0 {
      var step := layout(dims, attempt);
      ForwardAllUploadsNothing(step.patches);
      match step.result
      case Ok(action) =>
        UploadedAppend(ForwardAll(step.patches), Uploads(action));
      case TextureTooSmall(suggested) =>
        var next := NewCacheSize(suggested, dims);
        var rest := Retry(layout, next, attempt + 1, fuel - 1);
        RetryUploads(layout, next, attempt + 1, fuel - 1);
        UploadedAppend(ForwardAll(step.patches), rest.trace);
        if rest.outcome.Finished? && rest.outcome.action.Draw? {
          var trace := ForwardAll(step.patches) + rest.trace;
          assert trace[|trace| - 1] == rest.trace[|rest.trace| - 1];
        }
    }
  }

  /**
   * The loop ends only on a success, and the action it then acts on is the
   * one the engine returned at the final atlas size, after one attempt per
   * resize.
   */
  lemma {:induction false} RetryFinishesOnOk(layout: Layout, dims: Dims, attempt: nat, fuel: nat)
    ensures var run := Retry(layout, dims, attempt, fuel);
      run.outcome.Finished? ==>
        layout(run.dims, attempt + |run.resizes|).result == Ok(run.outcome.action)
    ensures |Retry(layout, dims, attempt, fuel).resizes| <= fuel
    decreases fuel
  {
    if fuel > 0 {
      var step := layout(dims, attempt);
      if step.result.TextureTooSmall? {
        RetryFinishesOnOk(layout, NewCacheSize(step.result.suggested, dims), attempt + 1, fuel - 1);
      }
    }
  }

  /** The atlas ends at the last size chosen, or where it started if none was. */
  lemma {:induction false} RetryEndsAtLastResize(layout: Layout, dims: Dims, attempt: nat, fuel: nat)
    ensures var run := Retry(layout, dims, attempt, fuel);
      run.dims == if run.resizes == [] then dims else run.resizes[|run.resizes| - 1]
    decreases fuel
  {
    if fuel > 0 {
      var step := layout(dims, attempt);
      if step.result.TextureTooSmall? {
        RetryEndsAtLastResize(layout, NewCacheSize(step.result.suggested, dims), attempt + 1, fuel - 1);
      }
    }
  }

  /**
   * Each size chosen stays within 2048 by 2048 whenever the size before it
   * was under 2048 on some axis.
   */
  ghost predicate CappedChain(start: Dims, resizes: seq<Dims>)
    decreases |resizes|
  {
    resizes != [] ==>
      && (BelowMaxOnSomeAxis(start) ==> WithinMax(resizes[0]))
      && CappedChain(resizes[0], resizes[1..])
  }

  lemma {:induction false} RetryResizesCapped(layout: Layout, dims: Dims, attempt: nat, fuel: nat)
    ensures CappedChain(dims, Retry(layout, dims, attempt, fuel).resizes)
    decreases fuel
  {
    if fuel > 0 {
      var step := layout(dims, attempt);
      if step.result.TextureTooSmall? {
        var next := NewCacheSize(step.result.suggested, dims);
        RetryResizesCapped(layout, next, attempt + 1, fuel - 1);
        var rest := Retry(layout, next, attempt + 1, fuel - 1).resizes;
        assert ([next] + rest)[1..] == rest;
      }
    }
  }

  /** An engine that keeps suggesting more than 2048 never gets an atlas beyond 2048 by 2048. */
  lemma {:induction false} CappedChainFromSmallAtlas(start: Dims, resizes: seq<Dims>)
    requires CappedChain(start, resizes)
    requires WithinMax(start) && BelowMaxOnSomeAxis(start)
    requires forall i :: 0 <= i < |resizes| ==> BelowMaxOnSomeAxis(resizes[i])
    ensures forall i :: 0 <= i < |resizes| ==> WithinMax(resizes[i])
    decreases |resizes|
  {
    if resizes != [] {
      var tail := resizes[1..];
      assert forall i :: 0 <= i < |tail| ==> BelowMaxOnSomeAxis(tail[i]) by {
        forall i | 0 <= i < |tail| ensures BelowMaxOnSomeAxis(tail[i]) {
          assert tail[i] == resizes[i + 1];
        }
      }
      CappedChainFromSmallAtlas(resizes[0], tail);
      forall i | 0 <= i < |resizes| ensures WithinMax(resizes[i]) {
        if i > 0 {
          assert resizes[i] == tail[i - 1];
        }
      }
    }
  }

  /**
   * An engine that finds a 256 by 256 atlas too small and suggests 300 by
   * 300, then succeeds: the atlas is resized once, to 300 by 300, and the run
   * finishes with what the second attempt returned.
   */
  lemma RecoveryScenario(first: seq<Patch>, second: seq<Patch>, vertices: seq<Instance>)
    ensures var layout: Layout := (d: Dims, n: nat) =>
        if n == 0 then LayoutStep(first, TextureTooSmall((300, 300)))
        else LayoutStep(second, Ok(BrushAction.Draw(vertices)));
      var run := Retry(layout, (256, 256), 0, 5);
      && run.resizes == [(300, 300)]
      && run.dims == (300, 300)
      && run.outcome == Finished(BrushAction.Draw(vertices))
      && run.trace == ForwardAll(first) + ForwardAll(second) + [Command.Upload(vertices)]
  {
    var layout: Layout := (d: Dims, n: nat) =>
        if n == 0 then LayoutStep(first, TextureTooSmall((300, 300)))
        else LayoutStep(second, Ok(BrushAction.Draw(vertices)));
    var rest := Retry(layout, (300, 300), 1, 4);
    assert rest == Run(ForwardAll(second) + [Command.Upload(vertices)], [], (300, 300), Finished(BrushAction.Draw(vertices)));
    assert Retry(layout, (256, 256), 0, 5) == Run(ForwardAll(first) + rest.trace, [(300, 300)] + rest.resizes, rest.dims, rest.outcome);
  }

  /** The loop invariant: what is recorded so far plus what the rest of the loop records is the whole run. */
  ghost predicate Resumes(before: seq<Command>, now: seq<Command>, whole: Run,
                          layout: Layout, dims: Dims, attempt: nat, fuel: nat)
  {
    var rest := Retry(layout, dims, attempt, fuel);
    && now + rest.trace == before + whole.trace
    && rest.dims == whole.dims
    && rest.outcome == whole.outcome
  }

  /** After the loop broke on a success: only the upload of `action` is still to come. */
  ghost predicate Broke(before: seq<Command>, now: seq<Command>, whole: Run, dims: Dims, action: BrushAction) {
    && now + Uploads(action) == before + whole.trace
    && dims == whole.dims
    && whole.outcome == Finished(action)
  }

  /** The whole loop invariant over the commands, the atlas size and the attempts made. */
  ghost predicate LoopState(before: seq<Command>, now: seq<Command>, whole: Run, layout: Layout,
                            dims: Dims, attempt: nat, fuel: nat, finished: Option<BrushAction>)
  {
    && attempt <= fuel
    && (finished.None? ==> Resumes(before, now, whole, layout, dims, attempt, fuel - attempt))
    && (finished.Some? ==> Broke(before, now, whole, dims, finished.value))
  }

  /** A success ends the loop with only the upload of its action still to come. */
  lemma ResumeOnOk(before: seq<Command>, now: seq<Command>, after: seq<Command>, whole: Run,
                   layout: Layout, dims: Dims, attempt: nat, fuel: nat, action: BrushAction)
    requires attempt < fuel && layout(dims, attempt).result == Ok(action)
    requires LoopState(before, now, whole, layout, dims, attempt, fuel, None)
    requires after == now + ForwardAll(layout(dims, attempt).patches)
    ensures LoopState(before, after, whole, layout, dims, attempt, fuel, Some(action))
  {
    var patches := ForwardAll(layout(dims, attempt).patches);
    assert now + patches + Uploads(action) == now + (patches + Uploads(action));
  }

  /** A report that the atlas is too small leaves the rest of the loop to run at the new size. */
  lemma ResumeOnTooSmall(before: seq<Command>, now: seq<Command>, after: seq<Command>, whole: Run,
                         layout: Layout, dims: Dims, attempt: nat, fuel: nat, suggested: Dims,
                         next: Dims, nextAttempt: nat)
    requires attempt < fuel && layout(dims, attempt).result == TextureTooSmall(suggested)
    requires LoopState(before, now, whole, layout, dims, attempt, fuel, None)
    requires after == now + ForwardAll(layout(dims, attempt).patches)
    requires next == NewCacheSize(suggested, dims) && nextAttempt == attempt + 1
    ensures LoopState(before, after, whole, layout, next, nextAttempt, fuel, None)
  {
    var patches := ForwardAll(layout(dims, attempt).patches);
    var rest := Retry(layout, next, nextAttempt, fuel - nextAttempt);
    assert now + patches + rest.trace == now + (patches + rest.trace);
  }

  class GlyphBrush {
    const pipeline: Pipeline
    /** The layout engine's atlas size. */
    var textureDimensions: Dims

    /** The pipeline's atlas has the size the layout engine packs into. */
    ghost predicate Valid()
      reads this, pipeline
    {
      && pipeline.Valid()
      && pipeline.cache.texture.width == textureDimensions.0
      && pipeline.cache.texture.height == textureDimensions.1
    }

    /** `GlyphBrush::new`: a pipeline whose atlas has the layout engine's initial size. */
    constructor (filter: FilterMode, initialDimensions: Dims)
      ensures Valid()
      ensures textureDimensions == initialDimensions
      ensures fresh(pipeline) && fresh(pipeline.cache) && fresh(pipeline.transform) && fresh(pipeline.instances)
      ensures pipeline.transform.floats == IdentityMatrix && pipeline.sampler.filter == filter
      ensures pipeline.instances.size == InstanceBytes * MaxInstances
    {
      pipeline := new Pipeline(filter, initialDimensions.0, initialDimensions.1);
      textureDimensions := initialDimensions;
    }

    /** The closure handed to the engine: every patch goes to the pipeline, in order. */
    method ForwardPatches(encoder: Encoder, patches: seq<Patch>)
      modifies encoder
      ensures encoder.commands == old(encoder.commands) + ForwardAll(patches)
    {
      var i := 0;
      while i < |patches|
        invariant i <= |patches|
        invariant encoder.commands == old(encoder.commands) + ForwardAll(patches[..i])
      {
        var p := patches[i];
        pipeline.UpdateCache(encoder, (AsU16(p.rect.min.0), AsU16(p.rect.min.1)),
          (AsU16(p.rect.max.0 - p.rect.min.0), AsU16(p.rect.max.1 - p.rect.min.1)), p.data);
        assert ForwardAll(patches[..i + 1]) == ForwardAll(patches[..i]) + [Forward(p)];
        i := i + 1;
      }
      assert patches[..i] == patches;
    }

    /**
     * `process_queued`: run the engine until it succeeds, resizing the
     * pipeline's atlas and the engine's texture together on every report that
     * the atlas is too small, then upload the vertices of a `Draw`.
     */
    method ProcessQueued(encoder: Encoder, layout: Layout, fuel: nat) returns (outcome: Outcome)
      requires Valid()
      modifies this, pipeline, encoder
      ensures Valid()
      ensures var run := Retry(layout, old(textureDimensions), 0, fuel);
        && encoder.commands == old(encoder.commands) + run.trace
        && textureDimensions == run.dims
        && outcome == run.outcome
      ensures pipeline.transform == old(pipeline.transform) && pipeline.sampler == old(pipeline.sampler)
      ensures pipeline.instances == old(pipeline.instances) && pipeline.uniformLayout == old(pipeline.uniformLayout)
      ensures Retry(layout, old(textureDimensions), 0, fuel).resizes == [] ==>
        pipeline.cache == old(pipeline.cache) && pipeline.uniforms == old(pipeline.uniforms)
      ensures Retry(layout, old(textureDimensions), 0, fuel).resizes != [] ==>
        fresh(pipeline.cache) && fresh(pipeline.uniforms)
    {
      ghost var before := encoder.commands;
      ghost var whole := Retry(layout, textureDimensions, 0, fuel);
      var attempt: nat := 0;
      var finished: Option<BrushAction> := None;
      while finished.None? && attempt < fuel
        invariant Valid()
        invariant LoopState(before, encoder.commands, whole, layout, textureDimensions, attempt, fuel, finished)
        invariant pipeline.transform == old(pipeline.transform) && pipeline.sampler == old(pipeline.sampler)
        invariant pipeline.instances == old(pipeline.instances)
        invariant pipeline.uniformLayout == old(pipeline.uniformLayout)
        invariant attempt == 0 ==> textureDimensions == old(textureDimensions)
        invariant attempt == 0 ==> pipeline.cache == old(pipeline.cache) && pipeline.uniforms == old(pipeline.uniforms)
        invariant attempt == 0 && finished.Some? ==> whole.resizes == []
        invariant attempt > 0 ==> whole.resizes != [] && fresh(pipeline.cache) && fresh(pipeline.uniforms)
        decreases fuel - attempt, finished.None?
      {
        var step := layout(textureDimensions, attempt);
        ghost var now, dims, tried := encoder.commands, textureDimensions, attempt;
        ForwardPatches(encoder, step.patches);
        match step.result
        case Ok(action) =>
          finished := Some(action);
          ResumeOnOk(before, now, encoder.commands, whole, layout, dims, tried, fuel, action);
        case TextureTooSmall(suggested) =>
          var next := NewCacheSize(suggested, textureDimensions);
          pipeline.IncreaseCacheSize(next.0, next.1);
          textureDimensions := next;
          attempt := attempt + 1;
          ResumeOnTooSmall(before, now, encoder.commands, whole, layout, dims, tried, fuel, suggested,
                           textureDimensions, attempt);
      }
      match finished
      case None =>
        outcome := OutOfFuel;
      case Some(action) =>
        if action.Draw? {
          pipeline.Upload(encoder, action.vertices);
        }
        outcome := Finished(action);
    }

    /**
     * `draw_queued_with_transform`: process the queue, then draw the whole
     * target with `transform` and the brush's depth attachment (none for a
     * brush without depth). The original always answers `Ok(())`; here
     * `drawn` is false only when the attempts ran out before the engine
     * succeeded, where the original would still be retrying.
     */
    method DrawQueuedWithTransform(encoder: Encoder, layout: Layout, fuel: nat, target: TextureView,
                                   depth: Option<DepthStencilAttachment>, transform: seq<real>)
      returns (drawn: bool)
      requires Valid()
      modifies this, pipeline, encoder
      ensures Valid()
      ensures var run := Retry(layout, old(textureDimensions), 0, fuel);
        && drawn == run.outcome.Finished?
        && encoder.commands == old(encoder.commands) + run.trace
             + (if drawn then [Command.Draw(target, depth, transform, None)] else [])
        && textureDimensions == run.dims
      ensures pipeline.transform == old(pipeline.transform) && pipeline.sampler == old(pipeline.sampler)
      ensures pipeline.instances == old(pipeline.instances) && pipeline.uniformLayout == old(pipeline.uniformLayout)
      ensures Retry(layout, old(textureDimensions), 0, fuel).resizes == [] ==>
        pipeline.cache == old(pipeline.cache) && pipeline.uniforms == old(pipeline.uniforms)
      ensures Retry(layout, old(textureDimensions), 0, fuel).resizes != [] ==>
        fresh(pipeline.cache) && fresh(pipeline.uniforms)
    {
      var outcome := ProcessQueued(encoder, layout, fuel);
      drawn := outcome.Finished?;
      if drawn {
        pipeline.Draw(encoder, target, depth, transform, None);
      }
    }

    /**
     * `draw_queued_with_transform_and_scissoring`: the same, with the draw
     * restricted to `region`.
     */
    method DrawQueuedWithTransformAndScissoring(encoder: Encoder, layout: Layout, fuel: nat,
                                                target: TextureView, depth: Option<DepthStencilAttachment>,
                                                transform: seq<real>, region: Region)
      returns (drawn: bool)
      requires Valid()
      modifies this, pipeline, encoder
      ensures Valid()
      ensures var run := Retry(layout, old(textureDimensions), 0, fuel);
        && drawn == run.outcome.Finished?
        && encoder.commands == old(encoder.commands) + run.trace
             + (if drawn then [Command.Draw(target, depth, transform, Some(region))] else [])
        && textureDimensions == run.dims
      ensures pipeline.transform == old(pipeline.transform) && pipeline.sampler == old(pipeline.sampler)
      ensures pipeline.instances == old(pipeline.instances) && pipeline.uniformLayout == old(pipeline.uniformLayout)
      ensures Retry(layout, old(textureDimensions), 0, fuel).resizes == [] ==>
        pipeline.cache == old(pipeline.cache) && pipeline.uniforms == old(pipeline.uniforms)
      ensures Retry(layout, old(textureDimensions), 0, fuel).resizes != [] ==>
        fresh(pipeline.cache) && fresh(pipeline.uniforms)
    {
      var outcome := ProcessQueued(encoder, layout, fuel);
      drawn := outcome.Finished?;
      if drawn {
        pipeline.Draw(encoder, target, depth, transform, Some(region));
      }
    }
  }
}
