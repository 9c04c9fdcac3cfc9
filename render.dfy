/**
 * sources/Render.cpp: the `Render` object — semaphores and fence, shaders,
 * vertex buffer, render pass, framebuffers, pipeline and command buffer
 * (`Init`), the per-frame call protocol (`Frame`) and the ordered teardown
 * (`Shutdown`).
 */
module Renderer {
  import opened Vk
  import WindowSurface

  /** One entry of a `Render`'s call log: a Vulkan call (or an opaque helper) and the arguments the model tracks. */
  datatype Call =
    // Init
    | CreateSemaphore
    | CreateFence
    | InitShader(stage: ShaderStage)
    | StageVertexBuffer
    | CreateRenderPass(format: Format)
    | CreateFramebuffer(renderPass: Handle, attachment: Handle, width: nat, height: nat)
    | CreatePipelineLayout
    | CreatePipelineCache
    | CreateGraphicsPipeline(cache: Handle, layout: Handle, renderPass: Handle)
    | CreateCommandPool(queueFamilyIndex: nat)
    | AllocateCommandBuffers(commandPool: Handle, count: nat)
    // Frame
    | AcquireNextImage(swapchain: Handle, signalSemaphore: Handle)
    | BeginCommandBuffer(commandBuffer: Handle)
    | CmdBeginRenderPass(renderPass: Handle, framebuffer: Handle, width: nat, height: nat)
    | CmdBindPipeline(pipeline: Handle)
    | CmdBindVertexBuffer(buffer: Handle, offset: nat)
    | CmdDraw(vertexCount: nat, instanceCount: nat, firstVertex: nat, firstInstance: nat)
    | CmdEndRenderPass
    | EndCommandBuffer(commandBuffer: Handle)
    | QueueSubmit(commandBuffers: seq<Handle>, waitSemaphore: Handle, waitStage: PipelineStage,
                  signalSemaphore: Handle, fence: Handle)
    | QueuePresent(waitSemaphore: Handle, swapchain: Handle, imageIndex: nat)
    | WaitForFence(fence: Handle, waitResult: Result)
    | ResetFence(fence: Handle)
    | ResetCommandBuffer(commandBuffer: Handle)

  /** `m_framebufferCount`: one framebuffer per swapchain image. */
  const FramebufferCount: nat := 2

  // ---------------------------------------------------------------------
  // Frame
  // ---------------------------------------------------------------------

  /** The handles `Frame` works with. */
  datatype FrameResources = FrameResources(
    swapchain: Handle,
    imageAvailable: Handle,
    renderDone: Handle,
    presentFence: Handle,
    commandBuffers: seq<Handle>,
    renderPass: Handle,
    framebuffers: seq<Handle>,
    pipeline: Handle,
    vertexBuffer: Handle,
    width: nat,
    height: nat)

  /**
   * What the driver answers during one `Frame`: the acquired image index,
   * the results of begin, end, submit and present, and the results of the
   * successive fence waits.
   */
  datatype FrameReplies = FrameReplies(
    acquire: Reply<nat>,
    begin: Result,
    end: Result,
    submit: Result,
    present: Result,
    waits: seq<Result>)

  /** The first fence wait that does not time out, or `|waits|` when all do. */
  function FirstNonTimeout(waits: seq<Result>): (k: nat)
    ensures k <= |waits|
    ensures k < |waits| ==> waits[k] != Timeout
    ensures forall j :: 0 <= j < k ==> waits[j] == Timeout
  {
    if |waits| == 0 then 0
    else if waits[0] != Timeout then 0
    else 1 + FirstNonTimeout(waits[1..])
  }

  /** The first `n` fence waits, each logged with its result. */
  function FenceWaits(fence: Handle, waits: seq<Result>, n: nat): (calls: seq<Call>)
    requires n <= |waits|
    ensures |calls| == n
    ensures forall k :: 0 <= k < n ==> calls[k] == WaitForFence(fence, waits[k])
  {
    if n == 0 then [] else FenceWaits(fence, waits, n - 1) + [WaitForFence(fence, waits[n - 1])]
  }

  /** The commands recorded inside the render pass: bind the pipeline and the vertex buffer, draw two triangles. */
  function RenderPassCommands(res: FrameResources, framebuffer: Handle): seq<Call> {
    [ CmdBeginRenderPass(res.renderPass, framebuffer, res.width, res.height),
      CmdBindPipeline(res.pipeline),
      CmdBindVertexBuffer(res.vertexBuffer, 0),
      CmdDraw(6, 1, 0, 0),
      CmdEndRenderPass ]
  }

  /** The command buffer `Frame` records into: the last one allocated. */
  function CurrentCommandBuffer(res: FrameResources): Handle
    requires |res.commandBuffers| > 0
  {
    res.commandBuffers[|res.commandBuffers| - 1]
  }

  /** Submit the command buffers: wait for `imageAvailable` at color output, signal `renderDone`, then the fence. */
  function Submission(res: FrameResources): Call {
    QueueSubmit(res.commandBuffers, res.imageAvailable, ColorAttachmentOutput, res.renderDone, res.presentFence)
  }

  /** After presenting: wait on the fence until it stops timing out, reset it, reset the command buffer. */
  function FenceCalls(res: FrameResources, waits: seq<Result>): seq<Call>
    requires |res.commandBuffers| > 0
    requires FirstNonTimeout(waits) < |waits|
  {
    FenceWaits(res.presentFence, waits, FirstNonTimeout(waits) + 1)
      + [ResetFence(res.presentFence), ResetCommandBuffer(CurrentCommandBuffer(res))]
  }

  /**
   * `Frame`, step by step: acquire, begin, the render-pass commands, end,
   * submit, present, then the fence. Each of acquire, begin, end, submit and
   * present ends the frame when it fails.
   */
  function FrameOutcome(res: FrameResources, r: FrameReplies): (o: Outcome<Call>)
    requires r.acquire.result == Success ==> |res.commandBuffers| > 0 && r.acquire.value < |res.framebuffers|
    requires FirstNonTimeout(r.waits) < |r.waits|
    ensures o.ok <==> FrameSucceeds(r)
    ensures |o.calls| > 0 && o.calls[0] == AcquireNextImage(res.swapchain, res.imageAvailable)
  {
    var acquired := Step(AcquireNextImage(res.swapchain, res.imageAvailable), r.acquire.result);
    if !acquired.ok then acquired
    else
      var index := r.acquire.value;
      var cb := CurrentCommandBuffer(res);
      acquired
        .Then(Step(BeginCommandBuffer(cb), r.begin))
        .Then(Emit(RenderPassCommands(res, res.framebuffers[index])))
        .Then(Step(EndCommandBuffer(cb), r.end))
        .Then(Step(Submission(res), r.submit))
        .Then(Step(QueuePresent(res.renderDone, res.swapchain, index), r.present))
        .Then(Emit(FenceCalls(res, r.waits)))
  }

  /** The first ten calls of a frame, up to and including the present, for acquired image `index`. */
  function FramePrefix(res: FrameResources, index: nat): (p: seq<Call>)
    requires |res.commandBuffers| > 0 && index < |res.framebuffers|
    ensures |p| == 10
  {
    var cb := CurrentCommandBuffer(res);
    [ AcquireNextImage(res.swapchain, res.imageAvailable),
      BeginCommandBuffer(cb),
      CmdBeginRenderPass(res.renderPass, res.framebuffers[index], res.width, res.height),
      CmdBindPipeline(res.pipeline),
      CmdBindVertexBuffer(res.vertexBuffer, 0),
      CmdDraw(6, 1, 0, 0),
      CmdEndRenderPass,
      EndCommandBuffer(cb),
      Submission(res),
      QueuePresent(res.renderDone, res.swapchain, index) ]
  }

  /** A frame succeeds when acquire, begin, end, submit and present all succeed. */
  predicate FrameSucceeds(r: FrameReplies) {
    r.acquire.result == Success && r.begin == Success && r.end == Success
    && r.submit == Success && r.present == Success
  }

  /** The recording calls: begin the command buffer; when that succeeds, the render pass and the end. */
  function RecordCalls(res: FrameResources, index: nat, begin: Result): seq<Call>
    requires |res.commandBuffers| > 0 && index < |res.framebuffers|
  {
    var cb := CurrentCommandBuffer(res);
    if begin != Success then [BeginCommandBuffer(cb)]
    else [BeginCommandBuffer(cb)] + RenderPassCommands(res, res.framebuffers[index]) + [EndCommandBuffer(cb)]
  }

  /** The queue calls: submit; when that succeeds, present image `index`. */
  function QueueCalls(res: FrameResources, index: nat, submit: Result): seq<Call> {
    if submit != Success then [Submission(res)]
    else [Submission(res), QueuePresent(res.renderDone, res.swapchain, index)]
  }

  /**
   * The calls of a frame in closed form: the acquire, then (if it succeeded)
   * the recording calls, then (if recording succeeded) the queue calls,
   * then (if those succeeded) the fence calls.
   */
  function FrameCalls(res: FrameResources, r: FrameReplies): (c: seq<Call>)
    requires r.acquire.result == Success ==> |res.commandBuffers| > 0 && r.acquire.value < |res.framebuffers|
    requires FirstNonTimeout(r.waits) < |r.waits|
    ensures |c| > 0 && c[0] == AcquireNextImage(res.swapchain, res.imageAvailable)
    ensures r.acquire.result != Success ==> |c| == 1
    ensures r.acquire.result == Success ==> |c| > 1 && c[1] == BeginCommandBuffer(CurrentCommandBuffer(res))
  {
    var acquired := [AcquireNextImage(res.swapchain, res.imageAvailable)];
    if r.acquire.result != Success then acquired
    else
      var recorded := acquired + RecordCalls(res, r.acquire.value, r.begin);
      if r.begin != Success || r.end != Success then recorded
      else
        var queued := recorded + QueueCalls(res, r.acquire.value, r.submit);
        if r.submit != Success || r.present != Success then queued
        else queued + FenceCalls(res, r.waits)
  }

  /**
   * Answers a frame can be given: after a successful acquire there is a
   * command buffer to record into and the index names a framebuffer, and
   * the fence wait ends.
   */
  predicate Playable(framebufferCount: nat, commandBufferCount: nat, r: FrameReplies) {
    && (r.acquire.result == Success ==> commandBufferCount > 0 && r.acquire.value < framebufferCount)
    && FirstNonTimeout(r.waits) < |r.waits|
  }

  /** Every frame of `frames` is playable. */
  predicate AllPlayable(framebufferCount: nat, commandBufferCount: nat, frames: seq<FrameReplies>) {
    forall k :: 0 <= k < |frames| ==> Playable(framebufferCount, commandBufferCount, frames[k])
  }

  /** The calls of the first `n` frames of `frames`, one after the other. */
  function FramesCalls(res: FrameResources, frames: seq<FrameReplies>, n: nat): (c: seq<Call>)
    requires n <= |frames|
    requires AllPlayable(|res.framebuffers|, |res.commandBuffers|, frames)
    ensures |c| >= n
  {
    if n == 0 then []
    else
      assert Playable(|res.framebuffers|, |res.commandBuffers|, frames[n - 1]);
      FramesCalls(res, frames, n - 1) + FrameCalls(res, frames[n - 1])
  }

  /** The step-by-step frame and the closed form agree, on success and on every failure. */
  lemma FrameCallsShape(res: FrameResources, r: FrameReplies)
    requires r.acquire.result == Success ==> |res.commandBuffers| > 0 && r.acquire.value < |res.framebuffers|
    requires FirstNonTimeout(r.waits) < |r.waits|
    ensures FrameOutcome(res, r) == Outcome(FrameSucceeds(r), FrameCalls(res, r))
  {
    if r.acquire.result == Success {
      var cb := CurrentCommandBuffer(res);
      var a := [AcquireNextImage(res.swapchain, res.imageAvailable)];
      var rpc := RenderPassCommands(res, res.framebuffers[r.acquire.value]);
      var present := QueuePresent(res.renderDone, res.swapchain, r.acquire.value);
      assert a + [BeginCommandBuffer(cb)] + rpc + [EndCommandBuffer(cb)] == a + RecordCalls(res, r.acquire.value, Success);
      assert a + RecordCalls(res, r.acquire.value, Success) + [Submission(res)] + [present]
          == a + RecordCalls(res, r.acquire.value, Success) + QueueCalls(res, r.acquire.value, Success);
    }
  }

  /** The same calls as slices of the first ten: up to the failing call, or all ten and the fence calls. */
  lemma FrameCallsAsPrefix(res: FrameResources, r: FrameReplies)
    requires |res.commandBuffers| > 0
    requires r.acquire.result == Success && r.acquire.value < |res.framebuffers|
    requires FirstNonTimeout(r.waits) < |r.waits|
    ensures var p := FramePrefix(res, r.acquire.value);
      FrameCalls(res, r) ==
        if r.begin != Success then p[..2]
        else if r.end != Success then p[..8]
        else if r.submit != Success then p[..9]
        else if r.present != Success then p
        else p + FenceCalls(res, r.waits)
  {
    var p := FramePrefix(res, r.acquire.value);
    var a := [AcquireNextImage(res.swapchain, res.imageAvailable)];
    if r.begin == Success {
      assert a + RecordCalls(res, r.acquire.value, r.begin) == p[..8];
      if r.end == Success {
        assert p[..8] + QueueCalls(res, r.acquire.value, Success) == p;
      }
    }
  }

  /** The fence calls: every wait before the `k`-th timed out, the `k`-th did not, then the two resets. */
  lemma FenceCallsProtocol(res: FrameResources, waits: seq<Result>)
    requires |res.commandBuffers| > 0
    requires FirstNonTimeout(waits) < |waits|
    ensures var f := FenceCalls(res, waits); var k := FirstNonTimeout(waits);
      && |f| == k + 3
      && (forall i :: 0 <= i < k ==> f[i] == WaitForFence(res.presentFence, Timeout))
      && f[k] == WaitForFence(res.presentFence, waits[k]) && waits[k] != Timeout
      && f[k + 1] == ResetFence(res.presentFence)
      && f[k + 2] == ResetCommandBuffer(CurrentCommandBuffer(res))
  {
    var k := FirstNonTimeout(waits);
    var w := FenceWaits(res.presentFence, waits, k + 1);
    var f := FenceCalls(res, waits);
    assert forall i :: 0 <= i <= k ==> f[i] == w[i];
  }

  /** Call `i` of a frame that acquired an image is call `i` of the prefix, or a fence call after the first ten. */
  lemma FrameCallsPointwise(res: FrameResources, r: FrameReplies)
    requires |res.commandBuffers| > 0
    requires r.acquire.result == Success && r.acquire.value < |res.framebuffers|
    requires FirstNonTimeout(r.waits) < |r.waits|
    ensures var c := FrameCalls(res, r); var p := FramePrefix(res, r.acquire.value); var f := FenceCalls(res, r.waits);
      && (FrameSucceeds(r) ==> |c| == 10 + |f|)
      && (!FrameSucceeds(r) ==> |c| <= 10)
      && forall i :: 0 <= i < |c| ==> c[i] == if i < 10 then p[i] else f[i - 10]
  {
    FrameCallsAsPrefix(res, r);
  }

  /**
   * A frame that fails never waits on the fence and never resets the fence
   * or the command buffer; a frame presents only after a successful submit.
   */
  lemma FrameFailureSkipsFence(res: FrameResources, r: FrameReplies)
    requires r.acquire.result == Success ==> |res.commandBuffers| > 0 && r.acquire.value < |res.framebuffers|
    requires FirstNonTimeout(r.waits) < |r.waits|
    ensures var c := FrameCalls(res, r);
      !FrameSucceeds(r) ==> forall i :: 0 <= i < |c| ==> !c[i].WaitForFence? && !c[i].ResetFence? && !c[i].ResetCommandBuffer?
    ensures var c := FrameCalls(res, r);
      forall i :: 0 <= i < |c| && c[i].QueuePresent? ==> r.submit == Success
  {
    if r.acquire.result == Success {
      FrameCallsPointwise(res, r);
      FenceCallsProtocol(res, r.waits);
      var f := FenceCalls(res, r.waits);
      assert forall j :: 0 <= j < |f| ==> !f[j].QueuePresent?;
    }
  }

  /**
   * The fence protocol of a successful frame: the fence is reset once, as
   * the second-last call, right after the wait that did not time out; every
   * earlier wait timed out. A failed frame resets nothing.
   */
  lemma FrameFenceProtocol(res: FrameResources, r: FrameReplies)
    requires r.acquire.result == Success ==> |res.commandBuffers| > 0 && r.acquire.value < |res.framebuffers|
    requires FirstNonTimeout(r.waits) < |r.waits|
    ensures var c := FrameCalls(res, r); var n := |c|;
      FrameSucceeds(r) ==>
        && n >= 13 && c[n - 2] == ResetFence(res.presentFence)
        && c[n - 3] == WaitForFence(res.presentFence, c[n - 3].waitResult) && c[n - 3].waitResult != Timeout
        && c[n - 1] == ResetCommandBuffer(CurrentCommandBuffer(res))
    ensures var c := FrameCalls(res, r);
      forall i :: 0 <= i < |c| - 3 && c[i].WaitForFence? ==> c[i].waitResult == Timeout
    ensures var c := FrameCalls(res, r);
      forall i :: 0 <= i < |c| && c[i].ResetFence? ==> FrameSucceeds(r) && i == |c| - 2
  {
    var c := FrameCalls(res, r);
    if r.acquire.result == Success {
      var p := FramePrefix(res, r.acquire.value);
      var f := FenceCalls(res, r.waits);
      FrameCallsPointwise(res, r);
      FenceCallsProtocol(res, r.waits);
      assert forall i :: 0 <= i < 10 ==> !p[i].WaitForFence? && !p[i].ResetFence?;
      if FrameSucceeds(r) {
        var n := |c|;
        assert c[n - 3] == f[|f| - 3] && c[n - 2] == f[|f| - 2] && c[n - 1] == f[|f| - 1];
      }
    }
  }

  /**
   * One call of a frame for acquired image `index` uses the right objects:
   * the submit hands the current command buffer to the queue, waits at the
   * color-output stage on `imageAvailable` (the semaphore the acquire
   * signals) and signals `renderDone` and the present fence; the present
   * waits on `renderDone` and presents image `index` of the swapchain the
   * image was acquired from; the render pass draws into framebuffer `index`
   * over the whole window; begin, end and reset act on the current command
   * buffer.
   */
  predicate Wired(res: FrameResources, index: nat, c: Call)
    requires |res.commandBuffers| > 0 && index < |res.framebuffers|
  {
    && (c.AcquireNextImage? ==> c == AcquireNextImage(res.swapchain, res.imageAvailable))
    && (c.QueueSubmit? ==>
          c.waitSemaphore == res.imageAvailable && c.waitStage == ColorAttachmentOutput
          && c.signalSemaphore == res.renderDone && c.fence == res.presentFence
          && CurrentCommandBuffer(res) in c.commandBuffers)
    && (c.QueuePresent? ==>
          c.waitSemaphore == res.renderDone && c.swapchain == res.swapchain && c.imageIndex == index)
    && (c.CmdBeginRenderPass? ==>
          c.framebuffer == res.framebuffers[index] && c.width == res.width && c.height == res.height)
    && (c.BeginCommandBuffer? || c.EndCommandBuffer? || c.ResetCommandBuffer? ==>
          c.commandBuffer == CurrentCommandBuffer(res))
  }

  /** Each of the first ten calls of a frame is wired. */
  lemma PrefixWired(res: FrameResources, index: nat)
    requires |res.commandBuffers| > 0 && index < |res.framebuffers|
    ensures forall j :: 0 <= j < 10 ==> Wired(res, index, FramePrefix(res, index)[j])
  {
    assert CurrentCommandBuffer(res) in Submission(res).commandBuffers;
  }

  /** Each fence call of a frame is wired. */
  lemma FenceWired(res: FrameResources, index: nat, waits: seq<Result>)
    requires |res.commandBuffers| > 0 && index < |res.framebuffers|
    requires FirstNonTimeout(waits) < |waits|
    ensures forall j :: 0 <= j < |FenceCalls(res, waits)| ==> Wired(res, index, FenceCalls(res, waits)[j])
  {
    FenceCallsProtocol(res, waits);
  }

  /**
   * Every call of a frame that acquired an image is wired as `Wired` says;
   * the first call is always the acquire.
   */
  lemma FrameWiring(res: FrameResources, r: FrameReplies)
    requires r.acquire.result == Success ==> |res.commandBuffers| > 0 && r.acquire.value < |res.framebuffers|
    requires FirstNonTimeout(r.waits) < |r.waits|
    ensures var c := FrameCalls(res, r);
      |c| > 0 && c[0] == AcquireNextImage(res.swapchain, res.imageAvailable)
    ensures var c := FrameCalls(res, r);
      r.acquire.result == Success ==> forall i :: 0 <= i < |c| ==> Wired(res, r.acquire.value, c[i])
  {
    if r.acquire.result == Success {
      var c := FrameCalls(res, r);
      var p := FramePrefix(res, r.acquire.value);
      var f := FenceCalls(res, r.waits);
      FrameCallsPointwise(res, r);
      PrefixWired(res, r.acquire.value);
      FenceWired(res, r.acquire.value, r.waits);
    }
  }

  // ---------------------------------------------------------------------
  // Init
  // ---------------------------------------------------------------------

  /** What `Shader::Init` or `Buffer::Stage` reports: success, and the handles it leaves in the object. */
  datatype Prepared = Prepared(ok: bool, handle: Handle, memory: Handle)

  /** The driver's answers to every creation `Init` can make. */
  datatype RenderReplies = RenderReplies(
    renderDone: Reply<Handle>,
    imageAvailable: Reply<Handle>,
    fence: Reply<Handle>,
    vertexShader: Prepared,
    fragmentShader: Prepared,
    vertexBuffer: Prepared,
    renderPass: Reply<Handle>,
    framebuffers: seq<Reply<Handle>>,
    pipelineLayout: Reply<Handle>,
    pipelineCache: Reply<Handle>,
    pipeline: Reply<Handle>,
    commandPool: Reply<Handle>,
    commandBuffers: Reply<seq<Handle>>)

  /** `CreateSemaphores`: `renderDone`, then `imageAvailable`, then the present fence. */
  function SemaphoresOutcome(renderDone: Result, imageAvailable: Result, fence: Result): (o: Outcome<Call>)
    ensures o.ok <==> renderDone == Success && imageAvailable == Success && fence == Success
    ensures PrefixRun(o, [CreateSemaphore, CreateSemaphore, CreateFence])
  {
    Step(CreateSemaphore, renderDone).Then(Step(CreateSemaphore, imageAvailable)).Then(Step(CreateFence, fence))
  }

  /** `CreateShaders`: the vertex shader, then the fragment shader. */
  function ShadersOutcome(vertex: bool, fragment: bool): (o: Outcome<Call>)
    ensures o.ok <==> vertex && fragment
    ensures PrefixRun(o, [InitShader(VertexStage), InitShader(FragmentStage)])
  {
    Probe(InitShader(VertexStage), vertex).Then(Probe(InitShader(FragmentStage), fragment))
  }

  /** The `createFramebuffer` calls for the first `m` swapchain images, in index order. */
  function FramebufferCalls(renderPass: Handle, views: seq<Handle>, width: nat, height: nat, m: nat): (calls: seq<Call>)
    requires m <= |views|
    ensures |calls| == m
    ensures forall k :: 0 <= k < m ==> calls[k] == CreateFramebuffer(renderPass, views[k], width, height)
  {
    if m == 0 then [] else FramebufferCalls(renderPass, views, width, height, m - 1) + [CreateFramebuffer(renderPass, views[m - 1], width, height)]
  }

  /**
   * `CreateFramebuffers`: one framebuffer per swapchain image view, over the
   * whole window; the loop stops at the first failure.
   */
  function FramebuffersOutcome(renderPass: Handle, views: seq<Handle>, width: nat, height: nat,
                               replies: seq<Reply<Handle>>): (o: Outcome<Call>)
    requires FramebufferCount <= |views| && FramebufferCount <= |replies|
    ensures o.ok <==> replies[0].result == Success && replies[1].result == Success
    ensures PrefixRun(o, FramebufferCalls(renderPass, views, width, height, FramebufferCount))
  {
    Outcome(FirstFailure(replies, FramebufferCount) == FramebufferCount,
            FramebufferCalls(renderPass, views, width, height, Attempted(replies, FramebufferCount)))
  }

  /** `CreatePipeline`: the layout, then the cache, then the pipeline built from both and the render pass. */
  function PipelineOutcome(layout: Reply<Handle>, cache: Reply<Handle>, pipeline: Result, renderPass: Handle): (o: Outcome<Call>)
    ensures o.ok <==> layout.result == Success && cache.result == Success && pipeline == Success
    ensures PrefixRun(o, [CreatePipelineLayout, CreatePipelineCache, CreateGraphicsPipeline(cache.value, layout.value, renderPass)])
  {
    Step(CreatePipelineLayout, layout.result)
      .Then(Step(CreatePipelineCache, cache.result))
      .Then(Step(CreateGraphicsPipeline(cache.value, layout.value, renderPass), pipeline))
  }

  /** `CreateCommandBuffers`: a pool on the queue's family, then one primary command buffer from it. */
  function CommandBuffersOutcome(familyIndex: nat, pool: Reply<Handle>, buffers: Result): (o: Outcome<Call>)
    ensures o.ok <==> pool.result == Success && buffers == Success
    ensures PrefixRun(o, [CreateCommandPool(familyIndex), AllocateCommandBuffers(pool.value, 1)])
  {
    Step(CreateCommandPool(familyIndex), pool.result).Then(Step(AllocateCommandBuffers(pool.value, 1), buffers))
  }

  /** The calls of the first half of `Init` when every one of them succeeds. */
  const ResourceCalls: seq<Call> :=
    [CreateSemaphore, CreateSemaphore, CreateFence, InitShader(VertexStage), InitShader(FragmentStage), StageVertexBuffer]

  /** The calls of the second half of `Init` when every one of them succeeds, each on the handles created before it. */
  function TargetCalls(familyIndex: nat, views: seq<Handle>, width: nat, height: nat, r: RenderReplies): seq<Call>
    requires FramebufferCount <= |views|
  {
    [Call.CreateRenderPass(WindowSurface.WantedFormat.format)]
      + FramebufferCalls(r.renderPass.value, views, width, height, FramebufferCount)
      + [CreatePipelineLayout, CreatePipelineCache,
         CreateGraphicsPipeline(r.pipelineCache.value, r.pipelineLayout.value, r.renderPass.value)]
      + [CreateCommandPool(familyIndex), AllocateCommandBuffers(r.commandPool.value, 1)]
  }

  /** The first three steps of `Init`: semaphores and fence, shaders, vertex buffer. */
  function ResourcesOutcome(r: RenderReplies): (o: Outcome<Call>)
    ensures o.ok <==> && SemaphoresOutcome(r.renderDone.result, r.imageAvailable.result, r.fence.result).ok
                      && r.vertexShader.ok && r.fragmentShader.ok && r.vertexBuffer.ok
    ensures PrefixRun(o, ResourceCalls)
  {
    var sync := SemaphoresOutcome(r.renderDone.result, r.imageAvailable.result, r.fence.result);
    var shaders := ShadersOutcome(r.vertexShader.ok, r.fragmentShader.ok);
    ThenPrefixRun(sync, [CreateSemaphore, CreateSemaphore, CreateFence], shaders,
                  [InitShader(VertexStage), InitShader(FragmentStage)]);
    ThenPrefixRun(sync.Then(shaders), ResourceCalls[..5], Probe(StageVertexBuffer, r.vertexBuffer.ok), [StageVertexBuffer]);
    sync.Then(shaders).Then(Probe(StageVertexBuffer, r.vertexBuffer.ok))
  }

  /** The last four steps of `Init`: render pass, framebuffers, pipeline, command buffers. */
  function TargetsOutcome(familyIndex: nat, views: seq<Handle>, width: nat, height: nat, r: RenderReplies): (o: Outcome<Call>)
    requires FramebufferCount <= |views| && FramebufferCount <= |r.framebuffers|
    ensures PrefixRun(o, TargetCalls(familyIndex, views, width, height, r))
  {
    var pass := Step(Call.CreateRenderPass(WindowSurface.WantedFormat.format), r.renderPass.result);
    var framed := FramebuffersOutcome(r.renderPass.value, views, width, height, r.framebuffers);
    var piped := PipelineOutcome(r.pipelineLayout, r.pipelineCache, r.pipeline.result, r.renderPass.value);
    var commands := CommandBuffersOutcome(familyIndex, r.commandPool, r.commandBuffers.result);
    var frames := FramebufferCalls(r.renderPass.value, views, width, height, FramebufferCount);
    var pipeline := [CreatePipelineLayout, CreatePipelineCache,
                     CreateGraphicsPipeline(r.pipelineCache.value, r.pipelineLayout.value, r.renderPass.value)];
    ThenPrefixRun(pass, [Call.CreateRenderPass(WindowSurface.WantedFormat.format)], framed, frames);
    ThenPrefixRun(pass.Then(framed), [Call.CreateRenderPass(WindowSurface.WantedFormat.format)] + frames, piped, pipeline);
    ThenPrefixRun(pass.Then(framed).Then(piped), [Call.CreateRenderPass(WindowSurface.WantedFormat.format)] + frames + pipeline,
                  commands, [CreateCommandPool(familyIndex), AllocateCommandBuffers(r.commandPool.value, 1)]);
    pass.Then(framed).Then(piped).Then(commands)
  }

  /** `Init`: the seven creation steps joined by `&&`. */
  function InitOutcome(familyIndex: nat, views: seq<Handle>, width: nat, height: nat, r: RenderReplies): (o: Outcome<Call>)
    requires FramebufferCount <= |views| && FramebufferCount <= |r.framebuffers|
    ensures PrefixRun(o, ResourceCalls + TargetCalls(familyIndex, views, width, height, r))
  {
    var targets := TargetsOutcome(familyIndex, views, width, height, r);
    ThenPrefixRun(ResourcesOutcome(r), ResourceCalls, targets, TargetCalls(familyIndex, views, width, height, r));
    ResourcesOutcome(r).Then(targets)
  }

  /** Every creation `Init` can make succeeded, both framebuffers included. */
  predicate InitSucceeds(r: RenderReplies)
    requires FramebufferCount <= |r.framebuffers|
  {
    && r.renderDone.result == Success && r.imageAvailable.result == Success && r.fence.result == Success
    && r.vertexShader.ok && r.fragmentShader.ok && r.vertexBuffer.ok
    && r.renderPass.result == Success
    && r.framebuffers[0].result == Success && r.framebuffers[1].result == Success
    && r.pipelineLayout.result == Success && r.pipelineCache.result == Success && r.pipeline.result == Success
    && r.commandPool.result == Success && r.commandBuffers.result == Success
  }

  /** `Init` returns true exactly when every creation succeeded. */
  lemma InitSucceedsIff(familyIndex: nat, views: seq<Handle>, width: nat, height: nat, r: RenderReplies)
    requires FramebufferCount <= |views| && FramebufferCount <= |r.framebuffers|
    ensures InitOutcome(familyIndex, views, width, height, r).ok <==> InitSucceeds(r)
  {
    var j := FirstFailure(r.framebuffers, FramebufferCount);
    if r.framebuffers[0].result == Success && r.framebuffers[1].result == Success {
      assert j == FramebufferCount;
    }
  }

  /** Which step of the render-target half a call of it belongs to. */
  lemma TargetsCallsFrom(familyIndex: nat, views: seq<Handle>, width: nat, height: nat, r: RenderReplies, c: Call)
    requires FramebufferCount <= |views| && FramebufferCount <= |r.framebuffers|
    requires c in TargetsOutcome(familyIndex, views, width, height, r).calls
    ensures || c == Call.CreateRenderPass(WindowSurface.WantedFormat.format)
            || (r.renderPass.result == Success
                && c in FramebuffersOutcome(r.renderPass.value, views, width, height, r.framebuffers).calls)
            || (r.renderPass.result == Success
                && c in PipelineOutcome(r.pipelineLayout, r.pipelineCache, r.pipeline.result, r.renderPass.value).calls)
            || (r.renderPass.result == Success && r.pipeline.result == Success
                && c in CommandBuffersOutcome(familyIndex, r.commandPool, r.commandBuffers.result).calls)
  {
  }

  /** The pipeline is created only after its layout and cache, from their handles. */
  lemma PipelineCallsFrom(layout: Reply<Handle>, cache: Reply<Handle>, pipeline: Result, renderPass: Handle, c: Call)
    requires c in PipelineOutcome(layout, cache, pipeline, renderPass).calls
    ensures c.CreateGraphicsPipeline? ==>
      layout.result == Success && cache.result == Success && c == CreateGraphicsPipeline(cache.value, layout.value, renderPass)
  {
  }

  /**
   * Every object the render-target steps build from another is built from
   * the handle the earlier creation returned, and only once that creation
   * succeeded: the framebuffers on the render pass and a swapchain view, the
   * pipeline on the cache, layout and render pass, one command buffer from
   * the pool, and the pool on the graphics queue's family.
   */
  lemma TargetsUseCreatedHandles(familyIndex: nat, views: seq<Handle>, width: nat, height: nat, r: RenderReplies, c: Call)
    requires FramebufferCount <= |views| && FramebufferCount <= |r.framebuffers|
    requires c in TargetsOutcome(familyIndex, views, width, height, r).calls
    ensures c.CreateFramebuffer? ==>
      r.renderPass.result == Success && c.renderPass == r.renderPass.value && c.attachment in views
      && c.width == width && c.height == height
    ensures c.CreateGraphicsPipeline? ==>
      r.renderPass.result == Success && r.pipelineLayout.result == Success && r.pipelineCache.result == Success
      && c == CreateGraphicsPipeline(r.pipelineCache.value, r.pipelineLayout.value, r.renderPass.value)
    ensures c.AllocateCommandBuffers? ==>
      r.commandPool.result == Success && c == AllocateCommandBuffers(r.commandPool.value, 1)
    ensures c.CreateCommandPool? ==> c.queueFamilyIndex == familyIndex
  {
    var pass := r.renderPass.value;
    var fbs := FramebuffersOutcome(pass, views, width, height, r.framebuffers);
    var pipeline := PipelineOutcome(r.pipelineLayout, r.pipelineCache, r.pipeline.result, pass);
    var commands := CommandBuffersOutcome(familyIndex, r.commandPool, r.commandBuffers.result);
    TargetsCallsFrom(familyIndex, views, width, height, r, c);
    if c in fbs.calls {
      var m := Attempted(r.framebuffers, FramebufferCount);
      var k :| 0 <= k < m && fbs.calls[k] == c;
    } else if c in pipeline.calls {
      PipelineCallsFrom(r.pipelineLayout, r.pipelineCache, r.pipeline.result, pass, c);
    }
  }

  /** A call of the render-target half of `Init`. */
  predicate TargetCall(c: Call) {
    || c.CreateRenderPass? || c.CreateFramebuffer? || c.CreatePipelineLayout? || c.CreatePipelineCache?
    || c.CreateGraphicsPipeline? || c.CreateCommandPool? || c.AllocateCommandBuffers?
  }

  /** The resource half of `Init` makes no render-target call. */
  lemma ResourcesMakeNoTargetCalls(r: RenderReplies, c: Call)
    requires c in ResourcesOutcome(r).calls
    ensures !TargetCall(c)
  {
    var sync := SemaphoresOutcome(r.renderDone.result, r.imageAvailable.result, r.fence.result);
    var shaders := ShadersOutcome(r.vertexShader.ok, r.fragmentShader.ok);
    assert forall d :: d in sync.calls ==> d.CreateSemaphore? || d.CreateFence?;
    assert forall d :: d in shaders.calls ==> d.InitShader?;
  }

  /**
   * `Init` starts on the render targets only after every resource step
   * succeeded: a render-target call of `Init` is one of the target half,
   * made after a successful resource half (so `TargetsUseCreatedHandles`
   * applies to it).
   */
  lemma InitUsesCreatedHandles(familyIndex: nat, views: seq<Handle>, width: nat, height: nat, r: RenderReplies, c: Call)
    requires FramebufferCount <= |views| && FramebufferCount <= |r.framebuffers|
    requires c in InitOutcome(familyIndex, views, width, height, r).calls
    ensures TargetCall(c) ==> ResourcesOutcome(r).ok && c in TargetsOutcome(familyIndex, views, width, height, r).calls
  {
    if c in ResourcesOutcome(r).calls {
      ResourcesMakeNoTargetCalls(r, c);
    }
  }

  // ---------------------------------------------------------------------
  // Shutdown
  // ---------------------------------------------------------------------

  /** Every handle a `Render` owns, as `Shutdown` finds them. */
  datatype Owned = Owned(
    presentFence: Handle,
    commandPool: Handle,
    commandBuffers: seq<Handle>,
    imageAvailable: Handle,
    renderDone: Handle,
    vertexShaderModule: Handle,
    fragmentShaderModule: Handle,
    vertexBuffer: Handle,
    vertexMemory: Handle,
    renderPass: Handle,
    framebuffers: seq<Handle>,
    pipeline: Handle,
    pipelineCache: Handle,
    pipelineLayout: Handle)

  /** The command buffers are freed only when there is a pool to free them to. */
  function FreeCalls(pool: Handle, buffers: seq<Handle>): (r: seq<Teardown>)
    ensures forall c :: c in r ==> c == FreeCommandBuffers(pool, buffers) && IsValid(pool)
    ensures IsValid(pool) ==> r == [FreeCommandBuffers(pool, buffers)]
  {
    if IsValid(pool) then [FreeCommandBuffers(pool, buffers)] else []
  }

  /** The first block of `Shutdown`: the fence, the command buffers and their pool, the semaphores. */
  function SyncTeardown(o: Owned): (t: seq<Teardown>)
    ensures |t| <= 5
  {
    Guarded(FenceObject, o.presentFence)
      + FreeCalls(o.commandPool, o.commandBuffers)
      + Guarded(CommandPoolObject, o.commandPool)
      + Guarded(SemaphoreObject, o.imageAvailable)
      + Guarded(SemaphoreObject, o.renderDone)
  }

  /** The second block: the two shader modules, the vertex buffer and then its memory. */
  function ResourceTeardown(o: Owned): (t: seq<Teardown>)
    ensures |t| <= 4
  {
    Guarded(ShaderModuleObject, o.vertexShaderModule)
      + Guarded(ShaderModuleObject, o.fragmentShaderModule)
      + Guarded(BufferObject, o.vertexBuffer)
      + Guarded(MemoryObject, o.vertexMemory)
  }

  /** The end of the third block: the pipeline, then its cache and layout. */
  function PipelineTeardown(o: Owned): (t: seq<Teardown>)
    ensures |t| <= 3
  {
    Guarded(PipelineObject, o.pipeline)
      + Guarded(PipelineCacheObject, o.pipelineCache)
      + Guarded(PipelineLayoutObject, o.pipelineLayout)
  }

  /** The third block: render pass, framebuffers, then the pipeline and what it was built from. */
  function TargetTeardown(o: Owned): (t: seq<Teardown>)
    ensures |t| <= 4 + |o.framebuffers|
  {
    Guarded(RenderPassObject, o.renderPass)
      + GuardedAll(FramebufferObject, o.framebuffers)
      + PipelineTeardown(o)
  }

  /** The calls of `Render::Shutdown`: wait for the device to go idle, then the three blocks in order. */
  function ShutdownCalls(o: Owned): (s: seq<Teardown>)
    ensures |s| > 0 && s[0] == WaitIdle
    ensures |s| <= 14 + |o.framebuffers|
  {
    [WaitIdle] + SyncTeardown(o) + ResourceTeardown(o) + TargetTeardown(o)
  }

  /** The handles of one kind a `Render` owns. */
  function OwnedOf(o: Owned, kind: ObjectKind): seq<Handle> {
    match kind
    case FenceObject => [o.presentFence]
    case CommandPoolObject => [o.commandPool]
    case SemaphoreObject => [o.imageAvailable, o.renderDone]
    case ShaderModuleObject => [o.vertexShaderModule, o.fragmentShaderModule]
    case BufferObject => [o.vertexBuffer]
    case MemoryObject => [o.vertexMemory]
    case RenderPassObject => [o.renderPass]
    case FramebufferObject => o.framebuffers
    case PipelineObject => [o.pipeline]
    case PipelineCacheObject => [o.pipelineCache]
    case PipelineLayoutObject => [o.pipelineLayout]
    case _ => []
  }

  const SyncKinds: set<ObjectKind> := {FenceObject, CommandPoolObject, SemaphoreObject}
  const ResourceKinds: set<ObjectKind> := {ShaderModuleObject, BufferObject, MemoryObject}
  const TargetKinds: set<ObjectKind> :=
    {RenderPassObject, FramebufferObject, PipelineObject, PipelineCacheObject, PipelineLayoutObject}

  lemma SyncTeardownDestroys(o: Owned, kind: ObjectKind, h: Handle)
    ensures Destroy(kind, h) in SyncTeardown(o) <==> kind in SyncKinds && IsValid(h) && h in OwnedOf(o, kind)
    ensures FreeCommandBuffers(o.commandPool, o.commandBuffers) in SyncTeardown(o) <==> IsValid(o.commandPool)
    ensures WaitIdle !in SyncTeardown(o)
  {
  }

  lemma ResourceTeardownDestroys(o: Owned, kind: ObjectKind, h: Handle)
    ensures Destroy(kind, h) in ResourceTeardown(o) <==> kind in ResourceKinds && IsValid(h) && h in OwnedOf(o, kind)
    ensures forall c :: c in ResourceTeardown(o) ==> c.Destroy?
  {
  }

  lemma PipelineTeardownDestroys(o: Owned, kind: ObjectKind, h: Handle)
    ensures Destroy(kind, h) in PipelineTeardown(o) <==>
      kind in {PipelineObject, PipelineCacheObject, PipelineLayoutObject} && IsValid(h) && h in OwnedOf(o, kind)
    ensures forall c :: c in PipelineTeardown(o) ==> c.Destroy?
  {
  }

  lemma TargetTeardownDestroys(o: Owned, kind: ObjectKind, h: Handle)
    ensures Destroy(kind, h) in TargetTeardown(o) <==> kind in TargetKinds && IsValid(h) && h in OwnedOf(o, kind)
    ensures forall c :: c in TargetTeardown(o) ==> c.Destroy?
  {
    var pass := Guarded(RenderPassObject, o.renderPass);
    var views := GuardedAll(FramebufferObject, o.framebuffers);
    PipelineTeardownDestroys(o, kind, h);
    if kind == FramebufferObject {
      GuardedAllDestroysValid(FramebufferObject, o.framebuffers, h);
      assert Destroy(kind, h) !in pass;
    } else {
      assert Destroy(kind, h) !in views;
    }
  }

  /**
   * `Shutdown` destroys exactly the valid handles the renderer owns, each
   * as its own kind, and frees the command buffers exactly when the pool is
   * valid.
   */
  lemma ShutdownDestroysOwned(o: Owned, kind: ObjectKind, h: Handle)
    ensures Destroy(kind, h) in ShutdownCalls(o) <==> IsValid(h) && h in OwnedOf(o, kind)
    ensures FreeCommandBuffers(o.commandPool, o.commandBuffers) in ShutdownCalls(o) <==> IsValid(o.commandPool)
  {
    SyncTeardownDestroys(o, kind, h);
    ResourceTeardownDestroys(o, kind, h);
    TargetTeardownDestroys(o, kind, h);
  }

  /** The device is idle before anything is freed or destroyed. */
  lemma ShutdownWaitsIdleFirst(o: Owned, c: Teardown)
    requires c in ShutdownCalls(o) && c != WaitIdle
    ensures ShutdownCalls(o)[0] == WaitIdle && Before(ShutdownCalls(o), WaitIdle, c)
  {
    var h := if c.Destroy? then c.handle else 0;
    SyncTeardownDestroys(o, FenceObject, h);
    ResourceTeardownDestroys(o, FenceObject, h);
    TargetTeardownDestroys(o, FenceObject, h);
    var rest := SyncTeardown(o) + ResourceTeardown(o) + TargetTeardown(o);
    AppendAssoc([WaitIdle], SyncTeardown(o), ResourceTeardown(o));
    AppendAssoc([WaitIdle], SyncTeardown(o) + ResourceTeardown(o), TargetTeardown(o));
    assert ShutdownCalls(o) == [WaitIdle] + rest;
    BeforeAcross([WaitIdle], rest, WaitIdle, c);
  }
  /** The command buffers go back to their pool before the pool is destroyed. */
  lemma ShutdownFreesBeforePool(o: Owned)
    ensures Before(ShutdownCalls(o), FreeCommandBuffers(o.commandPool, o.commandBuffers),
      Destroy(CommandPoolObject, o.commandPool))
  {
    var free := FreeCommandBuffers(o.commandPool, o.commandBuffers);
    var pool := Destroy(CommandPoolObject, o.commandPool);
    var front := Guarded(FenceObject, o.presentFence) + FreeCalls(o.commandPool, o.commandBuffers);
    BeforeAcross(front, Guarded(CommandPoolObject, o.commandPool), free, pool);
    BeforeExtend(front + Guarded(CommandPoolObject, o.commandPool), Guarded(SemaphoreObject, o.imageAvailable), free, pool);
    BeforeExtend(front + Guarded(CommandPoolObject, o.commandPool) + Guarded(SemaphoreObject, o.imageAvailable),
      Guarded(SemaphoreObject, o.renderDone), free, pool);
    BeforePrepend([WaitIdle], SyncTeardown(o), free, pool);
    ResourceTeardownDestroys(o, CommandPoolObject, o.commandPool);
    TargetTeardownDestroys(o, CommandPoolObject, o.commandPool);
    BeforeExtend([WaitIdle] + SyncTeardown(o), ResourceTeardown(o), free, pool);
    BeforeExtend([WaitIdle] + SyncTeardown(o) + ResourceTeardown(o), TargetTeardown(o), free, pool);
  }

  /** The vertex buffer is destroyed before the memory bound to it is freed. */
  lemma ShutdownBufferBeforeMemory(o: Owned)
    ensures Before(ShutdownCalls(o), Destroy(BufferObject, o.vertexBuffer), Destroy(MemoryObject, o.vertexMemory))
  {
    var buffer := Destroy(BufferObject, o.vertexBuffer);
    var memory := Destroy(MemoryObject, o.vertexMemory);
    var front := Guarded(ShaderModuleObject, o.vertexShaderModule)
      + Guarded(ShaderModuleObject, o.fragmentShaderModule) + Guarded(BufferObject, o.vertexBuffer);
    BeforeAcross(front, Guarded(MemoryObject, o.vertexMemory), buffer, memory);
    SyncTeardownDestroys(o, MemoryObject, o.vertexMemory);
    BeforePrepend([WaitIdle] + SyncTeardown(o), ResourceTeardown(o), buffer, memory);
    TargetTeardownDestroys(o, BufferObject, o.vertexBuffer);
    BeforeExtend([WaitIdle] + SyncTeardown(o) + ResourceTeardown(o), TargetTeardown(o), buffer, memory);
  }

  /** No block before the targets destroys a target object. */
  lemma TargetsNotInHead(o: Owned, kind: ObjectKind, h: Handle)
    requires kind in TargetKinds
    ensures Destroy(kind, h) !in [WaitIdle] + SyncTeardown(o) + ResourceTeardown(o)
  {
    SyncTeardownDestroys(o, kind, h);
    ResourceTeardownDestroys(o, kind, h);
  }

  /** The pipeline is destroyed before its cache. */
  lemma ShutdownPipelineBeforeCache(o: Owned)
    ensures Before(ShutdownCalls(o), Destroy(PipelineObject, o.pipeline), Destroy(PipelineCacheObject, o.pipelineCache))
  {
    var pipeline := Destroy(PipelineObject, o.pipeline);
    var cache := Destroy(PipelineCacheObject, o.pipelineCache);
    var front := Guarded(RenderPassObject, o.renderPass) + GuardedAll(FramebufferObject, o.framebuffers);
    BeforeAcross(Guarded(PipelineObject, o.pipeline), Guarded(PipelineCacheObject, o.pipelineCache), pipeline, cache);
    BeforeExtend(Guarded(PipelineObject, o.pipeline) + Guarded(PipelineCacheObject, o.pipelineCache),
      Guarded(PipelineLayoutObject, o.pipelineLayout), pipeline, cache);
    assert cache !in GuardedAll(FramebufferObject, o.framebuffers);
    BeforePrepend(front, PipelineTeardown(o), pipeline, cache);
    TargetsNotInHead(o, PipelineCacheObject, o.pipelineCache);
    BeforePrepend([WaitIdle] + SyncTeardown(o) + ResourceTeardown(o), TargetTeardown(o), pipeline, cache);
  }

  /** The pipeline is destroyed before its layout. */
  lemma ShutdownPipelineBeforeLayout(o: Owned)
    ensures Before(ShutdownCalls(o), Destroy(PipelineObject, o.pipeline), Destroy(PipelineLayoutObject, o.pipelineLayout))
  {
    var pipeline := Destroy(PipelineObject, o.pipeline);
    var layout := Destroy(PipelineLayoutObject, o.pipelineLayout);
    var front := Guarded(RenderPassObject, o.renderPass) + GuardedAll(FramebufferObject, o.framebuffers);
    BeforeAcross(Guarded(PipelineObject, o.pipeline) + Guarded(PipelineCacheObject, o.pipelineCache),
      Guarded(PipelineLayoutObject, o.pipelineLayout), pipeline, layout);
    assert layout !in GuardedAll(FramebufferObject, o.framebuffers);
    BeforePrepend(front, PipelineTeardown(o), pipeline, layout);
    TargetsNotInHead(o, PipelineLayoutObject, o.pipelineLayout);
    BeforePrepend([WaitIdle] + SyncTeardown(o) + ResourceTeardown(o), TargetTeardown(o), pipeline, layout);
  }

  // ---------------------------------------------------------------------
  // What a partial Init leaves for Shutdown
  // ---------------------------------------------------------------------

  /** The handles of a renderer that has created nothing: every handle null, two null framebuffers, no buffers. */
  function Unset(): Owned {
    Owned(NullHandle, NullHandle, [], NullHandle, NullHandle, NullHandle, NullHandle, NullHandle, NullHandle,
          NullHandle, [NullHandle, NullHandle], NullHandle, NullHandle, NullHandle)
  }

  /** `CreateSemaphores`: each handle is stored whatever its result, up to the first failure. */
  function SemaphoresHeld(o: Owned, renderDone: Reply<Handle>, imageAvailable: Reply<Handle>, fence: Reply<Handle>): Owned {
    o.(renderDone := renderDone.value,
       imageAvailable := if renderDone.result == Success then imageAvailable.value else o.imageAvailable,
       presentFence := if renderDone.result == Success && imageAvailable.result == Success then fence.value
                       else o.presentFence)
  }

  /** `CreateShaders`: the vertex module, then the fragment module only after the vertex shader succeeded. */
  function ShadersHeld(o: Owned, vertex: Prepared, fragment: Prepared): Owned {
    o.(vertexShaderModule := vertex.handle,
       fragmentShaderModule := if vertex.ok then fragment.handle else o.fragmentShaderModule)
  }

  /** `CreateVertexBuffer`: the staged buffer and its memory. */
  function VertexBufferHeld(o: Owned, staged: Prepared): Owned {
    o.(vertexBuffer := staged.handle, vertexMemory := staged.memory)
  }

  /** `CreateFramebuffers`: slot `k` holds its reply once framebuffer `k` was attempted. */
  function FramebuffersHeld(slots: seq<Handle>, replies: seq<Reply<Handle>>): (f: seq<Handle>)
    requires |slots| == FramebufferCount <= |replies|
    ensures |f| == FramebufferCount
  {
    var m := Attempted(replies, FramebufferCount);
    [if 0 < m then replies[0].value else slots[0], if 1 < m then replies[1].value else slots[1]]
  }

  /** `CreatePipeline`: the layout, then the cache, then the pipeline, each stored once its step ran. */
  function PipelineHeld(o: Owned, layout: Reply<Handle>, cache: Reply<Handle>, created: Reply<Handle>): Owned {
    o.(pipelineLayout := layout.value,
       pipelineCache := if layout.result == Success then cache.value else o.pipelineCache,
       pipeline := if layout.result == Success && cache.result == Success then created.value else o.pipeline)
  }

  /** `CreateCommandBuffers`: the pool, then the buffers once the pool succeeded. */
  function CommandsHeld(o: Owned, pool: Reply<Handle>, buffers: Reply<seq<Handle>>): Owned {
    o.(commandPool := pool.value,
       commandBuffers := if pool.result == Success then buffers.value else o.commandBuffers)
  }

  /**
   * The handles the first half of `Init` leaves in a renderer that held `o`:
   * each step stores its handles whatever its result, and a step that did
   * not run leaves them as they were.
   */
  function ResourcesHeld(o: Owned, r: RenderReplies): (h: Owned)
    ensures h.commandPool == o.commandPool && h.commandBuffers == o.commandBuffers
    ensures h.renderPass == o.renderPass && h.framebuffers == o.framebuffers
    ensures h.pipeline == o.pipeline && h.pipelineCache == o.pipelineCache && h.pipelineLayout == o.pipelineLayout
  {
    var a := SemaphoresHeld(o, r.renderDone, r.imageAvailable, r.fence);
    if !SemaphoresOutcome(r.renderDone.result, r.imageAvailable.result, r.fence.result).ok then a
    else
      var b := ShadersHeld(a, r.vertexShader, r.fragmentShader);
      if !(r.vertexShader.ok && r.fragmentShader.ok) then b else VertexBufferHeld(b, r.vertexBuffer)
  }

  /** `CreateRenderPass` then `CreateFramebuffers`, the latter only after the render pass succeeded. */
  function OutputsHeld(o: Owned, r: RenderReplies): (h: Owned)
    requires |o.framebuffers| == FramebufferCount <= |r.framebuffers|
    ensures |h.framebuffers| == FramebufferCount
  {
    var a := o.(renderPass := r.renderPass.value);
    if r.renderPass.result != Success then a
    else a.(framebuffers := FramebuffersHeld(o.framebuffers, r.framebuffers))
  }

  /** `CreatePipeline` then `CreateCommandBuffers`, the latter only after the pipeline succeeded. */
  function DrawStateHeld(o: Owned, r: RenderReplies): (h: Owned)
    ensures h.renderPass == o.renderPass && h.framebuffers == o.framebuffers
  {
    var c := PipelineHeld(o, r.pipelineLayout, r.pipelineCache, r.pipeline);
    if !PipelineOutcome(r.pipelineLayout, r.pipelineCache, r.pipeline.result, r.renderPass.value).ok then c
    else CommandsHeld(c, r.commandPool, r.commandBuffers)
  }

  /** The handles the second half of `Init` leaves, in the same sense. */
  function TargetsHeld(o: Owned, r: RenderReplies): (h: Owned)
    requires |o.framebuffers| == FramebufferCount <= |r.framebuffers|
    ensures h.presentFence == o.presentFence && h.imageAvailable == o.imageAvailable && h.renderDone == o.renderDone
    ensures h.vertexShaderModule == o.vertexShaderModule && h.fragmentShaderModule == o.fragmentShaderModule
    ensures h.vertexBuffer == o.vertexBuffer && h.vertexMemory == o.vertexMemory
    ensures |h.framebuffers| == FramebufferCount
  {
    var a := OutputsHeld(o, r);
    if r.renderPass.result != Success || FirstFailure(r.framebuffers, FramebufferCount) < FramebufferCount then a
    else DrawStateHeld(a, r)
  }

  /** The handles `Init` leaves: the second half's only when the first half succeeded. */
  function InitHeld(o: Owned, r: RenderReplies): (h: Owned)
    requires |o.framebuffers| == FramebufferCount <= |r.framebuffers|
    ensures InitSucceeds(r) ==>
      h == Owned(r.fence.value, r.commandPool.value, r.commandBuffers.value, r.imageAvailable.value, r.renderDone.value,
                 r.vertexShader.handle, r.fragmentShader.handle, r.vertexBuffer.handle, r.vertexBuffer.memory,
                 r.renderPass.value, [r.framebuffers[0].value, r.framebuffers[1].value],
                 r.pipeline.value, r.pipelineCache.value, r.pipelineLayout.value)
  {
    var first := ResourcesHeld(o, r);
    if ResourcesOutcome(r).ok then TargetsHeld(first, r) else first
  }

  /** The status the first half of `Init` leaves: that of the last semaphore or fence creation it made. */
  function ResourcesStatus(r: RenderReplies): (s: Result)
    ensures s == Success <==> SemaphoresOutcome(r.renderDone.result, r.imageAvailable.result, r.fence.result).ok
  {
    if r.renderDone.result != Success then r.renderDone.result
    else if r.imageAvailable.result != Success then r.imageAvailable.result
    else r.fence.result
  }

  /** The status the second half of `Init` leaves: that of the last creation it made. */
  function TargetsStatus(r: RenderReplies): (s: Result)
    requires FramebufferCount <= |r.framebuffers|
    ensures s == Success <==>
      && r.renderPass.result == Success && r.framebuffers[0].result == Success && r.framebuffers[1].result == Success
      && r.pipelineLayout.result == Success && r.pipelineCache.result == Success && r.pipeline.result == Success
      && r.commandPool.result == Success && r.commandBuffers.result == Success
  {
    var j := FirstFailure(r.framebuffers, FramebufferCount);
    if r.renderPass.result != Success then r.renderPass.result
    else if j < FramebufferCount then r.framebuffers[j].result
    else if r.pipelineLayout.result != Success then r.pipelineLayout.result
    else if r.pipelineCache.result != Success then r.pipelineCache.result
    else if r.pipeline.result != Success then r.pipeline.result
    else if r.commandPool.result != Success then r.commandPool.result
    else r.commandBuffers.result
  }

  /**
   * `~Render` runs `Shutdown` whatever `Init` did. When `Init` fails in its
   * first half on a fresh renderer, that teardown frees no command buffer
   * and destroys no render pass, framebuffer, pipeline, cache, layout or
   * pool: the validity guards skip every handle the failed `Init` never set.
   */
  lemma ShutdownAfterFailedResources(r: RenderReplies, kind: ObjectKind, h: Handle)
    requires FramebufferCount <= |r.framebuffers|
    requires !ResourcesOutcome(r).ok
    requires kind in TargetKinds || kind == CommandPoolObject
    ensures var o := InitHeld(Unset(), r);
      && Destroy(kind, h) !in ShutdownCalls(o)
      && FreeCommandBuffers(o.commandPool, o.commandBuffers) !in ShutdownCalls(o)
  {
    var u := Unset();
    var o := InitHeld(u, r);
    assert o == ResourcesHeld(u, r);
    assert OwnedOf(o, kind) == OwnedOf(u, kind);
    assert forall x <- OwnedOf(u, kind) :: !IsValid(x);
    ShutdownDestroysOwned(o, kind, h);
  }

  /**
   * `main` enters its frame loop whatever `Compositor::Init` returned. When
   * `Render::Init` fails on a fresh renderer before its command pool exists
   * (in its first half, or at the pool itself), the renderer it goes on to
   * draw with holds no command buffer. A pool failure leaves the semaphores
   * and the fence in place, so the next acquire is a valid call; when it
   * succeeds, `Frame` takes the last element of the empty list, which is
   * outside what a frame can be given.
   */
  lemma FailedInitLeavesNoCommandBuffer(r: RenderReplies, f: FrameReplies)
    requires FramebufferCount <= |r.framebuffers|
    requires !ResourcesOutcome(r).ok || r.commandPool.result != Success
    ensures !InitSucceeds(r)
    ensures InitHeld(Unset(), r).commandBuffers == []
    ensures ResourcesOutcome(r).ok ==>
      var h := InitHeld(Unset(), r);
      h.renderDone == r.renderDone.value && h.imageAvailable == r.imageAvailable.value && h.presentFence == r.fence.value
    ensures f.acquire.result == Success ==> !Playable(FramebufferCount, |InitHeld(Unset(), r).commandBuffers|, f)
  {
    var u := Unset();
    var first := ResourcesHeld(u, r);
    if !ResourcesOutcome(r).ok {
      assert InitHeld(u, r) == first;
    } else {
      assert InitHeld(u, r) == TargetsHeld(first, r);
      var a := OutputsHeld(first, r);
      assert a.commandBuffers == [];
      var c := PipelineHeld(a, r.pipelineLayout, r.pipelineCache, r.pipeline);
      assert CommandsHeld(c, r.commandPool, r.commandBuffers).commandBuffers == [];
    }
  }

  /** One more frame of a playable list adds that frame's calls at the end. */
  lemma FramesCallsNext(res: FrameResources, frames: seq<FrameReplies>, i: nat)
    requires i < |frames| && AllPlayable(|res.framebuffers|, |res.commandBuffers|, frames)
    ensures Playable(|res.framebuffers|, |res.commandBuffers|, frames[i])
    ensures FramesCalls(res, frames, i + 1) == FramesCalls(res, frames, i) + FrameCalls(res, frames[i])
  {
  }

  // ---------------------------------------------------------------------
  // The Render object
  // ---------------------------------------------------------------------

  /**
   * The renderer. The swapchain, its image views, the window size and the
   * queue family are those of the window and device it was built on; they
   * are fixed by the time the compositor builds it.
   */
  class Render {
    const swapchain: Handle
    const width: nat
    const height: nat
    const views: seq<Handle>
    const familyIndex: nat

    var status: Result
    var renderPass: Handle
    /** `m_framebuffers[2]`. */
    const framebuffers: array<Handle>
    var currentFrameBuffer: nat
    var pipelineLayout: Handle
    var pipelineCache: Handle
    var pipeline: Handle
    var commandPool: Handle
    var commandBuffers: seq<Handle>
    var renderDone: Handle
    var imageAvailable: Handle
    var presentFence: Handle
    var vertexShaderModule: Handle
    var fragmentShaderModule: Handle
    var vertexBuffer: Handle
    var vertexMemory: Handle

    /** Every call this renderer made, in order (teardown calls aside). */
    ghost var trace: seq<Call>
    /** The calls of `Shutdown`. */
    ghost var teardown: seq<Teardown>

    /** A renderer over a window's swapchain: no objects yet, status "initialization failed". */
    constructor (swapchain: Handle, width: nat, height: nat, views: seq<Handle>, familyIndex: nat)
      requires |views| == WindowSurface.SwapchainImageCount
      ensures this.swapchain == swapchain && this.width == width && this.height == height
      ensures this.views == views && this.familyIndex == familyIndex
      ensures status == ErrorInitializationFailed && currentFrameBuffer == 0
      ensures framebuffers.Length == FramebufferCount && fresh(framebuffers)
      ensures forall k :: 0 <= k < framebuffers.Length ==> framebuffers[k] == NullHandle
      ensures renderPass == NullHandle && pipelineLayout == NullHandle && pipelineCache == NullHandle
      ensures pipeline == NullHandle && commandPool == NullHandle && commandBuffers == []
      ensures renderDone == NullHandle && imageAvailable == NullHandle && presentFence == NullHandle
      ensures vertexShaderModule == NullHandle && fragmentShaderModule == NullHandle
      ensures vertexBuffer == NullHandle && vertexMemory == NullHandle
      ensures trace == [] && teardown == []
      ensures Holdings() == Unset()
    {
      this.swapchain, this.width, this.height := swapchain, width, height;
      this.views, this.familyIndex := views, familyIndex;
      status := ErrorInitializationFailed;
      framebuffers := new Handle[FramebufferCount](_ => NullHandle);
      currentFrameBuffer := 0;
      renderPass, pipelineLayout, pipelineCache, pipeline := NullHandle, NullHandle, NullHandle, NullHandle;
      commandPool, commandBuffers := NullHandle, [];
      renderDone, imageAvailable, presentFence := NullHandle, NullHandle, NullHandle;
      vertexShaderModule, fragmentShaderModule := NullHandle, NullHandle;
      vertexBuffer, vertexMemory := NullHandle, NullHandle;
      trace, teardown := [], [];
      new;
      assert framebuffers[..] == [NullHandle, NullHandle];
    }

    /** The handles a frame works with, as they are now. */
    function Resources(): FrameResources
      reads this`imageAvailable, this`renderDone, this`presentFence, this`commandBuffers
      reads this`renderPass, this`pipeline, this`vertexBuffer, framebuffers
    {
      FrameResources(swapchain, imageAvailable, renderDone, presentFence, commandBuffers,
                     renderPass, framebuffers[..], pipeline, vertexBuffer, width, height)
    }

    /** CreateSemaphores: each handle is stored whatever the result; the first failure ends the step. */
    method CreateSemaphores(renderDoneReply: Reply<Handle>, imageAvailableReply: Reply<Handle>, fenceReply: Reply<Handle>)
      returns (ok: bool)
      modifies this`status, this`trace, this`renderDone, this`imageAvailable, this`presentFence
      ensures var o := SemaphoresOutcome(renderDoneReply.result, imageAvailableReply.result, fenceReply.result);
        ok == o.ok && trace == old(trace) + o.calls
      ensures renderDone == renderDoneReply.value
      ensures imageAvailable == if renderDoneReply.result == Success then imageAvailableReply.value else old(imageAvailable)
      ensures presentFence ==
        if renderDoneReply.result == Success && imageAvailableReply.result == Success then fenceReply.value
        else old(presentFence)
      ensures status ==
        if renderDoneReply.result != Success then renderDoneReply.result
        else if imageAvailableReply.result != Success then imageAvailableReply.result
        else fenceReply.result
    {
      status, renderDone := renderDoneReply.result, renderDoneReply.value;
      trace := trace + [CreateSemaphore];
      if status != Success {
        return false;
      }
      status, imageAvailable := imageAvailableReply.result, imageAvailableReply.value;
      trace := trace + [CreateSemaphore];
      if status != Success {
        return false;
      }
      status, presentFence := fenceReply.result, fenceReply.value;
      trace := trace + [CreateFence];
      if status != Success {
        return false;
      }
      return true;
    }

    /** CreateShaders: the vertex shader, then (only if it succeeded) the fragment shader. */
    method CreateShaders(vertex: Prepared, fragment: Prepared) returns (ok: bool)
      modifies this`trace, this`vertexShaderModule, this`fragmentShaderModule
      ensures var o := ShadersOutcome(vertex.ok, fragment.ok); ok == o.ok && trace == old(trace) + o.calls
      ensures vertexShaderModule == vertex.handle
      ensures fragmentShaderModule == if vertex.ok then fragment.handle else old(fragmentShaderModule)
    {
      vertexShaderModule := vertex.handle;
      trace := trace + [InitShader(VertexStage)];
      if !vertex.ok {
        return false;
      }
      fragmentShaderModule := fragment.handle;
      trace := trace + [InitShader(FragmentStage)];
      return fragment.ok;
    }

    /** CreateVertexBuffer: stage the quad's vertices into a vertex buffer. */
    method CreateVertexBuffer(staged: Prepared) returns (ok: bool)
      modifies this`trace, this`vertexBuffer, this`vertexMemory
      ensures var o := Probe(StageVertexBuffer, staged.ok); ok == o.ok && trace == old(trace) + o.calls
      ensures vertexBuffer == staged.handle && vertexMemory == staged.memory
    {
      vertexBuffer, vertexMemory := staged.handle, staged.memory;
      trace := trace + [StageVertexBuffer];
      return staged.ok;
    }

    /** CreateRenderPass: one color attachment in the window's surface format. */
    method CreateRenderPass(created: Reply<Handle>) returns (ok: bool)
      modifies this`status, this`trace, this`renderPass
      ensures var o := Step(Call.CreateRenderPass(WindowSurface.WantedFormat.format), created.result);
        ok == o.ok && trace == old(trace) + o.calls
      ensures status == created.result && renderPass == created.value
    {
      status, renderPass := created.result, created.value;
      trace := trace + [Call.CreateRenderPass(WindowSurface.WantedFormat.format)];
      return status == Success;
    }

    /**
     * CreateFramebuffers: for each swapchain image in turn, a framebuffer on
     * the render pass with that image's view as its only attachment; the
     * handle is stored whatever the result and the loop stops at the first
     * failure.
     */
    method CreateFramebuffers(replies: seq<Reply<Handle>>) returns (ok: bool)
      requires framebuffers.Length == FramebufferCount <= |views| && FramebufferCount <= |replies|
      modifies this`status, this`trace, framebuffers
      ensures var o := FramebuffersOutcome(renderPass, views, width, height, replies);
        ok == o.ok && trace == old(trace) + o.calls
      ensures status == if ok then Success else replies[FirstFailure(replies, FramebufferCount)].result
      ensures forall k :: 0 <= k < FramebufferCount ==>
        framebuffers[k] == if k < Attempted(replies, FramebufferCount) then replies[k].value else old(framebuffers[k])
    {
      var i := 0;
      while i < FramebufferCount
        invariant 0 <= i <= FramebufferCount
        invariant FirstFailure(replies, i) == i
        invariant trace == old(trace) + FramebufferCalls(renderPass, views, width, height, i)
        invariant i > 0 ==> status == Success
        invariant forall k :: 0 <= k < FramebufferCount ==>
          framebuffers[k] == if k < i then replies[k].value else old(framebuffers[k])
      {
        status, framebuffers[i] := replies[i].result, replies[i].value;
        trace := trace + [CreateFramebuffer(renderPass, views[i], width, height)];
        if status != Success {
          FirstFailureIsFirst(replies, FramebufferCount, i);
          return false;
        }
        FirstFailureIsFirst(replies, i + 1, i + 1);
        i := i + 1;
      }
      return true;
    }

    /** CreatePipeline: the layout, the cache, then the graphics pipeline over both and the render pass. */
    method CreatePipeline(layout: Reply<Handle>, cache: Reply<Handle>, created: Reply<Handle>) returns (ok: bool)
      modifies this`status, this`trace, this`pipelineLayout, this`pipelineCache, this`pipeline
      ensures var o := PipelineOutcome(layout, cache, created.result, renderPass);
        ok == o.ok && trace == old(trace) + o.calls
      ensures pipelineLayout == layout.value
      ensures pipelineCache == if layout.result == Success then cache.value else old(pipelineCache)
      ensures pipeline ==
        if layout.result == Success && cache.result == Success then created.value else old(pipeline)
      ensures status ==
        if layout.result != Success then layout.result
        else if cache.result != Success then cache.result
        else created.result
    {
      status, pipelineLayout := layout.result, layout.value;
      trace := trace + [CreatePipelineLayout];
      if status != Success {
        return false;
      }
      status, pipelineCache := cache.result, cache.value;
      trace := trace + [CreatePipelineCache];
      if status != Success {
        return false;
      }
      status, pipeline := created.result, created.value;
      trace := trace + [CreateGraphicsPipeline(pipelineCache, pipelineLayout, renderPass)];
      return status == Success;
    }

    /** CreateCommandBuffers: a resettable pool on the queue's family, then one primary command buffer. */
    method CreateCommandBuffers(pool: Reply<Handle>, buffers: Reply<seq<Handle>>) returns (ok: bool)
      modifies this`status, this`trace, this`commandPool, this`commandBuffers
      ensures var o := CommandBuffersOutcome(familyIndex, pool, buffers.result);
        ok == o.ok && trace == old(trace) + o.calls
      ensures commandPool == pool.value
      ensures commandBuffers == if pool.result == Success then buffers.value else old(commandBuffers)
      ensures status == if pool.result != Success then pool.result else buffers.result
    {
      status, commandPool := pool.result, pool.value;
      trace := trace + [CreateCommandPool(familyIndex)];
      if status != Success {
        return false;
      }
      status, commandBuffers := buffers.result, buffers.value;
      trace := trace + [AllocateCommandBuffers(commandPool, 1)];
      return status == Success;
    }
  
    /** The first half of `Init`: semaphores and fence, shaders, vertex buffer. */
    method CreateResources(r: RenderReplies) returns (ok: bool)
      modifies this`status, this`trace, this`renderDone, this`imageAvailable, this`presentFence
      modifies this`vertexShaderModule, this`fragmentShaderModule, this`vertexBuffer, this`vertexMemory
      ensures var o := ResourcesOutcome(r); ok == o.ok && trace == old(trace) + o.calls
      ensures ok ==> renderDone == r.renderDone.value && imageAvailable == r.imageAvailable.value
                     && presentFence == r.fence.value
      ensures ok ==> vertexShaderModule == r.vertexShader.handle && fragmentShaderModule == r.fragmentShader.handle
      ensures ok ==> vertexBuffer == r.vertexBuffer.handle && vertexMemory == r.vertexBuffer.memory
      ensures Holdings() == ResourcesHeld(old(Holdings()), r) && status == ResourcesStatus(r)
    {
      ghost var t0, h := trace, Holdings();
      ok := CreateSemaphores(r.renderDone, r.imageAvailable, r.fence);
      ghost var o := SemaphoresOutcome(r.renderDone.result, r.imageAvailable.result, r.fence.result);
      h := SemaphoresHeld(h, r.renderDone, r.imageAvailable, r.fence);
      assert Holdings() == h;
      if !ok {
        return;
      }
      ok := CreateShaders(r.vertexShader, r.fragmentShader);
      ghost var s := ShadersOutcome(r.vertexShader.ok, r.fragmentShader.ok);
      AppendAssoc(t0, o.calls, s.calls);
      o := o.Then(s);
      h := ShadersHeld(h, r.vertexShader, r.fragmentShader);
      assert Holdings() == h;
      if !ok {
        return;
      }
      ok := CreateVertexBuffer(r.vertexBuffer);
      s := Probe(StageVertexBuffer, r.vertexBuffer.ok);
      AppendAssoc(t0, o.calls, s.calls);
      h := VertexBufferHeld(h, r.vertexBuffer);
      assert Holdings() == h;
    }

    /** Render pass and framebuffers: the steps of `Init` that the swapchain's images feed. */
    method CreateOutputs(r: RenderReplies) returns (ok: bool)
      requires framebuffers.Length == FramebufferCount <= |views| && FramebufferCount <= |r.framebuffers|
      modifies this`status, this`trace, this`renderPass, framebuffers
      ensures var o := Step(Call.CreateRenderPass(WindowSurface.WantedFormat.format), r.renderPass.result)
          .Then(FramebuffersOutcome(r.renderPass.value, views, width, height, r.framebuffers));
        ok == o.ok && trace == old(trace) + o.calls
      ensures ok ==> status == Success
      ensures Holdings() == OutputsHeld(old(Holdings()), r)
      ensures status == if r.renderPass.result != Success then r.renderPass.result
        else if ok then Success else r.framebuffers[FirstFailure(r.framebuffers, FramebufferCount)].result
    {
      ghost var h := Holdings();
      ok := CreateRenderPass(r.renderPass);
      ghost var slots := h.framebuffers;
      h := h.(renderPass := r.renderPass.value);
      assert Holdings() == h;
      if !ok {
        return;
      }
      ok := CreateFramebuffers(r.framebuffers);
      h := h.(framebuffers := FramebuffersHeld(slots, r.framebuffers));
      assert framebuffers[..] == h.framebuffers;
    }

    /** Pipeline and command buffers: the steps of `Init` that drawing needs. */
    method CreateDrawState(r: RenderReplies) returns (ok: bool)
      modifies this`status, this`trace, this`pipelineLayout, this`pipelineCache
      modifies this`pipeline, this`commandPool, this`commandBuffers
      ensures var o := PipelineOutcome(r.pipelineLayout, r.pipelineCache, r.pipeline.result, renderPass)
          .Then(CommandBuffersOutcome(familyIndex, r.commandPool, r.commandBuffers.result));
        ok == o.ok && trace == old(trace) + o.calls
      ensures Holdings() == DrawStateHeld(old(Holdings()), r)
      ensures status ==
        if r.pipelineLayout.result != Success then r.pipelineLayout.result
        else if r.pipelineCache.result != Success then r.pipelineCache.result
        else if r.pipeline.result != Success then r.pipeline.result
        else if r.commandPool.result != Success then r.commandPool.result
        else r.commandBuffers.result
    {
      ghost var t0, h := trace, Holdings();
      ok := CreatePipeline(r.pipelineLayout, r.pipelineCache, r.pipeline);
      ghost var o := PipelineOutcome(r.pipelineLayout, r.pipelineCache, r.pipeline.result, renderPass);
      h := PipelineHeld(h, r.pipelineLayout, r.pipelineCache, r.pipeline);
      assert Holdings() == h;
      if !ok {
        return;
      }
      ok := CreateCommandBuffers(r.commandPool, r.commandBuffers);
      ghost var s := CommandBuffersOutcome(familyIndex, r.commandPool, r.commandBuffers.result);
      AppendAssoc(t0, o.calls, s.calls);
    }

    /** The second half of `Init`: render pass, framebuffers, pipeline, command buffers. */
    method CreateTargets(r: RenderReplies) returns (ok: bool)
      requires framebuffers.Length == FramebufferCount <= |views| && FramebufferCount <= |r.framebuffers|
      modifies this`status, this`trace, this`renderPass, framebuffers, this`pipelineLayout, this`pipelineCache
      modifies this`pipeline, this`commandPool, this`commandBuffers
      ensures var o := TargetsOutcome(familyIndex, views, width, height, r); ok == o.ok && trace == old(trace) + o.calls
      ensures ok ==> status == Success
      ensures ok ==> renderPass == r.renderPass.value
                     && framebuffers[..] == [r.framebuffers[0].value, r.framebuffers[1].value]
      ensures ok ==> pipelineLayout == r.pipelineLayout.value && pipelineCache == r.pipelineCache.value
                     && pipeline == r.pipeline.value
      ensures ok ==> commandPool == r.commandPool.value && commandBuffers == r.commandBuffers.value
      ensures Holdings() == TargetsHeld(old(Holdings()), r) && status == TargetsStatus(r)
    {
      ghost var t0 := trace;
      ok := CreateOutputs(r);
      ghost var o := Step(Call.CreateRenderPass(WindowSurface.WantedFormat.format), r.renderPass.result)
        .Then(FramebuffersOutcome(r.renderPass.value, views, width, height, r.framebuffers));
      if !ok {
        return;
      }
      ok := CreateDrawState(r);
      ghost var s := PipelineOutcome(r.pipelineLayout, r.pipelineCache, r.pipeline.result, r.renderPass.value)
        .Then(CommandBuffersOutcome(familyIndex, r.commandPool, r.commandBuffers.result));
      AppendAssoc(t0, o.calls, s.calls);
    }

    /**
     * Init: semaphores, shaders, vertex buffer, render pass, framebuffers,
     * pipeline, command buffers, each only if everything before it
     * succeeded. On success every object holds the handle its creation
     * returned.
     */
    method Init(r: RenderReplies) returns (ok: bool)
      requires framebuffers.Length == FramebufferCount <= |views| && FramebufferCount <= |r.framebuffers|
      modifies this`status, this`trace, this`renderDone, this`imageAvailable, this`presentFence
      modifies this`vertexShaderModule, this`fragmentShaderModule, this`vertexBuffer, this`vertexMemory
      modifies this`renderPass, framebuffers, this`pipelineLayout, this`pipelineCache
      modifies this`pipeline, this`commandPool, this`commandBuffers
      ensures var o := InitOutcome(familyIndex, views, width, height, r); ok == o.ok && trace == old(trace) + o.calls
      ensures ok ==> status == Success
      ensures ok ==> renderDone == r.renderDone.value && imageAvailable == r.imageAvailable.value
                     && presentFence == r.fence.value
      ensures ok ==> vertexShaderModule == r.vertexShader.handle && fragmentShaderModule == r.fragmentShader.handle
      ensures ok ==> vertexBuffer == r.vertexBuffer.handle && vertexMemory == r.vertexBuffer.memory
      ensures ok ==> renderPass == r.renderPass.value
                     && framebuffers[..] == [r.framebuffers[0].value, r.framebuffers[1].value]
      ensures ok ==> pipelineLayout == r.pipelineLayout.value && pipelineCache == r.pipelineCache.value
                     && pipeline == r.pipeline.value
      ensures ok ==> commandPool == r.commandPool.value && commandBuffers == r.commandBuffers.value
      ensures Holdings() == InitHeld(old(Holdings()), r)
      ensures status == if ResourcesOutcome(r).ok then TargetsStatus(r) else ResourcesStatus(r)
    {
      ghost var t0 := trace;
      ok := CreateResources(r);
      if !ok {
        return;
      }
      ok := CreateTargets(r);
      AppendAssoc(t0, ResourcesOutcome(r).calls, TargetsOutcome(familyIndex, views, width, height, r).calls);
    }

    /**
     * The end of `Frame`: call `waitForFences` until it answers something
     * other than a timeout (the answers are the successive entries of
     * `waits`), then reset the fence and the last command buffer.
     */
    method AwaitPresentFence(waits: seq<Result>)
      requires |commandBuffers| > 0
      requires FirstNonTimeout(waits) < |waits|
      modifies this`trace
      ensures trace == old(trace) + FenceCalls(Resources(), waits)
    {
      ghost var last := FirstNonTimeout(waits);
      ghost var t0 := trace;
      var w := 0;
      var result := waits[0];
      trace := trace + [WaitForFence(presentFence, result)];
      while result == Timeout
        invariant 0 <= w <= last
        invariant result == waits[w]
        invariant trace == t0 + FenceWaits(presentFence, waits, w + 1)
        decreases last - w
      {
        w := w + 1;
        result := waits[w];
        trace := trace + [WaitForFence(presentFence, result)];
      }
      trace := trace + [ResetFence(presentFence), ResetCommandBuffer(commandBuffers[|commandBuffers| - 1])];
      AppendAssoc(t0, FenceWaits(presentFence, waits, last + 1),
                  [ResetFence(presentFence), ResetCommandBuffer(commandBuffers[|commandBuffers| - 1])]);
    }

    /**
     * The recording part of `Frame`: begin the last command buffer, record
     * the render pass into framebuffer `currentFrameBuffer`, end the buffer.
     */
    method RecordDraw(r: FrameReplies) returns (ok: bool)
      requires |commandBuffers| > 0 && currentFrameBuffer < framebuffers.Length
      modifies this`trace
      ensures ok == (r.begin == Success && r.end == Success)
      ensures trace == old(trace) + RecordCalls(Resources(), currentFrameBuffer, r.begin)
    {
      var cb := commandBuffers[|commandBuffers| - 1];
      trace := trace + [BeginCommandBuffer(cb)];
      if r.begin != Success {
        return false;
      }
      trace := trace + [ CmdBeginRenderPass(renderPass, framebuffers[currentFrameBuffer], width, height),
                         CmdBindPipeline(pipeline),
                         CmdBindVertexBuffer(vertexBuffer, 0),
                         CmdDraw(6, 1, 0, 0),
                         CmdEndRenderPass ];
      trace := trace + [EndCommandBuffer(cb)];
      return r.end == Success;
    }

    /** The queue part of `Frame`: submit the command buffers, then present image `currentFrameBuffer`. */
    method SubmitAndPresent(r: FrameReplies) returns (ok: bool)
      modifies this`trace
      ensures ok == (r.submit == Success && r.present == Success)
      ensures trace == old(trace) + QueueCalls(Resources(), currentFrameBuffer, r.submit)
    {
      trace := trace + [QueueSubmit(commandBuffers, imageAvailable, ColorAttachmentOutput, renderDone, presentFence)];
      if r.submit != Success {
        return false;
      }
      trace := trace + [QueuePresent(renderDone, swapchain, currentFrameBuffer)];
      return r.present == Success;
    }

    /**
     * Frame: acquire a swapchain image, record the draw into the last
     * command buffer, submit, present, then wait for the fence and reset it
     * and the command buffer. The acquired index is kept whatever the result.
     */
    method Frame(r: FrameReplies) returns (ok: bool)
      requires r.acquire.result == Success ==> |commandBuffers| > 0 && r.acquire.value < framebuffers.Length
      requires FirstNonTimeout(r.waits) < |r.waits|
      modifies this`status, this`currentFrameBuffer, this`trace
      ensures ok == FrameSucceeds(r) && trace == old(trace) + FrameCalls(Resources(), r)
      ensures status == r.acquire.result && currentFrameBuffer == r.acquire.value
    {
      ghost var t0 := trace;
      status, currentFrameBuffer := r.acquire.result, r.acquire.value;
      ghost var expected := [AcquireNextImage(swapchain, imageAvailable)];
      trace := trace + expected;
      if status != Success {
        return false;
      }
      ok := RecordDraw(r);
      ghost var more := RecordCalls(Resources(), currentFrameBuffer, r.begin);
      AppendAssoc(t0, expected, more);
      expected := expected + more;
      if !ok {
        return;
      }
      ok := SubmitAndPresent(r);
      more := QueueCalls(Resources(), currentFrameBuffer, r.submit);
      AppendAssoc(t0, expected, more);
      expected := expected + more;
      if !ok {
        return;
      }
      AwaitPresentFence(r.waits);
      AppendAssoc(t0, expected, FenceCalls(Resources(), r.waits));
      return true;
    }

    /**
     * The renderer's part of `Compositor::Init` and of `main`'s loop, with
     * `Init`'s result checked: frames are drawn, one per entry of `frames`,
     * only after `Init` succeeded, and then always with a command buffer.
     */
    method Run(r: RenderReplies, frames: seq<FrameReplies>) returns (ok: bool)
      requires framebuffers.Length == FramebufferCount <= |views| && FramebufferCount <= |r.framebuffers|
      requires r.commandBuffers.result == Success ==> |r.commandBuffers.value| == 1
      requires AllPlayable(FramebufferCount, 1, frames)
      modifies this`status, this`trace, this`renderDone, this`imageAvailable, this`presentFence
      modifies this`vertexShaderModule, this`fragmentShaderModule, this`vertexBuffer, this`vertexMemory
      modifies this`renderPass, framebuffers, this`pipelineLayout, this`pipelineCache
      modifies this`pipeline, this`commandPool, this`commandBuffers, this`currentFrameBuffer
      ensures var init := InitOutcome(familyIndex, views, width, height, r);
        ok == init.ok && (!ok ==> trace == old(trace) + init.calls)
      ensures ok ==> |commandBuffers| == 1
      ensures ok ==> trace == old(trace) + InitOutcome(familyIndex, views, width, height, r).calls
                              + FramesCalls(Resources(), frames, |frames|)
    {
      ok := Init(r);
      if !ok {
        return;
      }
      DrawFrames(frames);
    }

    /** `main`'s loop: one `Frame` per entry of `frames`, whatever each frame's result. */
    method DrawFrames(frames: seq<FrameReplies>)
      requires AllPlayable(framebuffers.Length, |commandBuffers|, frames)
      modifies this`status, this`currentFrameBuffer, this`trace
      ensures trace == old(trace) + FramesCalls(Resources(), frames, |frames|)
    {
      ghost var t0, res := trace, Resources();
      assert AllPlayable(|res.framebuffers|, |res.commandBuffers|, frames);
      var i := 0;
      while i < |frames|
        invariant 0 <= i <= |frames|
        invariant Resources() == res
        invariant trace == t0 + FramesCalls(res, frames, i)
      {
        DrawNext(frames, i, t0, res);
        i := i + 1;
      }
    }

    /** One turn of `main`'s loop: frame `i` of `frames`, after the first `i`. */
    method DrawNext(frames: seq<FrameReplies>, i: nat, ghost t0: seq<Call>, ghost res: FrameResources)
      requires i < |frames| && AllPlayable(|res.framebuffers|, |res.commandBuffers|, frames)
      requires Resources() == res && trace == t0 + FramesCalls(res, frames, i)
      modifies this`status, this`currentFrameBuffer, this`trace
      ensures Resources() == res && trace == t0 + FramesCalls(res, frames, i + 1)
    {
      FramesCallsNext(res, frames, i);
      RenderFrame(frames[i], res);
      AppendAssoc(t0, FramesCalls(res, frames, i), FrameCalls(res, frames[i]));
    }

    /** `Compositor::RenderFrame` without its GLFW calls: one `Frame` on the handles `res` the renderer holds. */
    method RenderFrame(f: FrameReplies, ghost res: FrameResources)
      requires Resources() == res && Playable(|res.framebuffers|, |res.commandBuffers|, f)
      modifies this`status, this`currentFrameBuffer, this`trace
      ensures Resources() == res
      ensures trace == old(trace) + FrameCalls(res, f)
    {
      var drawn := Frame(f);
    }

    /** The handles `Shutdown` finds, as they are now. */
    function Holdings(): Owned
      reads this`presentFence, this`commandPool, this`commandBuffers, this`imageAvailable, this`renderDone
      reads this`vertexShaderModule, this`fragmentShaderModule, this`vertexBuffer, this`vertexMemory
      reads this`renderPass, framebuffers, this`pipeline, this`pipelineCache, this`pipelineLayout
    {
      Owned(presentFence, commandPool, commandBuffers, imageAvailable, renderDone,
            vertexShaderModule, fragmentShaderModule, vertexBuffer, vertexMemory,
            renderPass, framebuffers[..], pipeline, pipelineCache, pipelineLayout)
    }

    /** First block of Shutdown: fence, command buffers, pool, semaphores. */
    method ReleaseSync()
      modifies this`teardown
      ensures teardown == old(teardown) + SyncTeardown(Holdings())
    {
      ghost var t0 := teardown;
      ghost var expected := Guarded(FenceObject, presentFence);
      teardown := teardown + expected;
      ghost var more := FreeCalls(commandPool, commandBuffers);
      if IsValid(commandPool) {
        teardown := teardown + [FreeCommandBuffers(commandPool, commandBuffers)];
      }
      AppendAssoc(t0, expected, more);
      expected := expected + more;
      more := Guarded(CommandPoolObject, commandPool);
      teardown := teardown + more;
      AppendAssoc(t0, expected, more);
      expected := expected + more;
      more := Guarded(SemaphoreObject, imageAvailable);
      teardown := teardown + more;
      AppendAssoc(t0, expected, more);
      expected := expected + more;
      more := Guarded(SemaphoreObject, renderDone);
      teardown := teardown + more;
      AppendAssoc(t0, expected, more);
    }

    /** Second block of Shutdown: shader modules, vertex buffer, its memory. */
    method ReleaseResources()
      modifies this`teardown
      ensures teardown == old(teardown) + ResourceTeardown(Holdings())
    {
      ghost var t0 := teardown;
      ghost var expected := Guarded(ShaderModuleObject, vertexShaderModule);
      teardown := teardown + expected;
      ghost var more := Guarded(ShaderModuleObject, fragmentShaderModule);
      teardown := teardown + more;
      AppendAssoc(t0, expected, more);
      expected := expected + more;
      more := Guarded(BufferObject, vertexBuffer);
      teardown := teardown + more;
      AppendAssoc(t0, expected, more);
      expected := expected + more;
      more := Guarded(MemoryObject, vertexMemory);
      teardown := teardown + more;
      AppendAssoc(t0, expected, more);
    }

    /** The framebuffer loop of Shutdown: each valid framebuffer destroyed, in index order. */
    method ReleaseFramebuffers()
      modifies this`teardown
      ensures teardown == old(teardown) + GuardedAll(FramebufferObject, framebuffers[..])
    {
      var i := 0;
      while i < framebuffers.Length
        invariant 0 <= i <= framebuffers.Length
        invariant teardown == old(teardown) + GuardedAll(FramebufferObject, framebuffers[..i])
      {
        assert framebuffers[..i + 1][..i] == framebuffers[..i];
        AppendAssoc(old(teardown), GuardedAll(FramebufferObject, framebuffers[..i]), Guarded(FramebufferObject, framebuffers[i]));
        teardown := teardown + Guarded(FramebufferObject, framebuffers[i]);
        i := i + 1;
      }
      assert framebuffers[..i] == framebuffers[..];
    }

    /** Third block of Shutdown: render pass, each framebuffer in turn, pipeline, cache, layout. */
    method ReleaseTargets()
      modifies this`teardown
      ensures teardown == old(teardown) + TargetTeardown(Holdings())
    {
      ghost var t0 := teardown;
      ghost var expected := Guarded(RenderPassObject, renderPass);
      teardown := teardown + expected;
      ReleaseFramebuffers();
      ghost var more := GuardedAll(FramebufferObject, framebuffers[..]);
      AppendAssoc(t0, expected, more);
      expected := expected + more;
      more := PipelineTeardown(Holdings());
      teardown := teardown
        + (Guarded(PipelineObject, pipeline) + Guarded(PipelineCacheObject, pipelineCache)
           + Guarded(PipelineLayoutObject, pipelineLayout));
      AppendAssoc(t0, expected, more);
    }

    /**
     * Shutdown: wait for the device to go idle, then free and destroy every
     * valid handle in the order of `ShutdownCalls`.
     */
    method Shutdown()
      modifies this`teardown
      ensures teardown == old(teardown) + ShutdownCalls(Holdings())
    {
      ghost var t0 := teardown;
      ghost var expected := [WaitIdle];
      teardown := teardown + expected;
      ReleaseSync();
      AppendAssoc(t0, expected, SyncTeardown(Holdings()));
      expected := expected + SyncTeardown(Holdings());
      ReleaseResources();
      AppendAssoc(t0, expected, ResourceTeardown(Holdings()));
      expected := expected + ResourceTeardown(Holdings());
      ReleaseTargets();
      AppendAssoc(t0, expected, TargetTeardown(Holdings()));
    }
  }
}
