/**
 * sources/Window.cpp: the `Window` object — surface, swapchain checks and
 * creation, one image view per swapchain image, and the ordered teardown.
 */
module WindowSurface {
  import opened Vk

  /** One entry of a `Window`'s call log: a GLFW or Vulkan call and the arguments the model tracks. */
  datatype Call =
    | CreateSurface
    | GetSurfaceCapabilities
    | GetSurfaceFormats
    | GetSurfacePresentModes
    | CreateSwapchain(info: SwapchainCreateInfo)
    | GetSwapchainImages(swapchain: Handle)
    | CreateImageView(image: Handle, format: Format)

  /** `swapchainImageCount`: double buffering. */
  const SwapchainImageCount: nat := 2

  /** The one surface format the compositor accepts. */
  const WantedFormat: SurfaceFormat := SurfaceFormat(B8G8R8A8Unorm, SrgbNonlinear)

  /** `Image`: an image, its memory and its view (swapchain images own no memory). */
  datatype Image = Image(image: Handle, memory: Handle, view: Handle)

  /** The fields of `VkSurfaceCapabilitiesKHR` the window reads (and `minImageCount`, which it does not). */
  datatype SurfaceCapabilities = SurfaceCapabilities(minImageCount: nat, maxImageCount: nat, supportedCompositeAlpha: bv32)

  /** `Window::SurfaceData`. */
  datatype SurfaceData = SurfaceData(
    capabilities: SurfaceCapabilities,
    imageFormats: seq<SurfaceFormat>,
    presentModes: seq<PresentMode>)

  /** The answers of the three surface queries of `GetSurfaceData`. */
  datatype SurfaceReplies = SurfaceReplies(
    capabilities: Reply<SurfaceCapabilities>,
    formats: Reply<seq<SurfaceFormat>>,
    presentModes: Reply<seq<PresentMode>>)

  /** Capabilities, then formats, then present modes; the first failing query ends the fetch. */
  function SurfaceQueriesOutcome(r: SurfaceReplies): (o: Outcome<Call>)
    ensures o.ok <==> r.capabilities.result == Success && r.formats.result == Success && r.presentModes.result == Success
    ensures PrefixRun(o, [GetSurfaceCapabilities, GetSurfaceFormats, GetSurfacePresentModes])
  {
    Step(GetSurfaceCapabilities, r.capabilities.result).Then(
      Step(GetSurfaceFormats, r.formats.result).Then(
        Step(GetSurfacePresentModes, r.presentModes.result)))
  }

  /** The status `GetSurfaceData` leaves: the result of the last query it made. */
  function SurfaceQueriesStatus(r: SurfaceReplies): (s: Result)
    ensures s == Success <==> SurfaceQueriesOutcome(r).ok
  {
    if r.capabilities.result != Success then r.capabilities.result
    else if r.formats.result != Success then r.formats.result
    else r.presentModes.result
  }

  /** The data a successful fetch hands back. */
  function FetchedData(r: SurfaceReplies): SurfaceData {
    SurfaceData(r.capabilities.value, r.formats.value, r.presentModes.value)
  }

  /** `std::find`: the first index of `s` holding `x`, or `|s|` when none does. */
  function IndexOf<T(==)>(s: seq<T>, x: T): (k: nat)
    ensures k <= |s|
    ensures k < |s| ==> s[k] == x
    ensures forall j :: 0 <= j < k ==> s[j] != x
    ensures k == |s| <==> x !in s
  {
    if |s| == 0 then 0
    else if s[0] == x then 0
    else 1 + IndexOf(s[1..], x)
  }

  /** Why `CreateSwapchain` rejects a surface, or that it accepts it. */
  datatype SurfaceCheck = SurfaceAccepted | NoOpaqueAlpha | TooFewImages | FormatMissing | FifoMissing

  /**
   * The checks of `CreateSwapchain` on the fetched data, in source order;
   * the first that fails names the rejection.
   */
  function CheckSurface(data: SurfaceData): (c: SurfaceCheck)
    ensures c == SurfaceAccepted <==>
      && data.capabilities.supportedCompositeAlpha & CompositeAlphaOpaqueBit != 0
      && data.capabilities.maxImageCount >= SwapchainImageCount
      && WantedFormat in data.imageFormats
      && Fifo in data.presentModes
    ensures c == NoOpaqueAlpha <==> data.capabilities.supportedCompositeAlpha & CompositeAlphaOpaqueBit == 0
    ensures c == TooFewImages <==>
      && data.capabilities.supportedCompositeAlpha & CompositeAlphaOpaqueBit != 0
      && data.capabilities.maxImageCount < SwapchainImageCount
    ensures c == FormatMissing <==>
      && data.capabilities.supportedCompositeAlpha & CompositeAlphaOpaqueBit != 0
      && data.capabilities.maxImageCount >= SwapchainImageCount
      && WantedFormat !in data.imageFormats
    ensures c == FifoMissing <==>
      && data.capabilities.supportedCompositeAlpha & CompositeAlphaOpaqueBit != 0
      && data.capabilities.maxImageCount >= SwapchainImageCount
      && WantedFormat in data.imageFormats
      && Fifo !in data.presentModes
  {
    if data.capabilities.supportedCompositeAlpha & CompositeAlphaOpaqueBit == 0 then NoOpaqueAlpha
    else if data.capabilities.maxImageCount < SwapchainImageCount then TooFewImages
    else if IndexOf(data.imageFormats, WantedFormat) == |data.imageFormats| then FormatMissing
    else if IndexOf(data.presentModes, Fifo) == |data.presentModes| then FifoMissing
    else SurfaceAccepted
  }

  /** The only image-count check is against the maximum: the minimum the surface reports plays no part. */
  lemma CheckSurfaceIgnoresMinImageCount(data: SurfaceData, minImageCount: nat)
    ensures CheckSurface(data.(capabilities := data.capabilities.(minImageCount := minImageCount))) == CheckSurface(data)
  {
    var other := data.(capabilities := data.capabilities.(minImageCount := minImageCount));
    assert other.imageFormats == data.imageFormats && other.presentModes == data.presentModes;
  }

  /** The `VkSwapchainCreateInfoKHR` of `CreateSwapchain`. */
  function SwapchainRequest(surface: Handle, width: nat, height: nat, familyIndex: nat): (info: SwapchainCreateInfo)
    ensures SurfaceFormat(info.imageFormat, info.imageColorSpace) == WantedFormat && info.presentMode == Fifo
    ensures info.surface == surface && info.extentWidth == width && info.extentHeight == height
    ensures info.sharingMode == Exclusive && info.queueFamilyIndices == [familyIndex]
  {
    SwapchainCreateInfo(
      surface := surface,
      minImageCount := SwapchainImageCount,
      imageFormat := WantedFormat.format,
      imageColorSpace := WantedFormat.colorSpace,
      extentWidth := width,
      extentHeight := height,
      imageArrayLayers := 1,
      imageUsage := ImageUsageColorAttachmentBit,
      sharingMode := Exclusive,
      queueFamilyIndices := [familyIndex],
      preTransform := Identity,
      compositeAlpha := CompositeAlphaOpaqueBit,
      presentMode := Fifo,
      clipped := true)
  }

  /**
   * The swapchain request asks only for what an accepted surface offers:
   * its format and present mode were reported, opaque alpha is supported and
   * two images are within the maximum; it is double-buffered, exclusive to
   * the device's one queue family and untransformed.
   */
  lemma AcceptedSurfaceSupportsRequest(data: SurfaceData, surface: Handle, width: nat, height: nat, familyIndex: nat)
    requires CheckSurface(data) == SurfaceAccepted
    ensures var info := SwapchainRequest(surface, width, height, familyIndex);
      && SurfaceFormat(info.imageFormat, info.imageColorSpace) in data.imageFormats
      && info.presentMode in data.presentModes
      && info.compositeAlpha & data.capabilities.supportedCompositeAlpha != 0
      && info.minImageCount <= data.capabilities.maxImageCount
      && info.minImageCount == 2 && info.sharingMode == Exclusive && info.queueFamilyIndices == [familyIndex]
      && info.preTransform == Identity && info.extentWidth == width && info.extentHeight == height
  {
    var info := SwapchainRequest(surface, width, height, familyIndex);
    assert SurfaceFormat(info.imageFormat, info.imageColorSpace) == WantedFormat;
  }

  /** `CreateSwapchain`: fetch the surface data, check it, then create the swapchain. */
  function SwapchainOutcome(info: SwapchainCreateInfo, r: SurfaceReplies, created: Result): (o: Outcome<Call>)
    ensures o.ok <==> SurfaceQueriesOutcome(r).ok && CheckSurface(FetchedData(r)) == SurfaceAccepted && created == Success
    ensures PrefixRun(o, [GetSurfaceCapabilities, GetSurfaceFormats, GetSurfacePresentModes, CreateSwapchain(info)])
  {
    SurfaceQueriesOutcome(r).Then(
      Check(CheckSurface(FetchedData(r)) == SurfaceAccepted).Then(
        Step(CreateSwapchain(info), created)))
  }

  /** The status `CreateSwapchain` leaves: "initialization failed" for a failed fetch or check, else the creation's result. */
  function SwapchainStatus(r: SurfaceReplies, created: Result): Result {
    if !SurfaceQueriesOutcome(r).ok || CheckSurface(FetchedData(r)) != SurfaceAccepted then ErrorInitializationFailed
    else created
  }

  /**
   * A swapchain is created only for an accepted surface, and then exactly
   * after the three queries; a rejected surface makes no creation call.
   */
  lemma SwapchainCreatedOnlyWhenAccepted(info: SwapchainCreateInfo, r: SurfaceReplies, created: Result)
    ensures var o := SwapchainOutcome(info, r, created);
      && (o.ok <==> SurfaceQueriesOutcome(r).ok && CheckSurface(FetchedData(r)) == SurfaceAccepted && created == Success)
      && (CreateSwapchain(info) in o.calls <==> SurfaceQueriesOutcome(r).ok && CheckSurface(FetchedData(r)) == SurfaceAccepted)
      && (CreateSwapchain(info) in o.calls ==>
            o.calls == [GetSurfaceCapabilities, GetSurfaceFormats, GetSurfacePresentModes, CreateSwapchain(info)])
      && (o.ok <==> SwapchainStatus(r, created) == Success)
  {
    var q := SurfaceQueriesOutcome(r);
    assert CreateSwapchain(info) !in q.calls;
  }

  // ---------------------------------------------------------------------
  // Image views
  // ---------------------------------------------------------------------

  /** One `createImageView` step per swapchain image, for the first `n` images. */
  function ViewSteps(images: seq<Handle>, views: seq<Reply<Handle>>, format: Format, n: nat): (steps: seq<Outcome<Call>>)
    requires n <= |images| && n <= |views|
    ensures |steps| == n
  {
    if n == 0 then []
    else ViewSteps(images, views, format, n - 1) + [Step(CreateImageView(images[n - 1], format), views[n - 1].result)]
  }

  /** `CreateSwapchainImageViews`: fetch the images, then create their views in index order. */
  function ImageViewsOutcome(swapchain: Handle, images: Reply<seq<Handle>>, views: seq<Reply<Handle>>, format: Format): (o: Outcome<Call>)
    requires |images.value| <= |views|
    ensures o.ok <==> images.result == Success && FirstFailure(views, |images.value|) == |images.value|
    ensures PrefixRun(o, [GetSwapchainImages(swapchain)] + ViewCalls(images.value, format, |images.value|))
  {
    var n := |images.value|;
    ViewStepsChain(images.value, views, format, n);
    ViewCallsPrefix(images.value, format, Attempted(views, n), n);
    ThenPrefixRun(Step(GetSwapchainImages(swapchain), images.result), [GetSwapchainImages(swapchain)],
                  Chain(ViewSteps(images.value, views, format, n)), ViewCalls(images.value, format, n));
    Step(GetSwapchainImages(swapchain), images.result).Then(
      Chain(ViewSteps(images.value, views, format, |images.value|)))
  }

  /** The `createImageView` calls for the first `m` images, in index order. */
  function ViewCalls(images: seq<Handle>, format: Format, m: nat): (calls: seq<Call>)
    requires m <= |images|
    ensures |calls| == m
    ensures forall k :: 0 <= k < m ==> calls[k] == CreateImageView(images[k], format)
  {
    if m == 0 then [] else ViewCalls(images, format, m - 1) + [CreateImageView(images[m - 1], format)]
  }

  /** Fewer views make a prefix of the calls of more. */
  lemma ViewCallsPrefix(images: seq<Handle>, format: Format, m: nat, n: nat)
    requires m <= n <= |images|
    ensures ViewCalls(images, format, m) <= ViewCalls(images, format, n)
  {
    assert ViewCalls(images, format, m) == ViewCalls(images, format, n)[..m];
  }

  /**
   * The view chain in closed form: it succeeds exactly when no view fails,
   * and it creates the views of images 0, 1, ... in order up to and
   * including the first failure, and no more.
   */
  lemma {:induction false} ViewStepsChain(images: seq<Handle>, views: seq<Reply<Handle>>, format: Format, n: nat)
    requires n <= |images| && n <= |views|
    ensures Chain(ViewSteps(images, views, format, n)) ==
      Outcome(FirstFailure(views, n) == n, ViewCalls(images, format, Attempted(views, n)))
  {
    if n > 0 {
      var call := CreateImageView(images[n - 1], format);
      var prefix := ViewSteps(images, views, format, n - 1);
      var s := Step(call, views[n - 1].result);
      assert ViewSteps(images, views, format, n) == prefix + [s];
      ViewStepsChain(images, views, format, n - 1);
      ChainSnoc(prefix, s);
      var before := Chain(prefix);
      var j := FirstFailure(views, n - 1);
      if j < n - 1 {
        assert !before.ok;
        assert FirstFailure(views, n) == j;
        assert Attempted(views, n) == Attempted(views, n - 1);
      } else {
        assert before.ok && before.calls == ViewCalls(images, format, n - 1);
        assert Attempted(views, n) == n;
        assert ViewCalls(images, format, n) == before.calls + [call];
        assert s.ok == (FirstFailure(views, n) == n);
      }
    }
  }

  /** The first `m` of `slots` after the view loop recorded image `k` and its view in slot `k`. */
  function Recorded(slots: seq<Image>, images: seq<Handle>, views: seq<Reply<Handle>>, m: nat): (r: seq<Image>)
    requires m <= |slots| && m <= |images| && m <= |views|
    ensures |r| == |slots|
    ensures forall k :: 0 <= k < m ==> r[k] == slots[k].(image := images[k], view := views[k].value)
    ensures forall k :: m <= k < |slots| ==> r[k] == slots[k]
  {
    if m == 0 then slots
    else Recorded(slots, images, views, m - 1)[m - 1 := slots[m - 1].(image := images[m - 1], view := views[m - 1].value)]
  }

  /** The status `CreateSwapchainImageViews` leaves: the result of the last call it made. */
  function ImageViewsStatus(images: Reply<seq<Handle>>, views: seq<Reply<Handle>>): (s: Result)
    requires |images.value| <= |views|
  {
    if images.result != Success then images.result
    else
      var j := FirstFailure(views, |images.value|);
      if j < |images.value| then views[j].result else Success
  }

  /**
   * `CreateSwapchainImageViews` succeeds exactly when the images are fetched
   * and every view is created, and then leaves status "success"; it makes one
   * view per image, in index order, up to and including the first failure.
   */
  lemma ImageViewsCalls(swapchain: Handle, images: Reply<seq<Handle>>, views: seq<Reply<Handle>>, format: Format)
    requires |images.value| <= |views|
    ensures var o := ImageViewsOutcome(swapchain, images, views, format);
      && (o.ok <==> images.result == Success && forall k :: 0 <= k < |images.value| ==> views[k].result == Success)
      && (o.ok <==> ImageViewsStatus(images, views) == Success)
      && (images.result != Success ==> o.calls == [GetSwapchainImages(swapchain)])
      && (images.result == Success ==>
            o.calls == [GetSwapchainImages(swapchain)] + ViewCalls(images.value, format, Attempted(views, |images.value|)))
  {
    ViewStepsChain(images.value, views, format, |images.value|);
  }

  /** After a successful fetch, the image-view outcome in closed form. */
  lemma ImageViewsFetched(swapchain: Handle, images: Reply<seq<Handle>>, views: seq<Reply<Handle>>, format: Format)
    requires |images.value| <= |views| && images.result == Success
    ensures ImageViewsOutcome(swapchain, images, views, format) ==
      Outcome(FirstFailure(views, |images.value|) == |images.value|,
              [GetSwapchainImages(swapchain)] + ViewCalls(images.value, format, Attempted(views, |images.value|)))
  {
    ViewStepsChain(images.value, views, format, |images.value|);
  }

  /** The views of a run of images, in order. */
  function ViewsOf(images: seq<Image>): (hs: seq<Handle>)
    ensures |hs| == |images|
    ensures forall k :: 0 <= k < |images| ==> hs[k] == images[k].view
  {
    if |images| == 0 then [] else ViewsOf(images[..|images| - 1]) + [images[|images| - 1].view]
  }

  /** The teardown of the first `i + 1` images is that of the first `i`, then image `i`'s view. */
  lemma ViewTeardownStep(images: seq<Image>, i: nat)
    requires i < |images|
    ensures GuardedAll(ImageViewObject, ViewsOf(images[..i + 1])) ==
      GuardedAll(ImageViewObject, ViewsOf(images[..i])) + Guarded(ImageViewObject, images[i].view)
  {
    assert images[..i + 1][..i] == images[..i];
    assert ViewsOf(images[..i + 1]) == ViewsOf(images[..i]) + [images[i].view];
    GuardedAllSnoc(ImageViewObject, ViewsOf(images[..i]), images[i].view);
  }

  /** The teardown of `Window::Shutdown`: every valid view, then the swapchain if valid. */
  function ShutdownCalls(images: seq<Image>, swapchain: Handle): (t: seq<Teardown>)
    ensures |t| <= |images| + 1
  {
    GuardedAll(ImageViewObject, ViewsOf(images)) + Guarded(SwapchainObject, swapchain)
  }

  /**
   * `Window::Shutdown` destroys exactly the valid views and the swapchain if
   * valid, and every view before the swapchain.
   */
  lemma ShutdownDestroysViewsFirst(images: seq<Image>, swapchain: Handle)
    ensures var calls := ShutdownCalls(images, swapchain);
      && (Destroy(SwapchainObject, swapchain) in calls <==> IsValid(swapchain))
      && forall k :: 0 <= k < |images| && IsValid(images[k].view) ==>
           && Destroy(ImageViewObject, images[k].view) in calls
           && Before(calls, Destroy(ImageViewObject, images[k].view), Destroy(SwapchainObject, swapchain))
  {
    var front := GuardedAll(ImageViewObject, ViewsOf(images));
    var back := Guarded(SwapchainObject, swapchain);
    assert Destroy(SwapchainObject, swapchain) !in front;
    forall k | 0 <= k < |images| && IsValid(images[k].view)
      ensures Destroy(ImageViewObject, images[k].view) in front + back
      ensures Before(front + back, Destroy(ImageViewObject, images[k].view), Destroy(SwapchainObject, swapchain))
    {
      GuardedAllDestroysValid(ImageViewObject, ViewsOf(images), images[k].view);
      BeforeAcross(front, back, Destroy(ImageViewObject, images[k].view), Destroy(SwapchainObject, swapchain));
    }
  }

  /** `CreateSurface` as one opaque step: the surface is created and the device's family can present to it. */
  function SurfaceOutcome(created: Result, support: Reply<bool>): Outcome<Call> {
    Probe(Call.CreateSurface, created == Success && support.result == Success && support.value)
  }

  /** What GLFW and the driver answer during `Window::Init`. */
  datatype WindowReplies = WindowReplies(
    surface: Reply<Handle>,
    support: Reply<bool>,
    surfaceData: SurfaceReplies,
    swapchain: Reply<Handle>,
    images: Reply<seq<Handle>>,
    views: seq<Reply<Handle>>)

  /** `Init`: the three steps joined by `&&`. */
  function InitSteps(familyIndex: nat, width: nat, height: nat, r: WindowReplies): seq<Outcome<Call>>
    requires |r.images.value| <= |r.views|
  {
    [ SurfaceOutcome(r.surface.result, r.support),
      SwapchainOutcome(SwapchainRequest(r.surface.value, width, height, familyIndex), r.surfaceData, r.swapchain.result),
      ImageViewsOutcome(r.swapchain.value, r.images, r.views, WantedFormat.format) ]
  }

  /**
   * `Window::Init` succeeds exactly when the surface is created and can
   * present, the surface data is fetched and accepted, the swapchain is
   * created, and every image view is created.
   */
  lemma InitSucceedsIff(familyIndex: nat, width: nat, height: nat, r: WindowReplies)
    requires |r.images.value| <= |r.views|
    ensures Chain(InitSteps(familyIndex, width, height, r)).ok <==>
      && r.surface.result == Success && r.support.result == Success && r.support.value
      && SurfaceQueriesOutcome(r.surfaceData).ok && CheckSurface(FetchedData(r.surfaceData)) == SurfaceAccepted
      && r.swapchain.result == Success
      && r.images.result == Success && forall k :: 0 <= k < |r.images.value| ==> r.views[k].result == Success
  {
    var steps := InitSteps(familyIndex, width, height, r);
    ChainSucceedsIffAllSteps(steps);
    ImageViewsCalls(r.swapchain.value, r.images, r.views, WantedFormat.format);
    assert steps[2] == ImageViewsOutcome(r.swapchain.value, r.images, r.views, WantedFormat.format);
  }

  class Window {
    /** The queue family of the device's queue (`device.queue.familyIndex`). */
    const familyIndex: nat
    const width: nat
    const height: nat
    /** `swapchainImages`: a fixed array of `SwapchainImageCount` entries. */
    const swapchainImages: array<Image>
    var status: Result
    var surface: Handle
    var swapchain: Handle
    /** The calls this object has made, oldest first. */
    ghost var trace: seq<Call>
    /** The destroy calls of its teardown, oldest first. */
    ghost var teardown: seq<Teardown>

    /** The constructor: a 640×640 window on the device's queue family, status "initialization failed". */
    constructor (familyIndex: nat)
      ensures this.familyIndex == familyIndex && width == 640 && height == 640
      ensures swapchainImages.Length == SwapchainImageCount && fresh(swapchainImages)
      ensures forall k :: 0 <= k < swapchainImages.Length ==> swapchainImages[k] == Image(NullHandle, NullHandle, NullHandle)
      ensures status == ErrorInitializationFailed && surface == NullHandle && swapchain == NullHandle
      ensures trace == [] && teardown == []
    {
      this.familyIndex := familyIndex;
      width, height := 640, 640;
      swapchainImages := new Image[SwapchainImageCount](_ => Image(NullHandle, NullHandle, NullHandle));
      status := ErrorInitializationFailed;
      surface, swapchain := NullHandle, NullHandle;
      trace, teardown := [], [];
    }

    /**
     * CreateSurface, as one opaque step: the GLFW window and surface are
     * created, then the device's family is asked whether it can present to
     * the surface; both must succeed.
     */
    method CreateSurface(created: Reply<Handle>, support: Reply<bool>) returns (ok: bool)
      modifies this
      ensures ok == (created.result == Success && support.result == Success && support.value)
      ensures trace == old(trace) + [Call.CreateSurface]
      ensures surface == (if created.result == Success then created.value else old(surface))
      ensures status == (if created.result == Success then support.result else old(status))
      ensures swapchain == old(swapchain)
    {
      trace := trace + [Call.CreateSurface];
      if created.result != Success {
        return false;
      }
      surface := created.value;
      status := support.result;
      ok := status == Success && support.value;
    }

    /** GetSurfaceData: capabilities, then formats, then present modes, stopping at the first failure. */
    method GetSurfaceData(r: SurfaceReplies) returns (ok: bool, data: SurfaceData)
      modifies this`status, this`trace
      ensures var o := SurfaceQueriesOutcome(r); ok == o.ok && trace == old(trace) + o.calls
      ensures status == SurfaceQueriesStatus(r)
      ensures ok ==> data == FetchedData(r)
    {
      data := SurfaceData(SurfaceCapabilities(0, 0, 0), [], []);
      trace := trace + [GetSurfaceCapabilities];
      status, data := r.capabilities.result, data.(capabilities := r.capabilities.value);
      if status != Success {
        return false, data;
      }
      trace := trace + [GetSurfaceFormats];
      status, data := r.formats.result, data.(imageFormats := r.formats.value);
      if status != Success {
        return false, data;
      }
      trace := trace + [GetSurfacePresentModes];
      status, data := r.presentModes.result, data.(presentModes := r.presentModes.value);
      if status != Success {
        return false, data;
      }
      return true, data;
    }

    /**
     * CreateSwapchain: a failed fetch or a failed check sets "initialization
     * failed" and creates nothing; otherwise the swapchain is created from
     * `SwapchainRequest` and its result kept.
     */
    method CreateSwapchain(r: SurfaceReplies, created: Reply<Handle>) returns (ok: bool)
      modifies this
      ensures var o := SwapchainOutcome(SwapchainRequest(surface, width, height, familyIndex), r, created.result);
        ok == o.ok && trace == old(trace) + o.calls
      ensures status == SwapchainStatus(r, created.result)
      ensures swapchain == (if SurfaceQueriesOutcome(r).ok && CheckSurface(FetchedData(r)) == SurfaceAccepted
                            then created.value else old(swapchain))
      ensures surface == old(surface)
    {
      var fetched, data := GetSurfaceData(r);
      if !fetched {
        status := ErrorInitializationFailed;
        return false;
      }
      if CheckSurface(data) != SurfaceAccepted {
        status := ErrorInitializationFailed;
        return false;
      }
      var info := SwapchainRequest(surface, width, height, familyIndex);
      trace := trace + [Call.CreateSwapchain(info)];
      status, swapchain := created.result, created.value;
      ok := status == Success;
    }

    /** One iteration of the view loop: record image `i` and create its view. */
    method CreateImageView(i: nat, image: Handle, view: Reply<Handle>) returns (ok: bool)
      requires i < swapchainImages.Length
      modifies this`status, this`trace, swapchainImages
      ensures swapchainImages[..] == old(swapchainImages[..])[i := old(swapchainImages[i]).(image := image, view := view.value)]
      ensures trace == old(trace) + [Call.CreateImageView(image, WantedFormat.format)]
      ensures status == view.result && ok == (view.result == Success)
    {
      swapchainImages[i] := swapchainImages[i].(image := image, view := view.value);
      trace := trace + [Call.CreateImageView(image, WantedFormat.format)];
      status := view.result;
      ok := status == Success;
    }

    /**
     * The loop of `CreateSwapchainImageViews`: for each image in index order,
     * record it and create its view, stopping at the first failure.
     */
    method CreateViews(images: seq<Handle>, views: seq<Reply<Handle>>) returns (ok: bool)
      requires |images| <= |views| && |images| <= swapchainImages.Length
      requires status == Success
      modifies this`status, this`trace, swapchainImages
      ensures ok == (FirstFailure(views, |images|) == |images|)
      ensures trace == old(trace) + ViewCalls(images, WantedFormat.format, Attempted(views, |images|))
      ensures status == if ok then Success else views[FirstFailure(views, |images|)].result
      ensures swapchainImages[..] == Recorded(old(swapchainImages[..]), images, views, Attempted(views, |images|))
    {
      var i := 0;
      while i < |images|
        invariant 0 <= i <= |images|
        invariant forall k :: 0 <= k < i ==> views[k].result == Success
        invariant trace == old(trace) + ViewCalls(images, WantedFormat.format, i)
        invariant status == Success
        invariant swapchainImages[..] == Recorded(old(swapchainImages[..]), images, views, i)
      {
        var created := CreateImageView(i, images[i], views[i]);
        assert swapchainImages[..] == Recorded(old(swapchainImages[..]), images, views, i + 1);
        if !created {
          FirstFailureIsFirst(views, |images|, i);
          return false;
        }
        i := i + 1;
      }
      FirstFailureIsFirst(views, |images|, |images|);
      return true;
    }

    /**
     * CreateSwapchainImageViews: fetch the swapchain's images, then create
     * their views. The images must fit `swapchainImages`.
     */
    method CreateSwapchainImageViews(images: Reply<seq<Handle>>, views: seq<Reply<Handle>>) returns (ok: bool)
      requires |images.value| <= |views|
      requires images.result == Success ==> |images.value| <= swapchainImages.Length
      modifies this`status, this`trace, swapchainImages
      ensures var o := ImageViewsOutcome(swapchain, images, views, WantedFormat.format);
        ok == o.ok && trace == old(trace) + o.calls
      ensures status == ImageViewsStatus(images, views)
      ensures ok ==> status == Success
      ensures swapchainImages[..] ==
        if images.result == Success then Recorded(old(swapchainImages[..]), images.value, views, Attempted(views, |images.value|))
        else old(swapchainImages[..])
    {
      trace := trace + [GetSwapchainImages(swapchain)];
      status := images.result;
      if status != Success {
        return false;
      }
      ok := CreateViews(images.value, views);
      ImageViewsFetched(swapchain, images, views, WantedFormat.format);
    }

    /** Init: `CreateSurface() && CreateSwapchain() && CreateSwapchainImageViews()`. */
    method Init(r: WindowReplies) returns (ok: bool)
      requires |r.images.value| <= |r.views|
      requires r.images.result == Success ==> |r.images.value| <= swapchainImages.Length
      modifies this, swapchainImages
      ensures var o := Chain(InitSteps(familyIndex, width, height, r)); ok == o.ok && trace == old(trace) + o.calls
      ensures ok ==> status == Success && surface == r.surface.value && swapchain == r.swapchain.value
      // Each field holds the reply of the last step that wrote it; a step that did not run leaves it alone.
      ensures var presentable := r.surface.result == Success && r.support.result == Success && r.support.value;
        var accepted := presentable && SurfaceQueriesOutcome(r.surfaceData).ok
                        && CheckSurface(FetchedData(r.surfaceData)) == SurfaceAccepted;
        var fetched := accepted && r.swapchain.result == Success && r.images.result == Success;
        && surface == (if r.surface.result == Success then r.surface.value else old(surface))
        && swapchain == (if accepted then r.swapchain.value else old(swapchain))
        && swapchainImages[..] ==
             (if fetched then Recorded(old(swapchainImages[..]), r.images.value, r.views, Attempted(r.views, |r.images.value|))
              else old(swapchainImages[..]))
        && status == (if r.surface.result != Success then old(status)
                      else if !presentable then r.support.result
                      else if !accepted || r.swapchain.result != Success then SwapchainStatus(r.surfaceData, r.swapchain.result)
                      else ImageViewsStatus(r.images, r.views))
    {
      var steps := InitSteps(familyIndex, width, height, r);
      ChainOfThree(steps[0], steps[1], steps[2]);
      assert steps == [steps[0], steps[1], steps[2]];
      ok := CreateSurface(r.surface, r.support);
      if ok {
        ok := CreateSwapchain(r.surfaceData, r.swapchain);
        if ok {
          ok := CreateSwapchainImageViews(r.images, r.views);
          AppendAssoc(old(trace) + steps[0].calls, steps[1].calls, steps[2].calls);
          AppendAssoc(old(trace), steps[0].calls, steps[1].calls + steps[2].calls);
        } else {
          AppendAssoc(old(trace), steps[0].calls, steps[1].calls);
        }
      }
    }

    /** Shutdown: destroy every valid view in array order, then the swapchain if valid (the GLFW window is not modelled). */
    method Shutdown()
      modifies this`teardown
      ensures teardown == old(teardown) + ShutdownCalls(swapchainImages[..], swapchain)
    {
      ghost var images := swapchainImages[..];
      var i := 0;
      while i < swapchainImages.Length
        invariant 0 <= i <= swapchainImages.Length
        invariant teardown == old(teardown) + GuardedAll(ImageViewObject, ViewsOf(images[..i]))
      {
        ViewTeardownStep(images, i);
        assert swapchainImages[i] == images[i];
        teardown := teardown + Guarded(ImageViewObject, swapchainImages[i].view);
        AppendAssoc(old(teardown), GuardedAll(ImageViewObject, ViewsOf(images[..i])),
          Guarded(ImageViewObject, images[i].view));
        i := i + 1;
      }
      assert images[..i] == images;
      teardown := teardown + Guarded(SwapchainObject, swapchain);
      AppendAssoc(old(teardown), GuardedAll(ImageViewObject, ViewsOf(images)), Guarded(SwapchainObject, swapchain));
    }
  }
}
