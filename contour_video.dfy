/** Ternary_ContourVid: the static reference scatter of all transformed points, the frame loop
    that turns each sliding window into a density field, and the per-frame annotation drawn
    when the frames are animated. The density estimate is a function handed in by the caller;
    the evaluation grid is the pair of values xx, yy. */
module ContourVideo {
  import opened Coordinates
  import opened Windows

  /** WindDispType: 'index', 'distance', or anything else (which draws no window position). */
  datatype DisplayType = IndexDisplay | DistanceDisplay | NoDisplay

  /** The window position drawn on a frame: nothing, '[start - end]' in dataset indices, or
      '[pos(start) - pos(end)nm]' in truncated physical positions. */
  datatype Label = Blank | IndexRange(lo: int, hi: int) | DistanceRange(lo: int, hi: int)

  /** The index errors a run can end with: the scatter loop reading the transformed points past
      their end, or a frame's annotation reading the position array past its end. */
  datatype Error = ScatterIndexError(index: nat) | PositionIndexError(frame: nat, index: nat)

  datatype Result<T> = Ok(value: T) | Err(error: Error)

  /** One animation frame: its density field, the grid it is drawn on, and its label. */
  datatype Frame<D, G> = Frame(density: D, xx: G, yy: G, annotation: Label)

  /** Everything handed to the renderer: the reference scatter and the frames in order. */
  datatype Video<D, G> = Video(scatter: seq<Point>, frames: seq<Frame<D, G>>)

  /** n is r with its fraction dropped: at most one away from r, on the side of zero. */
  predicate WithinOneTowardZero(n: int, r: real) {
    if r >= 0.0 then n as real <= r < n as real + 1.0 else n as real - 1.0 < r <= n as real
  }

  /** The conversion of a float to an integer before it is printed: truncation toward zero. */
  function Truncate(r: real): (n: int)
    ensures WithinOneTowardZero(n, r)
  {
    if r >= 0.0 then r.Floor else -((-r).Floor)
  }

  /** The scatter loop over range(s, FinalIndex_LastWindow) reads only existing points. */
  predicate ScatterInBounds(n: nat, s: nat, w: nat, k: nat) {
    FinalIndexLastWindow(s, w, k) <= s || FinalIndexLastWindow(s, w, k) <= n
  }

  /** Every frame's annotation reads only existing entries of the position array. */
  predicate LabelsInBounds(disp: DisplayType, positions: seq<real>, s: nat, w: nat, k: nat) {
    disp != DistanceDisplay || k == 0 || FrameWindow(s, w, k - 1).end < |positions|
  }

  /** The density field of frame j: the density estimate fitted to the transformed points of
      window j, x coordinates first and y coordinates second. */
  function FrameDensity<D>(dataset: seq<Triplet>, s: nat, w: nat, j: nat,
                           density: (seq<real>, seq<real>) -> D): (r: D)
    requires AllValid(dataset)
    ensures s + w + j <= |dataset| ==>
      r == density(Xs(dataset[s + j..s + w + j]), Ys(dataset[s + j..s + w + j]))
  {
    WindowFullIff(dataset, s, w, j);
    var win := WindowData(dataset, s, w, j);
    density(Xs(win), Ys(win))
  }

  /** The label a frame carries for its window, by display type: the window's two bounds as
      indices, or the positions at those bounds truncated toward zero, or nothing. */
  function FrameLabel(disp: DisplayType, positions: seq<real>, win: Window): (r: Label)
    requires disp == DistanceDisplay ==> win.start < |positions| && win.end < |positions|
    ensures r.IndexRange? <==> disp == IndexDisplay
    ensures r.DistanceRange? <==> disp == DistanceDisplay
    ensures r.IndexRange? ==> r.lo == win.start && r.hi == win.end
    ensures r.DistanceRange? ==>
      WithinOneTowardZero(r.lo, positions[win.start]) && WithinOneTowardZero(r.hi, positions[win.end])
  {
    match disp
    case IndexDisplay => IndexRange(win.start, win.end)
    case DistanceDisplay => DistanceRange(Truncate(positions[win.start]), Truncate(positions[win.end]))
    case NoDisplay => Blank
  }

  /** The reference scatter loop: plots point i of the transformed dataset for every i in
      range(s, final), and fails at the first index past the end of the points. */
  method ScatterReference(triX: seq<real>, triY: seq<real>, s: nat, final: nat)
    returns (r: Result<seq<Point>>)
    requires |triX| == |triY|
    ensures r.Ok? <==> final <= s || final <= |triX|
    ensures r.Ok? ==> |r.value| == (if final <= s then 0 else final - s)
    ensures r.Ok? ==> forall i :: 0 <= i < |r.value| ==> r.value[i] == Point(triX[s + i], triY[s + i])
    ensures r.Err? ==> r.error == ScatterIndexError(if s < |triX| then |triX| else s)
  {
    var plotted: seq<Point> := [];
    var i := s;
    while i < final
      invariant s <= i && (i == s || i <= final)
      invariant i == s || i <= |triX|
      invariant |plotted| == i - s
      invariant forall m :: 0 <= m < |plotted| ==> s + m < |triX| && plotted[m] == Point(triX[s + m], triY[s + m])
    {
      if i >= |triX| {
        return Err(ScatterIndexError(i));
      }
      plotted := plotted + [Point(triX[i], triY[i])];
      i := i + 1;
    }
    return Ok(plotted);
  }

  /** The frame loop: for every frame j in range(NumberOfSteps) it slices window j out of the
      dataset, transforms its triplets, fits the density estimate to them and appends the field
      and the grid to the three lists. */
  method ComputeFrames<D, G>(dataset: seq<Triplet>, s: nat, w: nat, k: nat, xx: G, yy: G,
                             density: (seq<real>, seq<real>) -> D)
    returns (fields: seq<D>, xxs: seq<G>, yys: seq<G>)
    requires AllValid(dataset)
    ensures |fields| == k && |xxs| == k && |yys| == k
    ensures forall j :: 0 <= j < k ==> fields[j] == FrameDensity(dataset, s, w, j, density)
    ensures forall j :: 0 <= j < k ==> xxs[j] == xx && yys[j] == yy
  {
    fields, xxs, yys := [], [], [];
    for j := 0 to k
      invariant |fields| == j && |xxs| == j && |yys| == j
      invariant forall m :: 0 <= m < j ==> fields[m] == FrameDensity(dataset, s, w, m, density)
      invariant forall m :: 0 <= m < j ==> xxs[m] == xx && yys[m] == yy
    {
      var startIndex := s + j;
      var endingIndex := s + w + j;
      var windowData := Slice(dataset, startIndex, endingIndex);
      var x, y := TransformBatch(windowData);
      assert x == Xs(windowData) && y == Ys(windowData);
      fields := fields + [density(x, y)];
      xxs := xxs + [xx];
      yys := yys + [yy];
    }
  }

  /** animate_TernVid(i): frame i's field and grid, and the window position recomputed from i
      and drawn as its label. In 'distance' mode it reads the positions at both window bounds. */
  function AnimateFrame<D, G>(i: nat, fields: seq<D>, xxs: seq<G>, yys: seq<G>,
                              disp: DisplayType, positions: seq<real>, s: nat, w: nat)
    : (r: Result<Frame<D, G>>)
    requires i < |fields| && i < |xxs| && i < |yys|
    ensures r.Ok? <==> disp != DistanceDisplay || FrameWindow(s, w, i).end < |positions|
    ensures r.Ok? ==> r.value == Frame(fields[i], xxs[i], yys[i], FrameLabel(disp, positions, FrameWindow(s, w, i)))
    ensures r.Err? ==> r.error == PositionIndexError(i, if s + i < |positions| then FrameWindow(s, w, i).end else s + i)
  {
    var startIndex := s + i;
    var endingIndex := s + w + i;
    match disp
    case IndexDisplay =>
      Ok(Frame(fields[i], xxs[i], yys[i], IndexRange(startIndex, endingIndex)))
    case DistanceDisplay =>
      if startIndex >= |positions| then Err(PositionIndexError(i, startIndex))
      else if endingIndex >= |positions| then Err(PositionIndexError(i, endingIndex))
      else Ok(Frame(fields[i], xxs[i], yys[i],
                    DistanceRange(Truncate(positions[startIndex]), Truncate(positions[endingIndex]))))
    case NoDisplay =>
      Ok(Frame(fields[i], xxs[i], yys[i], Blank))
  }

  /** The animation: draws frames 0 .. k - 1 in order and stops at the first frame whose
      annotation fails. */
  method Animate<D, G>(fields: seq<D>, xxs: seq<G>, yys: seq<G>, k: nat,
                       disp: DisplayType, positions: seq<real>, s: nat, w: nat)
    returns (r: Result<seq<Frame<D, G>>>)
    requires |fields| == k && |xxs| == k && |yys| == k
    ensures r.Ok? <==> LabelsInBounds(disp, positions, s, w, k)
    ensures r.Ok? ==> |r.value| == k
    ensures r.Ok? ==> forall i :: 0 <= i < k ==>
      r.value[i] == Frame(fields[i], xxs[i], yys[i], FrameLabel(disp, positions, FrameWindow(s, w, i)))
    ensures r.Err? ==> r.error.PositionIndexError? && r.error.frame < k
    ensures r.Err? ==> AnimateFrame(r.error.frame, fields, xxs, yys, disp, positions, s, w) == Err(r.error)
    ensures r.Err? ==> forall m :: 0 <= m < r.error.frame ==>
      AnimateFrame(m, fields, xxs, yys, disp, positions, s, w).Ok?
  {
    var frames: seq<Frame<D, G>> := [];
    for i := 0 to k
      invariant |frames| == i
      invariant forall m :: 0 <= m < i ==>
        AnimateFrame(m, fields, xxs, yys, disp, positions, s, w) == Ok(frames[m])
    {
      var frame := AnimateFrame(i, fields, xxs, yys, disp, positions, s, w);
      if frame.Err? {
        return Err(frame.error);
      }
      frames := frames + [frame.value];
    }
    if k > 0 {
      assert AnimateFrame(k - 1, fields, xxs, yys, disp, positions, s, w) == Ok(frames[k - 1]);
    }
    return Ok(frames);
  }

  /** The labels of all k frames are readable exactly when the last frame's are: window ends
      grow with the frame index. */
  lemma LabelsInBoundsIff(disp: DisplayType, positions: seq<real>, s: nat, w: nat, k: nat)
    ensures LabelsInBounds(disp, positions, s, w, k) <==>
      forall i :: 0 <= i < k ==> disp != DistanceDisplay || FrameWindow(s, w, i).end < |positions|
  {
    if k > 0 && !LabelsInBounds(disp, positions, s, w, k) {
      assert !(disp != DistanceDisplay || FrameWindow(s, w, k - 1).end < |positions|);
    }
  }

  /** Ternary_ContourVid: transforms the whole dataset and plots the reference scatter over
      range(s, FinalIndex_LastWindow), computes the k density fields, then animates them. The
      run fails with the first index error it meets, in that order. */
  method TernaryContourVid<D, G>(dataset: seq<Triplet>, disp: DisplayType, positions: seq<real>,
                                 w: nat, k: nat, s: nat, xx: G, yy: G,
                                 density: (seq<real>, seq<real>) -> D)
    returns (r: Result<Video<D, G>>)
    requires AllValid(dataset)
    ensures r.Ok? <==> ScatterInBounds(|dataset|, s, w, k) && LabelsInBounds(disp, positions, s, w, k)
    ensures !ScatterInBounds(|dataset|, s, w, k) ==>
      r == Err(ScatterIndexError(if s < |dataset| then |dataset| else s))
    ensures ScatterInBounds(|dataset|, s, w, k) && r.Err? ==>
      r.error.PositionIndexError? && r.error.frame < k
    ensures r.Ok? ==> |r.value.scatter| == w + k
    ensures r.Ok? ==> forall i :: 0 <= i < w + k ==> r.value.scatter[i] == ToPlanar(dataset[s + i])
    ensures r.Ok? ==> |r.value.frames| == k
    ensures r.Ok? ==> forall j :: 0 <= j < k ==>
      r.value.frames[j] == Frame(FrameDensity(dataset, s, w, j, density), xx, yy,
                                 FrameLabel(disp, positions, FrameWindow(s, w, j)))
  {
    var finalIndex := FinalIndexLastWindow(s, w, k);
    var triX, triY := TransformBatch(dataset);
    var scatter := ScatterReference(triX, triY, s, finalIndex);
    if scatter.Err? {
      return Err(scatter.error);
    }
    var fields, xxs, yys := ComputeFrames(dataset, s, w, k, xx, yy, density);
    var frames := Animate(fields, xxs, yys, k, disp, positions, s, w);
    if frames.Err? {
      return Err(frames.error);
    }
    return Ok(Video(scatter.value, frames.value));
  }

  /** Window j holds the transformed points of dataset indices s + j .. s + w + j - 1, the
      same points the reference scatter plots at offsets j .. j + w - 1. */
  lemma WindowPoints(dataset: seq<Triplet>, s: nat, w: nat, j: nat)
    requires AllValid(dataset) && s + w + j <= |dataset|
    ensures |Xs(WindowData(dataset, s, w, j))| == w && |Ys(WindowData(dataset, s, w, j))| == w
    ensures forall i :: 0 <= i < w ==>
      Point(Xs(WindowData(dataset, s, w, j))[i], Ys(WindowData(dataset, s, w, j))[i]) == ToPlanar(dataset[s + j + i])
  {
    WindowFullIff(dataset, s, w, j);
  }

  /** With the position array as long as the dataset, a 'distance' run with at least one frame
      reads only existing entries exactly when s + w + k <= n: the scatter needs it for
      tri_x[s + w + k - 1] and the last frame for positions[s + w + k - 1]. */
  lemma DistanceRunInBoundsIff(dataset: seq<Triplet>, positions: seq<real>, s: nat, w: nat, k: nat)
    requires |positions| == |dataset| && k >= 1
    ensures ScatterInBounds(|dataset|, s, w, k) && LabelsInBounds(DistanceDisplay, positions, s, w, k)
      <==> s + w + k <= |dataset|
  {
  }

  /** The label's end is EndingIndex = s + w + i, one past the last point the window uses: the
      window dataset[s + i : s + w + i] ends at index s + w + i - 1, so in 'distance' mode the
      label shows the position of a point outside the window. */
  lemma LabelEndIsPastWindow(dataset: seq<Triplet>, s: nat, w: nat, i: nat)
    requires w >= 1 && s + w + i <= |dataset|
    ensures FrameLabel(IndexDisplay, [], FrameWindow(s, w, i)) == IndexRange(s + i, s + w + i)
    ensures |WindowData(dataset, s, w, i)| == w
    ensures WindowData(dataset, s, w, i)[w - 1] == dataset[s + w + i - 1]
  {
    WindowFullIff(dataset, s, w, i);
  }
}
