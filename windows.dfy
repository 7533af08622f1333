/** The sliding-window index arithmetic of Ternary_ContourVid: the bounds of each frame's
    window, the slice of the dataset it takes, and the last index of the reference scatter. */
module Windows {

  /** A half-open index range [start, end) over the dataset. */
  datatype Window = Window(start: nat, end: nat)

  /** The window of frame j, for first-window offset s and window width w: it starts j
      indices after s and is exactly w indices wide. */
  function FrameWindow(s: nat, w: nat, j: nat): (win: Window)
    ensures win.end - win.start == w
  {
    Window(s + j, s + w + j)
  }

  /** FinalIndex_LastWindow: the end (exclusive) of the range the reference scatter plots. It
      lies w + k indices past the first window's start, one past the end of the last window. */
  function FinalIndexLastWindow(s: nat, w: nat, k: nat): (r: nat)
    ensures r - s == w + k
    ensures k >= 1 ==> r == FrameWindow(s, w, k - 1).end + 1
  {
    s + w + k
  }

  /** A slice `data[lo:hi]` with the language's clamping: bounds past the end are cut back to
      the length and an empty range gives an empty slice, so slicing never fails. */
  function Slice<T>(data: seq<T>, lo: nat, hi: nat): (r: seq<T>)
    ensures |r| == if lo < hi && lo < |data| then (if hi <= |data| then hi else |data|) - lo else 0
    ensures forall i :: 0 <= i < |r| ==> lo + i < |data| && r[i] == data[lo + i]
  {
    var end := if hi <= |data| then hi else |data|;
    if lo < end then data[lo..end] else []
  }

  /** The elements of the dataset that frame j's density is computed from: at most w of them,
      the i-th being the dataset's element s + j + i. */
  function WindowData<T>(data: seq<T>, s: nat, w: nat, j: nat): (r: seq<T>)
    ensures |r| <= w
    ensures forall i :: 0 <= i < |r| ==> s + j + i < |data| && r[i] == data[s + j + i]
  {
    var win := FrameWindow(s, w, j);
    Slice(data, win.start, win.end)
  }

  /** Frame j's window holds exactly w elements when it ends inside the dataset, and then
      they are the dataset's elements s + j .. s + w + j - 1; when it runs past the end the
      slice is silently shorter. */
  lemma WindowFullIff<T>(data: seq<T>, s: nat, w: nat, j: nat)
    ensures |WindowData(data, s, w, j)| == w <==> w == 0 || s + w + j <= |data|
    ensures s + w + j <= |data| ==> WindowData(data, s, w, j) == data[s + j..s + w + j]
  {
    var r := WindowData(data, s, w, j);
    if s + w + j <= |data| {
      assert |r| == w;
      assert r == data[s + j..s + w + j];
    }
  }

  /** Successive windows advance by exactly one index: they overlap in w - 1 elements. */
  lemma SuccessiveWindowsOverlap<T>(data: seq<T>, s: nat, w: nat, j: nat)
    requires w >= 1 && s + w + j + 1 <= |data|
    ensures FrameWindow(s, w, j + 1).start == FrameWindow(s, w, j).start + 1
    ensures FrameWindow(s, w, j + 1).end == FrameWindow(s, w, j).end + 1
    ensures WindowData(data, s, w, j)[1..] == WindowData(data, s, w, j + 1)[..w - 1]
  {
    WindowFullIff(data, s, w, j);
    WindowFullIff(data, s, w, j + 1);
  }

  /** The scatter range [s, FinalIndex_LastWindow) covers every index of every frame's window. */
  lemma ScatterRangeCoversWindows(s: nat, w: nat, k: nat)
    requires k >= 1
    ensures forall j :: 0 <= j < k ==>
      s <= FrameWindow(s, w, j).start && FrameWindow(s, w, j).end < FinalIndexLastWindow(s, w, k)
  {
  }
}
