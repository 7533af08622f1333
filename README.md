# Ternary contour video: a verified model of its numeric core

`Ternary_ContourVid` takes an ordered dataset of compositions `[A, B, C]` and shows how their
distribution changes along the dataset. First it converts every composition to a point of a
ternary triangle and plots the points between `StartingIndex_FirstWindow` and
`FinalIndex_LastWindow` as a static reference scatter. Then it slides a window of
`WindowWidth` points over the dataset, one index per frame, for `NumberOfSteps` frames. For
each frame it fits a Gaussian kernel density estimate to the window's points and evaluates the
estimate on a fixed grid. Finally it animates the fields, optionally labelling each frame with
its window's bounds, either as dataset indices or as physical positions.

This project models that pipeline in Dafny, in three modules:

- `Coordinates` (`coordinates.dfy`): the barycentric-to-Cartesian transform
  `y = A/(A+B+C)`, `x = -0.5*(1 - y) + C/(A+B+C)` over `real`. It also has its inverse on the
  triangle and the batch loop that builds `tri_x` and `tri_y`.
- `Windows` (`windows.dfy`): the window bounds `[s + j, s + w + j)` of frame `j`, slicing with
  the language's clamping rules, and `FinalIndex_LastWindow = s + w + k`.
- `ContourVideo` (`contour_video.dfy`): the reference-scatter loop, the frame loop, the
  per-frame annotation of `animate_TernVid`, and the whole run. The run returns either what it
  hands to the renderer or the first index error it meets.

The kernel density estimate is the function parameter `density` of the frame loop. It receives
the window's x coordinates and y coordinates. The evaluation grid (`np.mgrid`) is the pair of
opaque values `xx`, `yy`, which every frame receives unchanged.

What the code requires and checks, as the model states it:

- The run needs `s + w + k <= n`. The last scatter read is `tri_x[s + w + k - 1]`, and in
  'distance' mode the last annotation read is `positions[s + w + k - 1]`.
  `DistanceRunInBoundsIff` states the exact condition.
- No range check runs before the work starts. The scatter's index error comes first, because
  `triplot` runs before the frame loop. A bad position array fails only during animation,
  after every field is computed. `TernaryContourVid` states this order.
- The code does not check for degenerate windows, so none is modelled. A window that runs past
  the end of the dataset is silently shorter (`WindowFullIff`).
- The docstring gives the last index as `s + w * k`. The code computes `s + w + k`.
- The docstring says each frame shows "the first and last index of the datapoints considered".
  The code shows `[s + i - s + w + i]`, and `s + w + i` is one past the last point of the window
  `dataset[s + i : s + w + i]`. In 'distance' mode the label's end is the position of a point
  outside the window, and that read is why the last frame needs `s + w + k <= len(positions)`.
  `LabelEndIsPastWindow` states this.

## Model

| member | source | states |
|---|---|---|
| `Coordinates.ToPlanar` | Ternary_Contour_Vid.py:164-168 | the single-triplet transform: every composition with non-negative parts and a positive total lands in the ternary triangle: `0 <= y <= 1` and `-(1-y)/2 <= x <= (1-y)/2` |
| `Coordinates.PureAIsTopVertex` | Ternary_Contour_Vid.py:164-165 | `[1, 0, 0]` maps to the top vertex `(0, 1)` |
| `Coordinates.PureBIsLeftVertex` | Ternary_Contour_Vid.py:164-165 | `[0, 1, 0]` maps to the left vertex `(-0.5, 0)` |
| `Coordinates.PureCIsRightVertex` | Ternary_Contour_Vid.py:164-165 | `[0, 0, 1]` maps to the right vertex `(0.5, 0)` |
| `Coordinates.RoundTrip` | Ternary_Contour_Vid.py:164-165 | reading a transformed point back yields the composition's proportions (which add up to one) |
| `Coordinates.PlanarRoundTrip` | Ternary_Contour_Vid.py:164-165 | every point of the triangle is the image of the proportions read from it, so the transform maps onto the whole triangle |
| `Coordinates.FromPlanarValidIffInTriangle` | Ternary_Contour_Vid.py:159 | the proportions read from a point add up to one, and they are non-negative exactly when the point lies in the triangle |
| `Coordinates.NormalizeSumsToOne` | Ternary_Contour_Vid.py:164-165 | the shares `A/(A+B+C)`, `B/(A+B+C)`, `C/(A+B+C)` of a valid composition are non-negative and add up to one |
| `Coordinates.ScaleInvariant` | Ternary_Contour_Vid.py:164-165 | multiplying a composition by any positive factor leaves its point unchanged |
| `Coordinates.ScaleKeepsProportions` | Ternary_Contour_Vid.py:164-165 | a positively scaled composition stays valid and has the same proportions |
| `Coordinates.SamePointIffSameProportions` | Ternary_Contour_Vid.py:164-165 | two compositions share a point if and only if they have the same proportions |
| `Coordinates.TransformBatch` | Ternary_Contour_Vid.py:160-165 | the batch loop yields one point per triplet, in input order; point i is the single-triplet transform of triplet i and lies in the triangle |
| `Windows.FrameWindow` | Ternary_Contour_Vid.py:189-190 | the window of every frame is exactly `WindowWidth` indices wide |
| `Windows.FinalIndexLastWindow` | Ternary_Contour_Vid.py:54 | `FinalIndex_LastWindow` lies `w + k` past the first window's start, one past the end of the last frame's window |
| `Windows.WindowData` | Ternary_Contour_Vid.py:189-201 | frame j's slice holds at most w elements, and its element i is `dataset[s + j + i]` |
| `Windows.Slice` | Ternary_Contour_Vid.py:201 | `data[lo:hi]` has element i equal to `data[lo + i]`, and its length is the range cut back to the data's length (empty when `lo >= hi` or `lo >= n`) |
| `Windows.WindowFullIff` | Ternary_Contour_Vid.py:189-201 | frame j's slice has exactly w elements if and only if `w == 0` or `s + w + j <= n`; it is then `dataset[s+j .. s+w+j)` |
| `Windows.SuccessiveWindowsOverlap` | Ternary_Contour_Vid.py:189-190 | successive windows advance by one index at both ends and share `w - 1` elements |
| `Windows.ScatterRangeCoversWindows` | Ternary_Contour_Vid.py:54 | every frame's window lies within the scatter range `[s, FinalIndex_LastWindow)` |
| `ContourVideo.Truncate` | Ternary_Contour_Vid.py:146 | `int()` of a position truncates toward zero: the result is within one of the value, on the side of zero |
| `ContourVideo.ScatterReference` | Ternary_Contour_Vid.py:174-175 | the scatter loop succeeds if and only if its range is empty or ends within the points; it then plots points `s .. final-1` in order; otherwise it fails at index `max(s, n)` |
| `ContourVideo.ComputeFrames` | Ternary_Contour_Vid.py:185-220 | the three lists get exactly `NumberOfSteps` entries; entry j of the field list is the density of window j's transformed points; every grid entry is the same grid |
| `ContourVideo.WindowPoints` | Ternary_Contour_Vid.py:201-206 | when window j ends inside the dataset, the inlined per-window transform yields exactly w points, and point i is the transform of `dataset[s + j + i]` |
| `ContourVideo.FrameDensity` | Ternary_Contour_Vid.py:201-216 | when window j ends inside the dataset, frame j's field is the density estimate of the transformed points of `dataset[s+j .. s+w+j)` |
| `ContourVideo.FrameLabel` | Ternary_Contour_Vid.py:143-146 | 'index' mode shows the window's start and end; 'distance' mode shows the positions at both bounds, each truncated toward zero to within one; any other mode shows nothing |
| `ContourVideo.LabelEndIsPastWindow` | Ternary_Contour_Vid.py:132-146 | the label's end `s + w + i` is one past the window's last point `dataset[s + w + i - 1]` |
| `ContourVideo.AnimateFrame` | Ternary_Contour_Vid.py:131-146 | frame i shows field i on grid i; its displayed bounds are those frame i's data was computed from; 'distance' mode fails if and only if a bound is past the position array, reporting the first bad read |
| `ContourVideo.LabelsInBoundsIff` | Ternary_Contour_Vid.py:146 | the labels of all k frames can be read exactly when the last frame's label can |
| `ContourVideo.Animate` | Ternary_Contour_Vid.py:223-226 | the animation succeeds if and only if every label can be read; it then yields k frames in order; otherwise it stops at the first failing frame with that frame's error |
| `ContourVideo.TernaryContourVid` | Ternary_Contour_Vid.py:54-226 | the run succeeds if and only if the scatter reads and the label reads stay in bounds; a scatter error comes first; on success the scatter holds `w + k` points from index s on, and frame j carries window j's density, the shared grid and window j's label |
| `ContourVideo.DistanceRunInBoundsIff` | Ternary_Contour_Vid.py:146 | in 'distance' mode, with the position array as long as the dataset and at least one frame, every read (scatter and labels) is in bounds if and only if `s + w + k <= n` |

## Left out

- Rendering is left out: `Tern_Base`, `init_TernVid`, every `ax.*` call, `fig.savefig`, `FuncAnimation`'s drawing, `PillowWriter` and the `.gif` file. So are the parameters only rendering uses: `type`, `Colour`, `fps`, `NumLevels`, `FigureSavePath`, `FileName`, `mask` and `legend`.
- `st.gaussian_kde` and its evaluation on the grid are foreign floating-point statistics. They are the caller's function `density`, which is total here. The library's own failures are not modelled: too few points, or points whose covariance is singular. A window shorter than w, because it runs past the end of the dataset, is handed to `density` as it is.
- The `np.mgrid` 300×300 grid is not computed. It is the pair of values `xx`, `yy`, which every frame shares.
- `triplot`'s `dataform` dispatch is not modelled. Only the 'multiple' form is called, and that is `TransformBatch`. The 'single' form (lines 166-168) applies the same formula to one triplet, which is `ToPlanar`. The `print` for an unknown form is diagnostic output.
- Floating point is modelled by `real`: no rounding, NaN or infinity. The input is required to have non-negative parts and a positive total per triplet. Non-negative parts follow from the values being compositions. The docstring forbids NaN, and a zero total would give `0/0`, which is NaN or an error, so a zero total is outside the model.
- Index parameters are `nat`. Python's negative indices, which count from the end, are not modelled.
- A `WindDispPositionData` of `'none'` is an empty or arbitrary `seq<real>`. It is read only in 'distance' mode.
- Points plotted before a scatter error are discarded in the model. The error result carries only the failing index.
- `FuncAnimation` is modelled as one pass over frames `0 .. k-1`, in order. Any extra calls the library makes to the frame function are not modelled.
- ContourVideo.TernaryContourVid: when the annotation fails, it states only that the error is a position read of some frame below k. `Animate` states which frame that is.
