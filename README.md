# Paint view and cameras: a Dafny model

This project models the interaction core of a 3D texture-painting tool. It
covers two parts.

The paint view (`GLView` in glview.cpp) has these pieces:

- The mouse-mode machine shared by every view: FREE, CAMERA, TOOL and HUD,
  plus the active button.
- The stroke list recorded while painting.
- The brush stamps that `drawPaintStrokes` lays down for that list.
- The dirty flag of the paint layer, and the bake that clears it.
- The three render targets, each created on first use.
- The placeholder texture a visible mesh receives the first time it is drawn.
- The keyboard shortcuts.

The cameras (camera.cpp):

- The perspective orbit camera and the orthographic camera.
- Their press, release and drag handlers.
- Their projection bounds.
- The perspective `aim` rotation pair.

The files are:

- `geometry.dfy` (module `Geometry`): vectors, points, mouse events, the Qt
  button and key codes, and the maths library as function values.
- `stamps.dfy` (module `StrokeStamps`): the stamp enumeration of
  `drawPaintStrokes`. It is given both as a specification function and as
  the loop method that implements it, and comes with lemmas about gaps,
  counts and splitting.
- `camera.dfy` (module `Camera`): the camera scratch state, both camera
  classes, and the pure zoom, rotation and aim functions.
- `glview.dfy` (module `PaintView`): the shared mouse state, the texture
  cache, the project's meshes, and the `GLView` class with its event
  handlers.

Objects that the source updates in place are classes: the view, the cameras,
the scratch state, the mouse globals, the texture cache and the meshes.
Their methods state the whole new state. The paint target's contents are
modelled as the sequence of stamp centres drawn since it was last cleared.
The view's invariant ties that sequence to the dirty flag: the layer is
dirty exactly when it holds unbaked paint.

## Model

| member | source | states |
|---|---|---|
| StrokeStamps.EnumerateStamps | glview.cpp:434-449 | The nested loops of `drawPaintStrokes` produce exactly the stamps of `Stamps`: one per point, then the in-between stamps after every point whose predecessor is not null. |
| StrokeStamps.Interpolate | glview.cpp:440-447 | The inner loop produces the point `prev*(i/d) + p*(1-i/d)` for each i = 1, 2, … with i < d, in that order. |
| StrokeStamps.TweenCount | glview.cpp:441 | The number of in-between stamps is zero exactly when the distance is at most 1. |
| StrokeStamps.TweenCountExact | glview.cpp:441 | i lies in 1..TweenCount(d) exactly when 1 <= i < d, so the count is the loop's trip count. |
| StrokeStamps.TweenCountBounds | glview.cpp:441 | For d > 1, between d - 1 and d in-between stamps are drawn, so at least floor(d) - 1. |
| StrokeStamps.TweenAt | glview.cpp:443-445 | The k-th in-between stamp sits at `Lerp(prev, p, (k+1)/d)`. |
| StrokeStamps.ConsecutiveStampsClose | glview.cpp:440-447 | Walking from p to prev, every step between consecutive stamps is `(prev - p)` scaled by a factor in (0, 1/d]. When `dist` is the Euclidean distance (the model leaves it uninterpreted), no gap between consecutive stamps of that segment exceeds one pixel. This does not cover a point whose predecessor is the null point (0,0): that segment gets no in-between stamps (see `NoTweensAfterNull`). |
| StrokeStamps.ParamGap | glview.cpp:442-444 | Consecutive interpolation parameters increase, and by at most 1/d. |
| StrokeStamps.SegmentPointAt | glview.cpp:443-445 | Every point of a segment is the interpolation at its parameter, from p itself to prev. |
| StrokeStamps.EveryPointStamped | glview.cpp:438-439 | Every recorded point is among the stamps. |
| StrokeStamps.StampsAppend | glview.cpp:434-449 | Stamping a concatenation is stamping each part in turn, the second part starting from the last point of the first. |
| StrokeStamps.StampsSplit | glview.cpp:434-449 | The stamps split around any point k: the stamps before it, then its own segment from the point before it, then the rest. |
| StrokeStamps.NoTweensAfterNull | glview.cpp:434-440 | The first point, and any point after a null point, contributes only its own stamp. |
| StrokeStamps.StampsSnoc | glview.cpp:684-685 | Appending one point to the stroke list extends the stamps by exactly that point's segment. |
| StrokeStamps.StampCount | glview.cpp:434-449 | The number of stamps is the number of points plus the in-between stamps of each pair whose first point is not null. |
| Camera.TruckZoom | camera.cpp:220-222 | The new zoom is the larger of 0.1 and `fov + 0.01*yDiff`: it is at least both, and equal to one of them. |
| Camera.ZoomNeverBelowFloor | camera.cpp:207-226 | However long a trucking drag lasts, the orthographic zoom never falls below 0.1. A single step that would cross the floor lands exactly on it. |
| Camera.ZoomAlongSnoc | camera.cpp:207-226 | Each further drag sample applies one more trucking step to the zoom reached so far, measured from the previous sample. |
| Camera.ZoomLandsOnFloor | camera.cpp:220-222 | After any number of trucking steps, the zoom is exactly 0.1 if and only if the last step would have taken it to 0.1 or below. |
| Camera.RotationTelescopes | camera.cpp:127-157 | The pick position follows each sample, so the orientation after a rotating drag depends only on where it started and where it ended. |
| Camera.PerspectiveCamera.constructor | camera.cpp:3-14 | The default orbit has yaw 225, pitch 45 and distance 6 (the length of (4, 2, 4)). The centre is minus the look direction. |
| Camera.PerspectiveCamera.ProjBounds | camera.cpp:23-54 | There are bounds exactly when width and height are nonzero. The frustum is symmetric: bottom = -top, left = -right, right = aspect*top, top = tan(fov*3.14159/360)*0.1, near 0.1 and far 100. |
| Camera.PerspectiveCamera.Aim | camera.cpp:57-99 | rot1 turns about the x axis, with the pitch positive exactly when dir.y > 0. rot2 turns about the y axis, with the yaw negated exactly when dir.x > 0. |
| Camera.AimStraightUp | camera.cpp:67-96 | Aiming at (0,1,0) has no yaw (the x-z projection is empty and y is not negative) and pitches 90 degrees up. |
| Camera.AimStraightDown | camera.cpp:67-96 | Aiming at (0,-1,0) yaws 180 degrees (empty projection, negative y) and pitches 90 degrees down. |
| Camera.AimAlongZ | camera.cpp:67-96 | Aiming along +z needs neither rotation. |
| Camera.PerspectiveCamera.MousePressed | camera.cpp:101-120 | The pick position becomes the press position. Left rotates, right trucks, and any other button stops moving. Middle pans and snapshots the eye, up and left vectors; otherwise the snapshots are kept. |
| Camera.PerspectiveCamera.MouseReleased | camera.cpp:122-125 | The move type becomes not moving. |
| Camera.PerspectiveCamera.MouseDragged | camera.cpp:127-157 | The deltas are the previous pick minus the current position. Rotating changes yaw by 0.5*xDiff and pitch by -0.5*yDiff, and re-centres on the original focal point. Panning sets the centre to eye + origUp*(-0.05*yDiff) + origLeft*(-0.05*xDiff). Trucking adds lookDir*(-0.01*yDiff). Not moving changes nothing. The pick position always becomes the current one. |
| Camera.OrthographicCamera.constructor | camera.cpp:159-163 | The centre starts at (0.5, 0.5, 1) and the zoom at 0.6, which is above the floor. |
| Camera.OrthographicCamera.ViewMatrix | camera.cpp:166-171 | The view transform is the identity. |
| Camera.OrthographicCamera.ProjBounds | camera.cpp:173-186 | There are bounds exactly when height is nonzero. They are centred on the camera centre, 2*fov*aspect wide and 2*fov high, with depth -1 to 1. |
| Camera.OrthographicCamera.MousePressed | camera.cpp:188-200 | The pick position becomes the press position. Middle pans and snapshots the eye, right trucks, and any other button leaves the move type as it was. |
| Camera.OrthographicCamera.MouseReleased | camera.cpp:202-205 | The move type becomes not moving. |
| Camera.OrthographicCamera.MouseDragged | camera.cpp:207-227 | Panning moves the centre from the eye by the pixel deltas scaled by 2*fov/viewHeight. Trucking sets the zoom to `TruckZoom` and keeps it at or above 0.1. Any other move type changes nothing. The pick position always becomes the current one. |
| PaintView.MouseState.constructor | glview.cpp:19-20 | The shared mouse state starts FREE with no active button (-1), which satisfies its invariant. |
| PaintView.Project.FoundAmongMeans | glview.cpp:165-170 | The mesh loop's running flag "some visible (and untextured) mesh among the first i" means exactly that. |
| PaintView.GLView.constructor | glview.cpp:54-72 | A new view starts with a clean layer (`_paintLayerIsDirty = false`), no strokes and no render targets (their null initialisers sit in glview.h). |
| PaintView.GLView.DrawFbo | glview.cpp:23-31 | The draw target is created, 2048 square with depth and a float colour attachment, only when it is missing. After that, the same object is returned. |
| PaintView.GLView.TransferFbo | glview.cpp:33-38 | The transfer target is created, 2048 square and plain, only when it is missing. After that, the same object is returned. |
| PaintView.GLView.PaintFbo | glview.cpp:40-52 | The paint target is created, 2048 square with a single float channel, cleared, and only when it is missing. After that, the same object is returned, and the painted contents are unchanged. |
| PaintView.GLView.ResizeGL | glview.cpp:93-99 | The camera scratch records the new view size. |
| PaintView.GLView.CreateMeshTexture | glview.cpp:178-222 | A missing mesh texture is created through the transfer target. It is fresh and 256 pixels, it is the only new cache entry, and the mesh's texture size becomes 256. |
| PaintView.GLView.DrawScene | glview.cpp:149-273 | Afterwards every visible mesh has a texture. Cached textures are kept. New entries belong only to visible meshes of the project and are fresh 256-pixel textures, and those meshes' texture size is 256. Hidden meshes are skipped. The draw target exists. The transfer target exists exactly when it did before or some visible mesh lacked a texture. The paint target exists exactly when it did before or some mesh is visible. |
| PaintView.GLView.PrepareMeshes | glview.cpp:168-273 | After the mesh loop every visible mesh has a texture and earlier cache entries are kept. New entries are fresh 256-pixel textures of visible project meshes. The transfer target exists exactly when it did before or some visible mesh lacked a texture, and the paint target exactly when it did before or some mesh is visible. These are stated through the loop predicate `MeshLoop` and its running flags `FoundAmong`, which `FoundAmongMeans` turns into the plain statements. The paint layer is unchanged. |
| PaintView.GLView.PrepareMesh | glview.cpp:169-228 | One iteration of the mesh loop keeps every cached texture and advances the loop's invariant by one mesh. |
| PaintView.GLView.DrawPaintStrokes | glview.cpp:399-461 | With no stroke points nothing changes, not even the dirty flag. Otherwise the stamps of the stroke list are appended to the paint layer, the layer becomes dirty, and the stroke list is not modified. |
| PaintView.GLView.BakePaintLayer | glview.cpp:504-608 | A bake always ends clean with an empty paint layer. The transfer and paint targets exist. The draw target exists when it did before or some mesh is visible. Existing targets are kept. |
| PaintView.GLView.BrushColorChanged | glview.cpp:367-372 | The view bakes only if the layer is dirty; otherwise nothing changes. |
| PaintView.GLView.MousePressEvent | glview.cpp:610-635 | Alt while FREE enters CAMERA, records the button, forwards the press to the camera, and bakes only if dirty. A left-bit button without Alt while FREE enters TOOL, records the button, and appends the Y-flipped point twice. Any other press changes neither the mode, the strokes, the camera nor the layer. |
| PaintView.GLView.MouseReleaseEvent | glview.cpp:641-661 | Only releasing the active button while not FREE ends the gesture: the mode returns to FREE and the button to -1. A TOOL release empties the strokes, and a CAMERA release stops the camera. Any other release changes nothing. |
| PaintView.GLView.MouseMoveEvent | glview.cpp:663-677 | A move while FREE changes nothing. Otherwise it is a drag. |
| PaintView.GLView.MouseDragEvent | glview.cpp:679-689 | In CAMERA the camera's drag runs and the strokes are untouched. In TOOL exactly one Y-flipped point is appended and the camera is untouched. Otherwise nothing changes. |
| PaintView.GLView.ResizeEvent | glview.cpp:696-703 | The view takes the new size, the camera scratch records it, and a bake happens only if the layer is dirty. |
| PaintView.GLView.KeyPressEvent | glview.cpp:705-718 | Keys act only while FREE. Space bakes unconditionally, `[` shrinks the brush by 10 and `]` grows it by 10. Every other case changes neither the brush nor the layer. |

## Left out

- GPU work is left out: binding, clearing, quads, shaders, matrices, viewports and the compositing of the bake. These are foreign calls into OpenGL and Qt. A render target and a texture are opaque objects with their size and format.
- The busy message, `update()` calls, focus handling and the repaints of the other views after a bake are left out. They are effects on other widgets.
- Mesh removal (glview.cpp:379-392) is not modelled. It calls `glGenTextures` on the removed id rather than deleting it, so no release guarantee exists to state.
- The brush radius and quad size in `drawPaintStrokes` are not modelled. Only the stamp centres are.
- Settings clamping inside `setBrushSize` is not part of this model. `KeyPressEvent` states the requested change of ±10.
- Floating-point rounding is not modelled. Coordinates, angles and distances are exact reals, so statements such as "no gap longer than one pixel" hold for the reals.
- `sqrt`, `acos`, `tan` and `QVector2D::distanceToPoint` are uninterpreted function values. The camera.h accessors `eye`, `lookDir`, `upDir` and `leftDir` are uninterpreted functions of the orbit parameters. camera.h is not part of this model, and neither is the perspective field of view it sets.
- `PerspectiveCamera::getViewMatrix` (a `lookAt` on those accessors) is left out. It only forwards to camera.h.
- Camera.PerspectiveCamera.ProjBounds returns `None` for a zero width or height. Camera.OrthographicCamera.ProjBounds returns `None` for a zero height. In the source these divide by zero and produce NaN or infinite bounds.
- Camera.PerspectiveCamera.Aim requires the y-z length to be nonzero. The source divides by it without a check, and only dir = 0 makes it zero.
- Camera.CameraScratch.constructor: the scratch struct and its initial values are declared in camera.h, which is not part of this model. The model assumes it starts not moving, with pick (0,0) and a 0x0 view until `resizeGL` records the real size. Before that first resize an orthographic pan would divide by zero, which is the case the requirement below excludes.
- Camera.OrthographicCamera.MouseDragged requires a nonzero view height when panning. The source divides by it.
- PaintView.GLView.MouseMoveEvent and PaintView.GLView.MouseDragEvent require the same nonzero view height when an orthographic pan is under way, for the same reason.
- PaintView.GLView.ResizeEvent models Qt's base `resizeEvent` as taking the new size and calling `resizeGL`.
- PaintView.GLView.DrawScene models only the mesh-texture part and the targets it touches. The clear, the matrices and the shader uniforms are GPU work. That other meshes and fields are untouched is stated by its frame, not by an `ensures`.
- The HUD mouse mode is handled on release but is never entered by the code modelled, so no member enters it.
- `mouseDoubleClickEvent`, `leaveEvent`, `paintGL`'s other passes, `drawBrush` and `drawPaintLayer` are left out. They only draw or request repaints.
