/** GLView's interaction protocol: the process-wide mouse-mode machine, the
    stroke list, the dirty flag of the paint layer and its bake, the lazily
    created render targets and the per-mesh placeholder textures.  GPU work
    is abstracted away: a render target is an opaque object, and the paint
    target's contents are the stamp centres drawn on it since its last
    clear. */
module PaintView {
  import opened Geometry
  import opened Camera
  import opened StrokeStamps

  /** PAINT_FBO_WIDTH: every render target is this many pixels square. */
  const PaintFboWidth: int := 2048
  /** Size of the placeholder texture a mesh receives on first draw. */
  const TextureSize: int := 256
  /** How much `[` and `]` change the brush size. */
  const BrushStep: int := 10

  datatype MouseMode = Free | CameraMode | Tool | Hud

  /** The globals mouseMode and activeMouseButton, shared by every view. */
  class MouseState {
    var mode: MouseMode
    var activeButton: int

    /** A gesture is in progress exactly when a button is recorded, and a
        tool gesture was started by a button with the left bit. */
    ghost predicate Valid()
      reads this
    {
      && (mode == Free <==> activeButton == -1)
      && (mode == Tool ==> activeButton >= 0 && HasLeftBit(activeButton))
    }

    constructor ()
      ensures Valid() && mode == Free && activeButton == -1
    {
      mode := Free;
      activeButton := -1;
    }
  }

  /** The brush settings of the session. */
  class Settings {
    var brushSize: int

    constructor (brushSize: int)
      ensures this.brushSize == brushSize
    {
      this.brushSize := brushSize;
    }
  }

  /** The formats of the three render targets: the draw target has depth
      and a second RGBA32F colour attachment, the transfer target is plain
      RGBA, the paint target a single float channel (paint intensity). */
  datatype TargetFormat = DepthAndFloatIds | PlainColor | RedFloat

  class RenderTarget {
    const width: int
    const height: int
    const format: TargetFormat

    constructor (width: int, height: int, format: TargetFormat)
      ensures this.width == width && this.height == height && this.format == format
    {
      this.width := width;
      this.height := height;
      this.format := format;
    }
  }

  /** A GL texture, identified by its object. */
  class Texture {
    const size: int

    constructor (size: int)
      ensures this.size == size
    {
      this.size := size;
    }
  }

  class Mesh {
    var textureSize: int
  }

  /** GLCache's mesh-to-texture table, shared by every view. */
  class GLCache {
    var meshTextures: map<Mesh, Texture>
  }

  /** The active project's mesh list and which of them are visible. */
  datatype Project = Project(meshes: seq<Mesh>, visible: set<Mesh>)
  {
    predicate AnyVisible() {
      exists k :: 0 <= k < |meshes| && meshes[k] in visible
    }

    /** Some visible mesh has no texture in the given cache. */
    predicate AnyUntextured<T>(textures: map<Mesh, T>) {
      exists k :: 0 <= k < |meshes| && meshes[k] in visible && meshes[k] !in textures
    }

    /** Some of the first i meshes is visible (and, when untexturedOnly,
        has no texture in textures), counted as the mesh loops run. */
    predicate FoundAmong<T>(i: nat, untexturedOnly: bool, textures: map<Mesh, T>)
      requires i <= |meshes|
    {
      && i > 0
      && ((meshes[i - 1] in visible && (untexturedOnly ==> meshes[i - 1] !in textures))
          || FoundAmong(i - 1, untexturedOnly, textures))
    }

    lemma {:induction false} FoundAmongMeans<T>(i: nat, untexturedOnly: bool, textures: map<Mesh, T>)
      requires i <= |meshes|
      ensures FoundAmong(i, untexturedOnly, textures)
              <==> exists k :: 0 <= k < i && meshes[k] in visible && (untexturedOnly ==> meshes[k] !in textures)
    {
      if i > 0 {
        FoundAmongMeans(i - 1, untexturedOnly, textures);
        if meshes[i - 1] in visible && (untexturedOnly ==> meshes[i - 1] !in textures) {
          assert 0 <= i - 1 < i;
        }
      }
    }
  }

  /** The view's camera: either kind, dispatched as the virtual calls are. */
  datatype ViewCamera = Perspective(persp: PerspectiveCamera) | Orthographic(ortho: OrthographicCamera)
  {
    function Obj(): object {
      if Perspective? then persp else ortho
    }

    ghost predicate Valid()
      reads Obj()
    {
      Orthographic? ==> ortho.Valid()
    }
  }

  twostate predicate CameraPressed(c: ViewCamera, s: CameraScratch, ev: MouseEvent)
    reads c.Obj(), s
  {
    match c
    case Perspective(p) => PerspectivePressed(p, s, ev)
    case Orthographic(o) => OrthographicPressed(o, s, ev)
  }

  twostate predicate CameraDragged(c: ViewCamera, s: CameraScratch, ev: MouseEvent)
    reads c.Obj(), s
  {
    match c
    case Perspective(p) => PerspectiveDragged(p, s, ev)
    case Orthographic(o) => OrthographicDragged(o, s, ev)
  }

  /** After the first i meshes of drawScene's loop: textures cached before
      are kept, every visible mesh so far has one, and only visible meshes
      of the project received new ones. */
  ghost predicate TexturedUpTo(project: Project, before: map<Mesh, Texture>, now: map<Mesh, Texture>, i: nat)
    requires i <= |project.meshes|
  {
    && (forall m :: m in before ==> m in now && now[m] == before[m])
    && (forall k :: 0 <= k < i && project.meshes[k] in project.visible ==> project.meshes[k] in now)
    && (forall m :: m in now && m !in before ==> m in project.meshes && m in project.visible)
  }

  lemma TexturedStep(project: Project, start: map<Mesh, Texture>, before: map<Mesh, Texture>, after: map<Mesh, Texture>, i: nat)
    requires i < |project.meshes|
    requires TexturedUpTo(project, start, before, i)
    requires after.Keys == before.Keys + (if project.meshes[i] in project.visible then {project.meshes[i]} else {})
    requires forall m :: m in before ==> after[m] == before[m]
    ensures TexturedUpTo(project, start, after, i + 1)
  {
  }

  class GLView {
    const mouse: MouseState
    const settings: Settings
    const cache: GLCache
    const camera: ViewCamera
    const scratch: CameraScratch
    /** QVector2D::distanceToPoint. */
    const dist: (Point2, Point2) -> real

    var width: int
    var height: int
    var strokes: seq<Point2>
    var paintLayerIsDirty: bool
    /** The stamps drawn on the paint target since it was last cleared. */
    var paintLayer: seq<Point2>
    var drawFbo: RenderTarget?
    var transferFbo: RenderTarget?
    var paintFbo: RenderTarget?

    /** The view's whole invariant: the shared mouse state, the camera and
        the paint layer are each consistent. */
    ghost predicate Valid()
      reads this, mouse, camera.Obj()
    {
      mouse.Valid() && camera.Valid() && LayerValid()
    }

    /** The layer is dirty exactly when it holds paint not yet baked; a
        paint target not yet created holds none; each target has its size
        and format. */
    ghost predicate LayerValid()
      reads this
    {
      && (paintLayerIsDirty <==> paintLayer != [])
      && (paintFbo == null ==> paintLayer == [])
      && (drawFbo != null ==> drawFbo.width == PaintFboWidth && drawFbo.height == PaintFboWidth && drawFbo.format == DepthAndFloatIds)
      && (transferFbo != null ==> transferFbo.width == PaintFboWidth && transferFbo.height == PaintFboWidth && transferFbo.format == PlainColor)
      && (paintFbo != null ==> paintFbo.width == PaintFboWidth && paintFbo.height == PaintFboWidth && paintFbo.format == RedFloat)
    }

    constructor (mouse: MouseState, settings: Settings, cache: GLCache, camera: ViewCamera,
                 dist: (Point2, Point2) -> real, width: int, height: int)
      requires mouse.Valid() && camera.Valid()
      ensures Valid()
      ensures this.mouse == mouse && this.settings == settings && this.cache == cache
      ensures this.camera == camera && this.dist == dist && fresh(scratch)
      ensures this.width == width && this.height == height
      ensures strokes == [] && !paintLayerIsDirty && paintLayer == []
      ensures drawFbo == null && transferFbo == null && paintFbo == null
    {
      this.mouse := mouse;
      this.settings := settings;
      this.cache := cache;
      this.camera := camera;
      this.dist := dist;
      this.width := width;
      this.height := height;
      scratch := new CameraScratch();
      strokes := [];
      paintLayerIsDirty := false;
      paintLayer := [];
      drawFbo, transferFbo, paintFbo := null, null, null;
    }

    /** The event position in the paint layer's coordinates (Y up). */
    function Flipped(ev: MouseEvent): Point2
      reads this
    {
      Point2(ev.x as real, (height - ev.y) as real)
    }

    /** Nothing about the render targets or the paint layer changed. */
    twostate predicate LayerUnchanged()
      reads this
    {
      && drawFbo == old(drawFbo) && transferFbo == old(transferFbo) && paintFbo == old(paintFbo)
      && paintLayer == old(paintLayer) && paintLayerIsDirty == old(paintLayerIsDirty)
    }

    /** The outcome of a bake: the layer is clean and empty, the transfer
        and paint targets exist (created if need be), and the draw target
        exists when it did before or some mesh is visible. */
    twostate predicate Baked(project: Project)
      reads this
    {
      && !paintLayerIsDirty && paintLayer == []
      && transferFbo != null && (old(transferFbo) != null ==> transferFbo == old(transferFbo))
      && paintFbo != null && (old(paintFbo) != null ==> paintFbo == old(paintFbo))
      && (old(drawFbo) != null ==> drawFbo == old(drawFbo))
      && (drawFbo != null <==> old(drawFbo) != null || project.AnyVisible())
    }

    method DrawFbo() returns (t: RenderTarget)
      requires LayerValid()
      modifies this`drawFbo
      ensures LayerValid() && drawFbo == t
      ensures old(drawFbo) != null ==> t == old(drawFbo)
      ensures old(drawFbo) == null ==> fresh(t)
      ensures t.width == PaintFboWidth && t.height == PaintFboWidth && t.format == DepthAndFloatIds
    {
      if drawFbo == null {
        drawFbo := new RenderTarget(PaintFboWidth, PaintFboWidth, DepthAndFloatIds);
      }
      t := drawFbo;
    }

    method TransferFbo() returns (t: RenderTarget)
      requires LayerValid()
      modifies this`transferFbo
      ensures LayerValid() && transferFbo == t
      ensures old(transferFbo) != null ==> t == old(transferFbo)
      ensures old(transferFbo) == null ==> fresh(t)
      ensures t.width == PaintFboWidth && t.height == PaintFboWidth && t.format == PlainColor
    {
      if transferFbo == null {
        transferFbo := new RenderTarget(PaintFboWidth, PaintFboWidth, PlainColor);
      }
      t := transferFbo;
    }

    /** A newly created paint target is cleared; since no paint can exist
        before it, the paint layer is unchanged either way. */
    method PaintFbo() returns (t: RenderTarget)
      requires LayerValid()
      modifies this`paintFbo, this`paintLayer
      ensures LayerValid() && paintFbo == t
      ensures old(paintFbo) != null ==> t == old(paintFbo)
      ensures old(paintFbo) == null ==> fresh(t)
      ensures t.width == PaintFboWidth && t.height == PaintFboWidth && t.format == RedFloat
      ensures paintLayer == old(paintLayer)
    {
      if paintFbo == null {
        paintFbo := new RenderTarget(PaintFboWidth, PaintFboWidth, RedFloat);
        paintLayer := [];
      }
      t := paintFbo;
    }

    method ResizeGL(w: int, h: int)
      modifies scratch`viewWidth, scratch`viewHeight
      ensures scratch.viewWidth == w && scratch.viewHeight == h
    {
      scratch.viewWidth := w;
      scratch.viewHeight := h;
    }

    /** Renders a placeholder texture for mesh through the transfer target
        and records it in the cache. */
    method CreateMeshTexture(mesh: Mesh)
      requires LayerValid() && mesh !in cache.meshTextures
      modifies this`transferFbo, cache`meshTextures, mesh`textureSize
      ensures LayerValid()
      ensures transferFbo != null && (old(transferFbo) != null ==> transferFbo == old(transferFbo))
      ensures mesh in cache.meshTextures && cache.meshTextures == old(cache.meshTextures)[mesh := cache.meshTextures[mesh]]
      ensures cache.meshTextures.Keys == old(cache.meshTextures.Keys) + {mesh}
      ensures fresh(cache.meshTextures[mesh]) && cache.meshTextures[mesh].size == TextureSize
      ensures mesh.textureSize == TextureSize
    {
      var transfer := TransferFbo();
      var texture := new Texture(TextureSize);
      mesh.textureSize := TextureSize;
      cache.meshTextures := cache.meshTextures[mesh := texture];
    }

    /** The mesh-texture part of drawScene: every visible mesh without a
        cached texture gets a new 256-pixel one and its texture size is set
        to 256; cached textures are reused and hidden meshes skipped. */
    method DrawScene(project: Project)
      requires LayerValid()
      modifies this`drawFbo, this`transferFbo, this`paintFbo, this`paintLayer, cache
      modifies set m | m in project.meshes && m in project.visible && m !in cache.meshTextures
      ensures LayerValid()
      ensures drawFbo != null && (old(drawFbo) != null ==> drawFbo == old(drawFbo))
      ensures old(transferFbo) != null ==> transferFbo == old(transferFbo)
      ensures transferFbo != null <==> old(transferFbo) != null || project.AnyUntextured(old(cache.meshTextures))
      ensures old(paintFbo) != null ==> paintFbo == old(paintFbo)
      ensures paintFbo != null <==> old(paintFbo) != null || project.AnyVisible()
      ensures paintLayer == old(paintLayer)
      ensures forall m :: m in old(cache.meshTextures) ==> m in cache.meshTextures && cache.meshTextures[m] == old(cache.meshTextures[m])
      ensures forall k :: 0 <= k < |project.meshes| && project.meshes[k] in project.visible ==> project.meshes[k] in cache.meshTextures
      ensures forall m :: m in cache.meshTextures && m !in old(cache.meshTextures) ==>
                && m in project.meshes && m in project.visible
                && fresh(cache.meshTextures[m]) && cache.meshTextures[m].size == TextureSize
                && m.textureSize == TextureSize
    {
      var drawTarget := DrawFbo();
      PrepareMeshes(project);
      project.FoundAmongMeans(|project.meshes|, true, old(cache.meshTextures));
      project.FoundAmongMeans(|project.meshes|, false, old(cache.meshTextures));
    }

    /** drawScene's loop over the project's meshes. */
    method PrepareMeshes(project: Project)
      requires LayerValid()
      modifies this`transferFbo, this`paintFbo, this`paintLayer, cache`meshTextures
      modifies set m | m in project.meshes && m in project.visible && m !in cache.meshTextures
      ensures paintLayer == old(paintLayer)
      ensures MeshLoop(project, |project.meshes|, old(transferFbo), old(paintFbo), old(cache.meshTextures))
      ensures forall m :: m in cache.meshTextures && m !in old(cache.meshTextures) ==> fresh(cache.meshTextures[m])
    {
      var i := 0;
      while i < |project.meshes|
        invariant 0 <= i <= |project.meshes|
        invariant paintLayer == old(paintLayer)
        invariant MeshLoop(project, i, old(transferFbo), old(paintFbo), old(cache.meshTextures))
        invariant forall m :: m in cache.meshTextures && m !in old(cache.meshTextures) ==> fresh(cache.meshTextures[m])
      {
        PrepareMesh(project, i, old(transferFbo), old(paintFbo), old(cache.meshTextures));
        i := i + 1;
      }
    }

    /** What drawScene's mesh loop has established after the first i meshes,
        relative to the targets and cache it started with. */
    ghost predicate MeshLoop(project: Project, i: nat, startTransfer: RenderTarget?, startPaint: RenderTarget?,
                             startCache: map<Mesh, Texture>)
      requires i <= |project.meshes|
      reads this, cache, project.meshes
    {
      && LayerValid()
      && (startTransfer != null ==> transferFbo == startTransfer)
      && (transferFbo != null <==> startTransfer != null || project.FoundAmong(i, true, startCache))
      && (cache.meshTextures.Keys != startCache.Keys ==> transferFbo != null)
      && (startPaint != null ==> paintFbo == startPaint)
      && (paintFbo != null <==> startPaint != null || project.FoundAmong(i, false, startCache))
      && TexturedUpTo(project, startCache, cache.meshTextures, i)
      && (forall m :: m in cache.meshTextures && m !in startCache ==>
            cache.meshTextures[m].size == TextureSize && m.textureSize == TextureSize)
    }

    /** One iteration of drawScene's mesh loop: a hidden mesh is skipped; a
        visible one gets a texture if it has none, and the paint target is
        bound for it. */
    method PrepareMesh(project: Project, i: nat, ghost startTransfer: RenderTarget?, ghost startPaint: RenderTarget?,
                       ghost startCache: map<Mesh, Texture>)
      requires i < |project.meshes|
      requires MeshLoop(project, i, startTransfer, startPaint, startCache)
      modifies this`transferFbo, this`paintFbo, this`paintLayer, cache`meshTextures
      modifies if project.meshes[i] in project.visible && project.meshes[i] !in cache.meshTextures then {project.meshes[i]} else {}
      ensures paintLayer == old(paintLayer)
      ensures MeshLoop(project, i + 1, startTransfer, startPaint, startCache)
      ensures forall m :: m in old(cache.meshTextures) ==> m in cache.meshTextures && cache.meshTextures[m] == old(cache.meshTextures[m])
      ensures forall m :: m in cache.meshTextures && m !in old(cache.meshTextures) ==> fresh(cache.meshTextures[m])
    {
      var mesh := project.meshes[i];
      ghost var before := cache.meshTextures;
      if mesh in project.visible {
        if mesh !in cache.meshTextures {
          CreateMeshTexture(mesh);
        }
        var paintTarget := PaintFbo();
      }
      TexturedStep(project, startCache, before, cache.meshTextures, i);
    }

    /** The stroke-drawing part of paintGL: with no stroke points nothing
        happens; otherwise the stamps of the whole stroke list are drawn on
        the paint target and the layer becomes dirty. */
    method DrawPaintStrokes()
      requires LayerValid()
      modifies this`paintFbo, this`paintLayer, this`paintLayerIsDirty
      ensures LayerValid()
      ensures strokes == [] ==> LayerUnchanged()
      ensures strokes != [] ==>
                && paintLayerIsDirty
                && paintLayer == old(paintLayer) + Stamps(strokes, dist)
                && paintFbo != null && (old(paintFbo) != null ==> paintFbo == old(paintFbo))
    {
      if |strokes| == 0 {
        return;
      }
      var target := PaintFbo();
      var stamps := EnumerateStamps(strokes, dist);
      paintLayer := paintLayer + stamps;
      paintLayerIsDirty := true;
    }

    /** Composites the paint layer into the textures of the visible meshes
        (the compositing itself is not modelled), then clears it. */
    method BakePaintLayer(project: Project)
      requires LayerValid()
      modifies this`drawFbo, this`transferFbo, this`paintFbo, this`paintLayer, this`paintLayerIsDirty
      ensures LayerValid() && Baked(project)
    {
      var transfer := TransferFbo();
      var i := 0;
      while i < |project.meshes|
        invariant 0 <= i <= |project.meshes|
        invariant LayerValid()
        invariant transferFbo == transfer
        invariant old(transferFbo) != null ==> transfer == old(transferFbo)
        invariant old(transferFbo) == null ==> fresh(transfer)
        invariant old(paintFbo) != null ==> paintFbo == old(paintFbo)
        invariant old(drawFbo) != null ==> drawFbo == old(drawFbo)
        invariant drawFbo != null <==> old(drawFbo) != null || exists k :: 0 <= k < i && project.meshes[k] in project.visible
      {
        if project.meshes[i] in project.visible {
          var paintTarget := PaintFbo();
          var drawTarget := DrawFbo();
        }
        i := i + 1;
      }
      var paintTarget := PaintFbo();
      paintLayer := [];
      paintLayerIsDirty := false;
    }

    method BrushColorChanged(project: Project)
      requires Valid()
      modifies this`drawFbo, this`transferFbo, this`paintFbo, this`paintLayer, this`paintLayerIsDirty
      ensures Valid()
      ensures if old(paintLayerIsDirty) then Baked(project) else LayerUnchanged()
    {
      if paintLayerIsDirty {
        BakePaintLayer(project);
      }
    }

    /** Alt with the mouse free starts a camera gesture (baking a dirty layer
        first); the left button with the mouse free starts a stroke at the
        Y-flipped position, recorded twice; anything else is ignored. */
    method MousePressEvent(project: Project, ev: MouseEvent)
      requires Valid()
      modifies mouse, this`strokes, scratch
      modifies this`drawFbo, this`transferFbo, this`paintFbo, this`paintLayer, this`paintLayerIsDirty
      ensures Valid()
      ensures old(mouse.mode) == Free && ev.alt ==>
                && mouse.mode == CameraMode && mouse.activeButton == ev.button
                && CameraPressed(camera, scratch, ev)
                && strokes == old(strokes)
                && (if old(paintLayerIsDirty) then Baked(project) else LayerUnchanged())
      ensures old(mouse.mode) == Free && !ev.alt && HasLeftBit(ev.button) ==>
                && mouse.mode == Tool && mouse.activeButton == ev.button
                && strokes == old(strokes) + [Flipped(ev), Flipped(ev)]
                && unchanged(scratch) && LayerUnchanged()
      ensures old(mouse.mode) != Free || (!ev.alt && !HasLeftBit(ev.button)) ==>
                && unchanged(mouse) && strokes == old(strokes)
                && unchanged(scratch) && LayerUnchanged()
    {
      if mouse.mode == Free && ev.alt {
        mouse.mode := CameraMode;
        mouse.activeButton := ev.button;
        match camera {
          case Perspective(p) => p.MousePressed(scratch, ev);
          case Orthographic(o) => o.MousePressed(scratch, ev);
        }
        if paintLayerIsDirty {
          BakePaintLayer(project);
        }
      } else if mouse.mode == Free && HasLeftBit(ev.button) {
        strokes := strokes + [Flipped(ev)];
        mouse.mode := Tool;
        mouse.activeButton := ev.button;
        strokes := strokes + [Flipped(ev)];
      }
    }

    /** Releasing the button that started the gesture ends it: a camera
        gesture stops the camera, a tool gesture discards the stroke list. */
    method MouseReleaseEvent(ev: MouseEvent)
      requires Valid()
      modifies mouse, this`strokes, scratch`moveType
      ensures Valid()
      ensures var ends := old(mouse.mode) != Free && ev.button as int == old(mouse.activeButton);
              && (if ends then mouse.mode == Free && mouse.activeButton == -1 else unchanged(mouse))
              && strokes == (if ends && old(mouse.mode) == Tool then [] else old(strokes))
              && scratch.moveType == (if ends && old(mouse.mode) == CameraMode then NotMoving else old(scratch.moveType))
    {
      if mouse.mode == CameraMode && ev.button as int == mouse.activeButton {
        mouse.mode := Free;
        mouse.activeButton := -1;
        match camera {
          case Perspective(p) => p.MouseReleased(scratch, ev);
          case Orthographic(o) => o.MouseReleased(scratch, ev);
        }
      } else if mouse.mode == Hud && ev.button as int == mouse.activeButton {
        mouse.mode := Free;
        mouse.activeButton := -1;
      } else if mouse.mode == Tool && ev.button as int == mouse.activeButton {
        strokes := [];
        mouse.mode := Free;
        mouse.activeButton := -1;
      }
    }

    /** Moves are drags unless the mouse is free. */
    method MouseMoveEvent(ev: MouseEvent)
      requires Valid()
      requires mouse.mode == CameraMode && camera.Orthographic? && scratch.moveType == Panning ==> scratch.viewHeight != 0
      modifies camera.Obj(), scratch`pickX, scratch`pickY, this`strokes
      ensures Valid()
      ensures old(mouse.mode) == Free ==> unchanged(camera.Obj(), scratch) && strokes == old(strokes)
      ensures old(mouse.mode) != Free ==> DragEffect(ev)
    {
      if mouse.mode == Tool {
        MouseDragEvent(ev);
      } else if mouse.mode != Free {
        MouseDragEvent(ev);
      }
    }

    /** A camera drag moves the camera and leaves the stroke list alone; a
        tool drag appends one Y-flipped point; otherwise nothing changes. */
    twostate predicate DragEffect(ev: MouseEvent)
      reads this, mouse, camera.Obj(), scratch
    {
      && (mouse.mode == CameraMode ==> CameraDragged(camera, scratch, ev) && strokes == old(strokes))
      && (mouse.mode == Tool ==>
            && strokes == old(strokes) + [Flipped(ev)]
            && unchanged(camera.Obj()) && scratch.pickX == old(scratch.pickX) && scratch.pickY == old(scratch.pickY))
      && (mouse.mode != CameraMode && mouse.mode != Tool ==>
            unchanged(camera.Obj()) && scratch.pickX == old(scratch.pickX) && scratch.pickY == old(scratch.pickY)
            && strokes == old(strokes))
    }

    method MouseDragEvent(ev: MouseEvent)
      requires Valid()
      requires mouse.mode == CameraMode && camera.Orthographic? && scratch.moveType == Panning ==> scratch.viewHeight != 0
      modifies camera.Obj(), scratch`pickX, scratch`pickY, this`strokes
      ensures Valid() && DragEffect(ev)
    {
      if mouse.mode == CameraMode {
        match camera {
          case Perspective(p) => p.MouseDragged(scratch, ev);
          case Orthographic(o) => o.MouseDragged(scratch, ev);
        }
      } else if mouse.mode == Tool {
        strokes := strokes + [Flipped(ev)];
      }
    }

    /** The widget takes its new size (Qt's handler then calls resizeGL),
        and a dirty layer is baked. */
    method ResizeEvent(project: Project, w: int, h: int)
      requires Valid()
      modifies this`width, this`height, scratch`viewWidth, scratch`viewHeight
      modifies this`drawFbo, this`transferFbo, this`paintFbo, this`paintLayer, this`paintLayerIsDirty
      ensures Valid()
      ensures width == w && height == h && scratch.viewWidth == w && scratch.viewHeight == h
      ensures if old(paintLayerIsDirty) then Baked(project) else LayerUnchanged()
    {
      width, height := w, h;
      ResizeGL(w, h);
      if paintLayerIsDirty {
        BakePaintLayer(project);
      }
    }

    /** With the mouse free, space bakes unconditionally and the bracket
        keys shrink or grow the brush by 10; otherwise keys are ignored. */
    method KeyPressEvent(project: Project, key: int)
      requires Valid()
      modifies settings`brushSize
      modifies this`drawFbo, this`transferFbo, this`paintFbo, this`paintLayer, this`paintLayerIsDirty
      ensures Valid()
      ensures old(mouse.mode) == Free && key == KeySpace ==> Baked(project) && settings.brushSize == old(settings.brushSize)
      ensures settings.brushSize == old(settings.brushSize)
                + (if old(mouse.mode) != Free then 0
                   else if key == KeyBracketLeft then -BrushStep
                   else if key == KeyBracketRight then BrushStep
                   else 0)
      ensures old(mouse.mode) != Free || key != KeySpace ==> LayerUnchanged()
    {
      if mouse.mode == Free {
        if key == KeySpace {
          BakePaintLayer(project);
        } else if key == KeyBracketLeft {
          settings.brushSize := settings.brushSize - BrushStep;
        } else if key == KeyBracketRight {
          settings.brushSize := settings.brushSize + BrushStep;
        }
      }
    }
  }
}
