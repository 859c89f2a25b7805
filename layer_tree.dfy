/** LayerTree: the frame container the animator hands to the pipeline.  Its
    frame size and pixel ratio are fixed at construction; the root layer, the
    rasterizer tracing threshold and the two checkerboard flags are set by
    plain setters, each of which overwrites one field and nothing else. */
module LayerTrees {
  import opened Layers
  import Wrappers

  type uint32 = x: int | 0 <= x < 0x1_0000_0000

  /** SkISize: a frame size in physical pixels. */
  datatype ISize = ISize(width: int, height: int)

  /** SkISize::MakeEmpty. */
  const EmptySize := ISize(0, 0)

  class LayerTree {
    /** The root layer; the shared pointer may be null. */
    var rootLayer: Wrappers.Option<Layer>
    /** No setter exists: the size is fixed for the tree's lifetime. */
    const frameSize: ISize
    const devicePixelRatio: real
    var rasterizerTracingThreshold: uint32
    var checkerboardRasterCacheImages: bool
    var checkerboardOffscreenLayers: bool

    /** A tree of the given frame size and pixel ratio, with no root layer,
        tracing disabled and no checkerboarding (layer_tree.cc is not part of
        this model, and the header gives these fields no initialisers, so
        these initial values are assumed). */
    constructor (frameSize: ISize, devicePixelRatio: real)
      ensures this.frameSize == frameSize && this.devicePixelRatio == devicePixelRatio
      ensures rootLayer == Wrappers.None && !TracingEnabled()
      ensures !checkerboardRasterCacheImages && !checkerboardOffscreenLayers
    {
      this.frameSize := frameSize;
      this.devicePixelRatio := devicePixelRatio;
      rootLayer := Wrappers.None;
      rasterizerTracingThreshold := 0;
      checkerboardRasterCacheImages := false;
      checkerboardOffscreenLayers := false;
    }

    /** LayerTree::root_layer. */
    function RootLayer(): Wrappers.Option<Layer>
      reads this
    {
      rootLayer
    }

    /** LayerTree::set_root_layer: the getter returns what was set, and
        nothing else about the tree changes. */
    method SetRootLayer(root: Wrappers.Option<Layer>)
      modifies this
      ensures RootLayer() == root
      ensures rasterizerTracingThreshold == old(rasterizerTracingThreshold)
      ensures checkerboardRasterCacheImages == old(checkerboardRasterCacheImages)
      ensures checkerboardOffscreenLayers == old(checkerboardOffscreenLayers)
    {
      rootLayer := root;
    }

    /** A threshold of 0 disables all tracing. */
    predicate TracingEnabled()
      reads this
    {
      rasterizerTracingThreshold != 0
    }

    /** LayerTree::set_rasterizer_tracing_threshold: the interval round-trips
        through the getter; 0 disables tracing. */
    method SetRasterizerTracingThreshold(interval: uint32)
      modifies this
      ensures rasterizerTracingThreshold == interval
      ensures TracingEnabled() <==> interval != 0
      ensures rootLayer == old(rootLayer)
      ensures checkerboardRasterCacheImages == old(checkerboardRasterCacheImages)
      ensures checkerboardOffscreenLayers == old(checkerboardOffscreenLayers)
    {
      rasterizerTracingThreshold := interval;
    }

    /** LayerTree::set_checkerboard_raster_cache_images: changes only its flag. */
    method SetCheckerboardRasterCacheImages(checkerboard: bool)
      modifies this
      ensures checkerboardRasterCacheImages == checkerboard
      ensures checkerboardOffscreenLayers == old(checkerboardOffscreenLayers)
      ensures rootLayer == old(rootLayer) && rasterizerTracingThreshold == old(rasterizerTracingThreshold)
    {
      checkerboardRasterCacheImages := checkerboard;
    }

    /** LayerTree::set_checkerboard_offscreen_layers: changes only its flag. */
    method SetCheckerboardOffscreenLayers(checkerboard: bool)
      modifies this
      ensures checkerboardOffscreenLayers == checkerboard
      ensures checkerboardRasterCacheImages == old(checkerboardRasterCacheImages)
      ensures rootLayer == old(rootLayer) && rasterizerTracingThreshold == old(rasterizerTracingThreshold)
    {
      checkerboardOffscreenLayers := checkerboard;
    }
  }

  /** Setting the two checkerboard flags in either order gives the same tree:
      two trees that agree before, one set in each order, agree after, and
      each keeps its root layer, threshold, size and pixel ratio. */
  method CheckerboardSettersCommute(t1: LayerTree, t2: LayerTree, a: bool, b: bool)
    requires t1.rootLayer == t2.rootLayer && t1.rasterizerTracingThreshold == t2.rasterizerTracingThreshold
    requires t1.frameSize == t2.frameSize && t1.devicePixelRatio == t2.devicePixelRatio
    modifies t1, t2
    ensures t1.rootLayer == t2.rootLayer == old(t1.rootLayer)
    ensures t1.rasterizerTracingThreshold == t2.rasterizerTracingThreshold == old(t1.rasterizerTracingThreshold)
    ensures t1.checkerboardRasterCacheImages == t2.checkerboardRasterCacheImages == a
    ensures t1.checkerboardOffscreenLayers == t2.checkerboardOffscreenLayers == b
  {
    t1.SetCheckerboardRasterCacheImages(a);
    t1.SetCheckerboardOffscreenLayers(b);
    t2.SetCheckerboardOffscreenLayers(b);
    t2.SetCheckerboardRasterCacheImages(a);
  }
}
