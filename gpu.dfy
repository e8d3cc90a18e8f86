/**
 * The graphics-device side as far as the renderer sees it. GPU objects are
 * opaque: each is a class whose object identity stands for the GPU resource
 * (a newly created resource is a `fresh` object), carrying only the
 * dimensions and references the renderer relies on. A command encoder is a
 * class whose field records, in order, what was recorded into it.
 */
module Gpu {
  import opened Instances

  /** Rust's `u16`. */
  newtype u16 = x: int | 0 <= x < 0x1_0000

  datatype Option<T> = None | Some(value: T)

  /** A scissor rectangle in target pixels (`x`, `y`, `width`, `height`, each a u32). */
  datatype Region = Region(x: nat, y: nat, width: nat, height: nat)

  datatype FilterMode = Nearest | Linear

  /** A two-dimensional single-channel texture. */
  class Texture {
    const width: nat
    const height: nat

    constructor (width: nat, height: nat)
      ensures this.width == width && this.height == height
    {
      this.width := width;
      this.height := height;
    }
  }

  class TextureView {
    const texture: Texture

    constructor (texture: Texture)
      ensures this.texture == texture
    {
      this.texture := texture;
    }
  }

  /** A clamp-to-edge sampler using one filter for magnification, minification and mipmaps. */
  class Sampler {
    const filter: FilterMode

    constructor (filter: FilterMode)
      ensures this.filter == filter
    {
      this.filter := filter;
    }
  }

  /** A GPU buffer of `size` bytes; `floats` is what was written into it as f32 values. */
  class Buffer {
    const size: nat
    var floats: seq<real>

    constructor (size: nat, floats: seq<real>)
      ensures this.size == size && this.floats == floats
    {
      this.size := size;
      this.floats := floats;
    }
  }

  /** The layout {uniform buffer at the vertex stage, sampler, sampled texture}. */
  class BindGroupLayout {
    constructor ()
    {
    }
  }

  /** A bind group: the transform buffer, the sampler and an atlas view under one layout. */
  class BindGroup {
    const layout: BindGroupLayout
    const transform: Buffer
    const sampler: Sampler
    const view: TextureView

    constructor (layout: BindGroupLayout, transform: Buffer, sampler: Sampler, view: TextureView)
      ensures this.layout == layout && this.transform == transform
      ensures this.sampler == sampler && this.view == view
    {
      this.layout := layout;
      this.transform := transform;
      this.sampler := sampler;
      this.view := view;
    }
  }

  /** A depth/stencil attachment handed to a draw; opaque here. */
  class DepthStencilAttachment {
    constructor ()
    {
    }
  }

  datatype Origin3d = Origin3d(x: nat, y: nat, z: nat)
  datatype Extent3d = Extent3d(width: nat, height: nat, depth: nat)

  /** Where the bytes of a buffer-to-texture copy come from. */
  datatype BufferCopy = BufferCopy(bytes: seq<bv8>, offset: nat, bytesPerRow: nat, rowsPerImage: nat)

  datatype Command =
    /** A copy of a staging buffer into a texture region. */
    | CopyBufferToTexture(source: BufferCopy, texture: Texture, origin: Origin3d, extent: Extent3d)
    /** What the pipeline records for one atlas patch (its body is not part of this model). */
    | UpdateCache(offset: (u16, u16), size: (u16, u16), data: seq<bv8>)
    /** What the pipeline records to upload the instances of a frame. */
    | Upload(instances: seq<Instance>)
    /** What the pipeline records for one instanced draw. */
    | Draw(target: TextureView, depth: Option<DepthStencilAttachment>, transform: seq<real>,
           region: Option<Region>)

  /** A command encoder: the commands recorded so far, oldest first. */
  class Encoder {
    var commands: seq<Command>

    constructor ()
      ensures commands == []
    {
      commands := [];
    }
  }
}
