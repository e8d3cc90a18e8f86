/**
 * The rendering pipeline's resources: the transform uniform buffer, the
 * sampler, the glyph atlas, the bind group that ties the three together
 * under one layout, and the instance buffer. Resizing the atlas replaces the
 * cache and rebuilds the bind group; everything else is kept.
 *
 * The commands the pipeline records for the brush (an atlas patch update,
 * an instance upload, a draw) are recorded as they are requested: what the
 * GPU then does with them is outside this model.
 */
module Pipelines {
  import opened Instances
  import opened Gpu
  import opened AtlasCache

  /** `Pipeline::IDENTITY_MATRIX`: the 4x4 identity, column by column. */
  const IdentityMatrix: seq<real> := [
    1.0, 0.0, 0.0, 0.0,
    0.0, 1.0, 0.0, 0.0,
    0.0, 0.0, 1.0, 0.0,
    0.0, 0.0, 0.0, 1.0
  ]

  /** `Instance::MAX`: how many instances the instance buffer holds. */
  const MaxInstances: nat := 50_000

  /** `size_of::<Instance>()`: 3 + 2 + 2 + 2 + 4 f32 values of 4 bytes. */
  const InstanceBytes: nat := 52

  /** The transform uniform: 16 f32 values, bound as the byte range 0..64. */
  const TransformBytes: nat := 64

  /**
   * A column-major 4x4 matrix applied to a 4-vector. This stands for the
   * multiply the vertex shader performs on every corner; the shader is not
   * part of this model, and nothing in the Rust code computes this product.
   */
  function Apply(m: seq<real>, v: seq<real>): (r: seq<real>)
    requires |m| == 16 && |v| == 4
    ensures |r| == 4
  {
    seq(4, i requires 0 <= i < 4 =>
      m[i] * v[0] + m[4 + i] * v[1] + m[8 + i] * v[2] + m[12 + i] * v[3])
  }

  /** The initial transform leaves every position where it is. */
  lemma IdentityMatrixFixesPoints(v: seq<real>)
    requires |v| == 4
    ensures Apply(IdentityMatrix, v) == v
  {
    var r := Apply(IdentityMatrix, v);
    assert r[0] == v[0] && r[1] == v[1] && r[2] == v[2] && r[3] == v[3];
  }

  class Pipeline {
    var transform: Buffer
    var sampler: Sampler
    var cache: Cache
    var uniformLayout: BindGroupLayout
    var uniforms: BindGroup
    var instances: Buffer

    /**
     * The bind group binds this pipeline's transform buffer, its sampler and
     * the view of its current atlas, under its own layout.
     */
    ghost predicate Valid()
      reads this
    {
      && uniforms.layout == uniformLayout
      && uniforms.transform == transform
      && uniforms.sampler == sampler
      && uniforms.view == cache.view
      && cache.view.texture == cache.texture
    }

    /**
     * `Pipeline::new`: an identity transform, a sampler with `filter`, an
     * atlas of `cacheWidth` by `cacheHeight`, the bind group over them and an
     * instance buffer for `Instance::MAX` instances.
     */
    constructor (filter: FilterMode, cacheWidth: nat, cacheHeight: nat)
      ensures Valid()
      ensures fresh(transform) && fresh(sampler) && fresh(cache) && fresh(cache.texture)
      ensures fresh(uniformLayout) && fresh(uniforms) && fresh(instances)
      ensures transform.size == TransformBytes && transform.floats == IdentityMatrix
      ensures sampler.filter == filter
      ensures cache.texture.width == cacheWidth && cache.texture.height == cacheHeight
      ensures instances.size == InstanceBytes * MaxInstances && instances.floats == []
    {
      var t := new Buffer(TransformBytes, IdentityMatrix);
      var s := new Sampler(filter);
      var c := new Cache(cacheWidth, cacheHeight);
      var layout := new BindGroupLayout();
      transform := t;
      sampler := s;
      cache := c;
      uniformLayout := layout;
      uniforms := new BindGroup(layout, t, s, c.view);
      instances := new Buffer(InstanceBytes * MaxInstances, []);
    }

    /**
     * `Pipeline::increase_cache_size`: a new atlas of exactly `width` by
     * `height`, and a new bind group over the same transform, sampler and
     * layout and the new atlas view. The instance buffer is kept.
     */
    method IncreaseCacheSize(width: nat, height: nat)
      modifies this
      ensures Valid()
      ensures fresh(cache) && fresh(cache.texture) && fresh(uniforms)
      ensures cache.texture.width == width && cache.texture.height == height
      ensures transform == old(transform) && sampler == old(sampler)
      ensures uniformLayout == old(uniformLayout) && instances == old(instances)
    {
      cache := new Cache(width, height);
      uniforms := new BindGroup(uniformLayout, transform, sampler, cache.view);
    }

    /** `update_cache`: record the upload of one atlas patch. */
    method UpdateCache(encoder: Encoder, offset: (u16, u16), size: (u16, u16), data: seq<bv8>)
      modifies encoder
      ensures encoder.commands == old(encoder.commands) + [Command.UpdateCache(offset, size, data)]
    {
      encoder.commands := encoder.commands + [Command.UpdateCache(offset, size, data)];
    }

    /** `upload`: record the upload of the instances of a frame. */
    method Upload(encoder: Encoder, vertices: seq<Instance>)
      modifies encoder
      ensures encoder.commands == old(encoder.commands) + [Command.Upload(vertices)]
    {
      encoder.commands := encoder.commands + [Command.Upload(vertices)];
    }

    /** `draw`: record one instanced draw into `target`. */
    method Draw(encoder: Encoder, target: TextureView, depth: Option<DepthStencilAttachment>,
                transform: seq<real>, region: Option<Region>)
      modifies encoder
      ensures encoder.commands == old(encoder.commands) + [Command.Draw(target, depth, transform, region)]
    {
      encoder.commands := encoder.commands + [Command.Draw(target, depth, transform, region)];
    }
  }
}
