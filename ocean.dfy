/** The ocean's LOD transforms as the cascade managers read them. The
    OceanRenderer.Instance singleton becomes an explicit value. */
module Ocean {

  datatype Vec2 = Vec2(x: real, y: real)

  datatype Vec3 = Vec3(x: real, y: real, z: real)

  /** Unity's Rect: position of the minimum corner plus size. `Contains` is
      half-open, [xMin, xMax) by [yMin, yMax), which is how Unity implements
      Rect.Contains(Vector2); that implementation is not part of this model and
      is taken as given. */
  datatype Rect = Rect(x: real, y: real, width: real, height: real) {
    function Min(): Vec2 { Vec2(x, y) }
    function Max(): Vec2 { Vec2(x + width, y + height) }

    predicate Contains(p: Vec2) {
      x <= p.x && p.x < x + width && y <= p.y && p.y < y + height
    }
  }

  /** Per-LOD render data: the world-space XZ rectangle it covers, the width of
      one texel and the texture resolution. */
  datatype RenderData = RenderData(rectXZ: Rect, texelWidth: real, textureRes: real)

  /** One LOD: its render data and LodTransform.MaxWavelength(), given. */
  datatype LodTransform = LodTransform(renderData: RenderData, maxWavelength: real)

  /** What the managers read from OceanRenderer.Instance. */
  datatype OceanRenderer = OceanRenderer(
    lods: seq<LodTransform>,
    scaleCouldDecrease: bool,
    viewerAltitudeLevelAlpha: real,
    hasDynWaves: bool,        // _lodDataDynWaves is present
    hasFlow: bool             // _lodDataFlow is present
  ) {
    /** CurrentLodCount: one LOD transform per LOD. */
    function CurrentLodCount(): nat { |lods| }

    /** Every LOD has a positive texture resolution (the manager divides by it). */
    predicate Valid() {
      forall i :: 0 <= i < |lods| ==> lods[i].renderData.textureRes > 0.0
    }
  }
}
