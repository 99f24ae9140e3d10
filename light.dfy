/** A light as the shaders read it (src/renderer/light.rs): an RGBA colour
    whose fourth channel is always written as 0, a 2-D position, a radius and
    a range. */
module Light {
  import opened Gpu

  /** The eight words of a `LightData` as a value, the form in which lights
      are handed to the renderer and copied into its buffer. */
  datatype LightImage = LightImage(color: seq<real>, position: seq<real>, radius: real, range: real)

  /** The image has the lengths of `LightData`'s arrays, `[f32; 4]` and `[f32; 2]`. */
  predicate Sized(l: LightImage) {
    |l.color| == 4 && |l.position| == 2
  }

  /** The image `LightData::new(color, position, radius, range)` builds. */
  function New(color: Rgb, position: Vec2, radius: real, range: real): (l: LightImage)
    ensures |l.color| == 4 && |l.position| == 2
    ensures l.color[..3] == [color.r, color.g, color.b] && l.color[3] == 0.0
    ensures l.position == [position.x, position.y] && l.radius == radius && l.range == range
  {
    LightImage([color.r, color.g, color.b, 0.0], [position.x, position.y], radius, range)
  }

  /** The arguments a light image was built from. */
  datatype LightParams = LightParams(color: Rgb, position: Vec2, radius: real, range: real)

  function Params(l: LightImage): LightParams
    requires |l.color| == 4 && |l.position| == 2
  {
    LightParams(Rgb(l.color[0], l.color[1], l.color[2]), Vec2(l.position[0], l.position[1]), l.radius, l.range)
  }

  /** `new` loses nothing: its arguments are recovered from the image, and
      every well-formed image whose fourth colour channel is 0 is built by
      `new` from the arguments read back from it. */
  lemma NewRoundTrip(p: LightParams, l: LightImage)
    ensures Params(New(p.color, p.position, p.radius, p.range)) == p
    ensures |l.color| == 4 && |l.position| == 2 && l.color[3] == 0.0 ==>
      var q := Params(l); New(q.color, q.position, q.radius, q.range) == l
  {
    if |l.color| == 4 && |l.position| == 2 && l.color[3] == 0.0 {
      var q := Params(l);
      assert New(q.color, q.position, q.radius, q.range).color == l.color;
      assert New(q.color, q.position, q.radius, q.range).position == l.position;
    }
  }

  /** `LightData::default()`. */
  function DefaultLight(): (l: LightImage)
    ensures Sized(l) && l.color[3] == 0.0
  {
    LightImage([1.0, 1.0, 1.0, 0.0], [0.0, 0.0], 0.0, 1.0)
  }

  /** The default light is the one `new` builds for a white light at the
      origin with radius 0 and range 1. */
  lemma DefaultIsWhiteAtOrigin()
    ensures DefaultLight() == New(Rgb(1.0, 1.0, 1.0), Vec2(0.0, 0.0), 0.0, 1.0)
  {
  }

  /** `LightData`, whose `update` overwrites every field in place. */
  class LightData {
    const color: array<real>
    const position: array<real>
    var radius: real
    var range: real

    ghost predicate Valid() {
      color.Length == 4 && position.Length == 2
    }

    /** The current eight words. */
    function Image(): LightImage
      requires Valid()
      reads this, color, position
    {
      LightImage(color[..], position[..], radius, range)
    }

    /** `LightData::default()`. */
    constructor Default()
      ensures Valid() && fresh(color) && fresh(position)
      ensures Image() == DefaultLight()
    {
      color := new real[4](k => if k < 3 then 1.0 else 0.0);
      position := new real[2](_ => 0.0);
      radius := 0.0;
      range := 1.0;
      new;
      assert color[..] == [1.0, 1.0, 1.0, 0.0];
    }

    /** `LightData::new`. */
    constructor (c: Rgb, p: Vec2, r: real, g: real)
      ensures Valid() && fresh(color) && fresh(position)
      ensures Image() == New(c, p, r, g)
    {
      color := new real[4](k => if k == 0 then c.r else if k == 1 then c.g else if k == 2 then c.b else 0.0);
      position := new real[2](k => if k == 0 then p.x else p.y);
      radius := r;
      range := g;
      new;
      assert color[..] == [c.r, c.g, c.b, 0.0];
      assert position[..] == [p.x, p.y];
    }

    /** `update`: afterwards the light is the one `new` would build from the
        same arguments, whatever it held before. */
    method Update(c: Rgb, p: Vec2, r: real, g: real)
      requires Valid()
      modifies this, color, position
      ensures Valid()
      ensures Image() == New(c, p, r, g)
    {
      color[0], color[1], color[2], color[3] := c.r, c.g, c.b, 0.0;
      position[0], position[1] := p.x, p.y;
      radius := r;
      range := g;
    }
  }

  /** `LightsConfig`. */
  datatype LightsConfig = LightsConfig(numLights: u32)

  /** The configuration describing `numLights` lights, stored as
      `len() as u32`. */
  function ConfigFor(numLights: nat): (c: LightsConfig)
    requires numLights <= U32_MAX
    ensures c.numLights as int == numLights
  {
    LightsConfig(numLights as u32)
  }

  /** `LightsConfig::default()`. */
  function DefaultLightsConfig(): (c: LightsConfig)
    ensures c.numLights == 0
  {
    LightsConfig(0)
  }

  /** The default configuration is the one describing no lights. */
  lemma DefaultDescribesNothing()
    ensures DefaultLightsConfig() == ConfigFor(0)
  {
  }
}
