/*
 * The overhead ("TA style") camera: a ground position looked at from a
 * height along a tilted direction. Modelled are its save/restore pair, the
 * clamping of position, height and tilt, and its two accessors.
 */
module OverheadController {
  import opened Wrappers
  import opened Vectors

  /** Size of one map square in world units (`SQUARE_SIZE`). */
  const SquareSize: int

  /** What the camera saves and restores. */
  datatype CameraState = CameraState(pos: Float3, dir: Float3, height: real, zscale: real, flipped: bool)

  /** The ten values `GetState` appends: the controller number, position, direction,
      height, tilt, and +1 for a flipped camera or -1 otherwise. */
  function EncodeState(num: int, s: CameraState): (fv: seq<real>)
    ensures |fv| == 10 && fv[0] == num as real
  {
    [num as real, s.pos.x, s.pos.y, s.pos.z, s.dir.x, s.dir.y, s.dir.z, s.height, s.zscale,
     if s.flipped then 1.0 else -1.0]
  }

  /** What `SetState` accepts and restores: exactly ten values whose first is the
      controller number; the camera is flipped when the last value is positive. */
  function DecodeState(num: int, fv: seq<real>): (r: Option<CameraState>)
    ensures r.Some? <==> |fv| == 10 && fv[0] == num as real
  {
    if |fv| != 10 || fv[0] != num as real then None
    else Some(CameraState(Float3(fv[1], fv[2], fv[3]), Float3(fv[4], fv[5], fv[6]), fv[7], fv[8], fv[9] > 0.0))
  }

  /** Restoring a saved state gives back every saved field. */
  lemma DecodeEncodeState(num: int, s: CameraState)
    ensures DecodeState(num, EncodeState(num, s)) == Some(s)
  {
  }

  /** `GetState` appends to the caller's vector, so a vector that was not empty
      before does not restore. */
  lemma DecodeAfterPrefix(num: int, prefix: seq<real>, s: CameraState)
    requires prefix != []
    ensures DecodeState(num, prefix + EncodeState(num, s)) == None
  {
  }

  /** A restored vector, saved again, reproduces itself except that the flip flag is
      normalised to +1 or -1. */
  lemma EncodeDecodeState(num: int, fv: seq<real>)
    requires DecodeState(num, fv).Some?
    ensures var back := EncodeState(num, DecodeState(num, fv).value);
      back[..9] == fv[..9] && (back[9] == 1.0 <==> fv[9] > 0.0) && (back[9] == -1.0 <==> fv[9] <= 0.0)
  {
  }

  /** The clamp `GetPos` applies to a ground coordinate: first up to 0.01, then down
      to `hi`. */
  function ClampCoordinate(v: real, hi: real): (r: real)
    ensures r <= hi
    ensures hi >= 0.01 ==> 0.01 <= r
    ensures 0.01 <= v <= hi ==> r == v
    ensures r == v || r == 0.01 || r == hi
  {
    var low := if v < 0.01 then 0.01 else v;
    if low > hi then hi else low
  }

  /** The clamp `GetPos` applies to the height: first up to 60, then down to `maxHeight`. */
  function ClampHeight(h: real, maxHeight: real): (r: real)
    ensures r <= maxHeight
    ensures maxHeight >= 60.0 ==> 60.0 <= r
    ensures 60.0 <= h <= maxHeight ==> r == h
    ensures r == h || r == 60.0 || r == maxHeight
  {
    var low := if h < 60.0 then 60.0 else h;
    if low > maxHeight then maxHeight else low
  }

  /** The clamp `MouseWheelMove` applies to the tilt. */
  function ClampZScale(z: real): (r: real)
    ensures 0.05 <= r <= 10.0
    ensures 0.05 <= z <= 10.0 ==> r == z
    ensures z < 0.05 ==> r == 0.05
    ensures z > 10.0 ==> r == 10.0
  {
    var low := if z < 0.05 then 0.05 else z;
    if low > 10.0 then 10.0 else low
  }

  /** The clamps leave a clamped value where it is. */
  lemma ClampsIdempotent(v: real, hi: real, h: real, maxHeight: real, z: real)
    requires hi >= 0.01 && maxHeight >= 60.0
    ensures ClampCoordinate(ClampCoordinate(v, hi), hi) == ClampCoordinate(v, hi)
    ensures ClampHeight(ClampHeight(h, maxHeight), maxHeight) == ClampHeight(h, maxHeight)
    ensures ClampZScale(ClampZScale(z)) == ClampZScale(z)
  {
  }

  /** `COverheadController`. */
  class COverheadController {
    const num: int
    var pos: Float3
    var dir: Float3
    var height: real
    var zscale: real
    var oldAltHeight: real
    var maxHeight: real
    var changeAltHeight: bool
    var flipped: bool
    var scrollSpeed: real
    var tiltSpeed: real
    var enabled: bool
    var fov: real

    /** The constructor; the four settings are read from the configuration, whose
        defaults are 10, 1.0, 1 and 45.0. */
    constructor (n: int, scrollSetting: int, tiltSetting: real, enabledSetting: int, fovSetting: real)
      ensures num == n && height == 500.0 && zscale == 0.5 && oldAltHeight == 500.0
      ensures maxHeight == 10000.0 && changeAltHeight && !flipped
      ensures scrollSpeed == scrollSetting as real * 0.1 && tiltSpeed == tiltSetting
      ensures enabled == (enabledSetting != 0) && fov == fovSetting
    {
      num := n;
      height := 500.0;
      zscale := 0.5;
      oldAltHeight := 500.0;
      maxHeight := 10000.0;
      changeAltHeight := true;
      flipped := false;
      scrollSpeed := scrollSetting as real * 0.1;
      tiltSpeed := tiltSetting;
      enabled := enabledSetting != 0;
      fov := fovSetting;
    }

    function State(): CameraState
      reads this
    {
      CameraState(pos, dir, height, zscale, flipped)
    }

    /** `GetState(fv)`: the ten values are appended to the caller's vector. */
    method GetState(fv: seq<real>) returns (out: seq<real>)
      ensures out == fv + EncodeState(num, State())
      ensures |out| == |fv| + 10
    {
      out := fv;
      out := out + [num as real];
      out := out + [pos.x];
      out := out + [pos.y];
      out := out + [pos.z];
      out := out + [dir.x];
      out := out + [dir.y];
      out := out + [dir.z];
      out := out + [height];
      out := out + [zscale];
      out := out + [if flipped then 1.0 else -1.0];
    }

    /** `SetState(fv)`: a vector of the wrong size or for another controller is
        refused and changes nothing. */
    method SetState(fv: seq<real>) returns (ok: bool)
      modifies this
      ensures ok <==> DecodeState(num, fv).Some?
      ensures ok ==> State() == DecodeState(num, fv).value
      ensures !ok ==> unchanged(this)
      ensures oldAltHeight == old(oldAltHeight) && maxHeight == old(maxHeight)
      ensures changeAltHeight == old(changeAltHeight) && scrollSpeed == old(scrollSpeed)
      ensures tiltSpeed == old(tiltSpeed) && enabled == old(enabled) && fov == old(fov)
    {
      if |fv| != 10 || fv[0] != num as real {
        return false;
      }
      pos := Float3(fv[1], fv[2], fv[3]);
      dir := Float3(fv[4], fv[5], fv[6]);
      height := fv[7];
      zscale := fv[8];
      flipped := fv[9] > 0.0;
      return true;
    }

    /** The clamping part of `GetPos`: the maximum height follows the map size, the
        position is kept on the map and the height between 60 and the maximum; the
        position is then put on the ground (`groundHeight`) and the direction derived
        from the tilt. The camera stands `height` back along that direction. */
    method GetPos(mapx: int, mapy: int, groundHeight: (real, real) -> real) returns (cpos: Float3)
      modifies this`pos, this`height, this`maxHeight, this`dir
      ensures maxHeight == 9.5 * (if mapx > mapy then mapx else mapy) as real
      ensures pos.x == ClampCoordinate(old(pos.x), (mapx * SquareSize) as real - 0.01)
      ensures pos.z == ClampCoordinate(old(pos.z), (mapy * SquareSize) as real - 0.01)
      ensures pos.y == groundHeight(pos.x, pos.z)
      ensures height == ClampHeight(old(height), maxHeight)
      ensures dir == Normalize(Float3(0.0, -1.0, if flipped then zscale else -zscale))
      ensures cpos == pos.Sub(dir.Scale(height))
    {
      maxHeight := 9.5 * (if mapx > mapy then mapx else mapy) as real;
      var x, z := pos.x, pos.z;
      if x < 0.01 { x := 0.01; }
      if z < 0.01 { z := 0.01; }
      if x > (mapx * SquareSize) as real - 0.01 {
        x := (mapx * SquareSize) as real - 0.01;
      }
      if z > (mapy * SquareSize) as real - 0.01 {
        z := (mapy * SquareSize) as real - 0.01;
      }
      if height < 60.0 {
        height := 60.0;
      }
      if height > maxHeight {
        height := maxHeight;
      }
      pos := Float3(x, groundHeight(x, z), z);
      dir := Normalize(Float3(0.0, -1.0, if flipped then zscale else -zscale));
      cpos := pos.Sub(dir.Scale(height));
    }

    /** The tilt branch of `MouseWheelMove` (taken while Ctrl is held): the tilt is
        scaled by the wheel movement, three times as fast with Shift, and kept
        between 0.05 and 10. */
    method MouseWheelTilt(move: real, mouseScale: real, shift: bool)
      modifies this`zscale
      ensures zscale == ClampZScale(old(zscale) * (1.0 + move * tiltSpeed * mouseScale * (if shift then 3.0 else 1.0)))
      ensures 0.05 <= zscale <= 10.0
    {
      zscale := zscale * (1.0 + (move * tiltSpeed * mouseScale * (if shift then 3.0 else 1.0)));
      if zscale < 0.05 {
        zscale := 0.05;
      }
      if zscale > 10.0 {
        zscale := 10.0;
      }
    }

    function GetDir(): (d: Float3)
      reads this
      ensures d == State().dir
    {
      dir
    }

    function SwitchFrom(): (p: Float3)
      reads this
      ensures p == State().pos
    {
      pos
    }
  }

  /** Saving a camera's state into an empty vector and restoring it into a camera
      with the same number restores position, direction, height, tilt and flip. */
  method SaveRestore(from: COverheadController, to: COverheadController) returns (ok: bool)
    requires from.num == to.num
    modifies to
    ensures ok && to.State() == old(from.State())
  {
    var fv := from.GetState([]);
    DecodeEncodeState(from.num, from.State());
    ok := to.SetState(fv);
  }
}
