/** The pooled fading effects (FadingObjectController.cs): a circle spawned
    under a landing ring and a ring spawned over a fully painted ring. Each
    fade grows the object towards a target scale while its colour keeps its
    hue and loses its opacity, and ends with a reset that returns the object
    to its pool. */
module Fading {
  import opened Common

  /** One fade routine: scale and colour end points, duration, elapsed time. */
  datatype Fade = Fade(startScale: Vec3, newScale: Vec3, startColor: Color, endColor: Color, time: real, t: real)

  class FadingObject {
    var active: bool
    var position: Vec3
    var scale: Vec3
    /** Colour of the object's material. */
    var color: Color
    /** The colour a finished fade restores; white until a circle fade
        captures the material colour. */
    var originalColor: Color
    var parent: object?

    constructor (color: Color)
      ensures !active && scale == One3 && this.color == color && originalColor == White && parent == null
    {
      active := false;
      position := Zero3;
      scale := One3;
      this.color := color;
      originalColor := White;
      parent := null;
    }

    /** Starts a circle fade. The material colour is captured as the
        colour to restore only while the captured colour is still white, so
        once something else has been captured it never changes again. */
    method CircleFading(newScale: Vec3, fadingTime: real) returns (f: Fade)
      modifies this
      ensures active == old(active) && position == old(position) && scale == old(scale)
      ensures color == old(color) && parent == old(parent)
      ensures old(originalColor) == White ==> originalColor == old(color)
      ensures old(originalColor) != White ==> originalColor == old(originalColor)
      ensures f == Fade(scale, newScale, color, Transparent(color), fadingTime, 0.0)
    {
      if originalColor == White {
        originalColor := color;
      }
      f := Fade(scale, newScale, color, Transparent(color), fadingTime, 0.0);
    }

    /** Starts a ring fade: the material takes the current ring colour
        first. The colour to restore is never captured here. */
    method RingFading(newScale: Vec3, fadingTime: real, ringColor: Color) returns (f: Fade)
      modifies this
      ensures active == old(active) && position == old(position) && scale == old(scale)
      ensures parent == old(parent) && originalColor == old(originalColor)
      ensures color == ringColor
      ensures f == Fade(scale, newScale, ringColor, Transparent(ringColor), fadingTime, 0.0)
    {
      color := ringColor;
      f := Fade(scale, newScale, color, Transparent(color), fadingTime, 0.0);
    }

    /** One frame of either fade. While running, the scale is interpolated
        towards the target and the colour keeps its red, green and blue
        while its opacity falls from the start opacity towards zero. On the
        frame after the time has elapsed the object is reset: unit scale,
        the colour to restore, no parent, inactive. */
    method StepFade(f: Fade, dt: real) returns (r: Option<Fade>)
      requires 0.0 <= f.t && 0.0 <= dt
      requires f.endColor == Transparent(f.startColor)
      modifies this
      ensures position == old(position) && originalColor == old(originalColor)
      ensures f.t < f.time ==>
        && r == Some(f.(t := f.t + dt))
        && scale == Lerp(f.startScale, f.newScale, (f.t + dt) / f.time)
        && color == LerpColor(f.startColor, f.endColor, (f.t + dt) / f.time)
        && active == old(active) && parent == old(parent)
      ensures f.t < f.time ==>
        && color.r == f.startColor.r && color.g == f.startColor.g && color.b == f.startColor.b
        && (0.0 <= f.startColor.a ==> 0.0 <= color.a <= f.startColor.a)
      ensures f.t < f.time && f.t + dt >= f.time ==> scale == f.newScale && color == Transparent(f.startColor)
      ensures f.t >= f.time ==>
        r.None? && scale == One3 && color == originalColor && parent == null && !active
    {
      if f.t < f.time {
        var next := f.(t := f.t + dt);
        if next.t >= next.time {
          ElapsedFactor(next.t, next.time);
        }
        scale := Lerp(next.startScale, next.newScale, next.t / next.time);
        color := LerpColor(next.startColor, next.endColor, next.t / next.time);
        return Some(next);
      }
      scale := One3;
      color := originalColor;
      parent := null;
      active := false;
      r := None;
    }
  }
}
