/**
 * Abstract images and the canvas the composition draws on. Pixel data is not
 * modelled: an image is its size and colour mode, and a canvas records, in
 * order, what was pasted onto it and what text was drawn on it.
 */
module Raster {

  /** The PIL colour modes the core distinguishes. */
  datatype Mode = RGB | Grayscale | RGBA | OtherMode(name: string)

  datatype Image = Image(width: nat, height: nat, mode: Mode)

  /** A TrueType font loaded from a file, or PIL's built-in fallback font. */
  datatype FontChoice = TrueType(path: string) | DefaultFont

  datatype Event =
    | Paste(layer: nat, image: Image, x: int, y: int)
    | DrawText(text: string, font: FontChoice, size: int, fill: string, align: string, left: real, top: real)

  /** The in-progress composite: fixed dimensions, mutated by successive pastes and text draws. */
  class Canvas {
    const width: nat
    const height: nat
    const mode: Mode
    var events: seq<Event>

    /** A copy of `template`, with nothing drawn on it yet. */
    constructor (template: Image)
      ensures width == template.width && height == template.height && mode == template.mode
      ensures events == []
    {
      width, height, mode := template.width, template.height, template.mode;
      events := [];
    }

    method Paste(layer: nat, image: Image, x: int, y: int)
      modifies this
      ensures events == old(events) + [Event.Paste(layer, image, x, y)]
    {
      events := events + [Event.Paste(layer, image, x, y)];
    }

    method DrawText(text: string, font: FontChoice, size: int, fill: string, align: string, left: real, top: real)
      modifies this
      ensures events == old(events) + [Event.DrawText(text, font, size, fill, align, left, top)]
    {
      events := events + [Event.DrawText(text, font, size, fill, align, left, top)];
    }
  }
}
