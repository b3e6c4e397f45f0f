/** Values shared by the compositing editor and the session controller. */
module Common {

  /** A value that may be absent, as a JavaScript `null`. */
  datatype Option<T> = None | Some(value: T)

  /** A position in pixels (screen, preview or canvas coordinates). */
  datatype Point = Point(x: real, y: real)

  /** A width and a height in pixels. */
  datatype Size = Size(width: real, height: real)

  /** JavaScript truthiness of an image source: both `null` and the empty string are falsy. */
  predicate Present(src: Option<string>)
  {
    src.Some? && src.value != ""
  }
}
