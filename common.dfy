/** Values shared by every part of the model: an optional value, a byte, and
    the browser's `File` object reduced to what the upload code looks at. */
module Common {

  datatype Option<T> = None | Some(value: T)

  /** One byte of file content, as a `Uint8Array` element holds it. */
  newtype byte = x: int | 0 <= x < 256

  /** A browser `File`: its name, its MIME type (`file.type`) and its bytes.
      `file.size` is the byte count. */
  datatype File = File(name: string, mimeType: string, data: seq<byte>)
  {
    function Size(): nat { |data| }
  }
}
