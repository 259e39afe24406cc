/** Values shared by every part of the bot: optional results, bytes and images. */
module Base {

  datatype Option<T> = None | Some(value: T)

  newtype byte = x: int | 0 <= x < 256

  type Bytes = seq<byte>

  /** What a generator hands back: `bytes` decoded from base64 (Kandinsky) or an
      in-memory stream wrapping a response body (Stable Diffusion). */
  datatype Image = RawBytes(data: Bytes) | Stream(data: Bytes)

  /** Python truthiness of a generator result (`if img:`): `None` is false, empty
      `bytes` are false, a stream object is always true. */
  predicate Truthy(img: Option<Image>)
  {
    img.Some? && (img.value.RawBytes? ==> |img.value.data| > 0)
  }
}
