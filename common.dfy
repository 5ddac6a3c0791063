/** Value types shared by every service: Java's nullable references, the
    `Result` reply the services hand to their controllers, and Hutool's
    JSONUtil seen as an encoder/decoder pair. */
module Common {
  import opened Text

  /** A Java reference that may be null. */
  datatype Option<+T> = None | Some(value: T)

  /** com.hmdp.dto.Result: `ok(data)` or `fail(errorMsg)`. `ok()` without
      data is `Ok(())`. */
  datatype Reply<+T> = Ok(data: T) | Fail(errorMsg: string)

  /** JSONUtil.toJsonStr / JSONUtil.toBean for one target type. */
  datatype Codec<!T> = Codec(encode: T -> string, decode: string -> T)

  /** What JSON guarantees and the cache relies on: the text of an object is
      never blank, and decoding it gives the object back. */
  ghost predicate Faithful<T(!new)>(c: Codec<T>)
  {
    forall x :: !IsBlank(c.encode(x)) && c.decode(c.encode(x)) == x
  }
}
