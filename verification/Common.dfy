/** What several modules use. */
module Common {

  datatype Option<T> = None | Some(value: T)

  newtype Byte = x: int | 0 <= x < 256

  function Min(a: nat, b: nat): nat { if a <= b then a else b }

  /** Lines or commands as they are sent, each with its delimiter. */
  function Join(parts: seq<string>, d: string): string {
    if parts == [] then "" else parts[0] + d + Join(parts[1..], d)
  }
}
