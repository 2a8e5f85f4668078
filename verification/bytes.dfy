/** Bytes, texts and the two wrapper types every other module uses. */
module Bytes {
  newtype byte = b: int | 0 <= b < 0x100

  // A Rust string is seen through its UTF-8 bytes: every length the runtime looks at is a byte length.
  type Text = seq<byte>

  datatype Option<+T> = None | Some(value: T)

  datatype Result<+T, +E> = Ok(value: T) | Err(error: E)

  function Min(a: int, b: int): int { if a <= b then a else b }

  function Max(a: int, b: int): int { if a <= b then b else a }

  /** The bytes of an ASCII literal. */
  function Ascii(s: string): Text {
    seq(|s|, i requires 0 <= i < |s| => if s[i] < 128 as char then s[i] as int as byte else 63)
  }

  /** The pieces of a `format!` string, joined. */
  function Format(pieces: seq<Text>): Text {
    if pieces == [] then [] else pieces[0] + Format(pieces[1..])
  }

  /** The decimal digits of n, as `{}` formats them. */
  function Decimal(n: nat): Text {
    if n < 10 then [(48 + n) as byte] else Decimal(n / 10) + [(48 + n % 10) as byte]
  }
}
