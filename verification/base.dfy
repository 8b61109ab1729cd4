/** Small building blocks shared by every other module: an optional value,
    bytes, and the textual form of a v4 uuid. */
module Base {

  /** The conventional Some/None datatype, standing in for Rust's `Option`. */
  datatype Option<+T> = None | Some(value: T)

  /** One octet of a file or of an attachment payload. */
  newtype byte = b: int | 0 <= b < 256

  /** A lower-case hexadecimal digit, as `uuid::Uuid`'s `Display` prints them. */
  predicate IsHexLower(c: char) {
    '0' <= c <= '9' || 'a' <= c <= 'f'
  }

  /** Positions of the four hyphens in the 8-4-4-4-12 form. */
  predicate IsHyphenSlot(i: int) {
    i == 8 || i == 13 || i == 18 || i == 23
  }

  /** The hyphenated, lower-case text of a uuid: 36 characters, hex digits
      everywhere except the four hyphen slots. */
  predicate IsUuidText(s: string) {
    && |s| == 36
    && forall i | 0 <= i < |s| :: if IsHyphenSlot(i) then s[i] == '-' else IsHexLower(s[i])
  }

  /** A uuid, identified with the text the source writes into file names and
      documents. Fresh uuids come from outside the model. */
  type Uuid = s: string | IsUuidText(s) witness "00000000-0000-0000-0000-000000000000"
}
