/** The value types of the feed feature: the feed item record and the
    Foundation values it is built from (URL, UUID, optional text). */
module FeedFeature {

  /** An optional value, Swift's `T?`. */
  datatype Option<T> = None | Some(value: T)

  /** A URL, kept as the text it was made from; nothing is parsed. */
  datatype Url = Url(text: string)

  /** A 128-bit value. */
  type UInt128 = x: nat | x < 0x1_0000_0000_0000_0000_0000_0000_0000_0000

  /** A UUID, kept as its 128-bit value. */
  datatype Uuid = Uuid(bits: UInt128)

  /** One item of the feed. Immutable; optional text fields are `None` when absent. */
  datatype FeedItem = FeedItem(
    id: Uuid,
    description: Option<string>,
    location: Option<string>,
    imageURL: Url)
}
