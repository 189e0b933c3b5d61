/** The serializer, left abstract: a codec is any pair of functions, and the
    model relies on one fact about JSON only. */
module Json {
  import opened Base

  /** The outcome of json.Marshal. */
  datatype Marshalled = Encoded(text: string) | Unencodable(reason: string)

  /** json.Marshal and json.Unmarshal for values of type V: `decode` is None
      exactly when Unmarshal reports an error. */
  datatype Codec<!V> = Codec(marshal: V -> Marshalled, decode: string -> Option<V>)

  /** The one fact about JSON the cache depends on: a lone `*` is not a JSON
      text (RFC 8259, sections 2 and 3), so Unmarshal rejects it. */
  ghost predicate RejectsStar<V>(c: Codec<V>) {
    c.decode("*").None?
  }

  /** Marshal's output decodes back to the value marshalled. Not assumed by
      the model; used only as the hypothesis of the round-trip property. */
  ghost predicate RoundTrips<V(!new)>(c: Codec<V>) {
    forall v :: c.marshal(v).Encoded? ==> c.decode(c.marshal(v).text) == Some(v)
  }
}
