/** The Flutter embedding's values: the standard codec's EncodableValue, event sinks, method replies. */
module Flutter {

  /**
   * flutter::EncodableValue, reduced to the alternatives the plugin builds or reads.
   * Null is the default-constructed value (std::monostate).
   */
  datatype EncodableValue =
    | Null
    | Int32(value: int)
    | Str(text: string)
    | EncodableMap(entries: map<EncodableValue, EncodableValue>)

  /** A Flutter event sink, by identity. */
  datatype EventSink = EventSink(id: nat)

  /** What a method call is answered with through its MethodResult. */
  datatype MethodReply = SuccessReply(value: EncodableValue) | NotImplemented
}
