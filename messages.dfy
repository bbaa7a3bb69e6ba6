/** The wire-level message a subscription receives and the decoded payload
    handed to a handler. */
module Messages {

  newtype byte = b: int | 0 <= b < 256

  /** A decoded JSON document (numbers are kept to integers). */
  datatype Json =
    | JNull
    | JBool(b: bool)
    | JInt(i: int)
    | JString(s: string)
    | JArray(items: seq<Json>)
    | JObject(members: seq<(string, Json)>)

  /** A received Pub/Sub message. Its data, attributes and ordering key never
      change; `acks` counts the calls to `ack()` made on it. */
  class Message {
    const data: seq<byte>
    const attributes: map<string, string>
    const orderingKey: string
    var acks: nat

    constructor (data: seq<byte>, attributes: map<string, string>, orderingKey: string)
      ensures this.data == data && this.attributes == attributes && this.orderingKey == orderingKey
      ensures acks == 0
    {
      this.data := data;
      this.attributes := attributes;
      this.orderingKey := orderingKey;
      acks := 0;
    }

    /** `message.ack()`. */
    method Ack()
      modifies this
      ensures acks == old(acks) + 1
    {
      acks := acks + 1;
    }
  }
}
