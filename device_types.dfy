/** The value types shared by the consumer and the mock producer
    (deviceTypes.ts). */
module DeviceTypes {
  import opened Wrappers

  /** The fields of one stream entry as the backend stores and delivers
      them: field name to text. */
  type StreamRecord = map<string, string>

  /** `StreamDevLocationUpdate`, as `JSON.stringify` renders it for a client.
      `None` is a value the serialiser drops (`undefined`) or writes as
      `null` (`NaN`). `lng`, `lat` and `alt` hold the text that `parseFloat`
      reads; the parsed floating-point value is not modelled. */
  datatype StreamDevLocationUpdate = StreamDevLocationUpdate(
    deviceId: Option<string>,
    dts: Option<int>,
    seqNo: Option<int>,
    lng: Option<string>,
    lat: Option<string>,
    alt: Option<string>,
    h3r15: Option<string>,
    state: Option<string>)
}
