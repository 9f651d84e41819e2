/** Identifier types, JSON values, room versions and the server's error type, shared by every module. */
module Core {

  /** Identifiers are kept in their string form, as ruma's owned identifier types do. */
  type ServerName = string
  type UserId = string
  type RoomId = string
  type EventId = string
  type KeyId = string

  /** The room versions ruma knows, plus any custom version string. */
  datatype RoomVersion =
    | V1 | V2 | V3 | V4 | V5 | V6 | V7 | V8 | V9 | V10 | V11
    | CustomVersion(id: string)

  /** A JSON value, as `serde_json::Value` holds it. */
  datatype Json =
    | JNull
    | JBool(b: bool)
    | JInt(i: int)
    | JString(s: string)
    | JArray(items: seq<Json>)
    | JObject(fields: map<string, Json>)

  /** The client-server error kinds the modelled routes report. */
  datatype ErrorKind = InvalidParam | RoomInUse | BadJson | UnsupportedRoomVersion

  /** The server's error type, reduced to the variants the modelled code raises. */
  datatype Error =
    | BadDatabase(message: string)
    | BadRequest(kind: ErrorKind, message: string)
    | BadServerResponse(message: string)
    /** A stored integer that is not exactly eight bytes long. */
    | SliceLength
}
