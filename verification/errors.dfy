/** The synchronous failures of the client library: every `throw` in the
    library, plus the `TypeError` the constructor raises when handed `null`.
    None of them ever reaches the network layer. */
module Errors {
  import opened JsValue

  datatype Error =
      /** `checkObjectHasProperties` given something that is not a plain object. */
    | NotAnObject(arg: Value)
      /** `checkObjectHasProperties` given an object lacking a usable `prop`. */
    | MissingProperty(prop: string)
      /** Any other `throw new Error(message)` of the library. */
    | Thrown(message: string)
      /** Reading property `key` of `null`. */
    | TypeError
  {
    /** The text of the thrown error. */
    function Message(): string {
      match this
      case NotAnObject(arg) => "Parameter mismatch. " + ToStr(arg) + " is not an object"
      case MissingProperty(prop) => "Object must have a property " + prop + " and contain a valid value"
      case Thrown(message) => message
      case TypeError => "Cannot read property 'key' of null"
    }
  }

  const InvalidKey := "A valid M2X Key must be provided"
  const BodyNotObject := "Request body should be an object"
  const IdNotString := "ID should be an string"
  const IdNotAString := "ID should be a string"
  const DeviceIdNotString := "Device ID should be an string"
  const DistributionIdNotString := "Distribution ID should be an string"
  const TriggerIdNotString := "Trigger ID should be an string"
  const BadStreamName := "Stream name should be a string and not include spaces"
  const ValuesNotArray := "Values should be an array of objects"
  const SerialMissing := "Device serial number not present or type mismatch"
  const SerialNaN := "Device serial number type mismatch"
  const KeyNotObject := "Key should be an object"
  const KeyIdNotString := "Key should be a String"
  const SetKeyNotString := "Key ID should be a String"
}
