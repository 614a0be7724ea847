/** The ValidationError of src/lib/schema-errors.js: a constant message. */
module SchemaErrors {
  import opened Js

  const Name: string := "AvroSchemaValidationError"
  const Message: string := "Failed to encode message with given schema"

  /** `new ValidationError(validationErrors)`. */
  function New(list: seq<Violation>): (e: ValidationError)
    ensures e.name == Name && e.message == Message && e.validationErrors == list
  {
    ValidationError(Name, Message, list)
  }

  /** The message does not depend on the list; only the list field and toJSON carry it. */
  lemma MessageIgnoresList(a: seq<Violation>, b: seq<Violation>)
    ensures New(a).message == New(b).message
    ensures ToJson(New(a)).errors == a && ToJson(New(a)).name == Name
    ensures ToJson(New(a)).message == Message
  {
  }
}
