/** The ValidationError of src/lib/validation-error.js: its message embeds the indented JSON of the list. */
module ValidationErrors {
  import opened Js
  import Avro

  const Name: string := "AvroSchemaValidationError"
  const MessagePrefix: string := "Failed to encode message with given schema \n "

  /** `new ValidationError(validationErrors)`. */
  function New(json: JsonLib, list: seq<Violation>): (e: ValidationError)
    ensures e.name == Name && e.validationErrors == list
    ensures |e.message| >= |MessagePrefix| && e.message[..|MessagePrefix|] == MessagePrefix
    ensures e.message[|MessagePrefix|..] == json.stringifyIndented(Avro.ViolationsValue(list))
  {
    var validationMessage := json.stringifyIndented(Avro.ViolationsValue(list));
    ValidationError(Name, MessagePrefix + validationMessage, list)
  }

  /** `toJSON().error` carries the same name and message and every reported violation, in order. */
  lemma ToJsonOfNew(json: JsonLib, list: seq<Violation>)
    ensures ToJson(New(json, list)).name == Name
    ensures ToJson(New(json, list)).message == New(json, list).message
    ensures ToJson(New(json, list)).errors == list
  {
  }
}
