/**
 * JSON values as the serializer builds them. Objects are maps from key to
 * value: the order in which keys are added is not modelled, and a number is
 * a `real` whether Java added it as an `int` or a `double`.
 */
module Json {

  datatype Json =
    | JString(str: string)
    | JNumber(num: real)
    | JBool(truth: bool)
    | JArray(items: seq<Json>)
    | JObject(fields: map<string, Json>)
}
