// The JSON values that tool arguments and token claims are made of.
module Json {
  import opened Wrappers

  // `JOther` stands for null, booleans and numbers: no code here looks inside them.
  datatype Json =
    | JString(text: string)
    | JArray(items: seq<Json>)
    | JObject(fields: map<string, Json>)
    | JOther

  type Object = map<string, Json>

  // Go's `s, _ := v.(string)`: anything but a string reads as the empty string.
  function Str(v: Json): string {
    if v.JString? then v.text else ""
  }

  // The same on a map lookup: a missing key reads as the empty string too.
  function StrAt(m: Object, key: string): string {
    if key in m then Str(m[key]) else ""
  }

  // The argument that names the record a tool works on: `id`, when it is a string.
  function IdArg(args: Object): Option<string> {
    if "id" in args && args["id"].JString? then Some(args["id"].text) else None
  }
}
