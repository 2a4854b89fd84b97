/** Decoded JSON values as the remote service returns them, and `unpack` (app.py:65-66). */
module Json {
  import opened Wrappers

  /** Numbers are integers here; floating point is not part of this model. */
  datatype Json =
    | JNull
    | JBool(b: bool)
    | JNum(n: int)
    | JStr(s: string)
    | JArr(items: seq<Json>)
    | JObj(fields: map<string, Json>)

  /** The collection envelope `{"count": n, "value": items}` the service may wrap lists in. */
  function Envelope(items: seq<Json>): Json {
    JObj(map["count" := JNum(|items|), "value" := JArr(items)])
  }

  /** `unpack`: an object carrying "count" is replaced by its "value" (a KeyError when that
      is absent); every other value is returned as it is. */
  function Unpack(data: Json): (r: Result<Json>)
    ensures data.JObj? && "count" in data.fields ==>
              (r.Ok? <==> "value" in data.fields) &&
              (r.Err? ==> r.error == MissingKey("value"))
    ensures r.Ok? && data.JObj? && "count" in data.fields ==> r.value == data.fields["value"]
    ensures !(data.JObj? && "count" in data.fields) ==> r == Ok(data)
  {
    if data.JObj? && "count" in data.fields then
      if "value" in data.fields then Ok(data.fields["value"]) else Err(MissingKey("value"))
    else
      Ok(data)
  }

  /** A bare list and the same list in an envelope normalise to the same bare list. */
  lemma UnpackNormalises(items: seq<Json>)
    ensures Unpack(JArr(items)) == Ok(JArr(items))
    ensures Unpack(Envelope(items)) == Ok(JArr(items))
  {
  }

  /** `record[key]` on a decoded record. */
  function Field(record: Json, key: string): (r: Result<Json>)
    ensures r.Ok? <==> record.JObj? && key in record.fields
    ensures r.Ok? ==> r.value == record.fields[key]
  {
    if !record.JObj? then Err(NotAnObject)
    else if key !in record.fields then Err(MissingKey(key))
    else Ok(record.fields[key])
  }

  /** `record[key]` where the model needs the value to be a string (names, descriptors). */
  function StringField(record: Json, key: string): (r: Result<string>)
    ensures r.Ok? <==> record.JObj? && key in record.fields && record.fields[key].JStr?
    ensures r.Ok? ==> JStr(r.value) == record.fields[key]
  {
    var v :- Field(record, key);
    if v.JStr? then Ok(v.s) else Err(NotAString(key))
  }

  /** Iterating a collection response: only a list is accepted. */
  function AsList(data: Json): (r: Result<seq<Json>>)
    ensures r.Ok? <==> data.JArr?
    ensures r.Ok? ==> r.value == data.items
  {
    if data.JArr? then Ok(data.items) else Err(NotAList)
  }
}
