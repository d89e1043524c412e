/**
 * Decoded JSON values, as `json.loads` hands them to the client, and the
 * Python truthiness the router tests them with.
 */
module Json {
  import opened Wrappers

  datatype Json =
    | Null
    | Bool(b: bool)
    | Num(r: real)  // a finite number; NaN and the infinities are not modelled
    | Str(s: string)
    | Arr(items: seq<Json>)
    | Obj(fields: map<string, Json>)

  /** Python's `bool(v)`: null, false, zero and empty containers are falsy. */
  predicate Truthy(v: Json) {
    match v
    case Null => false
    case Bool(b) => b
    case Num(r) => r != 0.0
    case Str(s) => s != ""
    case Arr(items) => items != []
    case Obj(fields) => fields != map[]
  }

  /**
   * The two currency codes `payload['PrimaryCurrencyCode']` and
   * `payload['SecondaryCurrencyCode']`, when the payload is an object whose
   * two entries are strings; None when reading them would raise.
   */
  function CurrencyCodes(payload: Json): Option<(string, string)> {
    match payload
    case Obj(fields) =>
      if "PrimaryCurrencyCode" in fields && fields["PrimaryCurrencyCode"].Str?
         && "SecondaryCurrencyCode" in fields && fields["SecondaryCurrencyCode"].Str?
      then Some((fields["PrimaryCurrencyCode"].s, fields["SecondaryCurrencyCode"].s))
      else None
    case _ => None
  }

  /** An object that carries both currency codes is never falsy. */
  lemma CodedPayloadIsTruthy(payload: Json)
    requires CurrencyCodes(payload).Some?
    ensures Truthy(payload)
  {
    assert "PrimaryCurrencyCode" in payload.fields;
  }
}
