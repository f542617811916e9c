/** The tree an XML response is parsed into, and Ruby's `receiver[key]` on it. */
module Parsed {
  import opened Text

  /** A parsed value: nil, a text leaf, a hash of named children, or an array of
      repeated siblings. */
  datatype Value = Nil | Str(text: string) | Hash(fields: map<string, Value>) | Array(items: seq<Value>)

  /** Ruby truthiness: every parsed value except nil counts as true. */
  predicate Truthy(v: Value) {
    !v.Nil?
  }

  /** `Hash#[]`: an absent key reads as nil. */
  function Fetch(fields: map<string, Value>, key: string): Value {
    if key in fields then fields[key] else Nil
  }

  /** The exceptions Ruby raises when a value cannot be indexed by a string. */
  datatype Raised = NoMethodError | TypeError

  datatype Lookup = Found(value: Value) | Raises(exception: Raised)

  /** `receiver[key]` with a string key: a hash looks the key up, a string
      answers the key itself when it occurs in it and nil otherwise, nil has no
      `[]` method, and an array refuses a string index. */
  function At(receiver: Value, key: string): (r: Lookup)
    ensures r.Raises? <==> receiver.Nil? || receiver.Array?
    ensures receiver.Nil? ==> r == Raises(NoMethodError)
    ensures receiver.Array? ==> r == Raises(TypeError)
    ensures receiver.Hash? ==> r == Found(if key in receiver.fields then receiver.fields[key] else Nil)
    ensures receiver.Str? ==> r.Found? && (Truthy(r.value) <==> exists i: nat :: OccursAt(receiver.text, key, i))
    ensures receiver.Str? && Truthy(r.value) ==> r.value == Str(key)
  {
    match receiver
    case Nil => Raises(NoMethodError)
    case Str(s) =>
      ContainsIffOccurs(s, key);
      Found(if Contains(s, key) then Str(key) else Nil)
    case Hash(fields) => Found(Fetch(fields, key))
    case Array(_) => Raises(TypeError)
  }
}
