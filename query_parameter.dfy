/**
 * A parameter of a compiled query: a fixed name, a type name that can be
 * changed, and a value slot in which a null argument is stored as the
 * query parser's null sentinel.
 */
module Query {
  import opened Wrappers

  /** What the value slot holds: nothing yet, the null sentinel, or an argument. */
  datatype Slot<V> = Unset | NullSentinel | Value(v: V)

  class QueryParameter<V> {
    var paramType: string
    const name: string
    var value: Slot<V>

    constructor (paramType: string, name: string)
      ensures this.paramType == paramType && this.name == name && value == Unset
    {
      this.paramType := paramType;
      this.name := name;
      value := Unset;
    }

    /** Store `p1`, or the null sentinel when `p1` is null (`None`). */
    method SetValue(p1: Option<V>)
      modifies this`value
      ensures p1.Some? ==> value == Value(p1.value)
      ensures p1.None? ==> value == NullSentinel
    {
      if p1.Some? {
        value := Value(p1.value);
      } else {
        value := NullSentinel;
      }
    }

    method GetValue() returns (r: Slot<V>)
      ensures r == value
    {
      r := value;
    }

    method GetName() returns (r: string)
      ensures r == name
    {
      r := name;
    }

    method GetType() returns (r: string)
      ensures r == paramType
    {
      r := paramType;
    }

    method SetType(typeName: string)
      modifies this`paramType
      ensures paramType == typeName
    {
      paramType := typeName;
    }
  }
}
