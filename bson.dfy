/**
 * The slice of the BSON object model that the ping reply is read through:
 * typed values, documents as ordered name/value lists, and the double test
 * the health check applies to the reply's "ok" field.
 */
module Bson {
  import opened Wrappers

  newtype int32 = x: int | -0x8000_0000 <= x < 0x8000_0000
  newtype int64 = x: int | -0x8000_0000_0000_0000 <= x < 0x8000_0000_0000_0000

  /**
   * An IEEE-754 double. A finite double is held by its value counted in units
   * of `double.Epsilon` (2^-1074, the smallest positive subnormal): every
   * finite double is a whole number of such units.
   */
  datatype Double = Finite(units: int) | PositiveInfinity | NegativeInfinity | NaN

  /** `double.Epsilon`, in units of itself. */
  const EpsilonUnits: nat := 1

  /** The double 1.0: 2^1074 units of `double.Epsilon` (hexadecimal 4 followed by 268 zeros). */
  const OneUnits: nat := 0x4_0000_0000_0000_0000_0000_0000_0000_0000_0000_0000_0000_0000_0000_0000_0000_0000_0000_0000_0000_0000_0000_0000_0000_0000_0000_0000_0000_0000_0000_0000_0000_0000_0000_0000_0000_0000_0000_0000_0000_0000_0000_0000_0000_0000_0000_0000_0000_0000_0000_0000_0000_0000_0000_0000_0000_0000_0000_0000_0000_0000_0000_0000_0000_0000_0000_0000_0000

  const One: Double := Finite(OneUnits)

  /** `Math.Abs(d - 1d)` in units of `double.Epsilon`; None when the difference
      is NaN or infinite. */
  function AbsDifferenceFromOne(d: Double): (r: Option<nat>)
    ensures r.Some? <==> d.Finite?
    ensures r == Some(0) <==> d == One
  {
    match d
    case Finite(u) => Some(if u >= OneUnits then u - OneUnits else OneUnits - u)
    case _ => None
  }

  /** The tolerance test `Math.Abs(d - 1d) < double.Epsilon`; a comparison
      with NaN is false, and |±Infinity - 1| is Infinity. */
  predicate WithinEpsilonOfOne(d: Double)
    ensures WithinEpsilonOfOne(d) ==> d.Finite?
  {
    match AbsDifferenceFromOne(d)
    case Some(k) => k < EpsilonUnits
    case None => false
  }

  /** The tolerance of one `double.Epsilon` admits the double 1.0 and nothing else. */
  lemma WithinEpsilonOfOneIsExactlyOne(d: Double)
    ensures WithinEpsilonOfOne(d) <==> d == One
  {
  }

  datatype BsonValue =
    | BsonDouble(asDouble: Double)
    | BsonInt32(asInt32: int32)
    | BsonInt64(asInt64: int64)
    | BsonString(asString: string)
    | BsonBoolean(asBoolean: bool)
    | BsonNull
    /** Any other BSON type, by its type name. */
    | BsonOther(bsonType: string)

  datatype BsonElement = BsonElement(name: string, value: BsonValue)

  /** A document: its elements in the order they were received. */
  datatype BsonDocument = BsonDocument(elements: seq<BsonElement>)

  /**
   * `document.TryGetValue(name, out value)`: the value of the first element
   * with that name, or None when the document has no such element.
   */
  function TryGetValue(elements: seq<BsonElement>, name: string): (r: Option<BsonValue>)
    ensures r.None? <==> forall i :: 0 <= i < |elements| ==> elements[i].name != name
    ensures r.Some? ==> exists i :: 0 <= i < |elements| && elements[i] == BsonElement(name, r.value)
                                    && forall j :: 0 <= j < i ==> elements[j].name != name
  {
    if elements == [] then None
    else if elements[0].name == name then Some(elements[0].value)
    else
      var rest := TryGetValue(elements[1..], name);
      assert forall i :: 1 <= i < |elements| ==> elements[i] == elements[1..][i - 1];
      rest
  }

  /** A document that lists `name` at position `i`, and not before, yields that element's value. */
  lemma TryGetValueFindsFirst(elements: seq<BsonElement>, name: string, i: nat)
    requires i < |elements| && elements[i].name == name
    requires forall j :: 0 <= j < i ==> elements[j].name != name
    ensures TryGetValue(elements, name) == Some(elements[i].value)
  {
    var r := TryGetValue(elements, name);
    var k :| 0 <= k < |elements| && elements[k] == BsonElement(name, r.value)
              && forall j :: 0 <= j < k ==> elements[j].name != name;
    assert !(k < i) && !(i < k);
  }
}
