/** JSON documents as the HTTP layer parses them. */
module JsonValues {
  datatype Json =
    | JNull
    | JBool(flag: bool)
    | JInt(number: int)
    | JFloat(amount: real)
    | JString(text: string)
    | JArray(items: seq<Json>)
    | JObject(fields: map<string, Json>)

  const TWO_TO_THE_31: int := 0x8000_0000
  const TWO_TO_THE_32: int := 0x1_0000_0000
  const TWO_TO_THE_63: int := 0x8000_0000_0000_0000
  const TWO_TO_THE_64: int := 0x1_0000_0000_0000_0000

  /** Reading an integer as `std::int64_t`: values beyond its range wrap around. */
  function ToInt64(n: int): int {
    (n + TWO_TO_THE_63) % TWO_TO_THE_64 - TWO_TO_THE_63
  }

  /** Reading an integer as `int`. */
  function ToInt32(n: int): int {
    (n + TWO_TO_THE_31) % TWO_TO_THE_32 - TWO_TO_THE_31
  }

  predicate IsInt64(n: int) {
    -TWO_TO_THE_63 <= n < TWO_TO_THE_63
  }

  predicate IsInt32(n: int) {
    -TWO_TO_THE_31 <= n < TWO_TO_THE_31
  }

  lemma WrappingKeepsIff(n: int)
    ensures ToInt64(n) == n <==> IsInt64(n)
    ensures ToInt32(n) == n <==> IsInt32(n)
    ensures IsInt64(ToInt64(n)) && IsInt32(ToInt32(n))
  {
  }
}
