/** JavaScript numbers as the amount fields and the balance guards use them. */
module Amounts {
  import opened Wrappers

  datatype JsNumber = Finite(r: real) | NotFinite

  const MAX_AMOUNT: int := 1_000_000_000_000

  /** `Number.MAX_SAFE_INTEGER` */
  const MAX_SAFE: int := 9007199254740991

  /** `positiveAmount`: round half up, reject what is not positive, clamp at one trillion. */
  function PositiveAmount(v: JsNumber): (r: Option<int>)
    ensures r.Some? ==> 1 <= r.value <= MAX_AMOUNT
    ensures r.Some? <==> v.Finite? && v.r >= 0.5
    ensures r.Some? && r.value < MAX_AMOUNT ==> v.r - 0.5 < r.value as real <= v.r + 0.5
    ensures r.Some? && r.value == MAX_AMOUNT ==> v.r >= MAX_AMOUNT as real - 0.5
  {
    if v.NotFinite? then None
    else
      var n := (v.r + 0.5).Floor;
      if n <= 0 then None else Some(if n < MAX_AMOUNT then n else MAX_AMOUNT)
  }
}
