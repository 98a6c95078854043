/** The HTTP error the handlers raise, as FastAPI/Starlette define it. */
module Http {

  /** `HTTPException(status_code=…, detail=…)` */
  datatype HttpException = HttpException(status: nat, detail: string)

  /** The number a string of decimal digits spells, most significant digit first. */
  function DigitsValue(s: string): nat
  {
    if s == [] then 0
    else
      var d := s[|s| - 1] as int - '0' as int;
      DigitsValue(s[..|s| - 1]) * 10 + (if 0 <= d then d else 0)
  }

  /** `str(n)` for a natural number. */
  function Decimal(n: nat): (r: string)
    ensures |r| >= 1
    ensures forall k :: 0 <= k < |r| ==> '0' <= r[k] <= '9'
    ensures DigitsValue(r) == n
  {
    var d := ('0' as int + n % 10) as char;
    if n < 10 then [d]
    else
      var r := Decimal(n / 10) + [d];
      assert r[..|r| - 1] == Decimal(n / 10);
      r
  }

  /** `str(e)` for an HTTPException: Starlette renders it as "<status>: <detail>". */
  function ExceptionText(e: HttpException): string
  {
    Decimal(e.status) + ": " + e.detail
  }

  lemma Decimal500()
    ensures Decimal(500) == "500"
  {
  }
}
