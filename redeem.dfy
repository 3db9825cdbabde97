/** The redemption side of the service: the static code table and the two
    `POST /redeem` handler bodies, each a function from the request's
    `code` and `customerId` fields to the response it sends. Neither handler
    is given the customer store: their responses depend on the request alone,
    and neither reaches the points ledger. */
module Redeem {
  import opened Wrappers

  /** A field of a JSON request body, after parsing: absent (`undefined`),
      `null`, a boolean, a number, a string, or an object or array. */
  datatype JsValue = Undefined | Null | Bool(b: bool) | Number(x: real) | Str(s: string) | Composite

  /** JavaScript truthiness, the test behind `!code` and `!customerId`:
      the falsy values are exactly `undefined`, `null`, `false`, `0` and the
      empty string. */
  predicate Truthy(v: JsValue)
    ensures !Truthy(v) <==> v in {Undefined, Null, Bool(false), Number(0.0), Str("")}
  {
    match v
    case Undefined => false
    case Null => false
    case Bool(b) => b
    case Number(x) => x != 0.0
    case Str(s) => s != ""
    case Composite => true
  }

  datatype RedeemRequest = RedeemRequest(code: JsValue, customerId: JsValue)

  /** The response messages the handlers send. */
  datatype Message =
    | MissingCodeOrCustomerId   // "missing redemption code or customer ID"
    | RedeemSucceeded           // "redemption succeeded"
    | InvalidCode               // "invalid redemption code"
    | PointsAdded(points: nat)  // "redemption succeeded! added <points> points"

  datatype Response = Response(status: nat, message: Message)

  const KnownCode: string := "CARBON50"

  /** The static code table: one code, worth 50 points. */
  const ValidCodes: map<string, nat> := map[KnownCode := 50]

  /** `validCodes[code] || null`: the table's value, or `null` for a code
      that is not in it (or whose value would be 0). */
  function ValidateRedemptionCode(code: string): (r: Option<nat>)
    ensures r.Some? <==> code == "CARBON50"
    ensures r.Some? ==> r.value == 50
  {
    if code in ValidCodes && ValidCodes[code] != 0 then Some(ValidCodes[code]) else None
  }

  predicate HasCodeAndCustomer(req: RedeemRequest) {
    Truthy(req.code) && Truthy(req.customerId)
  }

  /** The first handler: checks only that both fields are present, then
      answers success without crediting anything. */
  function RedeemFirst(req: RedeemRequest): (r: Response)
    ensures r.status == 400 <==> !Truthy(req.code) || !Truthy(req.customerId)
    ensures r.status == 400 ==> r.message == MissingCodeOrCustomerId
    ensures r.status != 400 ==> r == Response(200, RedeemSucceeded)
  {
    if !HasCodeAndCustomer(req) then Response(400, MissingCodeOrCustomerId)
    else Response(200, RedeemSucceeded)
  }

  /** The second handler's inline check: `code === 'CARBON50' ? 50 : 0`. */
  function InlinePointsValue(code: JsValue): (v: nat)
    ensures v == 50 <==> code == Str("CARBON50")
    ensures v != 50 ==> v == 0
  {
    if code == Str(KnownCode) then 50 else 0
  }

  /** The second handler: both fields present, then the inline code check;
      it answers with the points value but never credits it. */
  function RedeemSecond(req: RedeemRequest): (r: Response)
    ensures r.status == 400 <==>
      !Truthy(req.code) || !Truthy(req.customerId) || req.code != Str("CARBON50")
    ensures !Truthy(req.code) || !Truthy(req.customerId) ==>
      r.message == MissingCodeOrCustomerId
    ensures Truthy(req.code) && Truthy(req.customerId) && req.code != Str("CARBON50") ==>
      r == Response(400, InvalidCode)
    ensures r.status != 400 ==> r == Response(200, PointsAdded(50))
  {
    if !HasCodeAndCustomer(req) then Response(400, MissingCodeOrCustomerId)
    else
      var pointsValue := InlinePointsValue(req.code);
      if pointsValue == 0 then Response(400, InvalidCode)
      else Response(200, PointsAdded(pointsValue))
  }

  /** The inline check and the code table agree on every string: 50 exactly
      when the table answers 50, and 0 exactly when it answers `null`. A
      code that is not a string gets 0 from the inline check. */
  lemma InlineCheckAgreesWithValidator(code: JsValue)
    ensures code.Str? ==>
      (InlinePointsValue(code) == 50 <==> ValidateRedemptionCode(code.s) == Some(50))
    ensures code.Str? ==>
      (InlinePointsValue(code) == 0 <==> ValidateRedemptionCode(code.s) == None)
    ensures !code.Str? ==> InlinePointsValue(code) == 0
  {
  }

  /** The second handler accepts exactly the requests that carry a customer
      id and a string code the table knows, and names that code's value. */
  lemma RedeemSecondMatchesValidator(req: RedeemRequest)
    ensures RedeemSecond(req).status == 200 <==>
      Truthy(req.customerId) && req.code.Str? && ValidateRedemptionCode(req.code.s).Some?
    ensures RedeemSecond(req).status == 200 ==>
      RedeemSecond(req).message == PointsAdded(ValidateRedemptionCode(req.code.s).value)
  {
  }

  /** The two handlers send the same answer for a request missing a field;
      otherwise the second accepts only what the first accepts, and the
      first accepts exactly what the second rejects as an invalid code. */
  lemma HandlersCompared(req: RedeemRequest)
    ensures !HasCodeAndCustomer(req) ==>
      RedeemFirst(req) == RedeemSecond(req) == Response(400, MissingCodeOrCustomerId)
    ensures RedeemSecond(req).status == 200 ==> RedeemFirst(req).status == 200
    ensures RedeemFirst(req).status == 200 && RedeemSecond(req).status == 400 <==>
      RedeemSecond(req).message == InvalidCode
  {
  }
}
