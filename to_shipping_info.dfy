/** The conversion of a checkout response into a ShippingInfo
    (Model/Api/Converter/Checkout/ToShippingInfo.php). */
module ToShippingInfo {
  import opened Wrappers
  import opened Json
  import opened ArrayManager

  /** Why `convert` does not return a ShippingInfo. */
  datatype ConvertError =
    | Unserializable  // `Json::unserialize` rejects the text
    | NotAnArray      // `ArrayManager::get` receives a value that is not an array

  /** What a ShippingInfo holds; `None` is a field no setter has written,
      as in a freshly created ShippingInfo (`FreshInfo`). */
  datatype ShippingInfoData = ShippingInfoData(
    deliveryType: Option<Value>,
    identifier: Option<Value>,
    price: Option<real>,
    optionTitle: Option<Value>,
    preferredDeliveryDate: Option<Value>,
    carrierPickupDate: Option<Value>,
    pickupDate: Option<Value>,
    locationCode: Option<Value>,
    locationAccountNumber: Option<Value>,
    locationName: Option<Value>,
    pickupAddress: Option<Value>)

  const FreshInfo := ShippingInfoData(None, None, None, None, None, None, None, None, None, None, None)

  /** The numeric reading of a number literal or of a numeric string prefix,
      which this model leaves open. */
  type NumericText = string -> real

  /** PHP's conversion of a non-numeric value to bool: null, false and an
      empty array are false, everything else is true. */
  predicate Truthy(v: Value)
    requires !v.Number? && !v.String?
  {
    match v
    case Null => false
    case Bool(b) => b
    case List(items) => items != []
    case Object(fields) => fields != map[]
  }

  /** PHP's `floatval` on a decoded value: null, false and an empty array
      give 0, true and a non-empty array give 1, numbers and strings are
      read by `numeric`. */
  function FloatVal(v: Value, numeric: NumericText): (r: real)
    ensures !v.Number? && !v.String? ==> r == if Truthy(v) then 1.0 else 0.0
  {
    match v
    case Null => 0.0
    case Bool(b) => if b then 1.0 else 0.0
    case Number(literal) => numeric(literal)
    case String(text) => numeric(text)
    case List(items) => if |items| == 0 then 0.0 else 1.0
    case Object(fields) => if |fields| == 0 then 0.0 else 1.0
  }

  /** The value the lookups run on: an array is used as it is, a non-empty
      string (PHP's `empty` also holds of "0") is decoded first, and anything
      that is not an array by then makes `ArrayManager::get` fail. Non-string
      scalars fail either way: an empty one is not decoded, a non-empty one
      decodes to a scalar. */
  function Normalize(response: Value, decode: Decoder): (r: Result<Value, ConvertError>)
    ensures r.Ok? ==> IsArray(r.value)
    ensures IsArray(response) ==> r == Ok(response)
    ensures r == Err(Unserializable) <==>
              response.String? && response.s != "" && response.s != "0" && decode(response.s).None?
    ensures response.String? && response.s != "" && response.s != "0" && decode(response.s).Some? ==>
              r == (if IsArray(decode(response.s).value) then Ok(decode(response.s).value) else Err(NotAnArray))
    ensures !IsArray(response) && !response.String? ==> r == Err(NotAnArray)
    ensures response.String? && (response.s == "" || response.s == "0") ==> r == Err(NotAnArray)
  {
    match response
    case List(_) => Ok(response)
    case Object(_) => Ok(response)
    case String(text) =>
      if text == "" || text == "0" then Err(NotAnArray)
      else
        (match decode(text)
         case None => Err(Unserializable)
         case Some(decoded) => if IsArray(decoded) then Ok(decoded) else Err(NotAnArray))
    case _ => Err(NotAnArray)
  }

  /** The paths `convert` reads. */
  const DeliveryTypePath: string := "deliveryType"
  const IdentifierPath: string := "shippingOption/identifier"
  const RatePath: string := "shippingOption/rate"
  const OptionNamePath: string := "shippingOption/name"
  const PreferredDeliveryDatePath: string := "preferredDeliveryDate"
  const PickupDatePath: string := "pickupDate"
  const LocationCodePath: string := "pickupLocation/code"
  const LocationAccountNumberPath: string := "pickupLocation/accountNumber"
  const LocationNamePath: string := "pickupLocation/name"
  const LocationAddressPath: string := "pickupLocation/address"

  /** Whether the delivery type strictly equals the PICKUP constant. */
  predicate IsPickup(deliveryType: Value, pickupType: string)
  {
    deliveryType == String(pickupType)
  }

  /** The setter calls of `convert` on the looked-up array: the first six
      fields always, the five pickup fields only for a pickup. */
  function Extract(data: Value, numeric: NumericText, pickupType: string): (r: ShippingInfoData)
    requires IsArray(data)
    ensures r.deliveryType.Some? && r.identifier.Some? && r.price.Some? && r.optionTitle.Some?
    ensures r.preferredDeliveryDate.Some? && r.carrierPickupDate.Some?
    ensures var pickup := IsPickup(r.deliveryType.value, pickupType);
      && (r.pickupDate.Some? <==> pickup)
      && (r.locationCode.Some? <==> pickup)
      && (r.locationAccountNumber.Some? <==> pickup)
      && (r.locationName.Some? <==> pickup)
      && (r.pickupAddress.Some? <==> pickup)
    ensures r.pickupDate.Some? ==> r.pickupDate == r.carrierPickupDate
  {
    var deliveryType := Get(DeliveryTypePath, data);
    var pickup := IsPickup(deliveryType, pickupType);
    ShippingInfoData(
      deliveryType := Some(deliveryType),
      identifier := Some(Get(IdentifierPath, data)),
      price := Some(FloatVal(Get(RatePath, data), numeric)),
      optionTitle := Some(Get(OptionNamePath, data)),
      preferredDeliveryDate := Some(Get(PreferredDeliveryDatePath, data)),
      carrierPickupDate := Some(Get(PickupDatePath, data)),
      pickupDate := if pickup then Some(Get(PickupDatePath, data)) else None,
      locationCode := if pickup then Some(Get(LocationCodePath, data)) else None,
      locationAccountNumber := if pickup then Some(Get(LocationAccountNumberPath, data)) else None,
      locationName := if pickup then Some(Get(LocationNamePath, data)) else None,
      pickupAddress := if pickup then Some(Get(LocationAddressPath, data)) else None)
  }

  /** `convert($response)`: the ShippingInfo it returns, or why it fails. */
  function ShippingInfoOf(response: Value, decode: Decoder, numeric: NumericText, pickupType: string)
    : (r: Result<ShippingInfoData, ConvertError>)
    ensures r.Ok? <==> Normalize(response, decode).Ok?
    ensures r.Err? ==> Normalize(response, decode) == Err(r.error)
    ensures IsArray(response) ==> r == Ok(Extract(response, numeric, pickupType))
  {
    match Normalize(response, decode)
    case Err(e) => Err(e)
    case Ok(data) => Ok(Extract(data, numeric, pickupType))
  }

  /** Each path `convert` reads, as member accesses. */

  lemma DeliveryTypeAt(data: Value)
    requires IsArray(data)
    ensures Get(DeliveryTypePath, data) == Member(data, "deliveryType")
  {
    GetOne("deliveryType", data);
  }

  lemma PreferredDeliveryDateAt(data: Value)
    requires IsArray(data)
    ensures Get(PreferredDeliveryDatePath, data) == Member(data, "preferredDeliveryDate")
  {
    GetOne("preferredDeliveryDate", data);
  }

  lemma PickupDateAt(data: Value)
    requires IsArray(data)
    ensures Get(PickupDatePath, data) == Member(data, "pickupDate")
  {
    GetOne("pickupDate", data);
  }

  lemma IdentifierAt(data: Value)
    requires IsArray(data)
    ensures Get(IdentifierPath, data) == Member(Member(data, "shippingOption"), "identifier")
  {
    var outer, inner := "shippingOption", "identifier";
    assert Delimiter !in outer && Delimiter !in inner;
    assert "shippingOption/identifier" == outer + [Delimiter] + inner;
    GetTwo(outer, inner, data);
  }

  lemma RateAt(data: Value)
    requires IsArray(data)
    ensures Get(RatePath, data) == Member(Member(data, "shippingOption"), "rate")
  {
    var outer, inner := "shippingOption", "rate";
    assert Delimiter !in outer && Delimiter !in inner;
    assert "shippingOption/rate" == outer + [Delimiter] + inner;
    GetTwo(outer, inner, data);
  }

  lemma OptionTitleAt(data: Value)
    requires IsArray(data)
    ensures Get(OptionNamePath, data) == Member(Member(data, "shippingOption"), "name")
  {
    var outer, inner := "shippingOption", "name";
    assert Delimiter !in outer && Delimiter !in inner;
    assert "shippingOption/name" == outer + [Delimiter] + inner;
    GetTwo(outer, inner, data);
  }

  lemma LocationCodeAt(data: Value)
    requires IsArray(data)
    ensures Get(LocationCodePath, data) == Member(Member(data, "pickupLocation"), "code")
  {
    var outer, inner := "pickupLocation", "code";
    assert Delimiter !in outer && Delimiter !in inner;
    assert "pickupLocation/code" == outer + [Delimiter] + inner;
    GetTwo(outer, inner, data);
  }

  lemma LocationAccountNumberAt(data: Value)
    requires IsArray(data)
    ensures Get(LocationAccountNumberPath, data) == Member(Member(data, "pickupLocation"), "accountNumber")
  {
    var outer, inner := "pickupLocation", "accountNumber";
    assert Delimiter !in outer && Delimiter !in inner;
    assert "pickupLocation/accountNumber" == outer + [Delimiter] + inner;
    GetTwo(outer, inner, data);
  }

  lemma LocationNameAt(data: Value)
    requires IsArray(data)
    ensures Get(LocationNamePath, data) == Member(Member(data, "pickupLocation"), "name")
  {
    var outer, inner := "pickupLocation", "name";
    assert Delimiter !in outer && Delimiter !in inner;
    assert "pickupLocation/name" == outer + [Delimiter] + inner;
    GetTwo(outer, inner, data);
  }

  lemma PickupAddressAt(data: Value)
    requires IsArray(data)
    ensures Get(LocationAddressPath, data) == Member(Member(data, "pickupLocation"), "address")
  {
    var outer, inner := "pickupLocation", "address";
    assert Delimiter !in outer && Delimiter !in inner;
    assert "pickupLocation/address" == outer + [Delimiter] + inner;
    GetTwo(outer, inner, data);
  }

  /** The always-set fields are the values found at their paths, each read
      member by member and null where a member is absent. */
  lemma ExtractFields(data: Value, numeric: NumericText, pickupType: string)
    requires IsArray(data)
    ensures var info := Extract(data, numeric, pickupType);
      && info.deliveryType == Some(Member(data, "deliveryType"))
      && info.identifier == Some(Member(Member(data, "shippingOption"), "identifier"))
      && info.price == Some(FloatVal(Member(Member(data, "shippingOption"), "rate"), numeric))
      && info.optionTitle == Some(Member(Member(data, "shippingOption"), "name"))
      && info.preferredDeliveryDate == Some(Member(data, "preferredDeliveryDate"))
      && info.carrierPickupDate == Some(Member(data, "pickupDate"))
  {
    DeliveryTypeAt(data);
    IdentifierAt(data);
    RateAt(data);
    OptionTitleAt(data);
    PreferredDeliveryDateAt(data);
    PickupDateAt(data);
  }

  /** The pickup fields are written exactly when the delivery type is PICKUP,
      and then hold the values under `pickupDate` and `pickupLocation`;
      otherwise they keep their fresh defaults. */
  lemma ExtractPickupFields(data: Value, numeric: NumericText, pickupType: string)
    requires IsArray(data)
    ensures var info := Extract(data, numeric, pickupType);
      var pickup := IsPickup(Member(data, "deliveryType"), pickupType);
      && (info.pickupDate.Some? <==> pickup)
      && (info.locationCode.Some? <==> pickup)
      && (info.locationAccountNumber.Some? <==> pickup)
      && (info.locationName.Some? <==> pickup)
      && (info.pickupAddress.Some? <==> pickup)
      && (pickup ==>
            && info.pickupDate == Some(Member(data, "pickupDate"))
            && info.locationCode == Some(Member(Member(data, "pickupLocation"), "code"))
            && info.locationAccountNumber == Some(Member(Member(data, "pickupLocation"), "accountNumber"))
            && info.locationName == Some(Member(Member(data, "pickupLocation"), "name"))
            && info.pickupAddress == Some(Member(Member(data, "pickupLocation"), "address")))
      && (!pickup ==>
            && info.pickupDate == FreshInfo.pickupDate
            && info.locationCode == FreshInfo.locationCode
            && info.locationAccountNumber == FreshInfo.locationAccountNumber
            && info.locationName == FreshInfo.locationName
            && info.pickupAddress == FreshInfo.pickupAddress)
  {
    DeliveryTypeAt(data);
    PickupDateAt(data);
    LocationCodeAt(data);
    LocationAccountNumberAt(data);
    LocationNameAt(data);
    PickupAddressAt(data);
  }

  /** For a pickup, the pickup date and the carrier pickup date are the same
      top-level `pickupDate` value. */
  lemma PickupDatesAgree(data: Value, numeric: NumericText, pickupType: string)
    requires IsArray(data)
    requires IsPickup(Member(data, "deliveryType"), pickupType)
    ensures Extract(data, numeric, pickupType).pickupDate == Extract(data, numeric, pickupType).carrierPickupDate
  {
    DeliveryTypeAt(data);
  }

  /** With no `shippingOption/rate` in the response the price is 0. */
  lemma PriceWithoutRate(data: Value, numeric: NumericText, pickupType: string)
    requires IsArray(data)
    requires Member(Member(data, "shippingOption"), "rate") == Null
    ensures Extract(data, numeric, pickupType).price == Some(0.0)
  {
    RateAt(data);
  }

  /** An array response is converted as it is. */
  lemma ArrayResponseUsedAsIs(response: Value, decode: Decoder, numeric: NumericText, pickupType: string)
    requires IsArray(response)
    ensures ShippingInfoOf(response, decode, numeric, pickupType) == Ok(Extract(response, numeric, pickupType))
  {
  }

  /** A JSON text response converts like the array it decodes to. */
  lemma TextResponseDecodedFirst(text: string, decode: Decoder, numeric: NumericText, pickupType: string)
    requires text != "" && text != "0"
    requires decode(text).Some? && IsArray(decode(text).value)
    ensures ShippingInfoOf(String(text), decode, numeric, pickupType)
         == ShippingInfoOf(decode(text).value, decode, numeric, pickupType)
  {
  }

  /** The whole of `convert`: it fails exactly when the input cannot be
      brought to an array, and with that reason; otherwise the always-set
      fields are the member values at their paths, and the pickup fields
      are set exactly for PICKUP, with the `pickupDate` and `pickupLocation`
      values. */
  lemma Converted(response: Value, decode: Decoder, numeric: NumericText, pickupType: string)
    ensures var r := ShippingInfoOf(response, decode, numeric, pickupType);
      var n := Normalize(response, decode);
      && (r.Err? <==> n.Err?)
      && (r.Err? ==> r.error == n.error)
      && (n.Ok? ==>
            var data, info := n.value, r.value;
            var pickup := IsPickup(Member(data, "deliveryType"), pickupType);
            && info.deliveryType == Some(Member(data, "deliveryType"))
            && info.identifier == Some(Member(Member(data, "shippingOption"), "identifier"))
            && info.price == Some(FloatVal(Member(Member(data, "shippingOption"), "rate"), numeric))
            && info.optionTitle == Some(Member(Member(data, "shippingOption"), "name"))
            && info.preferredDeliveryDate == Some(Member(data, "preferredDeliveryDate"))
            && info.carrierPickupDate == Some(Member(data, "pickupDate"))
            && (info.pickupDate.Some? <==> pickup)
            && (info.locationCode.Some? <==> pickup)
            && (info.locationAccountNumber.Some? <==> pickup)
            && (info.locationName.Some? <==> pickup)
            && (info.pickupAddress.Some? <==> pickup)
            && (pickup ==>
                  && info.pickupDate == Some(Member(data, "pickupDate"))
                  && info.locationCode == Some(Member(Member(data, "pickupLocation"), "code"))
                  && info.locationAccountNumber == Some(Member(Member(data, "pickupLocation"), "accountNumber"))
                  && info.locationName == Some(Member(Member(data, "pickupLocation"), "name"))
                  && info.pickupAddress == Some(Member(Member(data, "pickupLocation"), "address")))
            && (!pickup ==>
                  && info.pickupDate == FreshInfo.pickupDate
                  && info.locationCode == FreshInfo.locationCode
                  && info.locationAccountNumber == FreshInfo.locationAccountNumber
                  && info.locationName == FreshInfo.locationName
                  && info.pickupAddress == FreshInfo.pickupAddress))
  {
    var n := Normalize(response, decode);
    if n.Ok? {
      ExtractFields(n.value, numeric, pickupType);
      ExtractPickupFields(n.value, numeric, pickupType);
    }
  }
}
