/** The per-account-product table of broker API settings: which path and
    TR-id key each API uses for a regular ("01") and a pension ("22")
    account, which APIs a pension account may call, and the messages for
    the ones it may not. */
module ApiConfig {
  import opened Models

  /** One API's settings (`APIConfig`). */
  datatype ApiSetting = ApiSetting(path: string, trIdKey: string, description: string)

  /** The five APIs of one account type (`AccountAPIConfig`). */
  datatype AccountApis = AccountApis(
    balance: ApiSetting, dailyOrders: ApiSetting, orderableCash: ApiSetting,
    orderCash: ApiSetting, cancelOrder: ApiSetting)

  /** Why a lookup raised `ValueError`. */
  datatype LookupError = UnsupportedCode(code: string) | UnsupportedApiType(apiType: string)

  datatype Lookup = Found(setting: ApiSetting) | Raised(error: LookupError)

  const RegularCode: string := "01"
  const PensionCode: string := "22"

  const ApiTypes: seq<string> := ["balance", "daily_orders", "orderable_cash", "order_cash", "cancel_order"]

  /** The APIs a pension account may call. */
  const InquiryApiTypes: seq<string> := ["balance", "daily_orders", "orderable_cash"]

  const BalancePath: string := "/uapi/domestic-stock/v1/trading/inquire-balance"
  const DailyOrdersPath: string := "/uapi/domestic-stock/v1/trading/inquire-daily-ccld"
  const OrderableCashPath: string := "/uapi/domestic-stock/v1/trading/inquire-psbl-order"
  const OrderCashPath: string := "/uapi/domestic-stock/v1/trading/order-cash"
  const CancelOrderPath: string := "/uapi/domestic-stock/v1/trading/order-rvsecncl"

  /** The regular account's APIs, at their default paths. */
  const RegularApis: AccountApis := AccountApis(
    ApiSetting(BalancePath, "BALANCE", "일반계좌 잔고조회"),
    ApiSetting(DailyOrdersPath, "DAILY_ORDERS", "일반계좌 일별주문체결조회"),
    ApiSetting(OrderableCashPath, "ORDERABLE_CASH", "일반계좌 주문가능현금조회"),
    ApiSetting(OrderCashPath, "ORDER_CASH", "일반계좌 현금주문"),
    ApiSetting(CancelOrderPath, "ORDER_CANCEL", "일반계좌 주문취소"))

  /** The pension account's APIs: the regular inquiry APIs, and no path and
      no TR-id key for ordering and cancelling. */
  const PensionApis: AccountApis := AccountApis(
    ApiSetting(BalancePath, "BALANCE", "연금계좌 잔고조회 (일반계좌 API 사용)"),
    ApiSetting(DailyOrdersPath, "DAILY_ORDERS", "연금계좌 일별주문체결조회 (일반계좌 API 사용)"),
    ApiSetting(OrderableCashPath, "ORDERABLE_CASH", "연금계좌 주문가능현금조회 (일반계좌 API 사용)"),
    ApiSetting("", "", "연금계좌 현금주문 (미지원)"),
    ApiSetting("", "", "연금계좌 주문취소 (미지원)"))

  /** `getattr(account_config, api_type)` for the five API names. */
  function ApiOf(apis: AccountApis, apiType: string): (r: Option<ApiSetting>)
    ensures r.Some? <==> apiType in ApiTypes
  {
    if apiType == "balance" then Some(apis.balance)
    else if apiType == "daily_orders" then Some(apis.dailyOrders)
    else if apiType == "orderable_cash" then Some(apis.orderableCash)
    else if apiType == "order_cash" then Some(apis.orderCash)
    else if apiType == "cancel_order" then Some(apis.cancelOrder)
    else None
  }

  /** The table `_initialize_configs` builds: "01", then "22". */
  function InitialConfigs(): Dict<AccountApis> {
    Put(Put(EmptyDict(), RegularCode, RegularApis), PensionCode, PensionApis)
  }

  /** `get_api_config` on a table: an unknown product code raises first,
      then an unknown API type. */
  function LookupIn(configs: Dict<AccountApis>, code: string, apiType: string): Lookup {
    if code !in configs.m then Raised(UnsupportedCode(code))
    else
      var setting := ApiOf(configs.m[code], apiType);
      if setting.None? then Raised(UnsupportedApiType(apiType)) else Found(setting.value)
  }

  /** A lookup finds a setting exactly when the code is registered and the
      API type is one of the five; the code is checked first. */
  lemma LookupMeaning(configs: Dict<AccountApis>, code: string, apiType: string)
    ensures LookupIn(configs, code, apiType).Found? <==> code in configs.m && apiType in ApiTypes
    ensures code !in configs.m ==> LookupIn(configs, code, apiType) == Raised(UnsupportedCode(code))
    ensures code in configs.m && apiType !in ApiTypes ==>
      LookupIn(configs, code, apiType) == Raised(UnsupportedApiType(apiType))
  {
  }

  /** Registering a code makes every lookup on it answer from the new
      settings, replacing what was there; other codes answer as before. */
  lemma LookupAfterPut(configs: Dict<AccountApis>, code: string, apis: AccountApis, other: string, apiType: string)
    ensures LookupIn(Put(configs, code, apis), code, apiType)
      == (if apiType in ApiTypes then Found(ApiOf(apis, apiType).value) else Raised(UnsupportedApiType(apiType)))
    ensures other != code ==> LookupIn(Put(configs, code, apis), other, apiType) == LookupIn(configs, other, apiType)
  {
  }

  /** Initially exactly "01" and "22" are supported, listed in that order. */
  lemma InitialCodes()
    ensures InitialConfigs().keys == [RegularCode, PensionCode]
    ensures InitialConfigs().m.Keys == {RegularCode, PensionCode}
    ensures WellFormed(InitialConfigs())
  {
  }

  /** `is_pension_account` */
  predicate IsPensionAccount(code: string) {
    code == PensionCode
  }

  /** `is_order_api_supported`: a pension account may only make the three
      inquiries; every other account may call everything. */
  predicate IsOrderApiSupported(code: string, apiType: string) {
    if IsPensionAccount(code) then apiType in InquiryApiTypes else true
  }

  /** The initial table agrees with `is_order_api_supported`: an API of a
      registered account has a path exactly when the account may call it. */
  lemma InitialPathsMatchSupport(code: string, apiType: string)
    requires code in InitialConfigs().m && apiType in ApiTypes
    ensures LookupIn(InitialConfigs(), code, apiType).Found?
    ensures LookupIn(InitialConfigs(), code, apiType).setting.path != "" <==> IsOrderApiSupported(code, apiType)
    ensures LookupIn(InitialConfigs(), code, apiType).setting.path == "" <==>
      LookupIn(InitialConfigs(), code, apiType).setting.trIdKey == ""
  {
    InitialCodes();
    LookupMeaning(InitialConfigs(), code, apiType);
  }

  /** The pension account's order and cancel APIs have neither a path nor a
      TR-id key; its inquiries use the regular account's paths and keys. */
  lemma PensionOrdersUnsupported()
    ensures LookupIn(InitialConfigs(), PensionCode, "order_cash").setting.path == ""
    ensures LookupIn(InitialConfigs(), PensionCode, "order_cash").setting.trIdKey == ""
    ensures LookupIn(InitialConfigs(), PensionCode, "cancel_order").setting.path == ""
    ensures LookupIn(InitialConfigs(), PensionCode, "cancel_order").setting.trIdKey == ""
    ensures forall t :: t in InquiryApiTypes ==>
      && LookupIn(InitialConfigs(), PensionCode, t).setting.path == LookupIn(InitialConfigs(), RegularCode, t).setting.path
      && LookupIn(InitialConfigs(), PensionCode, t).setting.trIdKey == LookupIn(InitialConfigs(), RegularCode, t).setting.trIdKey
  {
    InitialCodes();
  }

  /** `get_account_type_name` */
  function AccountTypeName(code: string): string {
    if code == RegularCode then "일반 위탁계좌"
    else if code == PensionCode then "개인연금/퇴직연금 계좌"
    else "알 수 없는 계좌 유형 (" + code + ")"
  }

  /** Different product codes never share a name: the two known names
      differ, and the fallback names the code itself. */
  lemma AccountTypeNameInjective(a: string, b: string)
    ensures a != b ==> AccountTypeName(a) != AccountTypeName(b)
  {
    var prefix := "알 수 없는 계좌 유형 (";
    var na := AccountTypeName(a);
    var nb := AccountTypeName(b);
    if a != b {
      var knownA := a == RegularCode || a == PensionCode;
      var knownB := b == RegularCode || b == PensionCode;
      if !knownA && !knownB {
        if |na| == |nb| {
          assert na[|prefix|..|na| - 1] == a;
          assert nb[|prefix|..|nb| - 1] == b;
        }
      } else {
        assert na[0] != nb[0];
      }
    }
  }

  /** "❌ {account type name}에서는 " */
  function MessageLead(code: string): string {
    "❌ " + AccountTypeName(code) + "에서는 "
  }

  /** `get_unsupported_api_message`: the account type's name, then one
      text for ordering, one for cancelling and one naming any other API. */
  function UnsupportedApiMessage(code: string, apiType: string): string {
    MessageLead(code)
      + if apiType == "order_cash" then "주문(매수/매도) API가 지원되지 않습니다."
        else if apiType == "cancel_order" then "주문취소 API가 지원되지 않습니다."
        else apiType + " API가 지원되지 않습니다."
  }

  /** Every message names the account type first; any API other than
      ordering and cancelling is named right after it. */
  lemma UnsupportedApiMessageNames(code: string, apiType: string)
    ensures var lead := MessageLead(code);
      var msg := UnsupportedApiMessage(code, apiType);
      && |lead| <= |msg| && msg[..|lead|] == lead
      && (apiType != "order_cash" && apiType != "cancel_order" ==>
            |lead| + |apiType| <= |msg| && msg[|lead|..|lead| + |apiType|] == apiType)
  {
  }

  /** Ordering and cancelling have messages of their own. */
  lemma UnsupportedApiMessagesDiffer(code: string)
    ensures UnsupportedApiMessage(code, "order_cash") != UnsupportedApiMessage(code, "cancel_order")
  {
    var n := |MessageLead(code)|;
    assert UnsupportedApiMessage(code, "order_cash")[n + 2] == '(';
    assert UnsupportedApiMessage(code, "cancel_order")[n + 2] == '취';
  }

  /** The API settings table (`APIConfigManager`). */
  class ApiConfigManager {
    var configs: Dict<AccountApis>

    constructor ()
      ensures configs == InitialConfigs()
    {
      configs := InitialConfigs();
    }

    function GetApiConfig(code: string, apiType: string): Lookup
      reads this
    {
      LookupIn(configs, code, apiType)
    }

    function GetSupportedAccountTypes(): seq<string>
      reads this
    {
      configs.keys
    }

    predicate IsSupportedAccountType(code: string)
      reads this
    {
      code in configs.m
    }

    method AddAccountType(code: string, apis: AccountApis)
      modifies this
      ensures configs == Put(old(configs), code, apis)
    {
      configs := Put(configs, code, apis);
    }
  }
}
