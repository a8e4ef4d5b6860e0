/** The FreeKassa client: one function per operation, each building the
    operation's parameter dict (a fixed `action`, an identifier, the
    caller's arguments and a signature) and the request that would be handed
    to the HTTP transport, plus the payment-form link builder.

    The transport itself is not modelled: `SendRequest` only records what it
    would be given. Argument values are the strings that are sent; defaults
    are those of the client's own signatures. */
module FreeKassa {
  import opened Text
  import opened Params
  import opened Signing
  import opened UrlEncoding
  import opened Gateway

  const BaseUrl: string := "https://www.free-kassa.ru/api.php"
  const BaseFormUrl: string := "https://pay.freekassa.ru/"
  const BaseExportOrderUrl: string := "https://www.free-kassa.ru/export.php"
  const WalletApiUrl: string := "https://www.fkwallet.ru/api_v1.php"

  /** What is handed to the transport: the HTTP verb, the URL and the parameters. */
  datatype Request = Request(verb: string, url: string, params: Dict)

  /** `send_request(params, url=None, method='post')`, as the request it
      would send: without a URL it goes to the merchant API base. */
  function SendRequest(params: Dict, url: Option<string> := None, verb: string := "post"): (r: Request)
    ensures r.params == params && r.verb == verb
    ensures url.None? ==> r.url == BaseUrl
    ensures url.Some? ==> r.url == url.value
  {
    Request(verb, if url.None? then BaseUrl else url.value, params)
  }

  /** A merchant API request: posted to the merchant API base. */
  predicate MerchantRequest(r: Request)
  {
    r.verb == "post" && r.url == BaseUrl
  }

  /** A wallet API request: posted to the wallet API base. */
  predicate WalletRequest(r: Request)
  {
    r.verb == "post" && r.url == WalletApiUrl
  }

  // ---------------------------------------------------------------- merchant API

  /** `get_balance()`. */
  function GetBalance(api: FreeKassaApi, md5: Hasher): (r: Request)
    ensures MerchantRequest(r)
    ensures r.params.Get(Action) == Some("get_balance")
    ensures r.params.Get(MerchantId) == Some(api.merchantId)
    ensures r.params.Get(S) == Some(md5(ApiPreimage(api)))
  {
    SendRequest(Empty()
      .Add(MerchantId, api.merchantId)
      .Add(S, GenerateApiSignature(api, md5))
      .Add(Action, "get_balance"))
  }

  lemma GetBalanceOrder(api: FreeKassaApi, md5: Hasher)
    ensures GetBalance(api, md5).params.keys == [MerchantId, S, Action]
  {
  }

  lemma GetBalanceAuthentic(api: FreeKassaApi, md5: Hasher)
    ensures Authentic(api, md5, GetBalance(api, md5).params)
  {
  }

  /** `get_order(order_id='', int_id='')`. */
  function GetOrder(api: FreeKassaApi, md5: Hasher, orderId: string := "", intId: string := ""): (r: Request)
    ensures MerchantRequest(r)
    ensures r.params.Get(Action) == Some("check_order_status")
    ensures r.params.Get(MerchantId) == Some(api.merchantId)
    ensures r.params.Get(S) == Some(md5(ApiPreimage(api)))
    ensures r.params.Get(OrderId) == Some(orderId) && r.params.Get(IntId) == Some(intId)
  {
    SendRequest(Empty()
      .Add(MerchantId, api.merchantId)
      .Add(S, GenerateApiSignature(api, md5))
      .Add(Action, "check_order_status")
      .Add(OrderId, orderId)
      .Add(IntId, intId))
  }

  lemma GetOrderOrder(api: FreeKassaApi, md5: Hasher, orderId: string, intId: string)
    ensures GetOrder(api, md5, orderId, intId).params.keys == [MerchantId, S, Action, OrderId, IntId]
  {
  }

  lemma GetOrderAuthentic(api: FreeKassaApi, md5: Hasher, orderId: string, intId: string)
    ensures Authentic(api, md5, GetOrder(api, md5, orderId, intId).params)
  {
  }

  /** `export_order(status, date_from, date_to, limit=0, offset=100)`; it is
      sent to the default (merchant API) URL. */
  function ExportOrder(api: FreeKassaApi, md5: Hasher, status: string, dateFrom: string, dateTo: string,
                       limit: string := "0", offset: string := "100"): (r: Request)
    ensures MerchantRequest(r)
    ensures r.params.Get(Action) == Some("get_orders")
    ensures r.params.Get(MerchantId) == Some(api.merchantId)
    ensures r.params.Get(S) == Some(md5(ApiPreimage(api)))
    ensures r.params.Get(DateFrom) == Some(dateFrom) && r.params.Get(DateTo) == Some(dateTo)
    ensures r.params.Get(Status) == Some(status)
    ensures r.params.Get(Limit) == Some(limit) && r.params.Get(Offset) == Some(offset)
  {
    SendRequest(Empty()
      .Add(MerchantId, api.merchantId)
      .Add(S, GenerateApiSignature(api, md5))
      .Add(Action, "get_orders")
      .Add(DateFrom, dateFrom)
      .Add(DateTo, dateTo)
      .Add(Status, status)
      .Add(Limit, limit)
      .Add(Offset, offset))
  }

  lemma ExportOrderOrder(api: FreeKassaApi, md5: Hasher, status: string, dateFrom: string, dateTo: string,
                         limit: string, offset: string)
    ensures ExportOrder(api, md5, status, dateFrom, dateTo, limit, offset).params.keys
         == [MerchantId, S, Action, DateFrom, DateTo, Status, Limit, Offset]
  {
  }

  lemma ExportOrderAuthentic(api: FreeKassaApi, md5: Hasher, status: string, dateFrom: string, dateTo: string,
                             limit: string, offset: string)
    ensures Authentic(api, md5, ExportOrder(api, md5, status, dateFrom, dateTo, limit, offset).params)
  {
  }

  /** `withdraw(amount, currency)`. */
  function Withdraw(api: FreeKassaApi, md5: Hasher, amount: string, currency: string): (r: Request)
    ensures MerchantRequest(r)
    ensures r.params.Get(Action) == Some("payment")
    ensures r.params.Get(MerchantId) == Some(api.merchantId)
    ensures r.params.Get(S) == Some(md5(ApiPreimage(api)))
    ensures r.params.Get(Amount) == Some(amount) && r.params.Get(Currency) == Some(currency)
  {
    SendRequest(Empty()
      .Add(MerchantId, api.merchantId)
      .Add(Currency, currency)
      .Add(Amount, amount)
      .Add(S, GenerateApiSignature(api, md5))
      .Add(Action, "payment"))
  }

  lemma WithdrawOrder(api: FreeKassaApi, md5: Hasher, amount: string, currency: string)
    ensures Withdraw(api, md5, amount, currency).params.keys == [MerchantId, Currency, Amount, S, Action]
  {
  }

  lemma WithdrawAuthentic(api: FreeKassaApi, md5: Hasher, amount: string, currency: string)
    ensures Authentic(api, md5, Withdraw(api, md5, amount, currency).params)
  {
  }

  /** `invoice(email, amount, description)`. */
  function Invoice(api: FreeKassaApi, md5: Hasher, email: string, amount: string, description: string): (r: Request)
    ensures MerchantRequest(r)
    ensures r.params.Get(Action) == Some("create_bill")
    ensures r.params.Get(MerchantId) == Some(api.merchantId)
    ensures r.params.Get(S) == Some(md5(ApiPreimage(api)))
    ensures r.params.Get(Email) == Some(email) && r.params.Get(Amount) == Some(amount)
    ensures r.params.Get(Desc) == Some(description)
  {
    SendRequest(Empty()
      .Add(MerchantId, api.merchantId)
      .Add(Email, email)
      .Add(Amount, amount)
      .Add(Desc, description)
      .Add(S, GenerateApiSignature(api, md5))
      .Add(Action, "create_bill"))
  }

  lemma InvoiceOrder(api: FreeKassaApi, md5: Hasher, email: string, amount: string, description: string)
    ensures Invoice(api, md5, email, amount, description).params.keys == [MerchantId, Email, Amount, Desc, S, Action]
  {
  }

  lemma InvoiceAuthentic(api: FreeKassaApi, md5: Hasher, email: string, amount: string, description: string)
    ensures Authentic(api, md5, Invoice(api, md5, email, amount, description).params)
  {
  }

  /** The five merchant operations carry one and the same `s`, the digest of
      merchant id ++ second secret, whatever their other arguments. */
  lemma MerchantSignatureShared(api: FreeKassaApi, md5: Hasher,
                                orderId: string, intId: string,
                                status: string, dateFrom: string, dateTo: string, limit: string, offset: string,
                                amount: string, currency: string,
                                email: string, invoiceAmount: string, description: string)
    ensures var s := GetBalance(api, md5).params.Get(S);
      && GetOrder(api, md5, orderId, intId).params.Get(S) == s
      && ExportOrder(api, md5, status, dateFrom, dateTo, limit, offset).params.Get(S) == s
      && Withdraw(api, md5, amount, currency).params.Get(S) == s
      && Invoice(api, md5, email, invoiceAmount, description).params.Get(S) == s
  {
  }

  // ---------------------------------------------------------------- wallet API

  /** `get_wallet_balance()`, without its `action` entry (see README). */
  function GetWalletBalance(api: FreeKassaApi, md5: Hasher): (r: Request)
    ensures WalletRequest(r)
    ensures r.params.keys == [WalletId, Sign]
    ensures r.params.Get(WalletId) == Some(api.walletId)
    ensures r.params.Get(Sign) == Some(md5(WalletPreimage(api)))
  {
    SendRequest(Empty()
      .Add(WalletId, api.walletId)
      .Add(Sign, GenerateWalletSignature(api, md5)),
      Some(WalletApiUrl))
  }

  /** `wallet_withdraw(purse, amount, currency, description, disable_exchange=1)`. */
  function WalletWithdraw(api: FreeKassaApi, md5: Hasher, purse: string, amount: string, currency: string,
                          description: string, disableExchange: string := "1"): (r: Request)
    ensures WalletRequest(r)
    ensures r.params.Get(Action) == Some("cashout")
    ensures r.params.Get(WalletId) == Some(api.walletId)
    ensures r.params.Get(Purse) == Some(purse) && r.params.Get(Amount) == Some(amount)
    ensures r.params.Get(Currency) == Some(currency)
    ensures r.params.Get(Desc) == Some(description) && r.params.Get(DisableExchange) == Some(disableExchange)
  {
    SendRequest(Empty()
      .Add(WalletId, api.walletId)
      .Add(Purse, purse)
      .Add(Amount, amount)
      .Add(Desc, description)
      .Add(DisableExchange, disableExchange)
      .Add(Currency, currency)
      .Add(Action, "cashout")
      .Add(Sign, MakeHash(md5, [api.walletId, currency, amount, purse, api.walletApiKey])),
      Some(WalletApiUrl))
  }

  lemma WalletWithdrawOrder(api: FreeKassaApi, md5: Hasher, purse: string, amount: string, currency: string,
                            description: string, disableExchange: string)
    ensures WalletWithdraw(api, md5, purse, amount, currency, description, disableExchange).params.keys
         == [WalletId, Purse, Amount, Desc, DisableExchange, Currency, Action, Sign]
  {
  }

  /** The cashout signature covers wallet id, currency, amount, purse and
      key in that order, and the gateway accepts the request; `desc` and
      `disable_exchange` are sent unsigned. */
  lemma {:induction false} WalletWithdrawAuthentic(api: FreeKassaApi, md5: Hasher, purse: string, amount: string,
                                                   currency: string, description: string, disableExchange: string)
    ensures var p := WalletWithdraw(api, md5, purse, amount, currency, description, disableExchange).params;
      && p.Get(Sign) == Some(md5(WalletActionPreimage(api, [currency, amount, purse])))
      && Authentic(api, md5, p)
  {
    var p := WalletWithdraw(api, md5, purse, amount, currency, description, disableExchange).params;
    assert [api.walletId] + [currency, amount, purse] + [api.walletApiKey]
        == [api.walletId, currency, amount, purse, api.walletApiKey];
    assert ValuesOf(p, [Currency, Amount, Purse]).Some? && ValuesOf(p, [Currency, Amount, Purse]).value == [currency, amount, purse];
  }

  /** `get_operation_status(payment_id)`. */
  function GetOperationStatus(api: FreeKassaApi, md5: Hasher, paymentId: string): (r: Request)
    ensures WalletRequest(r)
    ensures r.params.Get(Action) == Some("get_payment_status")
    ensures r.params.Get(WalletId) == Some(api.walletId)
    ensures r.params.Get(PaymentId) == Some(paymentId)
  {
    SendRequest(Empty()
      .Add(WalletId, api.walletId)
      .Add(PaymentId, paymentId)
      .Add(Sign, MakeHash(md5, [api.walletId, paymentId, api.walletApiKey]))
      .Add(Action, "get_payment_status"),
      Some(WalletApiUrl))
  }

  lemma GetOperationStatusOrder(api: FreeKassaApi, md5: Hasher, paymentId: string)
    ensures GetOperationStatus(api, md5, paymentId).params.keys == [WalletId, PaymentId, Sign, Action]
  {
  }

  /** The signature covers wallet id, payment id and key, and the gateway
      accepts the request. */
  lemma {:induction false} GetOperationStatusAuthentic(api: FreeKassaApi, md5: Hasher, paymentId: string)
    ensures var p := GetOperationStatus(api, md5, paymentId).params;
      && p.Get(Sign) == Some(md5(WalletActionPreimage(api, [paymentId])))
      && Authentic(api, md5, p)
  {
    var p := GetOperationStatus(api, md5, paymentId).params;
    assert [api.walletId] + [paymentId] + [api.walletApiKey] == [api.walletId, paymentId, api.walletApiKey];
    assert ValuesOf(p, [PaymentId]).Some? && ValuesOf(p, [PaymentId]).value == [paymentId];
  }

  /** `transfer_money(purse, amount)`. */
  function TransferMoney(api: FreeKassaApi, md5: Hasher, purse: string, amount: string): (r: Request)
    ensures WalletRequest(r)
    ensures r.params.Get(Action) == Some("transfer")
    ensures r.params.Get(WalletId) == Some(api.walletId)
    ensures r.params.Get(Purse) == Some(purse) && r.params.Get(Amount) == Some(amount)
  {
    SendRequest(Empty()
      .Add(WalletId, api.walletId)
      .Add(Purse, purse)
      .Add(Amount, amount)
      .Add(Sign, MakeHash(md5, [api.walletId, purse, amount, api.walletApiKey]))
      .Add(Action, "transfer"),
      Some(WalletApiUrl))
  }

  lemma TransferMoneyOrder(api: FreeKassaApi, md5: Hasher, purse: string, amount: string)
    ensures TransferMoney(api, md5, purse, amount).params.keys == [WalletId, Purse, Amount, Sign, Action]
  {
  }

  /** The transfer signature covers wallet id, purse, amount and key in
      that order, and the gateway accepts the request. */
  lemma {:induction false} TransferMoneyAuthentic(api: FreeKassaApi, md5: Hasher, purse: string, amount: string)
    ensures var p := TransferMoney(api, md5, purse, amount).params;
      && p.Get(Sign) == Some(md5(WalletActionPreimage(api, [purse, amount])))
      && Authentic(api, md5, p)
  {
    var p := TransferMoney(api, md5, purse, amount).params;
    assert [api.walletId] + [purse, amount] + [api.walletApiKey] == [api.walletId, purse, amount, api.walletApiKey];
    assert ValuesOf(p, [Purse, Amount]).Some? && ValuesOf(p, [Purse, Amount]).value == [purse, amount];
  }

  /** `online_payments(service_id, account, amount)`. */
  function OnlinePayments(api: FreeKassaApi, md5: Hasher, serviceId: string, account: string, amount: string): (r: Request)
    ensures WalletRequest(r)
    ensures r.params.Get(Action) == Some("online_payment")
    ensures r.params.Get(WalletId) == Some(api.walletId)
    ensures r.params.Get(ServiceId) == Some(serviceId)
    ensures r.params.Get(Account) == Some(account) && r.params.Get(Amount) == Some(amount)
  {
    SendRequest(Empty()
      .Add(WalletId, api.walletId)
      .Add(ServiceId, serviceId)
      .Add(Account, account)
      .Add(Amount, amount)
      .Add(Sign, MakeHash(md5, [api.walletId, amount, account, api.walletApiKey]))
      .Add(Action, "online_payment"),
      Some(WalletApiUrl))
  }

  lemma OnlinePaymentsOrder(api: FreeKassaApi, md5: Hasher, serviceId: string, account: string, amount: string)
    ensures OnlinePayments(api, md5, serviceId, account, amount).params.keys
         == [WalletId, ServiceId, Account, Amount, Sign, Action]
  {
  }

  /** The online-payment signature covers wallet id, amount, account and
      key in that order (not the order they are sent in), and the gateway
      accepts the request; `service_id` is sent unsigned. */
  lemma {:induction false} OnlinePaymentsAuthentic(api: FreeKassaApi, md5: Hasher, serviceId: string, account: string,
                                                   amount: string)
    ensures var p := OnlinePayments(api, md5, serviceId, account, amount).params;
      && p.Get(Sign) == Some(md5(WalletActionPreimage(api, [amount, account])))
      && Authentic(api, md5, p)
  {
    var p := OnlinePayments(api, md5, serviceId, account, amount).params;
    assert [api.walletId] + [amount, account] + [api.walletApiKey] == [api.walletId, amount, account, api.walletApiKey];
    assert ValuesOf(p, [Amount, Account]).Some? && ValuesOf(p, [Amount, Account]).value == [amount, account];
  }

  /** `get_online_services()`. */
  function GetOnlineServices(api: FreeKassaApi, md5: Hasher): (r: Request)
    ensures WalletRequest(r)
    ensures r.params.keys == [WalletId, Sign, Action]
    ensures r.params.Get(Action) == Some("providers")
    ensures r.params.Get(WalletId) == Some(api.walletId)
    ensures r.params.Get(Sign) == Some(md5(WalletPreimage(api)))
  {
    SendRequest(Empty()
      .Add(WalletId, api.walletId)
      .Add(Sign, GenerateWalletSignature(api, md5))
      .Add(Action, "providers"),
      Some(WalletApiUrl))
  }

  lemma GetOnlineServicesAuthentic(api: FreeKassaApi, md5: Hasher)
    ensures Authentic(api, md5, GetOnlineServices(api, md5).params)
  {
  }

  /** `get_online_payment_status(payment_id)`. */
  function GetOnlinePaymentStatus(api: FreeKassaApi, md5: Hasher, paymentId: string): (r: Request)
    ensures WalletRequest(r)
    ensures r.params.Get(Action) == Some("check_online_payment")
    ensures r.params.Get(WalletId) == Some(api.walletId)
    ensures r.params.Get(PaymentId) == Some(paymentId)
  {
    SendRequest(Empty()
      .Add(WalletId, api.walletId)
      .Add(PaymentId, paymentId)
      .Add(Sign, MakeHash(md5, [api.walletId, paymentId, api.walletApiKey]))
      .Add(Action, "check_online_payment"),
      Some(WalletApiUrl))
  }

  lemma GetOnlinePaymentStatusOrder(api: FreeKassaApi, md5: Hasher, paymentId: string)
    ensures GetOnlinePaymentStatus(api, md5, paymentId).params.keys == [WalletId, PaymentId, Sign, Action]
  {
  }

  /** The signature covers wallet id, payment id and key, and the gateway
      accepts the request. */
  lemma {:induction false} GetOnlinePaymentStatusAuthentic(api: FreeKassaApi, md5: Hasher, paymentId: string)
    ensures var p := GetOnlinePaymentStatus(api, md5, paymentId).params;
      && p.Get(Sign) == Some(md5(WalletActionPreimage(api, [paymentId])))
      && Authentic(api, md5, p)
  {
    var p := GetOnlinePaymentStatus(api, md5, paymentId).params;
    assert [api.walletId] + [paymentId] + [api.walletApiKey] == [api.walletId, paymentId, api.walletApiKey];
    assert ValuesOf(p, [PaymentId]).Some? && ValuesOf(p, [PaymentId]).value == [paymentId];
  }

  /** `create_crypto_address(action)`: the action is sent as given. */
  function CreateCryptoAddress(api: FreeKassaApi, md5: Hasher, action: string): (r: Request)
    ensures WalletRequest(r)
    ensures r.params.keys == [WalletId, Sign, Action]
    ensures r.params.Get(Action) == Some(action)
    ensures r.params.Get(WalletId) == Some(api.walletId)
    ensures r.params.Get(Sign) == Some(md5(WalletPreimage(api)))
  {
    SendRequest(Empty()
      .Add(WalletId, api.walletId)
      .Add(Sign, GenerateWalletSignature(api, md5))
      .Add(Action, action),
      Some(WalletApiUrl))
  }

  /** `get_crypto_address(action)`: as `create_crypto_address`. */
  function GetCryptoAddress(api: FreeKassaApi, md5: Hasher, action: string): (r: Request)
    ensures WalletRequest(r)
    ensures r.params.keys == [WalletId, Sign, Action]
    ensures r.params.Get(Action) == Some(action)
    ensures r.params.Get(WalletId) == Some(api.walletId)
    ensures r.params.Get(Sign) == Some(md5(WalletPreimage(api)))
  {
    SendRequest(Empty()
      .Add(WalletId, api.walletId)
      .Add(Sign, GenerateWalletSignature(api, md5))
      .Add(Action, action),
      Some(WalletApiUrl))
  }

  /** A crypto-address request is authentic exactly when its action is one
      the gateway signs by wallet identity. */
  lemma CryptoAddressAuthentic(api: FreeKassaApi, md5: Hasher, action: string)
    ensures Authentic(api, md5, CreateCryptoAddress(api, md5, action).params) <==> SchemeOf(action) == Some(WalletIdentityScheme)
    ensures Authentic(api, md5, GetCryptoAddress(api, md5, action).params) <==> SchemeOf(action) == Some(WalletIdentityScheme)
  {
  }

  /** `create_btc_address()`. */
  function CreateBtcAddress(api: FreeKassaApi, md5: Hasher): (r: Request)
    ensures WalletRequest(r)
    ensures r.params.Get(WalletId) == Some(api.walletId)
    ensures r.params.Get(Sign) == Some(md5(WalletPreimage(api)))
    ensures r.params.Get(Action) == Some("create_btc_address") && Authentic(api, md5, r.params)
  {
    CryptoAddressAuthentic(api, md5, "create_btc_address");
    CreateCryptoAddress(api, md5, "create_btc_address")
  }

  /** `create_ltc_address()`. */
  function CreateLtcAddress(api: FreeKassaApi, md5: Hasher): (r: Request)
    ensures WalletRequest(r)
    ensures r.params.Get(WalletId) == Some(api.walletId)
    ensures r.params.Get(Sign) == Some(md5(WalletPreimage(api)))
    ensures r.params.Get(Action) == Some("create_ltc_address") && Authentic(api, md5, r.params)
  {
    CryptoAddressAuthentic(api, md5, "create_ltc_address");
    CreateCryptoAddress(api, md5, "create_ltc_address")
  }

  /** `create_eth_address()`. */
  function CreateEthAddress(api: FreeKassaApi, md5: Hasher): (r: Request)
    ensures WalletRequest(r)
    ensures r.params.Get(WalletId) == Some(api.walletId)
    ensures r.params.Get(Sign) == Some(md5(WalletPreimage(api)))
    ensures r.params.Get(Action) == Some("create_eth_address") && Authentic(api, md5, r.params)
  {
    CryptoAddressAuthentic(api, md5, "create_eth_address");
    CreateCryptoAddress(api, md5, "create_eth_address")
  }

  /** `get_btc_address()`. */
  function GetBtcAddress(api: FreeKassaApi, md5: Hasher): (r: Request)
    ensures WalletRequest(r)
    ensures r.params.Get(WalletId) == Some(api.walletId)
    ensures r.params.Get(Sign) == Some(md5(WalletPreimage(api)))
    ensures r.params.Get(Action) == Some("get_btc_address") && Authentic(api, md5, r.params)
  {
    CryptoAddressAuthentic(api, md5, "get_btc_address");
    GetCryptoAddress(api, md5, "get_btc_address")
  }

  /** `get_ltc_address()`. */
  function GetLtcAddress(api: FreeKassaApi, md5: Hasher): (r: Request)
    ensures WalletRequest(r)
    ensures r.params.Get(WalletId) == Some(api.walletId)
    ensures r.params.Get(Sign) == Some(md5(WalletPreimage(api)))
    ensures r.params.Get(Action) == Some("get_ltc_address") && Authentic(api, md5, r.params)
  {
    CryptoAddressAuthentic(api, md5, "get_ltc_address");
    GetCryptoAddress(api, md5, "get_ltc_address")
  }

  /** `get_eth_address()`. */
  function GetEthAddress(api: FreeKassaApi, md5: Hasher): (r: Request)
    ensures WalletRequest(r)
    ensures r.params.Get(WalletId) == Some(api.walletId)
    ensures r.params.Get(Sign) == Some(md5(WalletPreimage(api)))
    ensures r.params.Get(Action) == Some("get_eth_address") && Authentic(api, md5, r.params)
  {
    CryptoAddressAuthentic(api, md5, "get_eth_address");
    GetCryptoAddress(api, md5, "get_eth_address")
  }

  /** `get_transaction(action, transaction_id)`: the action is sent as given. */
  function GetTransaction(api: FreeKassaApi, md5: Hasher, action: string, transactionId: string): (r: Request)
    ensures WalletRequest(r)
    ensures r.params.Get(Action) == Some(action)
    ensures r.params.Get(WalletId) == Some(api.walletId)
    ensures r.params.Get(TransactionId) == Some(transactionId)
  {
    SendRequest(Empty()
      .Add(WalletId, api.walletId)
      .Add(TransactionId, transactionId)
      .Add(Sign, MakeHash(md5, [api.walletId, transactionId, api.walletApiKey]))
      .Add(Action, action),
      Some(WalletApiUrl))
  }

  lemma GetTransactionOrder(api: FreeKassaApi, md5: Hasher, action: string, transactionId: string)
    ensures GetTransaction(api, md5, action, transactionId).params.keys == [WalletId, TransactionId, Sign, Action]
  {
  }

  /** The signature covers wallet id, transaction id and key; the request
      is authentic whenever its action is one the gateway signs over the
      transaction id. */
  lemma {:induction false} GetTransactionAuthentic(api: FreeKassaApi, md5: Hasher, action: string, transactionId: string)
    ensures var p := GetTransaction(api, md5, action, transactionId).params;
      && p.Get(Sign) == Some(md5(WalletActionPreimage(api, [transactionId])))
      && (SchemeOf(action) == Some(WalletFieldsScheme([TransactionId])) ==> Authentic(api, md5, p))
  {
    var p := GetTransaction(api, md5, action, transactionId).params;
    assert [api.walletId] + [transactionId] + [api.walletApiKey] == [api.walletId, transactionId, api.walletApiKey];
    assert ValuesOf(p, [TransactionId]).Some? && ValuesOf(p, [TransactionId]).value == [transactionId];
  }

  /** `get_btc_transaction(transaction_id)`. */
  function GetBtcTransaction(api: FreeKassaApi, md5: Hasher, transactionId: string): (r: Request)
    ensures WalletRequest(r)
    ensures r.params.Get(WalletId) == Some(api.walletId)
    ensures r.params.Get(TransactionId) == Some(transactionId)
    ensures r.params.Get(Action) == Some("get_btc_transaction") && Authentic(api, md5, r.params)
  {
    GetTransactionAuthentic(api, md5, "get_btc_transaction", transactionId);
    GetTransaction(api, md5, "get_btc_transaction", transactionId)
  }

  /** `get_ltc_transaction(transaction_id)`. */
  function GetLtcTransaction(api: FreeKassaApi, md5: Hasher, transactionId: string): (r: Request)
    ensures WalletRequest(r)
    ensures r.params.Get(WalletId) == Some(api.walletId)
    ensures r.params.Get(TransactionId) == Some(transactionId)
    ensures r.params.Get(Action) == Some("get_ltc_transaction") && Authentic(api, md5, r.params)
  {
    GetTransactionAuthentic(api, md5, "get_ltc_transaction", transactionId);
    GetTransaction(api, md5, "get_ltc_transaction", transactionId)
  }

  /** `get_eth_transaction(transaction_id)`. */
  function GetEthTransaction(api: FreeKassaApi, md5: Hasher, transactionId: string): (r: Request)
    ensures WalletRequest(r)
    ensures r.params.Get(WalletId) == Some(api.walletId)
    ensures r.params.Get(TransactionId) == Some(transactionId)
    ensures r.params.Get(Action) == Some("get_eth_transaction") && Authentic(api, md5, r.params)
  {
    GetTransactionAuthentic(api, md5, "get_eth_transaction", transactionId);
    GetTransaction(api, md5, "get_eth_transaction", transactionId)
  }

  /** md5 has no collisions (the assumption under which a signature binds its pre-image). */
  ghost predicate CollisionFree(md5: Hasher)
  {
    forall x, y :: md5(x) == md5(y) ==> x == y
  }

  /** The cashout description and exchange flag are not signed: changing
      them leaves the signature as it was. */
  lemma WalletWithdrawUnsignedFields(api: FreeKassaApi, md5: Hasher, purse: string, amount: string, currency: string,
                                     description1: string, disableExchange1: string,
                                     description2: string, disableExchange2: string)
    ensures WalletWithdraw(api, md5, purse, amount, currency, description1, disableExchange1).params.Get(Sign)
         == WalletWithdraw(api, md5, purse, amount, currency, description2, disableExchange2).params.Get(Sign)
  {
  }

  /** The cashout signature binds the values sent as currency, amount and
      purse: with a collision-free hash and space-free values, two cashouts
      carry the same signature exactly when they agree on all three. */
  lemma WalletWithdrawSignBindsFields(api: FreeKassaApi, md5: Hasher,
                                      purse1: string, amount1: string, currency1: string,
                                      description1: string, disableExchange1: string,
                                      purse2: string, amount2: string, currency2: string,
                                      description2: string, disableExchange2: string)
    requires CollisionFree(md5)
    requires FreeOf([api.walletId, currency1, amount1, purse1, api.walletApiKey], ' ')
    requires FreeOf([api.walletId, currency2, amount2, purse2, api.walletApiKey], ' ')
    ensures WalletWithdraw(api, md5, purse1, amount1, currency1, description1, disableExchange1).params.Get(Sign)
         == WalletWithdraw(api, md5, purse2, amount2, currency2, description2, disableExchange2).params.Get(Sign)
        <==> purse1 == purse2 && amount1 == amount2 && currency1 == currency2
  {
    WalletWithdrawAuthentic(api, md5, purse1, amount1, currency1, description1, disableExchange1);
    WalletWithdrawAuthentic(api, md5, purse2, amount2, currency2, description2, disableExchange2);
    var f1 := [api.walletId, currency1, amount1, purse1, api.walletApiKey];
    var f2 := [api.walletId, currency2, amount2, purse2, api.walletApiKey];
    assert [api.walletId] + [currency1, amount1, purse1] + [api.walletApiKey] == f1;
    assert [api.walletId] + [currency2, amount2, purse2] + [api.walletApiKey] == f2;
    JoinInjective(f1, f2, ' ');
    if f1 == f2 {
      assert f1[1] == f2[1] && f1[2] == f2[2] && f1[3] == f2[3];
    }
  }

  /** The online-payment service id is not signed. */
  lemma OnlinePaymentsUnsignedServiceId(api: FreeKassaApi, md5: Hasher, serviceId1: string, serviceId2: string,
                                        account: string, amount: string)
    ensures OnlinePayments(api, md5, serviceId1, account, amount).params.Get(Sign)
         == OnlinePayments(api, md5, serviceId2, account, amount).params.Get(Sign)
  {
  }

  /** The transfer signature has purse before amount: transfers that swap
      a distinct, space-free purse and amount carry different pre-images. */
  lemma TransferMoneyOrderSensitive(api: FreeKassaApi, purse: string, amount: string)
    requires FreeOf([api.walletId, purse, amount, api.walletApiKey], ' ')
    ensures WalletActionPreimage(api, [purse, amount]) == WalletActionPreimage(api, [amount, purse]) <==> purse == amount
  {
    var f1 := [api.walletId] + [purse, amount] + [api.walletApiKey];
    var f2 := [api.walletId] + [amount, purse] + [api.walletApiKey];
    assert f1 == [api.walletId, purse, amount, api.walletApiKey];
    assert f2 == [api.walletId, amount, purse, api.walletApiKey];
    assert ' ' !in f1[0] && ' ' !in f1[1] && ' ' !in f1[2] && ' ' !in f1[3];
    JoinInjective(f1, f2, ' ');
  }

  // ---------------------------------------------------------------- payment form

  /** The query of `generate_payment_link`. */
  function PaymentForm(api: FreeKassaApi, md5: Hasher, orderId: string, summ: string,
                       currency: string := "rub", description: string := "", language: string := "ru"): (q: Dict)
    ensures q.Get(O) == Some(orderId) && q.Get(Oa) == Some(summ)
    ensures q.Get(M) == Some(api.merchantId) && q.Get(Pay) == Some("PAY")
    ensures q.Get(Currency) == Some(currency) && q.Get(Lang) == Some(language)
    ensures q.Get(UsDesc) == Some(description)
    ensures q.Get(S) == Some(md5(FormPreimage(api, summ, orderId, currency)))
  {
    Empty()
      .Add(O, orderId)
      .Add(Oa, summ)
      .Add(S, GenerateFormSignature(api, md5, summ, orderId, currency))
      .Add(M, api.merchantId)
      .Add(Currency, currency)
      .Add(Lang, language)
      .Add(Pay, "PAY")
      .Add(UsDesc, description)
  }

  lemma PaymentFormOrder(api: FreeKassaApi, md5: Hasher, orderId: string, summ: string,
                         currency: string, description: string, language: string)
    ensures PaymentForm(api, md5, orderId, summ, currency, description, language).keys
         == [O, Oa, S, M, Currency, Lang, Pay, UsDesc]
  {
  }

  /** The gateway accepts the form: `s` is the digest of
      `m:oa:first_secret:currency:o` read from the form itself. */
  lemma {:induction false} PaymentFormAuthentic(api: FreeKassaApi, md5: Hasher, orderId: string, summ: string,
                                                currency: string, description: string, language: string)
    ensures FormAuthentic(api, md5, PaymentForm(api, md5, orderId, summ, currency, description, language))
  {
    var q := PaymentForm(api, md5, orderId, summ, currency, description, language);
    assert ValuesOf(q, [Oa, Currency, O]).Some? && ValuesOf(q, [Oa, Currency, O]).value == [summ, currency, orderId];
  }

  /** The defaults: rubles, Russian, no description. */
  lemma PaymentFormDefaults(api: FreeKassaApi, md5: Hasher, orderId: string, summ: string)
    ensures PaymentForm(api, md5, orderId, summ).Get(Currency) == Some("rub")
    ensures PaymentForm(api, md5, orderId, summ).Get(Lang) == Some("ru")
    ensures PaymentForm(api, md5, orderId, summ).Get(UsDesc) == Some("")
  {
  }

  /** A dict holding the form's keys in the form's order lists the form's
      pairs as its items. */
  lemma {:induction false} FormItems(q: Dict, o: string, oa: string, s: string, m: string,
                                     currency: string, lang: string, usDesc: string)
    requires q.keys == [O, Oa, S, M, Currency, Lang, Pay, UsDesc]
    requires q.Get(O) == Some(o) && q.Get(Oa) == Some(oa) && q.Get(S) == Some(s) && q.Get(M) == Some(m)
    requires q.Get(Currency) == Some(currency) && q.Get(Lang) == Some(lang) && q.Get(Pay) == Some("PAY")
    requires q.Get(UsDesc) == Some(usDesc)
    ensures q.Items() == [(Name(O), o), (Name(Oa), oa), (Name(S), s), (Name(M), m), (Name(Currency), currency), (Name(Lang), lang),
                          (Name(Pay), "PAY"), (Name(UsDesc), usDesc)]
  {
    var items := q.Items();
    assert items[0] == (Name(O), o) && items[1] == (Name(Oa), oa) && items[2] == (Name(S), s) && items[3] == (Name(M), m);
    assert items[4] == (Name(Currency), currency) && items[5] == (Name(Lang), lang);
    assert items[6] == (Name(Pay), "PAY") && items[7] == (Name(UsDesc), usDesc);
  }

  /** The pairs the form's query is encoded from, by name and in order. */
  lemma PaymentFormItems(api: FreeKassaApi, md5: Hasher, orderId: string, summ: string,
                         currency: string, description: string, language: string)
    ensures PaymentForm(api, md5, orderId, summ, currency, description, language).Items()
         == [(Name(O), orderId), (Name(Oa), summ), (Name(S), GenerateFormSignature(api, md5, summ, orderId, currency)),
             (Name(M), api.merchantId), (Name(Currency), currency), (Name(Lang), language), (Name(Pay), "PAY"),
             (Name(UsDesc), description)]
  {
    PaymentFormOrder(api, md5, orderId, summ, currency, description, language);
    FormItems(PaymentForm(api, md5, orderId, summ, currency, description, language),
              orderId, summ, GenerateFormSignature(api, md5, summ, orderId, currency), api.merchantId,
              currency, language, description);
  }

  /** `generate_payment_link(order_id, summ, currency='rub', description='', language='ru')`:
      the form base URL, `?`, and the url-encoded query. */
  function GeneratePaymentLink(api: FreeKassaApi, md5: Hasher, quote: Coder, orderId: string, summ: string,
                               currency: string := "rub", description: string := "", language: string := "ru"): (link: string)
    ensures |link| > |BaseFormUrl|
    ensures link[..|BaseFormUrl| + 1] == BaseFormUrl + "?"
  {
    BaseFormUrl + "?" + UrlEncode(PaymentForm(api, md5, orderId, summ, currency, description, language).Items(), quote)
  }

  /** Parsing the query of a payment link back gives exactly the pairs
      named o, oa, s, m, currency, lang, pay, us_desc, in that order, with
      `pay=PAY`, `m` the merchant id and `s` the form signature of
      (summ, order id, currency), provided the component encoder keeps
      `&` and `=` out and is undone by the decoder. */
  lemma {:induction false} PaymentLinkParsesBack(api: FreeKassaApi, md5: Hasher, quote: Coder, unquote: Coder,
                                                 orderId: string, summ: string, currency: string, description: string,
                                                 language: string)
    requires Structural(quote) && Inverts(unquote, quote)
    ensures var link := GeneratePaymentLink(api, md5, quote, orderId, summ, currency, description, language);
      ParseQuery(link[|BaseFormUrl| + 1..], unquote)
        == [(Name(O), orderId), (Name(Oa), summ), (Name(S), GenerateFormSignature(api, md5, summ, orderId, currency)),
            (Name(M), api.merchantId), (Name(Currency), currency), (Name(Lang), language), (Name(Pay), "PAY"),
            (Name(UsDesc), description)]
  {
    var items := PaymentForm(api, md5, orderId, summ, currency, description, language).Items();
    PaymentFormItems(api, md5, orderId, summ, currency, description, language);
    var link := GeneratePaymentLink(api, md5, quote, orderId, summ, currency, description, language);
    assert link[|BaseFormUrl| + 1..] == UrlEncode(items, quote);
    ParseUrlEncode(items, quote, unquote);
  }
}
