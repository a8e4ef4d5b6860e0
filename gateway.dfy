/** The receiving side of the signing contract, stated once as a table: for
    each `action` the gateway knows, which signing scheme applies and which
    request keys are signed, in which order. `Authentic` recomputes the
    signature from the values found in the request under those keys, so a
    request passes only if what was signed is what was sent. */
module Gateway {
  import opened Text
  import opened Params
  import opened Signing

  /** How a request for an action is signed. */
  datatype Scheme =
    | MerchantScheme                       // `s` over merchant id ++ second secret
    | WalletIdentityScheme                 // `sign` over wallet id ++ wallet API key
    | WalletFieldsScheme(signed: seq<Key>)  // `sign` over wallet id, the signed keys' values, key

  /** The signing table, by action name. */
  function SchemeOf(action: string): Option<Scheme>
  {
    if action in {"get_balance", "check_order_status", "get_orders", "payment", "create_bill"} then
      Some(MerchantScheme)
    else if action in {"providers",
                       "create_btc_address", "create_ltc_address", "create_eth_address",
                       "get_btc_address", "get_ltc_address", "get_eth_address"} then
      Some(WalletIdentityScheme)
    else if action == "cashout" then Some(WalletFieldsScheme([Currency, Amount, Purse]))
    else if action == "transfer" then Some(WalletFieldsScheme([Purse, Amount]))
    else if action == "online_payment" then Some(WalletFieldsScheme([Amount, Account]))
    else if action in {"get_payment_status", "check_online_payment"} then
      Some(WalletFieldsScheme([PaymentId]))
    else if action in {"get_btc_transaction", "get_ltc_transaction", "get_eth_transaction"} then
      Some(WalletFieldsScheme([TransactionId]))
    else None
  }

  /** The values a request holds under the given keys, in the keys' order,
      if it holds all of them. */
  function ValuesOf(p: Dict, ks: seq<Key>): (vs: Option<seq<string>>)
    ensures vs.Some? <==> forall i :: 0 <= i < |ks| ==> p.Get(ks[i]).Some?
    ensures vs.Some? ==> |vs.value| == |ks|
    ensures vs.Some? ==> forall i :: 0 <= i < |ks| ==> p.Get(ks[i]) == Some(vs.value[i])
  {
    if |ks| == 0 then Some([])
    else
      match (p.Get(ks[0]), ValuesOf(p, ks[1..]))
      case (Some(v), Some(vs)) => Some([v] + vs)
      case _ => None
  }

  /** The API request `p` carries an action the gateway knows, the
      identifier of these credentials and the signature the gateway computes
      for that action from the values in `p`. */
  predicate Authentic(api: FreeKassaApi, md5: Hasher, p: Dict)
  {
    match p.Get(Action)
    case None => false
    case Some(action) =>
      match SchemeOf(action)
      case None => false
      case Some(MerchantScheme) =>
        && p.Get(MerchantId) == Some(api.merchantId)
        && p.Get(S) == Some(md5(api.merchantId + api.secondSecret))
      case Some(WalletIdentityScheme) =>
        && p.Get(WalletId) == Some(api.walletId)
        && p.Get(Sign) == Some(md5(api.walletId + api.walletApiKey))
      case Some(WalletFieldsScheme(signed)) =>
        && p.Get(WalletId) == Some(api.walletId)
        && ValuesOf(p, signed).Some?
        && p.Get(Sign) == Some(md5(Join([api.walletId] + ValuesOf(p, signed).value + [api.walletApiKey], " ")))
  }

  /** The payment-form query `q` carries the constant `pay=PAY`, the
      merchant id of these credentials, and an `s` equal to the digest of
      `m:oa:first_secret:currency:o` read from `q` itself. */
  predicate FormAuthentic(api: FreeKassaApi, md5: Hasher, q: Dict)
  {
    && q.Get(Pay) == Some("PAY")
    && q.Get(M) == Some(api.merchantId)
    && ValuesOf(q, [Oa, Currency, O]).Some?
    && var vs := ValuesOf(q, [Oa, Currency, O]).value;
       q.Get(S) == Some(md5(Join([api.merchantId, vs[0], api.firstSecret, vs[1], vs[2]], ":")))
  }
}
