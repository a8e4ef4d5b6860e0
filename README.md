# FreeKassa client: request signing and parameter assembly

This project models the part of the FreeKassa Python client (`freekassa/api.py`)
that decides what is sent: the four signing schemes, the parameter dict that
every operation builds, and the payment-form link. Everything is a pure
function over immutable credentials, as in the client, where the instance
fields are set once in the constructor and never changed.

- `Text` (`text.dfy`): Python's `sep.join(fields)` as `Join`, and its inverse
  `Split` for a one-character separator. Lemmas cover the separator count,
  the split-after-join round trip, injectivity, and the fact that a joined
  string binds each field at its position.
- `Params` (`params.dfy`): the closed set of parameter names (`Key`, with
  `Name` giving the name sent on the wire) and an insertion-ordered `Dict`.
  A Python dict display `{k1: v1, ...}` with distinct keys is written as
  `Empty().Add(k1, v1)...`. `Items()` lists the entries in insertion order.
- `Signing` (`signing.dfy`): the credentials (`FreeKassaApi`) and the
  pre-images of the four signatures:
  - `merchant_id ++ second_secret`;
  - `wallet_id ++ wallet_api_key`;
  - `__make_hash`, the fields joined by a separator;
  - the form signature `merchant_id:amount:first_secret:currency:order_id`.

  MD5 is a parameter `md5: string -> string` and is never interpreted, so
  every property concerns the pre-images and the parameter maps.
- `UrlEncoding` (`url_encoding.dfy`): the `&`/`=` structure of `urlencode`
  over ordered pairs. The per-component encoder `quote` is a parameter. A
  query parser gives a round trip whenever the encoder keeps `&` and `=`
  out of its output and a decoder undoes it.
- `Gateway` (`gateway.dfy`): the receiving side, used as the reference that
  the client is checked against. `SchemeOf` is the signing table, giving for
  each action which scheme applies and which keys are signed, in which
  order. `Authentic` and `FormAuthentic` recompute the signature from the
  values found in a request under those keys. A request passes only if what
  was signed is what was sent.
- `FreeKassa` (`freekassa.dfy`): one function per client operation, giving
  the request that would be handed to the transport (verb, URL,
  parameters). Beside most of them sit:
  - an `...Order` lemma that fixes the key order the client writes;
  - an `...Authentic` lemma saying the gateway accepts the request.

  The exceptions:
  - `GetWalletBalance` has neither lemma (see "## Left out").
  - `GetOnlineServices`, `CreateCryptoAddress` and `GetCryptoAddress` state their key order in their own contracts.
  - The two crypto-address builders share `CryptoAddressAuthentic`.
  - The nine fixed-action wrappers (`CreateBtcAddress` … `GetEthTransaction`) state acceptance in their own contracts.

  The payment-link builder comes with its parse-back round trip.

Argument values are the strings that are sent. The defaults are those in the
client's signatures, with integer defaults written as the strings they
become on the wire.

## Model

| member | source | states |
|---|---|---|
| Signing.FreeKassaApi | freekassa/api.py:13-19 | the credentials: merchant id, first and second secret, wallet id, and a wallet API key that defaults to the empty string; fixed at construction, as the client never reassigns them (the default is used by Signing.WalletPreimageDefaultKey and Signing.GenerateWalletSignature) |
| Text.Join | freekassa/api.py:441 | joining no fields gives the empty string; otherwise the length is the fields' total length plus one separator for each pair of neighbouring fields |
| Text.JoinSeparatorCount | freekassa/api.py:441 | n fields that do not contain `c`, joined by `c`, contain exactly n-1 occurrences of `c` for n ≥ 1, and none for no fields |
| Text.SplitJoin | freekassa/api.py:441 | splitting a joined non-empty list of `c`-free fields on `c` gives the same fields back, in order |
| Text.JoinInjective | freekassa/api.py:441 | two non-empty lists of `c`-free fields join to the same string exactly when the lists are equal (at zero fields `[]` and `[""]` both join to the empty string, so the lists must be non-empty) |
| Text.JoinBindsField | freekassa/api.py:441 | two lists that differ only at one position join to the same string exactly when the two fields there are equal, whatever they contain |
| Signing.GenerateApiSignature | freekassa/api.py:399-406 | the merchant signature is the digest of the merchant id followed directly by the second secret; partners: Signing.ApiPreimageBindsSecret (the pre-image determines the secret), Signing.ApiPreimageAmbiguous, FreeKassa.MerchantSignatureShared (one `s` for all merchant operations) |
| Signing.ApiPreimageBindsSecret | freekassa/api.py:404-406 | with the merchant id fixed, the merchant pre-image determines the second secret and is determined by it |
| Signing.ApiPreimageAmbiguous | freekassa/api.py:404-406 | with no separator, merchant "12" with secret "3x" and merchant "123" with secret "x" share one pre-image |
| Signing.ApiPreimageExample | freekassa/api.py:404-406 | merchant "1234" with second secret "secret2" signs "1234secret2" |
| Signing.GenerateWalletSignature | freekassa/api.py:408-415 | the wallet signature is the digest of the wallet id followed directly by the wallet API key, and of the wallet id alone under the default empty key; partners: Signing.WalletPreimageDefaultKey, FreeKassa.GetOnlineServicesAuthentic and FreeKassa.CryptoAddressAuthentic (the gateway accepts the requests it signs) |
| Signing.WalletPreimageDefaultKey | freekassa/api.py:413-415 | with the default empty wallet API key, the wallet pre-image is the wallet id alone |
| Signing.MakeHash | freekassa/api.py:432-442 | the digest of the fields joined by the separator, a single space unless given: no fields hash the empty string and one field hashes as itself; partners: Signing.MakeHashOneField, Text.JoinSeparatorCount and Text.SplitJoin (the pre-image gives its fields back), Signing.MakeHashPreimageFields |
| Signing.MakeHashOneField | freekassa/api.py:432-442 | a one-field list is hashed as the field itself, with no separator |
| Signing.MakeHashPreimageFields | freekassa/api.py:432-442 | for n ≥ 1 space-free fields, the default-separator pre-image contains n-1 spaces and splits back into the fields in the given order |
| Signing.GenerateFormSignature | freekassa/api.py:417-430 | the form signature is the digest of `merchant_id:amount:first_secret:currency:order_id`, in that order; partners: Signing.FormPreimageLayout (the pre-image splits back into those fields), Signing.FormPreimageOrderSensitive, FreeKassa.PaymentFormAuthentic (the gateway accepts the form) |
| Signing.FormPreimageLayout | freekassa/api.py:417-430 | the form pre-image is `merchant_id:amount:first_secret:currency:order_id` written out; when no field contains `:` it splits back into those five fields in that order |
| Signing.FormPreimageExample | freekassa/api.py:417-430 | merchant "1", first secret "fs", amount "100", currency "RUB" and order "42" sign "1:100:fs:RUB:42" |
| Signing.FormPreimageOrderSensitive | freekassa/api.py:417-430 | amount comes before order id: with colon-free fields, swapping the two changes the pre-image unless they are equal |
| Signing.CashoutPreimageExample | freekassa/api.py:146-161 | wallet "w1", key "k1", currency "USD", amount "10" and purse "P1" give the cashout pre-image "w1 USD 10 P1 k1" |
| Signing.WalletActionBindsField | freekassa/api.py:432-442 | a wallet-action pre-image binds each per-call field at its position: changing one field changes the pre-image |
| Signing.WalletActionFields | freekassa/api.py:432-442 | when the wallet id, the per-call fields and the key hold no space, the wallet-action pre-image splits back into the wallet id, the fields in order, and the key |
| UrlEncoding.Component | freekassa/api.py:397 | one pair's piece always holds an `=`; when the encoder keeps `&` and `=` out, it holds no `&` and its first `=` separates the encoded key from the encoded value; partner: UrlEncoding.ParseComponent |
| UrlEncoding.UrlEncode | freekassa/api.py:397 | the query is empty exactly when there are no pairs; for one or more pairs, when the encoder keeps `&` and `=` out, splitting it on `&` gives one piece per pair, in the pairs' order (no pairs give `""`, which splits into one empty piece); partner: UrlEncoding.ParseUrlEncode (the parser gives the pairs back) |
| UrlEncoding.ParseQuery | freekassa/api.py:397 | a query parses to no pairs exactly when it is empty |
| UrlEncoding.ParseComponent | freekassa/api.py:397 | one `quote(k)=quote(v)` piece parses back to `(k, v)` |
| UrlEncoding.ParseUrlEncode | freekassa/api.py:397 | an url-encoded list of pairs parses back to exactly those pairs, in the same order, when the encoder keeps `&` and `=` out and the decoder undoes it |
| FreeKassa.SendRequest | freekassa/api.py:21-34 | the parameters and verb are passed through unchanged; with no URL the request goes to `base_url`, otherwise to the URL given |
| FreeKassa.GetBalance | freekassa/api.py:36-47 | posted to `base_url`, with action `get_balance`, the merchant id, and `s` the digest of merchant id ++ second secret |
| FreeKassa.GetBalanceOrder | freekassa/api.py:41-45 | the keys are `merchant_id, s, action`, in that order |
| FreeKassa.GetBalanceAuthentic | freekassa/api.py:41-45 | the gateway accepts the request |
| FreeKassa.GetOrder | freekassa/api.py:49-61 | posted to `base_url`, with action `check_order_status`, the merchant id, the merchant `s`, and `order_id` and `intid` as given (both empty by default) |
| FreeKassa.GetOrderOrder | freekassa/api.py:53-59 | the keys are `merchant_id, s, action, order_id, intid`, in that order |
| FreeKassa.GetOrderAuthentic | freekassa/api.py:53-59 | the gateway accepts the request |
| FreeKassa.ExportOrder | freekassa/api.py:63-84 | posted to `base_url`, with action `get_orders`, the merchant id, the merchant `s`, and the dates, status, limit (default 0) and offset (default 100) as given |
| FreeKassa.ExportOrderOrder | freekassa/api.py:73-82 | the keys are `merchant_id, s, action, date_from, date_to, status, limit, offset`, in that order |
| FreeKassa.ExportOrderAuthentic | freekassa/api.py:73-82 | the gateway accepts the request |
| FreeKassa.Withdraw | freekassa/api.py:86-101 | posted to `base_url`, with action `payment`, the merchant id, the merchant `s`, and amount and currency as given |
| FreeKassa.WithdrawOrder | freekassa/api.py:93-99 | the keys are `merchant_id, currency, amount, s, action`, in that order |
| FreeKassa.WithdrawAuthentic | freekassa/api.py:93-99 | the gateway accepts the request |
| FreeKassa.Invoice | freekassa/api.py:103-120 | posted to `base_url`, with action `create_bill`, the merchant id, the merchant `s`, and email, amount and `desc` as given |
| FreeKassa.InvoiceOrder | freekassa/api.py:111-118 | the keys are `merchant_id, email, amount, desc, s, action`, in that order |
| FreeKassa.InvoiceAuthentic | freekassa/api.py:111-118 | the gateway accepts the request |
| FreeKassa.MerchantSignatureShared | freekassa/api.py:399-406 | all five merchant operations carry the same `s`, whatever their other arguments |
| FreeKassa.GetWalletBalance | freekassa/api.py:122-133 | posted to the wallet API, with keys `wallet_id, sign` in that order, and `sign` the digest of wallet id ++ wallet API key |
| FreeKassa.WalletWithdraw | freekassa/api.py:135-163 | posted to the wallet API, with action `cashout`, the wallet id, and purse, amount, currency, `desc` and `disable_exchange` (default 1) as given |
| FreeKassa.WalletWithdrawOrder | freekassa/api.py:146-161 | the keys are `wallet_id, purse, amount, desc, disable_exchange, currency, action, sign`, in that order |
| FreeKassa.WalletWithdrawAuthentic | freekassa/api.py:146-161 | `sign` is the digest of wallet id, currency, amount, purse and key joined by spaces, and the gateway, which re-reads those values from the request, accepts it |
| FreeKassa.WalletWithdrawUnsignedFields | freekassa/api.py:146-161 | `desc` and `disable_exchange` are not signed: changing them leaves `sign` as it was |
| FreeKassa.WalletWithdrawSignBindsFields | freekassa/api.py:146-161 | with a collision-free hash and space-free values, two cashouts carry the same `sign` exactly when they agree on purse, amount and currency |
| FreeKassa.GetOperationStatus | freekassa/api.py:165-182 | posted to the wallet API, with action `get_payment_status`, the wallet id, and the payment id as given |
| FreeKassa.GetOperationStatusOrder | freekassa/api.py:171-180 | the keys are `wallet_id, payment_id, sign, action`, in that order |
| FreeKassa.GetOperationStatusAuthentic | freekassa/api.py:171-180 | `sign` is the digest of wallet id, payment id and key joined by spaces, and the gateway accepts the request |
| FreeKassa.TransferMoney | freekassa/api.py:184-204 | posted to the wallet API, with action `transfer`, the wallet id, and purse and amount as given |
| FreeKassa.TransferMoneyOrder | freekassa/api.py:191-202 | the keys are `wallet_id, purse, amount, sign, action`, in that order |
| FreeKassa.TransferMoneyAuthentic | freekassa/api.py:191-202 | `sign` is the digest of wallet id, purse, amount and key joined by spaces, and the gateway accepts the request |
| FreeKassa.TransferMoneyOrderSensitive | freekassa/api.py:191-202 | purse is signed before amount: with space-free values, swapping them changes the pre-image unless they are equal |
| FreeKassa.OnlinePayments | freekassa/api.py:206-228 | posted to the wallet API, with action `online_payment`, the wallet id, and service id, account and amount as given |
| FreeKassa.OnlinePaymentsOrder | freekassa/api.py:214-226 | the keys are `wallet_id, service_id, account, amount, sign, action`, in that order |
| FreeKassa.OnlinePaymentsAuthentic | freekassa/api.py:214-226 | `sign` is the digest of wallet id, amount, account and key joined by spaces (amount before account, unlike the sending order), and the gateway accepts the request |
| FreeKassa.OnlinePaymentsUnsignedServiceId | freekassa/api.py:214-226 | `service_id` is not signed: changing it leaves `sign` as it was |
| FreeKassa.GetOnlineServices | freekassa/api.py:230-241 | posted to the wallet API, with keys `wallet_id, sign, action` in that order, action `providers`, and the wallet signature |
| FreeKassa.GetOnlineServicesAuthentic | freekassa/api.py:235-239 | the gateway accepts the request |
| FreeKassa.GetOnlinePaymentStatus | freekassa/api.py:243-260 | posted to the wallet API, with action `check_online_payment`, the wallet id, and the payment id as given |
| FreeKassa.GetOnlinePaymentStatusOrder | freekassa/api.py:249-258 | the keys are `wallet_id, payment_id, sign, action`, in that order |
| FreeKassa.GetOnlinePaymentStatusAuthentic | freekassa/api.py:249-258 | `sign` is the digest of wallet id, payment id and key joined by spaces, and the gateway accepts the request |
| FreeKassa.CreateCryptoAddress | freekassa/api.py:283-295 | posted to the wallet API, with keys `wallet_id, sign, action` in that order, the action argument unchanged, and the wallet signature |
| FreeKassa.GetCryptoAddress | freekassa/api.py:318-330 | the same request shape as `create_crypto_address`, with the action argument unchanged |
| FreeKassa.CryptoAddressAuthentic | freekassa/api.py:283-330 | the gateway accepts a crypto-address request exactly when its action is one the gateway signs by wallet identity |
| FreeKassa.CreateBtcAddress | freekassa/api.py:262-267 | a wallet-API request carrying the wallet id and the wallet signature, with action `create_btc_address`, which the gateway accepts |
| FreeKassa.CreateLtcAddress | freekassa/api.py:269-274 | a wallet-API request carrying the wallet id and the wallet signature, with action `create_ltc_address`, which the gateway accepts |
| FreeKassa.CreateEthAddress | freekassa/api.py:276-281 | a wallet-API request carrying the wallet id and the wallet signature, with action `create_eth_address`, which the gateway accepts |
| FreeKassa.GetBtcAddress | freekassa/api.py:297-302 | a wallet-API request carrying the wallet id and the wallet signature, with action `get_btc_address`, which the gateway accepts |
| FreeKassa.GetLtcAddress | freekassa/api.py:304-309 | a wallet-API request carrying the wallet id and the wallet signature, with action `get_ltc_address`, which the gateway accepts |
| FreeKassa.GetEthAddress | freekassa/api.py:311-316 | a wallet-API request carrying the wallet id and the wallet signature, with action `get_eth_address`, which the gateway accepts |
| FreeKassa.GetTransaction | freekassa/api.py:356-374 | posted to the wallet API, with the wallet id, the transaction id, and the action argument unchanged |
| FreeKassa.GetTransactionOrder | freekassa/api.py:363-372 | the keys are `wallet_id, transaction_id, sign, action`, in that order |
| FreeKassa.GetTransactionAuthentic | freekassa/api.py:363-372 | `sign` is the digest of wallet id, transaction id and key joined by spaces; the gateway accepts the request whenever its action is one signed over the transaction id |
| FreeKassa.GetBtcTransaction | freekassa/api.py:332-338 | a wallet-API request carrying the wallet id and the transaction id as given, with action `get_btc_transaction`, which the gateway accepts |
| FreeKassa.GetLtcTransaction | freekassa/api.py:340-346 | a wallet-API request carrying the wallet id and the transaction id as given, with action `get_ltc_transaction`, which the gateway accepts |
| FreeKassa.GetEthTransaction | freekassa/api.py:348-354 | a wallet-API request carrying the wallet id and the transaction id as given, with action `get_eth_transaction`, which the gateway accepts |
| FreeKassa.PaymentForm | freekassa/api.py:386-395 | the form holds `o` = order id, `oa` = summ, `m` = merchant id, `pay` = "PAY", and currency, lang and `us_desc` as given; `s` is the digest of the form pre-image of (summ, order id, currency) |
| FreeKassa.PaymentFormOrder | freekassa/api.py:386-395 | the form's keys are `o, oa, s, m, currency, lang, pay, us_desc`, in that order |
| FreeKassa.PaymentFormAuthentic | freekassa/api.py:386-395 | the gateway accepts the form: its `s` is the digest of `m:oa:first_secret:currency:o` computed from the form's own values |
| FreeKassa.PaymentFormDefaults | freekassa/api.py:376-377 | by default the currency is "rub", the language "ru" and the description empty |
| FreeKassa.PaymentFormItems | freekassa/api.py:386-397 | the pairs that get url-encoded are o, oa, s, m, currency, lang, pay, us_desc with their values, in that order |
| FreeKassa.GeneratePaymentLink | freekassa/api.py:376-397 | the link is longer than `base_form_url` and starts with `base_form_url` followed by `?` |
| FreeKassa.PaymentLinkParsesBack | freekassa/api.py:376-397 | when the encoder keeps `&` and `=` out and the decoder undoes it, parsing the link's query gives exactly the eight pairs o, oa, s, m, currency, lang, pay, us_desc with their values, in that order |

## Left out

- The transport behind `send_request` is not modelled: the aiohttp session, async execution, `raise_for_status`, ujson serialisation, and the `session.__dict__[method]` dispatch. `SendRequest` only records the verb, the URL and the parameters it would pass on.
- MD5 and the UTF-8 encoding in front of it are an uninterpreted parameter. The 32-hex-digit output is not modelled.
- The percent-encoding inside `urlencode` is a parameter `quote`. Only the `&`/`=` structure and the pair order come from the client.
- FreeKassa.GetWalletBalance: the `action` entry is left out. Its value is the awaited network reply of the merchant `get_balance` call, which the model cannot produce, so no gateway-acceptance lemma is stated for this operation.
- Python's dynamic typing is not modelled. Every argument and credential is a string. None of the following can happen in the model:
  - the wallet signature's `+` adds two numbers (wallet id 1 with key 2 sign `"3"`, not `"12"`); it also concatenates two bytes values, which the `str()` around it shows as `"b'...'"`; it raises `TypeError` on mixed types;
  - `sep.join` raises `TypeError` on any field that is not a string;
  - the `str()` conversions in the merchant, wallet and form signatures turn a non-string value into its text form. On the strings of the model they are the identity, so the model leaves them out.
- The integer defaults `limit=0`, `offset=100` and `disable_exchange=1` are modelled as the strings "0", "100" and "1".
- `base_export_order_url` is declared but never used: `export_order` posts to `base_url`, and the model does the same.
- FreeKassa.WalletWithdrawSignBindsFields: it holds under the assumption `CollisionFree(md5)`, which no real hash satisfies. It therefore states what the signature binds at the level of pre-images, not a security guarantee.
- FreeKassa.GetTransactionAuthentic: it states acceptance in one direction only. An action outside the transaction table could still be accepted if its digest happened to coincide, which the uninterpreted hash does not rule out.
- The gateway's signing table (`Gateway.SchemeOf`) is taken from the fields each operation signs. The gateway's own code is not part of this model.
