/** The client's credentials and its four signing schemes.

    Every signature is the MD5 hex digest of a pre-image string. MD5 (with
    the UTF-8 encoding in front of it) is a parameter `md5`, never
    interpreted: the properties below are about the pre-images, and about
    which values go into them in which order. */
module Signing {
  import opened Text

  /** `hashlib.md5(s.encode('utf-8')).hexdigest()`. */
  type Hasher = string -> string

  /** The credentials fixed at construction and never changed afterwards;
      the wallet API key defaults to the empty string. */
  datatype FreeKassaApi = FreeKassaApi(
    merchantId: string,
    firstSecret: string,
    secondSecret: string,
    walletId: string,
    walletApiKey: string := "")

  /** The pre-image of the merchant API signature: the merchant id followed
      directly by the second secret. */
  function ApiPreimage(api: FreeKassaApi): string
  {
    api.merchantId + api.secondSecret
  }

  /** `generate_api_signature`: the digest of the merchant id followed
      directly by the second secret. */
  function GenerateApiSignature(api: FreeKassaApi, md5: Hasher): (sig: string)
    ensures sig == md5(api.merchantId + api.secondSecret)
  {
    md5(ApiPreimage(api))
  }

  /** The pre-image of the wallet signature: the wallet id followed directly
      by the wallet API key. */
  function WalletPreimage(api: FreeKassaApi): string
  {
    api.walletId + api.walletApiKey
  }

  /** `generate_wallet_signature`: the digest of the wallet id followed
      directly by the wallet API key; with the default empty key, the digest
      of the wallet id alone. */
  function GenerateWalletSignature(api: FreeKassaApi, md5: Hasher): (sig: string)
    ensures sig == md5(api.walletId + api.walletApiKey)
    ensures api.walletApiKey == "" ==> sig == md5(api.walletId)
  {
    WalletPreimageDefaultKey(api.merchantId, api.firstSecret, api.secondSecret, api.walletId);
    md5(WalletPreimage(api))
  }

  /** `__make_hash(params, sep)`: the digest of the fields joined by `sep`,
      a single space unless given. No fields hash the empty string and one
      field hashes as itself. */
  function MakeHash(md5: Hasher, fields: seq<string>, sep: string := " "): (h: string)
    ensures |fields| == 0 ==> h == md5("")
    ensures |fields| == 1 ==> h == md5(fields[0])
  {
    md5(Join(fields, sep))
  }

  /** The fields of the form signature, in signing order. */
  function FormFields(api: FreeKassaApi, amount: string, orderId: string, currency: string): (fields: seq<string>)
  {
    [api.merchantId, amount, api.firstSecret, currency, orderId]
  }

  /** The pre-image of the form signature: the form fields joined by `:`. */
  function FormPreimage(api: FreeKassaApi, amount: string, orderId: string, currency: string): string
  {
    Join(FormFields(api, amount, orderId, currency), ":")
  }

  /** `generate_form_signature(amount, order_id, currency)`: the digest of
      `merchant_id:amount:first_secret:currency:order_id`. */
  function GenerateFormSignature(api: FreeKassaApi, md5: Hasher, amount: string, orderId: string, currency: string): (sig: string)
    ensures sig == md5(api.merchantId + ":" + amount + ":" + api.firstSecret + ":" + currency + ":" + orderId)
  {
    JoinFive(api.merchantId, amount, api.firstSecret, currency, orderId, ":");
    MakeHash(md5, FormFields(api, amount, orderId, currency), ":")
  }

  /** The wallet-action pre-image of a list of per-call fields: the wallet
      id, the fields, the wallet API key, joined by single spaces. */
  function WalletActionPreimage(api: FreeKassaApi, fields: seq<string>): string
  {
    Join([api.walletId] + fields + [api.walletApiKey], " ")
  }

  /** `Join` of three, four and five fields, written out with its separators. */
  lemma {:induction false} JoinThree(a: string, b: string, c: string, sep: string)
    ensures Join([a, b, c], sep) == a + sep + b + sep + c
  {
    assert [a, b, c][1..] == [b, c];
    assert [b, c][1..] == [c];
    assert Join([c], sep) == c;
    assert Join([b, c], sep) == b + sep + c;
  }

  lemma {:induction false} JoinFour(a: string, b: string, c: string, d: string, sep: string)
    ensures Join([a, b, c, d], sep) == a + sep + b + sep + c + sep + d
  {
    assert [a, b, c, d][1..] == [b, c, d];
    JoinThree(b, c, d, sep);
  }

  lemma {:induction false} JoinFive(a: string, b: string, c: string, d: string, e: string, sep: string)
    ensures Join([a, b, c, d, e], sep) == a + sep + b + sep + c + sep + d + sep + e
  {
    assert [a, b, c, d, e][1..] == [b, c, d, e];
    JoinFour(b, c, d, e, sep);
  }

  /** The merchant API pre-image has no separator: given the merchant id,
      it determines the second secret. */
  lemma ApiPreimageBindsSecret(a: FreeKassaApi, b: FreeKassaApi)
    requires a.merchantId == b.merchantId
    ensures ApiPreimage(a) == ApiPreimage(b) <==> a.secondSecret == b.secondSecret
  {
    if ApiPreimage(a) == ApiPreimage(b) {
      assert a.secondSecret == ApiPreimage(a)[|a.merchantId|..];
      assert b.secondSecret == ApiPreimage(b)[|b.merchantId|..];
    }
  }

  /** Because nothing separates the two parts, different (merchant id,
      second secret) pairs can share one pre-image, and so one signature. */
  lemma ApiPreimageAmbiguous(firstSecret: string, walletId: string)
    ensures ApiPreimage(FreeKassaApi("12", firstSecret, "3x", walletId))
         == ApiPreimage(FreeKassaApi("123", firstSecret, "x", walletId))
  {
  }

  /** The concrete case: merchant "1234" with second secret "secret2" signs "1234secret2". */
  lemma ApiPreimageExample(firstSecret: string, walletId: string, walletApiKey: string)
    ensures ApiPreimage(FreeKassaApi("1234", firstSecret, "secret2", walletId, walletApiKey)) == "1234secret2"
  {
  }

  /** With the default (empty) wallet API key the wallet pre-image is the wallet id alone. */
  lemma WalletPreimageDefaultKey(merchantId: string, firstSecret: string, secondSecret: string, walletId: string)
    ensures WalletPreimage(FreeKassaApi(merchantId, firstSecret, secondSecret, walletId)) == walletId
  {
    assert walletId + "" == walletId;
  }

  /** A single field is hashed as it is, with no separator. */
  lemma MakeHashOneField(md5: Hasher, field: string, sep: string)
    ensures MakeHash(md5, [field], sep) == md5(field)
  {
    assert [field][1..] == [];
  }

  /** The `__make_hash` pre-image of n fields with the default separator
      holds n - 1 spaces when the fields hold none, and splitting it on the
      space gives the fields back in the order given. */
  lemma MakeHashPreimageFields(fields: seq<string>)
    requires |fields| >= 1
    requires FreeOf(fields, ' ')
    ensures Count(Join(fields, " "), ' ') == |fields| - 1
    ensures Split(Join(fields, " "), ' ') == fields
  {
    JoinSeparatorCount(fields, ' ');
    SplitJoin(fields, ' ');
  }

  /** The form pre-image is `merchant_id:amount:first_secret:currency:order_id`:
      written out, and, when no field holds `:`, read back field by field. */
  lemma FormPreimageLayout(api: FreeKassaApi, amount: string, orderId: string, currency: string)
    ensures FormPreimage(api, amount, orderId, currency)
         == api.merchantId + ":" + amount + ":" + api.firstSecret + ":" + currency + ":" + orderId
    ensures FreeOf(FormFields(api, amount, orderId, currency), ':') ==>
      Split(FormPreimage(api, amount, orderId, currency), ':')
        == [api.merchantId, amount, api.firstSecret, currency, orderId]
  {
    JoinFive(api.merchantId, amount, api.firstSecret, currency, orderId, ":");
    if FreeOf(FormFields(api, amount, orderId, currency), ':') {
      SplitJoin(FormFields(api, amount, orderId, currency), ':');
    }
  }

  /** The concrete case: merchant "1", first secret "fs", amount "100",
      currency "RUB", order "42" sign "1:100:fs:RUB:42". */
  lemma FormPreimageExample(secondSecret: string, walletId: string, walletApiKey: string)
    ensures FormPreimage(FreeKassaApi("1", "fs", secondSecret, walletId, walletApiKey), "100", "42", "RUB")
         == "1:100:fs:RUB:42"
  {
    FormPreimageLayout(FreeKassaApi("1", "fs", secondSecret, walletId, walletApiKey), "100", "42", "RUB");
  }

  /** The amount is signed second and the order id last, so exchanging two
      different colon-free values between them changes the pre-image. */
  lemma FormPreimageOrderSensitive(api: FreeKassaApi, amount: string, orderId: string, currency: string)
    requires FreeOf(FormFields(api, amount, orderId, currency), ':')
    ensures FormPreimage(api, amount, orderId, currency) == FormPreimage(api, orderId, amount, currency)
        <==> amount == orderId
  {
    var fields := FormFields(api, amount, orderId, currency);
    assert ':' !in fields[0] && ':' !in fields[1] && ':' !in fields[2] && ':' !in fields[3] && ':' !in fields[4];
    JoinInjective(fields, FormFields(api, orderId, amount, currency), ':');
  }

  /** The concrete cashout case: wallet "w1", key "k1", currency "USD",
      amount "10", purse "P1" sign "w1 USD 10 P1 k1". */
  lemma CashoutPreimageExample(merchantId: string, firstSecret: string, secondSecret: string)
    ensures WalletActionPreimage(FreeKassaApi(merchantId, firstSecret, secondSecret, "w1", "k1"), ["USD", "10", "P1"])
         == "w1 USD 10 P1 k1"
  {
    assert ["w1"] + ["USD", "10", "P1"] + ["k1"] == ["w1", "USD", "10", "P1", "k1"];
    JoinFive("w1", "USD", "10", "P1", "k1", " ");
  }

  /** A wallet-action pre-image binds each per-call field at its position,
      whatever the field holds. */
  lemma WalletActionBindsField(api: FreeKassaApi, before: seq<string>, x: string, y: string, after: seq<string>)
    ensures WalletActionPreimage(api, before + [x] + after) == WalletActionPreimage(api, before + [y] + after)
        <==> x == y
  {
    var a, b := [api.walletId] + before, after + [api.walletApiKey];
    assert [api.walletId] + (before + [x] + after) + [api.walletApiKey] == a + [x] + b;
    assert [api.walletId] + (before + [y] + after) + [api.walletApiKey] == a + [y] + b;
    JoinBindsField(a, x, y, b, " ");
  }

  /** Space-free per-call fields are read back from a wallet-action
      pre-image in order, between the wallet id and the key. */
  lemma WalletActionFields(api: FreeKassaApi, fields: seq<string>)
    requires FreeOf([api.walletId] + fields + [api.walletApiKey], ' ')
    ensures Split(WalletActionPreimage(api, fields), ' ') == [api.walletId] + fields + [api.walletApiKey]
  {
    SplitJoin([api.walletId] + fields + [api.walletApiKey], ' ');
  }
}
