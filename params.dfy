/** The request parameters: the closed set of parameter names the client
    sends, and Python's insertion-ordered `dict` holding them. A dict display
    `{k1: v1, k2: v2}` with distinct keys is `Empty()` followed by one `Add`
    per entry, in the order written. */
module Params {

  datatype Option<T> = None | Some(value: T)

  /** Every parameter name that occurs in a request or a payment form. */
  datatype Key =
    | MerchantId | S | Action | OrderId | IntId | DateFrom | DateTo | Status | Limit | Offset
    | Currency | Amount | Email | Desc
    | WalletId | Sign | Purse | DisableExchange | PaymentId | ServiceId | Account | TransactionId
    | O | Oa | M | Lang | Pay | UsDesc

  /** The name under which a parameter is sent. */
  function Name(k: Key): string
  {
    match k
    case MerchantId => "merchant_id"
    case S => "s"
    case Action => "action"
    case OrderId => "order_id"
    case IntId => "intid"
    case DateFrom => "date_from"
    case DateTo => "date_to"
    case Status => "status"
    case Limit => "limit"
    case Offset => "offset"
    case Currency => "currency"
    case Amount => "amount"
    case Email => "email"
    case Desc => "desc"
    case WalletId => "wallet_id"
    case Sign => "sign"
    case Purse => "purse"
    case DisableExchange => "disable_exchange"
    case PaymentId => "payment_id"
    case ServiceId => "service_id"
    case Account => "account"
    case TransactionId => "transaction_id"
    case O => "o"
    case Oa => "oa"
    case M => "m"
    case Lang => "lang"
    case Pay => "pay"
    case UsDesc => "us_desc"
  }

  /** The keys in insertion order, and the value of each. */
  datatype Dict = Dict(keys: seq<Key>, values: map<Key, string>)
  {
    /** The entry `k: v` of a display, for a key not yet present: the key
        goes last. */
    function Add(k: Key, v: string): Dict
      requires k !in values
    {
      Dict(keys + [k], values[k := v])
    }

    /** `d.get(k)`. */
    function Get(k: Key): Option<string>
    {
      if k in values then Some(values[k]) else None
    }

    /** `d.items()`, with the keys by name: the entries in insertion order. */
    function Items(): (items: seq<(string, string)>)
      ensures |items| == |keys|
      ensures forall i :: 0 <= i < |keys| ==> items[i].0 == Name(keys[i])
      ensures forall i :: 0 <= i < |keys| && keys[i] in values ==> Get(keys[i]) == Some(items[i].1)
    {
      seq(|keys|, i requires 0 <= i < |keys| => (Name(keys[i]), if keys[i] in values then values[keys[i]] else ""))
    }
  }

  /** `{}`. */
  function Empty(): (d: Dict)
    ensures d.keys == []
    ensures forall k :: d.Get(k) == None
  {
    Dict([], map[])
  }
}
