/** The Razorpay helpers (backend/config/razorpay.js): rupee/paise conversion, the webhook signature
    check and the receipt id. HMAC-SHA256 is a parameter `hmac(key, text)` returning the hex digest. */
module Razorpay {
  import opened Common

  /** `formatAmount`: rupees to paise, `Math.round(amount * 100)`. */
  function FormatAmount(amount: real): (paise: int)
    ensures amount * 100.0 - 1.0 / 2.0 < paise as real <= amount * 100.0 + 1.0 / 2.0
  {
    Round(amount * 100.0)
  }

  /** `parseAmount`: paise to rupees, `amount / 100`. */
  function ParseAmount(paise: real): (amount: real)
    ensures amount * 100.0 == paise
  {
    paise / 100.0
  }

  /** A whole number of paise: the amounts the gateway can represent. */
  predicate WholePaise(amount: real)
  {
    (amount * 100.0).Floor as real == amount * 100.0
  }

  /** Converting a whole-paise amount to paise and back gives it back. */
  lemma ParseFormat(amount: real)
    requires WholePaise(amount)
    ensures ParseAmount(FormatAmount(amount) as real) == amount
  {
    var p := FormatAmount(amount);
    assert amount * 100.0 - 1.0 / 2.0 < p as real <= amount * 100.0 + 1.0 / 2.0;
    assert p == (amount * 100.0).Floor;
  }

  /** Converting any integer number of paise to rupees and back gives it back. */
  lemma FormatParse(paise: int)
    ensures FormatAmount(ParseAmount(paise as real)) == paise
  {
    var a := ParseAmount(paise as real);
    assert a * 100.0 == paise as real;
  }

  /** The conversion charges the nearest whole number of paise, halves rounded up. */
  lemma FormatAmountNearest(amount: real, paise: int)
    requires paise as real - 1.0 / 2.0 <= amount * 100.0 < paise as real + 1.0 / 2.0
    ensures FormatAmount(amount) == paise
  {
    var p := FormatAmount(amount);
    assert amount * 100.0 - 1.0 / 2.0 < p as real <= amount * 100.0 + 1.0 / 2.0;
  }

  /** `verifyWebhookSignature`: the hex HMAC of the body under the webhook secret equals the header. */
  predicate VerifyWebhookSignature(hmac: (string, string) -> string, secret: string, body: string, signature: string)
  {
    hmac(secret, body) == signature
  }

  /** For a given body exactly one signature is accepted. */
  lemma WebhookSignatureUnique(hmac: (string, string) -> string, secret: string, body: string, s1: string, s2: string)
    requires VerifyWebhookSignature(hmac, secret, body, s1)
    requires VerifyWebhookSignature(hmac, secret, body, s2)
    ensures s1 == s2
  {
  }

  const ReceiptPrefix: string := "order_"

  /** `generateRazorpayOrderId`: `order_<orderId>_<Date.now()>`; the amount is not used. */
  function GenerateRazorpayOrderId(orderId: string, amount: real, now: int): (receipt: string)
    ensures |receipt| > |ReceiptPrefix| + |orderId| && receipt[..|ReceiptPrefix|] == ReceiptPrefix
    ensures receipt[|ReceiptPrefix|..|ReceiptPrefix| + |orderId|] == orderId
    ensures receipt[|ReceiptPrefix| + |orderId|] == '_'
    ensures receipt[|ReceiptPrefix| + |orderId| + 1..] == IntToString(now)
  {
    ReceiptPrefix + orderId + "_" + IntToString(now)
  }

  /** The receipt depends on the order id and the clock only, and at a given instant it tells the
      order ids apart. */
  lemma ReceiptIdentifiesOrder(a: string, b: string, x: real, y: real, now: int)
    ensures GenerateRazorpayOrderId(a, x, now) == GenerateRazorpayOrderId(a, y, now)
    ensures GenerateRazorpayOrderId(a, x, now) == GenerateRazorpayOrderId(b, y, now) ==> a == b
  {
    var ra, rb := GenerateRazorpayOrderId(a, x, now), GenerateRazorpayOrderId(b, y, now);
    if ra == rb {
      assert |ra| == |ReceiptPrefix| + |a| + 1 + |IntToString(now)|;
      assert |rb| == |ReceiptPrefix| + |b| + 1 + |IntToString(now)|;
      assert |a| == |b|;
      assert a == ra[|ReceiptPrefix|..|ReceiptPrefix| + |a|];
      assert b == rb[|ReceiptPrefix|..|ReceiptPrefix| + |b|];
    }
  }
}
