/** The webhook callback processor: `IncomingService.ProcessDepositCallback`.

    JSON decoding is the partial function `unmarshal`. The goroutine that
    forwards the callback to the merchant is not run: scheduling it appends a
    `Forward` to the ghost sequence `pendingForwards`, and the processor returns
    at once, so its result cannot depend on how the forward turns out. */
module Incoming {
  import opened Common
  import opened Models
  import opened Tspay

  const MerchantUrl: string := "https://api.allpayhub.com/incoming/tspay_deposit_callback"

  /** A scheduled call of `CallMerchant(url, data)`. */
  datatype Forward = Forward(url: string, data: DepositCallback)

  datatype CallbackError = InvalidSignature | MalformedPayload(detail: string)

  function ErrorMessage(e: CallbackError): string {
    match e
    case InvalidSignature => "invalid signature"
    case MalformedPayload(detail) => "failed to unmarshal JSON: " + detail
  }

  /** What the processor decides for one request: an error, or one forward. */
  datatype Decision = Reject(error: CallbackError) | Schedule(forward: Forward)

  /** The specification of `ProcessDepositCallback`: verify with the deposit
      secret, then decode, then forward. */
  function Decide(svc: TspayService, body: string, signature: string, timestamp: string, now: int,
                  crypto: Crypto, unmarshal: string -> Result<DepositCallback, string>): (r: Decision)
    ensures r == Reject(InvalidSignature) <==> !VerifyWebhookSignature(svc, true, body, signature, timestamp, now, crypto)
    ensures r.Reject? && r.error.MalformedPayload? ==> unmarshal(body) == Failure(r.error.detail)
    ensures r.Schedule? ==> r.forward.url == MerchantUrl && unmarshal(body) == Success(r.forward.data)
    ensures r.Schedule? <==> VerifyWebhookSignature(svc, true, body, signature, timestamp, now, crypto) && unmarshal(body).Success?
  {
    if !VerifyWebhookSignature(svc, true, body, signature, timestamp, now, crypto) then Reject(InvalidSignature)
    else match unmarshal(body)
      case Failure(detail) => Reject(MalformedPayload(detail))
      case Success(data) => Schedule(Forward(MerchantUrl, data))
  }

  /** Only the deposit secret takes part: replacing the payout secret never
      changes the decision. */
  lemma OnlyDepositSecretUsed(svc: TspayService, other: string, body: string, signature: string, timestamp: string,
                              now: int, crypto: Crypto, unmarshal: string -> Result<DepositCallback, string>)
    ensures Decide(svc.(webhookSecretPayout := other), body, signature, timestamp, now, crypto, unmarshal)
         == Decide(svc, body, signature, timestamp, now, crypto, unmarshal)
  {
    SecretSelection(svc, other, body, signature, timestamp, now, crypto);
  }

  /** A request that fails verification is rejected before its body is decoded:
      the decision is the same whatever the decoder does. */
  lemma RejectedBeforeDecoding(svc: TspayService, body: string, signature: string, timestamp: string, now: int,
                               crypto: Crypto, u1: string -> Result<DepositCallback, string>,
                               u2: string -> Result<DepositCallback, string>)
    requires !VerifyWebhookSignature(svc, true, body, signature, timestamp, now, crypto)
    ensures Decide(svc, body, signature, timestamp, now, crypto, u1) == Reject(InvalidSignature)
    ensures Decide(svc, body, signature, timestamp, now, crypto, u2) == Reject(InvalidSignature)
  {
  }

  class IncomingService {
    const tspaySvc: TspayService
    /** Forwards scheduled and not yet observed; nothing waits for them. */
    ghost var pendingForwards: seq<Forward>

    constructor (tspaySvc: TspayService)
      ensures this.tspaySvc == tspaySvc && pendingForwards == []
    {
      this.tspaySvc := tspaySvc;
      pendingForwards := [];
    }

    /** Verifies (deposit secret), decodes and schedules exactly one forward to
        the merchant URL; on either failure nothing is scheduled. */
    method ProcessDepositCallback(body: string, signature: string, timestamp: string, now: int,
                                  crypto: Crypto, unmarshal: string -> Result<DepositCallback, string>)
      returns (err: Option<CallbackError>)
      modifies this
      ensures !VerifyWebhookSignature(tspaySvc, true, body, signature, timestamp, now, crypto) ==>
        err == Some(InvalidSignature) && pendingForwards == old(pendingForwards)
      ensures VerifyWebhookSignature(tspaySvc, true, body, signature, timestamp, now, crypto) && unmarshal(body).Failure? ==>
        err == Some(MalformedPayload(unmarshal(body).error)) && pendingForwards == old(pendingForwards)
      ensures VerifyWebhookSignature(tspaySvc, true, body, signature, timestamp, now, crypto) && unmarshal(body).Success? ==>
        err == None && pendingForwards == old(pendingForwards) + [Forward(MerchantUrl, unmarshal(body).value)]
      ensures err == (match Decide(tspaySvc, body, signature, timestamp, now, crypto, unmarshal)
                      case Reject(e) => Some(e)
                      case Schedule(_) => None)
      ensures err == Some(InvalidSignature) ==> ErrorMessage(err.value) == "invalid signature"
      ensures err.Some? && err.value.MalformedPayload? ==>
        ErrorMessage(err.value) == "failed to unmarshal JSON: " + unmarshal(body).error
    {
      if !VerifyWebhookSignature(tspaySvc, true, body, signature, timestamp, now, crypto) {
        return Some(InvalidSignature);
      }
      var decoded := unmarshal(body);
      if decoded.Failure? {
        return Some(MalformedPayload(decoded.error));
      }
      // go s.CallMerchant(url, data)
      pendingForwards := pendingForwards + [Forward(MerchantUrl, decoded.value)];
      err := None;
    }
  }
}
