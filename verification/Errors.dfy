/**
 Errors as the operator tells them apart (stackit/errors.go and the sentinels of
 internal/controller/bucket_controller.go).

 An HTTP failure of the control plane carries its status code and whether the body was valid
 JSON: a gateway or WAF in front of the provider produces the same error type with an HTML page.
 */
module Errors {
  import opened Wrappers

  datatype Error =
    | Api(status: nat, structured: bool)   // an HTTP answer; structured means a valid JSON body
    | Transport                            // nothing on the provider side got to decide
    | DataPlane                            // the S3 endpoint failed
    | Kube                                 // the Kubernetes API failed
    | KubeNotFound                         // the object is not there
    | AlreadyOwned                         // a Secret controlled by another object
    | OwnershipCollision
    | BucketNotOwned
    | GroupNotAttributable
    | AttributionLagging
    | CredentialDestroyed(cause: Error)
    | BucketMissing
    | BucketNotEmpty
    | SpecFault
    | CloneFailed
    | ProviderHeld

  /** The status code of an HTTP answer wrapped anywhere in the error, or 0. */
  function StatusCode(e: Error): nat {
    match e
    case Api(status, _) => status
    case CredentialDestroyed(cause) => StatusCode(cause)
    case _ => 0
  }

  /** The provider's own answer: an HTTP error with a JSON body. */
  function ApiAnswer(e: Error): Option<nat> {
    match e
    case Api(status, structured) => if structured then Some(status) else None
    case CredentialDestroyed(cause) => ApiAnswer(cause)
    case _ => None
  }

  predicate ProviderRefused(e: Error) {
    ApiAnswer(e).Some? && ApiAnswer(e).value in {400, 401, 403}
  }

  predicate StructuredNotFound(e: Error) {
    ApiAnswer(e) == Some(404)
  }

  /** Gateway pages, transport failures and 5xx answers are never a statement about a resource or a key. */
  lemma OnlyAnswersDecide(e: Error)
    ensures ApiAnswer(e).None? || StatusCode(e) >= 500 || StatusCode(e) == 429 ==>
              !ProviderRefused(e) && !StructuredNotFound(e)
    ensures StructuredNotFound(e) ==> StatusCode(e) == 404
  {
    if e.CredentialDestroyed? {
      OnlyAnswersDecide(e.cause);
    }
  }
}
