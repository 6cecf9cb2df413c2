/**
 * Event reasons (internal/events/recorder.go). Only the reason tag of an
 * emitted event is modelled; the message text and severity are not.
 */
module Events {

  datatype EventReason =
    | SecretSyncSuccess
    | SecretSyncFailed     // declared by the recorder, never emitted by the controller
    | AnnotationInvalid
    | ProviderUnsupported
    | SecretFetchFailed
  {
    /** The reason string recorded on the Kubernetes event. */
    function Text(): string {
      match this
      case SecretSyncSuccess => "SecretSyncSuccess"
      case SecretSyncFailed => "SecretSyncFailed"
      case AnnotationInvalid => "AnnotationInvalid"
      case ProviderUnsupported => "ProviderUnsupported"
      case SecretFetchFailed => "SecretFetchFailed"
    }
  }

  /** Distinct reasons are recorded under distinct strings. */
  lemma ReasonTextsDistinct(a: EventReason, b: EventReason)
    ensures a.Text() == b.Text() <==> a == b
  {
  }
}
