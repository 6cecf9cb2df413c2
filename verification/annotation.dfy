/**
 * The pod annotation parser/validator (internal/annotation/parser.go).
 *
 * The YAML decoder is a foreign library; it is a parameter `yaml` that maps
 * the annotation text to the decoded document or to None when decoding fails.
 */
module Annotation {
  import opened Wrappers

  /** The annotation key a pod carries its sync request under. */
  const AnnotationKey: string := "jasm.codnod.io/secret-sync"

  /** The decoded YAML document. An absent `keys` block decodes to the empty map. */
  datatype PodAnnotation = PodAnnotation(
    provider: string,
    path: string,
    secretName: string,
    keys: map<string, string>)

  /** A validated request. Namespace, pod name and UID come from the caller. */
  datatype SecretSyncRequest = SecretSyncRequest(
    provider: string,
    secretPath: string,
    secretName: string,
    namespace: string,
    podName: string,
    podUID: string,
    keyMapping: map<string, string>)

  /** The three required fields, in the order they are checked. */
  datatype Field = ProviderField | PathField | SecretNameField

  datatype ParseError =
    | EmptyAnnotation
    | MalformedYaml
    | MissingField(field: Field)
  {
    /** The error text the parser reports (the decoder's own message is not modelled). */
    function Message(): string {
      match this
      case EmptyAnnotation => "annotation value is empty"
      case MalformedYaml => "failed to parse annotation YAML"
      case MissingField(ProviderField) => "provider field is required"
      case MissingField(PathField) => "path field is required"
      case MissingField(SecretNameField) => "secretName field is required"
    }
  }

  /** Distinct parse errors are reported with distinct texts. */
  lemma ParseMessagesDistinct(a: ParseError, b: ParseError)
    ensures a.Message() == b.Message() <==> a == b
  {
  }

  /** The decoder the parser is run with. */
  type YamlDecoder = string -> Option<PodAnnotation>

  /** All three required fields are non-empty. */
  predicate Complete(a: PodAnnotation) {
    a.provider != "" && a.path != "" && a.secretName != ""
  }

  /**
   * Validates the annotation text and builds a request for the pod
   * (namespace, podName, podUID). Checks run in a fixed order: empty text,
   * decode failure, then provider, path and secretName.
   */
  function ParseAnnotation(yaml: YamlDecoder, value: string, namespace: string, podName: string, podUID: string)
    : (r: Result<SecretSyncRequest, ParseError>)
    // the empty text is refused before the decoder is consulted
    ensures value == "" ==> r == Failure(EmptyAnnotation)
    ensures r == Failure(MalformedYaml) <==> value != "" && yaml(value).None?
    // the first empty required field, in the order provider, path, secretName, names the error
    ensures r == Failure(MissingField(ProviderField)) <==>
              value != "" && yaml(value).Some? && yaml(value).value.provider == ""
    ensures r == Failure(MissingField(PathField)) <==>
              value != "" && yaml(value).Some? && yaml(value).value.provider != "" && yaml(value).value.path == ""
    ensures r == Failure(MissingField(SecretNameField)) <==>
              value != "" && yaml(value).Some? && yaml(value).value.provider != "" && yaml(value).value.path != ""
              && yaml(value).value.secretName == ""
    // success exactly when the text is non-empty, decodes, and has every required field
    ensures r.Success? <==> value != "" && yaml(value).Some? && Complete(yaml(value).value)
    // on success the payload fields are copied, the pod identity is the caller's
    ensures r.Success? ==>
              && r.value.provider == yaml(value).value.provider != ""
              && r.value.secretPath == yaml(value).value.path != ""
              && r.value.secretName == yaml(value).value.secretName != ""
              && r.value.keyMapping == yaml(value).value.keys
              && r.value.namespace == namespace
              && r.value.podName == podName
              && r.value.podUID == podUID
  {
    if value == "" then Failure(EmptyAnnotation)
    else match yaml(value)
      case None => Failure(MalformedYaml)
      case Some(a) =>
        if a.provider == "" then Failure(MissingField(ProviderField))
        else if a.path == "" then Failure(MissingField(PathField))
        else if a.secretName == "" then Failure(MissingField(SecretNameField))
        else Success(SecretSyncRequest(a.provider, a.path, a.secretName, namespace, podName, podUID, a.keys))
  }

  /**
   * Whether an annotation is accepted, and every field of the request except
   * the pod identity, depend on the payload alone: two pods carrying the same
   * text get the same verdict and the same provider, path, secret name and
   * key mapping.
   */
  lemma ParseIndependentOfPod(yaml: YamlDecoder, value: string, ns1: string, name1: string, uid1: string,
                              ns2: string, name2: string, uid2: string)
    ensures var r1 := ParseAnnotation(yaml, value, ns1, name1, uid1);
            var r2 := ParseAnnotation(yaml, value, ns2, name2, uid2);
            && r1.Success? == r2.Success?
            && (r1.Failure? ==> r1.error == r2.error)
            && (r1.Success? ==> r1.value == r2.value.(namespace := ns1, podName := name1, podUID := uid1))
  {
  }
}
