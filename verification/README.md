# jasm — a Dafny model of the pod-driven secret synchroniser

jasm is a Kubernetes controller. A pod asks for a secret by carrying the
annotation `jasm.codnod.io/secret-sync`, whose YAML value names a provider
(`aws-secretsmanager`), a path in that provider, the name of the Kubernetes
Secret to produce and, optionally, a key mapping. On every pod event the
controller parses the annotation, looks the provider up in its registry,
fetches the secret's key/value pairs, merges them (through the key mapping
when there is one), and creates or updates the Secret in the pod's
namespace. It labels that Secret `app.kubernetes.io/managed-by: jasm` and
stamps it with the source path and the time of the sync. When a managed
Secret changes or is deleted, the controller requeues every pod in its
namespace whose annotation asks for it.

The model has these modules:

- `Wrappers` (`wrappers.dfy`): `Option` and `Result`.
- `Annotation` (`annotation.dfy`): the annotation parser, with the YAML decoder as a function parameter.
- `Events` (`events.dfy`): the event reasons the controller emits.
- `AwsSecretsManager` (`aws.dfy`): the AWS provider's name and constructor, and the part of FetchSecret after the SDK call. That part covers the error paths and the loop that turns every decoded JSON value into a string.
- `Provider` (`provider.dfy`): `ProviderRegistry` as a class whose `providers` map its methods update, and `DefaultProviderRegistry`.
- `Controller` (`controller.dfy`): the reconciler as a class `PodSecretReconciler`. It has:
  - a store of Secrets keyed by namespace and name;
  - the events emitted so far;
  - a ghost trace of API calls.

  `Reconcile` and `FindPodsForSecret` are methods proved equal to the specification functions `Reconciled` and `PodsToRequeue`.
- `ControllerLemmas` (`controller_lemmas.dfy`): the properties of those specification functions. They cover:
  - the exits of the pipeline;
  - when the controller requeues;
  - which secret is written and with what;
  - namespace isolation;
  - idempotence of a re-sync;
  - the reverse lookup from a managed Secret to the pods that requested it.

Inputs from outside the program are parameters of the model:

- the YAML and JSON libraries;
- the outcome of loading the AWS configuration;
- the GetSecretValue response;
- the outcome of the pod lookup and of the provider fetch;
- faults of the Secret read and write;
- the formatted current time.

## Model

| member | source | states |
|---|---|---|
| Annotation.ParseAnnotation | internal/annotation/parser.go:38-70 | The empty text fails with "empty" before decoding. Undecodable text fails as malformed. Otherwise the first empty field among provider, path and secretName names the error. It succeeds exactly when the text decodes with all three present. A success copies those fields and the key mapping, and takes namespace, pod name and UID from the caller. |
| Annotation.ParseMessagesDistinct | internal/annotation/parser.go:39-57 | The four kinds of parse error are reported with four different texts. |
| Annotation.ParseIndependentOfPod | internal/annotation/parser.go:38-70 | Two pods carrying the same annotation text get the same verdict, the same error, and the same request except for the pod identity. |
| Events.ReasonTextsDistinct | internal/events/recorder.go:10-25 | Each event reason is recorded under its own string, and no two reasons share one. |
| AwsSecretsManager.Name | internal/provider/aws.go:31-34 | The provider's identifier is "aws-secretsmanager", whatever client it holds. |
| AwsSecretsManager.NewAwsSecretsManagerProvider | internal/provider/aws.go:20-29 | Succeeds exactly when the AWS configuration loads. The provider then holds the client built from it and is named "aws-secretsmanager". |
| AwsSecretsManager.Stringify | internal/provider/aws.go:61-74 | A string is kept as it is. A number is formatted. Booleans become "true" and "false". null becomes "". Arrays and objects become their JSON encoding. |
| AwsSecretsManager.StringifyValues | internal/provider/aws.go:59-75 | The result has exactly the keys of the decoded object. Each value is that key's decoded value made into a string. |
| AwsSecretsManager.FetchSecret | internal/provider/aws.go:43-77 | An SDK error, a missing SecretString, and text that json.Unmarshal rejects each give their own error. It succeeds exactly when none of these happens. It then returns every decoded key with its value made into a string. |
| AwsSecretsManager.FetchMessagesDistinct | internal/provider/aws.go:45-55 | The three FetchSecret errors are reported with distinct texts, and each text determines the SDK cause or the secret path it carries. |
| Provider.FromAws | internal/provider/aws.go:32-34 | The AWS provider is registered under the name "aws-secretsmanager". |
| Provider.ProviderRegistry.constructor | internal/provider/provider.go:29-33 | A new registry is empty: Get answers None for every name. |
| Provider.ProviderRegistry.Register | internal/provider/provider.go:36-38 | Stores the provider under its own name, replacing any provider with that name. Every other name keeps its provider. |
| Provider.ProviderRegistry.Get | internal/provider/provider.go:42-44 | Returns Some exactly for registered names, with the provider registered under that name. Otherwise it returns None (Go's nil). |
| Provider.ProviderRegistry.List | internal/provider/provider.go:47-53 | Returns each registered name exactly once: a name is listed iff it is registered, and the length equals the number of providers. |
| Provider.DefaultProviderRegistry | internal/provider/provider.go:57-75 | Succeeds exactly when the AWS provider can be built. It then returns a new registry that holds exactly that provider, under "aws-secretsmanager". |
| Controller.IgnoreNotFound | internal/controller/podsecret_controller.go:55-58 | A pod lookup error is dropped exactly when it is NotFound. Any other error is returned with its message. |
| Controller.MergedData | internal/controller/podsecret_controller.go:112-129 | With a non-empty key mapping, a Secret key is present iff it is mapped to a fetched key, and it then holds that fetched value. Mapped keys missing from the fetch are skipped. With an empty mapping, the fetched data is copied whole. |
| Controller.CopyMapped | internal/controller/podsecret_controller.go:115-123 | The mapping loop produces exactly the mapped keys whose source key was fetched, each holding the fetched value. |
| Controller.CopyAll | internal/controller/podsecret_controller.go:124-129 | The copy loop produces the fetched map unchanged. |
| Controller.BuildStringData | internal/controller/podsecret_controller.go:112-129 | The StringData the loops build equals MergedData of the key mapping and the fetched data. |
| Controller.Stamped | internal/controller/podsecret_controller.go:131-143 | The written Secret keeps the name, namespace and stored data of the Secret it was built from, and carries the managed-by=jasm label. |
| Controller.StampedMetadata | internal/controller/podsecret_controller.go:131-143 | Stamping keeps the Secret's name, namespace, stored data and other labels and annotations. It sets the managed-by label to "jasm", the source-path and synced-at annotations, the merged StringData, and the type "Opaque". |
| Controller.Reconciled | internal/controller/podsecret_controller.go:51-164 | The specification of one reconciliation. Its first call is the pod lookup for the request. Requeueing comes only with an error and the SecretFetchFailed event. The store changes only on a sync that emits SecretSyncSuccess. |
| Controller.ReconciledPod | internal/controller/podsecret_controller.go:62-163 | The steps after the pod was read. Requeueing comes only with an error and SecretFetchFailed. The store changes only on success. |
| Controller.Synced | internal/controller/podsecret_controller.go:90-163 | The steps from the provider fetch on. The first call is the fetch of the request's path. It requeues iff the fetch failed, and then carries the error and SecretFetchFailed. The store changes only on success. |
| Controller.PodsRequesting | internal/controller/podsecret_controller.go:190-211 | The filter loop of findPodsForSecret as a function. The result is no longer than the pod list. Membership is stated by PodsRequestingMembership. |
| Controller.PodsToRequeue | internal/controller/podsecret_controller.go:180-214 | findPodsForSecret as a function. An unmanaged Secret or a failed List yields nothing. Otherwise the result is no longer than the listed pods. |
| Controller.PodSecretReconciler.Reconcile | internal/controller/podsecret_controller.go:51-164 | Requeue flag, error, emitted events, API calls and Secret store after one reconciliation equal Reconciled of the previous state. The store stays keyed by each Secret's own namespace and name. |
| Controller.PodSecretReconciler.ReconcilePod | internal/controller/podsecret_controller.go:62-96 | For a pod that was found: no annotation means a silent stop. A parse error emits AnnotationInvalid. An unregistered provider emits ProviderUnsupported. Otherwise the sync continues. |
| Controller.PodSecretReconciler.SyncSecret | internal/controller/podsecret_controller.go:91-163 | A fetch error emits SecretFetchFailed and requeues with the error. A read fault or write fault returns that error. Otherwise an existing Secret is updated (or a new one created) with the stamped data, and SecretSyncSuccess is emitted. |
| Controller.PodSecretReconciler.FindPodsForSecret | internal/controller/podsecret_controller.go:180-214 | An unmanaged Secret or a failed List gives no requests. Otherwise the result is the pods, in list order, whose annotation parses and names this Secret. |
| ControllerLemmas.PodLookupFailure | internal/controller/podsecret_controller.go:54-58 | A failed pod lookup changes nothing, emits nothing, does not requeue, and returns the error unless it is NotFound. |
| ControllerLemmas.NoAnnotationIsSkipped | internal/controller/podsecret_controller.go:62-66 | A pod without the annotation is skipped silently after the pod lookup. |
| ControllerLemmas.InvalidAnnotationIsReported | internal/controller/podsecret_controller.go:68-73 | An annotation that fails to parse emits exactly AnnotationInvalid, returns no error, does not requeue and changes no Secret. |
| ControllerLemmas.NamespaceCheckIsDead | internal/controller/podsecret_controller.go:75-80 | A parsed request always carries the pod's own namespace, so the namespace-mismatch branch cannot be taken. |
| ControllerLemmas.AnnotationInvalidIffParseFails | internal/controller/podsecret_controller.go:68-80 | AnnotationInvalid is emitted iff the pod was found, is annotated, and its annotation fails to parse. |
| ControllerLemmas.UnknownProviderIsReported | internal/controller/podsecret_controller.go:82-88 | A provider missing from the registry emits exactly ProviderUnsupported, returns no error and changes no Secret. |
| ControllerLemmas.FetchFailureIsRequeued | internal/controller/podsecret_controller.go:91-96 | A failed fetch emits SecretFetchFailed and requeues with the fetch error. No Secret is read or written. |
| ControllerLemmas.RequeueIffFetchFails | internal/controller/podsecret_controller.go:95 | A reconciliation asks to be requeued iff it reached the provider and the fetch failed. |
| ControllerLemmas.StoreFailureIsReturned | internal/controller/podsecret_controller.go:105-157 | A failed Secret read, update or create returns that error without requeueing or emitting an event. |
| ControllerLemmas.AdmittedContinues | internal/controller/podsecret_controller.go:82-96 | When the pod, annotation and provider all pass, the outcome is the sync of the parsed request, after the pod lookup. |
| ControllerLemmas.NotAdmittedStops | internal/controller/podsecret_controller.go:54-88 | When the pod, annotation or provider does not pass, only the pod is looked up. The controller does not requeue, changes nothing, and emits at most AnnotationInvalid or ProviderUnsupported. |
| ControllerLemmas.SuccessIffAllStepsSucceed | internal/controller/podsecret_controller.go:145-163 | SecretSyncSuccess is emitted iff every step succeeds. It is then the only event, with no error and no requeue. The last call is an update if the Secret already existed, and a create otherwise. |
| ControllerLemmas.AtMostOneEvent | internal/events/recorder.go:10-24 | A reconciliation emits at most one event, and never SecretSyncFailed. |
| ControllerLemmas.WrittenSecret | internal/controller/podsecret_controller.go:98-159 | After a success, the Secret named by the annotation is in the pod's namespace. The store equals the old one with that Secret replaced by the stored version (or an empty one), stamped with the path, the time and the merged data. |
| ControllerLemmas.SyncedTouchesOnlyTarget | internal/controller/podsecret_controller.go:98-159 | The sync reads and writes only the requested Secret. Every other Secret is unchanged. |
| ControllerLemmas.StaysInPodNamespace | internal/controller/podsecret_controller.go:98-103 | Every Secret read or written is in the pod's namespace. Secrets in other namespaces are unchanged. |
| ControllerLemmas.StaysInRequestNamespace | internal/controller/podsecret_controller.go:54-110 | When the pod lookup answers for the requested key, every call except the fetch names an object in the request's namespace. Secrets in other namespaces are unchanged. |
| ControllerLemmas.ReconcileKeepsWellKeyed | internal/controller/podsecret_controller.go:98-105 | The store stays keyed by each Secret's own namespace and name. |
| ControllerLemmas.RestampOnlyMovesTimestamp | internal/controller/podsecret_controller.go:131-143 | Stamping a stamped Secret again with the same path and data changes only its synced-at annotation. |
| ControllerLemmas.ResyncedSecret | internal/controller/podsecret_controller.go:98-163 | Syncing again after a success updates the same Secret and changes only its synced-at annotation. |
| ControllerLemmas.ResyncOnlyAdvancesTimestamp | internal/controller/podsecret_controller.go:51-164 | A full reconciliation run again on the state a success left, with a later clock, succeeds with an update and changes only the synced-at annotation. |
| ControllerLemmas.PodsRequestingMembership | internal/controller/podsecret_controller.go:190-211 | A pod key is requeued iff some listed pod with that key has an annotation that parses and names the Secret. |
| ControllerLemmas.WrittenSecretLeadsBackToPod | internal/controller/podsecret_controller.go:180-214 | A Secret written by a successful reconciliation is managed. When it later changes, the reverse lookup over a pod list holding the reconciled pod requeues that pod. |

## Left out

- The Kubernetes API server is an input, not a model:
  - Which pod the lookup returns, whether a Secret read or write fails, and what List returns are parameters.
  - The model does not force the pod lookup to answer for the requested key. The predicate `PodMatchesRequest` states that condition, and `StaysInRequestNamespace` assumes it.
  - Optimistic concurrency (resource versions and update conflicts) is not modelled.
  - The List in findPodsForSecret is scoped to the Secret's namespace by the server. The model takes the listed pods as given.
- The API server folds StringData into Data when it stores a Secret. The model stores StringData as written and keeps the old Data. It therefore claims nothing about removing stale keys from an existing Secret.
- YAML and JSON decoding, JSON encoding of arrays and objects, and the `%v` formatting of float64 are the libraries' work. They are function parameters (`YamlDecoder`, `JsonLib`), and numbers are kept as their 64-bit float pattern.
- The AWS SDK (LoadDefaultConfig, NewFromConfig, GetSecretValue) is not modelled. Its results are parameters: a client handle or an error, and a GetSecretValue response or an error.
- The clock is not modelled. `time.Now().UTC().Format(time.RFC3339)` is the `syncedAt` string in the environment.
- Logging is not modelled.
- Event messages and event types (Normal or Warning) are not modelled. Only the reason of each emitted event is.
- Error texts: ParseError.Message and FetchError.Message give the fixed wording of the parser's and FetchSecret's errors. The config-load error (aws.go:23) and the create-provider error (provider.go:63) keep their prefixes. The SDK's error (aws.go:45) and the config loader's error are passed through as opaque strings after those prefixes. The YAML and JSON decoders' own messages are dropped: `MalformedYaml` and `InvalidJson` carry none.
- The controller's own manager wiring is not part of this model:
  - SetupWithManager (the watch on Pods and Secrets);
  - cmd/controller/main.go.
- Go's nil map and empty map are one value here. The code treats both alike: `len` is 0 and lookups miss.
- The SecretProvider interface is a datatype: the name the provider registers under plus an opaque instance. Its FetchSecret behaviour is the `fetched` input of the reconciliation. AWS is the only implementation, so nothing else is dispatched on.
- Controller.PodSecretReconciler.ReconcilePod: the namespace-mismatch branch (podsecret_controller.go:75-80) is kept in `ReconciledPod`. Because ParseAnnotation copies the pod's namespace, NamespaceCheckIsDead proves the branch unreachable. The method therefore asserts that it is dead and does not emit its AnnotationInvalid event.
- Fetch errors are not split into permanent and transient ones. podsecret_controller.go:91-96 requeues every fetch error alike, and so does the model.
- The `AnnotationKey` constant is declared in both the annotation and controller packages with the same value. It is declared once here.
