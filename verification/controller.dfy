/**
 * The pod reconciler (internal/controller/podsecret_controller.go).
 *
 * The Kubernetes API server is abstracted: the secrets the reconciler can
 * see are a map keyed by (namespace, name); the outcome of reading the pod,
 * of the provider's fetch, of any failing secret read and of the write are
 * inputs (`Environment`), as is the synced-at timestamp. Events are recorded
 * as reason tags, and the calls made to the outside world as a trace.
 */
module Controller {
  import opened Wrappers
  import opened Annotation
  import opened Events
  import Provider

  const ManagedByLabel: string := "app.kubernetes.io/managed-by"
  const ManagedByValue: string := "jasm"
  const SourcePathAnnotation: string := "jasm.codnod.io/source-path"
  const SyncedAtAnnotation: string := "jasm.codnod.io/synced-at"
  const SecretTypeOpaque: string := "Opaque"

  /** A namespaced name. */
  datatype ObjectKey = ObjectKey(namespace: string, name: string)

  datatype Pod = Pod(namespace: string, name: string, uid: string, annotations: map<string, string>)

  function PodKey(pod: Pod): ObjectKey {
    ObjectKey(pod.namespace, pod.name)
  }

  /**
   * A Secret object. `data` is the payload already stored; the reconciler
   * only ever sets `stringData`, and how the API server folds it into `data`
   * is not modelled.
   */
  datatype Secret = Secret(
    namespace: string,
    name: string,
    labels: map<string, string>,
    annotations: map<string, string>,
    data: map<string, seq<bv8>>,
    stringData: map<string, string>,
    secretType: string)

  function SecretKey(s: Secret): ObjectKey {
    ObjectKey(s.namespace, s.name)
  }

  /** The object Reconcile starts from when no secret is stored under `key`. */
  function EmptySecret(key: ObjectKey): Secret {
    Secret(key.namespace, key.name, map[], map[], map[], map[], "")
  }

  /** Every stored secret sits under its own namespaced name. */
  ghost predicate WellKeyed(store: map<ObjectKey, Secret>) {
    forall k :: k in store ==> SecretKey(store[k]) == k
  }

  /** Errors of the Kubernetes client. */
  datatype ApiError = NotFound | ApiFailure(message: string)

  /** The outcomes of the calls a reconciliation makes, supplied from outside. */
  datatype Environment = Environment(
    pod: Result<Pod, ApiError>,                  // r.Get of the pod
    fetched: Result<map<string, string>, string>,  // the provider's FetchSecret
    secretReadFault: Option<string>,             // a non-NotFound error of r.Get of the secret
    writeFault: Option<string>,                  // an error of r.Create / r.Update
    syncedAt: string)                            // the RFC 3339 clock reading

  /** The pod lookup answered for the requested key, as a Get by namespaced name does. */
  predicate PodMatchesRequest(req: ObjectKey, env: Environment) {
    env.pod.Success? ==> PodKey(env.pod.value) == req
  }

  /** The calls to the outside world, in order. */
  datatype Call =
    | GetPod(key: ObjectKey)
    | FetchSecret(provider: string, path: string)
    | GetSecret(key: ObjectKey)
    | CreateSecret(key: ObjectKey)
    | UpdateSecret(key: ObjectKey)

  /** What one reconciliation returns and does. */
  datatype Outcome = Outcome(
    requeue: bool,
    err: Option<string>,
    emitted: seq<EventReason>,
    calls: seq<Call>,
    store: map<ObjectKey, Secret>)

  /** client.IgnoreNotFound. */
  function IgnoreNotFound(e: ApiError): (r: Option<string>)
    ensures r.None? <==> e == NotFound
    ensures e.ApiFailure? ==> r == Some(e.message)
  {
    match e
    case NotFound => None
    case ApiFailure(m) => Some(m)
  }

  /**
   * The payload to write. With a non-empty key mapping (target key -> source
   * key), each target key whose source key was fetched gets that value and the
   * others are skipped; with an empty mapping the fetched data is copied.
   */
  function MergedData(keyMapping: map<string, string>, fetched: map<string, string>): (r: map<string, string>)
    ensures |keyMapping| > 0 ==>
              forall t :: t in r <==> t in keyMapping && keyMapping[t] in fetched
    ensures |keyMapping| > 0 ==>
              forall t :: t in r ==> t in keyMapping && r[t] == fetched[keyMapping[t]]
    ensures |keyMapping| == 0 ==> r == fetched
  {
    if |keyMapping| > 0 then
      map t | t in keyMapping && keyMapping[t] in fetched :: fetched[keyMapping[t]]
    else
      fetched
  }

  /**
   * The secret as it is written: managed-by label, provenance annotations,
   * payload and type set on the object read back (or on an empty one).
   * Its properties are stated by `StampedMetadata`.
   */
  function Stamped(base: Secret, sourcePath: string, syncedAt: string, stringData: map<string, string>): (s: Secret)
    ensures SecretKey(s) == SecretKey(base) && IsManaged(s) && s.data == base.data
  {
    base.(labels := base.labels[ManagedByLabel := ManagedByValue],
          annotations := base.annotations[SourcePathAnnotation := sourcePath][SyncedAtAnnotation := syncedAt],
          stringData := stringData,
          secretType := SecretTypeOpaque)
  }

  /**
   * A stamped secret keeps its name, namespace and stored data; gains the
   * managed-by=jasm label, the source-path and synced-at annotations, the
   * new payload and the Opaque type; and keeps every other label and
   * annotation it had.
   */
  lemma StampedMetadata(base: Secret, sourcePath: string, syncedAt: string, stringData: map<string, string>)
    ensures var s := Stamped(base, sourcePath, syncedAt, stringData);
            && s.namespace == base.namespace && s.name == base.name && s.data == base.data
            && s.labels.Keys == base.labels.Keys + {ManagedByLabel}
            && IsManaged(s)
            && (forall k :: k in base.labels && k != ManagedByLabel ==> s.labels[k] == base.labels[k])
            && s.annotations.Keys == base.annotations.Keys + {SourcePathAnnotation, SyncedAtAnnotation}
            && s.annotations[SourcePathAnnotation] == sourcePath
            && s.annotations[SyncedAtAnnotation] == syncedAt
            && (forall k :: k in base.annotations && k != SourcePathAnnotation && k != SyncedAtAnnotation ==>
                  s.annotations[k] == base.annotations[k])
            && s.stringData == stringData && s.secretType == SecretTypeOpaque
  {
  }

  /** The key of the secret a request names: always in the pod's namespace. */
  function TargetKey(req: SecretSyncRequest): ObjectKey {
    ObjectKey(req.namespace, req.secretName)
  }

  /**
   * Reconcile, step by step, as a function of the registered providers, the
   * YAML decoder, the stored secrets, the request key and the environment.
   */
  function Reconciled(providers: map<string, Provider.SecretProvider>, yaml: YamlDecoder,
                      store: map<ObjectKey, Secret>, req: ObjectKey, env: Environment): (o: Outcome)
    ensures o.calls != [] && o.calls[0] == GetPod(req)
    ensures o.requeue ==> o.err.Some? && o.emitted == [SecretFetchFailed]
    // the store changes only when the sync succeeds
    ensures o.store == store || o.emitted == [SecretSyncSuccess]
  {
    match env.pod
    case Failure(e) => Outcome(false, IgnoreNotFound(e), [], [GetPod(req)], store)
    case Success(pod) =>
      var o := ReconciledPod(providers, yaml, store, pod, env);
      o.(calls := [GetPod(req)] + o.calls)
  }

  /** The steps of Reconcile after the pod was read, up to the provider lookup. */
  function ReconciledPod(providers: map<string, Provider.SecretProvider>, yaml: YamlDecoder,
                         store: map<ObjectKey, Secret>, pod: Pod, env: Environment): (o: Outcome)
    ensures o.requeue ==> o.err.Some? && o.emitted == [SecretFetchFailed]
    ensures o.store == store || o.emitted == [SecretSyncSuccess]
  {
    if AnnotationKey !in pod.annotations then Outcome(false, None, [], [], store)
    else
      match ParseAnnotation(yaml, pod.annotations[AnnotationKey], pod.namespace, pod.name, pod.uid)
      case Failure(_) => Outcome(false, None, [AnnotationInvalid], [], store)
      case Success(sr) =>
        if sr.namespace != pod.namespace then Outcome(false, None, [AnnotationInvalid], [], store)
        else if sr.provider !in providers then Outcome(false, None, [ProviderUnsupported], [], store)
        else Synced(store, sr, env)
  }

  /**
   * The second half of Reconcile, from the provider's fetch to the success
   * event, for a request that passed validation and names a registered provider.
   */
  function Synced(store: map<ObjectKey, Secret>, sr: SecretSyncRequest, env: Environment): (o: Outcome)
    ensures o.calls != [] && o.calls[0] == FetchSecret(sr.provider, sr.secretPath)
    ensures o.requeue <==> env.fetched.Failure?
    ensures o.requeue ==> o.err.Some? && o.emitted == [SecretFetchFailed]
    ensures o.store == store || o.emitted == [SecretSyncSuccess]
  {
    var calls := [FetchSecret(sr.provider, sr.secretPath)];
    match env.fetched
    case Failure(e) => Outcome(true, Some(e), [SecretFetchFailed], calls, store)
    case Success(fetched) =>
      var key := TargetKey(sr);
      var calls := calls + [GetSecret(key)];
      if env.secretReadFault.Some? then Outcome(false, env.secretReadFault, [], calls, store)
      else
        var found := key in store;
        var base := if found then store[key] else EmptySecret(key);
        var secret := Stamped(base, sr.secretPath, env.syncedAt, MergedData(sr.keyMapping, fetched));
        var calls := calls + [if found then UpdateSecret(key) else CreateSecret(key)];
        if env.writeFault.Some? then Outcome(false, env.writeFault, [], calls, store)
        else Outcome(false, None, [SecretSyncSuccess], calls, store[key := secret])
  }

  /** The mapped half of the merge loop: one entry per target key whose source key was fetched. */
  method CopyMapped(keyMapping: map<string, string>, fetched: map<string, string>)
    returns (data: map<string, string>)
    ensures forall t :: t in data <==> t in keyMapping && keyMapping[t] in fetched
    ensures forall t :: t in data ==> data[t] == fetched[keyMapping[t]]
  {
    data := map[];
    var rest := keyMapping.Keys;
    while rest != {}
      invariant rest <= keyMapping.Keys
      invariant forall t :: t in data <==> t in keyMapping && t !in rest && keyMapping[t] in fetched
      invariant forall t :: t in data ==> data[t] == fetched[keyMapping[t]]
      decreases rest
    {
      var target :| target in rest;
      var source := keyMapping[target];
      if source in fetched {
        data := data[target := fetched[source]];
      }
      rest := rest - {target};
    }
  }

  /** The unmapped half of the merge loop: every fetched entry is copied. */
  method CopyAll(fetched: map<string, string>) returns (data: map<string, string>)
    ensures data == fetched
  {
    data := map[];
    var rest := fetched.Keys;
    while rest != {}
      invariant rest <= fetched.Keys
      invariant data.Keys == fetched.Keys - rest
      invariant forall k :: k in data ==> data[k] == fetched[k]
      decreases rest
    {
      var k :| k in rest;
      data := data[k := fetched[k]];
      rest := rest - {k};
    }
  }

  /** The merge step of Reconcile. */
  method BuildStringData(keyMapping: map<string, string>, fetched: map<string, string>)
    returns (data: map<string, string>)
    ensures data == MergedData(keyMapping, fetched)
  {
    if |keyMapping| > 0 {
      data := CopyMapped(keyMapping, fetched);
      var expected := MergedData(keyMapping, fetched);
      assert data.Keys == expected.Keys;
    } else {
      data := CopyAll(fetched);
    }
  }

  /** The secret carries the managed-by=jasm label. */
  predicate IsManaged(secret: Secret) {
    ManagedByLabel in secret.labels && secret.labels[ManagedByLabel] == ManagedByValue
  }

  /** The pod's annotation is present, parses, and names `secretName`. */
  predicate RequestsSecret(yaml: YamlDecoder, pod: Pod, secretName: string) {
    && AnnotationKey in pod.annotations
    && var r := ParseAnnotation(yaml, pod.annotations[AnnotationKey], pod.namespace, pod.name, pod.uid);
    && r.Success?
    && r.value.secretName == secretName
  }

  /** The keys of the pods that request `secretName`, in list order. */
  function PodsRequesting(yaml: YamlDecoder, pods: seq<Pod>, secretName: string): (keys: seq<ObjectKey>)
    ensures |keys| <= |pods|
  {
    if pods == [] then []
    else
      var last := pods[|pods| - 1];
      PodsRequesting(yaml, pods[..|pods| - 1], secretName)
      + (if RequestsSecret(yaml, last, secretName) then [PodKey(last)] else [])
  }

  /** What findPodsForSecret returns for `secret`, given the outcome of listing its namespace's pods. */
  function PodsToRequeue(yaml: YamlDecoder, secret: Secret, listed: Result<seq<Pod>, string>): (keys: seq<ObjectKey>)
    ensures !IsManaged(secret) || listed.Failure? ==> keys == []
    ensures listed.Success? ==> |keys| <= |listed.value|
  {
    if !IsManaged(secret) then []
    else match listed
      case Failure(_) => []
      case Success(pods) => PodsRequesting(yaml, pods, secret.name)
  }

  /** A proof step of Reconcile: its call trace regroups the pod lookup with the calls that follow it. */
  lemma AppendAssociates<T>(a: seq<T>, b: seq<T>, c: seq<T>)
    ensures a + (b + c) == (a + b) + c
  {
  }

  /** The reconciler and the part of the cluster state it changes. */
  class PodSecretReconciler {
    const registry: Provider.ProviderRegistry
    const yaml: YamlDecoder
    var secrets: map<ObjectKey, Secret>
    var events: seq<EventReason>
    ghost var calls: seq<Call>

    ghost predicate Valid()
      reads this
    {
      WellKeyed(secrets)
    }

    constructor (registry: Provider.ProviderRegistry, yaml: YamlDecoder, secrets: map<ObjectKey, Secret>)
      requires WellKeyed(secrets)
      ensures Valid()
      ensures this.registry == registry && this.yaml == yaml && this.secrets == secrets
      ensures events == [] && calls == []
    {
      this.registry := registry;
      this.yaml := yaml;
      this.secrets := secrets;
      events := [];
      calls := [];
    }

    /**
     * Reconcile for the pod named `req`. Its result, the events it emits, the
     * calls it makes and the secrets afterwards are those of `Reconciled`.
     */
    method Reconcile(req: ObjectKey, env: Environment) returns (requeue: bool, err: Option<string>)
      requires Valid()
      modifies this
      ensures Valid()
      ensures var o := Reconciled(registry.providers, yaml, old(secrets), req, env);
              && requeue == o.requeue && err == o.err
              && events == old(events) + o.emitted
              && calls == old(calls) + o.calls
              && secrets == o.store
    {
      if env.pod.Failure? {
        calls := calls + [GetPod(req)];
        return false, IgnoreNotFound(env.pod.error);
      }
      var pod := env.pod.value;
      ghost var rest := ReconciledPod(registry.providers, yaml, secrets, pod, env);
      calls := calls + [GetPod(req)];
      requeue, err := ReconcilePod(pod, env);
      AppendAssociates(old(calls), [GetPod(req)], rest.calls);
    }

    /** The steps of Reconcile after the pod was read; see `ReconciledPod`. */
    method ReconcilePod(pod: Pod, env: Environment) returns (requeue: bool, err: Option<string>)
      requires Valid()
      modifies this
      ensures Valid()
      ensures var o := ReconciledPod(registry.providers, yaml, old(secrets), pod, env);
              && requeue == o.requeue && err == o.err
              && events == old(events) + o.emitted
              && calls == old(calls) + o.calls
              && secrets == o.store
    {
      if AnnotationKey !in pod.annotations {
        return false, None;
      }
      var annotationValue := pod.annotations[AnnotationKey];

      var parsed := ParseAnnotation(yaml, annotationValue, pod.namespace, pod.name, pod.uid);
      if parsed.Failure? {
        events := events + [AnnotationInvalid];
        return false, None;
      }
      var syncRequest := parsed.value;

      if syncRequest.namespace != pod.namespace {
        // The source emits AnnotationInvalid and returns here; the branch is
        // unreachable, since the parser copies the pod's own namespace.
        assert false;
      }

      var secretProvider := registry.Get(syncRequest.provider);
      if secretProvider.None? {
        events := events + [ProviderUnsupported];
        return false, None;
      }

      requeue, err := SyncSecret(syncRequest, env);
    }

    /** The steps of Reconcile from the fetch on; see `Synced`. */
    method SyncSecret(syncRequest: SecretSyncRequest, env: Environment) returns (requeue: bool, err: Option<string>)
      requires Valid()
      modifies this
      ensures Valid()
      ensures var o := Synced(old(secrets), syncRequest, env);
              && requeue == o.requeue && err == o.err
              && events == old(events) + o.emitted
              && calls == old(calls) + o.calls
              && secrets == o.store
    {
      ghost var trace := [FetchSecret(syncRequest.provider, syncRequest.secretPath)];
      if env.fetched.Failure? {
        calls := calls + trace;
        events := events + [SecretFetchFailed];
        return true, Some(env.fetched.error);
      }
      var secretData := env.fetched.value;

      var key := ObjectKey(syncRequest.namespace, syncRequest.secretName);
      trace := trace + [GetSecret(key)];
      if env.secretReadFault.Some? {
        calls := calls + trace;
        return false, env.secretReadFault;
      }
      var secretExists := key in secrets;
      var secret := if secretExists then secrets[key] else EmptySecret(key);
      ghost var base := secret;

      var secretStringData := BuildStringData(syncRequest.keyMapping, secretData);

      secret := secret.(labels := secret.labels[ManagedByLabel := ManagedByValue]);
      secret := secret.(annotations := secret.annotations[SourcePathAnnotation := syncRequest.secretPath]);
      secret := secret.(annotations := secret.annotations[SyncedAtAnnotation := env.syncedAt]);
      secret := secret.(stringData := secretStringData, secretType := SecretTypeOpaque);
      assert secret == Stamped(base, syncRequest.secretPath, env.syncedAt, secretStringData);

      if secretExists {
        trace := trace + [UpdateSecret(key)];
      } else {
        trace := trace + [CreateSecret(key)];
      }
      calls := calls + trace;
      if env.writeFault.Some? {
        return false, env.writeFault;
      }
      assert SecretKey(secret) == key;
      secrets := secrets[key := secret];

      events := events + [SecretSyncSuccess];
      return false, None;
    }

    /**
     * findPodsForSecret: `listed` is the outcome of listing the pods in the
     * secret's namespace. Returns the keys of the pods to reconcile again.
     */
    method FindPodsForSecret(secret: Secret, listed: Result<seq<Pod>, string>) returns (requests: seq<ObjectKey>)
      ensures requests == PodsToRequeue(yaml, secret, listed)
      ensures !IsManaged(secret) || listed.Failure? ==> requests == []
      ensures IsManaged(secret) && listed.Success? ==> requests == PodsRequesting(yaml, listed.value, secret.name)
    {
      if !(ManagedByLabel in secret.labels && secret.labels[ManagedByLabel] == ManagedByValue) {
        return [];
      }
      if listed.Failure? {
        return [];
      }
      var pods := listed.value;
      requests := [];
      for i := 0 to |pods|
        invariant requests == PodsRequesting(yaml, pods[..i], secret.name)
      {
        var pod := pods[i];
        assert pods[..i + 1][..i] == pods[..i];
        if AnnotationKey !in pod.annotations {
          continue;
        }
        var syncRequest := ParseAnnotation(yaml, pod.annotations[AnnotationKey], pod.namespace, pod.name, pod.uid);
        if syncRequest.Failure? {
          continue;
        }
        if syncRequest.value.secretName == secret.name {
          requests := requests + [PodKey(pod)];
        }
      }
      assert pods[..|pods|] == pods;
    }
  }
}
