/**
 * Properties of one reconciliation (`Controller.Reconciled`) and of the
 * reverse lookup (`Controller.PodsToRequeue`).
 */
module ControllerLemmas {
  import opened Wrappers
  import opened Annotation
  import opened Events
  import opened Controller
  import Provider

  type Providers = map<string, Provider.SecretProvider>

  /**
   * The request a reconciliation goes on to fetch for: the pod was found,
   * carries the annotation, the annotation parses, and its provider is
   * registered. None when one of these early exits is taken.
   */
  function Admitted(providers: Providers, yaml: YamlDecoder, env: Environment): Option<SecretSyncRequest> {
    if env.pod.Failure? then None
    else
      var pod := env.pod.value;
      if AnnotationKey !in pod.annotations then None
      else
        var r := ParseAnnotation(yaml, pod.annotations[AnnotationKey], pod.namespace, pod.name, pod.uid);
        if r.Failure? || r.value.provider !in providers then None
        else Some(r.value)
  }

  /** A missing pod is a silent success; any other lookup error is returned. Nothing else is touched. */
  lemma PodLookupFailure(providers: Providers, yaml: YamlDecoder, store: map<ObjectKey, Secret>, req: ObjectKey, env: Environment)
    requires env.pod.Failure?
    ensures var o := Reconciled(providers, yaml, store, req, env);
            && !o.requeue && o.emitted == [] && o.calls == [GetPod(req)] && o.store == store
            && (o.err == None <==> env.pod.error == NotFound)
            && (env.pod.error.ApiFailure? ==> o.err == Some(env.pod.error.message))
  {
  }

  /** A pod without the sync annotation is skipped silently. */
  lemma NoAnnotationIsSkipped(providers: Providers, yaml: YamlDecoder, store: map<ObjectKey, Secret>, req: ObjectKey, env: Environment)
    requires env.pod.Success? && AnnotationKey !in env.pod.value.annotations
    ensures Reconciled(providers, yaml, store, req, env) == Outcome(false, None, [], [GetPod(req)], store)
  {
  }

  /** A parse failure is reported as AnnotationInvalid, not requeued, and no secret is fetched, read or written. */
  lemma InvalidAnnotationIsReported(providers: Providers, yaml: YamlDecoder, store: map<ObjectKey, Secret>, req: ObjectKey, env: Environment)
    requires env.pod.Success? && AnnotationKey in env.pod.value.annotations
    requires var pod := env.pod.value;
             ParseAnnotation(yaml, pod.annotations[AnnotationKey], pod.namespace, pod.name, pod.uid).Failure?
    ensures Reconciled(providers, yaml, store, req, env) == Outcome(false, None, [AnnotationInvalid], [GetPod(req)], store)
  {
  }

  /** The namespace check after parsing never fails: the request's namespace is the pod's. */
  lemma NamespaceCheckIsDead(yaml: YamlDecoder, pod: Pod)
    requires AnnotationKey in pod.annotations
    ensures var r := ParseAnnotation(yaml, pod.annotations[AnnotationKey], pod.namespace, pod.name, pod.uid);
            r.Success? ==> r.value.namespace == pod.namespace
  {
  }

  /** Hence AnnotationInvalid is emitted exactly when the annotation is present and does not parse. */
  lemma AnnotationInvalidIffParseFails(providers: Providers, yaml: YamlDecoder, store: map<ObjectKey, Secret>, req: ObjectKey, env: Environment)
    ensures AnnotationInvalid in Reconciled(providers, yaml, store, req, env).emitted <==>
              && env.pod.Success?
              && AnnotationKey in env.pod.value.annotations
              && var pod := env.pod.value;
                 ParseAnnotation(yaml, pod.annotations[AnnotationKey], pod.namespace, pod.name, pod.uid).Failure?
  {
    var o := Reconciled(providers, yaml, store, req, env);
    if env.pod.Success? && AnnotationKey in env.pod.value.annotations {
      NamespaceCheckIsDead(yaml, env.pod.value);
    }
  }

  /** An unregistered provider is reported as ProviderUnsupported; nothing is fetched, read or written. */
  lemma UnknownProviderIsReported(providers: Providers, yaml: YamlDecoder, store: map<ObjectKey, Secret>, req: ObjectKey, env: Environment)
    requires env.pod.Success? && AnnotationKey in env.pod.value.annotations
    requires var pod := env.pod.value;
             var r := ParseAnnotation(yaml, pod.annotations[AnnotationKey], pod.namespace, pod.name, pod.uid);
             r.Success? && r.value.provider !in providers
    ensures Reconciled(providers, yaml, store, req, env) == Outcome(false, None, [ProviderUnsupported], [GetPod(req)], store)
  {
  }

  /** A fetch failure is requeued with its error; the secret is neither read nor written. */
  lemma FetchFailureIsRequeued(providers: Providers, yaml: YamlDecoder, store: map<ObjectKey, Secret>, req: ObjectKey, env: Environment)
    requires Admitted(providers, yaml, env).Some? && env.fetched.Failure?
    ensures var sr := Admitted(providers, yaml, env).value;
            Reconciled(providers, yaml, store, req, env)
              == Outcome(true, Some(env.fetched.error), [SecretFetchFailed], [GetPod(req), FetchSecret(sr.provider, sr.secretPath)], store)
  {
  }

  /** The only requeue is the fetch failure: there is no permanent/transient split. */
  lemma RequeueIffFetchFails(providers: Providers, yaml: YamlDecoder, store: map<ObjectKey, Secret>, req: ObjectKey, env: Environment)
    ensures Reconciled(providers, yaml, store, req, env).requeue <==>
              Admitted(providers, yaml, env).Some? && env.fetched.Failure?
  {
    var o := Reconciled(providers, yaml, store, req, env);
    if env.pod.Success? && AnnotationKey in env.pod.value.annotations {
      NamespaceCheckIsDead(yaml, env.pod.value);
    }
  }

  /** A failing secret read or a failing write returns the error, emits nothing and changes no secret. */
  lemma StoreFailureIsReturned(providers: Providers, yaml: YamlDecoder, store: map<ObjectKey, Secret>, req: ObjectKey, env: Environment)
    requires Admitted(providers, yaml, env).Some? && env.fetched.Success?
    requires env.secretReadFault.Some? || env.writeFault.Some?
    ensures var o := Reconciled(providers, yaml, store, req, env);
            && !o.requeue && o.emitted == [] && o.store == store
            && o.err == (if env.secretReadFault.Some? then env.secretReadFault else env.writeFault)
  {
  }

  /** An admitted request continues into `Synced`, after the pod lookup. */
  lemma AdmittedContinues(providers: Providers, yaml: YamlDecoder, store: map<ObjectKey, Secret>, req: ObjectKey, env: Environment)
    requires Admitted(providers, yaml, env).Some?
    ensures var o := Synced(store, Admitted(providers, yaml, env).value, env);
            Reconciled(providers, yaml, store, req, env) == o.(calls := [GetPod(req)] + o.calls)
  {
    NamespaceCheckIsDead(yaml, env.pod.value);
  }

  /** A request that is not admitted stops after the pod lookup with no requeue and no secret touched. */
  lemma NotAdmittedStops(providers: Providers, yaml: YamlDecoder, store: map<ObjectKey, Secret>, req: ObjectKey, env: Environment)
    requires Admitted(providers, yaml, env).None?
    ensures var o := Reconciled(providers, yaml, store, req, env);
            && !o.requeue && o.calls == [GetPod(req)] && o.store == store
            && o.emitted in {[], [AnnotationInvalid], [ProviderUnsupported]}
  {
  }

  /**
   * The success event is emitted exactly when every step succeeds, and then
   * only after the write: the last call is the write of the target secret,
   * an update when it was stored and a create when it was not.
   */
  lemma SuccessIffAllStepsSucceed(providers: Providers, yaml: YamlDecoder, store: map<ObjectKey, Secret>, req: ObjectKey, env: Environment)
    ensures var o := Reconciled(providers, yaml, store, req, env);
            SecretSyncSuccess in o.emitted <==>
              Admitted(providers, yaml, env).Some? && env.fetched.Success?
              && env.secretReadFault.None? && env.writeFault.None?
    ensures var o := Reconciled(providers, yaml, store, req, env);
            SecretSyncSuccess in o.emitted ==>
              var key := TargetKey(Admitted(providers, yaml, env).value);
              && o.emitted == [SecretSyncSuccess] && !o.requeue && o.err == None
              && o.calls[|o.calls| - 1] == (if key in store then UpdateSecret(key) else CreateSecret(key))
  {
    if Admitted(providers, yaml, env).Some? {
      AdmittedContinues(providers, yaml, store, req, env);
    } else {
      NotAdmittedStops(providers, yaml, store, req, env);
    }
  }

  /** At most one event per reconciliation, and never SecretSyncFailed. */
  lemma AtMostOneEvent(providers: Providers, yaml: YamlDecoder, store: map<ObjectKey, Secret>, req: ObjectKey, env: Environment)
    ensures var o := Reconciled(providers, yaml, store, req, env);
            |o.emitted| <= 1 && SecretSyncFailed !in o.emitted
  {
  }

  /**
   * What a successful reconciliation writes: the secret named by the request,
   * in the pod's namespace, becomes the stored one (or an empty one) stamped
   * by `Stamped` with the source path, the timestamp and the merged payload;
   * no other secret changes. `Stamped` keeps the other labels, annotations
   * and stored data.
   */
  lemma WrittenSecret(providers: Providers, yaml: YamlDecoder, store: map<ObjectKey, Secret>, req: ObjectKey, env: Environment)
    requires SecretSyncSuccess in Reconciled(providers, yaml, store, req, env).emitted
    ensures Admitted(providers, yaml, env).Some? && env.fetched.Success?
    ensures var sr := Admitted(providers, yaml, env).value;
            var key := TargetKey(sr);
            var base := if key in store then store[key] else EmptySecret(key);
            && key.namespace == env.pod.value.namespace
            && Reconciled(providers, yaml, store, req, env).store
                 == store[key := Stamped(base, sr.secretPath, env.syncedAt, MergedData(sr.keyMapping, env.fetched.value))]
  {
    SuccessIffAllStepsSucceed(providers, yaml, store, req, env);
    AdmittedContinues(providers, yaml, store, req, env);
    NamespaceCheckIsDead(yaml, env.pod.value);
  }

  /** The second half reads and writes only the target secret. */
  lemma SyncedTouchesOnlyTarget(store: map<ObjectKey, Secret>, sr: SecretSyncRequest, env: Environment)
    ensures var o := Synced(store, sr, env);
            && (forall i :: 0 <= i < |o.calls| && !o.calls[i].FetchSecret? ==> !o.calls[i].GetPod? && o.calls[i].key == TargetKey(sr))
            && (forall k :: k != TargetKey(sr) ==> (k in o.store <==> k in store) && (k in store ==> o.store[k] == store[k]))
  {
  }

  /**
   * Namespace isolation: every secret the reconciliation reads or writes is
   * in the pod's namespace, and secrets of other namespaces are untouched.
   */
  lemma StaysInPodNamespace(providers: Providers, yaml: YamlDecoder, store: map<ObjectKey, Secret>, req: ObjectKey, env: Environment)
    ensures var o := Reconciled(providers, yaml, store, req, env);
            forall i :: 0 <= i < |o.calls| && !o.calls[i].GetPod? && !o.calls[i].FetchSecret? ==>
              env.pod.Success? && o.calls[i].key.namespace == env.pod.value.namespace
    ensures var o := Reconciled(providers, yaml, store, req, env);
            forall k: ObjectKey :: (env.pod.Failure? || k.namespace != env.pod.value.namespace) ==>
              (k in o.store <==> k in store) && (k in store ==> o.store[k] == store[k])
  {
    if Admitted(providers, yaml, env).Some? {
      AdmittedContinues(providers, yaml, store, req, env);
      var sr := Admitted(providers, yaml, env).value;
      NamespaceCheckIsDead(yaml, env.pod.value);
      SyncedTouchesOnlyTarget(store, sr, env);
      var o := Reconciled(providers, yaml, store, req, env);
      forall i | 0 <= i < |o.calls| && !o.calls[i].GetPod? && !o.calls[i].FetchSecret?
        ensures o.calls[i].key.namespace == env.pod.value.namespace
      {
        assert o.calls[i] == Synced(store, sr, env).calls[i - 1];
      }
    } else {
      NotAdmittedStops(providers, yaml, store, req, env);
    }
  }

  /**
   * With a pod lookup that answers for the requested key (as r.Get on
   * req.NamespacedName does), every secret read or written lies in the
   * request's namespace, and other namespaces are untouched.
   */
  lemma StaysInRequestNamespace(providers: Providers, yaml: YamlDecoder, store: map<ObjectKey, Secret>, req: ObjectKey, env: Environment)
    requires PodMatchesRequest(req, env)
    ensures var o := Reconciled(providers, yaml, store, req, env);
            forall i :: 0 <= i < |o.calls| && !o.calls[i].FetchSecret? ==> o.calls[i].key.namespace == req.namespace
    ensures var o := Reconciled(providers, yaml, store, req, env);
            forall k: ObjectKey :: k.namespace != req.namespace ==>
              (k in o.store <==> k in store) && (k in store ==> o.store[k] == store[k])
  {
    StaysInPodNamespace(providers, yaml, store, req, env);
    if Admitted(providers, yaml, env).Some? {
      AdmittedContinues(providers, yaml, store, req, env);
      var sr := Admitted(providers, yaml, env).value;
      SyncedTouchesOnlyTarget(store, sr, env);
      var o := Reconciled(providers, yaml, store, req, env);
      forall i | 0 < i < |o.calls|
        ensures !o.calls[i].GetPod?
      {
        assert o.calls[i] == Synced(store, sr, env).calls[i - 1];
      }
    } else {
      NotAdmittedStops(providers, yaml, store, req, env);
    }
  }

  /** Reconciliation keeps every secret under its own namespaced name. */
  lemma ReconcileKeepsWellKeyed(providers: Providers, yaml: YamlDecoder, store: map<ObjectKey, Secret>, req: ObjectKey, env: Environment)
    requires WellKeyed(store)
    ensures WellKeyed(Reconciled(providers, yaml, store, req, env).store)
  {
    if Admitted(providers, yaml, env).Some? {
      AdmittedContinues(providers, yaml, store, req, env);
    } else {
      NotAdmittedStops(providers, yaml, store, req, env);
    }
  }

  /** Stamping an already stamped secret again with the same path and payload only moves its timestamp. */
  lemma RestampOnlyMovesTimestamp(base: Secret, sourcePath: string, first: string, later: string, data: map<string, string>)
    ensures var s1 := Stamped(base, sourcePath, first, data);
            Stamped(s1, sourcePath, later, data) == s1.(annotations := s1.annotations[SyncedAtAnnotation := later])
  {
    var s1 := Stamped(base, sourcePath, first, data);
    assert s1.labels[ManagedByLabel := ManagedByValue] == s1.labels;
    assert s1.annotations[SourcePathAnnotation := sourcePath][SyncedAtAnnotation := later]
        == s1.annotations[SyncedAtAnnotation := later];
  }

  /** The second half of a reconciliation, run again on the state its success left, updates the same secret. */
  lemma ResyncedSecret(store: map<ObjectKey, Secret>, sr: SecretSyncRequest, env: Environment, later: string)
    requires Synced(store, sr, env).emitted == [SecretSyncSuccess]
    ensures var o1 := Synced(store, sr, env);
            var o2 := Synced(o1.store, sr, env.(syncedAt := later));
            var key := TargetKey(sr);
            && key in o1.store
            && o2 == Outcome(false, None, [SecretSyncSuccess],
                             [FetchSecret(sr.provider, sr.secretPath), GetSecret(key), UpdateSecret(key)],
                             o1.store[key := o1.store[key].(annotations := o1.store[key].annotations[SyncedAtAnnotation := later])])
  {
    var key := TargetKey(sr);
    assert env.fetched.Success? && env.secretReadFault.None? && env.writeFault.None?;
    var data := MergedData(sr.keyMapping, env.fetched.value);
    var base := if key in store then store[key] else EmptySecret(key);
    var s1 := Stamped(base, sr.secretPath, env.syncedAt, data);
    var store1 := store[key := s1];
    assert Synced(store, sr, env).store == store1;
    RestampOnlyMovesTimestamp(base, sr.secretPath, env.syncedAt, later, data);
    assert Synced(store1, sr, env.(syncedAt := later)).store
        == store1[key := Stamped(s1, sr.secretPath, later, data)];
  }

  /**
   * Idempotence: running the same reconciliation again on the state the
   * first run left, with only the clock advanced, succeeds again, updates
   * the same secret, and changes nothing but its synced-at annotation.
   */
  lemma ResyncOnlyAdvancesTimestamp(providers: Providers, yaml: YamlDecoder, store: map<ObjectKey, Secret>, req: ObjectKey,
                                    env: Environment, later: string)
    requires SecretSyncSuccess in Reconciled(providers, yaml, store, req, env).emitted
    ensures Admitted(providers, yaml, env).Some?
    ensures var o1 := Reconciled(providers, yaml, store, req, env);
            var o2 := Reconciled(providers, yaml, o1.store, req, env.(syncedAt := later));
            var key := TargetKey(Admitted(providers, yaml, env).value);
            && o2.emitted == [SecretSyncSuccess]
            && o2.calls[|o2.calls| - 1] == UpdateSecret(key)
            && key in o1.store
            && o2.store == o1.store[key := o1.store[key].(annotations := o1.store[key].annotations[SyncedAtAnnotation := later])]
  {
    var env2 := env.(syncedAt := later);
    SuccessIffAllStepsSucceed(providers, yaml, store, req, env);
    assert Admitted(providers, yaml, env2) == Admitted(providers, yaml, env);
    var sr := Admitted(providers, yaml, env).value;
    AdmittedContinues(providers, yaml, store, req, env);
    var o1 := Reconciled(providers, yaml, store, req, env);
    AdmittedContinues(providers, yaml, o1.store, req, env2);
    ResyncedSecret(store, sr, env, later);
  }

  /** A pod's key is in the filtered list exactly when some listed pod with that key requests the secret. */
  lemma {:induction false} PodsRequestingMembership(yaml: YamlDecoder, pods: seq<Pod>, secretName: string, k: ObjectKey)
    ensures k in PodsRequesting(yaml, pods, secretName) <==>
              exists i :: 0 <= i < |pods| && PodKey(pods[i]) == k && RequestsSecret(yaml, pods[i], secretName)
  {
    if pods != [] {
      var n := |pods| - 1;
      var prefix := pods[..n];
      PodsRequestingMembership(yaml, prefix, secretName, k);
      if k in PodsRequesting(yaml, prefix, secretName) {
        var i :| 0 <= i < |prefix| && PodKey(prefix[i]) == k && RequestsSecret(yaml, prefix[i], secretName);
        assert pods[i] == prefix[i];
      }
      if exists i :: 0 <= i < |pods| && PodKey(pods[i]) == k && RequestsSecret(yaml, pods[i], secretName) {
        var i :| 0 <= i < |pods| && PodKey(pods[i]) == k && RequestsSecret(yaml, pods[i], secretName);
        if i < n {
          assert prefix[i] == pods[i];
        }
      }
    }
  }

  /**
   * Reverse lookup finds the writer: after a successful reconciliation, the
   * secret it wrote is managed, and when that secret changes, listing its
   * namespace (which holds the pod) yields the pod's key again.
   */
  lemma WrittenSecretLeadsBackToPod(providers: Providers, yaml: YamlDecoder, store: map<ObjectKey, Secret>, req: ObjectKey,
                                    env: Environment, pods: seq<Pod>)
    requires WellKeyed(store)
    requires SecretSyncSuccess in Reconciled(providers, yaml, store, req, env).emitted
    requires env.pod.Success? && env.pod.value in pods
    ensures var s := Reconciled(providers, yaml, store, req, env).store[TargetKey(Admitted(providers, yaml, env).value)];
            && IsManaged(s)
            && PodKey(env.pod.value) in PodsToRequeue(yaml, s, Success(pods))
  {
    WrittenSecret(providers, yaml, store, req, env);
    var sr := Admitted(providers, yaml, env).value;
    var key := TargetKey(sr);
    var s := Reconciled(providers, yaml, store, req, env).store[key];
    assert SecretKey(s) == key by {
      if key in store {
        assert SecretKey(store[key]) == key;
      }
    }
    var pod := env.pod.value;
    var i :| 0 <= i < |pods| && pods[i] == pod;
    assert RequestsSecret(yaml, pods[i], s.name);
    PodsRequestingMembership(yaml, pods, s.name, PodKey(pod));
  }
}
