/**
 * The provider interface and registry (internal/provider/provider.go).
 */
module Provider {
  import opened Wrappers
  import Aws = AwsSecretsManager

  /**
   * A SecretProvider as the registry sees it: the value its Name() returns,
   * and an opaque identity standing for the implementation object (two
   * providers with the same name may still be different objects).
   */
  datatype SecretProvider = SecretProvider(name: string, instance: nat)

  /** The AWS provider viewed through the interface. */
  function FromAws(p: Aws.AwsSecretsManagerProvider): (sp: SecretProvider)
    ensures sp.name == "aws-secretsmanager"
  {
    SecretProvider(Aws.Name(p), p.client)
  }

  /** The name -> provider map; Register updates it in place. */
  class ProviderRegistry {
    var providers: map<string, SecretProvider>

    /** NewProviderRegistry: the registry starts empty. */
    constructor ()
      ensures providers == map[]
      ensures forall name :: Get(name) == None
    {
      providers := map[];
    }

    /**
     * Register stores the provider under its own name; an earlier entry with
     * that name is overwritten, entries under other names stay as they were.
     */
    method Register(p: SecretProvider)
      modifies this
      ensures providers == old(providers)[p.name := p]
      ensures Get(p.name) == Some(p)
      ensures providers.Keys == old(providers).Keys + {p.name}
      ensures forall name :: name != p.name ==> Get(name) == old(Get(name))
    {
      providers := providers[p.name := p];
    }

    /** Get: the provider registered under `name`, or None (Go's nil). */
    function Get(name: string): (r: Option<SecretProvider>)
      reads this
      ensures r.Some? <==> name in providers
      ensures r.Some? ==> r.value == providers[name] && r.value in providers.Values
    {
      if name in providers then Some(providers[name]) else None
    }

    /** List: every registered name exactly once, in no particular order. */
    method List() returns (names: seq<string>)
      ensures forall name :: name in names <==> name in providers
      ensures forall i, j :: 0 <= i < j < |names| ==> names[i] != names[j]
      ensures |names| == |providers|
    {
      names := [];
      var rest := providers.Keys;
      while rest != {}
        invariant rest <= providers.Keys
        invariant forall name :: name in names <==> name in providers.Keys - rest
        invariant forall i, j :: 0 <= i < j < |names| ==> names[i] != names[j]
        invariant |names| + |rest| == |providers.Keys|
        decreases rest
      {
        var name :| name in rest;
        assert name !in names;
        names := names + [name];
        rest := rest - {name};
      }
    }
  }

  /**
   * DefaultProviderRegistry: `awsConfig` is the outcome of loading the AWS
   * configuration. Either the error is passed on and no registry is built, or
   * the registry holds exactly the AWS provider.
   */
  method DefaultProviderRegistry(awsConfig: Result<Aws.ClientHandle, string>)
    returns (r: Result<ProviderRegistry, string>)
    ensures r.Success? <==> awsConfig.Success?
    ensures r.Success? ==> fresh(r.value)
    ensures r.Success? ==> r.value.providers == map[Aws.ProviderName := SecretProvider(Aws.ProviderName, awsConfig.value)]
  {
    var registry := new ProviderRegistry();
    var aws := Aws.NewAwsSecretsManagerProvider(awsConfig);
    if aws.Failure? {
      return Failure("failed to create AWS provider: " + aws.error);
    }
    registry.Register(FromAws(aws.value));
    return Success(registry);
  }
}
