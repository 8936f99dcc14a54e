/** The content store client: configuration from the environment, the client
    that exists only when the store is configured, and the fail-soft fetch
    that substitutes caller-supplied sample data for any failure. */
module Sanity {
  import opened Wrappers
  import Queries

  /** The environment variables the client reads; each may be unset. */
  datatype Environment = Environment(
    projectId: Option<string>,    // NEXT_PUBLIC_SANITY_PROJECT_ID
    dataset: Option<string>,      // NEXT_PUBLIC_SANITY_DATASET
    apiVersion: Option<string>,   // NEXT_PUBLIC_SANITY_API_VERSION
    nodeEnv: Option<string>,      // NODE_ENV
    readToken: Option<string>)    // SANITY_READ_TOKEN

  datatype ClientConfig = ClientConfig(
    projectId: string,
    dataset: string,
    apiVersion: string,
    useCdn: bool,
    token: Option<string>)

  /** An environment value is truthy when it is set and not empty. */
  predicate Truthy(v: Option<string>) {
    v.Some? && v.value != ""
  }

  /** `v || fallback` */
  function OrElse(v: Option<string>, fallback: string): (r: string)
    ensures Truthy(v) ==> r == v.value
    ensures !Truthy(v) ==> r == fallback
  {
    if Truthy(v) then v.value else fallback
  }

  /** `isSanityConfigured()`: both the project id and the dataset are set to
      non-empty strings. */
  predicate IsSanityConfigured(env: Environment)
    ensures IsSanityConfigured(env) <==>
      && env.projectId.Some? && |env.projectId.value| > 0
      && env.dataset.Some? && |env.dataset.value| > 0
  {
    Truthy(env.projectId) && Truthy(env.dataset)
  }

  /** The client configuration, with its defaults. */
  function Config(env: Environment): (c: ClientConfig)
    ensures c.projectId == (if Truthy(env.projectId) then env.projectId.value else "")
    ensures c.dataset == (if Truthy(env.dataset) then env.dataset.value else "production")
    ensures c.apiVersion == (if Truthy(env.apiVersion) then env.apiVersion.value else "2024-01-01")
    ensures c.useCdn <==> env.nodeEnv == Some("production")
    ensures c.token == env.readToken
  {
    ClientConfig(
      OrElse(env.projectId, ""),
      OrElse(env.dataset, "production"),
      OrElse(env.apiVersion, "2024-01-01"),
      env.nodeEnv == Some("production"),
      env.readToken)
  }

  /** `sanityClient`: built once from the environment, absent when unconfigured.
      The client is modelled by its configuration. */
  function SanityClient(env: Environment): (client: Option<ClientConfig>)
    ensures client.None? <==> !IsSanityConfigured(env)
    ensures client.Some? ==> client.value == Config(env)
  {
    if IsSanityConfigured(env) then Some(Config(env)) else None
  }

  /** A client that exists uses the environment's own project and dataset:
      the empty-project and "production" defaults never reach a live client. */
  lemma LiveClientUsesEnvironment(env: Environment)
    requires SanityClient(env).Some?
    ensures SanityClient(env).value.projectId == env.projectId.value != ""
    ensures SanityClient(env).value.dataset == env.dataset.value != ""
  {
  }

  /** The remote store, as seen through a client: the outcome of running a
      query with parameters. */
  type Store<T> = (ClientConfig, Queries.Query, Queries.Params) -> Result<T>

  /** `fetchFromSanity(query, params, mockData)`. */
  function FetchFromSanity<T(==)>(
    client: Option<ClientConfig>, query: Queries.Query, params: Queries.Params, mockData: T, store: Store<T>): (r: T)
    ensures r == mockData || (client.Some? && store(client.value, query, params) == Ok(r))
    ensures client.None? ==> r == mockData
    ensures client.Some? && store(client.value, query, params).Ok? ==> r == store(client.value, query, params).value
    ensures client.Some? && store(client.value, query, params).Err? ==> r == mockData
  {
    match client
    case None => mockData
    case Some(c) =>
      match store(c, query, params)
      case Ok(data) => data
      case Err(_) => mockData
  }

  /** Without a client the store is never consulted: any two stores give the
      same answer, the sample data. */
  lemma UnconfiguredNeverFetches<T>(
    env: Environment, query: Queries.Query, params: Queries.Params, mockData: T, s1: Store<T>, s2: Store<T>)
    requires !IsSanityConfigured(env)
    ensures FetchFromSanity(SanityClient(env), query, params, mockData, s1) == mockData
    ensures FetchFromSanity(SanityClient(env), query, params, mockData, s1) ==
            FetchFromSanity(SanityClient(env), query, params, mockData, s2)
  {
  }
}
