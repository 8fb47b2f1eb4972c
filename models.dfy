/**
  The module manager and its builder: one optional store configuration,
  which `Build` requires and then turns into a store.
 */
module Models {
  import opened Wrappers

  /** The Firebase store: the key and url it was made from. */
  datatype Store = Store(key: string, url: string)

  /** `Connection` carries the Firebase url-parse error's message. */
  datatype StoreError = Connection(reason: string)

  /** `RequestError` carries the Firebase request error's message. */
  datatype ModelError =
    | InvalidConfiguration
    | StoreError(cause: StoreError)
    | RequestError(reason: string)

  /**
    `Store::with_key_url`. `firebaseNew` stands for `Firebase::new`, whose
    client is discarded: only its failure matters, and the store keeps the key
    and url exactly as given.
   */
  function WithKeyUrl<F>(key: string, url: string, firebaseNew: string -> Result<F, string>)
    : (r: Result<Store, StoreError>)
    ensures r.Ok? <==> firebaseNew(url).Ok?
    ensures r.Ok? ==> r.value.key == key && r.value.url == url
    ensures r.Err? ==> r.error == Connection(firebaseNew(url).error)
  {
    match firebaseNew(url)
    case Err(why) => Err(Connection(why))
    case Ok(_) => Ok(Store(key, url))
  }

  datatype ModuleManager = ModuleManager(store: Store)

  datatype ModuleManagerBuilder = ModuleManagerBuilder(fireStoreConfig: Option<Store>)
  {
    function FireStoreConfig(config: Store): (b: ModuleManagerBuilder)
      ensures b.fireStoreConfig == Some(config)
    {
      this.(fireStoreConfig := Some(config))
    }

    /**
      A missing configuration is `InvalidConfiguration`; a store that cannot be
      made is a `StoreError`; otherwise the manager's store holds exactly the
      configured key and url.
     */
    function Build<F>(firebaseNew: string -> Result<F, string>): (r: Result<ModuleManager, ModelError>)
      ensures fireStoreConfig.None? ==> r == Err(InvalidConfiguration)
      ensures fireStoreConfig.Some? && firebaseNew(fireStoreConfig.value.url).Err?
              ==> r == Err(StoreError(Connection(firebaseNew(fireStoreConfig.value.url).error)))
      ensures r.Ok? <==> fireStoreConfig.Some? && firebaseNew(fireStoreConfig.value.url).Ok?
      ensures r.Ok? ==> r.value.store == fireStoreConfig.value
    {
      match fireStoreConfig
      case None => Err(InvalidConfiguration)
      case Some(config) =>
        match WithKeyUrl(config.key, config.url, firebaseNew)
        case Err(e) => Err(StoreError(e))
        case Ok(store) => Ok(ModuleManager(store))
    }
  }

  /** `ModuleManagerBuilder::new`, also reached through `ModuleManager::builder`. */
  function NewBuilder(): (b: ModuleManagerBuilder)
    ensures b.fireStoreConfig.None?
  {
    ModuleManagerBuilder(None)
  }

  /** Setting the configuration again replaces the earlier value. */
  lemma LaterConfigWins(b: ModuleManagerBuilder, c1: Store, c2: Store)
    ensures b.FireStoreConfig(c1).FireStoreConfig(c2) == b.FireStoreConfig(c2)
  {
  }

  /** Without a configuration the store is never constructed: `firebaseNew` plays no part. */
  lemma BuildWithoutConfigSkipsStore<F>(f1: string -> Result<F, string>, f2: string -> Result<F, string>)
    ensures NewBuilder().Build(f1) == NewBuilder().Build(f2) == Err(InvalidConfiguration)
  {
  }

  /** A configured builder builds from the last configuration it was given. */
  lemma BuildUsesConfig<F>(b: ModuleManagerBuilder, config: Store, firebaseNew: string -> Result<F, string>)
    requires firebaseNew(config.url).Ok?
    ensures b.FireStoreConfig(config).Build(firebaseNew) == Ok(ModuleManager(config))
  {
  }
}
