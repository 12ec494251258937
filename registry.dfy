/**
 * contracts/registry: a registry of published contract binaries. For every
 * contract name it records an author, the most recent version, and for every
 * (name, version) the binary's hash and metadata.
 *
 * The registry's `Version` type, its `update`, its `Default` and the constant
 * `INITAL_VERSION` come from a module that is not part of this model; here
 * versions and update kinds are abstract types and the three are the fields
 * of a `VersionScheme`. Authorisation by `require_auth` is assumed to pass,
 * and the deployer's upload of a binary is the oracle `upload`.
 */
module Registry {
  import opened Soroban

  datatype Error = NoSuchVersion | AlreadyPublished

  /** The registry's version numbers and update kinds, left uninterpreted. */
  type Version(==)
  type Update(==)

  /** `Version::default()`, `Version::update`, `Update::default()` and `INITAL_VERSION`. */
  datatype VersionScheme = VersionScheme(default: Version, update: (Version, Update) -> Version,
                                         defaultUpdate: Update, initial: Version)

  datatype Metadata = Metadata(repo: string)

  /** `Metadata::default()`: an empty repository. */
  const DefaultMetadata := Metadata("")

  /** What is stored for one published version. */
  datatype Wasm = Wasm(hash: Bytes, metadata: Metadata)

  /** The version a publication gets: the update of the most recent one, or of the default version when there is none. */
  function NextVersion(scheme: VersionScheme, mostRecent: map<string, Version>, name: string, kind: Option<Update>): (v: Version)
    ensures name !in mostRecent ==> v == scheme.update(scheme.default, kind.GetOr(scheme.defaultUpdate))
    ensures name in mostRecent ==> v == scheme.update(mostRecent[name], kind.GetOr(scheme.defaultUpdate))
  {
    scheme.update(Lookup(mostRecent, name, scheme.default), kind.GetOr(scheme.defaultUpdate))
  }

  /**
   * The metadata of a new publication: the repository given, else the default
   * metadata for a first version, else what the previous version had, which
   * must then exist.
   */
  function NewMetadata(scheme: VersionScheme, versions: map<(string, Version), Wasm>, name: string,
                       last: Version, next: Version, repo: Option<string>): (r: Result<Metadata, Error>)
    ensures repo.Some? ==> r == Ok(Metadata(repo.value))
    ensures repo.None? && next == scheme.initial ==> r == Ok(DefaultMetadata)
    ensures repo.None? && next != scheme.initial ==>
      r == if (name, last) in versions then Ok(versions[(name, last)].metadata) else Err(NoSuchVersion)
    ensures r.Err? ==> r == Err(NoSuchVersion)
  {
    if repo.Some? then Ok(Metadata(repo.value))
    else if next == scheme.initial then Ok(DefaultMetadata)
    else if (name, last) in versions then Ok(versions[(name, last)].metadata)
    else Err(NoSuchVersion)
  }

  /** The three persistent maps of `PublishedWasm`. */
  class PublishedWasm {
    var versions: map<(string, Version), Wasm>
    var author: map<string, Address>
    var mostRecentVersion: map<string, Version>

    /** `Default`: nothing published. */
    constructor Empty()
      ensures versions == map[] && author == map[] && mostRecentVersion == map[]
    {
      versions, author, mostRecentVersion := map[], map[], map[];
    }

    /** `PublishedWasm::new`: nothing published, and the name's author recorded. */
    constructor New(name: string, author: Address)
      ensures versions == map[] && this.author == map[name := author] && mostRecentVersion == map[]
    {
      versions, this.author, mostRecentVersion := map[], map[name := author], map[];
    }

    /** The most recent version of a name, or `NoSuchVersion` when it has none. */
    function MostRecentVersion(name: string): (r: Result<Version, Error>)
      reads this
      ensures r.Ok? <==> name in mostRecentVersion
      ensures r.Ok? ==> r.value == mostRecentVersion[name]
      ensures r.Err? ==> r.error == NoSuchVersion
    {
      Soroban.Get(mostRecentVersion, name).OkOr(NoSuchVersion)
    }

    method SetMostRecentVersion(name: string, version: Version)
      modifies this
      ensures mostRecentVersion == old(mostRecentVersion)[name := version]
      ensures versions == old(versions) && author == old(author)
    {
      mostRecentVersion := mostRecentVersion[name := version];
    }

    /** The binary of a given version, or of the most recent one; `NoSuchVersion` when either is missing. */
    function Get(name: string, version: Option<Version>): (r: Result<Wasm, Error>)
      reads this
      ensures version.Some? ==> (r.Ok? <==> (name, version.value) in versions)
      ensures version.None? ==> (r.Ok? <==> name in mostRecentVersion && (name, mostRecentVersion[name]) in versions)
      ensures r.Ok? && version.Some? ==> r.value == versions[(name, version.value)]
      ensures r.Ok? && version.None? ==> r.value == versions[(name, mostRecentVersion[name])]
      ensures r.Err? ==> r.error == NoSuchVersion
    {
      var v :- if version.Some? then Ok(version.value) else MostRecentVersion(name);
      Soroban.Get(versions, (name, v)).OkOr(NoSuchVersion)
    }

    /** Stores a binary under a given version, or under the most recent one, which must then exist. */
    method Set(name: string, version: Option<Version>, binary: Wasm) returns (r: Result<(), Error>)
      modifies this
      ensures r == if version.None? && name !in mostRecentVersion then Err(NoSuchVersion) else Ok(())
      ensures r.Ok? && version.Some? ==> versions == old(versions)[(name, version.value) := binary]
      ensures r.Ok? && version.None? ==> versions == old(versions)[(name, mostRecentVersion[name]) := binary]
      ensures r.Err? ==> versions == old(versions)
      ensures author == old(author) && mostRecentVersion == old(mostRecentVersion)
    {
      var v;
      if version.Some? {
        v := version.value;
      } else {
        var recent := MostRecentVersion(name);
        if recent.Err? {
          return Err(recent.error);
        }
        v := recent.value;
      }
      versions := versions[(name, v) := binary];
      r := Ok(());
    }

    function Author(name: string): (r: Option<Address>)
      reads this
      ensures r.Some? <==> name in author
      ensures r.Some? ==> r.value == author[name]
    {
      Soroban.Get(author, name)
    }

    /** `fetch`: exactly `get`. */
    function Fetch(contractName: string, version: Option<Version>): (r: Result<Wasm, Error>)
      reads this
      ensures version.Some? ==> (r.Ok? <==> (contractName, version.value) in versions)
      ensures version.Some? && r.Ok? ==> r.value == versions[(contractName, version.value)]
      ensures version.None? ==> (r.Ok? <==> contractName in mostRecentVersion && (contractName, mostRecentVersion[contractName]) in versions)
      ensures version.None? && r.Ok? ==> r.value == versions[(contractName, mostRecentVersion[contractName])]
      ensures r.Err? ==> r.error == NoSuchVersion
    {
      Get(contractName, version)
    }

    /** `current_version`: exactly `most_recent_version`. */
    function CurrentVersion(contractName: string): (r: Result<Version, Error>)
      reads this
      ensures r.Ok? <==> contractName in mostRecentVersion
      ensures r.Ok? ==> r.value == mostRecentVersion[contractName]
      ensures r.Err? ==> r.error == NoSuchVersion
    {
      MostRecentVersion(contractName)
    }

    /**
     * `publish_hash`: refused when another author is recorded for the name;
     * otherwise the next version of the name becomes its most recent, with
     * the hash and the metadata `NewMetadata` chooses. The author map is
     * never written.
     */
    method PublishHash(scheme: VersionScheme, wasmName: string, author: Address, wasmHash: Bytes,
                       repo: Option<string>, kind: Option<Update>) returns (r: Result<(), Error>)
      modifies this
      ensures this.author == old(this.author)
      ensures wasmName in old(this.author) && old(this.author)[wasmName] != author ==> r == Err(AlreadyPublished)
      ensures var last := Lookup(old(mostRecentVersion), wasmName, scheme.default);
              var next := NextVersion(scheme, old(mostRecentVersion), wasmName, kind);
              var metadata := NewMetadata(scheme, old(versions), wasmName, last, next, repo);
        && (r.Ok? <==> (wasmName in old(this.author) ==> old(this.author)[wasmName] == author) && metadata.Ok?)
        && (r.Ok? ==>
              && mostRecentVersion == old(mostRecentVersion)[wasmName := next]
              && versions == old(versions)[(wasmName, next) := Wasm(wasmHash, metadata.value)])
        && ((wasmName !in old(this.author) || old(this.author)[wasmName] == author) && metadata.Err? ==> r == Err(NoSuchVersion))
      ensures r.Ok? ==> CurrentVersion(wasmName) == Ok(NextVersion(scheme, old(mostRecentVersion), wasmName, kind))
      ensures r.Ok? ==> Fetch(wasmName, None).Ok? && Fetch(wasmName, None).value.hash == wasmHash
      ensures r.Err? ==> versions == old(versions) && mostRecentVersion == old(mostRecentVersion)
    {
      var currentAuthor := Author(wasmName);
      if currentAuthor.Some? && author != currentAuthor.value {
        return Err(AlreadyPublished);
      }
      var recent := MostRecentVersion(wasmName);
      var lastVersion := if recent.Ok? then recent.value else scheme.default;
      var newVersion := scheme.update(lastVersion, kind.GetOr(scheme.defaultUpdate));
      var metadata;
      if repo.Some? {
        metadata := Metadata(repo.value);
      } else if newVersion == scheme.initial {
        metadata := DefaultMetadata;
      } else {
        var previous := Get(wasmName, Some(lastVersion));
        if previous.Err? {
          return Err(previous.error);
        }
        metadata := previous.value.metadata;
      }
      var publishedBinary := Wasm(wasmHash, metadata);
      SetMostRecentVersion(wasmName, newVersion);
      r := Set(wasmName, Some(newVersion), publishedBinary);
    }

    /** `publish`: uploads the binary through the deployer, then publishes its hash. */
    method Publish(scheme: VersionScheme, wasmName: string, author: Address, wasm: Bytes,
                   repo: Option<string>, kind: Option<Update>, upload: Bytes -> Bytes) returns (r: Result<(), Error>)
      modifies this
      ensures this.author == old(this.author)
      ensures wasmName in old(this.author) && old(this.author)[wasmName] != author ==> r == Err(AlreadyPublished)
      ensures var last := Lookup(old(mostRecentVersion), wasmName, scheme.default);
              var next := NextVersion(scheme, old(mostRecentVersion), wasmName, kind);
              var metadata := NewMetadata(scheme, old(versions), wasmName, last, next, repo);
        && (r.Ok? <==> (wasmName in old(this.author) ==> old(this.author)[wasmName] == author) && metadata.Ok?)
        && (r.Ok? ==>
              && mostRecentVersion == old(mostRecentVersion)[wasmName := next]
              && versions == old(versions)[(wasmName, next) := Wasm(upload(wasm), metadata.value)])
        && ((wasmName !in old(this.author) || old(this.author)[wasmName] == author) && metadata.Err? ==> r == Err(NoSuchVersion))
      ensures r.Ok? ==> CurrentVersion(wasmName) == Ok(NextVersion(scheme, old(mostRecentVersion), wasmName, kind))
      ensures r.Ok? ==> Fetch(wasmName, None).Ok? && Fetch(wasmName, None).value.hash == upload(wasm)
      ensures r.Err? ==> versions == old(versions) && mostRecentVersion == old(mostRecentVersion)
    {
      var wasmHash := upload(wasm);
      r := PublishHash(scheme, wasmName, author, wasmHash, repo, kind);
    }
  }

  /**
   * A name created with an author refuses anyone else; the author's first
   * publication with a repository becomes the current version, and a second
   * one without a repository inherits that repository while the first stays
   * fetchable, provided the second update makes a new version that is not the
   * initial one.
   */
  method PublishTwice(scheme: VersionScheme, name: string, owner: Address, intruder: Address, h1: Bytes, h2: Bytes)
    returns (refused: Result<(), Error>, first: Result<(), Error>, second: Result<(), Error>,
             latest: Result<Wasm, Error>, older: Result<Wasm, Error>)
    requires owner != intruder
    requires scheme.update(scheme.default, scheme.defaultUpdate) != scheme.update(scheme.update(scheme.default, scheme.defaultUpdate), scheme.defaultUpdate)
    requires scheme.update(scheme.update(scheme.default, scheme.defaultUpdate), scheme.defaultUpdate) != scheme.initial
    ensures refused == Err(AlreadyPublished)
    ensures first.Ok? && second.Ok?
    ensures latest == Ok(Wasm(h2, Metadata("repo")))
    ensures older == Ok(Wasm(h1, Metadata("repo")))
  {
    var registry := new PublishedWasm.New(name, owner);
    refused := registry.PublishHash(scheme, name, intruder, h1, None, None);
    first := registry.PublishHash(scheme, name, owner, h1, Some("repo"), None);
    var v1 := scheme.update(scheme.default, scheme.defaultUpdate);
    second := registry.PublishHash(scheme, name, owner, h2, None, None);
    latest := registry.Fetch(name, None);
    older := registry.Fetch(name, Some(v1));
  }

  /** Without a recorded author, anybody may publish under a name, since publishing never records one. */
  method UnclaimedNameIsOpen(scheme: VersionScheme, name: string, alice: Address, bob: Address, h1: Bytes, h2: Bytes)
    returns (byAlice: Result<(), Error>, byBob: Result<(), Error>, recorded: Option<Address>)
    ensures byAlice.Ok? && byBob.Ok?
    ensures recorded == None
  {
    var registry := new PublishedWasm.Empty();
    byAlice := registry.PublishHash(scheme, name, alice, h1, Some("a"), None);
    byBob := registry.PublishHash(scheme, name, bob, h2, Some("b"), None);
    recorded := registry.Author(name);
  }
}
