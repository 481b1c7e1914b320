/** The `pyproject.toml` document that scaffolding writes, kept as the nested record it is built
    from; its TOML text is produced by a foreign serialiser and is not modelled. */
module Pyproject {
  import opened Common
  import opened PyStr

  /** One `key = "value"` line of a TOML table. */
  datatype Item = Item(key: string, value: string)

  /** A TOML table; the order is the insertion order of the Python dict it is built from. */
  type Table = seq<Item>

  /** `[build-system]` */
  datatype BuildSystem = BuildSystem(buildRequires: seq<string>, buildBackend: string)

  /** `[tool.poetry]`; `devDependencies` is the table `[tool.poetry.group.dev.dependencies]`. */
  datatype Poetry = Poetry(
    name: string,
    version: string,
    description: string,
    authors: seq<string>,
    readme: string,
    dependencies: Table,
    devDependencies: Table)

  datatype Manifest = Manifest(buildSystem: BuildSystem, poetry: Poetry)

  function Keys(t: Table): (ks: seq<string>)
    ensures |ks| == |t| && forall i :: 0 <= i < |t| ==> ks[i] == t[i].key
  {
    if t == [] then [] else [t[0].key] + Keys(t[1..])
  }

  /** A table is well formed when no key occurs twice. */
  predicate DistinctKeys(t: Table)
  {
    forall i, j :: 0 <= i < j < |t| ==> t[i].key != t[j].key
  }

  /** `table[key]`, or None when the key is absent. */
  function Lookup(t: Table, key: string): (r: Option<string>)
    ensures r.None? <==> key !in Keys(t)
    ensures r.Some? ==> Item(key, r.value) in t
  {
    if t == [] then None
    else if t[0].key == key then Some(t[0].value)
    else Lookup(t[1..], key)
  }

  /** `table[key] = value` on a Python dict: an existing key keeps its place and gets the new
      value, a new key is appended last (`PutKeys`). */
  function Put(t: Table, key: string, value: string): Table
  {
    if t == [] then [Item(key, value)]
    else if t[0].key == key then [Item(key, value)] + t[1..]
    else [t[0]] + Put(t[1..], key, value)
  }

  /** The keys after `Put`: unchanged, in order, when the key was there; the key appended last
      otherwise. */
  lemma {:induction false} PutKeys(t: Table, key: string, value: string)
    ensures Keys(Put(t, key, value)) == if key in Keys(t) then Keys(t) else Keys(t) + [key]
  {
    if t != [] && t[0].key != key {
      PutKeys(t[1..], key, value);
      assert Keys([t[0]] + Put(t[1..], key, value))[1..] == Keys(Put(t[1..], key, value));
    }
  }

  /** After assigning a key, looking it up gives the new value. */
  lemma {:induction false} PutThenLookup(t: Table, key: string, value: string)
    ensures Lookup(Put(t, key, value), key) == Some(value)
  {
    if t != [] && t[0].key != key {
      PutThenLookup(t[1..], key, value);
    }
  }

  /** Assigning one key leaves the value of every other key as it was. */
  lemma {:induction false} PutKeepsOthers(t: Table, key: string, value: string, other: string)
    requires other != key
    ensures Lookup(Put(t, key, value), other) == Lookup(t, other)
  {
    if t != [] && t[0].key != key {
      PutKeepsOthers(t[1..], key, value, other);
    }
  }

  /** Assigning a key keeps a table free of duplicate keys. */
  lemma PutKeepsDistinct(t: Table, key: string, value: string)
    requires DistinctKeys(t)
    ensures DistinctKeys(Put(t, key, value))
  {
    var r := Put(t, key, value);
    PutKeys(t, key, value);
    forall i, j | 0 <= i < j < |r| ensures r[i].key != r[j].key {
      assert Keys(r)[i] == r[i].key && Keys(r)[j] == r[j].key;
      assert Keys(t)[i] == t[i].key;
      if j < |t| { assert Keys(t)[j] == t[j].key; }
    }
  }

  const FastapiConstraint := "^0.108.0"

  /** The `[tool.poetry.dependencies]` table before the optional FastAPI entry. */
  function BaseDependencies(pythonVersion: string): Table
  {
    [ Item("python", pythonVersion),
      Item("typer", "^0.9.0"),
      Item("toml", "^0.10.2"),
      Item("colorama", "^0.4.6") ]
  }

  const DevDependencies: Table :=
    [ Item("isort", "^5.13.2"),
      Item("flake8", "^7.0.0"),
      Item("black", "^23.12.1"),
      Item("tox", "^4.11.4"),
      Item("mypy", "^0.910") ]

  /** The dictionary `create_project_structure` assembles, including the in-place addition of
      `fastapi` to the dependencies when the flag is set. */
  function BuildManifest(projectName: string, pythonVersion: string, authorName: string, fastapi: bool): Manifest
  {
    var deps := BaseDependencies(pythonVersion);
    Manifest(
      BuildSystem(["poetry-core"], "poetry.core.masonry.api"),
      Poetry(
        projectName, "0.0.1", "", [Strip(authorName)], "README.md",
        if fastapi then Put(deps, "fastapi", FastapiConstraint) else deps,
        DevDependencies))
  }

  /** The package metadata: the project name as given, version 0.0.1, an empty description,
      the stripped author as the only author and README.md as the readme. */
  lemma ManifestMetadata(projectName: string, pythonVersion: string, authorName: string, fastapi: bool)
    ensures var m := BuildManifest(projectName, pythonVersion, authorName, fastapi);
      && m.buildSystem == BuildSystem(["poetry-core"], "poetry.core.masonry.api")
      && m.poetry.name == projectName && m.poetry.version == "0.0.1" && m.poetry.description == ""
      && m.poetry.authors == [Strip(authorName)] && m.poetry.readme == "README.md"
  {
  }

  /** Assigning a key the table does not hold appends it. */
  lemma {:induction false} PutNew(t: Table, key: string, value: string)
    requires forall i :: 0 <= i < |t| ==> t[i].key != key
    ensures Put(t, key, value) == t + [Item(key, value)]
  {
    if t != [] {
      PutNew(t[1..], key, value);
      calc {
        Put(t, key, value);
        [t[0]] + Put(t[1..], key, value);
        [t[0]] + (t[1..] + [Item(key, value)]);
        { assert t == [t[0]] + t[1..]; }
        t + [Item(key, value)];
      }
    }
  }

  /** The runtime dependencies: the given Python constraint, typer, toml and colorama, then FastAPI
      exactly when the flag is set, as a fifth and last entry; no key occurs twice. */
  lemma ManifestDependencies(projectName: string, pythonVersion: string, authorName: string, fastapi: bool)
    ensures var deps := BuildManifest(projectName, pythonVersion, authorName, fastapi).poetry.dependencies;
      && deps == BaseDependencies(pythonVersion) + (if fastapi then [Item("fastapi", FastapiConstraint)] else [])
      && deps[0] == Item("python", pythonVersion)
      && DistinctKeys(deps)
  {
    var base := BaseDependencies(pythonVersion);
    if fastapi {
      PutNew(base, "fastapi", FastapiConstraint);
    }
    DependenciesDistinct(pythonVersion, fastapi);
  }

  /** No key occurs twice among the runtime dependencies, with or without FastAPI. */
  lemma DependenciesDistinct(pythonVersion: string, fastapi: bool)
    ensures DistinctKeys(BaseDependencies(pythonVersion) + (if fastapi then [Item("fastapi", FastapiConstraint)] else []))
  {
  }

  /** Exactly five development dependencies: isort, flake8, black, tox and mypy. */
  lemma ManifestDevDependencies(projectName: string, pythonVersion: string, authorName: string, fastapi: bool)
    ensures var dev := BuildManifest(projectName, pythonVersion, authorName, fastapi).poetry.devDependencies;
      && Keys(dev) == ["isort", "flake8", "black", "tox", "mypy"]
      && DistinctKeys(dev)
  {
    var ks := Keys(DevDependencies);
    assert |ks| == 5;
    assert ks[0] == "isort" && ks[1] == "flake8" && ks[2] == "black" && ks[3] == "tox" && ks[4] == "mypy";
    DevDependenciesDistinct();
  }

  /** No development dependency is listed twice. */
  lemma DevDependenciesDistinct()
    ensures DistinctKeys(DevDependencies)
  {
  }
}
