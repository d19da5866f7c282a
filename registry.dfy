/**
 * The local model registry: a list of registered model versions, kept in order of
 * registration time, and the name of the active one. Registering assigns the next "v<n>" name
 * unless one is given, refuses a name already taken, and activates the new version when asked
 * to or when none is active; a version can be activated by name or by rolling back a number of
 * steps from the active one. The registry file's contents are the state; the file system (the
 * copies of the model and metadata files, the JSON encoding) is not modelled, except that a
 * missing model artifact is reported by a parameter.
 */
module ModelRegistry {
  import opened Wrappers
  import opened Strings
  import Sorting

  const VERSIONS_DIRECTORY: string := "versions"
  const MODEL_FILE_NAME: string := "model.pkl"
  const METADATA_FILE_NAME: string := "metadata.json"

  /** One registered version: its name, registration time (ISO 8601 text) and file paths relative to the registry. */
  datatype VersionEntry = VersionEntry(version: string, createdAtUtc: string, modelPath: string, metadataPath: string)

  /** The contents of the registry file. */
  datatype Registry = Registry(activeVersion: Option<string>, versions: seq<VersionEntry>)

  /** `ensure_registry`'s initial contents: nothing active, no versions. */
  const EMPTY_REGISTRY: Registry := Registry(None, [])

  /** Why an operation is refused; the first is a `FileNotFoundError`, the others `ValueError`s. */
  datatype RegistryError =
    | ArtifactNotFound(path: string)
    | VersionExists(version: string)
    | VersionNotFound(version: string)
    | InvalidSteps
    | NoVersions
    | NoActiveVersion
    | ActiveVersionMissing(version: string)
    | NotEnoughHistory(steps: int, version: string)

  /** The text each error is raised with. */
  function ErrorMessage(error: RegistryError): string
  {
    match error
    case ArtifactNotFound(path) => "Model artifact not found at " + path
    case VersionExists(version) => "Version '" + version + "' already exists in registry."
    case VersionNotFound(version) => "Version '" + version + "' was not found in registry."
    case InvalidSteps => "Rollback steps must be greater than zero."
    case NoVersions => "Registry has no versions to roll back."
    case NoActiveVersion => "Registry has no active version configured."
    case ActiveVersionMissing(version) => "Active version '" + version + "' was not found in registry versions."
    case NotEnoughHistory(steps, version) =>
      "Cannot roll back " + LongToString(steps) + " step(s) from active version '" + version + "'. Not enough historical versions."
  }

  /** The number of a version named "v" followed by digits only. */
  function NumericVersion(version: string): Option<nat>
  {
    if StartsWith(version, "v") && AllDigits(version[1..]) then Some(DigitsValue(version[1..])) else None
  }

  /** The numbers of the numbered versions, in registry order. */
  function NumericVersions(versions: seq<VersionEntry>): seq<nat>
  {
    if |versions| == 0 then []
    else
      var init := NumericVersions(versions[..|versions| - 1]);
      match NumericVersion(versions[|versions| - 1].version)
      case Some(n) => init + [n]
      case None => init
  }

  /** `max(numbers, default=0)` */
  function MaxOf(numbers: seq<nat>): (m: nat)
    ensures forall i :: 0 <= i < |numbers| ==> numbers[i] <= m
    ensures m == 0 || exists i :: 0 <= i < |numbers| && numbers[i] == m
  {
    if |numbers| == 0 then 0
    else
      var init := MaxOf(numbers[..|numbers| - 1]);
      var last := numbers[|numbers| - 1];
      assert forall i :: 0 <= i < |numbers| - 1 ==> numbers[..|numbers| - 1][i] == numbers[i];
      if last > init then last else init
  }

  /** `next_version`: "v" and one more than the highest version number, "v1" when there is none. */
  function NextVersionName(versions: seq<VersionEntry>): string
  {
    "v" + NatToString(MaxOf(NumericVersions(versions)) + 1)
  }

  /** Every numbered version's number is among the collected numbers. */
  lemma {:induction false} NumericVersionsComplete(versions: seq<VersionEntry>, i: int)
    requires 0 <= i < |versions| && NumericVersion(versions[i].version).Some?
    ensures NumericVersion(versions[i].version).value in NumericVersions(versions)
  {
    var init := versions[..|versions| - 1];
    if i < |versions| - 1 {
      assert init[i] == versions[i];
      NumericVersionsComplete(init, i);
    }
  }

  /**
   * The next version name is "v" followed by digits, numbered above every numbered version,
   * and so differs from every registered name.
   */
  lemma NextVersionIsNew(versions: seq<VersionEntry>)
    ensures var name := NextVersionName(versions);
      && NumericVersion(name) == Some(MaxOf(NumericVersions(versions)) + 1)
      && (forall i :: 0 <= i < |versions| && NumericVersion(versions[i].version).Some? ==>
            NumericVersion(versions[i].version).value < NumericVersion(name).value)
      && forall i :: 0 <= i < |versions| ==> versions[i].version != name
  {
    NextVersionNumber(versions);
    NumberedAtMostMax(versions);
  }

  lemma NextVersionNumber(versions: seq<VersionEntry>)
    ensures NumericVersion(NextVersionName(versions)) == Some(MaxOf(NumericVersions(versions)) + 1)
  {
    var m := MaxOf(NumericVersions(versions));
    var name := NextVersionName(versions);
    assert name[1..] == NatToString(m + 1);
    DigitsRoundTrip(m + 1);
  }

  lemma NumberedAtMostMax(versions: seq<VersionEntry>)
    ensures forall i :: 0 <= i < |versions| && NumericVersion(versions[i].version).Some? ==>
      NumericVersion(versions[i].version).value <= MaxOf(NumericVersions(versions))
  {
    forall i | 0 <= i < |versions| && NumericVersion(versions[i].version).Some?
      ensures NumericVersion(versions[i].version).value <= MaxOf(NumericVersions(versions))
    {
      NumericVersionsComplete(versions, i);
    }
  }

  /** Index of the first entry named `version`, or -1. */
  function IndexOfVersion(versions: seq<VersionEntry>, version: string): (k: int)
    ensures -1 <= k < |versions|
    ensures k >= 0 ==> versions[k].version == version
    ensures forall i :: 0 <= i < |versions| && (k < 0 || i < k) ==> versions[i].version != version
  {
    if |versions| == 0 then -1
    else if versions[0].version == version then 0
    else
      var k := IndexOfVersion(versions[1..], version);
      if k < 0 then -1 else k + 1
  }

  /** `find_version_entry`: the first entry named `version`. */
  function FindVersionEntry(versions: seq<VersionEntry>, version: string): Result<VersionEntry, RegistryError>
  {
    var k := IndexOfVersion(versions, version);
    if k < 0 then Failure(VersionNotFound(version)) else Success(versions[k])
  }

  /** `find_version_entry` with its search loop. */
  method FindVersion(versions: seq<VersionEntry>, version: string) returns (r: Result<VersionEntry, RegistryError>)
    ensures r == FindVersionEntry(versions, version)
  {
    for i := 0 to |versions|
      invariant forall j :: 0 <= j < i ==> versions[j].version != version
    {
      if versions[i].version == version {
        return Success(versions[i]);
      }
    }
    return Failure(VersionNotFound(version));
  }

  /** `next_version` with its collecting loop. */
  method NextVersion(registry: Registry) returns (name: string)
    ensures name == NextVersionName(registry.versions)
  {
    var numericVersions: seq<nat> := [];
    for i := 0 to |registry.versions|
      invariant numericVersions == NumericVersions(registry.versions[..i])
    {
      assert registry.versions[..i + 1][..i] == registry.versions[..i];
      var version := registry.versions[i].version;
      if StartsWith(version, "v") && AllDigits(version[1..]) {
        numericVersions := numericVersions + [DigitsValue(version[1..])];
      }
    }
    assert registry.versions[..|registry.versions|] == registry.versions;
    name := "v" + NatToString(MaxOf(numericVersions) + 1);
  }

  /** Entries are ordered by registration time, compared as text as Python compares strings. */
  predicate CreatedNoLater(a: VersionEntry, b: VersionEntry)
  {
    LexLe(a.createdAtUtc, b.createdAtUtc)
  }

  lemma CreatedNoLaterIsTotalPreorder()
    ensures Sorting.TotalPreorder(CreatedNoLater)
  {
    forall a: VersionEntry, b: VersionEntry
      ensures CreatedNoLater(a, b) || CreatedNoLater(b, a)
    {
      LexLeTotal(a.createdAtUtc, b.createdAtUtc);
    }
    forall a: VersionEntry, b: VersionEntry, c: VersionEntry | CreatedNoLater(a, b) && CreatedNoLater(b, c)
      ensures CreatedNoLater(a, c)
    {
      LexLeTransitive(a.createdAtUtc, b.createdAtUtc, c.createdAtUtc);
    }
  }

  /** The registry's consistency: versions in registration order, names unique, the active one registered. */
  ghost predicate Valid(registry: Registry)
  {
    && Sorting.SortedBy(registry.versions, CreatedNoLater)
    && (forall i, j :: 0 <= i < j < |registry.versions| ==> registry.versions[i].version != registry.versions[j].version)
    && (registry.activeVersion.Some? ==> IndexOfVersion(registry.versions, registry.activeVersion.value) >= 0)
  }

  /** The name `register_model` uses: the one given unless it is missing or empty, else the next one. */
  function ChooseVersion(registry: Registry, version: Option<string>): string
  {
    if version.Some? && version.value != "" then version.value else NextVersionName(registry.versions)
  }

  /** The entry of a new version, with its files under "versions/<name>/". */
  function NewEntry(version: string, registeredAtUtc: string): VersionEntry
  {
    var directory := VERSIONS_DIRECTORY + "/" + version + "/";
    VersionEntry(version, registeredAtUtc, directory + MODEL_FILE_NAME, directory + METADATA_FILE_NAME)
  }

  /**
   * `register_model` at `registeredAtUtc`: refuse a missing artifact and a taken name; append the
   * new entry, re-sort by registration time, and activate it when asked to or when nothing is
   * active (no active version, or an empty name).
   */
  function Register(registry: Registry, sourceModelPath: string, artifactExists: bool, activate: bool,
                    version: Option<string>, registeredAtUtc: string): Result<(Registry, VersionEntry), RegistryError>
  {
    if !artifactExists then Failure(ArtifactNotFound(sourceModelPath))
    else
      var name := ChooseVersion(registry, version);
      if IndexOfVersion(registry.versions, name) >= 0 then Failure(VersionExists(name))
      else
        var entry := NewEntry(name, registeredAtUtc);
        var versions := Sorting.SortBy(registry.versions + [entry], CreatedNoLater);
        var activeVersion :=
          if activate || registry.activeVersion.None? || registry.activeVersion.value == "" then Some(name)
          else registry.activeVersion;
        Success((Registry(activeVersion, versions), entry))
  }

  /**
   * Registering fails exactly when the artifact is missing or the chosen name is taken (never
   * for a generated name). Otherwise the versions are the old ones plus the new entry, in
   * registration order, and the new version is active exactly when activation was asked for or
   * nothing was active; otherwise the active version is unchanged.
   */
  lemma RegisterProperties(registry: Registry, sourceModelPath: string, artifactExists: bool, activate: bool,
                           version: Option<string>, registeredAtUtc: string)
    ensures var r := Register(registry, sourceModelPath, artifactExists, activate, version, registeredAtUtc);
      var name := ChooseVersion(registry, version);
      && (!artifactExists ==> r == Failure(ArtifactNotFound(sourceModelPath)))
      && (r.Failure? <==> !artifactExists || exists i :: 0 <= i < |registry.versions| && registry.versions[i].version == name)
      && (version.None? || version == Some("") ==> (r.Failure? <==> !artifactExists))
      && (r.Success? ==>
            var (next, entry) := r.value;
            && entry.version == name && entry.createdAtUtc == registeredAtUtc
            && multiset(next.versions) == multiset(registry.versions) + multiset{entry}
            && Sorting.SortedBy(next.versions, CreatedNoLater)
            && (next.activeVersion == Some(name) <==> activate || registry.activeVersion.None? || registry.activeVersion.value == "" || registry.activeVersion == Some(name))
            && (next.activeVersion != Some(name) ==> next.activeVersion == registry.activeVersion))
  {
    NextVersionIsNew(registry.versions);
    CreatedNoLaterIsTotalPreorder();
    var name := ChooseVersion(registry, version);
    Sorting.SortByCorrect(registry.versions + [NewEntry(name, registeredAtUtc)], CreatedNoLater);
  }

  /** An element of a permutation is an element of the original. */
  lemma InPermutation(s: seq<VersionEntry>, t: seq<VersionEntry>, i: int)
    requires multiset(s) == multiset(t) && 0 <= i < |s|
    ensures exists j :: 0 <= j < |t| && t[j] == s[i]
  {
    assert s[i] in multiset(t);
  }

  /** Registering keeps the registry consistent. */
  lemma RegisterPreservesValid(registry: Registry, sourceModelPath: string, artifactExists: bool, activate: bool,
                               version: Option<string>, registeredAtUtc: string)
    requires Valid(registry)
    ensures var r := Register(registry, sourceModelPath, artifactExists, activate, version, registeredAtUtc);
      r.Success? ==> Valid(r.value.0)
  {
    var r := Register(registry, sourceModelPath, artifactExists, activate, version, registeredAtUtc);
    if r.Success? {
      RegisterProperties(registry, sourceModelPath, artifactExists, activate, version, registeredAtUtc);
      var (next, entry) := r.value;
      var all := registry.versions + [entry];
      assert multiset(next.versions) == multiset(all);
      assert forall i :: 0 <= i < |all| - 1 ==> all[i].version != entry.version;
      forall i, j | 0 <= i < j < |next.versions|
        ensures next.versions[i].version != next.versions[j].version
      {
        DistinctInPermutation(all, next.versions, i, j);
      }
      if next.activeVersion.Some? {
        var active := next.activeVersion.value;
        var k := if active == entry.version then |all| - 1 else IndexOfVersion(registry.versions, active);
        assert all[k].version == active;
        assert all[k] in multiset(next.versions);
        var j :| 0 <= j < |next.versions| && next.versions[j] == all[k];
      }
    }
  }

  /** An entry at two positions is counted at least twice. */
  lemma {:induction false} CountedTwice(t: seq<VersionEntry>, i: int, j: int)
    requires 0 <= i < j < |t| && t[i] == t[j]
    ensures multiset(t)[t[i]] >= 2
  {
    assert t == t[..i] + [t[i]] + t[i + 1..j] + [t[j]] + t[j + 1..];
  }

  /** In a list with unique names every entry occurs at most once. */
  lemma {:induction false} CountedOnce(s: seq<VersionEntry>, x: VersionEntry)
    requires forall a, b :: 0 <= a < b < |s| ==> s[a].version != s[b].version
    ensures multiset(s)[x] <= 1
  {
    if |s| > 0 {
      var init := s[..|s| - 1];
      assert s == init + [s[|s| - 1]];
      CountedOnce(init, x);
      if x == s[|s| - 1] {
        assert x !in multiset(init) by {
          forall c | 0 <= c < |init|
            ensures init[c] != x
          {
            assert s[c].version != s[|s| - 1].version;
          }
        }
      }
    }
  }

  /** Names unique in a list stay unique in any permutation of it. */
  lemma DistinctInPermutation(s: seq<VersionEntry>, t: seq<VersionEntry>, i: int, j: int)
    requires multiset(s) == multiset(t) && 0 <= i < j < |t|
    requires forall a, b :: 0 <= a < b < |s| ==> s[a].version != s[b].version
    ensures t[i].version != t[j].version
  {
    if t[i].version == t[j].version {
      InPermutation(t, s, i);
      InPermutation(t, s, j);
      var a :| 0 <= a < |s| && s[a] == t[i];
      var b :| 0 <= b < |s| && s[b] == t[j];
      if a == b {
        CountedTwice(t, i, j);
        CountedOnce(s, t[i]);
      }
    }
  }

  /** `set_active_version`: activate the first entry named `version`, which is returned. */
  function SetActive(registry: Registry, version: string): Result<(Registry, VersionEntry), RegistryError>
  {
    match FindVersionEntry(registry.versions, version)
    case Failure(error) => Failure(error)
    case Success(selected) => Success((registry.(activeVersion := Some(selected.version)), selected))
  }

  /**
   * Activation fails, with the unknown name, exactly when no version has that name; otherwise
   * that version is active and the versions are unchanged.
   */
  lemma SetActiveProperties(registry: Registry, version: string)
    ensures var r := SetActive(registry, version);
      && (r.Failure? <==> forall i :: 0 <= i < |registry.versions| ==> registry.versions[i].version != version)
      && (r.Failure? ==> r.error == VersionNotFound(version))
      && (r.Success? ==> r.value.0 == registry.(activeVersion := Some(version)) && r.value.1.version == version
                         && r.value.1 in registry.versions)
  {
  }

  /** `rollback_to_previous`: activate the version `steps` places before the active one. */
  function Rollback(registry: Registry, steps: int): Result<(Registry, VersionEntry), RegistryError>
  {
    if steps < 1 then Failure(InvalidSteps)
    else if |registry.versions| == 0 then Failure(NoVersions)
    else if registry.activeVersion.None? then Failure(NoActiveVersion)
    else
      var activeIndex := IndexOfVersion(registry.versions, registry.activeVersion.value);
      if activeIndex == -1 then Failure(ActiveVersionMissing(registry.activeVersion.value))
      else if activeIndex - steps < 0 then Failure(NotEnoughHistory(steps, registry.activeVersion.value))
      else SetActive(registry, registry.versions[activeIndex - steps].version)
  }

  /**
   * A rollback is refused, in this order, for fewer than one step, an empty registry, no active
   * version, an active version that is not registered, and fewer than `steps` versions before the
   * active one. Otherwise the version `steps` places earlier is active and the versions are
   * unchanged.
   */
  lemma RollbackProperties(registry: Registry, steps: int)
    ensures var r := Rollback(registry, steps);
      && (steps < 1 ==> r == Failure(InvalidSteps))
      && (steps >= 1 && |registry.versions| == 0 ==> r == Failure(NoVersions))
      && (steps >= 1 && |registry.versions| > 0 && registry.activeVersion.None? ==> r == Failure(NoActiveVersion))
      && (steps >= 1 && |registry.versions| > 0 && registry.activeVersion.Some? ==>
            var active := registry.activeVersion.value;
            var k := IndexOfVersion(registry.versions, active);
            && (k < 0 ==> r == Failure(ActiveVersionMissing(active)))
            && (0 <= k < steps ==> r == Failure(NotEnoughHistory(steps, active)))
            && (k >= steps ==> r.Success? && r.value.1 == registry.versions[IndexOfVersion(registry.versions, registry.versions[k - steps].version)]
                               && r.value.0 == registry.(activeVersion := Some(registry.versions[k - steps].version))))
  {
  }

  /** In a consistent registry a rollback activates exactly the entry `steps` places before the active one. */
  lemma RollbackInValid(registry: Registry, steps: int)
    requires Valid(registry) && steps >= 1 && registry.activeVersion.Some?
    requires IndexOfVersion(registry.versions, registry.activeVersion.value) >= steps
    ensures var k := IndexOfVersion(registry.versions, registry.activeVersion.value);
      Rollback(registry, steps) == Success((registry.(activeVersion := Some(registry.versions[k - steps].version)), registry.versions[k - steps]))
  {
    var k := IndexOfVersion(registry.versions, registry.activeVersion.value);
    var target := registry.versions[k - steps];
    assert IndexOfVersion(registry.versions, target.version) == k - steps;
  }

  /** Activating and rolling back keep the registry consistent. */
  lemma ActivationPreservesValid(registry: Registry, version: string, steps: int)
    requires Valid(registry)
    ensures SetActive(registry, version).Success? ==> Valid(SetActive(registry, version).value.0)
    ensures Rollback(registry, steps).Success? ==> Valid(Rollback(registry, steps).value.0)
  {
  }

  /** A version registered no earlier than every other is appended at the end. */
  lemma RegisterInTimeOrder(registry: Registry, sourceModelPath: string, activate: bool, version: Option<string>, registeredAtUtc: string)
    requires Valid(registry)
    requires forall i :: 0 <= i < |registry.versions| ==> LexLe(registry.versions[i].createdAtUtc, registeredAtUtc)
    requires IndexOfVersion(registry.versions, ChooseVersion(registry, version)) < 0
    ensures var r := Register(registry, sourceModelPath, true, activate, version, registeredAtUtc);
      r.Success? && r.value.0.versions == registry.versions + [r.value.1]
  {
    var entry := NewEntry(ChooseVersion(registry, version), registeredAtUtc);
    var all := registry.versions + [entry];
    assert Sorting.SortedBy(all, CreatedNoLater);
    Sorting.SortBySortedIsIdentity(all, CreatedNoLater);
  }

  /**
   * The registry's own scenario: register two versions without names, in time order, then roll
   * back one step; the first version is active again.
   */
  lemma TwoVersionsThenRollback(first: string, second: string)
    requires LexLe(first, second)
    ensures var r1 := Register(EMPTY_REGISTRY, "model.pkl", true, true, None, first);
      && r1.Success? && r1.value.1.version == "v1"
      && var r2 := Register(r1.value.0, "model.pkl", true, true, None, second);
      && r2.Success? && r2.value.1.version == "v2" && r2.value.0.activeVersion == Some("v2")
      && var r3 := Rollback(r2.value.0, 1);
      && r3.Success? && r3.value.1.version == "v1" && r3.value.0.activeVersion == Some("v1")
  {
    RegisterFirstExample(first);
    RegisterSecondExample(first, second);
    RollbackExample(first, second);
  }

  lemma RegisterFirstExample(first: string)
    ensures var e1 := NewEntry("v1", first);
      Register(EMPTY_REGISTRY, "model.pkl", true, true, None, first) == Success((Registry(Some("v1"), [e1]), e1))
  {
    assert NatToString(1) == "1";
    assert NextVersionName([]) == "v1";
    var e1 := NewEntry("v1", first);
    assert Sorting.SortBy([] + [e1], CreatedNoLater) == [e1] by {
      assert [] + [e1] == [e1];
      assert [e1][1..] == [];
    }
  }

  lemma RegisterSecondExample(first: string, second: string)
    requires LexLe(first, second)
    ensures var e1, e2 := NewEntry("v1", first), NewEntry("v2", second);
      Register(Registry(Some("v1"), [e1]), "model.pkl", true, true, None, second) == Success((Registry(Some("v2"), [e1, e2]), e2))
  {
    var e1 := NewEntry("v1", first);
    assert NumericVersion("v1") == Some(1) by {
      assert "v1"[1..] == "1";
      assert DigitsValue("1") == 1 by { assert "1"[..0] == ""; }
    }
    assert NumericVersions([e1]) == [1] by {
      assert [e1][..0] == [];
    }
    assert NatToString(2) == "2";
    assert NextVersionName([e1]) == "v2";
    var e2 := NewEntry("v2", second);
    assert Sorting.SortBy([e1] + [e2], CreatedNoLater) == [e1, e2] by {
      assert [e1] + [e2] == [e1, e2];
      assert [e1, e2][1..] == [e2];
      assert [e2][1..] == [];
      assert Sorting.SortBy([e2], CreatedNoLater) == [e2];
      assert CreatedNoLater(e1, e2);
    }
  }

  lemma RollbackExample(first: string, second: string)
    ensures var r := Rollback(Registry(Some("v2"), [NewEntry("v1", first), NewEntry("v2", second)]), 1);
      r.Success? && r.value.1.version == "v1" && r.value.0.activeVersion == Some("v1")
  {
    var e1, e2 := NewEntry("v1", first), NewEntry("v2", second);
    assert IndexOfVersion([e1, e2], "v2") == 1 by { assert [e1, e2][1..] == [e2]; }
  }

  /** The registry file, read and rewritten by each operation. */
  class RegistryStore {
    var activeVersion: Option<string>
    var versions: seq<VersionEntry>

    function State(): Registry
      reads this
    {
      Registry(activeVersion, versions)
    }

    /** `ensure_registry` on a directory without a registry file. */
    constructor ()
      ensures State() == EMPTY_REGISTRY
    {
      activeVersion := None;
      versions := [];
    }

    /** `register_model`; `artifactExists` says whether the model file is there, `registeredAtUtc` is the clock. */
    method RegisterModel(sourceModelPath: string, artifactExists: bool, activate: bool, version: Option<string>, registeredAtUtc: string)
      returns (r: Result<VersionEntry, RegistryError>)
      modifies this
      ensures var expected := Register(old(State()), sourceModelPath, artifactExists, activate, version, registeredAtUtc);
        && (expected.Failure? ==> r == Failure(expected.error) && State() == old(State()))
        && (expected.Success? ==> r == Success(expected.value.1) && State() == expected.value.0)
    {
      if !artifactExists {
        return Failure(ArtifactNotFound(sourceModelPath));
      }
      var versionValue: string;
      if version.Some? && version.value != "" {
        versionValue := version.value;
      } else {
        versionValue := NextVersion(State());
      }
      var existing := FindVersion(versions, versionValue);
      if existing.Success? {
        return Failure(VersionExists(versionValue));
      }
      var entry := NewEntry(versionValue, registeredAtUtc);
      versions := Sorting.SortBy(versions + [entry], CreatedNoLater);
      if activate || activeVersion.None? || activeVersion.value == "" {
        activeVersion := Some(versionValue);
      }
      return Success(entry);
    }

    /** `set_active_version` */
    method SetActiveVersion(version: string) returns (r: Result<VersionEntry, RegistryError>)
      modifies this
      ensures var expected := SetActive(old(State()), version);
        && (expected.Failure? ==> r == Failure(expected.error) && State() == old(State()))
        && (expected.Success? ==> r == Success(expected.value.1) && State() == expected.value.0)
    {
      var selected := FindVersion(versions, version);
      if selected.Failure? {
        return Failure(selected.error);
      }
      activeVersion := Some(selected.value.version);
      return Success(selected.value);
    }

    /** `rollback_to_previous` */
    method RollbackToPrevious(steps: int) returns (r: Result<VersionEntry, RegistryError>)
      modifies this
      ensures var expected := Rollback(old(State()), steps);
        && (expected.Failure? ==> r == Failure(expected.error) && State() == old(State()))
        && (expected.Success? ==> r == Success(expected.value.1) && State() == expected.value.0)
    {
      if steps < 1 {
        return Failure(InvalidSteps);
      }
      if |versions| == 0 {
        return Failure(NoVersions);
      }
      if activeVersion.None? {
        return Failure(NoActiveVersion);
      }
      var activeIndex := -1;
      for index := 0 to |versions|
        invariant activeIndex == -1 ==> forall j :: 0 <= j < index ==> versions[j].version != activeVersion.value
        invariant activeIndex != -1 ==> activeIndex == IndexOfVersion(versions, activeVersion.value)
      {
        if activeIndex == -1 && versions[index].version == activeVersion.value {
          activeIndex := index;
        }
      }
      if activeIndex == -1 {
        return Failure(ActiveVersionMissing(activeVersion.value));
      }
      var targetIndex := activeIndex - steps;
      if targetIndex < 0 {
        return Failure(NotEnoughHistory(steps, activeVersion.value));
      }
      r := SetActiveVersion(versions[targetIndex].version);
    }
  }
}
