/**
 * extension:create: where package.yaml is looked for, the version check on
 * the parsed data, how the data is cleaned before Magento Connect sees it,
 * which package builds are made, and the order of the steps.
 */
module PackageCreate {
  import opened Wrappers
  import opened PhpArray

  /**
   * A value of the parsed YAML document: null, a scalar (by its text), or
   * an array.
   */
  datatype Value = Null | Scalar(text: string) | Arr(entries: Entries<Value>)

  const PackageYamlVersion: Key := StrKey("package_yaml_version")
  const Create: Key := StrKey("_create")
  const VersionIds: Key := StrKey("version_ids")
  const Contents: Key := StrKey("contents")

  /** The keys cleanData drops: they mean something to this command only. */
  const RemovedKeys: seq<Key> := [PackageYamlVersion, Create]

  /** isset($a[k]): k is a key and its value is not null. */
  predicate IsSet(a: Entries<Value>, k: Key)
  {
    Get(a, k).Some? && !Get(a, k).value.Null?
  }

  /**
   * checkYamlVersion lets the data through: it is an array whose
   * package_yaml_version is set and equal to "0.0".
   */
  predicate YamlVersionSupported(data: Value)
  {
    data.Arr? && IsSet(data.entries, PackageYamlVersion)
    && Get(data.entries, PackageYamlVersion).value == Scalar("0.0")
  }

  /**
   * The version check passes exactly for an array holding "0.0" under
   * package_yaml_version: a missing or null version, any other version
   * text, or data that is not an array at all stops the command.
   */
  lemma YamlVersionCheck(data: Value)
    ensures YamlVersionSupported(data) <==> data.Arr? && Get(data.entries, PackageYamlVersion) == Some(Scalar("0.0"))
    ensures data.Arr? && Get(data.entries, PackageYamlVersion) == Some(Null) ==> !YamlVersionSupported(data)
    ensures YamlVersionSupported(data) ==> HasKey(data.entries, PackageYamlVersion)
  {
    if data.Arr? && Get(data.entries, PackageYamlVersion).Some? {
      assert HasKey(data.entries, PackageYamlVersion);
    }
  }

  /** The body of the first foreach: the key is unset only when isset holds for it. */
  function UnsetIfSet(a: Entries<Value>, k: Key): (r: Entries<Value>)
    ensures Valid(a) ==> Valid(r)
    ensures Valid(a) ==> !IsSet(r, k)
    ensures IsSet(a, k) ==> Valid(a) ==> !HasKey(r, k)
    ensures !IsSet(a, k) ==> r == a
    ensures forall k' :: k' != k ==> Get(r, k') == Get(a, k')
  {
    if IsSet(a, k) then Unset(a, k) else a
  }

  /** The first foreach over `$removeKeys`, after the keys in `keys`. */
  function RemoveAll(a: Entries<Value>, keys: seq<Key>): Entries<Value>
    decreases |keys|
  {
    if keys == [] then a else UnsetIfSet(RemoveAll(a, keys[..|keys| - 1]), keys[|keys| - 1])
  }

  /** The items `foreach ($content as $item)` visits: none when the content is not an array. */
  function Items(content: Value): seq<Value>
  {
    if content.Arr? then ValuesOf(content.entries) else []
  }

  /**
   * One content group after the reshuffle: a list whose first item is the
   * empty string and whose other items are the group's items, renumbered
   * from 1.
   */
  function Reshuffled(content: Value): Value
  {
    Arr(Indexed([Scalar("")] + Items(content)))
  }

  /** Every content group reshuffled, each under its own key and in its own place. */
  function ReshuffleAll(contents: Entries<Value>): (r: Entries<Value>)
    ensures |r| == |contents|
    ensures forall i :: 0 <= i < |contents| ==> r[i] == (contents[i].0, Reshuffled(contents[i].1))
  {
    seq(|contents|, i requires 0 <= i < |contents| => (contents[i].0, Reshuffled(contents[i].1)))
  }

  /** What cleanData leaves in `$data`. */
  function Clean(data: Entries<Value>): Entries<Value>
  {
    var removed := RemoveAll(data, RemovedKeys);
    var withIds := if IsSet(removed, VersionIds) then removed else Set(removed, VersionIds, Arr([]));
    if IsSet(withIds, Contents) && Get(withIds, Contents).value.Arr?
    then Set(withIds, Contents, Arr(ReshuffleAll(Get(withIds, Contents).value.entries)))
    else withIds
  }

  /** cleanData: the three steps with their foreach loops, `$content` rewritten in place through its reference. */
  method CleanData(data: Entries<Value>) returns (cleaned: Entries<Value>)
    ensures cleaned == Clean(data)
  {
    cleaned := data;
    for n := 0 to |RemovedKeys|
      invariant cleaned == RemoveAll(data, RemovedKeys[..n])
    {
      var key := RemovedKeys[n];
      if IsSet(cleaned, key) {
        cleaned := Unset(cleaned, key);
      }
      assert RemovedKeys[..n + 1][..n] == RemovedKeys[..n];
    }
    assert RemovedKeys[..|RemovedKeys|] == RemovedKeys;
    if !IsSet(cleaned, VersionIds) {
      cleaned := Set(cleaned, VersionIds, Arr([]));
    }
    if IsSet(cleaned, Contents) {
      var contents := Get(cleaned, Contents).value;
      // foreach over a value that is not an array does nothing.
      if contents.Arr? {
        var groups := ReshuffleContents(contents.entries);
        cleaned := Set(cleaned, Contents, Arr(groups));
      }
    }
  }

  /** `foreach ($data['contents'] as &$content)`: every group is replaced, in place, by its reshuffled list. */
  method ReshuffleContents(contents: Entries<Value>) returns (groups: Entries<Value>)
    ensures groups == ReshuffleAll(contents)
  {
    groups := contents;
    for i := 0 to |groups|
      invariant |groups| == |contents|
      invariant forall j :: 0 <= j < |groups| ==>
        groups[j] == if j < i then (contents[j].0, Reshuffled(contents[j].1)) else contents[j]
    {
      var tmpContent := ReshuffleGroup(groups[i].1);
      groups := groups[i := (groups[i].0, Arr(tmpContent))];
    }
  }

  /** The body of that foreach: `$tmpContent` starts as array('') and every item is appended to it. */
  method ReshuffleGroup(content: Value) returns (tmpContent: Entries<Value>)
    ensures Arr(tmpContent) == Reshuffled(content)
  {
    tmpContent := Indexed([Scalar("")]);
    if content.Arr? {
      var items := content.entries;
      for m := 0 to |items|
        invariant tmpContent == Indexed([Scalar("")] + ValuesOf(items)[..m])
      {
        PushIndexed([Scalar("")] + ValuesOf(items)[..m], items[m].1);
        assert ValuesOf(items)[..m + 1] == ValuesOf(items)[..m] + [items[m].1];
        tmpContent := Push(tmpContent, items[m].1);
      }
      assert ValuesOf(items)[..|items|] == ValuesOf(items);
    } else {
      assert [Scalar("")] + Items(content) == [Scalar("")];
    }
  }

  /**
   * Magento drops the first item of every content group; after the
   * reshuffle, dropping it gives back exactly the group's items, in order,
   * as a list numbered from 0.
   */
  lemma ReshuffledDropFirst(content: Value)
    ensures Reshuffled(content).entries[0] == (IntKey(0), Scalar(""))
    ensures ValuesOf(Reshuffled(content).entries)[1..] == Items(content)
    ensures forall i :: 0 <= i < |Reshuffled(content).entries| ==> Reshuffled(content).entries[i].0 == IntKey(i)
    ensures content.Arr? ==> |Reshuffled(content).entries| == |content.entries| + 1
  {
    var vs := [Scalar("")] + Items(content);
    assert ValuesOf(Indexed(vs)) == vs;
  }

  /** The removal loop keeps the array valid and every key it does not name. */
  lemma {:induction false} RemoveAllKeepsOthers(a: Entries<Value>, keys: seq<Key>)
    ensures Valid(a) ==> Valid(RemoveAll(a, keys))
    ensures forall k :: k !in keys ==> Get(RemoveAll(a, keys), k) == Get(a, k)
    decreases |keys|
  {
    if keys != [] {
      RemoveAllKeepsOthers(a, keys[..|keys| - 1]);
      assert forall k :: k !in keys ==> k !in keys[..|keys| - 1];
    }
  }

  /** The removal loop over package_yaml_version and _create. */
  lemma RemovedKeysGone(data: Entries<Value>, k: Key)
    requires Valid(data)
    requires k in RemovedKeys
    ensures !IsSet(RemoveAll(data, RemovedKeys), k)
    ensures IsSet(data, k) ==> !HasKey(RemoveAll(data, RemovedKeys), k)
    ensures !IsSet(data, k) ==> Get(RemoveAll(data, RemovedKeys), k) == Get(data, k)
  {
    var once := UnsetIfSet(data, PackageYamlVersion);
    assert RemoveAll(data, RemovedKeys) == UnsetIfSet(once, Create) by {
      assert RemovedKeys[..1] == [PackageYamlVersion];
      assert [PackageYamlVersion][..0] == [];
      assert RemoveAll(data, [PackageYamlVersion]) == once;
    }
  }

  /** Cleaning changes nothing but version_ids and contents after the removal loop. */
  lemma CleanAfterRemoval(data: Entries<Value>, k: Key)
    requires k != VersionIds && k != Contents
    ensures Get(Clean(data), k) == Get(RemoveAll(data, RemovedKeys), k)
  {
  }

  /**
   * After cleaning, package_yaml_version and _create are never set: a key
   * that was set is gone, and a key that held null keeps its null (isset
   * is false for it, so it is not unset).
   */
  lemma CleanRemovesKeys(data: Entries<Value>, k: Key)
    requires Valid(data)
    requires k in RemovedKeys
    ensures !IsSet(Clean(data), k)
    ensures IsSet(data, k) ==> !HasKey(Clean(data), k)
    ensures !IsSet(data, k) ==> Get(Clean(data), k) == Get(data, k)
  {
    RemovedKeysGone(data, k);
    CleanAfterRemoval(data, k);
  }

  /** The four keys cleanData handles are distinct. */
  lemma KeysDistinct()
    ensures VersionIds != Contents && VersionIds !in RemovedKeys && Contents !in RemovedKeys
  {
    assert |VersionIds.s| == 11 && |Contents.s| == 8 && |PackageYamlVersion.s| == 20 && |Create.s| == 7;
  }

  /** version_ids is kept when set and defaults to an empty list otherwise. */
  lemma CleanVersionIds(data: Entries<Value>)
    ensures Get(Clean(data), VersionIds)
         == if IsSet(data, VersionIds) then Get(data, VersionIds) else Some(Arr([]))
  {
    KeysDistinct();
    var removed := RemoveAll(data, RemovedKeys);
    RemoveAllKeepsOthers(data, RemovedKeys);
    assert Get(removed, VersionIds) == Get(data, VersionIds);
    var withIds := if IsSet(removed, VersionIds) then removed else Set(removed, VersionIds, Arr([]));
    assert Get(withIds, VersionIds) == if IsSet(data, VersionIds) then Get(data, VersionIds) else Some(Arr([]));
  }

  /**
   * contents, when it is an array, has every group reshuffled in place; any
   * other contents (missing, null or a scalar) is left as it was.
   */
  lemma CleanContents(data: Entries<Value>)
    ensures Get(data, Contents).Some? && Get(data, Contents).value.Arr? ==>
      Get(Clean(data), Contents) == Some(Arr(ReshuffleAll(Get(data, Contents).value.entries)))
    ensures !(Get(data, Contents).Some? && Get(data, Contents).value.Arr?) ==>
      Get(Clean(data), Contents) == Get(data, Contents)
  {
    RemoveAllKeepsOthers(data, RemovedKeys);
  }

  /** Every other top-level key keeps its value, and the cleaned array is a valid array. */
  lemma CleanKeepsOthers(data: Entries<Value>, k: Key)
    requires k !in RemovedKeys && k != VersionIds && k != Contents
    ensures Get(Clean(data), k) == Get(data, k)
    ensures Valid(data) ==> Valid(Clean(data))
  {
    RemoveAllKeepsOthers(data, RemovedKeys);
  }

  /**
   * The cleaned data would no longer pass checkYamlVersion, which is why
   * execute checks the version before it cleans.
   */
  lemma CleanedFailsVersionCheck(data: Entries<Value>)
    requires Valid(data)
    ensures !YamlVersionSupported(Arr(Clean(data)))
  {
    CleanRemovesKeys(data, PackageYamlVersion);
  }

  /** A build Magento Connect can make: createPackage (2.x) or createPackageV1x (1.x). */
  datatype Build = Package2x | Package1x

  /** in_array(version, $data['version_ids']), where version_ids is an array. */
  predicate VersionRequested(data: Entries<Value>, version: string)
  {
    var ids := Get(data, VersionIds);
    ids.Some? && ids.value.Arr? && Scalar(version) in ValuesOf(ids.value.entries)
  }

  /**
   * createPackage: the builds made for the data, 2.x first. The two
   * version constants of Mage_Connect_Package are parameters.
   */
  function SelectBuilds(data: Entries<Value>, version2x: string, version1x: string): (builds: seq<Build>)
    ensures Package2x in builds <==> VersionRequested(data, version2x)
    ensures Package1x in builds <==> VersionRequested(data, version1x)
    ensures |builds| <= 2
    ensures |builds| == 2 ==> builds == [Package2x, Package1x]
  {
    (if VersionRequested(data, version2x) then [Package2x] else [])
    + (if VersionRequested(data, version1x) then [Package1x] else [])
  }

  /** When version_ids is not an array (a scalar, say), nothing is built. */
  lemma NoBuildsWithoutList(data: Entries<Value>, version2x: string, version1x: string)
    requires !(Get(data, VersionIds).Some? && Get(data, VersionIds).value.Arr?)
    ensures SelectBuilds(data, version2x, version1x) == []
  {
  }

  /** The exceptions execute stops with. */
  datatype Error =
    | YamlFileNotFound(path: string)
    | InvalidYamlVersion
    | SaveFailed

  /** What execute does, in order: save the package data, make the builds, report success. */
  datatype Step = Saved(data: Entries<Value>) | Built(build: Build) | ReportedCreated

  /** `!$packageYamlPath`: PHP takes null, "" and "0" for false. */
  predicate IsFalsy(option: Option<string>)
  {
    option.None? || option.value == "" || option.value == "0"
  }

  /** PHP's falsy strings are "" and "0" only: "00", "0.0", " " and "false" are true. */
  lemma FalsyOptions()
    ensures IsFalsy(None) && IsFalsy(Some("")) && IsFalsy(Some("0"))
    ensures !IsFalsy(Some("00")) && !IsFalsy(Some("0.0")) && !IsFalsy(Some(" ")) && !IsFalsy(Some("false"))
  {
  }

  /** The path getPackageYamlPath settles on before checking that it exists. */
  function ChosenYamlPath(option: Option<string>, root: string, separator: char): (path: string)
    ensures IsFalsy(option) ==> path == root + [separator] + "package.yaml"
    ensures !IsFalsy(option) ==> path == option.value
  {
    if IsFalsy(option) then root + [separator] + "package.yaml" else option.value
  }

  /**
   * getPackageYamlPath: the --package-yaml-file option, or package.yaml in
   * the Magento root; an exception when no file is there.
   */
  function GetPackageYamlPath(option: Option<string>, root: string, separator: char, files: set<string>): (r: Result<string, Error>)
    ensures r.Success? <==> ChosenYamlPath(option, root, separator) in files
    ensures r.Success? ==> r.value == ChosenYamlPath(option, root, separator)
    ensures r.Failure? ==> r.error == YamlFileNotFound(ChosenYamlPath(option, root, separator))
  {
    var path := ChosenYamlPath(option, root, separator);
    if path in files then Success(path) else Failure(YamlFileNotFound(path))
  }

  /**
   * execute once Magento is found: find the file, check the version of what
   * Yaml::parse made of it (`parsed`), clean it, save it (`saveSucceeds`
   * is what savePackage reports), build. Every exception comes before the
   * first step that is not undone.
   */
  method Execute(option: Option<string>, root: string, separator: char, files: set<string>,
                 parsed: Value, saveSucceeds: bool, version2x: string, version1x: string)
    returns (outcome: Result<seq<Step>, Error>)
    ensures ChosenYamlPath(option, root, separator) !in files ==>
      outcome == Failure(YamlFileNotFound(ChosenYamlPath(option, root, separator)))
    ensures ChosenYamlPath(option, root, separator) in files && !YamlVersionSupported(parsed) ==>
      outcome == Failure(InvalidYamlVersion)
    ensures ChosenYamlPath(option, root, separator) in files && YamlVersionSupported(parsed) && !saveSucceeds ==>
      outcome == Failure(SaveFailed)
    ensures outcome.Success? <==>
      ChosenYamlPath(option, root, separator) in files && YamlVersionSupported(parsed) && saveSucceeds
    ensures outcome.Success? ==>
      var cleaned := Clean(parsed.entries);
      outcome.value == [Saved(cleaned)] + BuildSteps(SelectBuilds(cleaned, version2x, version1x)) + [ReportedCreated]
  {
    var path := GetPackageYamlPath(option, root, separator, files);
    if path.Failure? {
      return Failure(path.error);
    }
    if !YamlVersionSupported(parsed) {
      return Failure(InvalidYamlVersion);
    }
    var data := CleanData(parsed.entries);
    if !saveSucceeds {
      return Failure(SaveFailed);
    }
    var steps := CreatePackage(data, version2x, version1x);
    outcome := Success([Saved(data)] + steps);
  }

  /** The steps of the builds, in order. */
  function BuildSteps(builds: seq<Build>): seq<Step>
  {
    if builds == [] then [] else [Built(builds[0])] + BuildSteps(builds[1..])
  }

  /** One build step per selected build: the 2.x one, then the 1.x one. */
  lemma BuildStepsSelected(data: Entries<Value>, version2x: string, version1x: string)
    ensures BuildSteps(SelectBuilds(data, version2x, version1x))
         == (if VersionRequested(data, version2x) then [Built(Package2x)] else [])
          + (if VersionRequested(data, version1x) then [Built(Package1x)] else [])
  {
    var one := if VersionRequested(data, version1x) then [Package1x] else [];
    assert BuildSteps(one) == if VersionRequested(data, version1x) then [Built(Package1x)] else [] by {
      if one != [] {
        assert one[1..] == [];
      }
    }
    if VersionRequested(data, version2x) {
      assert SelectBuilds(data, version2x, version1x)[1..] == one;
    }
  }

  /**
   * createPackage: the 2.x build when version_ids is an array holding the
   * 2.x version, then the 1.x build likewise, then the success message.
   */
  method CreatePackage(data: Entries<Value>, version2x: string, version1x: string) returns (steps: seq<Step>)
    ensures steps == BuildSteps(SelectBuilds(data, version2x, version1x)) + [ReportedCreated]
  {
    steps := [];
    var packageVersion := Get(data, VersionIds);
    if packageVersion.Some? && packageVersion.value.Arr? {
      if Scalar(version2x) in ValuesOf(packageVersion.value.entries) {
        steps := steps + [Built(Package2x)];
      }
      if Scalar(version1x) in ValuesOf(packageVersion.value.entries) {
        steps := steps + [Built(Package1x)];
      }
    }
    steps := steps + [ReportedCreated];
    BuildStepsSelected(data, version2x, version1x);
  }
}
