/**
 * The in-memory form of an Eclipse product definition (a *.product file): identity
 * attributes set one by one, per-OS launch settings, the included plugins, fragments
 * and features, and the start records of bundles.
 */
module Product {
  import opened Wrappers
  import opened JavaLang

  /** The operating systems launch settings are kept for (ProductOs). */
  type ProductOs(==)

  /** An OSGi version: major.minor.micro plus a qualifier. */
  datatype Version = Version(major: nat, minor: nat, micro: nat, qualifier: string)

  /** OSGi's Version.emptyVersion, 0.0.0 with an empty qualifier. */
  const EmptyVersion: Version := Version(0, 0, 0, "")

  /** Everything a bundle start record holds besides its id. */
  type StartSettings

  /** The start record of one bundle (BundleStartRecord), keyed by its id. */
  datatype BundleStartRecord = BundleStartRecord(id: string, settings: StartSettings)

  /** Argument text as it is stored: each newline becomes a space, then the text is trimmed. */
  function NormalizedArgs(args: string): (r: string)
    ensures '\n' !in r
    ensures IsTrimmed(r)
  {
    var replaced := Replace(args, '\n', ' ');
    assert forall k :: 0 <= k < |replaced| ==> replaced[k] != '\n';
    Trim(replaced)
  }

  /**
   * The entry for one OS after adding args: the old entry and one space, if there was
   * an entry, followed by the normalised text.
   */
  function AppendedArgs(entry: Option<string>, args: string): string
  {
    (if entry.Some? then entry.value + " " else "") + NormalizedArgs(args)
  }

  /** The entry for os, None when there is none. */
  function EntryOf(entries: map<ProductOs, string>, os: ProductOs): Option<string>
  {
    if os in entries then Some(entries[os]) else None
  }

  /** The per-OS argument map after adding args for os; other entries stay. */
  function AppendArgs(entries: map<ProductOs, string>, os: ProductOs, args: string): map<ProductOs, string>
  {
    entries[os := AppendedArgs(EntryOf(entries, os), args)]
  }

  /** What the argument getters return: the entry, or "" when there is none. */
  function ArgsOf(entries: map<ProductOs, string>, os: ProductOs): string
  {
    if os in entries then entries[os] else ""
  }

  /** The entry for one OS after adding each element of argsList, in order. */
  function AppendedAll(entry: Option<string>, argsList: seq<string>): Option<string>
    decreases |argsList|
  {
    if |argsList| == 0 then entry else AppendedAll(Some(AppendedArgs(entry, argsList[0])), argsList[1..])
  }

  function NormalizedAll(argsList: seq<string>): (r: seq<string>)
    ensures |r| == |argsList|
    ensures forall k :: 0 <= k < |argsList| ==> r[k] == NormalizedArgs(argsList[k])
  {
    if |argsList| == 0 then [] else [NormalizedArgs(argsList[0])] + NormalizedAll(argsList[1..])
  }

  /**
   * Adding args1, ..., argsN for one OS leaves the old entry and one space, if there
   * was an entry, followed by the normalised pieces joined by single spaces.
   */
  lemma {:induction false} AppendedAllJoins(entry: Option<string>, argsList: seq<string>)
    requires |argsList| > 0
    ensures AppendedAll(entry, argsList)
            == Some((if entry.Some? then entry.value + " " else "") + Join(NormalizedAll(argsList), ' '))
    decreases |argsList|
  {
    var prefix := if entry.Some? then entry.value + " " else "";
    var next := AppendedArgs(entry, argsList[0]);
    var pieces := NormalizedAll(argsList);
    assert next == prefix + pieces[0];
    if |argsList| > 1 {
      AppendedAllJoins(Some(next), argsList[1..]);
      assert NormalizedAll(argsList[1..]) == pieces[1..];
      var rest := Join(pieces[1..], ' ');
      assert Join(pieces, ' ') == pieces[0] + " " + rest;
      assert next + " " + rest == prefix + (pieces[0] + " " + rest);
    } else {
      assert pieces == [pieces[0]];
    }
  }

  class ProductDefinition {
    var name: Option<string>
    var uid: Option<string>
    var id: Option<string>
    var application: Option<string>
    var version: Option<Version>
    var basedOnFeatures: bool
    var configRecords: map<string, BundleStartRecord>
    var pluginIds: seq<string>
    var fragmentIds: seq<string>
    var configIni: map<ProductOs, string>
    var programArgs: map<ProductOs, string>
    var vmArgs: map<ProductOs, string>
    var launcherName: Option<string>
    var vm: map<ProductOs, string>
    var splashPlugin: Option<string>
    var features: map<string, Version>

    /** Stored VMs and config.ini paths are trimmed; stored arguments hold no newline. Every mutator keeps it. */
    ghost predicate Valid()
      reads this
    {
      && (forall os :: os in vm ==> IsTrimmed(vm[os]))
      && (forall os :: os in configIni ==> IsTrimmed(configIni[os]))
      && (forall os :: os in vmArgs ==> '\n' !in vmArgs[os])
      && (forall os :: os in programArgs ==> '\n' !in programArgs[os])
    }

    /** An empty definition: no attributes, version 0.0.0, not feature based, all collections empty. */
    constructor()
      ensures Valid()
      ensures !HasName() && uid.None? && !HasId() && !HasApplication() && !HasLaunchername() && !HasSplashplugin()
      ensures version == Some(EmptyVersion) && !basedOnFeatures
      ensures configRecords == map[] && features == map[]
      ensures pluginIds == [] && fragmentIds == []
      ensures configIni == map[] && programArgs == map[] && vmArgs == map[] && vm == map[]
    {
      configRecords := map[];
      pluginIds := [];
      fragmentIds := [];
      name := None;
      uid := None;
      id := None;
      application := None;
      version := Some(EmptyVersion);
      basedOnFeatures := false;
      configIni := map[];
      programArgs := map[];
      vmArgs := map[];
      launcherName := None;
      vm := map[];
      splashPlugin := None;
      features := map[];
    }

    // --- features ------------------------------------------------------------

    /** Records the version of a feature, replacing an earlier one for the same id. */
    method AddFeature(featureId: string, newVersion: Version)
      requires Valid()
      modifies this`features
      ensures Valid()
      ensures features == old(features)[featureId := newVersion]
      ensures GetFeatureVersion(featureId) == Some(newVersion)
      ensures forall f :: f != featureId ==> GetFeatureVersion(f) == old(GetFeatureVersion(f))
    {
      features := features[featureId := newVersion];
    }

    /** The ids of all features, ascending in compareTo order, each exactly once. */
    function GetFeatureIds(): (r: seq<string>)
      reads this
      ensures |r| == |features|
      ensures forall f :: f in r <==> f in features
      ensures StrictlySorted(r)
    {
      SortedStrings(features.Keys)
    }

    /** The version recorded for a feature, None when the feature is unknown. */
    function GetFeatureVersion(feature: string): Option<Version>
      reads this
    {
      if feature in features then Some(features[feature]) else None
    }

    // --- configuration records ---------------------------------------------------

    /** Stores a start record under its id, replacing an earlier one with the same id. */
    method AddConfigurationRecord(record: BundleStartRecord)
      requires Valid()
      modifies this`configRecords
      ensures Valid()
      ensures configRecords == old(configRecords)[record.id := record]
      ensures HasConfigurationRecord(record.id) && GetConfigurationRecord(record.id) == Some(record)
    {
      configRecords := configRecords[record.id := record];
    }

    predicate HasConfigurationRecord(recordId: string)
      reads this
    {
      recordId in configRecords
    }

    function GetConfigurationRecord(recordId: string): Option<BundleStartRecord>
      reads this
    {
      if recordId in configRecords then Some(configRecords[recordId]) else None
    }

    // --- per-OS settings -----------------------------------------------------------

    /** A null VM is ignored; otherwise the trimmed VM replaces the entry for os. */
    method AddVm(os: ProductOs, newVm: Option<string>)
      requires Valid()
      modifies this`vm
      ensures Valid()
      ensures newVm.None? ==> vm == old(vm)
      ensures newVm.Some? ==> vm == old(vm)[os := Trim(newVm.value)] && GetVm(os) == Some(Trim(newVm.value))
    {
      if newVm.Some? {
        vm := vm[os := Trim(newVm.value)];
      }
    }

    function GetVm(os: ProductOs): Option<string>
      reads this
    {
      if os in vm then Some(vm[os]) else None
    }

    /** A null path is ignored; otherwise the trimmed path replaces the entry for os. */
    method AddConfigIni(os: ProductOs, path: Option<string>)
      requires Valid()
      modifies this`configIni
      ensures Valid()
      ensures path.None? ==> configIni == old(configIni)
      ensures path.Some? ==> configIni == old(configIni)[os := Trim(path.value)] && GetConfigIni(os) == Some(Trim(path.value))
    {
      if path.Some? {
        configIni := configIni[os := Trim(path.value)];
      }
    }

    function GetConfigIni(os: ProductOs): Option<string>
      reads this
    {
      if os in configIni then Some(configIni[os]) else None
    }

    /**
     * Null arguments are ignored; otherwise the normalised text is appended to the
     * entry for os after one space, or becomes the entry when there was none.
     */
    method AddVmArgs(os: ProductOs, args: Option<string>)
      requires Valid()
      modifies this`vmArgs
      ensures Valid()
      ensures args.None? ==> vmArgs == old(vmArgs)
      ensures args.Some? ==> vmArgs == AppendArgs(old(vmArgs), os, args.value)
      ensures args.Some? ==>
                GetVmArgs(os) == (if os in old(vmArgs) then old(GetVmArgs(os)) + " " else "") + NormalizedArgs(args.value)
      ensures forall other :: other != os ==> GetVmArgs(other) == ArgsOf(old(vmArgs), other)
    {
      if args.Some? {
        var oldArgs := "";
        if os in vmArgs {
          oldArgs := vmArgs[os] + " ";
        }
        var added := oldArgs + Trim(Replace(args.value, '\n', ' '));
        assert '\n' !in added by {
          assert forall k :: 0 <= k < |oldArgs| ==> oldArgs[k] != '\n';
        }
        vmArgs := vmArgs[os := added];
      }
    }

    /** The VM arguments for os, "" when none were added; never null. */
    function GetVmArgs(os: ProductOs): string
      reads this
    {
      ArgsOf(vmArgs, os)
    }

    /** Same rules as AddVmArgs, on the program arguments. */
    method AddProgramArgs(os: ProductOs, args: Option<string>)
      requires Valid()
      modifies this`programArgs
      ensures Valid()
      ensures args.None? ==> programArgs == old(programArgs)
      ensures args.Some? ==> programArgs == AppendArgs(old(programArgs), os, args.value)
      ensures args.Some? ==>
                GetProgramArgs(os) == (if os in old(programArgs) then old(GetProgramArgs(os)) + " " else "") + NormalizedArgs(args.value)
      ensures forall other :: other != os ==> GetProgramArgs(other) == ArgsOf(old(programArgs), other)
    {
      if args.Some? {
        var oldArgs := "";
        if os in programArgs {
          oldArgs := programArgs[os] + " ";
        }
        var added := oldArgs + Trim(Replace(args.value, '\n', ' '));
        assert '\n' !in added by {
          assert forall k :: 0 <= k < |oldArgs| ==> oldArgs[k] != '\n';
        }
        programArgs := programArgs[os := added];
      }
    }

    /** The program arguments for os, "" when none were added; never null. */
    function GetProgramArgs(os: ProductOs): string
      reads this
    {
      ArgsOf(programArgs, os)
    }

    // --- plugins and fragments -------------------------------------------------------

    /** Appends the id to the fragment list when isFragment holds, else to the plugin list. */
    method AddPlugin(pluginId: string, isFragment: bool)
      requires Valid()
      modifies this`pluginIds, this`fragmentIds
      ensures Valid()
      ensures isFragment ==> fragmentIds == old(fragmentIds) + [pluginId] && pluginIds == old(pluginIds)
      ensures !isFragment ==> pluginIds == old(pluginIds) + [pluginId] && fragmentIds == old(fragmentIds)
    {
      if isFragment {
        fragmentIds := fragmentIds + [pluginId];
      } else {
        pluginIds := pluginIds + [pluginId];
      }
    }

    function GetPluginIds(): seq<string>
      reads this
    {
      pluginIds
    }

    function GetFragmentIds(): seq<string>
      reads this
    {
      fragmentIds
    }

    /** All plugin ids in the order added, then all fragment ids in the order added. */
    function GetPluginAndFragmentIds(): (r: seq<string>)
      reads this
      ensures |r| == |pluginIds| + |fragmentIds|
      ensures r[..|pluginIds|] == pluginIds && r[|pluginIds|..] == fragmentIds
    {
      pluginIds + fragmentIds
    }

    // --- identity attributes -------------------------------------------------------

    method SetName(newName: Option<string>)
      requires Valid()
      modifies this`name
      ensures Valid()
      ensures GetName() == newName && (HasName() <==> newName.Some?)
    {
      name := newName;
    }

    function GetName(): Option<string>
      reads this
    {
      name
    }

    predicate HasName()
      reads this
    {
      name.Some?
    }

    method SetUid(newUid: Option<string>)
      requires Valid()
      modifies this`uid
      ensures Valid()
      ensures GetUid() == newUid
    {
      uid := newUid;
    }

    function GetUid(): Option<string>
      reads this
    {
      uid
    }

    method SetId(newId: Option<string>)
      requires Valid()
      modifies this`id
      ensures Valid()
      ensures GetId() == newId && (HasId() <==> newId.Some?)
    {
      id := newId;
    }

    function GetId(): Option<string>
      reads this
    {
      id
    }

    predicate HasId()
      reads this
    {
      id.Some?
    }

    method SetApplication(newApplication: Option<string>)
      requires Valid()
      modifies this`application
      ensures Valid()
      ensures GetApplication() == newApplication && (HasApplication() <==> newApplication.Some?)
    {
      application := newApplication;
    }

    function GetApplication(): Option<string>
      reads this
    {
      application
    }

    predicate HasApplication()
      reads this
    {
      application.Some?
    }

    method SetVersion(newVersion: Option<Version>)
      requires Valid()
      modifies this`version
      ensures Valid()
      ensures GetVersion() == newVersion && (HasVersion() <==> newVersion.Some?)
    {
      version := newVersion;
    }

    function GetVersion(): Option<Version>
      reads this
    {
      version
    }

    predicate HasVersion()
      reads this
    {
      version.Some?
    }

    method SetLaunchername(newLauncherName: Option<string>)
      requires Valid()
      modifies this`launcherName
      ensures Valid()
      ensures GetLaunchername() == newLauncherName && (HasLaunchername() <==> newLauncherName.Some?)
    {
      launcherName := newLauncherName;
    }

    function GetLaunchername(): Option<string>
      reads this
    {
      launcherName
    }

    predicate HasLaunchername()
      reads this
    {
      launcherName.Some?
    }

    method SetSplashplugin(pluginId: Option<string>)
      requires Valid()
      modifies this`splashPlugin
      ensures Valid()
      ensures GetSplashplugin() == pluginId && (HasSplashplugin() <==> pluginId.Some?)
    {
      splashPlugin := pluginId;
    }

    function GetSplashplugin(): Option<string>
      reads this
    {
      splashPlugin
    }

    predicate HasSplashplugin()
      reads this
    {
      splashPlugin.Some?
    }

    method SetBasedOnFeatures(newBasedOnFeatures: bool)
      requires Valid()
      modifies this`basedOnFeatures
      ensures Valid()
      ensures IsBasedOnFeatures() == newBasedOnFeatures
    {
      basedOnFeatures := newBasedOnFeatures;
    }

    predicate IsBasedOnFeatures()
      reads this
    {
      basedOnFeatures
    }
  }
}
