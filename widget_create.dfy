/**
 * dev:widget:create: how the widget parameters are normalised, which code
 * pools are accepted, the two underscore converters, where the three
 * artifacts go, the block class name, and the order in which execute
 * touches the filesystem.
 */
module WidgetCreate {
  import opened Wrappers
  import opened PhpString
  import opened PhpArray

  // ---------------------------------------------------------------------
  // Underscore converters
  // ---------------------------------------------------------------------

  /** uscore2CamelCase as a value: `featured_items` becomes `FeaturedItems`. */
  function CamelCase(value: string): string
  {
    CapAfter('_', value, true, false)
  }

  /** uscore2UpperUscore as a value: `featured_items` becomes `Featured_Items`. */
  function UpperUscore(value: string): string
  {
    CapAfter('_', value, true, true)
  }

  /** uscore2CamelCase: explode on '_', ucfirst every part in place, implode with ''. */
  method Uscore2CamelCase(value: string) returns (result: string)
    ensures result == CamelCase(value)
    ensures '_' !in result
    ensures |result| == |value| - Count('_', value)
  {
    var parts := Explode('_', value);
    parts := UcFirstParts(parts, 0);
    result := Implode("", parts);
    ImplodeCapitalized('_', value, true, false);
    CapAfterDropsSeparators('_', value, true);
  }

  /** uscore2UpperUscore: explode on '_', ucfirst every part in place, implode with '_'. */
  method Uscore2UpperUscore(value: string) returns (result: string)
    ensures result == UpperUscore(value)
    ensures |result| == |value|
  {
    var parts := Explode('_', value);
    parts := UcFirstParts(parts, 0);
    result := Implode("_", parts);
    ImplodeCapitalized('_', value, true, true);
  }

  /** uscore2CamelCase ucfirst-s each '_'-separated part, leaves the rest of each part alone and joins them. */
  lemma CamelCaseParts(value: string)
    ensures CamelCase(value) == Implode("", UcFirstFrom(Explode('_', value), 0))
    ensures '_' !in CamelCase(value)
    ensures |CamelCase(value)| == |value| - Count('_', value)
  {
    ImplodeCapitalized('_', value, true, false);
    CapAfterDropsSeparators('_', value, true);
  }

  /**
   * uscore2UpperUscore keeps the length and every '_' where it was; a
   * character is upper-cased exactly when it starts the string or follows
   * an '_'.
   */
  lemma UpperUscoreAt(value: string, i: nat)
    requires i < |value|
    ensures |UpperUscore(value)| == |value|
    ensures UpperUscore(value)[i]
         == if i == 0 || value[i - 1] == '_' then Upper(value[i]) else value[i]
    ensures UpperUscore(value)[i] == '_' <==> value[i] == '_'
  {
    CapAfterKeptAt('_', value, true, i);
  }

  /** Deleting the underscores from uscore2UpperUscore gives uscore2CamelCase of the same input. */
  lemma UpperUscoreWithoutUnderscores(value: string)
    ensures Remove('_', UpperUscore(value)) == CamelCase(value)
  {
    CapAfterRemoveSeparators('_', value, true);
  }

  // ---------------------------------------------------------------------
  // Parameter normalisation
  // ---------------------------------------------------------------------

  /**
   * One parsed parameter string: field name to value. The value is None
   * (PHP's null) for a segment without '='. The order of the fields inside
   * a record is not kept.
   */
  type Record = map<string, Option<string>>

  /** The field name of a segment: the text before its first '='. */
  function SegmentKey(segment: string): string
  {
    Explode('=', segment)[0]
  }

  /**
   * The value of a segment: the text between its first and second '=';
   * None when there is no '=' (list() leaves the second variable null).
   */
  function SegmentValue(segment: string): Option<string>
  {
    var pieces := Explode('=', segment);
    if |pieces| > 1 then Some(pieces[1]) else None
  }

  /** The record the inner foreach builds from the segments in order. */
  function RecordOf(segments: seq<string>): Record
    decreases |segments|
  {
    if segments == [] then map[]
    else
      var last := segments[|segments| - 1];
      RecordOf(segments[..|segments| - 1])[SegmentKey(last) := SegmentValue(last)]
  }

  /** The record of one parameter string: its ','-separated segments. */
  function ParseRecord(paramString: string): Record
  {
    RecordOf(Explode(',', paramString))
  }

  /** isset($params['id']): the field is there and is not null. */
  predicate HasId(params: Record)
  {
    "id" in params && params["id"].Some?
  }

  /** The key a record is stored under: its id as an array key, or the next integer key. */
  function StoredKey(normalised: Entries<Record>, params: Record): Key
  {
    if HasId(params) then ArrayKey(params["id"].value) else IntKey(NextIndex(normalised))
  }

  /**
   * One round of the outer loop: a record with an id replaces whatever is
   * stored under that id, in its slot, or is appended under it; a record
   * without one is appended under the next integer key.
   */
  function Store(normalised: Entries<Record>, params: Record): Entries<Record>
  {
    if HasId(params) then Set(normalised, ArrayKey(params["id"].value), params)
    else Push(normalised, params)
  }

  /**
   * The record lands under its stored key, every other key keeps its
   * value, an existing key keeps its slot and a new one is appended; a
   * record without an id always gets a fresh key.
   */
  lemma StoreSpec(normalised: Entries<Record>, params: Record)
    ensures var r, k := Store(normalised, params), StoredKey(normalised, params);
      && (Valid(normalised) ==> Valid(r))
      && Get(r, k) == Some(params)
      && (forall k' :: k' != k ==> Get(r, k') == Get(normalised, k'))
      && (HasKey(normalised, k) ==> KeysOf(r) == KeysOf(normalised))
      && (!HasKey(normalised, k) ==> r == normalised + [(k, params)])
      && (!HasId(params) ==> !HasKey(normalised, k))
  {
    if !HasId(params) {
      PushIsSet(normalised, params);
    }
  }

  /** What normaliseParameters returns for the parameter strings. */
  function Normalise(parameters: seq<string>): Entries<Record>
    decreases |parameters|
  {
    if parameters == [] then []
    else Store(Normalise(parameters[..|parameters| - 1]), ParseRecord(parameters[|parameters| - 1]))
  }

  /** normaliseParameters: the outer foreach growing `$normalisedParameters`. */
  method NormaliseParameters(parameters: seq<string>) returns (normalised: Entries<Record>)
    ensures normalised == Normalise(parameters)
    ensures Valid(normalised) && |normalised| <= |parameters|
  {
    normalised := [];
    for i := 0 to |parameters|
      invariant normalised == Normalise(parameters[..i])
    {
      var params := ParseParameterString(parameters[i]);
      NormaliseStep(parameters[..i + 1]);
      assert parameters[..i + 1][..i] == parameters[..i];
      if "id" in params && params["id"].Some? {
        normalised := Set(normalised, ArrayKey(params["id"].value), params);
      } else {
        normalised := Push(normalised, params);
      }
    }
    assert parameters[..|parameters|] == parameters;
    NormaliseBounds(parameters);
  }

  /** The inner foreach of normaliseParameters: `$params` grows one segment at a time. */
  method ParseParameterString(paramString: string) returns (params: Record)
    ensures params == ParseRecord(paramString)
  {
    var tmpParams := Explode(',', paramString);
    params := map[];
    for j := 0 to |tmpParams|
      invariant params == RecordOf(tmpParams[..j])
    {
      var pieces := Explode('=', tmpParams[j]);
      var tmpKey := pieces[0];
      var tmpVal := if |pieces| > 1 then Some(pieces[1]) else None;
      params := params[tmpKey := tmpVal];
      assert tmpParams[..j + 1][..j] == tmpParams[..j];
    }
    assert tmpParams[..|tmpParams|] == tmpParams;
  }

  /** A segment without '=' names a field whose value is null. */
  lemma SegmentWithoutEquals(segment: string)
    requires '=' !in segment
    ensures SegmentKey(segment) == segment
    ensures SegmentValue(segment) == None
  {
    ExplodePrefix('=', segment, []);
    assert segment + [] == segment;
  }

  /**
   * A segment `key=value` names `key` with `value`; whatever follows a
   * second '=' is dropped.
   */
  lemma SegmentWithEquals(key: string, value: string, tail: string)
    requires '=' !in key && '=' !in value
    requires tail == [] || tail[0] == '='
    ensures SegmentKey(key + "=" + value + tail) == key
    ensures SegmentValue(key + "=" + value + tail) == Some(value)
  {
    assert key + "=" + value + tail == key + ['='] + (value + tail);
    ExplodeAfterSeparator('=', key, value + tail);
    ExplodePrefix('=', value, tail);
    assert Explode('=', tail)[0] == [];
    assert value + [] == value;
  }

  /** Every segment's field name is a field of the record, and nothing else is. */
  lemma {:induction false} RecordOfFields(segments: seq<string>)
    ensures RecordOf(segments).Keys == set j | 0 <= j < |segments| :: SegmentKey(segments[j])
    decreases |segments|
  {
    if segments != [] {
      var init := segments[..|segments| - 1];
      RecordOfFields(init);
      assert forall j :: 0 <= j < |init| ==> init[j] == segments[j];
    }
  }

  /** The value of a field is the one of the last segment naming it: a repeated key keeps the last value. */
  lemma {:induction false} RecordOfLastWins(segments: seq<string>, j: nat)
    requires j < |segments|
    requires forall m :: j < m < |segments| ==> SegmentKey(segments[m]) != SegmentKey(segments[j])
    ensures SegmentKey(segments[j]) in RecordOf(segments)
    ensures RecordOf(segments)[SegmentKey(segments[j])] == SegmentValue(segments[j])
    decreases |segments|
  {
    if j < |segments| - 1 {
      var init := segments[..|segments| - 1];
      assert init[j] == segments[j];
      RecordOfLastWins(init, j);
    }
  }

  /** The result is a valid array with no more entries than parameter strings. */
  lemma {:induction false} NormaliseBounds(parameters: seq<string>)
    ensures Valid(Normalise(parameters))
    ensures |Normalise(parameters)| <= |parameters|
    decreases |parameters|
  {
    if parameters != [] {
      NormaliseBounds(parameters[..|parameters| - 1]);
    }
  }

  /** Storing a record never moves or drops a key: the old keys are a prefix of the new ones. */
  lemma StoreKeepsKeys(normalised: Entries<Record>, params: Record)
    ensures KeysOf(normalised) <= KeysOf(Store(normalised, params))
  {
    var k := StoredKey(normalised, params);
    if HasId(params) {
      assert KeysOf(Set(normalised, k, params)) == if HasKey(normalised, k) then KeysOf(normalised) else KeysOf(normalised) + [k];
    } else {
      assert KeysOf(Push(normalised, params)) == KeysOf(normalised) + [k];
    }
  }

  /** One more parameter string: its record is stored into the array built from the earlier ones. */
  lemma NormaliseStep(parameters: seq<string>)
    requires parameters != []
    ensures Normalise(parameters)
         == Store(Normalise(parameters[..|parameters| - 1]), ParseRecord(parameters[|parameters| - 1]))
  {
  }

  lemma PrefixTransitive(a: seq<Key>, b: seq<Key>, c: seq<Key>)
    requires a <= b && b <= c
    ensures a <= c
  {
  }

  /** Entries never move: the keys after the first i strings are a prefix of the final keys. */
  lemma {:induction false} NormaliseKeepsSlots(parameters: seq<string>, i: nat)
    requires i <= |parameters|
    ensures KeysOf(Normalise(parameters[..i])) <= KeysOf(Normalise(parameters))
    decreases |parameters| - i
  {
    if i < |parameters| {
      var n := |parameters|;
      var init := parameters[..n - 1];
      NormaliseKeepsSlots(init, i);
      assert init[..i] == parameters[..i];
      NormaliseStep(parameters);
      StoreKeepsKeys(Normalise(init), ParseRecord(parameters[n - 1]));
      PrefixTransitive(KeysOf(Normalise(parameters[..i])), KeysOf(Normalise(init)), KeysOf(Normalise(parameters)));
    } else {
      assert parameters[..i] == parameters;
    }
  }

  /**
   * A record stored after the one under key k leaves it there, unless it
   * carries an id with that very key.
   */
  lemma StoreKeepsEarlier(before: Entries<Record>, params: Record, k: Key, earlier: Record)
    requires Get(before, k) == Some(earlier)
    requires HasId(params) ==> ArrayKey(params["id"].value) != k
    ensures Get(Store(before, params), k) == Some(earlier)
  {
    assert HasKey(before, k);
    StoreSpec(before, params);
    assert k != StoredKey(before, params);
  }

  /**
   * The last record stored under an id's key is what the array holds
   * there: a later record with the same id replaces an earlier one wholly,
   * and records without an id never land on a key already in use.
   */
  lemma {:induction false} NormaliseLastIdWins(parameters: seq<string>, j: nat)
    requires j < |parameters|
    requires HasId(ParseRecord(parameters[j]))
    requires forall m :: j < m < |parameters| && HasId(ParseRecord(parameters[m])) ==>
      ArrayKey(ParseRecord(parameters[m])["id"].value) != ArrayKey(ParseRecord(parameters[j])["id"].value)
    ensures Get(Normalise(parameters), ArrayKey(ParseRecord(parameters[j])["id"].value)) == Some(ParseRecord(parameters[j]))
    decreases |parameters|
  {
    var n := |parameters|;
    var init := parameters[..n - 1];
    var record := ParseRecord(parameters[j]);
    var k := ArrayKey(record["id"].value);
    NormaliseStep(parameters);
    if j < n - 1 {
      assert init[j] == parameters[j];
      forall m | j < m < |init| && HasId(ParseRecord(init[m]))
        ensures ArrayKey(ParseRecord(init[m])["id"].value) != ArrayKey(ParseRecord(init[j])["id"].value)
      {
        assert init[m] == parameters[m];
      }
      NormaliseLastIdWins(init, j);
      StoreKeepsEarlier(Normalise(init), ParseRecord(parameters[n - 1]), k, record);
    }
  }

  /** The records of the parameter strings, in order. */
  function ParseAll(parameters: seq<string>): (records: seq<Record>)
    ensures |records| == |parameters|
    ensures forall m :: 0 <= m < |parameters| ==> records[m] == ParseRecord(parameters[m])
  {
    seq(|parameters|, m requires 0 <= m < |parameters| => ParseRecord(parameters[m]))
  }

  lemma ParseAllSnoc(parameters: seq<string>)
    requires parameters != []
    ensures ParseAll(parameters)
         == ParseAll(parameters[..|parameters| - 1]) + [ParseRecord(parameters[|parameters| - 1])]
  {
    var n := |parameters|;
    var init := parameters[..n - 1];
    forall i | 0 <= i < n - 1 ensures ParseAll(parameters)[i] == ParseAll(init)[i] {
      assert init[i] == parameters[i];
    }
  }

  /** A single record without an id is stored under key 0. */
  lemma NormaliseSingle(a: string)
    requires !HasId(ParseRecord(a))
    ensures Normalise([a]) == [(IntKey(0), ParseRecord(a))]
  {
    NormaliseStep([a]);
    assert [a][..0] == [];
    assert NextIndex<Record>([]) == 0;
  }

  /**
   * An id of "0" is the integer key 0: a record carrying it replaces, in
   * place, a record without an id stored before it under that key.
   */
  lemma IdZeroReplacesFirst(a: string, b: string)
    requires !HasId(ParseRecord(a))
    requires HasId(ParseRecord(b)) && ParseRecord(b)["id"].value == "0"
    ensures Normalise([a, b]) == [(IntKey(0), ParseRecord(b))]
  {
    var first := [(IntKey(0), ParseRecord(a))];
    NormaliseSingle(a);
    NormaliseStep([a, b]);
    assert [a, b][..1] == [a];
    assert ArrayKey("0") == IntKey(0) by {
      assert "0"[..0] == [];
    }
    assert Normalise([a, b]) == Set(first, IntKey(0), ParseRecord(b));
    assert IndexOf(first, IntKey(0)) == 0;
  }

  /** With no id anywhere, the records are listed in input order under keys 0, 1, 2, ... */
  lemma {:induction false} NormaliseWithoutIds(parameters: seq<string>)
    requires forall m :: 0 <= m < |parameters| ==> !HasId(ParseRecord(parameters[m]))
    ensures Normalise(parameters) == Indexed(ParseAll(parameters))
    decreases |parameters|
  {
    if parameters != [] {
      var n := |parameters|;
      var init := parameters[..n - 1];
      var last := ParseRecord(parameters[n - 1]);
      assert !HasId(last);
      forall m | 0 <= m < |init| ensures !HasId(ParseRecord(init[m])) {
        assert init[m] == parameters[m];
      }
      NormaliseWithoutIds(init);
      ParseAllSnoc(parameters);
      NormaliseStep(parameters);
      assert Store(Normalise(init), last) == Push(Normalise(init), last);
      PushIndexed(ParseAll(init), last);
    }
  }

  // ---------------------------------------------------------------------
  // Code pool, paths and the block class
  // ---------------------------------------------------------------------

  /** The code-pool check of execute: only `local` and `community` pass. */
  predicate ValidCodePool(codePool: string)
  {
    codePool == "local" || codePool == "community"
  }

  /** The comparison is exact: other pools, and other spellings of the two, are refused. */
  lemma CodePools()
    ensures ValidCodePool("local") && ValidCodePool("community")
    ensures !ValidCodePool("core") && !ValidCodePool("Local") && !ValidCodePool("local ") && !ValidCodePool("")
  {
  }

  /** The command's arguments as typed on the command line. */
  datatype Arguments = Arguments(
    vendorNamespace: string,
    moduleName: string,
    codePool: string,
    moduleId: string,
    widgetId: string,
    widgetName: string,
    designPackage: string,
    designTheme: string,
    widgetParameter: seq<string>)

  /** A sequence starts with its first part and ends with its last. */
  lemma Affixes(x: string, y: string)
    ensures x <= x + y && (x + y)[|x|..] == y
  {
  }

  /** What the path getters and the block class are computed from. */
  datatype Target = Target(
    root: string,
    vendorNamespace: string,
    moduleName: string,
    codePool: string,
    moduleId: string,
    widgetId: string,
    designPackage: string,
    designTheme: string)
  {
    /** getModuleDir: the module's directory, under app/code of the Magento root. */
    function ModuleDir(): (dir: string)
      ensures root + "/app/code/" <= dir
    {
      var dir := root + "/app/code/" + codePool + "/" + vendorNamespace + "/" + moduleName;
      var rest := codePool + "/" + vendorNamespace + "/" + moduleName;
      assert dir == root + "/app/code/" + rest;
      Affixes(root + "/app/code/", rest);
      dir
    }

    /** getDesignDir: the frontend theme's directory, under app/design/frontend. */
    function DesignDir(): (dir: string)
      ensures root + "/app/design/frontend/" <= dir
    {
      var dir := root + "/app/design/frontend" + "/" + designPackage + "/" + designTheme;
      var rest := designPackage + "/" + designTheme;
      assert dir == root + "/app/design/frontend/" + rest;
      Affixes(root + "/app/design/frontend/", rest);
      dir
    }

    /** getWidgetBlockDir: a directory inside the module's. */
    function WidgetBlockDir(): (dir: string)
      ensures ModuleDir() + "/" <= dir
    {
      var dir := ModuleDir() + "/Block/Widget";
      assert dir == ModuleDir() + "/" + "Block/Widget";
      Affixes(ModuleDir() + "/", "Block/Widget");
      dir
    }

    /** getWidgetBlockFilename: a `.php` file directly in the block directory. */
    function WidgetBlockFilename(): (file: string)
      ensures WidgetBlockDir() + "/" <= file
      ensures file[|file| - 4..] == ".php"
    {
      var file := WidgetBlockDir() + "/" + CamelCase(widgetId) + ".php";
      assert file == WidgetBlockDir() + "/" + (CamelCase(widgetId) + ".php");
      Affixes(WidgetBlockDir() + "/", CamelCase(widgetId) + ".php");
      Affixes(WidgetBlockDir() + "/" + CamelCase(widgetId), ".php");
      file
    }

    /** getWidgetTemplateDir: a directory inside the theme's template directory. */
    function WidgetTemplateDir(): (dir: string)
      ensures DesignDir() + "/template/" <= dir
    {
      var dir := DesignDir() + "/template/" + moduleId + "/widget";
      assert dir == DesignDir() + "/template/" + (moduleId + "/widget");
      Affixes(DesignDir() + "/template/", moduleId + "/widget");
      dir
    }

    /** getWidgetTemplateFilename: a `.phtml` file directly in the template directory. */
    function WidgetTemplateFilename(): (file: string)
      ensures WidgetTemplateDir() + "/" <= file
      ensures file[|file| - 6..] == ".phtml"
    {
      var file := WidgetTemplateDir() + "/" + widgetId + ".phtml";
      assert file == WidgetTemplateDir() + "/" + (widgetId + ".phtml");
      Affixes(WidgetTemplateDir() + "/", widgetId + ".phtml");
      Affixes(WidgetTemplateDir() + "/" + widgetId, ".phtml");
      file
    }

    /** getWidgetXmlFilename: the module's `etc/widget.xml`. */
    function WidgetXmlFilename(): (file: string)
      ensures ModuleDir() + "/" <= file
      ensures file[|file| - 10..] == "widget.xml"
    {
      var file := ModuleDir() + "/etc/widget.xml";
      assert file == ModuleDir() + "/" + "etc/widget.xml";
      assert file == ModuleDir() + "/etc/" + "widget.xml";
      Affixes(ModuleDir() + "/", "etc/widget.xml");
      Affixes(ModuleDir() + "/etc/", "widget.xml");
      file
    }

    /**
     * The `blockClass` view variable: it starts with the vendor name, and its
     * last |widgetId| characters without their underscores are the base name
     * of the block file.
     */
    function BlockClass(): (name: string)
      ensures vendorNamespace <= name
      ensures |name| >= |widgetId| && Remove('_', name[|name| - |widgetId|..]) == CamelCase(widgetId)
    {
      var name := vendorNamespace + "_" + moduleName + "_Block_Widget_" + UpperUscore(widgetId);
      UpperUscoreWithoutUnderscores(widgetId);
      assert name[|name| - |widgetId|..] == UpperUscore(widgetId);
      name
    }
  }

  /** The target execute builds from the arguments: vendor and module names are ucfirst-ed. */
  function TargetOf(root: string, args: Arguments): Target
  {
    Target(root, UcFirst(args.vendorNamespace), UcFirst(args.moduleName), args.codePool,
           args.moduleId, args.widgetId, args.designPackage, args.designTheme)
  }

  /**
   * Where the artifacts go, from the command-line arguments: the module
   * directory under app/code/<codePool>/<Vendor>/<Module>, the block file
   * named after the camel-cased widget id, the template under
   * template/<moduleId>/widget, and the block class named
   * Vendor_Module_Block_Widget_<Upper_Uscore widget id>, whose last part
   * without its underscores is the block file's name.
   */
  lemma PathLayout(root: string, args: Arguments)
    ensures var t := TargetOf(root, args);
      && t.ModuleDir() == root + "/app/code/" + args.codePool + "/" + UcFirst(args.vendorNamespace) + "/" + UcFirst(args.moduleName)
      && t.WidgetBlockFilename() == t.ModuleDir() + "/Block/Widget/" + CamelCase(args.widgetId) + ".php"
      && t.WidgetXmlFilename() == t.ModuleDir() + "/etc/widget.xml"
      && t.WidgetTemplateFilename() == t.DesignDir() + "/template/" + args.moduleId + "/widget/" + args.widgetId + ".phtml"
      && t.BlockClass() == UcFirst(args.vendorNamespace) + "_" + UcFirst(args.moduleName) + "_Block_Widget_" + UpperUscore(args.widgetId)
      && Remove('_', UpperUscore(args.widgetId)) == CamelCase(args.widgetId)
  {
    var t := TargetOf(root, args);
    assert t.WidgetBlockFilename() == t.ModuleDir() + "/Block/Widget/" + CamelCase(args.widgetId) + ".php";
    assert t.WidgetTemplateFilename() == t.DesignDir() + "/template/" + args.moduleId + "/widget/" + args.widgetId + ".phtml";
    UpperUscoreWithoutUnderscores(args.widgetId);
  }

  // ---------------------------------------------------------------------
  // execute
  // ---------------------------------------------------------------------

  /** What execute does to the filesystem, one entry per call. */
  datatype Effect =
    | CreatedDirectory(path: string)   // mkdir($dir, 0775, true)
    | WroteDescriptor(path: string)    // widget.xml rendered whole from widget.xml.phtml
    | MergedDescriptor(path: string)   // widget.part.xml.phtml merged into widget.xml by extendChild
    | WroteBlock(path: string)         // the block class from widget.block.phtml
    | WroteTemplate(path: string)      // the frontend template from widget.template.phtml

  /** The exceptions execute throws. */
  datatype Error =
    | InvalidCodePool(codePool: string)   // InvalidArgumentException
    | ThemeDirMissing(path: string)       // RuntimeException from getDesignDir
    | ModuleDirMissing(path: string)      // RuntimeException from getModuleDir
    | MalformedXml(path: string)          // Varien_Simplexml_Element refusing the fragment or widget.xml

  /** What execute does once the arguments are read: its effects, in order, and how it ends. */
  datatype Run = Run(effects: seq<Effect>, outcome: Result<(), Error>)

  /**
   * createDirectories over the listed directories: each one is made unless
   * is_dir holds for it by then, either from the start or because it was
   * listed and made earlier.
   */
  function CreateDirs(dirs: seq<string>, existing: set<string>): seq<string>
    decreases |dirs|
  {
    if dirs == [] then []
    else
      var made := CreateDirs(dirs[..|dirs| - 1], existing);
      var last := dirs[|dirs| - 1];
      made + (if last in existing || last in made then [] else [last])
  }

  /** A directory is made exactly when it is listed and was not a directory to begin with, and at most once. */
  lemma {:induction false} CreateDirsMade(dirs: seq<string>, existing: set<string>)
    ensures forall d :: d in CreateDirs(dirs, existing) <==> d in dirs && d !in existing
    ensures forall i, j :: 0 <= i < j < |CreateDirs(dirs, existing)| ==> CreateDirs(dirs, existing)[i] != CreateDirs(dirs, existing)[j]
    decreases |dirs|
  {
    if dirs != [] {
      var init := dirs[..|dirs| - 1];
      CreateDirsMade(init, existing);
      assert forall d :: d in dirs <==> d in init || d == dirs[|dirs| - 1];
    }
  }

  /** A path that is not listed is never made. */
  lemma CreateDirsListed(dirs: seq<string>, existing: set<string>, path: string)
    requires path !in dirs
    ensures path !in CreateDirs(dirs, existing)
  {
    CreateDirsMade(dirs, existing);
  }

  /** One more round of createDirectories, and its log entry. */
  lemma CreateDirsSnoc(dirs: seq<string>, i: nat, existing: set<string>)
    requires i < |dirs|
    ensures var made := CreateDirs(dirs[..i], existing);
      CreateDirs(dirs[..i + 1], existing) == made + (if dirs[i] in existing || dirs[i] in made then [] else [dirs[i]])
  {
    assert dirs[..i + 1][..i] == dirs[..i];
  }

  /**
   * One pass of createDirectories' foreach keeps the directories equal to
   * those at the start plus the ones made so far, and the log equal to the
   * log at the start plus one entry per directory made.
   */
  lemma CreateDirsStep(existing: set<string>, made: seq<string>, x: string, next: seq<string>, startLog: seq<Effect>,
                       dirs0: set<string>, log0: seq<Effect>, dirs1: set<string>, log1: seq<Effect>)
    requires next == made + (if x in existing || x in made then [] else [x])
    requires dirs0 == existing + Members(made)
    requires log0 == startLog + DirectoryEffects(made)
    requires x in dirs0 ==> dirs1 == dirs0 && log1 == log0
    requires x !in dirs0 ==> dirs1 == dirs0 + {x} && log1 == log0 + [CreatedDirectory(x)]
    ensures dirs1 == existing + Members(next)
    ensures log1 == startLog + DirectoryEffects(next)
  {
    if x !in dirs0 {
      assert Members(made + [x]) == Members(made) + {x};
      assert (made + [x])[..|made|] == made;
      assert DirectoryEffects(made + [x]) == DirectoryEffects(made) + [CreatedDirectory(x)];
    } else {
      assert x in existing || x in made;
      assert next == made;
    }
  }

  /** The paths listed in a sequence. */
  function Members(paths: seq<string>): set<string>
  {
    set p | p in paths
  }

  /** The log entries of the directories made, in order. */
  function DirectoryEffects(made: seq<string>): seq<Effect>
    decreases |made|
  {
    if made == [] then [] else DirectoryEffects(made[..|made| - 1]) + [CreatedDirectory(made[|made| - 1])]
  }

  /** One mkdir entry per directory made, in the same order, and nothing else. */
  lemma {:induction false} DirectoryEffectsAt(made: seq<string>)
    ensures |DirectoryEffects(made)| == |made|
    ensures forall i :: 0 <= i < |made| ==> DirectoryEffects(made)[i] == CreatedDirectory(made[i])
    decreases |made|
  {
    if made != [] {
      var init := made[..|made| - 1];
      DirectoryEffectsAt(init);
      assert forall i :: 0 <= i < |init| ==> made[i] == init[i];
    }
  }

  /** The three checks execute makes before it changes anything: the code pool, the theme and the module. */
  predicate ChecksPass(t: Target, dirs: set<string>, files: set<string>)
  {
    ValidCodePool(t.codePool) && t.DesignDir() in dirs + files && t.ModuleDir() in dirs + files
  }

  /**
   * Everything execute does once the arguments are read, in order, and how
   * it ends. The design directory is checked first, by initView (the
   * template filename needs it), the module directory next, by
   * createDirectories; these three exceptions come before any change.
   * `xmlParses` says whether updateWidgetXml's two Varien_Simplexml_Element
   * constructions succeed: when one throws, the directories and a fresh
   * widget.xml are already made and nothing else is written.
   */
  function Plan(t: Target, dirs: set<string>, files: set<string>, xmlParses: bool): (r: Run)
    ensures r.outcome.Success? ==>
      |r.effects| >= 3 && r.effects[|r.effects| - 3..]
      == [MergedDescriptor(t.WidgetXmlFilename()), WroteBlock(t.WidgetBlockFilename()), WroteTemplate(t.WidgetTemplateFilename())]
  {
    if !ValidCodePool(t.codePool) then Run([], Failure(InvalidCodePool(t.codePool)))
    else if t.DesignDir() !in dirs + files then Run([], Failure(ThemeDirMissing(t.DesignDir())))
    else if t.ModuleDir() !in dirs + files then Run([], Failure(ModuleDirMissing(t.ModuleDir())))
    else
      var made := CreateDirs([t.WidgetBlockDir(), t.WidgetTemplateDir()], dirs);
      var xml := t.WidgetXmlFilename();
      var present := xml in dirs + files || xml in made;
      var prepared := DirectoryEffects(made) + (if present then [] else [WroteDescriptor(xml)]);
      if xmlParses then
        Run(prepared + [MergedDescriptor(xml), WroteBlock(t.WidgetBlockFilename()), WroteTemplate(t.WidgetTemplateFilename())],
            Success(()))
      else
        Run(prepared, Failure(MalformedXml(xml)))
  }

  /**
   * The run stops with InvalidArgumentException exactly when the code pool
   * is neither `local` nor `community`, and succeeds exactly when the checks
   * pass and the XML parses; a failed check leaves no effect at all.
   */
  lemma PlanChecksCodePool(t: Target, dirs: set<string>, files: set<string>, xmlParses: bool)
    ensures Plan(t, dirs, files, xmlParses).outcome == Failure(InvalidCodePool(t.codePool)) <==> !ValidCodePool(t.codePool)
    ensures Plan(t, dirs, files, xmlParses).outcome.Success? <==>
      ValidCodePool(t.codePool) && t.DesignDir() in dirs + files && t.ModuleDir() in dirs + files && xmlParses
    ensures !ChecksPass(t, dirs, files) ==> Plan(t, dirs, files, xmlParses).effects == []
  {
  }

  /** A run that ends in an exception has written neither the block file nor the template. */
  lemma PlanFailureWritesNoWidget(t: Target, dirs: set<string>, files: set<string>, xmlParses: bool)
    requires Plan(t, dirs, files, xmlParses).outcome.Failure?
    ensures WroteBlock(t.WidgetBlockFilename()) !in Plan(t, dirs, files, xmlParses).effects
    ensures WroteTemplate(t.WidgetTemplateFilename()) !in Plan(t, dirs, files, xmlParses).effects
  {
    if ChecksPass(t, dirs, files) {
      DirectoryEffectsAt(CreateDirs([t.WidgetBlockDir(), t.WidgetTemplateDir()], dirs));
    }
  }

  /**
   * Once the checks pass, the run makes the missing widget directories,
   * writes the whole widget.xml only when it did not exist before the run,
   * then merges the widget into it and writes the block file and the
   * template file last, in that order; if the XML does not parse it stops
   * with that exception right after widget.xml.
   */
  lemma PlanOrder(t: Target, dirs: set<string>, files: set<string>, xmlParses: bool)
    requires ChecksPass(t, dirs, files)
    ensures var xml := t.WidgetXmlFilename();
      Plan(t, dirs, files, xmlParses).effects
        == DirectoryEffects(CreateDirs([t.WidgetBlockDir(), t.WidgetTemplateDir()], dirs))
         + (if xml in dirs + files then [] else [WroteDescriptor(xml)])
         + (if xmlParses then [MergedDescriptor(xml), WroteBlock(t.WidgetBlockFilename()), WroteTemplate(t.WidgetTemplateFilename())] else [])
    ensures Plan(t, dirs, files, xmlParses).outcome == if xmlParses then Success(()) else Failure(MalformedXml(t.WidgetXmlFilename()))
    ensures t.WidgetXmlFilename() != t.WidgetBlockDir() && t.WidgetXmlFilename() != t.WidgetTemplateDir()
  {
    var xml := t.WidgetXmlFilename();
    // widget.xml ends in 'l', both widget directories in 't': it is never one of them.
    assert xml[|xml| - 1] == 'l';
    assert t.WidgetBlockDir()[|t.WidgetBlockDir()| - 1] == 't';
    assert t.WidgetTemplateDir()[|t.WidgetTemplateDir()| - 1] == 't';
    CreateDirsListed([t.WidgetBlockDir(), t.WidgetTemplateDir()], dirs, xml);
  }

  /**
   * The filesystem as the command sees it: directories and files by path,
   * and the log of what has been done to it.
   */
  class FileSystem {
    var dirs: set<string>
    var files: set<string>
    var log: seq<Effect>

    constructor (dirs: set<string>, files: set<string>)
      ensures this.dirs == dirs && this.files == files && log == []
    {
      this.dirs := dirs;
      this.files := files;
      log := [];
    }

    /** file_exists */
    predicate Exists(path: string)
      reads this
    {
      path in dirs || path in files
    }

    /** is_dir */
    predicate IsDir(path: string)
      reads this
    {
      path in dirs
    }

    /** mkdir($dir, 0775, true) */
    method MakeDirectory(path: string)
      modifies this
      ensures dirs == old(dirs) + {path} && files == old(files)
      ensures log == old(log) + [CreatedDirectory(path)]
    {
      dirs := dirs + {path};
      log := log + [CreatedDirectory(path)];
    }

    /** The body of createDirectories' foreach: mkdir unless is_dir. */
    method MakeIfMissing(path: string)
      modifies this
      ensures path in old(dirs) ==> dirs == old(dirs) && log == old(log)
      ensures path !in old(dirs) ==> dirs == old(dirs) + {path} && log == old(log) + [CreatedDirectory(path)]
      ensures files == old(files)
    {
      if !IsDir(path) {
        MakeDirectory(path);
      }
    }

    /** createDirectories: the foreach making every directory that is_dir does not find. */
    method CreateDirectories(toCreate: seq<string>)
      modifies this
      ensures dirs == old(dirs) + Members(CreateDirs(toCreate, old(dirs)))
      ensures files == old(files)
      ensures log == old(log) + DirectoryEffects(CreateDirs(toCreate, old(dirs)))
    {
      ghost var start, startLog := dirs, log;
      ghost var made: seq<string> := [];
      for i := 0 to |toCreate|
        invariant made == CreateDirs(toCreate[..i], start)
        invariant files == old(files)
        invariant dirs == start + Members(made)
        invariant log == startLog + DirectoryEffects(made)
      {
        ghost var dirs0, log0 := dirs, log;
        MakeIfMissing(toCreate[i]);
        CreateDirsSnoc(toCreate, i, start);
        CreateDirsStep(start, made, toCreate[i], CreateDirs(toCreate[..i + 1], start), startLog, dirs0, log0, dirs, log);
        made := CreateDirs(toCreate[..i + 1], start);
      }
      assert toCreate[..|toCreate|] == toCreate;
    }

    /** file_put_contents, or asXML writing back the merged document: the file exists afterwards. */
    method Write(effect: Effect)
      requires !effect.CreatedDirectory?
      modifies this
      ensures dirs == old(dirs) && files == old(files) + {effect.path}
      ensures log == old(log) + [effect]
    {
      files := files + {effect.path};
      log := log + [effect];
    }
  }

  /** The command object: execute stores the arguments in these fields before anything else. */
  class CreateCommand {
    var magentoRootFolder: string
    var vendorNamespace: string
    var moduleName: string
    var codePool: string
    var moduleId: string
    var widgetId: string
    var widgetName: string
    var designPackage: string
    var designTheme: string
    var widgetParameters: Entries<Record>

    /** The root folder is what detectMagento finds. */
    constructor (magentoRootFolder: string)
      ensures this.magentoRootFolder == magentoRootFolder
    {
      this.magentoRootFolder := magentoRootFolder;
      vendorNamespace, moduleName, codePool, moduleId := "", "", "", "";
      widgetId, widgetName, designPackage, designTheme := "", "", "", "";
      widgetParameters := [];
    }

    function CurrentTarget(): Target
      reads this
    {
      Target(magentoRootFolder, vendorNamespace, moduleName, codePool,
                          moduleId, widgetId, designPackage, designTheme)
    }

    /**
     * execute: set the fields, check the code pool, check the design and
     * module directories, create the widget directories, create widget.xml
     * if absent, merge the widget into it, write the block file, write the
     * template file.
     */
    method Execute(args: Arguments, fs: FileSystem, xmlParses: bool) returns (outcome: Result<(), Error>)
      modifies this, fs
      ensures magentoRootFolder == old(magentoRootFolder)
      ensures CurrentTarget() == TargetOf(magentoRootFolder, args)
      ensures widgetName == args.widgetName
      ensures widgetParameters == Normalise(args.widgetParameter)
      ensures var run := Plan(CurrentTarget(), old(fs.dirs), old(fs.files), xmlParses);
        outcome == run.outcome && fs.log == old(fs.log) + run.effects
      ensures !ChecksPass(CurrentTarget(), old(fs.dirs), old(fs.files)) ==>
        fs.dirs == old(fs.dirs) && fs.files == old(fs.files)
      ensures var t := CurrentTarget(); ChecksPass(t, old(fs.dirs), old(fs.files)) ==>
        fs.dirs == old(fs.dirs) + Members(CreateDirs([t.WidgetBlockDir(), t.WidgetTemplateDir()], old(fs.dirs)))
      ensures var t := CurrentTarget(); ChecksPass(t, old(fs.dirs), old(fs.files)) && xmlParses ==>
        fs.files == old(fs.files) + {t.WidgetXmlFilename(), t.WidgetBlockFilename(), t.WidgetTemplateFilename()}
      ensures var t := CurrentTarget(); ChecksPass(t, old(fs.dirs), old(fs.files)) && !xmlParses ==>
        fs.files == old(fs.files) + (if t.WidgetXmlFilename() in old(fs.dirs) then {} else {t.WidgetXmlFilename()})
    {
      ghost var dirs0, files0 := fs.dirs, fs.files;
      ReadArguments(args);
      var t := CurrentTarget();
      assert fs.dirs == dirs0 && fs.files == files0;
      outcome := Scaffold(t, fs, xmlParses);
    }

    /** The first lines of execute: the arguments go into the fields, vendor and module ucfirst-ed. */
    method ReadArguments(args: Arguments)
      modifies this
      ensures magentoRootFolder == old(magentoRootFolder)
      ensures CurrentTarget() == TargetOf(magentoRootFolder, args)
      ensures widgetName == args.widgetName
      ensures widgetParameters == Normalise(args.widgetParameter)
    {
      vendorNamespace := UcFirst(args.vendorNamespace);
      moduleName := UcFirst(args.moduleName);
      codePool := args.codePool;
      moduleId := args.moduleId;
      widgetId := args.widgetId;
      widgetName := args.widgetName;
      designPackage := args.designPackage;
      designTheme := args.designTheme;
      widgetParameters := NormaliseParameters(args.widgetParameter);
    }
  }

  /**
   * The part of execute after the fields are set: the code-pool check, the
   * design and module directory checks, then the writes.
   */
  method Scaffold(t: Target, fs: FileSystem, xmlParses: bool) returns (outcome: Result<(), Error>)
    modifies fs
    ensures var run := Plan(t, old(fs.dirs), old(fs.files), xmlParses);
      outcome == run.outcome && fs.log == old(fs.log) + run.effects
    ensures !ChecksPass(t, old(fs.dirs), old(fs.files)) ==> fs.dirs == old(fs.dirs) && fs.files == old(fs.files)
    ensures ChecksPass(t, old(fs.dirs), old(fs.files)) ==>
      fs.dirs == old(fs.dirs) + Members(CreateDirs([t.WidgetBlockDir(), t.WidgetTemplateDir()], old(fs.dirs)))
    ensures ChecksPass(t, old(fs.dirs), old(fs.files)) && xmlParses ==>
      fs.files == old(fs.files) + {t.WidgetXmlFilename(), t.WidgetBlockFilename(), t.WidgetTemplateFilename()}
    ensures ChecksPass(t, old(fs.dirs), old(fs.files)) && !xmlParses ==>
      fs.files == old(fs.files) + (if t.WidgetXmlFilename() in old(fs.dirs) then {} else {t.WidgetXmlFilename()})
  {
    if !(t.codePool == "local" || t.codePool == "community") {
      return Failure(InvalidCodePool(t.codePool));
    }
    // initView: the template filename goes into the view, and getDesignDir checks the theme.
    if !fs.Exists(t.DesignDir()) {
      return Failure(ThemeDirMissing(t.DesignDir()));
    }
    // createDirectories: getWidgetBlockDir calls getModuleDir, which checks the module.
    if !fs.Exists(t.ModuleDir()) {
      return Failure(ModuleDirMissing(t.ModuleDir()));
    }
    outcome := WriteWidget(t, fs, xmlParses);
  }

  /**
   * createDirectories, then widget.xml written when absent and merged
   * into, then the block and the template files.
   */
  method WriteWidget(t: Target, fs: FileSystem, xmlParses: bool) returns (outcome: Result<(), Error>)
    requires ChecksPass(t, fs.dirs, fs.files)
    modifies fs
    ensures outcome == Plan(t, old(fs.dirs), old(fs.files), xmlParses).outcome
    ensures fs.log == old(fs.log) + Plan(t, old(fs.dirs), old(fs.files), xmlParses).effects
    ensures fs.dirs == old(fs.dirs) + Members(CreateDirs([t.WidgetBlockDir(), t.WidgetTemplateDir()], old(fs.dirs)))
    ensures xmlParses ==> fs.files == old(fs.files) + {t.WidgetXmlFilename(), t.WidgetBlockFilename(), t.WidgetTemplateFilename()}
    ensures !xmlParses ==>
      fs.files == old(fs.files) + (if t.WidgetXmlFilename() in old(fs.dirs) then {} else {t.WidgetXmlFilename()})
  {
    ghost var run := Plan(t, fs.dirs, fs.files, xmlParses);
    ghost var log0 := fs.log;
    PlanOrder(t, fs.dirs, fs.files, xmlParses);
    outcome := WriteFiles([t.WidgetBlockDir(), t.WidgetTemplateDir()], t.WidgetXmlFilename(),
                          t.WidgetBlockFilename(), t.WidgetTemplateFilename(), fs, xmlParses);
    assert fs.log == log0 + run.effects;
  }

  /**
   * The writes of execute over the widget's paths: the directories,
   * widget.xml when it does not exist yet, then, when both documents
   * parse, the merge into it, the block and the template.
   */
  method WriteFiles(toCreate: seq<string>, xml: string, blockFile: string, templateFile: string, fs: FileSystem, xmlParses: bool)
    returns (outcome: Result<(), Error>)
    requires xml !in toCreate
    modifies fs
    ensures outcome == if xmlParses then Success(()) else Failure(MalformedXml(xml))
    ensures fs.log == old(fs.log)
      + (DirectoryEffects(CreateDirs(toCreate, old(fs.dirs)))
         + (if xml in old(fs.dirs) + old(fs.files) then [] else [WroteDescriptor(xml)])
         + (if xmlParses then [MergedDescriptor(xml), WroteBlock(blockFile), WroteTemplate(templateFile)] else []))
    ensures fs.dirs == old(fs.dirs) + Members(CreateDirs(toCreate, old(fs.dirs)))
    ensures xmlParses ==> fs.files == old(fs.files) + {xml, blockFile, templateFile}
    ensures !xmlParses ==> fs.files == old(fs.files) + (if xml in old(fs.dirs) then {} else {xml})
  {
    ghost var start := fs.log;
    ghost var prepared := DirectoryEffects(CreateDirs(toCreate, fs.dirs))
      + (if xml in fs.dirs + fs.files then [] else [WroteDescriptor(xml)]);
    PrepareDescriptor(toCreate, xml, fs);
    // updateWidgetXml: either Varien_Simplexml_Element may throw before asXML writes.
    if !xmlParses {
      assert prepared + [] == prepared;
      return Failure(MalformedXml(xml));
    }
    ghost var widget := [MergedDescriptor(xml), WroteBlock(blockFile), WroteTemplate(templateFile)];
    fs.Write(MergedDescriptor(xml));
    fs.Write(WroteBlock(blockFile));
    fs.Write(WroteTemplate(templateFile));
    assert fs.log == (start + prepared) + widget;
    assert (start + prepared) + widget == start + (prepared + widget);
    outcome := Success(());
  }

  /** createDirectories, then writeWidgetXml when widget.xml does not exist yet. */
  method PrepareDescriptor(toCreate: seq<string>, xml: string, fs: FileSystem)
    requires xml !in toCreate
    modifies fs
    ensures fs.log == old(fs.log)
      + (DirectoryEffects(CreateDirs(toCreate, old(fs.dirs)))
         + (if xml in old(fs.dirs) + old(fs.files) then [] else [WroteDescriptor(xml)]))
    ensures fs.dirs == old(fs.dirs) + Members(CreateDirs(toCreate, old(fs.dirs)))
    ensures fs.files == old(fs.files) + (if xml in old(fs.dirs) then {} else {xml})
  {
    ghost var made := CreateDirs(toCreate, fs.dirs);
    ghost var present := xml in fs.dirs + fs.files;
    ghost var start := fs.log;
    CreateDirsListed(toCreate, fs.dirs, xml);
    fs.CreateDirectories(toCreate);
    assert fs.Exists(xml) == present;
    var descriptor: seq<Effect> := [];
    if !fs.Exists(xml) {
      fs.Write(WroteDescriptor(xml));
      descriptor := [WroteDescriptor(xml)];
    }
    assert descriptor == if present then [] else [WroteDescriptor(xml)];
    assert fs.log == start + DirectoryEffects(made) + descriptor;
    assert start + DirectoryEffects(made) + descriptor == start + (DirectoryEffects(made) + descriptor);
  }
}
