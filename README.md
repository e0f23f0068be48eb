# n98-magerun command core in Dafny

This project models the data and string logic inside three commands of the
n98-magerun Magento command-line tool, and proves properties of it:

- `dev:widget:create` (`WidgetCreate`, widget_create.dfy) scaffolds a
  Magento widget. It normalises the repeated `k=v,k=v` widget parameter
  strings into a PHP ordered array. It accepts only the `local` and
  `community` code pools. It names the block file and the block class with
  the two underscore converters, and it composes the module, design, block,
  template and `widget.xml` paths. It then creates directories and writes or
  merges files in a fixed order, stopping with an exception when the
  widget XML does not parse.
- `extension:create` (`PackageCreate`, package_create.dfy) builds a Magento
  Connect package from `package.yaml`. It finds the file, checks
  `package_yaml_version` and cleans the parsed data. Cleaning drops the
  command's own keys, defaults `version_ids` and reshuffles every `contents`
  group so that it starts with `''`. It then saves the data and runs the 2.x
  and/or 1.x builds that `version_ids` asks for.
- `dev:vhost:generate` (`VHostGenerate`, vhost_generate.dfy) fills a
  template view. It assigns every command option under a camelCase name
  (`server-admin` becomes `serverAdmin`). It gives each website its host
  name and assigns the websites without the key-0 admin website. It then
  picks the apache template, or leaves the template alone for nginx. The
  view is created lazily, once.

Three support modules model the PHP built-ins these commands use:

- `PhpString` (php_string.dfy) has `explode`/`implode` with a one-character
  separator and `ucfirst`. It also holds `CapAfter`, a character-by-character
  reference definition of "upper-case the first letter of every part". The
  loops in the three converters are proved equal to `CapAfter`.
- `PhpArray` (php_array.dfy) models PHP ordered arrays: entries in insertion
  order under integer or string keys. It covers `$a[k] = v`, `$a[] = v` with
  the next integer key, `unset`, and the conversion of a decimal string
  offset into an integer key.
- `Wrappers` (wrappers.dfy) provides `Option`, which stands for PHP's null,
  and `Result`, which stands for a thrown exception.

State that the source changes in place is modelled with classes:
`WidgetCreate.CreateCommand`, `WidgetCreate.FileSystem`,
`VHostGenerate.GenerateVHostCommand`, `VHostGenerate.View` and
`VHostGenerate.Website`. Loops are methods proved against specification
functions. Each function's properties are proved as lemmas.

## Model

| member | source | states |
|---|---|---|
| PhpString.ImplodeCapitalized | src/N98/Magento/Command/Developer/Widget/CreateCommand.php:260-272 | Exploding on a separator, ucfirst-ing the parts (all, or all but the first) and imploding with the separator or with nothing equals the character-level reference `CapAfter` |
| PhpString.UcFirstParts | src/N98/Magento/Command/Developer/Widget/CreateCommand.php:262 | The in-place walk over the parts leaves exactly the parts from the start index ucfirst-ed and the others as they were |
| PhpString.ImplodeExplode | src/N98/Magento/Command/Developer/Widget/CreateCommand.php:268-270 | Imploding the exploded parts with the same separator gives the input back |
| PhpString.ExplodeImplode | src/N98/Magento/Command/Developer/Widget/CreateCommand.php:268-270 | Exploding the imploded parts gives the parts back when none contains the separator |
| PhpArray.Set | src/N98/Magento/Command/Developer/Widget/CreateCommand.php:144 | `$a[k] = v` makes k map to v and leaves every other key's value alone. It keeps an existing key in its slot, so the key sequence is unchanged, or else appends k; the result is still a valid array |
| PhpArray.NextIndex | src/N98/Magento/Command/Developer/Widget/CreateCommand.php:146 | The key `$a[] = v` uses is above every integer key, never negative, and is 0 or one past an existing integer key |
| PhpArray.Push | src/N98/Magento/Command/Developer/Widget/CreateCommand.php:146 | Appending uses a key not yet in the array and keeps the array valid |
| PhpArray.PushIsSet | src/N98/Magento/Command/Developer/Widget/CreateCommand.php:146 | `$a[] = v` is the same as assigning v under the next integer key |
| PhpArray.PushIndexed | src/N98/Magento/Command/MagentoConnect/CreatePackageCommand.php:99-103 | Appending to a list keyed 0..n-1 gives the list with one more value |
| PhpArray.Unset | src/N98/Magento/Command/Developer/GenerateVHostCommand.php:72 | `unset($a[k])` removes k, changes no other key's value, and shrinks the array by one exactly when k was present |
| PhpArray.UnsetIsDrop | src/N98/Magento/Command/Developer/GenerateVHostCommand.php:71-73 | On a valid array, unset equals the reference filter `Drop`: the other entries keep their keys and their order |
| PhpArray.ArrayKey | src/N98/Magento/Command/Developer/Widget/CreateCommand.php:144 | A string offset becomes an integer key exactly when it is a canonical decimal within the 64-bit range: then it is that decimal's value, otherwise it stays the same string |
| PhpArray.ArrayKeyExamples | src/N98/Magento/Command/Developer/Widget/CreateCommand.php:144 | `"5"` and `"-3"` become the integer keys 5 and -3; `"05"`, `"-0"` and `"+5"` stay string keys |
| WidgetCreate.Uscore2CamelCase | src/N98/Magento/Command/Developer/Widget/CreateCommand.php:260-265 | The result equals the reference `CamelCase`, contains no `_`, and is as long as the input minus its underscores |
| WidgetCreate.Uscore2UpperUscore | src/N98/Magento/Command/Developer/Widget/CreateCommand.php:267-272 | The result equals the reference `UpperUscore` and has the input's length |
| WidgetCreate.CamelCaseParts | src/N98/Magento/Command/Developer/Widget/CreateCommand.php:260-265 | uscore2CamelCase ucfirst-s every `_`-separated part and joins the parts; the result has no `_` and the length of the input minus its underscores |
| WidgetCreate.UpperUscoreAt | src/N98/Magento/Command/Developer/Widget/CreateCommand.php:267-272 | uscore2UpperUscore keeps the length and every `_` in place; a character is upper-cased exactly when it is first or follows an `_` |
| WidgetCreate.UpperUscoreWithoutUnderscores | src/N98/Magento/Command/Developer/Widget/CreateCommand.php:260-272 | Deleting the underscores from uscore2UpperUscore gives uscore2CamelCase of the same input |
| WidgetCreate.SegmentWithoutEquals | src/N98/Magento/Command/Developer/Widget/CreateCommand.php:140-141 | A segment without `=` names itself and gets a null value, with no error |
| WidgetCreate.SegmentWithEquals | src/N98/Magento/Command/Developer/Widget/CreateCommand.php:140-141 | In `key=value…` the key is the text before the first `=` and the value the text up to the second `=`; anything after that is dropped |
| WidgetCreate.RecordOfFields | src/N98/Magento/Command/Developer/Widget/CreateCommand.php:137-142 | The fields of a parsed record are exactly the keys of its `,`-separated segments |
| WidgetCreate.RecordOfLastWins | src/N98/Magento/Command/Developer/Widget/CreateCommand.php:139-142 | A field holds the value of the last segment naming it |
| WidgetCreate.StoreSpec | src/N98/Magento/Command/Developer/Widget/CreateCommand.php:143-147 | A record with an id lands under that id; an existing entry there is replaced whole and keeps its slot, otherwise the record is appended. A record without an id is appended under a fresh integer key. Other keys are untouched and validity is kept |
| WidgetCreate.ParseParameterString | src/N98/Magento/Command/Developer/Widget/CreateCommand.php:137-142 | The inner loop builds the record `ParseRecord` describes: the fields of the `,`-separated segments, split at `=` |
| WidgetCreate.NormaliseParameters | src/N98/Magento/Command/Developer/Widget/CreateCommand.php:134-152 | The nested loops compute `Normalise` of the parameter strings: a valid array with no more entries than strings |
| WidgetCreate.NormaliseBounds | src/N98/Magento/Command/Developer/Widget/CreateCommand.php:134-152 | The normalised array is valid and has at most one entry per parameter string |
| WidgetCreate.StoreKeepsKeys | src/N98/Magento/Command/Developer/Widget/CreateCommand.php:143-147 | Storing a record never moves or drops an existing key |
| WidgetCreate.NormaliseKeepsSlots | src/N98/Magento/Command/Developer/Widget/CreateCommand.php:134-152 | The keys after any prefix of the strings are a prefix of the final keys: entries keep their slots |
| WidgetCreate.StoreKeepsEarlier | src/N98/Magento/Command/Developer/Widget/CreateCommand.php:143-147 | A later record leaves an earlier entry's value in place unless its id names that very key |
| WidgetCreate.NormaliseLastIdWins | src/N98/Magento/Command/Developer/Widget/CreateCommand.php:143-144 | The array holds, under an id, the whole record of the last string carrying that id |
| WidgetCreate.NormaliseWithoutIds | src/N98/Magento/Command/Developer/Widget/CreateCommand.php:145-147 | With no ids, the result is the parsed records in input order under keys 0, 1, 2, … |
| WidgetCreate.CodePools | src/N98/Magento/Command/Developer/Widget/CreateCommand.php:119-121 | `local` and `community` are accepted; `core`, `Local`, `local ` (with a space) and the empty pool are refused |
| WidgetCreate.NormaliseSingle | src/N98/Magento/Command/Developer/Widget/CreateCommand.php:145-146 | A lone record without an id is stored under key 0 |
| WidgetCreate.IdZeroReplacesFirst | src/N98/Magento/Command/Developer/Widget/CreateCommand.php:143-146 | A record without an id goes under key 0, so a later record with id `0` replaces it whole, leaving one entry |
| WidgetCreate.Target.ModuleDir | src/N98/Magento/Command/Developer/Widget/CreateCommand.php:164-174 | getModuleDir lies under `<root>/app/code/` |
| WidgetCreate.Target.DesignDir | src/N98/Magento/Command/Developer/Widget/CreateCommand.php:176-185 | getDesignDir lies under `<root>/app/design/frontend/` |
| WidgetCreate.Target.WidgetBlockDir | src/N98/Magento/Command/Developer/Widget/CreateCommand.php:187-189 | getWidgetBlockDir lies inside the module directory |
| WidgetCreate.Target.WidgetBlockFilename | src/N98/Magento/Command/Developer/Widget/CreateCommand.php:191-193 | getWidgetBlockFilename lies inside the block directory and ends in `.php` |
| WidgetCreate.Target.WidgetTemplateDir | src/N98/Magento/Command/Developer/Widget/CreateCommand.php:195-197 | getWidgetTemplateDir lies inside the design directory's `template/` |
| WidgetCreate.Target.WidgetTemplateFilename | src/N98/Magento/Command/Developer/Widget/CreateCommand.php:199-201 | getWidgetTemplateFilename lies inside the template directory and ends in `.phtml` |
| WidgetCreate.Target.WidgetXmlFilename | src/N98/Magento/Command/Developer/Widget/CreateCommand.php:203-205 | getWidgetXmlFilename lies inside the module directory and ends in `widget.xml` |
| WidgetCreate.Target.BlockClass | src/N98/Magento/Command/Developer/Widget/CreateCommand.php:220 | The `blockClass` view value starts with the vendor name, and its last part, with the underscores deleted, is uscore2CamelCase of the widget id, the name of the block file |
| WidgetCreate.PathLayout | src/N98/Magento/Command/Developer/Widget/CreateCommand.php:164-220 | The module dir is `root/app/code/<pool>/<Vendor>/<Module>` with vendor and module ucfirst-ed. The block file is `<moduleDir>/Block/Widget/<CamelCase id>.php`, the template `<designDir>/template/<moduleId>/widget/<id>.phtml` and the descriptor `<moduleDir>/etc/widget.xml`. The block class is `Vendor_Module_Block_Widget_<Upper_Uscore id>`, whose last part without underscores is the block file's name |
| WidgetCreate.CreateDirsMade | src/N98/Magento/Command/Developer/Widget/CreateCommand.php:154-162 | A directory is made exactly when it is listed and not already a directory, and none is made twice |
| WidgetCreate.Plan | src/N98/Magento/Command/Developer/Widget/CreateCommand.php:119-131 | A successful run always ends by merging into widget.xml, then writing the block file, then the template |
| WidgetCreate.PlanFailureWritesNoWidget | src/N98/Magento/Command/Developer/Widget/CreateCommand.php:119-131 | A run that ends in any exception, the XML one included, has written neither the block file nor the template |
| WidgetCreate.DirectoryEffectsAt | src/N98/Magento/Command/Developer/Widget/CreateCommand.php:156-161 | The createDirectories log holds one mkdir entry per directory made, in the same order, and nothing else |
| WidgetCreate.PlanChecksCodePool | src/N98/Magento/Command/Developer/Widget/CreateCommand.php:119-131 | The run fails with the code-pool error exactly when the pool is neither `local` nor `community`. It succeeds exactly when the pool is valid, the design and module directories exist and both XML documents parse. A failed check leaves no effect at all |
| WidgetCreate.PlanOrder | src/N98/Magento/Command/Developer/Widget/CreateCommand.php:123-131 | Once the checks pass, the run makes the missing widget directories and writes widget.xml whole only if it did not exist before the run. If both XML documents parse it then merges into widget.xml, writes the block file and then the template, and succeeds; otherwise it stops there with the XML exception |
| WidgetCreate.CreateDirsStep | src/N98/Magento/Command/Developer/Widget/CreateCommand.php:156-161 | Each round of the createDirectories loop keeps the directories equal to the starting ones plus those made so far, and the log equal to the starting log plus one entry per directory made |
| WidgetCreate.FileSystem.MakeDirectory | src/N98/Magento/Command/Developer/Widget/CreateCommand.php:158 | mkdir adds the directory and logs it; files are unchanged |
| WidgetCreate.FileSystem.MakeIfMissing | src/N98/Magento/Command/Developer/Widget/CreateCommand.php:157-160 | A directory that `is_dir` finds is left alone with nothing logged; otherwise it is made and logged |
| WidgetCreate.FileSystem.Write | src/N98/Magento/Command/Developer/Widget/CreateCommand.php:254-256 | Writing a file adds it, overwriting without refusal, and logs the write |
| WidgetCreate.FileSystem.CreateDirectories | src/N98/Magento/Command/Developer/Widget/CreateCommand.php:154-162 | The loop adds exactly the directories `CreateDirs` names and logs them in order |
| WidgetCreate.Scaffold | src/N98/Magento/Command/Developer/Widget/CreateCommand.php:119-131 | The outcome and the log are exactly the plan's. A failed check leaves the directories and files unchanged. Once the checks pass, the directories grow by exactly the missing widget directories. The files grow by widget.xml, the block file and the template when the XML parses; otherwise only by widget.xml, and only when it was not already a directory |
| WidgetCreate.WriteWidget | src/N98/Magento/Command/Developer/Widget/CreateCommand.php:124-131 | After the checks, the outcome and the log are exactly the plan's. The directories grow by exactly the missing widget directories. The files grow by the three widget files when the XML parses, and otherwise at most by widget.xml |
| WidgetCreate.WriteFiles | src/N98/Magento/Command/Developer/Widget/CreateCommand.php:124-131 | The directories made and widget.xml, only when it did not exist before, are logged first. When the XML parses, the merge, the block file and the template follow in this order and the run succeeds. Otherwise it fails with the XML exception and nothing more is written. The directories become the old ones plus exactly those made, and the files the old ones plus exactly those written |
| WidgetCreate.PrepareDescriptor | src/N98/Magento/Command/Developer/Widget/CreateCommand.php:124-128 | createDirectories, then writeWidgetXml only when widget.xml does not exist: the log, the directories and the files grow by exactly these |
| WidgetCreate.CreateCommand.ReadArguments | src/N98/Magento/Command/Developer/Widget/CreateCommand.php:108-117 | The fields become the target of the arguments: vendor and module ucfirst-ed, the other arguments as given, and the parameters normalised |
| WidgetCreate.CreateCommand.Execute | src/N98/Magento/Command/Developer/Widget/CreateCommand.php:105-132 | The fields are set from the arguments (vendor and module ucfirst-ed, parameters normalised). The outcome and the filesystem log are exactly `Plan`'s. A failed check leaves the directories and files unchanged. After the checks, the missing widget directories are added. The three widget files are added when the XML parses; otherwise only widget.xml is, and only when it was not already a directory |
| PackageCreate.YamlVersionCheck | src/N98/Magento/Command/MagentoConnect/CreatePackageCommand.php:74-78 | The check passes exactly when the data is an array whose `package_yaml_version` is `0.0`; a missing or null version fails it |
| PackageCreate.UnsetIfSet | src/N98/Magento/Command/MagentoConnect/CreatePackageCommand.php:87-91 | A set key is removed; a key holding null is kept; no other key changes |
| PackageCreate.CleanData | src/N98/Magento/Command/MagentoConnect/CreatePackageCommand.php:81-109 | The loops compute `Clean` of the data |
| PackageCreate.ReshuffleContents | src/N98/Magento/Command/MagentoConnect/CreatePackageCommand.php:98-105 | The by-reference foreach replaces every group, in place, by its reshuffled list |
| PackageCreate.ReshuffleGroup | src/N98/Magento/Command/MagentoConnect/CreatePackageCommand.php:99-104 | `$tmpContent` ends as `''` followed by the group's items |
| PackageCreate.ReshuffleAll | src/N98/Magento/Command/MagentoConnect/CreatePackageCommand.php:98-105 | Every group keeps its key and position and is reshuffled |
| PackageCreate.ReshuffledDropFirst | src/N98/Magento/Command/MagentoConnect/CreatePackageCommand.php:96-104 | A reshuffled group is numbered from 0, starts with `''` and has one more entry than before. Dropping the first item, as Magento does, gives back the original items in order |
| PackageCreate.RemoveAllKeepsOthers | src/N98/Magento/Command/MagentoConnect/CreatePackageCommand.php:83-91 | The removal loop keeps the array valid and every key it does not name |
| PackageCreate.RemovedKeysGone | src/N98/Magento/Command/MagentoConnect/CreatePackageCommand.php:83-91 | The removal loop deletes `package_yaml_version` and `_create` when set and leaves their null value otherwise |
| PackageCreate.CleanRemovesKeys | src/N98/Magento/Command/MagentoConnect/CreatePackageCommand.php:83-91 | After cleaning, `package_yaml_version` and `_create` are never set: a set one is gone and a null one stays null |
| PackageCreate.CleanVersionIds | src/N98/Magento/Command/MagentoConnect/CreatePackageCommand.php:92-94 | `version_ids` keeps a set value and otherwise becomes the empty array |
| PackageCreate.CleanContents | src/N98/Magento/Command/MagentoConnect/CreatePackageCommand.php:95-107 | Array `contents` has every group reshuffled; missing, null or scalar `contents` is left as it was |
| PackageCreate.CleanKeepsOthers | src/N98/Magento/Command/MagentoConnect/CreatePackageCommand.php:81-108 | Every other top-level key keeps its value, and the cleaned data is a valid array |
| PackageCreate.CleanedFailsVersionCheck | src/N98/Magento/Command/MagentoConnect/CreatePackageCommand.php:47-48 | Cleaned data would fail the version check, so the check has to run before cleaning |
| PackageCreate.SelectBuilds | src/N98/Magento/Command/MagentoConnect/CreatePackageCommand.php:124-132 | The 2.x build runs iff `version_ids` is an array containing the 2.x version, and likewise for 1.x; both may run, 2.x first |
| PackageCreate.CreatePackage | src/N98/Magento/Command/MagentoConnect/CreatePackageCommand.php:121-134 | The steps are the selected builds, 2.x before 1.x, followed by the success message |
| PackageCreate.NoBuildsWithoutList | src/N98/Magento/Command/MagentoConnect/CreatePackageCommand.php:124-125 | When `version_ids` is not an array, nothing is built |
| PackageCreate.FalsyOptions | src/N98/Magento/Command/MagentoConnect/CreatePackageCommand.php:62 | null, `""` and `"0"` count as no option; `"00"`, `"0.0"`, `" "` and `"false"` are paths |
| PackageCreate.ChosenYamlPath | src/N98/Magento/Command/MagentoConnect/CreatePackageCommand.php:61-66 | A falsy option (null, `""`, `"0"`) gives `root + separator + "package.yaml"`; any other option is the path |
| PackageCreate.GetPackageYamlPath | src/N98/Magento/Command/MagentoConnect/CreatePackageCommand.php:59-72 | Succeeds with the chosen path iff the file exists, otherwise fails naming that path |
| PackageCreate.Execute | src/N98/Magento/Command/MagentoConnect/CreatePackageCommand.php:37-54 | A missing file fails first, then an unsupported version, then a failed save. Success happens exactly when all pass: the cleaned data is saved, the selected builds follow in order and the success report comes last |
| VHostGenerate.CamelizeOptionKey | src/N98/Magento/Command/Developer/GenerateVHostCommand.php:82-87 | The converted key equals the reference `OptionName`, has no `-`, and is as long as the key minus its hyphens |
| VHostGenerate.OptionNameParts | src/N98/Magento/Command/Developer/GenerateVHostCommand.php:83-87 | Every part after the first is ucfirst-ed and the parts are joined with nothing; no `-` remains and the length drops by the number of hyphens |
| VHostGenerate.OptionNameWithoutHyphen | src/N98/Magento/Command/Developer/GenerateVHostCommand.php:83-87 | A key without a hyphen is unchanged |
| VHostGenerate.OptionNameKeepsFirstPart | src/N98/Magento/Command/Developer/GenerateVHostCommand.php:84-85 | Up to the first hyphen the converted key equals the original key |
| VHostGenerate.ConvertedOptions | src/N98/Magento/Command/Developer/GenerateVHostCommand.php:80-89 | Each option, in order, maps to its converted name and its unchanged value |
| VHostGenerate.OptionLookup | src/N98/Magento/Command/Developer/GenerateVHostCommand.php:49 | The lookup finds a value iff some option has that name, and the value is that option's |
| VHostGenerate.NginxOption | src/N98/Magento/Command/Developer/GenerateVHostCommand.php:49 | Without an `nginx` option apache is chosen; with one, nginx is chosen exactly when its value is truthy: `true` and the strings `"0.0"` and `"false"` are, `false`, no value, `""` and `"0"` are not |
| VHostGenerate.WithoutAdminWebsite | src/N98/Magento/Command/Developer/GenerateVHostCommand.php:71-73 | The filter drops at most one website, and never the only one |
| VHostGenerate.WebsiteFilter | src/N98/Magento/Command/Developer/GenerateVHostCommand.php:71-73 | The key-0 website is removed iff there are several websites and it is `admin`; then the count drops by one and the others keep keys and order; otherwise nothing changes |
| VHostGenerate.GenerateVHostCommand.GetView | src/N98/Magento/Command/Developer/GenerateVHostCommand.php:117-122 | The view is created on the first call only; later calls return the same view with its contents |
| VHostGenerate.GenerateVHostCommand.AddOptionsToView | src/N98/Magento/Command/Developer/GenerateVHostCommand.php:78-91 | The view gains the converted options in order; its template is unchanged |
| VHostGenerate.GenerateVHostCommand.AddMagentoSettingsToView | src/N98/Magento/Command/Developer/GenerateVHostCommand.php:58-76 | Every website gets the host of its base URL. The view gains `documentRoot`, then the websites without the admin website |
| VHostGenerate.GenerateVHostCommand.GenerateApacheVhost | src/N98/Magento/Command/Developer/GenerateVHostCommand.php:93-104 | The view's template becomes `<commandDir>/../../../../../res/vhost/apache/apacheVhost.phtml`; nothing is assigned |
| VHostGenerate.GenerateVHostCommand.Execute | src/N98/Magento/Command/Developer/GenerateVHostCommand.php:40-56 | A failed initialisation changes nothing, website host names included. Otherwise the view is the existing one or, if there was none, a new one; every website's host name is the host of its base URL, and the view gets the options, then the document root and the websites. Exactly one generator runs: nginx, which sets nothing, when the option is truthy; apache, which picks its template, otherwise |

## Behaviour of the code

Behaviour of the code worth noting:

- The block and template files are written whether or not they exist
  (CreateCommand.php:254-256). The code has no "file already exists" refusal.
- A parameter segment without `=` is not an error. Its field gets a null
  value (CreateCommand.php:140-141).
- The module and design directories are checked and never created. Only the
  two widget directories are created, together with any of their parents
  below the module and design directories that are missing
  (CreateCommand.php:154-185). The model tracks the two widget directories
  only.
- `isset` is false for a null value. So a `package_yaml_version` or
  `_create` key that holds null stays in the cleaned data
  (CreatePackageCommand.php:87-91).

## Left out

- The merge of the rendered fragment into `widget.xml` (`extendChild`,
  CreateCommand.php:224-233) is a foreign Magento class. It is only the
  `MergedDescriptor` effect; nothing is claimed about how it merges.
  Whether the fragment and the existing `widget.xml` parse as XML
  (CreateCommand.php:227, 229) is the parameter `xmlParses`; when they do
  not, the run ends with `MalformedXml`.
- Template rendering is not modelled. This covers `PhpView`, the `.phtml`
  templates, the widget command's view assignments other than `blockClass`,
  its `setTemplate` calls and its base folder, and the rendered vhost output.
  In the vhost command the view only records what is assigned and which
  template is chosen.
- File contents, permissions and I/O failures are not modelled. The
  recursive creation of parent directories by `mkdir(…, true)` is not
  tracked either.
- Magento and runtime bootstrap are parameters:
  - `detectMagento`/`initMagento` (`initialised` in the vhost command);
  - `Mage::app()->getWebsites` (the `websites` argument);
  - the base URL read with `getConfig` (a constant field of `Website`);
  - `parse_url` (`hostOf`);
  - `file_get_contents` with `Yaml::parse` (`parsed`);
  - `savePackage` (`saveSucceeds`);
  - the `Mage_Connect_Package` version constants (`version2x`, `version1x`);
  - `DIRECTORY_SEPARATOR` (`separator`);
  - `__DIR__` (`commandDir`).
- A `Yaml::parse` failure on malformed YAML (CreatePackageCommand.php:45) is
  not modelled: the parsed data is a parameter.
- Console output (`writeln`) and the option declarations in `configure`
  are not modelled.
- PackageCreate.YamlVersionSupported: PHP's loose `!=` against `'0.0'` is
  modelled as equality with the scalar text `0.0`. Other spellings PHP also
  takes as equal (`0`, `0.00`, boolean `true`) are not modelled.
- PackageCreate.VersionRequested: `in_array`'s loose comparison is modelled
  as equality of scalar text.
- PackageCreate.Value: YAML integers, floats and booleans are held by their
  text.
- WidgetCreate.Record: the order of the fields inside one parameter record
  is not kept. A numeric field name that PHP would turn into an integer key
  stays a string.
- PhpArray.Push: PHP's error when the next integer key would pass
  `PHP_INT_MAX` is not modelled. It needs an id of 9223372036854775807
  followed by a record without an id.
- PhpArray.NextIndex: this follows the rule before PHP 8.3, where the next
  key after only negative keys is 0. PHP 8.3's rule is not modelled.
- PhpString.Upper: `ucfirst` is ASCII only, as in PHP 8.2 and later; older
  locale-dependent behaviour is not modelled.
- The stray `unset($target)` in `cleanData` leaves the `$content` reference
  alive until the method returns (CreatePackageCommand.php:106). This has no
  effect on the returned data and is not modelled.
- `_getConfigDataModel` (GenerateVHostCommand.php:109-111) is never called
  and is not modelled.
