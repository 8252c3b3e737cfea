# vlttng profile resolution, in Dafny

vlttng builds an LTTng "virtual environment": a directory where a chosen set of
tracing projects gets fetched, configured, built and installed. The user picks
the projects through YAML *profiles*, plus optional command-line *overrides*.
This project models and proves the following parts of that pipeline:

- **Module `Merge`** (`merge.dfy`): the document merge. Parsed profile documents are merged left to right. A string `configure` accumulates, with a space in front of each piece. Every other key is replaced, and mappings merge key by key.
- **Module `Overrides`** (`overrides.dfy`): the override engine. An override walks a dotted key path and creates the missing mappings along it. It then replaces, appends to or removes the last key.
- **Module `Project`** (`project.dfy`): project derivation, meaning:
  - source classification (Git, or HTTP/FTP archive);
  - the configure string;
  - the per-project build environment;
  - validation against the eleven known names.
- **Module `Resolve`** (`resolve.dfy`): the whole of `from_yaml_files` over parsed documents. Ignored and null projects are skipped. Errors travel as the profile module raises them, and are funnelled into `ParseError`.
- **Module `CommandLine`** (`cli.dfy`): the parser from `path=value`, `path+=value` and `!path` to overrides.
- **Module `Venv`** (`venv.dfy`): the virtual environment rules that come after resolution:
  - the `_Paths` layout;
  - the string edits `_patch_env` makes;
  - the Babeltrace python-bindings injection;
  - the activation script's environment lines and flags, and the filling of the activate template's placeholders;
  - the fixed build order, including the lttng-tools extra arguments.
- **Module `Quickstart`** (`quick.dfy`): the quickstart wizard, meaning:
  - the choice parser;
  - the strictly linear state machine;
  - the profile names it collects;
  - the command line it prints.

The parsed document tree is the datatype `Tree.Node`, with four cases:

- `Str`: a YAML string.
- `Scalar(text)`: any other YAML scalar, carried with the text Python's `str()` gives it.
- `Mapping`: an ordered list of key/value entries (module `Dicts`).
  - The order is kept because Python dicts keep insertion order.
  - That order decides which failing project or unknown name is reported, the order of the activation lines and the order of the wizard's profile names.
- `Null`.

Python exceptions become the `Tree.Error` datatype. Operations that can raise return `Result`.

Code that updates state step by step is written as methods with loops. Each method is proved equal to a specification function, and the properties are lemmas about those functions:

| method | proved equal to |
|---|---|
| `Override.apply` | `Overrides.ApplyAt` |
| `_merge_nodes` | `Merge.Merged` |
| the loops of `_from_yaml_files` | `Resolve.Loaded` |
| `_create_overrides` | `CommandLine.ParseAll` |
| `_patch_env` | `Venv.Patched` |
| the loops of `_create_activate` | `Venv.ActivationOf` |
| `_try_get_choices` | `Quickstart.ReadResult` |

The objects whose fields change are classes:

- `Venv.VEnvCreator` holds the profile, the build steps performed so far and the activation script data.
- `Quickstart.Wizard` holds the wizard's answers and state.

A `configure` string first introduced by a later document gains a leading space: merging `--disable-debug` into a project that has no `configure` yet gives `" --disable-debug"`, because `_merge_nodes` (vlttng/profile.py:262-266) appends `' ' + v` to `''` (`ResolveFacts.TwoFileExample`, `MergeFacts.NewConfigureGainsSpace`).

## Model

| member | source | states |
|---|---|---|
| Overrides.NewOverride | vlttng/profile.py:123-129 | an empty path is refused with InvalidOverride; any other path gives the override with its path, operation and replacement unchanged |
| Overrides.Apply | vlttng/profile.py:143-184 | the walk loop over `path[:-1]` followed by the write returns exactly the recursive reading ApplyAt of the override, error cases included |
| Overrides.DescendStep | vlttng/profile.py:149-158 | one more step of the walk through an existing mapping reaches that mapping |
| Overrides.StopIsApplyAt | vlttng/profile.py:149-160 | when the first key is absent or the path has one key, the walk stops at the current node and the operation applies there |
| Overrides.ApplyThrough | vlttng/profile.py:149-184 | after walking through d existing mappings, the override is the same as applying the rest of the path in the node reached and writing that node back in place |
| OverrideFacts.NonMappingOnWalkRaises | vlttng/profile.py:149-155 | an existing key on `path[:-1]` whose value is not a mapping raises InvalidOverride naming that key |
| OverrideFacts.BlockedRaises | vlttng/profile.py:149-155 | an override raises InvalidOverride if and only if its walk meets a non-mapping value |
| OverrideFacts.LeafNeverInvalid | vlttng/profile.py:176-184 | the final write never raises InvalidOverride: only TypeError or KeyError |
| OverrideFacts.CreateNeverInvalid | vlttng/profile.py:166-182 | building the missing part of the path never raises InvalidOverride |
| OverrideFacts.CreateOk | vlttng/profile.py:166-182 | building the missing part succeeds exactly when writing the last key into an empty mapping does |
| OverrideFacts.CreateReaches | vlttng/profile.py:166-173 | the new chain holds a mapping at every proper prefix of the missing keys, and the written value at their end |
| OverrideFacts.CreateOffPath | vlttng/profile.py:166-173 | the new chain holds nothing off the missing keys |
| OverrideFacts.ReplaceWrites | vlttng/profile.py:166-177 | unless blocked, replace succeeds, every proper prefix of the path is a mapping, and the path holds rep (None for no replacement) whatever was there before, a mapping included |
| OverrideFacts.WritesAlongPath | vlttng/profile.py:166-173 | a successful replace or append leaves a mapping at every proper prefix of the path |
| OverrideFacts.AppendWrites | vlttng/profile.py:172-182 | unless blocked, append succeeds exactly when the prior value is a string or absent. The path then holds prior (or '') + (' ' for configure, else nothing) + rep, so an absent configure becomes ' ' + rep |
| OverrideFacts.RemoveWholePath | vlttng/profile.py:183-184 | when the whole walk exists, remove succeeds if and only if the key is present, raising KeyError otherwise, and afterwards the path holds nothing |
| OverrideFacts.RemoveStopsShort | vlttng/profile.py:149-160 | with a missing intermediate key, remove deletes the last key from the deepest node the walk reached |
| OverrideFacts.RemoveQuirkExample | vlttng/profile.py:183-184 | remove of a.b.x with no b deletes a.x, and keeps a.y |
| OverrideFacts.OffPathUnchanged | vlttng/profile.py:143-184 | every key path that diverges from the override's path looks up the same value after a successful replace or append, or a remove whose walk reaches the end of the path (a remove that stops short is RemoveShortOffPath) |
| OverrideFacts.GraftBesideKey | vlttng/profile.py:149-184 | writing back a mapping that differs from the walked one only under key k changes nothing off the walked path followed by k |
| OverrideFacts.RemoveShortOffPath | vlttng/profile.py:149-184 | a remove that stops short at depth d changes nothing off path[:d] followed by the last key, the only key it deletes |
| OverrideFacts.GraftReaches | vlttng/profile.py:163-184 | writing a node back in place puts it at the walked path |
| OverrideFacts.GraftOffPath | vlttng/profile.py:163-184 | writing a node back in place changes nothing off the walked path |
| OverrideFacts.ApplyKeepsWellFormed | vlttng/profile.py:143-184 | an override keeps every mapping free of duplicate keys |
| OverrideFacts.LeafKeepsWellFormed | vlttng/profile.py:176-184 | the final write keeps the mapping free of duplicate keys |
| OverrideFacts.CreateWellFormed | vlttng/profile.py:166-182 | the created chain has no duplicate keys |
| Merge.Merged | vlttng/profile.py:256-268 | unless both nodes are mappings, base is returned unchanged (an empty document, or a mapping over a scalar, is dropped); a merge keeps base's kind; its only error is TypeError |
| Merge.MergeFrom | vlttng/profile.py:258-268 | folding the patch entries from i fails only with TypeError |
| Merge.MergeEntry | vlttng/profile.py:259-268 | merging one patch entry fails only with TypeError |
| Merge.Incoming | vlttng/profile.py:259-268 | the new value of one key fails only with TypeError, when a configure string meets a non-string |
| Merge.StepSucceeds | vlttng/profile.py:258 | after a successful entry, the fold goes on from the next entry with the updated mapping |
| Merge.StepFails | vlttng/profile.py:258 | a failing entry stops the fold with its error |
| Merge.MergeNodes | vlttng/profile.py:256-268 | the recursive in-place merge with its entry loop returns exactly Merged(base, patch) |
| MergeFacts.FoldStep | vlttng/profile.py:258-268 | a successful fold is the successful entry step followed by the rest of the fold |
| MergeFacts.EntryFrame | vlttng/profile.py:258-268 | merging one entry touches no other key |
| MergeFacts.EntryLocal | vlttng/profile.py:258-268 | merging one entry depends only on base's value under that key |
| MergeFacts.FoldFrame | vlttng/profile.py:258-268 | keys no longer in the rest of the patch keep their value through the fold |
| MergeFacts.FoldAt | vlttng/profile.py:258-268 | with distinct keys, the final value of a patch key is the one its own entry step computes |
| MergeFacts.FoldLater | vlttng/profile.py:258-268 | the same as FoldAt, for an entry after the first step |
| MergeFacts.MergeByKey | vlttng/profile.py:256-268 | merging two mappings leaves every key absent from the patch as in base, and gives each patch key the value Incoming computes from base's value and the patch's |
| MergeFacts.FoldSucceeds | vlttng/profile.py:258-268 | with distinct patch keys, the fold from entry i succeeds when every remaining entry's Incoming step succeeds on base's value |
| MergeFacts.MergedOk | vlttng/profile.py:256-268 | with distinct patch keys, merging two mappings succeeds exactly when every patch entry's Incoming step succeeds on base's value under that key |
| MergeFacts.NewConfigureGainsSpace | vlttng/profile.py:262-266 | a configure string new to base becomes ' ' + text |
| MergeFacts.ConfigureAppended | vlttng/profile.py:262-266 | an existing configure string prior becomes prior + ' ' + text |
| MergeFacts.NewKeyCopied | vlttng/profile.py:259-268 | a key new to base gets the patch's value as is. The only exception is a configure string. A configure inside a brand-new subtree is copied verbatim |
| MergeFacts.ScalarReplaces | vlttng/profile.py:267-268 | a non-mapping patch value replaces base's value, unless it is a configure string |
| MergeFacts.MappingOverScalarDropped | vlttng/profile.py:257-260 | a patch mapping meeting an existing non-mapping value leaves that value as it was |
| MergeFacts.MergedWellFormed | vlttng/profile.py:256-268 | merging keys every mapping free of duplicate keys |
| MergeFacts.MergeFromWellFormed | vlttng/profile.py:258-268 | the fold keeps every mapping free of duplicate keys |
| MergeFacts.MergeEntryWellFormed | vlttng/profile.py:259-268 | one entry step keeps every mapping free of duplicate keys |
| MergeFacts.IncomingWellFormed | vlttng/profile.py:259-268 | the merged value of one key is free of duplicate keys |
| MergeFacts.MergeIntoEmpty | vlttng/profile.py:272-277 | a first document without a top-level configure string merges into {} as itself |
| MergeFacts.IntoEmptyFrom | vlttng/profile.py:258-268 | folding the rest of such a document onto its own prefix gives the document back |
| Project.Subscript | vlttng/profile.py:188 | indexing a project node fails with TypeError on a non-mapping and KeyError on a missing key, and otherwise gives the key's value |
| Project.SourceFromNode | vlttng/profile.py:187-204 | which source a node gives: <br>• Git exactly when the source starts with git://, ends with .git, or the node has a checkout; the checkout is the checkout value, or 'master' when that is absent or null <br>• otherwise HTTP/FTP exactly for an http://, https:// or ftp:// prefix <br>• otherwise UnknownSourceFormat carrying the source string <br>• a non-string source gives AttributeError, and a missing one KeyError |
| Project.MergeEnvs | vlttng/profile.py:207-211 | succeeds exactly when the global env is a mapping and the project env is a mapping or ''. When it does, the overlay gives each key the project's value when it has one and the global value otherwise. It otherwise names the Python error |
| Project.ProjectFromNode | vlttng/profile.py:214-233 | a source error comes first. The configure string is str(configure), or '' when that is absent or null. The build env is: <br>• the global one when build-env is absent <br>• {} when it is null <br>• the overlay otherwise |
| Project.ValidateProjects | vlttng/profile.py:236-253 | succeeds exactly when every name is one of the eleven; otherwise InvalidProfile names the first unknown name |
| Resolve.MergeAll | vlttng/profile.py:272-277 | merging documents into a root keeps the root's kind |
| Resolve.ProjectNodes | vlttng/profile.py:292 | the projects mapping, or KeyError when it is missing and AttributeError when it is not a mapping |
| Resolve.Funnel | vlttng/profile.py:307-313 | UnknownSourceFormat and InvalidProfile pass unchanged, and every other error becomes ParseError of it |
| Resolve.Loaded | vlttng/profile.py:307-313 | from_yaml_files fails only with UnknownSourceFormat, InvalidProfile, or ParseError of another error |
| Resolve.MergeDocuments | vlttng/profile.py:272-277 | the merge loop returns MergeAll({}, docs), a mapping when it succeeds |
| Resolve.ApplyOverrides | vlttng/profile.py:279-280 | the override loop returns the overrides applied in order |
| Resolve.CollectProjects | vlttng/profile.py:290-300 | the project loop returns ProjectsFrom([], nodes), with its skips and its first error |
| Resolve.FromYamlFiles | vlttng/profile.py:271-313 | the whole method returns exactly Loaded of the documents, ignored names and overrides |
| ResolveFacts.KeptNames | vlttng/profile.py:292-298 | a name survives the skips exactly when some entry of the projects mapping has it, is not ignored and is not null; there are at most as many as the nodes |
| ResolveFacts.MergeAllAppend | vlttng/profile.py:274-277 | merging a + b is merging a, then merging b into the result |
| ResolveFacts.ApplyAllSnoc | vlttng/profile.py:279-280 | applying os + [o] is applying os, then o |
| ResolveFacts.LastDocumentWins | vlttng/profile.py:274-277 | a non-mapping, non-configure value of the last document is the merged value |
| ResolveFacts.LastOverrideWins | vlttng/profile.py:279-280 | after an unblocked final replace, its path holds its value |
| ResolveFacts.MergeAllErrors | vlttng/profile.py:274-277 | merging documents fails only with TypeError |
| ResolveFacts.ApplyAtUnnamed | vlttng/profile.py:143-184 | an override never raises UnknownSourceFormat or InvalidProfile, so its errors are funnelled into ParseError |
| ResolveFacts.CreateUnnamed | vlttng/profile.py:166-182 | the same, for building the missing part of a path |
| ResolveFacts.ApplyAllUnnamed | vlttng/profile.py:279-280 | the same, for a sequence of overrides |
| ResolveFacts.ProjectsFromFails | vlttng/profile.py:292-300 | the project loop fails exactly when some kept node fails, and then with the error of the first such node |
| ResolveFacts.ProjectsFromByName | vlttng/profile.py:292-300 | a skipped name (ignored, or null node) gets no project; every other name gets the project built from its node with the global env |
| ResolveFacts.ProjectsFromKeys | vlttng/profile.py:292-300 | the projects are the kept names, in document order |
| ResolveFacts.AddedKeys | vlttng/profile.py:299-300 | one loop step adds exactly its name, when kept, and changes no other project |
| ResolveFacts.ProfileOfFails | vlttng/profile.py:288-300 | the profile fails with the error of the first failing kept node |
| ResolveFacts.ProfileOfValidates | vlttng/profile.py:292-302 | with no failing node, the profile succeeds exactly when every kept name is valid, and otherwise fails with the name check's error |
| ResolveFacts.ProfileOfProjects | vlttng/profile.py:288-304 | a resolved profile has the root's build-env and virt-env (or {}), its projects are the kept names in order, and each is built from its own node |
| ResolveFacts.MergeAllWellFormed | vlttng/profile.py:274-277 | merging documents without duplicate keys gives a tree without duplicate keys |
| ResolveFacts.ApplyAllWellFormed | vlttng/profile.py:279-280 | applying overrides keeps the tree free of duplicate keys |
| ResolveFacts.LoadedStages | vlttng/profile.py:271-313 | from_yaml_files is the merge, then the overrides, then the project stage. Each stage's failure surfaces through the funnel: a merge error as ParseError(TypeError), an override error as ParseError of it |
| ResolveFacts.MissingProjects | vlttng/profile.py:292 | a tree without projects gives ParseError(KeyError('projects')) |
| ResolveFacts.ExampleUrcuMerge | vlttng/profile.py:256-268 | a source-only urcu node merged with a configure-only one gains the configure ' --disable-debug' |
| ResolveFacts.ExampleMerge | vlttng/profile.py:272-277 | the two example documents merge into one urcu node |
| ResolveFacts.ExampleProject | vlttng/profile.py:214-233 | the merged urcu node gives an HTTP project with configure ' --disable-debug' |
| ResolveFacts.ExampleProjects | vlttng/profile.py:290-300 | the project loop over the example gives that one project |
| ResolveFacts.ExampleProfile | vlttng/profile.py:288-304 | the merged example root resolves to a profile with that one project and empty envs |
| ResolveFacts.TwoFileExample | vlttng/profile.py:271-313 | the two example documents resolve to that profile end to end |
| CommandLine.ParseOverride | vlttng/vlttng_cli.py:104-135 | an argument parses exactly when its stripped text has one of the three forms; otherwise the malformed error carries the stripped text |
| CommandLine.CreateOverrides | vlttng/vlttng_cli.py:99-139 | the argument loop returns exactly ParseAll([], args) |
| CommandLine.ParseAllSucceeds | vlttng/vlttng_cli.py:100-139 | all arguments parse exactly when each one does |
| CommandLine.Values | vlttng/vlttng_cli.py:100-139 | one override per argument |
| CommandLine.ValuesAt | vlttng/vlttng_cli.py:100-139 | the i-th override is the i-th argument's |
| CommandLine.ParseAllValues | vlttng/vlttng_cli.py:100-139 | on success the result is exactly one override per argument, in argument order |
| CommandLine.ParseAllFails | vlttng/vlttng_cli.py:135-137 | a failure is the error of some argument |
| CommandLine.PathChars | vlttng/vlttng_cli.py:107 | a dotted path holds only dots and [A-Za-z0-9_-] |
| CommandLine.JoinIsPath | vlttng/vlttng_cli.py:110 | joining valid segments with '.' gives a path that splits back into them |
| CommandLine.ReplaceForm | vlttng/vlttng_cli.py:104-114 | P=V with a valid path and a non-empty one-line value gives REPLACE with path P.split('.') and rep V |
| CommandLine.AppendForm | vlttng/vlttng_cli.py:117-124 | P+=V is not a replacement and gives APPEND with rep V |
| CommandLine.RemoveForm | vlttng/vlttng_cli.py:127-133 | !P gives REMOVE with no replacement |
| CommandLine.ReplaceShape | vlttng/vlttng_cli.py:107 | whatever the replace pattern matches is path + '=' + value |
| CommandLine.AppendShape | vlttng/vlttng_cli.py:117 | whatever the append pattern matches is path + '+=' + value |
| CommandLine.RemoveShape | vlttng/vlttng_cli.py:127 | whatever the remove pattern matches is '!' + path |
| CommandLine.FormsExclusive | vlttng/vlttng_cli.py:107-127 | at most one of the replace, append and remove patterns matches any text |
| CommandLine.LastSegmentEnds | vlttng/vlttng_cli.py:107 | a path is non-empty and does not end with a dot |
| CommandLine.ParseFormat | vlttng/vlttng_cli.py:104-133 | round trip: formatting an expressible override and parsing it back gives the same override |
| CommandLine.FormatEnds | vlttng/vlttng_cli.py:104 | a formatted override has no whitespace at either end, so strip() keeps it |
| CommandLine.FormatParse | vlttng/vlttng_cli.py:104-133 | round trip: formatting a parsed override gives back the stripped argument |
| CommandLine.ParsedShape | vlttng/vlttng_cli.py:107-133 | every parsed override has at least one segment, all non-empty path characters, and a replacement exactly when it is not a removal |
| CommandLine.NeverBadOverride | vlttng/vlttng_cli.py:136-137 | parsing never raises InvalidOverride; the empty-path check of Override cannot fire from here |
| Venv.JoinUnder | vlttng/venv.py:260-309 | joining a plain name under an absolute directory adds exactly one slash and stays normal |
| Venv.PathsLayout | vlttng/venv.py:268-280 | home, usr and src are directly under the venv |
| Venv.UsrLayout | vlttng/venv.py:272-304 | bin, lib, include, opt and share are directly under usr |
| Venv.DeeperLayout | vlttng/venv.py:284-309 | pkgconfig is lib/pkgconfig, share_java is share/java and project_src(n) is src/n |
| Venv.ExampleLayout | vlttng/venv.py:272-284 | /home/u/virt has its binaries in /home/u/virt/usr/bin |
| Venv.PatchEnv | vlttng/venv.py:68-93 | the five in-place edits compute exactly Patched |
| Venv.PatchedMeaning | vlttng/venv.py:68-93 | patching succeeds exactly when CPPFLAGS and LDFLAGS are strings or absent, and otherwise fails with TypeError. On success: <br>• PATH, LD_LIBRARY_PATH and PKG_CONFIG_PATH become dir + ':' + old (or '') <br>• CPPFLAGS and LDFLAGS gain ' -I' + quote(include) and ' -L' + quote(lib) <br>• no other key changes |
| Venv.PatchedWithOk | vlttng/venv.py:75-83 | the edit sequence fails exactly on a non-string CPPFLAGS or LDFLAGS, with TypeError |
| Venv.PatchedWithSteps | vlttng/venv.py:68-93 | the five edits happen in the source's order |
| Venv.PatchedWithPaths | vlttng/venv.py:69-93 | the three search paths get their directory in front |
| Venv.PatchedWithFlags | vlttng/venv.py:74-83 | the two flag lists get their option at the end |
| Venv.PatchedWithOthers | vlttng/venv.py:68-93 | no key other than the five changes |
| Venv.PrependedMeaning | vlttng/venv.py:70-72 | prepending writes dir + ':' + old under the key and changes no other key |
| Venv.ExtendedMeaning | vlttng/venv.py:75-78 | += succeeds exactly on a string or absent value, appends the suffix, and changes no other key |
| Venv.WithBindingsAsks | vlttng/venv.py:334-337 | the rewritten configure contains --enable-python-bindings |
| Venv.Injected | vlttng/venv.py:329-338 | the profile changes exactly when lttng-analyses and babeltrace are both there and babeltrace's configure lacks --enable-python-bindings. Only babeltrace's configure ever changes. It is then rewritten: every --disable-python-bindings removed, then every --enable-python-bindings=no, then ' --enable-python-bindings' appended |
| Venv.InjectedIdempotent | vlttng/venv.py:322-352 | validating a validated profile changes nothing |
| Venv.ExplicitNoKept | vlttng/venv.py:332 | an explicit --enable-python-bindings=no already contains the flag, so the profile is kept |
| Venv.Without | vlttng/venv.py:436-438 | filtering keeps exactly the entries whose key is not one of the names |
| Venv.EnvItemsShape | vlttng/venv.py:440-444 | two lines per entry, in order: the save line and the export line of the stripped key and quoted value |
| Venv.UnenvItemsShape | vlttng/venv.py:440-446 | two lines per entry, in order: the restore line and the unset line of the stripped key |
| Venv.ExportedAsWrittenIsVirtEnv | vlttng/venv.py:417-438 | the keys _patch_env writes are reserved, so what the delete loop leaves is the virt-env without its reserved keys, in order |
| Venv.RemoveKeys | vlttng/venv.py:436-438 | the delete loop leaves exactly the entries whose key is not reserved |
| Venv.ActivationItems | vlttng/venv.py:440-446 | the item loop produces exactly EnvItems and UnenvItems |
| Venv.PaddedKeyKept | vlttng/venv.py:436-438 | an entry ' ' + k for a reserved k passes the delete loop |
| Venv.ReservedKeyLeaks | vlttng/venv.py:436-446 | as written, a virt-env entry ' PATH' is exported as PATH |
| Venv.PaddedKeyItems | vlttng/venv.py:440-446 | the lines of such an entry name the reserved key itself |
| Venv.WithoutStripped | vlttng/venv.py:436-441 | the corrected filter keeps exactly the entries whose stripped key is not reserved |
| Venv.ReservedStripped | vlttng/venv.py:422-434 | each reserved name is its own strip |
| Venv.WithoutStrippedWithout | vlttng/venv.py:436-441 | the source's delete loop followed by the stripped filter is the stripped filter alone |
| Venv.ActivationEnvIsVirtEnv | vlttng/venv.py:417-441 | the exported entries are the virt-env's entries whose stripped key is not reserved, in order, so none of the eleven reserved names is exported |
| Venv.DropStripped | vlttng/venv.py:436-441 | the added filter loop keeps exactly WithoutStripped |
| Venv.ActivationFlags | vlttng/venv.py:450-464 | details of the activation: <br>• has_modules is '1' exactly when lttng-modules is a project <br>• has_java is '1' exactly when lttng-ust is a project whose configure contains --enable-java-agent <br>• both flags are otherwise '0', and the venv path is quoted <br>• the only failures come from the environment |
| Venv.ActivationLines | vlttng/venv.py:412-446 | each exported virt-env entry gives exactly one save line and one export line, and exactly one restore line and one unset line, in order, under its stripped key, which is never reserved |
| Venv.PaddedKeyDropped | vlttng/venv.py:436-446 | with the correction, a ' PATH' entry is not exported |
| Venv.ConfigureArgs | vlttng/venv.py:516-525 | the configure arguments are the project's configure followed, when there are extra arguments, by ' ' + those and nothing else |
| Venv.StepsUpToNames | vlttng/venv.py:379-407 | the first n builds are those of the present projects among the first n names, in that order |
| Venv.PresentMembers | vlttng/venv.py:533-537 | a name is built exactly when it is in the list and is a project |
| Venv.PresentDistinct | vlttng/venv.py:379-407 | no project is built twice |
| Venv.BuildOrderDistinct | vlttng/venv.py:379-407 | the ten build names are distinct |
| Venv.PlanOrder | vlttng/venv.py:379-407 | the builds follow urcu, lttng-ust, libxml2, lttng-tools, lttng-modules, glib, elfutils, babeltrace, lttng-analyses, tracecompass. Absent projects are skipped, none is built twice, and popt is never built |
| Venv.PoptNotBuilt | vlttng/venv.py:379-407 | popt is not among the build names |
| Venv.StepsUpToContent | vlttng/venv.py:533-542 | every build step is the step of one present name with its own build function |
| Venv.Fill | vlttng/venv.py:460-464 | str.format on the template's named fields: it succeeds exactly when every field has a keyword, giving each field its keyword's value, and otherwise raises KeyError for the first field without one |
| Venv.WrittenKeywordsRaise | vlttng/venv.py:460-464 | the keywords of the `format` call as written leave has_lttng_scope (vlttng/activate_template.py:61) without a value, so filling raises KeyError('has_lttng_scope') |
| Venv.KeywordsFill | vlttng/activate_template.py:59-64 | with has_lttng_scope supplied as '0', the six placeholders get the modules and java flags, '0', the venv path, and the env and unenv lines joined by newlines |
| Venv.ScriptAsWrittenRaises | vlttng/venv.py:460-464 | as written, filling the template never succeeds: every profile whose activation succeeds ends in KeyError('has_lttng_scope') |
| Venv.ScriptFilled | vlttng/venv.py:412-464 | the corrected script succeeds exactly when the activation does, passes on its error otherwise, and holds the activation's values in the six placeholders |
| Venv.StepOfProject | vlttng/venv.py:533-542 | every build step runs in the project's source directory with the project's own build env |
| Venv.ToolsStep | vlttng/venv.py:544-561 | lttng-tools is configured with its configure plus ' --with-lttng-ust-prefix=' + quote(usr) when lttng-ust is a project, and ' --without-lttng-ust' otherwise |
| Venv.TraceCompassStep | vlttng/venv.py:642-652 | Trace Compass from an HTTP/FTP source is copied, and from git it is built with maven first |
| Venv.UserSpaceSteps | vlttng/venv.py:379-386 | the urcu, lttng-ust and libxml2 builds are the first three entries of the plan |
| Venv.TracerSteps | vlttng/venv.py:388-392 | the lttng-tools and lttng-modules builds are entries four and five |
| Venv.ToolSteps | vlttng/venv.py:394-407 | the remaining five builds complete the plan |
| Venv.VEnvCreator.constructor | vlttng/venv.py:313-320 | a new creator holds the validated profile, has run every build of the plan in order, and holds the activation and the filled activate script of the validated profile |
| Venv.VEnvCreator.ValidateProfile | vlttng/venv.py:322-338 | the profile becomes Injected(profile), and nothing else changes |
| Venv.VEnvCreator.BuildProject | vlttng/venv.py:533-542 | one step is added for a present project, none for an absent one, and nothing else changes |
| Venv.VEnvCreator.BuildLttngTools | vlttng/venv.py:544-561 | the lttng-tools step gets the lttng-ust prefix or --without-lttng-ust |
| Venv.VEnvCreator.CreateActivate | vlttng/venv.py:412-464 | the activation becomes ActivationOf(profile), the script becomes Script(profile), and nothing else changes |
| Venv.VEnvCreator.BuildUserSpace | vlttng/venv.py:379-386 | adds the first three builds of the plan |
| Venv.VEnvCreator.BuildTracers | vlttng/venv.py:388-392 | adds builds four and five |
| Venv.VEnvCreator.BuildTools | vlttng/venv.py:394-407 | adds the last five builds |
| Venv.VEnvCreator.BuildAll | vlttng/venv.py:379-407 | adds exactly the plan |
| Venv.VEnvCreator.Create | vlttng/venv.py:354-410 | validation, then the plan, then the activation and its filled script |
| Quickstart.Versions | vlttng/vlttng_quick_cli.py:123-250 | each project offers at least one version, and master last for all but elfutils and popt |
| Quickstart.DecimalDigits | vlttng/vlttng_quick_cli.py:592 | the decimal text of n is read back by int() as n |
| Quickstart.RawChoiceToInt | vlttng/vlttng_quick_cli.py:590-599 | accepts exactly the int() readings within 1..choice_max, as that number |
| Quickstart.RawChoiceOutOfRange | vlttng/vlttng_quick_cli.py:590-599 | a decimal number outside 1..choice_max is refused |
| Quickstart.RawChoicePadded | vlttng/vlttng_quick_cli.py:590-599 | int() ignores surrounding blanks and leading zeros: ' 03 ' is choice 3 |
| Quickstart.RawChoiceSigned | vlttng/vlttng_quick_cli.py:590-599 | a leading '+' is accepted: '+3' is choice 3 |
| Quickstart.RawChoiceUnderscore | vlttng/vlttng_quick_cli.py:590-599 | a single underscore between digits is accepted: '1_0' is choice 10 |
| Quickstart.RawChoiceStrict | vlttng/vlttng_quick_cli.py:590-599 | '1x', '1__0', '0' and '-1' are all refused |
| Quickstart.RawChoiceOfDecimal | vlttng/vlttng_quick_cli.py:590-599 | every number of 1..choice_max, written in decimal, is accepted as itself |
| Quickstart.RawChoiceOfWord | vlttng/vlttng_quick_cli.py:590-594 | a token without digits is refused |
| Quickstart.Ascending | vlttng/vlttng_quick_cli.py:634 | sorted(list(s)): strictly ascending, with exactly the members of s in range |
| Quickstart.AcceptedMembers | vlttng/vlttng_quick_cli.py:620-632 | the collected set is exactly the numbers of the tokens read so far |
| Quickstart.ReadsAtRefusal | vlttng/vlttng_quick_cli.py:622-630 | reading stops at the first token that is not a choice: all for 'a', a refusal for anything else |
| Quickstart.ReadsToEnd | vlttng/vlttng_quick_cli.py:619-634 | when every token is a choice, the answer is their sorted distinct numbers |
| Quickstart.ReadFromMeaning | vlttng/vlttng_quick_cli.py:619-634 | reading from any point keeps the promise of ReadsAs |
| Quickstart.ReadResultMeaning | vlttng/vlttng_quick_cli.py:619-634 | an answer is an invalid token, an 'a' reached after valid tokens, or the sorted distinct choices |
| Quickstart.ReadChoices | vlttng/vlttng_quick_cli.py:619-634 | the token loop returns exactly ReadResult |
| Quickstart.TryGetChoices | vlttng/vlttng_quick_cli.py:601-634 | the possible answers: <br>• an empty answer gives 'a' when all is the default, and is invalid otherwise <br>• 'n' gives no choice <br>• anything else reads as ReadsAs says <br>• an accepted answer is 'a' or sorted distinct numbers of 1..max |
| Quickstart.TryGetChoice | vlttng/vlttng_quick_cli.py:643-656 | a non-blank stripped answer is accepted exactly when int() reads it as a number within 1..max, and the choice is that number; a blank answer is refused |
| Quickstart.TryGetYesNo | vlttng/vlttng_quick_cli.py:665-679 | '', 'y' and 'n' are the only answers accepted: '' gives the default, 'y' gives yes and 'n' gives no |
| Quickstart.Number | vlttng/vlttng_quick_cli.py:74-87 | states are numbered 1 to 12 |
| Quickstart.PicksOf | vlttng/vlttng_quick_cli.py:367-368 | the picked projects are choice_projects[choice - 1], in the order of the choices |
| Quickstart.PicksDistinct | vlttng/vlttng_quick_cli.py:364-368 | distinct choices pick distinct projects |
| Quickstart.MasterCandidatesMembers | vlttng/vlttng_quick_cli.py:378-381 | git-master candidates are the selected projects except elfutils and popt |
| Quickstart.Names | vlttng/vlttng_quick_cli.py:378-381 | one name per project, in order |
| Quickstart.SetAllMeaning | vlttng/vlttng_quick_cli.py:388-389 | marking all gives master to exactly the given names, and leaves the rest as they were |
| Quickstart.UnversionedMembers | vlttng/vlttng_quick_cli.py:397-401 | the version question is asked for exactly the selected projects without a version yet |
| Quickstart.AssignedKeys | vlttng/vlttng_quick_cli.py:403-420 | after the version questions, a key has a version exactly when it had one or was asked |
| Quickstart.ProfileNamesShape | vlttng/vlttng_quick_cli.py:422-423 | the profile names are exactly one 'project-version' per entry, in order |
| Quickstart.EveryProjectVersioned | vlttng/vlttng_quick_cli.py:396-423 | after the version state, every selected project has a version and its profile name is among the names added |
| Quickstart.BtPythonAsksInterpreter | vlttng/vlttng_quick_cli.py:435-438 | once 'babeltrace-python' is added, the interpreter question will be asked |
| Quickstart.PathAnswer | vlttng/vlttng_quick_cli.py:539-545 | the path is the stripped answer, or 'virt-lttng' for a blank one; it is never empty |
| Quickstart.ProfileArgsShape | vlttng/vlttng_quick_cli.py:258-259 | one '-p', name pair per profile, in order |
| Quickstart.CmdLineLayout | vlttng/vlttng_quick_cli.py:255-268 | the layout of the command line: <br>• 'vlttng' first, then a '-p', name pair per profile, in order <br>• then the two '-o build-env.PYTHON…' pairs exactly when an interpreter was chosen <br>• the quoted path last |
| Quickstart.CollectMasterCandidates | vlttng/vlttng_quick_cli.py:375-381 | the candidate loop returns exactly MasterCandidates |
| Quickstart.PickedNamesMembers | vlttng/vlttng_quick_cli.py:391-392 | the marked names are exactly those the choices pick |
| Quickstart.MarkedMeaning | vlttng/vlttng_quick_cli.py:391-392 | marking gives master to exactly the picked names, and leaves the rest as they were |
| Quickstart.TarballNames | vlttng/vlttng_quick_cli.py:379 | only elfutils is named elfutils, and only popt popt |
| Quickstart.MasterSkipsTarballs | vlttng/vlttng_quick_cli.py:378-392 | elfutils and popt never get master from this question |
| Quickstart.MarkMaster | vlttng/vlttng_quick_cli.py:390-392 | the marking loop returns exactly Marked |
| Quickstart.CollectUnversioned | vlttng/vlttng_quick_cli.py:397-401 | the collecting loop returns exactly Unversioned |
| Quickstart.AssignVersions | vlttng/vlttng_quick_cli.py:403-420 | the question loop returns exactly Assigned |
| Quickstart.AppendProfileNames | vlttng/vlttng_quick_cli.py:422-423 | the naming loop appends exactly ProfileNames |
| Quickstart.HandledNext | vlttng/vlttng_quick_cli.py:278-279 | the state numbered n is the n-th one handled |
| Quickstart.Wizard.constructor | vlttng/vlttng_quick_cli.py:91-96 | a new wizard has no profiles, projects, versions, interpreter or path, and starts at ASK_PROJECTS |
| Quickstart.Wizard.StateAskProjects | vlttng/vlttng_quick_cli.py:330-370 | 'a' selects all eleven projects in order; otherwise the picked ones are appended. Only the projects change, and the state moves to ASK_MASTER |
| Quickstart.Wizard.StateAskAllMaster | vlttng/vlttng_quick_cli.py:372-394 | 'a' replaces the versions with master for every candidate; otherwise the picked candidates get master. The state moves to ASK_VERSIONS |
| Quickstart.Wizard.StateAskVersions | vlttng/vlttng_quick_cli.py:396-425 | the unversioned projects get their picked version, then one 'project-version' profile per entry is appended. The state moves to ASK_FEATURE |
| Quickstart.Wizard.StateAskFeature | vlttng/vlttng_quick_cli.py:427-428 | only the state moves, to ASK_BT_PYTHON |
| Quickstart.Wizard.StateAskBtPython | vlttng/vlttng_quick_cli.py:430-447 | 'babeltrace-python' is appended exactly when babeltrace is selected and either lttng-analyses is too (without asking) or the answer is yes |
| Quickstart.Wizard.StateAskLttngToolsPython | vlttng/vlttng_quick_cli.py:449-461 | 'lttng-tools-python' is appended exactly when lttng-tools is selected and the answer is yes |
| Quickstart.Wizard.StateAskLttngUstJulAgent | vlttng/vlttng_quick_cli.py:463-475 | 'lttng-ust-jul-agent' is appended exactly when lttng-ust is selected and the answer is yes |
| Quickstart.Wizard.StateAskLttngUstLog4jAgent | vlttng/vlttng_quick_cli.py:477-489 | 'lttng-ust-log4j-agent' is appended exactly when lttng-ust is selected and the answer is yes |
| Quickstart.Wizard.StateAskLttngUstPythonAgent | vlttng/vlttng_quick_cli.py:491-503 | 'lttng-ust-python-agent' is appended exactly when lttng-ust is selected and the answer is yes |
| Quickstart.Wizard.StateAskPythonInterpreter | vlttng/vlttng_quick_cli.py:505-534 | the interpreter is set only when some profile name contains 'python': choice 1 gives python2, otherwise python3 |
| Quickstart.Wizard.StateAskPath | vlttng/vlttng_quick_cli.py:536-546 | the path becomes the answer, or 'virt-lttng' for a blank one, and the state becomes END |
| Quickstart.Wizard.HandleState | vlttng/vlttng_quick_cli.py:252-253 | every handler moves the state from number k to k + 1, and changes the answers exactly as Step of the old state says |
| Quickstart.Wizard.GetCmdLineArgs | vlttng/vlttng_quick_cli.py:255-268 | the command line is CmdLine of the profiles, the interpreter and the quoted path |
| Quickstart.Wizard.Start | vlttng/vlttng_quick_cli.py:270-281 | start handles ASK_PROJECTS through ASK_PATH exactly once each, in order, and stops at END with the answered path; the answers become Steps of the visited states, and the arguments are the command line of the answers |
| Quickstart.StepsAppend | vlttng/vlttng_quick_cli.py:278-279 | running the handlers of two runs of states one after the other is running the handlers of their concatenation |
| Quickstart.SelectionSteps | vlttng/vlttng_quick_cli.py:330-425 | from a new wizard, the three selection questions leave the selected projects, master for the chosen candidates, a version for every other project, and one profile name per versioned project |
| Quickstart.ToolSteps | vlttng/vlttng_quick_cli.py:427-461 | the feature state and the babeltrace and lttng-tools questions add only the tool feature profiles |
| Quickstart.AgentSteps | vlttng/vlttng_quick_cli.py:463-503 | the three agent questions add only the agent feature profiles |
| Quickstart.FeatureSteps | vlttng/vlttng_quick_cli.py:427-503 | the feature state and the five yes/no questions add exactly the feature profiles of the selected projects, in order, and change nothing else |
| Quickstart.FinalSteps | vlttng/vlttng_quick_cli.py:505-546 | the last two questions set the interpreter, when a profile mentions python, and the path |
| Quickstart.FreshRun | vlttng/vlttng_quick_cli.py:270-546 | a whole run from a new wizard leaves exactly the answers the user's choices determine: projects, versions, profiles, interpreter and path |
| Quickstart.Run | vlttng/vlttng_quick_cli.py:693-700 | a new wizard's command line is CmdLine of the profiles, the interpreter and the path the user's answers determine |

## Left out

- Reading YAML files and dumping the effective profile (vlttng/profile.py:274-286) are library I/O. The model takes the parsed documents as values, and omits the verbose print.
- YAML lists and non-string mapping keys are not in the tree datatype: profiles use neither for the keys the code reads.
- The tree is modelled on values, not as shared dicts, so `copy.deepcopy` (profile.py:208, 231; venv.py:417) needs no counterpart. YAML anchors and aliases (shared sub-dicts) are not modelled: in the source, a write through one alias is seen through the other, and `_merge_nodes` stores the patch's own dict in the merged root (profile.py:268), so a later merge or override into that key also changes the aliased node. In the model every node is a separate value.
- str() of a mapping and shlex.quote are parameters of the model (`dictText`, `quote`). posixpath.join is modelled for two arguments. os.path.abspath is not modelled: the creator takes the venv path as given.
- Merge.Merged: a merge of patch mappings that repeat a key follows the entries in order. YAML loading never produces such mappings.
- `_patch_env`'s PYTHONPATH discovery (vlttng/venv.py:94-119) probes the filesystem, and is left out.
- The `_Runner` layer is left out, and with it every shell command, `cd`, `set_env` and the fetch loop (vlttng/venv.py:135-258, 471-504). A build step records its name, directory, environment and kind instead.
- The bootstrap-script probe in `_configure_make_install` (vlttng/venv.py:508-513) is left out, as are the warnings (`_pwarn`, `_pinfo`) and the existence check on the venv directory (vlttng/venv.py:360-367).
- Venv.VEnvCreator.BuildProject: the log4j download for lttng-ust's Java agent (vlttng/venv.py:565-592) is not modelled, because it is network and file I/O. The lttng-ust step is a plain configure, make and install.
- The text of the activation template (vlttng/activate_template.py) is not modelled, and neither is the writing of the script: the model fills only the template's six named placeholders, in the order they appear (Venv.TemplateFields), and its doubled braces and shell text are left out. The `format` call as written raises, as the Findings below say; the rest of the model uses the corrected filling.
- Venv.VEnvCreator.CreateActivate: this follows the corrected filter of the Findings below, not the code as written. The code as written is modelled by Venv.ActivationAsWritten and Venv.RemoveKeys.
- Quickstart.RawChoiceToInt: int() is restricted to ASCII decimal digits, an optional sign, surrounding whitespace and single underscores between digits. Python's other Unicode digits are not accepted.
- Prompting, printing and the retry loops of `_get_choices`, `_get_choice`, `_get_yes_no` and `_input` (vlttng/vlttng_quick_cli.py:636-691) are left out. The wizard gets the answers those loops deliver as a `User` value: the choices, the yes/no answers, the interpreter number and the path line.
- The end of `start` is left out: the offer to run the command, the make-jobs question, `multiprocessing.cpu_count` and `subprocess.run` (vlttng/vlttng_quick_cli.py:283-328).
- Quickstart.Wizard.constructor: the state starts at ASK_PROJECTS in the constructor. The source sets it at the beginning of `start` instead.
- vlttng/cli.py is a stale older entry point, and is not part of this model. Neither are tools/create_profiles.py, setup.py, argparse, profile lookup and the SIGINT handler.

## Findings

| source | as written | input that shows it | evidently intended | confidence | as-written member | corrected member |
|---|---|---|---|---|---|---|
| vlttng/venv.py:436-441 | the reserved variables are deleted before the keys are stripped, so a padded key is not matched; it is then exported under the stripped, reserved name | a virt-env mapping `{" PATH": "x"}` exports `PATH='x'`, overriding the script's own PATH | no reserved variable is overridden by the user, as the comment at lines 420-421 says | not executed | Venv.ReservedKeyLeaks | Venv.ActivationEnvIsVirtEnv |
| vlttng/venv.py:460-464 | the `format` call passes venv_path, has_modules, has_java, env and unenv, but the template also uses `{has_lttng_scope}` (vlttng/activate_template.py:61), so `format` raises KeyError('has_lttng_scope') and no script is written; vlttng_cli.py:197-201 reports it as an unexpected error | any profile whose activation data is computed, for instance one with only lttng-tools | has_lttng_scope is supplied; its value is '0', since no valid project is lttng-scope (vlttng/profile.py:236-253) | not executed | Venv.ScriptAsWrittenRaises | Venv.ScriptFilled |
