# EnhancedSettings container, setting definitions and scope router

A Dafny model of the settings core of the EnhancedSettings Unreal Engine plugin:

- **`UEnhancedSettingsContainer`** holds the committed values of every setting: one map per value type (bool, int, float, colour, gameplay tag), keyed by the setting's unique id. It also keeps:
  - the pending changes a player has proposed but not applied;
  - the list of settings whose committed value differs from their default;
  - the pending and changed wrapper lists;
  - the event bindings that call script handlers when a setting is changed, committed, loaded or reset.

  Its operations are seeding, typed reads, proposing a change, applying, clearing, resetting, switching profile, and saving to or loading from a JSON settings file.
- **Setting definitions** (`UEnhancedSetting` and its Bool/Int/Float/Color/Tag subclasses) report a fixed value type, a default and a scope. Int and Float settings repair their min/max bounds when edited. Wrapper accessors hold a pending value.
- **`UEnhancedSettingsEngineSubsystem`** is the router. It maps each local player to its subsystem's container and keeps one game-instance container. It sends each read, change and batch operation to the container the setting's scope selects.

## Modules

| file | module | what it holds |
|---|---|---|
| `types.dfy` | `SettingsTypes` | tags and their text form, colours, the value-type, scope and event enums, the tagged `SettingValue` with its constructors, the five-map `ValueStore` |
| `settings.dfy` | `SettingDefinitions` | the `Setting` record (id, scope, class with its default), type/default/scope getters, the first-match id search, the requirements check, the Int/Float editor hooks as classes, the wrapper accessor class |
| `lists.dfy` | `Lists` | `TArray` `AddUnique` and `Remove`, and the enumeration of a map's keys in an unspecified order |
| `bindings.dfy` | `Bindings` | the unified delegate, binding handles, `(setting, event)` binding records, typed `Execute`, and the calls one broadcast makes |
| `codec.dfy` | `Codec` | decimal text, the `"R,G,B,A"` colour text and its two readings, the JSON document, `SerializeToJSON` and `DeserializeFromJSON` on values, and the save-then-load theorems |
| `paths.dfy` | `SavePaths` | the settings file path |
| `transitions.dfy` | `Transitions` | the effect of apply, reset and the Loaded broadcast, stated as folds over a visiting order, with lemmas about each fold |
| `container.dfy` | `Container` | the `SettingsContainer` class, plus the loops over pending values, changed settings and bindings as value-level methods proved equal to those folds |
| `router.dfy` | `Router` | the `SettingsRouter` class with its subsystem registrations and fan-out operations |

## Modelling conventions

- **Fatal checks.** A `checkf`, a null dereference or a missing `TMap` key stops the process. Functions return `Result.Fatal` there and methods return `Status.Crashed`. Nothing is promised about the state after a crash.
- **Map order.** `TMap` iteration order is unspecified. Each method that iterates a map returns the order it used, and that order is proved to list the map's keys exactly once (`Lists.Enumerates`). The effect is stated as a fold over that order. Lemmas such as `Transitions.WriteAllLookup` and `Transitions.ChangedAfterMeaning` hold for every order.
- **Handler calls.** Every call a binding makes is appended to the container's `invoked` list as `(handler, payload, id, setting)`, the three arguments every typed `Execute` passes. This makes observer order part of the state.
- **Settings files.** Each container sees the file system through its own `files` map from path to file text. A file is either a JSON document or text the JSON reader rejects. On disk all containers share one file system; see "## Left out".
- **Build flags.** The editor-build flag, the project directories and the owner's class name are constructor parameters.

## Notes on the code

- **Reads of a setting with no map.** `GetBoundValue` reaches `checkf` for a setting whose type has no map (`EnhancedSettingsContainer.cpp:401-403`). `Container.SettingsContainer.GetBoundSettingValue` is `Fatal` exactly then.
- **The changed list.** The changed list is a `TArray`. Applying uses `AddUnique` and `Remove`, but loading the base profile appends with plain `Add` (`EnhancedSettingsContainer.cpp:942`, `959`, `976`, `1009`, `1027`), so the list can hold a setting twice (`Codec.LoadBlock`).
- **Default colour.** The default constructor of the setting value initialises the colour with `FColor()`, which leaves it uninitialised (`EnhancedSettingsTypes.h:67-73`). `SettingsTypes.DefaultSettingValue` takes that colour as a parameter.
- **Colour decoding.** The loader multiplies each parsed channel by 255 and clamps it (`EnhancedSettingsContainer.cpp:1001-1006`). See "Findings".

## Model

| member | source | states |
|---|---|---|
| SettingsTypes.TagTextRoundTrip | Plugins/EnhancedSettings/Source/EnhancedSettings/Private/EnhancedSettingsContainer.cpp:1021-1026 | a tag written in its text form (the empty tag as "None") is read back as the same tag |
| SettingsTypes.TagToStringInjective | Plugins/EnhancedSettings/Source/EnhancedSettings/Private/EnhancedSettingsContainer.cpp:898-908 | two tags with the same text form are the same tag, so the file never writes two ids under one key |
| SettingsTypes.TypeOf | Plugins/EnhancedSettings/Source/EnhancedSettings/Public/EnhancedSettingsTypes.h:34-43 | every payload has one of the five types the store holds; Int2D and NONE carry none |
| SettingsTypes.Field | Plugins/EnhancedSettings/Source/EnhancedSettings/Public/EnhancedSettingsContainer.h:219-247 | the field a value type selects from a setting value has that type |
| SettingsTypes.FromPayload | Plugins/EnhancedSettings/Source/EnhancedSettings/Public/EnhancedSettingsTypes.h:75-99 | a single-argument constructor sets the type tag to the argument's type, and the matching field holds the argument |
| SettingsTypes.FromPayloadKeepsOtherDefaults | Plugins/EnhancedSettings/Source/EnhancedSettings/Public/EnhancedSettingsTypes.h:50-73 | every field a single-argument constructor does not set reads as in the default value, with the colour white |
| SettingsTypes.GetBoundValue | Plugins/EnhancedSettings/Source/EnhancedSettings/Public/EnhancedSettingsTypes.h:130-139 | returns the mapped value when the key is present and the fallback exactly when it is absent |
| SettingsTypes.Write | Plugins/EnhancedSettings/Source/EnhancedSettings/Public/EnhancedSettingsTypes.h:112-118 | after a write, the key holds the payload in its type's map; every other (type, key) reads as before |
| SettingsTypes.LookupHasAskedType | Plugins/EnhancedSettings/Source/EnhancedSettings/Public/EnhancedSettingsTypes.h:112-118 | a lookup in one type's map only ever returns a payload of that type |
| SettingDefinitions.DefaultOf | Plugins/EnhancedSettings/Source/EnhancedSettings/Public/EnhancedSetting.h:447-632 | the default a concrete setting class returns has the value type that class reports |
| SettingDefinitions.NewSettingDefaults | Plugins/EnhancedSettings/Source/EnhancedSettings/Public/EnhancedSetting.h:406-632 | a fresh asset has GameInstance scope and reports its class's type; defaults are true, 1, 1.0, white and the empty tag; the base class reports NONE |
| SettingDefinitions.StoredExactlyForConcreteClasses | Plugins/EnhancedSettings/Source/EnhancedSettings/Public/EnhancedSetting.h:436-441 | only the base class reports a type with no store map, and no setting reports Int2D |
| SettingDefinitions.FindById | Plugins/EnhancedSettings/Source/EnhancedSettings/Private/EnhancedSettingsContainer.cpp:1034-1044 | the result is the first registered setting with the id; none exactly when no registered setting has it |
| SettingDefinitions.AreRequirementsMet | Plugins/EnhancedSettings/Source/EnhancedSettings/Private/EnhancedSetting.cpp:21-28 | true exactly when every requirement is met (so true for none); stops right after the first failing requirement |
| SettingDefinitions.RepairIntRange | Plugins/EnhancedSettings/Source/EnhancedSettings/Private/EnhancedSetting.cpp:42-49 | editing Min keeps the new Min and raises Max to it if needed; editing Max keeps the new Max and lowers Min if needed; afterwards Min <= Max |
| SettingDefinitions.ClampInt | Plugins/EnhancedSettings/Source/EnhancedSettings/Private/EnhancedSetting.cpp:50-51 | the value is at most Max when bHasMaxValue is set; at least Min when bHasMinValue is set and the range is not empty; unchanged when already in range; otherwise a bound |
| SettingDefinitions.RepairFloatRange | Plugins/EnhancedSettings/Source/EnhancedSettings/Private/EnhancedSetting.cpp:60-67 | the same bound repair for Float settings |
| SettingDefinitions.ClampFloat | Plugins/EnhancedSettings/Source/EnhancedSettings/Private/EnhancedSetting.cpp:68-69 | the same value clamp for Float settings |
| SettingDefinitions.IntSettingAsset.constructor | Plugins/EnhancedSettings/Source/EnhancedSettings/Public/EnhancedSetting.h:478-512 | class defaults: Value 1, no min (0), no max (10) |
| SettingDefinitions.IntSettingAsset.PostEditChangeProperty | Plugins/EnhancedSettings/Source/EnhancedSettings/Private/EnhancedSetting.cpp:36-52 | the new bounds are the repaired bounds; the new value is the old value clamped into them; the flags are unchanged |
| SettingDefinitions.FloatSettingAsset.constructor | Plugins/EnhancedSettings/Source/EnhancedSettings/Public/EnhancedSetting.h:535-564 | class defaults: Value 1, no min (0), no max (1) |
| SettingDefinitions.FloatSettingAsset.PostEditChangeProperty | Plugins/EnhancedSettings/Source/EnhancedSettings/Private/EnhancedSetting.cpp:54-70 | the same repair and clamp on the Float fields |
| SettingDefinitions.PendingAccessor.constructor | Plugins/EnhancedSettings/Source/EnhancedSettings/Public/EnhancedSetting.h:197-209 | the pending value starts as the given initial value |
| SettingDefinitions.PendingAccessor.SetValue | Plugins/EnhancedSettings/Source/EnhancedSettings/Public/EnhancedSetting.h:209-219 | GetPendingValue returns the value just set |
| SettingDefinitions.PendingAccessor.ApplyValue | Plugins/EnhancedSettings/Source/EnhancedSettings/Public/EnhancedSetting.h:184 | the base accessor's apply changes nothing |
| SettingDefinitions.PendingAccessor.ResetValue | Plugins/EnhancedSettings/Source/EnhancedSettings/Public/EnhancedSetting.h:186 | the base accessor's reset changes nothing |
| SettingDefinitions.PendingAccessor.ClearValue | Plugins/EnhancedSettings/Source/EnhancedSettings/Public/EnhancedSetting.h:188 | the base accessor's clear changes nothing |
| SettingDefinitions.NewBoolAccessor | Plugins/EnhancedSettings/Source/EnhancedSettings/Public/EnhancedSetting.h:197-219 | a new Bool accessor's pending value is false |
| SettingDefinitions.NewIntAccessor | Plugins/EnhancedSettings/Source/EnhancedSettings/Public/EnhancedSetting.h:226-248 | a new Int accessor's pending value is 0 |
| SettingDefinitions.NewFloatAccessor | Plugins/EnhancedSettings/Source/EnhancedSettings/Public/EnhancedSetting.h:260-282 | a new Float accessor's pending value is 0.0 |
| SettingDefinitions.NewInt2DAccessor | Plugins/EnhancedSettings/Source/EnhancedSettings/Public/EnhancedSetting.h:289-311 | a new Int2D accessor's pending value is (0, 0) |
| Lists.AddUnique | Plugins/EnhancedSettings/Source/EnhancedSettings/Private/EnhancedSettingsContainer.cpp:159-162 | the element is present afterwards with its old count, or once if it was absent; every other element keeps its count |
| Lists.RemoveAll | Plugins/EnhancedSettings/Source/EnhancedSettings/Private/EnhancedSettingsContainer.cpp:164-167 | no occurrence of the element is left; every other element keeps its count |
| Lists.RemoveAllKeepsOrder | Plugins/EnhancedSettings/Source/EnhancedSettings/Private/EnhancedSettingsContainer.cpp:164-167 | removal keeps the order of the rest: removing from a concatenation removes from each part in place, and a single element is dropped exactly when it is the one removed |
| Lists.RemoveAbsent | Plugins/EnhancedSettings/Source/EnhancedSettings/Private/EnhancedSettingsContainer.cpp:164-167 | removing an absent element leaves the list as it was |
| Lists.Enumerate | Plugins/EnhancedSettings/Source/EnhancedSettings/Private/EnhancedSettingsContainer.cpp:506 | the visiting order of a map's keys lists every key exactly once |
| Lists.EnumerationLength | Plugins/EnhancedSettings/Source/EnhancedSettings/Private/EnhancedSettingsContainer.cpp:506 | such an order has exactly as many entries as the map has keys |
| Bindings.Unbind | Plugins/EnhancedSettings/Source/EnhancedSettings/Public/EnhancedSettingsContainer.h:46-52 | the delegate is no longer bound; the guard flag and the presence of a delegate object are kept |
| Bindings.BindDelegate | Plugins/EnhancedSettings/Source/EnhancedSettings/Public/EnhancedSettingsContainer.h:68-76 | the delegate now targets the handler, and is bound exactly when the handler resolves; the guard flag is kept |
| Bindings.SetShouldFireWithEditorScriptGuard | Plugins/EnhancedSettings/Source/EnhancedSettings/Public/EnhancedSettingsContainer.h:185-188 | the guard flag is the new value; the delegate and whether it is bound are unchanged |
| Bindings.ExecuteDelegate | Plugins/EnhancedSettings/Source/EnhancedSettings/Public/EnhancedSettingsContainer.h:95-110 | a call happens exactly when the delegate is present and bound; it goes to the bound handler with the given arguments |
| Bindings.NewBinding | Plugins/EnhancedSettings/Source/EnhancedSettings/Public/EnhancedSettingsContainer.h:152-156 | GetSetting and GetChangeEvent return what the constructor was given; the handle equals the default binding's; the delegate is unbound |
| Bindings.Clone | Plugins/EnhancedSettings/Source/EnhancedSettings/Public/EnhancedSettingsContainer.h:165-172 | the clone has the same handle, setting, event and delegate |
| Bindings.BindingsAllCompareEqual | Plugins/EnhancedSettings/Source/EnhancedSettings/Public/EnhancedSettingsContainer.h:114-131 | handles are never assigned, so any two constructed or cloned bindings compare equal |
| Bindings.Execute | Plugins/EnhancedSettings/Source/EnhancedSettings/Public/EnhancedSettingsContainer.h:219-247 | a bound typed binding passes the value field its signature selects, the setting's id and the setting itself; an unbound one calls nothing |
| Bindings.FiresExactly | Plugins/EnhancedSettings/Source/EnhancedSettings/Private/EnhancedSettingsContainer.cpp:408-424 | a broadcast makes exactly one call per bound binding of that setting and event, with the field its signature selects, the setting's id and the setting |
| Bindings.FiresCarrySettingId | Plugins/EnhancedSettings/Source/EnhancedSettings/Private/EnhancedSettingsContainer.cpp:408-424 | every call carries the setting and its id; no listening binding means no call; at most one call per binding |
| Bindings.FiresIgnoresOtherBindings | Plugins/EnhancedSettings/Source/EnhancedSettings/Private/EnhancedSettingsContainer.cpp:408-424 | appending a binding of another setting or event, or an unbound one, does not change what a broadcast calls |
| Codec.NatToStringReadsBack | Plugins/EnhancedSettings/Source/EnhancedSettings/Private/EnhancedSettingsContainer.cpp:892-893 | the decimal text of a channel is non-empty digits whose value is the channel |
| Codec.LeadingNumberOfNatToString | Plugins/EnhancedSettings/Source/EnhancedSettings/Private/EnhancedSettingsContainer.cpp:1002-1005 | the loader's text-to-number conversion reads the decimal text back as the number written |
| Codec.ColorTextParts | Plugins/EnhancedSettings/Source/EnhancedSettings/Private/EnhancedSettingsContainer.cpp:994-998 | the colour text written splits at its commas into exactly the four channel texts |
| Codec.ChannelAsWritten | Plugins/EnhancedSettings/Source/EnhancedSettings/Private/EnhancedSettingsContainer.cpp:1001-1006 | a channel reads as 0 when its number is 0 and as 255 otherwise |
| Codec.ColorRoundTripAsWritten | Plugins/EnhancedSettings/Source/EnhancedSettings/Private/EnhancedSettingsContainer.cpp:1001-1006 | the loader reads a saved colour back with each channel saturated: 0 stays 0, anything else becomes 255 |
| Codec.ColorRoundTripAsWrittenFails | Plugins/EnhancedSettings/Source/EnhancedSettings/Private/EnhancedSettingsContainer.cpp:1001-1006 | the colour (128,0,0,255) is saved as "128,0,0,255" and read back as (255,0,0,255) |
| Codec.Channel | Plugins/EnhancedSettings/Source/EnhancedSettings/Private/EnhancedSettingsContainer.cpp:892-893 | the corrected channel reading returns any number up to 255 unchanged |
| Codec.ColorRoundTrip | Plugins/EnhancedSettings/Source/EnhancedSettings/Private/EnhancedSettingsContainer.cpp:892-893 | the corrected reading restores every colour from the text the saver writes |
| Codec.TruncateToInt | Plugins/EnhancedSettings/Source/EnhancedSettings/Private/EnhancedSettingsContainer.cpp:957 | converting a number to an integer drops the fraction toward zero |
| Codec.ScalarRoundTrips | Plugins/EnhancedSettings/Source/EnhancedSettings/Private/EnhancedSettingsContainer.cpp:930-1030 | booleans, integers, floats and tags are read back exactly as written |
| Codec.SerializeBlockSucceeds | Plugins/EnhancedSettings/Source/EnhancedSettings/Private/EnhancedSettingsContainer.cpp:846-855 | a block is written unless a visited key has no setting of the block's class (a null dereference) |
| Codec.SerializeBlockKeys | Plugins/EnhancedSettings/Source/EnhancedSettings/Private/EnhancedSettingsContainer.cpp:846-855 | every entry of a written block is keyed by the text of a visited key |
| Codec.SerializeBlockMeaning | Plugins/EnhancedSettings/Source/EnhancedSettings/Private/EnhancedSettingsContainer.cpp:846-855 | a written block holds exactly the values that differ from their setting's default, each encoded under its key's text |
| Codec.SerializeSucceeds | Plugins/EnhancedSettings/Source/EnhancedSettings/Private/EnhancedSettingsContainer.cpp:838-916 | saving succeeds exactly when every stored key is the id of a registered setting of the map's class; the document then has the five named blocks |
| Codec.SerializedBlocks | Plugins/EnhancedSettings/Source/EnhancedSettings/Private/EnhancedSettingsContainer.cpp:843-912 | a written document has exactly the five block names, each holding the block written from the matching map |
| Codec.LoadBlock | Plugins/EnhancedSettings/Source/EnhancedSettings/Private/EnhancedSettingsContainer.cpp:930-945 | loading only extends the changed list, and only for the base profile, with registered settings; it never drops a stored key |
| Codec.LoadBlockValue | Plugins/EnhancedSettings/Source/EnhancedSettings/Private/EnhancedSettingsContainer.cpp:934-944 | a tag no key names keeps its value; a tag named by one key of a registered setting gets the decoded value |
| Codec.Serialize | Plugins/EnhancedSettings/Source/EnhancedSettings/Private/EnhancedSettingsContainer.cpp:838-916 | a document it produces holds exactly the five named blocks; when it succeeds and what each block holds are SerializeSucceeds, SerializedBlocks and SerializeBlockMeaning |
| Codec.Deserialize | Plugins/EnhancedSettings/Source/EnhancedSettings/Private/EnhancedSettingsContainer.cpp:918-1032 | fails exactly on text that does not parse, and then changes nothing; the changed list only grows, and only for the base profile |
| Codec.BlockRoundTrip | Plugins/EnhancedSettings/Source/EnhancedSettings/Private/EnhancedSettingsContainer.cpp:838-1032 | reading back a written block gives each non-default key the decoding of its encoding; every other tag keeps its old value |
| Codec.SaveThenLoad | Plugins/EnhancedSettings/Source/EnhancedSettings/Private/EnhancedSettingsContainer.cpp:838-1032 | save then load restores every non-default entry (colours saturated) and leaves the other entries of the target store as they were |
| Codec.SaveThenLoadBools | Plugins/EnhancedSettings/Source/EnhancedSettings/Private/EnhancedSettingsContainer.cpp:930-945 | the boolean part of save-then-load |
| Codec.SaveThenLoadInts | Plugins/EnhancedSettings/Source/EnhancedSettings/Private/EnhancedSettingsContainer.cpp:947-962 | the integer part of save-then-load |
| Codec.SaveThenLoadFloats | Plugins/EnhancedSettings/Source/EnhancedSettings/Private/EnhancedSettingsContainer.cpp:964-979 | the float part of save-then-load |
| Codec.SaveThenLoadColors | Plugins/EnhancedSettings/Source/EnhancedSettings/Private/EnhancedSettingsContainer.cpp:981-1012 | the colour part of save-then-load, with saturated channels |
| Codec.SaveThenLoadTags | Plugins/EnhancedSettings/Source/EnhancedSettings/Private/EnhancedSettingsContainer.cpp:1014-1030 | the tag part of save-then-load |
| Codec.ColorValuesSaturate | Plugins/EnhancedSettings/Source/EnhancedSettings/Private/EnhancedSettingsContainer.cpp:1001-1006 | every colour value written is read back saturated |
| Codec.TagValuesRoundTrip | Plugins/EnhancedSettings/Source/EnhancedSettings/Private/EnhancedSettingsContainer.cpp:1025 | every tag value written is read back as the same tag |
| SavePaths.PathAppend | Plugins/EnhancedSettings/Source/EnhancedSettings/Private/EnhancedSettingsContainer.cpp:740-743 | the path join puts exactly one '/' between the parts unless the left part is empty or already ends in a slash |
| SavePaths.SettingsRoot | Plugins/EnhancedSettings/Source/EnhancedSettings/Private/EnhancedSettingsContainer.cpp:738-744 | the settings root folder ends in '/' |
| SavePaths.SaveLoadFilePath | Plugins/EnhancedSettings/Source/EnhancedSettings/Private/EnhancedSettingsContainer.cpp:729-744 | the path is the settings root of the build, then "Profile<N>", then a separator chosen by the owner's name alone, the owner's class name (or "Default"), ".json" and, for a stack file, the stack tag's text |
| SavePaths.ProfilesUseDistinctFiles | Plugins/EnhancedSettings/Source/EnhancedSettings/Private/EnhancedSettingsContainer.cpp:737-743 | two different profile indices never share a file |
| SavePaths.SaveLoadFilePathEnds | Plugins/EnhancedSettings/Source/EnhancedSettings/Private/EnhancedSettingsContainer.cpp:732-743 | a non-stack path ends in the owner's class name (or "Default") followed by ".json" |
| Transitions.WriteAllLookup | Plugins/EnhancedSettings/Source/EnhancedSettings/Private/EnhancedSettingsContainer.cpp:526-595 | after the writes, a key no applied setting writes keeps its entry, and a key they all write with one payload holds it |
| Transitions.ApplyWritesPending | Plugins/EnhancedSettings/Source/EnhancedSettings/Private/EnhancedSettingsContainer.cpp:530-591 | after the apply writes, a pending setting of a stored type holds the field of its pending value that its type selects, unless another applied setting of that type shares its id |
| Transitions.ResetWritesDefault | Plugins/EnhancedSettings/Source/EnhancedSettings/Private/EnhancedSettingsContainer.cpp:629-700 | after the reset writes, a changed setting holds its default in the map of its type, unless another listed setting of that type shares its id |
| Transitions.WriteAllResolves | Plugins/EnhancedSettings/Source/EnhancedSettings/Private/EnhancedSettingsContainer.cpp:797-815 | the store after a sequence of writes can be saved exactly when the store before could and every written key resolves in the map its payload goes to |
| Transitions.ApplyResolves | Plugins/EnhancedSettings/Source/EnhancedSettings/Private/EnhancedSettingsContainer.cpp:524-614 | a pending setting without a map makes the apply-and-save fail; otherwise the applied store can be saved exactly when every stored key and every pending id resolves (ApplyResolvable), whatever the order |
| Transitions.ResetResolves | Plugins/EnhancedSettings/Source/EnhancedSettings/Private/EnhancedSettingsContainer.cpp:625-717 | a changed setting without a map makes the reset-and-save fail; otherwise the reset store can be saved exactly when every stored key and every changed id resolves (ResetResolvable) |
| Codec.WriteResolves | Plugins/EnhancedSettings/Source/EnhancedSettings/Private/EnhancedSettingsContainer.cpp:846-855 | writing one key keeps a store savable exactly when the key resolves in the map the payload goes to, since writes never remove a key |
| Transitions.ChangedAfterMeaning | Plugins/EnhancedSettings/Source/EnhancedSettings/Private/EnhancedSettingsContainer.cpp:535-590 | an applied setting ends in the changed list exactly when it differs from its default, at most once if it was absent; other settings keep their count |
| Transitions.BroadcastAllExactly | Plugins/EnhancedSettings/Source/EnhancedSettings/Private/EnhancedSettingsContainer.cpp:596-601 | the calls are exactly those of the bound bindings listening to the event of a visited setting, with that setting's value |
| Transitions.BroadcastAllSilent | Plugins/EnhancedSettings/Source/EnhancedSettings/Private/EnhancedSettingsContainer.cpp:596-601 | an event no binding listens to causes no call |
| Transitions.LoadedCallsExactly | Plugins/EnhancedSettings/Source/EnhancedSettings/Private/EnhancedSettingsContainer.cpp:99-157 | a Loaded call is made exactly for a stored key naming a registered setting, by a bound Loaded binding of it, with the stored value |
| Transitions.WriteAllSnoc | Plugins/EnhancedSettings/Source/EnhancedSettings/Private/EnhancedSettingsContainer.cpp:526-595 | applying one more setting writes its payload over the earlier writes |
| Transitions.ChangedAfterSnoc | Plugins/EnhancedSettings/Source/EnhancedSettings/Private/EnhancedSettingsContainer.cpp:535-590 | applying one more setting removes it from, or adds it once to, the changed list |
| Transitions.BroadcastAllSnoc | Plugins/EnhancedSettings/Source/EnhancedSettings/Private/EnhancedSettingsContainer.cpp:596-601 | broadcasting for one more setting appends its calls |
| Container.Sentinel | Plugins/EnhancedSettings/Source/EnhancedSettings/Private/EnhancedSettingsContainer.cpp:351-379 | the fallback of a typed read has the type that was read |
| Container.Clamp | Plugins/EnhancedSettings/Source/EnhancedSettings/Private/EnhancedSettingsContainer.cpp:619 | the profile index is clamped into [1, MaxProfiles]: unchanged inside, the nearer bound outside |
| Container.CollectCalls | Plugins/EnhancedSettings/Source/EnhancedSettings/Private/EnhancedSettingsContainer.cpp:410-416 | the loop over the bindings makes exactly the calls of one broadcast |
| Container.GetSettingByUniqueID | Plugins/EnhancedSettings/Source/EnhancedSettings/Private/EnhancedSettingsContainer.cpp:1034-1044 | the linear search returns the first registered setting with the id, or none |
| Container.CollectLoadedCalls | Plugins/EnhancedSettings/Source/EnhancedSettings/Private/EnhancedSettingsContainer.cpp:101-111 | the loop over one map's keys makes exactly the Loaded calls of that map |
| Container.BroadcastEach | Plugins/EnhancedSettings/Source/EnhancedSettings/Private/EnhancedSettingsContainer.cpp:506-514 | the nested loop over settings and bindings makes exactly the broadcast's calls, setting by setting |
| Container.CommitPending | Plugins/EnhancedSettings/Source/EnhancedSettings/Private/EnhancedSettingsContainer.cpp:526-602 | succeeds exactly when no pending setting is of the base class; then the store, the changed list and the Commited calls are the folds over the order |
| Container.RestoreDefaults | Plugins/EnhancedSettings/Source/EnhancedSettings/Private/EnhancedSettingsContainer.cpp:629-700 | succeeds exactly when no changed setting is of the base class; then each default is written and the Reset calls are made |
| Container.SettingsContainer.constructor | Plugins/EnhancedSettings/Source/EnhancedSettings/Public/EnhancedSettingsContainer.h:264-290 | profile 1; empty store, pending map, registry, lists and bindings |
| Container.SettingsContainer.AddSettingToContainer | Plugins/EnhancedSettings/Source/EnhancedSettings/Private/EnhancedSettingsContainer.cpp:308-340 | the setting is registered; its default is seeded in its type's map; a base-class setting stops the process; nothing else changes |
| Container.SettingsContainer.TryToAddSettingToContainer | Plugins/EnhancedSettings/Source/EnhancedSettings/Private/EnhancedSettingsContainer.cpp:300-306 | a setting of another scope is rejected, leaving registry and store unchanged; one of the owner's scope is added; a null asset is dereferenced |
| Container.SettingsContainer.GetBoundTypedValue | Plugins/EnhancedSettings/Source/EnhancedSettings/Private/EnhancedSettingsContainer.cpp:345-379 | the committed value when the id is stored in the type's map; otherwise the type's fallback: false, -1, -1.0, red or the empty tag |
| Container.SettingsContainer.GetBoundSettingValue | Plugins/EnhancedSettings/Source/EnhancedSettings/Private/EnhancedSettingsContainer.cpp:381-406 | tagged with the setting's own type and holding its committed value or sentinel; fatal exactly for a type with no map |
| Container.SettingsContainer.ChangeBoundValue | Plugins/EnhancedSettings/Source/EnhancedSettings/Private/EnhancedSettingsContainer.cpp:408-497 | fires the Changed bindings with the value first; drops the pending entry when the store holds that value, otherwise makes it pending; the store is untouched |
| Container.SettingsContainer.ClearUnappliedChanges | Plugins/EnhancedSettings/Source/EnhancedSettings/Private/EnhancedSettingsContainer.cpp:504-522 | fires Changed with each discarded value; empties the pending map and pending wrappers; leaves store and changed list alone |
| Container.SettingsContainer.CommitPendingChanges | Plugins/EnhancedSettings/Source/EnhancedSettings/Private/EnhancedSettingsContainer.cpp:526-611 | ok exactly when no pending setting is of the base class; then the store, the changed list and the Commited calls are the folds over the map's order, and pending values and pending wrappers are emptied |
| Container.SettingsContainer.ApplyChanges | Plugins/EnhancedSettings/Source/EnhancedSettings/Private/EnhancedSettingsContainer.cpp:524-614 | completes exactly when every pending setting has a map and every stored key and pending id resolves (ApplyCompletes); it then writes each pending field, updates the changed list, fires Commited, empties pending and saves the store's document |
| Container.SettingsContainer.ResetSettings | Plugins/EnhancedSettings/Source/EnhancedSettings/Private/EnhancedSettingsContainer.cpp:625-711 | completes exactly when every changed setting has a map; it then writes each changed setting's default and fires Reset with it; pending, the changed list and both wrapper lists end empty |
| Container.SettingsContainer.ResetSettingsAndApply | Plugins/EnhancedSettings/Source/EnhancedSettings/Private/EnhancedSettingsContainer.cpp:713-717 | completes exactly when the reset completes and the reset store can be saved (ResetAndSaveCompletes); it then resets, fires Reset, and saves the reset store's document |
| Container.SettingsContainer.SetProfile | Plugins/EnhancedSettings/Source/EnhancedSettings/Private/EnhancedSettingsContainer.cpp:616-623 | completes exactly when the reset does; it then fires Reset, clamps the index into [1, 5] and loads that profile: when the file is missing or does not parse the store is the reset store and the changed list is empty, otherwise they are the base-profile load of the file into the reset store |
| Container.SettingsContainer.BindEnhancedSetting | Plugins/EnhancedSettings/Source/EnhancedSettings/Private/EnhancedSettingsContainer.cpp:33-97 | appends one binding of the setting's type, listening to the event, bound to the handler, with the editor-script guard set |
| Container.SettingsContainer.CallOnLoadedEvents | Plugins/EnhancedSettings/Source/EnhancedSettings/Private/EnhancedSettingsContainer.cpp:99-157 | makes the Loaded calls of the five maps in turn and changes nothing else |
| Container.SettingsContainer.AddPendingEnhancedSettingWrapper | Plugins/EnhancedSettings/Source/EnhancedSettings/Private/EnhancedSettingsContainer.cpp:159-162 | adds the wrapper unless already pending, so HasUnappliedChanges holds |
| Container.SettingsContainer.RemovePendingEnhancedSettingWrapper | Plugins/EnhancedSettings/Source/EnhancedSettings/Private/EnhancedSettingsContainer.cpp:164-167 | removes every pending occurrence of the wrapper |
| Container.SettingsContainer.AddEnhancedSettingWrapperChangedSetting | Plugins/EnhancedSettings/Source/EnhancedSettings/Private/EnhancedSettingsContainer.cpp:169-172 | adds the wrapper unless already listed, so CanResetSettings holds |
| Container.SettingsContainer.RemoveEnhancedSettingWrapperChangedSetting | Plugins/EnhancedSettings/Source/EnhancedSettings/Private/EnhancedSettingsContainer.cpp:174-177 | removes every listed occurrence of the wrapper |
| Container.SettingsContainer.StoreOrders | Plugins/EnhancedSettings/Source/EnhancedSettings/Private/EnhancedSettingsContainer.cpp:846 | the visiting orders list each map's keys exactly once |
| Container.SettingsContainer.HasUnappliedChanges | Plugins/EnhancedSettings/Source/EnhancedSettings/Private/EnhancedSettingsContainer.cpp:499-502 | true exactly when a setting value or a wrapper is pending |
| Container.SettingsContainer.CanResetSettings | Plugins/EnhancedSettings/Source/EnhancedSettings/Private/EnhancedSettingsContainer.cpp:719-725 | true exactly when a setting or a wrapper is on a changed list |
| Container.SettingsContainer.SaveSettings | Plugins/EnhancedSettings/Source/EnhancedSettings/Private/EnhancedSettingsContainer.cpp:797-815 | succeeds exactly when every stored key resolves; the current profile's file then holds the serialised store |
| Container.SettingsContainer.DocumentOrders | Plugins/EnhancedSettings/Source/EnhancedSettings/Private/EnhancedSettingsContainer.cpp:934 | the visiting orders list each block's keys exactly once |
| Container.SettingsContainer.LoadSettings | Plugins/EnhancedSettings/Source/EnhancedSettings/Private/EnhancedSettingsContainer.cpp:817-836 | true exactly when the profile's file exists and parses; then store and changed list are the base-profile load of it; otherwise unchanged |
| Container.SettingsContainer.ApplyStack | Plugins/EnhancedSettings/Source/EnhancedSettings/Private/EnhancedSettingsContainer.cpp:202-211 | reports whether the stack file exists and parses, and leaves the container unchanged |
| Router.ApplyContainer | Plugins/EnhancedSettings/Source/EnhancedSettings/Private/EnhancedSettingsEngineSubsystem.cpp:101-104 | one container's apply completes exactly when ApplyCompletes held before, and then leaves nothing pending and ApplyCompletes holding |
| Router.ClearContainer | Plugins/EnhancedSettings/Source/EnhancedSettings/Private/EnhancedSettingsEngineSubsystem.cpp:111-115 | one container's clear leaves nothing pending and keeps its store and changed list |
| Router.ResetContainer | Plugins/EnhancedSettings/Source/EnhancedSettings/Private/EnhancedSettingsEngineSubsystem.cpp:144-147 | one container's reset-and-save completes exactly when ResetAndSaveCompletes held before, and then leaves nothing to reset, nothing pending and ResetAndSaveCompletes holding |
| Router.SettingsRouter.constructor | Plugins/EnhancedSettings/Source/EnhancedSettings/Private/EnhancedSettingsEngineSubsystem.cpp:12-13 | no local-player subsystem and no game-instance subsystem are registered |
| Router.SettingsRouter.ContainerFromScope | Plugins/EnhancedSettings/Source/EnhancedSettings/Private/EnhancedSettingsEngineSubsystem.cpp:221-236 | GameInstance gives the registered game-instance container; LocalPlayer gives the player's registered container; anything missing is fatal |
| Router.SettingsRouter.ContainersForPlayer | Plugins/EnhancedSettings/Source/EnhancedSettings/Private/EnhancedSettingsEngineSubsystem.cpp:210-219 | empty for an invalid controller; otherwise exactly [local-player container, game-instance container] |
| Router.SettingsRouter.RegisterLocalPlayerSubsystem | Plugins/EnhancedSettings/Source/EnhancedSettings/Private/EnhancedSettingsEngineSubsystem.cpp:184-187 | inserts or overwrites the player's entry, so the player's LocalPlayer scope routes to its container |
| Router.SettingsRouter.UnregisterLocalPlayerSubsystem | Plugins/EnhancedSettings/Source/EnhancedSettings/Private/EnhancedSettingsEngineSubsystem.cpp:189-192 | removes the player's entry, so routing that player's LocalPlayer scope is fatal |
| Router.SettingsRouter.RegisterGameInstanceSubsystem | Plugins/EnhancedSettings/Source/EnhancedSettings/Private/EnhancedSettingsEngineSubsystem.cpp:194-198 | sets the single game-instance subsystem, which every GameInstance lookup then returns |
| Router.SettingsRouter.UnregisterGameInstanceSubsystem | Plugins/EnhancedSettings/Source/EnhancedSettings/Private/EnhancedSettingsEngineSubsystem.cpp:200-203 | clears it, so every GameInstance lookup is fatal |
| Router.SettingsRouter.GetBoundTypedValue | Plugins/EnhancedSettings/Source/EnhancedSettings/Private/EnhancedSettingsEngineSubsystem.cpp:15-63 | the routed container's committed value or sentinel; fatal exactly when routing is |
| Router.SettingsRouter.ChangeBoundValue | Plugins/EnhancedSettings/Source/EnhancedSettings/Private/EnhancedSettingsEngineSubsystem.cpp:65-95 | a tag change for an invalid controller does nothing; otherwise the routed container proposes the value and no other container changes |
| Router.SettingsRouter.HasUnappliedChanges | Plugins/EnhancedSettings/Source/EnhancedSettings/Private/EnhancedSettingsEngineSubsystem.cpp:118-127 | false for an invalid controller; otherwise true exactly when some container of the player has unapplied changes |
| Router.SettingsRouter.CanResetSettings | Plugins/EnhancedSettings/Source/EnhancedSettings/Private/EnhancedSettingsEngineSubsystem.cpp:129-138 | false for an invalid controller; otherwise true exactly when some container of the player can reset |
| Router.SettingsRouter.ApplyChanges | Plugins/EnhancedSettings/Source/EnhancedSettings/Private/EnhancedSettingsEngineSubsystem.cpp:97-105 | completes exactly when routing succeeds and every container of the player could apply (an invalid controller has none); nothing changes for an invalid controller; otherwise every container of the player is left with nothing pending |
| Router.SettingsRouter.ClearChanges | Plugins/EnhancedSettings/Source/EnhancedSettings/Private/EnhancedSettingsEngineSubsystem.cpp:107-116 | nothing for an invalid controller; otherwise every container of the player is cleared; no committed value or changed list changes |
| Router.SettingsRouter.ResetSettings | Plugins/EnhancedSettings/Source/EnhancedSettings/Private/EnhancedSettingsEngineSubsystem.cpp:140-148 | ignores the scope argument; completes exactly when routing succeeds and every container of the player could reset and save; nothing changes for an invalid controller; otherwise every container of the player is left with nothing to reset and nothing pending |
| Router.SettingsRouter.AddPendingEnhancedSettingWrapper | Plugins/EnhancedSettings/Source/EnhancedSettings/Private/EnhancedSettingsEngineSubsystem.cpp:166-173 | always goes to the game-instance container, which adds the wrapper to its pending list |
| Router.SettingsRouter.RemovePendingEnhancedSettingWrapper | Plugins/EnhancedSettings/Source/EnhancedSettings/Private/EnhancedSettingsEngineSubsystem.cpp:175-182 | always goes to the game-instance container, which removes it from its pending list |
| Router.SettingsRouter.AddEnhancedSettingWrapperChangedSetting | Plugins/EnhancedSettings/Source/EnhancedSettings/Private/EnhancedSettingsEngineSubsystem.cpp:150-156 | always goes to the game-instance container, which adds it to its changed-wrapper list |
| Router.SettingsRouter.RemoveEnhancedSettingWrapperChangedSetting | Plugins/EnhancedSettings/Source/EnhancedSettings/Private/EnhancedSettingsEngineSubsystem.cpp:158-164 | always goes to the game-instance container, which removes it from its changed-wrapper list |

## Left out

- Asset discovery and loading (`Initialize`, `LoadSettingsAssets` and the asset-registry callbacks) depend on the engine's asset manager. Seeding is modelled by `AddSettingToContainer` and `TryToAddSettingToContainer` on a given setting.
- `Tick`, all log output and on-screen debug messages have no effect on the state.
- The calls of `ApplyValue`, `ClearValue` and `ResetValue` on wrapper accessors from apply, clear and reset are Blueprint-native events of engine-owned settings. Only the bookkeeping on the wrapper lists is modelled.
- The file system: a failed file write or read other than a missing file is not modelled. The directory creation in `GetSaveLoadFilePath` is left out. `SaveStack` and `LoadStack` are modelled only through the path they use and whether the stack file exists and parses.
- Each container has its own `files` map, but on disk every container shares one file system. The file name is the owner's class name (`EnhancedSettingsContainer.cpp:732`), and each subsystem creates its container as a default subobject (`EnhancedSettingsLocalPlayerSubsystem.cpp:12`, `EnhancedSettingsGameInstanceSubsystem.cpp:10`). So every local player's container uses the same file for a given profile, and one player's save is what another player's `SetProfile` or `LoadSettings` reads. The model does not show this: `SavePaths.ProfilesUseDistinctFiles` separates only profile indices.
- `RemoveStack` is modelled with an empty body, as in the source, and carries no contract.
- JSON text is not parsed. A file is either a document (block name → key text → JSON value) or text the reader rejects. The reader's conversions between JSON kinds are modelled by `AsBool`, `AsNumber` and `AsString`. A block that is not an object is not modelled.
- `FCString::Atof` is modelled only on the unsigned decimal text the saver writes, not on signs, fractions or exponents.
- Floats are modelled as exact reals and integers as unbounded; 32-bit float rounding and the int32 width are not modelled.
- Gameplay tags are names without the tag registry: a name the registry does not know is not turned into the empty tag, and names compare case-sensitively.
- Setting identity is record equality of (id, scope, class with default), not object identity.
- Native and lambda delegates, `IsBoundToObject`, and the editor-script guard's effect on firing are not modelled. A delegate binds a script handler by object and function name.
- `EnhancedSettingDelegateBinding.cpp` (reflection walk), `UESER_MainPlayer`, the logarithmic slider maths, the Blueprint nodes and the editor modules are not part of this model.
- The router's statics are one `SettingsRouter` object. Local-player and game-instance subsystems are records holding their container. A controller that is non-null but pending kill is treated like a null one.
- Router.SettingsRouter.GetAllEnhancedSettingsContainers returns the empty list, as in the source, and carries no contract.
- Container.SettingsContainer.ApplyChanges, ResetSettings, SetProfile and the router's fan-out operations state exactly when they crash, but nothing about the state after a fatal check, since the process has stopped.
- Router.SettingsRouter.ApplyChanges, ClearChanges and ResetSettings state per container only that nothing is left pending or to reset (and, for clear, that committed values are kept). The full effect on each container is the contract of the container's own operation, which they call.
- Codec.TruncateToInt: values outside the int32 range, whose C++ double-to-int32 conversion is undefined, are not modelled.

## Findings

| source | as written | input that shows it | evidently intended | confidence | as-written member | corrected member |
|---|---|---|---|---|---|---|
| Plugins/EnhancedSettings/Source/EnhancedSettings/Private/EnhancedSettingsContainer.cpp:1001-1006 | each colour channel read from the file is multiplied by 255 and clamped to [0, 255], though the saver (lines 892-893) writes the channel as a 0-255 byte | the colour (128, 0, 0, 255) is saved as "128,0,0,255" and read back as (255, 0, 0, 255); every non-zero channel becomes 255 | read each channel back as the byte it was written as, so that every saved colour is restored | not executed | Codec.ColorRoundTripAsWrittenFails | Codec.ColorRoundTrip |
