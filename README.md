# TheDotFactory output configurations, in Dafny

This project models the output-configuration core of TheDotFactory, a tool that turns fonts and bitmaps into C source arrays. The model covers three things.

- **One preset** (`OutputConfig`, `output_configuration.dfy`). It holds every option that controls code generation: padding removal, line wrap, comment and indent style, rotation and flips, bit layout, byte order, byte format with its literal prefix, descriptor formats, lookup tables, space-glyph synthesis and the five variable-name templates. It also has the two display-string tables for rotations and descriptor formats, the default value of every field, and the member-wise `Clone`. Each C# enum is a datatype. The preset is a datatype value. The three `int` options use a 32-bit `Int32` newtype.
- **The preset store** (`ConfigManager`, `output_configuration_manager.dfy`). The class `OutputConfigurationManager` keeps the ordered preset list as a `seq` field and the working configuration as a second field. Its methods change the list in place: append, bounds-checked delete, replace on a successful load. It also has the count and indexed read, the payload of a save, and the name projection that fills the selection list. First the list operations are defined and proved as functions on sequences (`RemovedAt`, `AfterLoad`, `DisplayNames`). Then each method is proved to agree with its function.
- **String repetition** (`StringExtension`, `string_extension.dfy`). `Repeat` is the accumulating loop. It is proved equal to the specification `Repeated`. Lemmas about `Repeated` give its length, its periodicity, the empty and single-copy cases, and the concatenation law.

Two behaviours of the C# code carry over as they are:
- `configurationGetAtIndex` does not check bounds (TheDotFactory/OutputConfigurationManager.cs:203), so `ConfigurationGetAtIndex` requires an index in range.
- `configurationDelete` checks bounds and silently ignores an out-of-range index (TheDotFactory/OutputConfigurationManager.cs:185), so `ConfigurationDelete` accepts every index.

## Model

| member | source | states |
|---|---|---|
| OutputConfig.RotationFromOrdinal | TheDotFactory/OutputConfigurationManager.cs:72-87 | every index of the rotation display table belongs to the rotation whose underlying value it is |
| OutputConfig.DescriptorFormatFromOrdinal | TheDotFactory/OutputConfigurationManager.cs:90-103 | every index of the descriptor display table belongs to the descriptor format whose underlying value it is |
| OutputConfig.RotationTableOnePerVariant | TheDotFactory/OutputConfigurationManager.cs:72-87 | the rotation table has exactly 4 entries. Each rotation's underlying value indexes it and maps back to that rotation. Different rotations show different strings |
| OutputConfig.DescriptorTableOnePerVariant | TheDotFactory/OutputConfigurationManager.cs:90-103 | the descriptor table has exactly 3 entries. Each format's underlying value indexes it and maps back to that format. Different formats show different strings |
| OutputConfig.Default | TheDotFactory/OutputConfigurationManager.cs:113-165 | a new configuration has hex bytes with the matching "0x" prefix, horizontal padding Fixed, vertical padding Tighest, rotation zero, no flips and an empty display name |
| OutputConfig.ByteFormatNotSynchronised | TheDotFactory/OutputConfigurationManager.cs:108-141 | setting the byte format does not touch the prefix, so a default configuration switched to binary keeps "0x" and is no longer consistent |
| OutputConfig.Clone | TheDotFactory/OutputConfigurationManager.cs:106 | the copy equals the original in every field |
| ConfigManager.RemovedAt | TheDotFactory/OutputConfigurationManager.cs:182-190 | for an in-range index the list is one shorter, earlier entries are unchanged and later ones move down by one. An out-of-range index leaves the list unchanged |
| ConfigManager.RemovedAtMultiset | TheDotFactory/OutputConfigurationManager.cs:185-188 | an in-range delete removes exactly the entry at that index and no other entry |
| ConfigManager.RemoveUndoesAdd | TheDotFactory/OutputConfigurationManager.cs:172-190 | deleting at the index that an add returned restores the list from before the add |
| ConfigManager.GetAfterAdd | TheDotFactory/OutputConfigurationManager.cs:172-204 | after an add, the count has grown by one, the get at the old count returns the added preset, and every earlier get is unchanged |
| ConfigManager.AfterLoad | TheDotFactory/OutputConfigurationManager.cs:221-241 | after a successful read the list is exactly the list read. After an I/O error it is the old list |
| ConfigManager.LoadAfterSave | TheDotFactory/OutputConfigurationManager.cs:207-241 | saving one store and loading the result into another gives the second store exactly the first one's presets, in order. The first store is unchanged and the second keeps its working configuration |
| ConfigManager.DisplayNames | TheDotFactory/OutputConfigurationManager.cs:244-255 | one name per preset, in list order: the k-th name is the k-th preset's display name |
| ConfigManager.DisplayNamesFollowList | TheDotFactory/OutputConfigurationManager.cs:172-255 | the names stay aligned with the list by position: an add appends its name, and a delete at i removes the name at i |
| ConfigManager.OutputConfigurationManager.constructor | TheDotFactory/OutputConfigurationManager.cs:257-262 | a new store has no presets and a default working configuration |
| ConfigManager.OutputConfigurationManager.ConfigurationAdd | TheDotFactory/OutputConfigurationManager.cs:172-179 | appends the preset at the end. The count grows by one and the returned index is count - 1. The get at that index returns the added preset, and every earlier get is unchanged. The working configuration is untouched |
| ConfigManager.OutputConfigurationManager.ConfigurationDelete | TheDotFactory/OutputConfigurationManager.cs:182-190 | the new list is `RemovedAt` of the old one. An in-range delete shrinks the count by one. An out-of-range index changes nothing and signals nothing |
| ConfigManager.OutputConfigurationManager.ConfigurationCountGet | TheDotFactory/OutputConfigurationManager.cs:193-197 | the count is the number of presets in the list |
| ConfigManager.OutputConfigurationManager.ConfigurationGetAtIndex | TheDotFactory/OutputConfigurationManager.cs:200-204 | for an index in range, returns the preset stored at that position |
| ConfigManager.OutputConfigurationManager.SaveToFile | TheDotFactory/OutputConfigurationManager.cs:207-218 | the file receives the whole preset list in order and not the working configuration. Nothing in the store changes |
| ConfigManager.OutputConfigurationManager.LoadFromFile | TheDotFactory/OutputConfigurationManager.cs:221-241 | the list becomes the list read on success. It stays as it was on an I/O error, and nothing is signalled. The working configuration is untouched |
| ConfigManager.OutputConfigurationManager.ComboboxPopulate | TheDotFactory/OutputConfigurationManager.cs:244-255 | the loop yields exactly `DisplayNames` of the list: one name per preset, in list order |
| StringExtension.Repeat | TheDotFactory/StringExtension.cs:16-26 | the loop's result is `Repeated(input, count)`, `count` copies of `input`, and for `count >= 0` its length is `|input| * count` |
| StringExtension.Repeated | TheDotFactory/StringExtension.cs:16-26 | `count` copies of `input`. The result is empty exactly when the count is zero or negative or the input is empty |
| StringExtension.RepeatedLength | TheDotFactory/StringExtension.cs:16-25 | for `count >= 0` the length is `|input| * count` |
| StringExtension.RepeatedOnce | TheDotFactory/StringExtension.cs:18-25 | one copy is the input itself |
| StringExtension.RepeatedAdd | TheDotFactory/StringExtension.cs:20-23 | `a + b` copies are `a` copies followed by `b` copies |
| StringExtension.RepeatedAt | TheDotFactory/StringExtension.cs:20-23 | for every position `i < |input| * count`, the character there is `input[i % |input|]` |

## Left out
- The XML serialization, the file streams and the file name in `saveToFile` and `loadFromFile` are not modelled. A save is modelled as the list it writes. A load is modelled as a `ReadOutcome` parameter: either the deserialized list, or `IOException`. The file format and its round trip through XML are not modelled.
- Exceptions other than `IOException` are not modelled. Deserialization errors escape `loadFromFile` in the code, and a save's I/O errors propagate to the caller. An `IOException` thrown by `Close` after a successful deserialization, which would leave the list already replaced, is not modelled either.
- The `ComboBox` itself is not modelled. `ComboboxPopulate` returns the item list that the combobox is cleared and filled with.
- The `ref` parameter of `configurationAdd` and object identity after `MemberwiseClone` are not modelled. Configurations are values, so the store never aliases a caller's preset.
- List counts and indices are unbounded integers. The 2^31 element limit of a .NET `List<T>` is not modelled.
- The text of the variable-name templates and display strings is carried as constants. Nothing in this core formats or parses them.
- `SpaceGeneration` is declared as a datatype, but no option field uses it.
- Persisting enums by their names and releasing the reader and writer on every exit path are not modelled. Both belong to the XML and stream handling above.
- LoadAfterSave: assumes that deserializing a file gives back exactly the list serialized into it. The XML serializer is not modelled, so this is taken as given and not proved.
- Repeat: a null `input` is not modelled. The C# extension method can be called on null, and it then returns "" because `string.Concat` treats null as empty. Dafny strings cannot be null.
- Repeat: a result longer than a .NET string can hold throws `OutOfMemoryException` in C#. The model always returns the string.
- ComboboxPopulate: a null `displayName` is not modelled. One can come from a nil element in a loaded file, and `Items.Add` throws on it. Dafny strings cannot be null.
