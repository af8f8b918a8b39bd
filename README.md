# Dog breed aesthetics: a verified model of the catalog and its three formatters

The system is a small knowledge base of 21 dog breeds. Each catalog key
(`"greyhound"`) maps to a record with a fixed schema: display name, AKC
group, four detail sub-mappings (proportions, coat, movement, temperament),
a color palette, a scale and a one-line visual essence. Three tools are
built on top of it:

- `list_available_breeds` lists the breeds by group.
- `get_breed_characteristics` renders one breed's report, or a not-found
  text that lists every breed.
- `enhance_with_breed_aesthetic` packages a breed's data with a caller's
  image prompt and a filled-in instruction template. For an unknown breed
  it returns a structured error.

The Dafny project has four modules:

- `Wrappers` (`wrappers.dfy`): `Option`, the result of a dictionary `.get`.
- `Text` (`text.dfy`): the string operations the code relies on. These are
  ASCII `lower`, `strip` (over Python's ASCII whitespace set), `replace` on
  one character, `title`, `join`, `sorted` over strings (an insertion sort
  proved sorted and a permutation), and a substring relation `Contains`.
- `BreedData` (`breed_data.dfy`): `breed_data.py`.
  - The catalog is `BreedTable`, a sequence of key/record entries in the
    dictionary literal's insertion order.
  - `BreedDatabase`, the map, is derived from it.
  - Then the lookup, the sorted names and the name normalisation.
- `Server` (`server.py`): the three tool bodies.
  - The two text-building tools are methods with loops. Each is proved equal
    to a specification function: `Listing` for the listing and `BreedReport`
    for the report.
  - Lemmas state what those texts contain and in what order.
  - `enhance_with_breed_aesthetic` is a function returning the `Enhancement`
    datatype. Its constructors are the success mapping and the error mapping.

The listing, the report and the enhancement are specified with these
functions:

- `ListingLines` / `Listing`: the header line, then a heading and the sorted
  bullets for each group of `GroupOrder` that has members, then the usage
  line, all joined with `"\n"`.
- `ReportLines` / `BreedReport`: the report's 26 lines in fixed order, or
  `NotFoundReport` when the normalized name is not a key.
- `SynthesisInstruction`: the instruction template with the breed's name,
  the prompt, the level and the essence filled in.

## Model

| member | source | states |
|---|---|---|
| BreedData.GetBreedData | dog_breed_aesthetics_mcp/breed_data.py:627-629 | the lookup succeeds exactly when the key is one of the table's keys, and then yields the record stored under it |
| BreedData.GetBreedDataExamples | tests/test_breed_data.py:76-86 | "greyhound" finds the Hound record named "Greyhound"; "invalid_breed" finds nothing |
| BreedData.GreyhoundLookup | tests/test_breed_data.py:76-82 | the key "greyhound" yields the Greyhound record itself |
| BreedData.GreatDaneLookup | dog_breed_aesthetics_mcp/breed_data.py:212-240 | the key "great_dane" yields the Great Dane record |
| BreedData.InvalidBreedNameLookup | dog_breed_aesthetics_mcp/breed_data.py:627-629 | "invalid_breed_name" is not a key, so the lookup gives None |
| BreedData.TableToMapKeys | dog_breed_aesthetics_mcp/breed_data.py:5-621 | the dictionary built from the literal holds exactly the literal's keys |
| BreedData.TableToMapAt | dog_breed_aesthetics_mcp/breed_data.py:5-621 | with distinct keys, every entry's record is what the dictionary holds under its key |
| BreedData.TableToMapSize | dog_breed_aesthetics_mcp/breed_data.py:5-621 | with distinct keys, the dictionary has one entry per literal entry |
| BreedData.TableKeysDistinct | dog_breed_aesthetics_mcp/breed_data.py:5-621 | no key occurs twice in the literal |
| BreedData.DatabaseSize | tests/test_breed_data.py:32-34 | the catalog has exactly 21 records |
| BreedData.TableLayout | dog_breed_aesthetics_mcp/breed_data.py:5-621 | the records come in seven blocks of three, one block per group |
| BreedData.GroupIsBlock | tests/test_breed_data.py:37-47 | the members of the k-th group are exactly the k-th block of three |
| BreedData.CatalogGroups | tests/test_breed_data.py:37-44 | the groups that occur are exactly the seven AKC labels |
| BreedData.ThreePerGroup | tests/test_breed_data.py:45-47 | every group that occurs has exactly three members |
| BreedData.SchemaKeys | dog_breed_aesthetics_mcp/breed_data.py:10-30 | each sub-mapping yields its keys in the declared order |
| BreedData.SchemaKeySets | tests/test_breed_data.py:114-155 | the sub-mappings have exactly the key sets {body_ratio, build, head, legs}, {texture, length, qualities}, {gait, energy, qualities} and {mood, presence, character} |
| BreedData.CatalogNonEmptyFields | tests/test_breed_data.py:98-111 | every record has a non-empty palette and a non-empty visual essence |
| BreedData.CatalogWellFormed | tests/test_breed_data.py:98-155 | every record meets the whole schema check: key sets, palette and essence |
| BreedData.GetBreedNames | dog_breed_aesthetics_mcp/breed_data.py:623-625 | the names are sorted and are a permutation of the records' display names |
| BreedData.GetBreedNamesFacts | tests/test_breed_data.py:89-95 | there are 21 names, including "Greyhound" and "Border Collie" |
| BreedData.CleanToken | dog_breed_aesthetics_mcp/breed_data.py:634 | the lower-cased, stripped, underscored token has no space, hyphen or upper-case letter, does not start or end with whitespace, and is no longer than the input |
| BreedData.CleanTokenIdempotent | dog_breed_aesthetics_mcp/breed_data.py:634 | cleaning a cleaned token changes nothing |
| BreedData.CleanTokenFixesClean | dog_breed_aesthetics_mcp/breed_data.py:634 | a clean token without surrounding whitespace is its own cleaned form |
| BreedData.NormalizeBreedName | dog_breed_aesthetics_mcp/breed_data.py:631-643 | the result differs from the cleaned token exactly when that token is an alias source, and is then the alias target; the result is always clean, so the function is total |
| BreedData.AliasTable | dog_breed_aesthetics_mcp/breed_data.py:637-641 | exactly three aliases: the two corgi spellings to "corgi" and "standard_poodle" to "poodle"; no target is itself a source |
| BreedData.AliasTargetsClean | dog_breed_aesthetics_mcp/breed_data.py:637-641 | every alias target is a clean token |
| BreedData.NormalizeIdempotent | dog_breed_aesthetics_mcp/breed_data.py:634-643 | normalising twice is normalising once |
| BreedData.NormalizeExamples | tests/test_breed_data.py:50-63 | the four spellings of Golden Retriever give "golden_retriever", and "Greyhound" gives "greyhound" |
| BreedData.NormalizeAliasExamples | tests/test_breed_data.py:66-73 | "Pembroke Welsh Corgi" and "Welsh Corgi" give "corgi"; "Standard Poodle" gives "poodle" |
| BreedData.NormalizeGreyhoundVariants | tests/test_server_tools.py:184-193 | "Greyhound", "greyhound" and "GREYHOUND" all give "greyhound" |
| BreedData.NormalizeOtherExamples | tests/test_server_tools.py:244-255 | "Invalid Breed Name", "Invalid Breed" and "Great Dane" give "invalid_breed_name", "invalid_breed" and "great_dane" |
| Text.Lower | dog_breed_aesthetics_mcp/breed_data.py:634 | lower-casing keeps the length, keeps every character that is not an upper-case letter, and turns each upper-case letter into its lower-case counterpart |
| Text.Strip | dog_breed_aesthetics_mcp/breed_data.py:634 | the stripped string is a contiguous part of the input with no whitespace at either end, and it drops only whitespace |
| Text.SortStrings | dog_breed_aesthetics_mcp/breed_data.py:625 | the result is sorted and a permutation of the input |
| Text.SortedUnique | dog_breed_aesthetics_mcp/breed_data.py:625 | two sorted permutations of the same strings are equal, so the sorted order is unique |
| Text.SortStringsPermutationInvariant | dog_breed_aesthetics_mcp/server.py:50 | sorting depends only on the multiset of names, not on their order in the group |
| Server.GroupBreeds | dog_breed_aesthetics_mcp/server.py:36-41 | the loop builds, for every group that occurs, the list of its members' names in catalog order, and no other keys |
| Server.GroupsNames | dog_breed_aesthetics_mcp/server.py:39-41 | a group is a key of the grouping exactly when its member list is non-empty |
| Server.AppendBullets | dog_breed_aesthetics_mcp/server.py:50-51 | appends one "  • name" line per name, in order |
| Server.AppendSection | dog_breed_aesthetics_mcp/server.py:48-51 | appends a present group's heading and its sorted bullets, and nothing for an absent group |
| Server.RenderSections | dog_breed_aesthetics_mcp/server.py:47-51 | appends the sections of all groups in the given order |
| Server.RenderListing | dog_breed_aesthetics_mcp/server.py:43-53 | the lines are the header, the sections in group order and the usage line |
| Server.ListAvailableBreeds | dog_breed_aesthetics_mcp/server.py:36-55 | the tool's text is the specified listing joined with newlines |
| Server.ListingShape | dog_breed_aesthetics_mcp/server.py:43-53 | 30 lines: the header, then for each of the seven groups in order its heading and its three sorted bullets, then the usage line |
| Server.ListingHasAllGroups | tests/test_server_tools.py:147-166 | the listing says "Available Dog Breeds" and has every "<group> Group:" heading |
| Server.ListingHasEveryBreed | tests/test_server_tools.py:147-159 | the listing has a bullet line for every record of the catalog |
| Server.LayoutListing | dog_breed_aesthetics_mcp/server.py:45-53 | for any catalog laid out in blocks of three per group, the position of every heading and bullet line |
| Server.AppendItems | dog_breed_aesthetics_mcp/server.py:88-89 | appends one "  • Label: value" line per item, in the sub-mapping's order |
| Server.RenderReport | dog_breed_aesthetics_mcp/server.py:77-104 | the report lines are the head, the four sections under their headings and the palette line |
| Server.GetBreedCharacteristics | dog_breed_aesthetics_mcp/server.py:70-106 | the tool's text is the specified report: the found record's report, or the not-found text |
| Server.ReportShape | dog_breed_aesthetics_mcp/server.py:77-104 | the report's 26 lines: name, group, scale, visual essence, then the four sections at fixed positions with their keys in declared order, and the palette joined with ", " last |
| Server.ReportItemLines | dog_breed_aesthetics_mcp/server.py:88-101 | each key is shown with its underscores replaced by spaces and title-cased ("Body Ratio"), followed by its value |
| Server.ReportMentions | tests/test_server_tools.py:169-181 | the report names the breed and "Group: <group>" and has every section heading |
| Server.ReportOfKnown | dog_breed_aesthetics_mcp/server.py:70-71 | a name that normalizes to a key gets that record's report |
| Server.ReportDependsOnKey | dog_breed_aesthetics_mcp/server.py:70-71 | on the success path, two names that normalize alike get the same report |
| Server.ReportOfUnknown | dog_breed_aesthetics_mcp/server.py:73-75 | a name that normalizes to no key gets the not-found text |
| Server.NotFoundTextFacts | dog_breed_aesthetics_mcp/server.py:73-75 | the not-found text quotes the input and says "not found" (also lower-cased) and "Available breeds:", with a bullet for every listed name |
| Server.NotFoundReportFacts | dog_breed_aesthetics_mcp/server.py:74-75 | the not-found text has a bullet for the display name of every record |
| Server.GreyhoundReports | tests/test_server_tools.py:184-193 | "Greyhound", "greyhound" and "GREYHOUND" get the same report, that of the Greyhound record |
| Server.GreyhoundReportMentions | tests/test_server_tools.py:169-175 | the Greyhound report contains "Greyhound" and "Group: Hound" |
| Server.UnknownBreedReport | tests/test_server_tools.py:196-202 | an unknown name gets the not-found text, which says "not found" and "Available breeds:" |
| Server.EnhanceWithBreedAesthetic | dog_breed_aesthetics_mcp/server.py:144-201 | the error mapping exactly when the lookup fails, with the quoted input, all names and the fixed suggestion; otherwise the echoed prompt and level, the looked-up record and the filled-in instruction |
| Server.InstructionMentions | dog_breed_aesthetics_mcp/server.py:170-198 | the instruction contains the name, `Base prompt: "<prompt>"`, `Emphasis level: <level>` (so "emphasis level" once lower-cased) and the essence, and is over 100 characters long |
| Server.EnhancementCarriesRecord | dog_breed_aesthetics_mcp/server.py:156-169 | reassembling the result's fields gives back exactly the record looked up |
| Server.EnhancementDependsOnKey | dog_breed_aesthetics_mcp/server.py:144-145 | on the success path, two names that normalize alike get the same enhancement |
| Server.EnhancementEchoesEmphasis | tests/test_server_tools.py:228-241 | any level is echoed and appears in the instruction, and so does the prompt |
| Server.DefaultEmphasisIsModerate | dog_breed_aesthetics_mcp/server.py:113 | when no level is given, the echoed level is "moderate" |
| Server.EnhancementErrorFacts | dog_breed_aesthetics_mcp/server.py:147-152 | the error names the input as given and says "not found", also once lower-cased |
| Server.GreyhoundEnhancement | tests/test_server_tools.py:205-225 | Greyhound with a prompt and "moderate" gives name "Greyhound", group "Hound" and the prompt and level echoed |
| Server.InvalidBreedEnhancement | tests/test_server_tools.py:244-255 | "Invalid Breed" gives the error mapping, with "not found", every display name and the suggestion |
| Server.GreatDaneInstruction | tests/test_server_tools.py:283-297 | the Great Dane instruction contains "Great Dane", "city skyline" and "moderate", says "emphasis level" once lower-cased, and is over 100 characters long |

## Left out

- Transport is not modelled: the FastMCP server object, the `@mcp.tool()` registration, `main`, `mcp.run()` and `get_server`. They are plumbing around a library that is not part of this model.
- Case and whitespace handling is ASCII only. `lower`, `strip` and `title` act on ASCII, and the whitespace set is Python's ASCII whitespace (tab, line feed, vertical tab, form feed, carriage return, the four separators 28-31 and space). Unicode case mapping and Unicode whitespace are not modelled; every catalog string is ASCII.
- Text.Title: its contract states only the length. The report's labels come from the closed set of schema keys, and each label is proved separately (`Server.ReportItemLines`).
- BreedData.GetBreedData, Server.EnhanceWithBreedAesthetic: records are values here. The source returns the catalog's own dictionary, and its enhancement result holds that record's sub-dictionaries and palette list, so a caller who mutates a result changes the catalog for every later call. That sharing (aliasing) is not modelled.
- The emphasis level is an arbitrary string. The framework may or may not check it against `Literal["subtle", "moderate", "strong"]`; the function body passes it through unchecked.
- What consumes `synthesis_instruction` (a language model) is not modelled; only the instruction's text is.
- Dictionary iteration order becomes the order of `BreedTable`, which is the literal's insertion order. The sub-mappings' `.items()` order is their declared key order.
- `if not breed_data` is modelled as a test for `None`. No record is an empty dictionary, so no record is falsy.
- The docstring's breed list (`dog_breed_aesthetics_mcp/server.py:27-34`) is not asserted. It says "Poodle" and "Corgi", but the display names are "Poodle (Standard)" and "Pembroke Welsh Corgi".
- BreedData.NormalizeBreedName: no lemma claims that every display name normalizes back to its key. "Poodle (Standard)" gives "poodle_(standard)", which is not a key.
- `tests/test_server_tools.py:18-143` repeats the three tool bodies verbatim. It is read as test evidence, not modelled a second time.
