# Editor Textures Database — a verified model

This project models the in-memory registry behind Doozy's `EditorDataTextureDatabase`,
the Unity Editor singleton that indexes every texture-group asset of a project. The
registry is a list of texture-group records, `Database`. It supports four operations:

- refresh one record: validate it, append it if it is not already listed by reference,
  then run the helper-class generator or save/refresh the asset store as the flags say;
- rebuild: empty the list, refresh every asset the store enumerates, then run the
  generator once;
- prune: drop null entries, keeping the rest in order;
- look up: return the first record whose stored category and name equal the cleaned
  query keys, or null.

Layout:

- `texture_groups.dfy`, module `TextureGroups`. The texture-group record is a class, so
  reference identity matters. `Outcome` is what the record's own validation and folder
  loading leave behind: the record survives or it deleted itself. `Cleaner` stands for
  the two string-cleaning extension methods.
- `database_spec.dfy`, module `DatabaseSpec`. Holds the value-level definitions: the
  pruned list (`NonNull`), the list after one refresh (`RefreshedEntries`), the calls one
  refresh makes into collaborators (`RefreshEvents`), a rebuild (`RebuiltEntries`) and the
  lookup (`FirstMatch`). The lemmas beside them state what those definitions mean.
- `texture_database.dfy`, module `TextureDatabase`. Holds the class
  `EditorDataTextureDatabase`. Its field `database` is a sequence of nullable record
  references. Its ghost field `trace` logs every call into the generator and the asset
  store. Each method is proved to update both fields as the definitions say. The rebuild
  and the lookup are loops with invariants, as in the source.
- `scenario.dfy`, module `DatabaseScenario`. A client method: a rebuild discovers
  `Icons/Play` and `Icons/Stop` in order. `Icons`/`Play` finds the Play record. `icons`/`play`
  finds nothing, because no case folding is applied.

Inputs that come from outside the registry are method parameters:

- the result of `Validate` followed by `LoadTexturesFromFolder` is an `Outcome`;
- the asset store's enumeration is a `seq<Found>`, each pairing a loaded record with its
  outcome;
- the string cleaners are a `Cleaner`.

Two details of the code that the model follows:

- The code checks for self-deletion only once, after loading (line 66), not after
  validation as well. A record already in the list takes the "found" branch whatever
  its validation did.
- The lookup cleans only the query keys. The stored keys are compared as stored, because
  the lines that would have cleaned them (139, 141) are commented out.

## Model

| member | source | states |
|---|---|---|
| TextureDatabase.EditorDataTextureDatabase.constructor | Assets/Tools/Doozy/Editor/EditorUI/ScriptableObjects/Textures/EditorDataTextureDatabase.cs:25-26 | the list starts empty and nothing has been triggered |
| TextureDatabase.EditorDataTextureDatabase.RemoveNullEntries | Assets/Tools/Doozy/Editor/EditorUI/ScriptableObjects/Textures/EditorDataTextureDatabase.cs:28-29 | the list becomes exactly its non-null subsequence. Afterwards it holds no null, it stays duplicate-free if it was, and nothing is triggered |
| TextureDatabase.EditorDataTextureDatabase.RefreshDatabaseItem | Assets/Tools/Doozy/Editor/EditorUI/ScriptableObjects/Textures/EditorDataTextureDatabase.cs:31-107 | the new list is `RefreshedEntries` of the old one. The trace grows by exactly `RefreshEvents` for the old list, the outcome and the three flags. The flags default to false |
| TextureDatabase.EditorDataTextureDatabase.RefreshDatabase | Assets/Tools/Doozy/Editor/EditorUI/ScriptableObjects/Textures/EditorDataTextureDatabase.cs:109-126 | the list becomes `RebuiltEntries` of the enumeration, which has no null and no duplicate. The per-item refreshes trigger nothing, and the only event added is one generator run with the caller's flags (save by default) |
| TextureDatabase.EditorDataTextureDatabase.GenerateDatabaseHelperClass | Assets/Tools/Doozy/Editor/EditorUI/ScriptableObjects/Textures/EditorDataTextureDatabase.cs:128-129 | appends one generator run carrying both flags, and changes nothing else |
| TextureDatabase.EditorDataTextureDatabase.GetTextureGroup | Assets/Tools/Doozy/Editor/EditorUI/ScriptableObjects/Textures/EditorDataTextureDatabase.cs:131-150 | prunes the list first. Returns `FirstMatch` of the pruned list for the cleaned query keys, or null. It never returns a null entry, a non-null result was in the list, and nothing is triggered |
| TextureDatabase.EditorDataTextureDatabase.SaveAndRefreshAssetDatabase | Assets/Tools/Doozy/Editor/EditorUI/ScriptableObjects/Textures/EditorDataTextureDatabase.cs:152-159 | saves only when `save` and refreshes only when `refresh`, in that order |
| DatabaseSpec.NonNull | Assets/Tools/Doozy/Editor/EditorUI/ScriptableObjects/Textures/EditorDataTextureDatabase.cs:28-29 | the pruned list is no longer than the original. It holds only records from the original, and it holds every non-null entry of it |
| DatabaseSpec.NonNullAppend | Assets/Tools/Doozy/Editor/EditorUI/ScriptableObjects/Textures/EditorDataTextureDatabase.cs:29 | pruning distributes over concatenation, so it never reorders |
| DatabaseSpec.NonNullOfNullFree | Assets/Tools/Doozy/Editor/EditorUI/ScriptableObjects/Textures/EditorDataTextureDatabase.cs:29 | a list without nulls is left exactly as it is |
| DatabaseSpec.NonNullPosition | Assets/Tools/Doozy/Editor/EditorUI/ScriptableObjects/Textures/EditorDataTextureDatabase.cs:29 | a non-null entry at index k is found in the pruned list at index k minus the number of nulls before it |
| DatabaseSpec.NonNullOrder | Assets/Tools/Doozy/Editor/EditorUI/ScriptableObjects/Textures/EditorDataTextureDatabase.cs:29 | of two non-null entries, the earlier one stays earlier after pruning |
| DatabaseSpec.NonNullNoDuplicates | Assets/Tools/Doozy/Editor/EditorUI/ScriptableObjects/Textures/EditorDataTextureDatabase.cs:28-29 | pruning a duplicate-free list leaves it duplicate-free |
| DatabaseSpec.RefreshedEntries | Assets/Tools/Doozy/Editor/EditorUI/ScriptableObjects/Textures/EditorDataTextureDatabase.cs:41-83 | a record already present by reference, or one that deleted itself, leaves the list unchanged. The old list is always a prefix of the new one. A new surviving record takes the one added slot, at the end. The record ends up listed iff it was listed or survived |
| DatabaseSpec.RefreshedOnce | Assets/Tools/Doozy/Editor/EditorUI/ScriptableObjects/Textures/EditorDataTextureDatabase.cs:63-83 | a surviving record that was not listed occurs exactly once afterwards |
| DatabaseSpec.RefreshedNoDuplicates | Assets/Tools/Doozy/Editor/EditorUI/ScriptableObjects/Textures/EditorDataTextureDatabase.cs:41-83 | a duplicate-free list stays duplicate-free, because membership is checked before the append |
| DatabaseSpec.RefreshTwice | Assets/Tools/Doozy/Editor/EditorUI/ScriptableObjects/Textures/EditorDataTextureDatabase.cs:41-59 | refreshing a record that is already listed appends nothing, whatever its outcome |
| DatabaseSpec.SaveAndRefreshEvents | Assets/Tools/Doozy/Editor/EditorUI/ScriptableObjects/Textures/EditorDataTextureDatabase.cs:152-159 | a save happens iff `save`, a refresh iff `refresh`, and the generator never runs |
| DatabaseSpec.RefreshEvents | Assets/Tools/Doozy/Editor/EditorUI/ScriptableObjects/Textures/EditorDataTextureDatabase.cs:41-105 | the generator runs at most once, only when requested, and it gets the caller's flags. A present record with no generator requested triggers nothing. A self-deleted new record triggers nothing. The direct save (or refresh) happens iff the record is newly added, the generator is not requested and the save (or refresh) flag is set. Default flags trigger nothing |
| DatabaseSpec.RebuiltEntries | Assets/Tools/Doozy/Editor/EditorUI/ScriptableObjects/Textures/EditorDataTextureDatabase.cs:112-119 | the list a rebuild leaves: start empty and refresh every enumerated record in order with the default flags. It is never longer than the enumeration |
| DatabaseSpec.Loaded | Assets/Tools/Doozy/Editor/EditorUI/ScriptableObjects/Textures/EditorDataTextureDatabase.cs:63-71 | what loading leaves of each enumerated record: null exactly where the record deleted itself, the record itself elsewhere |
| DatabaseSpec.RebuiltWellFormed | Assets/Tools/Doozy/Editor/EditorUI/ScriptableObjects/Textures/EditorDataTextureDatabase.cs:111-119 | a rebuilt list holds no null and no record twice |
| DatabaseSpec.RebuiltMembers | Assets/Tools/Doozy/Editor/EditorUI/ScriptableObjects/Textures/EditorDataTextureDatabase.cs:118-119 | a record is in the rebuilt list iff the enumeration holds it with a surviving outcome |
| DatabaseSpec.RebuiltPrefix | Assets/Tools/Doozy/Editor/EditorUI/ScriptableObjects/Textures/EditorDataTextureDatabase.cs:118-119 | rebuilding a prefix of the enumeration gives a prefix of the rebuilt list, so records discovered earlier come first |
| DatabaseSpec.RebuiltDistinct | Assets/Tools/Doozy/Editor/EditorUI/ScriptableObjects/Textures/EditorDataTextureDatabase.cs:112-119 | when the enumerated records are distinct, the rebuilt list is exactly the surviving records in enumeration order. Its length therefore equals the number of survivors |
| DatabaseScenario.RebuildTwo | Assets/Tools/Doozy/Editor/EditorUI/ScriptableObjects/Textures/EditorDataTextureDatabase.cs:112-119 | a rebuild that discovers two distinct surviving records lists exactly those two, in discovery order |
| TextureGroups.Cleaner.Clean | Assets/Tools/Doozy/Editor/EditorUI/ScriptableObjects/Textures/EditorDataTextureDatabase.cs:135-136 | a query key is cleaned by removing whitespace first, then special characters |
| DatabaseSpec.Matches | Assets/Tools/Doozy/Editor/EditorUI/ScriptableObjects/Textures/EditorDataTextureDatabase.cs:140-142 | a record matches when its stored category equals the cleaned category and its stored name equals the cleaned name, both exactly |
| DatabaseSpec.FirstMatch | Assets/Tools/Doozy/Editor/EditorUI/ScriptableObjects/Textures/EditorDataTextureDatabase.cs:138-149 | null iff no record's stored category and name equal the keys. Otherwise the result is a record at some index that matches, with no record before that index matching |
| DatabaseSpec.FirstMatchAt | Assets/Tools/Doozy/Editor/EditorUI/ScriptableObjects/Textures/EditorDataTextureDatabase.cs:138-145 | a record that matches, with no match before it, is the lookup's result |

## Left out

- Progress-bar calls, `EditorUtility.SetDirty`, `AssetDatabase.GetAssetPath` and the log messages have no effect on the list or on the generator and save calls, so they are not modelled.
- Asset-store I/O is replaced by its results. `FindAssets`, `GUIDToAssetPath` and `LoadAssetAtPath` become the `found` parameter of `RefreshDatabase`. `SaveAssets`, `Refresh` and the generator's `Run` become events in the ghost `trace`.
- `EditorDataTextureGroup.Validate` and `LoadTexturesFromFolder` are not part of this model. Their combined effect is the `Outcome` parameter. Whatever else they change in the record is not captured.
- `RemoveWhitespaces` and `RemoveAllSpecialCharacters` are not part of this model. They are arbitrary total string functions inside `Cleaner`, so nothing is proved about which characters they strip.
- Unity's overloaded `== null` for destroyed objects is not modelled. A self-deleted record is only ever seen through its `Outcome`. A null entry in `database` stands for a record that was deleted outside the database's own operations; none of the modelled operations writes one.
- RefreshDatabaseItem: does not model a record that is already listed and trashes itself in `Validate` (line 38) before taking the found branch (line 41). In the editor that entry then compares equal to null, so the next prune (line 29) drops it and `GetTextureGroup` can no longer return it. The model keeps the entry as a live record, because the present branch ignores `Outcome`.
- String semantics are simplified. Dafny strings cannot be null, so stored and query keys are assumed non-null. The `NullReferenceException` that `Equals` (lines 140, 142) raises for a record with a null key is not modelled; because `Where` is lazy, it would only be raised when the scan reaches that record. A null query key passed to the cleaners (lines 135-136) is not modelled either. Keys are compared as sequences of characters, not as UTF-16 code units.
- A null item passed to `RefreshDatabaseItem` throws at line 34. `LoadAssetAtPath` can produce one in the rebuild loop (line 119). The model excludes this by typing items as non-null references instead of modelling the exception.
- The singleton machinery is not modelled. The source reads `instance.Database` inside instance methods; the model assumes the object is that instance. The serialized name and description fields are left out too.
- `textures` on the record is left out. It only feeds a log message.
