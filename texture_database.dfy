/** The Editor Textures Database: the editor-wide registry of texture-group
    records, refreshed one record at a time or rebuilt from every asset the
    store enumerates, and searched by category and name. */
module TextureDatabase {
  import opened TextureGroups
  import opened DatabaseSpec

  /** The singleton database object. `database` is its list of records, which
      may hold nulls for records deleted behind its back; `trace` records the
      calls it makes into the helper-class generator and the asset store. */
  class EditorDataTextureDatabase {
    var database: seq<TextureGroup?>
    ghost var trace: seq<Event>

    constructor ()
      ensures database == [] && trace == []
    {
      database := [];
      trace := [];
    }

    /** Drops every null entry and keeps the others in order. */
    method RemoveNullEntries()
      modifies this
      ensures database == NonNull(old(database))
      ensures null !in database
      ensures NoDuplicates(old(database)) ==> NoDuplicates(database)
      ensures trace == old(trace)
    {
      if NoDuplicates(database) {
        NonNullNoDuplicates(database);
      }
      database := NonNull(database);
    }

    /** Validates `item` and, when it is not yet in the list by reference and
        survived validation and loading (`outcome`), appends it. Then runs the
        helper-class generator when asked, or else saves and refreshes the
        asset store as the flags say. */
    method RefreshDatabaseItem(item: TextureGroup, outcome: Outcome, saveAssets: bool := false,
                               refreshAssetDatabase: bool := false, runHelperClassGenerator: bool := false)
      modifies this
      ensures database == RefreshedEntries(old(database), item, outcome)
      ensures trace == old(trace) + RefreshEvents(old(database), item, outcome, saveAssets,
                                                  refreshAssetDatabase, runHelperClassGenerator)
    {
      if item in database {
        if !runHelperClassGenerator {
          return;
        }
        GenerateDatabaseHelperClass(saveAssets, refreshAssetDatabase);
        return;
      }
      if outcome.SelfDeleted? {
        return;
      }
      database := database + [item];
      if runHelperClassGenerator {
        GenerateDatabaseHelperClass(saveAssets, refreshAssetDatabase);
        return;
      }
      SaveAndRefreshAssetDatabase(saveAssets, refreshAssetDatabase);
    }

    /** Empties the list, refreshes every enumerated asset in order with the
        default flags, then runs the helper-class generator once. */
    method RefreshDatabase(found: seq<Found>, saveAssets: bool := true, refreshAssetDatabase: bool := false)
      modifies this
      ensures database == RebuiltEntries(found)
      ensures null !in database && NoDuplicates(database)
      ensures trace == old(trace) + [RunGenerator(saveAssets, refreshAssetDatabase)]
    {
      database := [];
      for i := 0 to |found|
        invariant database == RebuiltEntries(found[..i])
        invariant trace == old(trace)
      {
        assert found[..i + 1][..i] == found[..i];
        RefreshDatabaseItem(found[i].item, found[i].outcome);
      }
      assert found[..|found|] == found;
      RebuiltWellFormed(found);
      GenerateDatabaseHelperClass(saveAssets, refreshAssetDatabase);
    }

    method GenerateDatabaseHelperClass(saveAssets: bool, refreshAssetDatabase: bool)
      modifies this`trace
      ensures trace == old(trace) + [RunGenerator(saveAssets, refreshAssetDatabase)]
    {
      trace := trace + [RunGenerator(saveAssets, refreshAssetDatabase)];
    }

    /** Prunes null entries, then returns the first record whose stored keys
        equal the cleaned query keys, or null. The stored keys are not cleaned. */
    method GetTextureGroup(cleaner: Cleaner, groupCategory: string, groupName: string) returns (r: TextureGroup?)
      modifies this
      ensures database == NonNull(old(database))
      ensures trace == old(trace)
      ensures r == FirstMatch(NonNull(old(database)), cleaner.Clean(groupCategory), cleaner.Clean(groupName))
      ensures r != null ==> r in old(database)
    {
      RemoveNullEntries();
      ghost var live := NonNull(old(database));
      var cleanCategoryName := cleaner.Clean(groupCategory);
      var cleanGroupName := cleaner.Clean(groupName);
      for i := 0 to |database|
        invariant database == live
        invariant forall j :: 0 <= j < i ==> !Matches(live[j], cleanCategoryName, cleanGroupName)
      {
        var texturesGroup := database[i];
        if texturesGroup.groupCategory == cleanCategoryName && texturesGroup.groupName == cleanGroupName {
          FirstMatchAt(live, cleanCategoryName, cleanGroupName, i);
          return texturesGroup;
        }
      }
      return null;
    }

    method SaveAndRefreshAssetDatabase(save: bool, refresh: bool)
      modifies this`trace
      ensures trace == old(trace) + SaveAndRefreshEvents(save, refresh)
    {
      if save {
        trace := trace + [SaveAssets];
      }
      if refresh {
        trace := trace + [RefreshAssets];
      }
    }
  }
}
