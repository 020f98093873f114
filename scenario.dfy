/** A client of the database: two groups of one category are discovered by a
    rebuild, then looked up by exact and by differently cased keys. The cleaner
    here leaves keys as they are, so nothing folds case. */
module DatabaseScenario {
  import opened TextureGroups
  import opened DatabaseSpec
  import opened TextureDatabase

  /** Two distinct surviving records are rebuilt in discovery order. */
  lemma RebuildTwo(a: TextureGroup, b: TextureGroup)
    requires a != b
    ensures RebuiltEntries([Found(a, Survives), Found(b, Survives)]) == [a, b]
  {
    var found := [Found(a, Survives), Found(b, Survives)];
    assert found[..1] == [Found(a, Survives)] && found[..1][..0] == [];
    assert RebuiltEntries(found[..1]) == [a];
  }

  method IconsScenario()
  {
    var play := new TextureGroup("Icons", "Play");
    var stop := new TextureGroup("Icons", "Stop");
    var db := new EditorDataTextureDatabase();
    RebuildTwo(play, stop);
    db.RefreshDatabase([Found(play, Survives), Found(stop, Survives)]);
    assert db.database == [play, stop];
    NonNullOfNullFree(db.database);

    var asIs := Cleaner(s => s, s => s);
    assert asIs.Clean("Icons") == "Icons" && asIs.Clean("Play") == "Play";
    FirstMatchAt([play, stop], "Icons", "Play", 0);
    var hit := db.GetTextureGroup(asIs, "Icons", "Play");
    assert hit == play;

    assert asIs.Clean("icons") == "icons" && "icons"[0] != "Icons"[0];
    assert !Matches(play, "icons", asIs.Clean("play")) && !Matches(stop, "icons", asIs.Clean("play"));
    var miss := db.GetTextureGroup(asIs, "icons", "play");
    assert miss == null;
  }
}
