/** The texture-group asset as the Editor Textures Database sees it, and the
    collaborators the database calls but does not own. */
module TextureGroups {

  /** A texture-group asset (EditorDataTextureGroup). The database only reads
      its two keys; records are compared by reference, never by key. */
  class TextureGroup {
    var groupCategory: string
    var groupName: string

    constructor (category: string, name: string)
      ensures groupCategory == category && groupName == name
    {
      groupCategory := category;
      groupName := name;
    }
  }

  /** What `item.Validate()` followed by `item.LoadTexturesFromFolder(false)`
      leaves behind: the record either survives, or it judged its own setup bad,
      moved itself to the trash and now compares equal to null. */
  datatype Outcome = Survives | SelfDeleted

  /** The two string extension methods the lookup applies to its query keys,
      `RemoveWhitespaces` and `RemoveAllSpecialCharacters`; their code is not
      part of this model, so they are given as arbitrary total functions. */
  datatype Cleaner = Cleaner(removeWhitespaces: string -> string, removeAllSpecialCharacters: string -> string)
  {
    /** `s.RemoveWhitespaces().RemoveAllSpecialCharacters()` */
    function Clean(s: string): string
    {
      removeAllSpecialCharacters(removeWhitespaces(s))
    }
  }
}
