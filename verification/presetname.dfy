/**
 * File names of presets: the dialog appends the ".fnp" extension when the
 * user left it off (MakeFullPresetName) and hides it again when listing a
 * preset by name (RemoveExtensionPresetName).
 */
module PresetName {
  import opened Text

  /** PRESET_EXTENSION. */
  const EXTENSION: string := ".fnp"

  /** MakeFullPresetName: the name with the extension, appended only when missing. */
  function MakeFull(name: string): (r: string)
    ensures HasSuffix(r, EXTENSION)
    ensures HasSuffix(name, EXTENSION) ==> r == name
    ensures !HasSuffix(name, EXTENSION) ==> r == name + EXTENSION
  {
    if HasSuffix(name, EXTENSION) then name else name + EXTENSION
  }

  /** RemoveExtensionPresetName: the terminator goes at strlen - 4, dropping the extension if present. */
  function RemoveExtension(name: string): (r: string)
    ensures HasSuffix(name, EXTENSION) ==> r + EXTENSION == name
    ensures !HasSuffix(name, EXTENSION) ==> r == name
  {
    if HasSuffix(name, EXTENSION) then name[..|name| - 4] else name
  }

  lemma MakeFullIdempotent(name: string)
    ensures MakeFull(MakeFull(name)) == MakeFull(name)
  {
  }

  /** A name the user typed without the extension comes back unchanged. */
  lemma RemoveMakeFull(name: string)
    requires !HasSuffix(name, EXTENSION)
    ensures RemoveExtension(MakeFull(name)) == name
  {
    var f := name + EXTENSION;
    assert f[..|f| - 4] == name;
  }

  /** Removing after completing is removing: a present extension is dropped once either way. */
  lemma RemoveAfterMakeFull(name: string)
    ensures RemoveExtension(MakeFull(name)) == RemoveExtension(name)
  {
    if !HasSuffix(name, EXTENSION) {
      RemoveMakeFull(name);
    }
  }

  /** A full name whose stem does not itself end in the extension is rebuilt exactly. */
  lemma MakeFullAfterRemove(name: string)
    requires HasSuffix(name, EXTENSION)
    requires !HasSuffix(RemoveExtension(name), EXTENSION)
    ensures MakeFull(RemoveExtension(name)) == name
  {
  }
}
