/**
 * The photo picker: it accepts the first chosen file when it is an image,
 * reports it to the form and shows a preview from an object URL; removing
 * the photo reports the removal, revokes the preview and clears the input.
 */
module PhotoUpload {
  import opened Base
  import opened Types
  import opened JsStrings

  /** The preview URL state and the files the hidden file input currently holds. */
  datatype Picker = Picker(preview: Option<Handle>, selection: seq<File>)

  const Initial := Picker(None, [])

  /** A call the picker makes to its parent or to the browser. */
  datatype Effect = PhotoSelected(file: File) | CreatePreview(url: Handle, file: File) | PhotoRemoved | RevokePreview(url: Handle)

  datatype Step = Step(next: Picker, effects: seq<Effect>)

  /** `file.type.startsWith('image/')`. */
  predicate IsImage(f: File) {
    StartsWith(f.mime, "image/")
  }

  /**
   * `handleFileSelect`: the input now holds the chosen files; only the first
   * is considered, and only an image is reported and previewed under the
   * fresh `url`.  The previous preview is replaced without being revoked.
   */
  function SelectFiles(p: Picker, files: seq<File>, url: Handle): (st: Step)
    ensures st.next.selection == files
    ensures !(|files| > 0 && IsImage(files[0])) ==> st.next.preview == p.preview && st.effects == []
    ensures |files| > 0 && IsImage(files[0]) ==>
              st.next.preview == Some(url) && st.effects == [PhotoSelected(files[0]), CreatePreview(url, files[0])]
    ensures forall f :: PhotoSelected(f) in st.effects ==> |files| > 0 && f == files[0] && IsImage(f)
    ensures forall u: Handle :: RevokePreview(u) !in st.effects
  {
    var chosen := p.(selection := files);
    if |files| > 0 && IsImage(files[0]) then
      Step(chosen.(preview := Some(url)), [PhotoSelected(files[0]), CreatePreview(url, files[0])])
    else Step(chosen, [])
  }

  /**
   * `handleRemovePhoto`: always reports the removal; revokes and clears the
   * preview only when there is one; empties the input.
   */
  function RemovePhoto(p: Picker): (st: Step)
    ensures st.next == Initial
    ensures |st.effects| >= 1 && st.effects[0] == PhotoRemoved
    ensures |st.effects| == 1 + (if p.preview.Some? then 1 else 0)
    ensures forall u: Handle :: RevokePreview(u) in st.effects <==> p.preview == Some(u)
  {
    Step(Initial, [PhotoRemoved] + (if p.preview.Some? then [RevokePreview(p.preview.value)] else []))
  }

  /** Choosing a non-image leaves the preview as it was and tells nobody. */
  lemma NonImageIgnored(p: Picker, f: File, rest: seq<File>, url: Handle)
    requires !IsImage(f)
    ensures SelectFiles(p, [f] + rest, url).next.preview == p.preview
    ensures SelectFiles(p, [f] + rest, url).effects == []
  {
  }

  /**
   * Choosing a second image over a previewed one replaces the preview URL and
   * never revokes the old one: the old object URL stays alive.
   */
  lemma ReplacedPreviewNotRevoked(p: Picker, f: File, url: Handle)
    requires p.preview.Some? && p.preview.value != url && IsImage(f)
    ensures SelectFiles(p, [f], url).next.preview == Some(url)
    ensures RevokePreview(p.preview.value) !in SelectFiles(p, [f], url).effects
    ensures RevokePreview(p.preview.value) !in RemovePhoto(SelectFiles(p, [f], url).next).effects
  {
    var next := SelectFiles(p, [f], url).next;
    assert RemovePhoto(next).effects == [PhotoRemoved, RevokePreview(url)];
  }

  /** Selecting an image and removing it returns to the initial picker, revoking that preview. */
  lemma SelectThenRemove(f: File, url: Handle)
    requires IsImage(f)
    ensures RemovePhoto(SelectFiles(Initial, [f], url).next) == Step(Initial, [PhotoRemoved, RevokePreview(url)])
  {
  }
}
