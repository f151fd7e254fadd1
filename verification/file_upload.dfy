/** The file picker (frontend/src/components/FileUpload.tsx): which files it accepts, the
    drag-highlight and error state, and the preview of the loaded text. A file is its
    name and byte size; what `FileReader` produced is a parameter (`Some(text)` for
    `onload`, `None` for `onerror`). */
module FileUpload {
  import opened Wrappers
  import opened Text

  datatype File = File(name: string, size: nat)

  const MaxBytes: nat := 1024 * 1024
  const WrongType := "Пожалуйста, загрузите только .txt файлы"
  const TooLarge := "Размер файла не должен превышать 1MB"
  const ReadFailed := "Ошибка при чтении файла"

  /** The picker's own state. */
  datatype UploadState = UploadState(dragActive: bool, error: Option<string>)

  /** The result of handing a file to the picker: its new state and the text passed
      on to `onFileContent`, if any. */
  datatype Handled = Handled(state: UploadState, delivered: Option<string>)

  /** A file the picker accepts: a name ending in ".txt" in any case, and at most 1 MiB. */
  predicate Acceptable(f: File) {
    EndsWith(Lower(f.name), ".txt") && f.size <= MaxBytes
  }

  /** `handleFile`: the extension is checked before the size; an accepted file's text
      is delivered once read, and a read failure sets the read error. */
  function HandleFile(st: UploadState, f: File, read: Option<string>): (h: Handled)
    ensures h.state.dragActive == st.dragActive
    ensures h.delivered.Some? <==> Acceptable(f) && read.Some?
    ensures h.delivered.Some? ==> h.delivered == read && h.state.error == st.error
    ensures !EndsWith(Lower(f.name), ".txt") ==> h.state.error == Some(WrongType)
    ensures EndsWith(Lower(f.name), ".txt") && f.size > MaxBytes ==> h.state.error == Some(TooLarge)
    ensures Acceptable(f) && read.None? ==> h.state.error == Some(ReadFailed)
  {
    if !EndsWith(Lower(f.name), ".txt") then Handled(st.(error := Some(WrongType)), None)
    else if f.size > MaxBytes then Handled(st.(error := Some(TooLarge)), None)
    else if read.Some? then Handled(st, read)
    else Handled(st.(error := Some(ReadFailed)), None)
  }

  /** An oversized file with the wrong extension reports the extension. */
  lemma ExtensionCheckedFirst(name: string, size: nat, st: UploadState, read: Option<string>)
    requires !EndsWith(Lower(name), ".txt") && size > MaxBytes
    ensures HandleFile(st, File(name, size), read).state.error == Some(WrongType)
  {
  }

  /** Upper-case extensions are accepted: "NOTES.TXT" lowers to "notes.txt". */
  lemma UpperCaseExtensionAccepted()
    ensures Acceptable(File("NOTES.TXT", MaxBytes))
    ensures !Acceptable(File("notes.txt", MaxBytes + 1))
  {
    assert Lower("NOTES.TXT") == "notes.txt";
  }

  /** The drag events the picker reacts to. */
  datatype DragEvent = DragEnter | DragOver | DragLeave | OtherDrag

  /** `handleDrag`: entering or moving over the area highlights it, leaving it removes
      the highlight, any other event leaves it. */
  function HandleDrag(st: UploadState, e: DragEvent): (r: UploadState)
    ensures r.error == st.error
    ensures e == DragEnter || e == DragOver ==> r.dragActive
    ensures e == DragLeave ==> !r.dragActive
    ensures e == OtherDrag ==> r == st
  {
    match e
    case DragEnter => st.(dragActive := true)
    case DragOver => st.(dragActive := true)
    case DragLeave => st.(dragActive := false)
    case OtherDrag => st
  }

  /** `handleDrop`: the highlight and any earlier error are cleared, then the first
      dropped file, if there is one, is handled. */
  function HandleDrop(st: UploadState, first: Option<File>, read: Option<string>): (h: Handled)
    ensures !h.state.dragActive
    ensures first.None? ==> h == Handled(UploadState(false, None), None)
    ensures first.Some? && Acceptable(first.value) && read.Some? ==> h.state.error.None?
    ensures h.delivered.Some? <==> first.Some? && Acceptable(first.value) && read.Some?
  {
    var cleared := UploadState(false, None);
    if first.Some? then HandleFile(cleared, first.value, read) else Handled(cleared, None)
  }

  /** `handleClear`: the error goes, the highlight stays; the form is told to clear. */
  function HandleClear(st: UploadState): (r: UploadState)
    ensures r.error.None? && r.dragActive == st.dragActive
  {
    st.(error := None)
  }

  /** Clearing forgets what handling a file did to the error: whatever file was
      handled, clearing afterwards gives the state clearing gives, and clearing twice
      is clearing once. */
  lemma ClearForgetsFile(st: UploadState, f: File, read: Option<string>)
    ensures HandleClear(HandleFile(st, f, read).state) == HandleClear(st)
    ensures HandleClear(HandleClear(st)) == HandleClear(st)
  {
  }

  /** A run of drag events handled one after another. */
  function DragAll(st: UploadState, es: seq<DragEvent>): UploadState
    decreases |es|
  {
    if |es| == 0 then st else DragAll(HandleDrag(st, es[0]), es[1..])
  }

  /** The highlight the last enter, over or leave event of the run asks for, and the
      current one when the run has none. */
  function LastHighlight(es: seq<DragEvent>, current: bool): bool
    decreases |es|
  {
    if |es| == 0 then current
    else if es[|es| - 1] == OtherDrag then LastHighlight(es[..|es| - 1], current)
    else es[|es| - 1] != DragLeave
  }

  lemma {:induction false} LastHighlightAfter(e: DragEvent, rest: seq<DragEvent>, current: bool)
    ensures LastHighlight([e] + rest, current) ==
      LastHighlight(rest, HandleDrag(UploadState(current, None), e).dragActive)
    decreases |rest|
  {
    var es := [e] + rest;
    if |rest| == 0 {
      assert es[..0] == [];
    } else {
      assert es[..|es| - 1] == [e] + rest[..|rest| - 1];
      assert es[|es| - 1] == rest[|rest| - 1];
      LastHighlightAfter(e, rest[..|rest| - 1], current);
    }
  }

  /** After any run of drag events the area is highlighted exactly when the last event
      that is not ignored entered or moved over it, and the error never changes. */
  lemma {:induction false} DragFollowsLastEvent(st: UploadState, es: seq<DragEvent>)
    ensures DragAll(st, es).dragActive == LastHighlight(es, st.dragActive)
    ensures DragAll(st, es).error == st.error
    decreases |es|
  {
    if |es| > 0 {
      var next := HandleDrag(st, es[0]);
      DragFollowsLastEvent(next, es[1..]);
      LastHighlightAfter(es[0], es[1..], st.dragActive);
      assert [es[0]] + es[1..] == es;
    }
  }

  // ---------------------------------------------------------------------------
  // Preview

  const PreviewLength: nat := 500

  /** The preview text: the first 500 characters and "..." when the text is longer,
      the whole text otherwise. */
  function Preview(content: string): (p: string)
    ensures |content| <= PreviewLength ==> p == content
    ensures |content| > PreviewLength ==> |p| == PreviewLength + 3 && EndsWith(p, "...")
    ensures StartsWith(content, p[..if |p| < PreviewLength then |p| else PreviewLength])
  {
    if |content| > PreviewLength then Take(content, PreviewLength) + "..." else content
  }

  /** The note under a long preview, giving the full length. */
  function PreviewNote(content: string): (note: Option<string>)
    ensures note.Some? <==> |content| > PreviewLength
  {
    if |content| > PreviewLength then
      Some("Показаны первые 500 символов из " + IntToString(|content|))
    else None
  }

  /** A long text's preview is its first 500 characters followed by the dots, and
      the note carries the length, which reads back as the text's length. */
  lemma LongPreview(content: string)
    requires |content| > PreviewLength
    ensures Preview(content) == content[..PreviewLength] + "..."
    ensures PreviewNote(content).Some?
    ensures var prefix := "Показаны первые 500 символов из ";
      var note := PreviewNote(content).value;
      StartsWith(note, prefix) && ParsePyInt(note[|prefix|..]) == Some(|content|)
  {
    var prefix := "Показаны первые 500 символов из ";
    var note := prefix + IntToString(|content|);
    assert note[|prefix|..] == IntToString(|content|);
    assert note[..|prefix|] == prefix;
    IntToStringRoundTrip(|content|);
  }
}
