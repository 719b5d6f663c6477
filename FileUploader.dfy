/** The deck uploader: a drop zone over a hidden file input. A dropped or chosen
    file is "uploaded" after a delay, shown, and handed to the parent. */
module FileUploader {
  import JsString
  import opened Nullable

  /** A browser `File`, known by its name and its size in bytes. */
  datatype File = File(name: string, size: nat)

  /** The `acceptedTypes` prop when the parent passes none. */
  const DefaultAcceptedTypes: seq<string> := [".pdf", ".ppt", ".pptx"]

  /** The input's `accept` attribute: the accepted types joined by commas. */
  function AcceptAttribute(acceptedTypes: seq<string>): string {
    JsString.Join(acceptedTypes, ",")
  }

  /** With the default prop the browser is asked for PDF and PowerPoint files. */
  lemma DefaultAccept()
    ensures AcceptAttribute(DefaultAcceptedTypes) == ".pdf,.ppt,.pptx"
  {
    assert DefaultAcceptedTypes[1..][1..] == [".pptx"];
  }

  /** The component: its three `useState` variables, its props, and the upload
      timer it has scheduled and that has not fired yet, holding the file it
      was started for. */
  class Uploader {
    const acceptedTypes: seq<string>
    var isDragging: bool
    var uploadedFile: Nullable<File>
    var isUploading: bool
    var pendingUpload: Nullable<File>

    /** An upload in progress is exactly one whose completion is on its way, and
        it runs while the drop zone is on screen. */
    ghost predicate Valid()
      reads this
    {
      (isUploading <==> pendingUpload.NonNull?)
      && (isUploading ==> uploadedFile == Null)
    }

    constructor (acceptedTypes: seq<string>)
      ensures Valid()
      ensures this.acceptedTypes == acceptedTypes
      ensures !isDragging && uploadedFile == Null && !isUploading && pendingUpload == Null
    {
      this.acceptedTypes := acceptedTypes;
      isDragging := false;
      uploadedFile := Null;
      isUploading := false;
      pendingUpload := Null;
    }

    /** The drop zone and its file input are rendered (otherwise the uploaded
        file's card is). */
    predicate DropZoneShown()
      reads this
    {
      uploadedFile.Null?
    }

    /** The file input refuses interaction. */
    predicate InputDisabled()
      reads this
    {
      isUploading
    }

    /** The drop zone receives drag events: it is rendered and not under
        `pointer-events-none`, which it carries while uploading. */
    predicate DropZoneLive()
      reads this
    {
      DropZoneShown() && !isUploading
    }

    /** `handleDragIn` (drag-enter). */
    method HandleDragIn()
      requires Valid() && DropZoneLive()
      modifies this
      ensures Valid()
      ensures isDragging
      ensures uploadedFile == old(uploadedFile) && isUploading == old(isUploading)
      ensures pendingUpload == old(pendingUpload)
    {
      isDragging := true;
    }

    /** `handleDragOut` (drag-leave). */
    method HandleDragOut()
      requires Valid() && DropZoneLive()
      modifies this
      ensures Valid()
      ensures !isDragging
      ensures uploadedFile == old(uploadedFile) && isUploading == old(isUploading)
      ensures pendingUpload == old(pendingUpload)
    {
      isDragging := false;
    }

    /** `handleDrag` (drag-over): only the browser's default is prevented. */
    method HandleDrag()
      requires Valid() && DropZoneLive()
      modifies this
      ensures Valid()
      ensures unchanged(this)
    {
    }

    /** `handleFile`: the upload starts and its completion is scheduled, with no
        check of the file's name or type. Both callers run only while the drop
        zone is on screen and no upload is running. */
    method HandleFile(file: File)
      requires Valid() && DropZoneLive()
      modifies this
      ensures Valid()
      ensures isUploading && pendingUpload == NonNull(file)
      ensures isDragging == old(isDragging) && uploadedFile == old(uploadedFile)
    {
      isUploading := true;
      pendingUpload := NonNull(file);
    }

    /** `handleDrop`: dragging ends; only the first dropped file, if any, is taken. */
    method HandleDrop(files: seq<File>)
      requires Valid() && DropZoneLive()
      modifies this
      ensures Valid()
      ensures !isDragging && uploadedFile == old(uploadedFile)
      ensures files != [] ==> isUploading && pendingUpload == NonNull(files[0])
      ensures files == [] ==> !isUploading && pendingUpload == Null
    {
      isDragging := false;
      if |files| > 0 {
        HandleFile(files[0]);
      }
    }

    /** `handleInputChange`, fired only by the rendered, enabled input: only the
        first chosen file, if any, is taken. */
    method HandleInputChange(files: seq<File>)
      requires Valid() && DropZoneShown() && !InputDisabled()
      modifies this
      ensures Valid()
      ensures isDragging == old(isDragging) && uploadedFile == old(uploadedFile)
      ensures files != [] ==> isUploading && pendingUpload == NonNull(files[0])
      ensures files == [] ==> !isUploading && pendingUpload == Null
    {
      if |files| > 0 {
        HandleFile(files[0]);
      }
    }

    /** The upload timer fires: its file is shown, the upload flag is cleared,
        and that same file is returned as the one argument of the single
        `onFileSelect` call. */
    method FireUploadComplete() returns (selected: File)
      requires Valid() && pendingUpload.NonNull?
      modifies this
      ensures Valid()
      ensures selected == old(pendingUpload).value
      ensures uploadedFile == NonNull(selected) && !isUploading && pendingUpload == Null
      ensures isDragging == old(isDragging)
      ensures !DropZoneShown()
    {
      selected := pendingUpload.value;
      uploadedFile := NonNull(selected);
      isUploading := false;
      pendingUpload := Null;
    }

    /** `removeFile`, on the uploaded file's card: back to the drop zone,
        nothing else touched. */
    method RemoveFile()
      requires Valid() && !DropZoneShown()
      modifies this
      ensures Valid()
      ensures uploadedFile == Null && DropZoneLive()
      ensures isDragging == old(isDragging) && isUploading == old(isUploading)
      ensures pendingUpload == old(pendingUpload)
    {
      uploadedFile := Null;
    }
  }

  /** Any file is taken, whatever its extension: a text file dropped on the
      default uploader is uploaded and forwarded like a deck. */
  method NoExtensionCheckScenario() returns (forwarded: File, shown: Nullable<File>, dropZone: bool)
    ensures forwarded == File("notes.txt", 10) && shown == NonNull(forwarded) && !dropZone
  {
    var up := new Uploader(DefaultAcceptedTypes);
    up.HandleDragIn();
    up.HandleDrop([File("notes.txt", 10), File("deck.pdf", 2048)]);
    forwarded := up.FireUploadComplete();
    shown := up.uploadedFile;
    dropZone := up.DropZoneShown();
  }
}
