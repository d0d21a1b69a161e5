/**
 * The upload form (UploadPage.js): pre-flight validation of the chosen file,
 * the preview produced later by a FileReader, and the three ways a submission
 * ends. The callbacks the page is given (`onAnalysisComplete`, `navigate`) are
 * returned to the caller as a hand-off value.
 */
module Upload {

  import opened Optional
  import opened Api

  /** A browser `File`: its name, its MIME type and its size in bytes. */
  datatype File = File(name: string, mediaType: string, size: nat)

  const ValidTypes: seq<string> := ["image/jpeg", "image/png", "image/jpg"]
  const MaxSize: nat := 5 * 1024 * 1024

  datatype Rejection = InvalidType | TooLarge
  datatype Verdict = Accept | Reject(reason: Rejection)

  /** The checks of `processFile`, type before size. */
  function Validate(f: File): (v: Verdict)
    ensures v == Accept <==> f.mediaType in ValidTypes && f.size <= MaxSize
    ensures v == Reject(InvalidType) <==> f.mediaType !in ValidTypes
    ensures v == Reject(TooLarge) <==> f.mediaType in ValidTypes && f.size > MaxSize
  {
    if f.mediaType !in ValidTypes then Reject(InvalidType)
    else if f.size > MaxSize then Reject(TooLarge)
    else Accept
  }

  const InvalidTypeMessage: string := "Please select a valid image file (JPEG, PNG)"
  const TooLargeMessage: string := "File size should be less than 5MB"
  const NoFileMessage: string := "Please select an image to analyze"
  const AnalysisFallbackMessage: string := "An error occurred during analysis"
  const UploadFailedMessage: string := "Failed to upload image. Please try again."

  function RejectionMessage(r: Rejection): string {
    match r
    case InvalidType => InvalidTypeMessage
    case TooLarge => TooLargeMessage
  }

  /** `e.target.files[0]` / `e.dataTransfer.files[0]`: undefined for an empty list. */
  function FirstFile(files: seq<File>): Option<File> {
    if files == [] then None else Some(files[0])
  }

  /** What a finished submission asks of the parent: nothing, or `onAnalysisComplete(data)` then `navigate(route)`. */
  datatype Handoff = Stay | Handoff(analysis: Option<Analysis>, route: string)

  class UploadPage {
    var file: Option<File>
    var preview: Option<string>
    var dragging: bool
    var loading: bool
    var error: Option<string>
    /** Files whose FileReader has started and not yet fired `onload`. */
    ghost var pendingReads: seq<File>
    /** Submissions whose `uploadImage` promise has not yet settled. */
    ghost var uploadsInFlight: nat

    constructor ()
      ensures file == None && preview == None && !dragging && !loading && error == None
      ensures pendingReads == [] && uploadsInFlight == 0
    {
      file, preview, dragging, loading, error := None, None, false, false, None;
      pendingReads, uploadsInFlight := [], 0;
    }

    /** The submit button is disabled while there is no file or an upload is running. */
    function SubmitDisabled(): (disabled: bool)
      reads this
      ensures file.None? ==> disabled
      ensures loading ==> disabled
      ensures !disabled <==> file.Some? && !loading
    {
      file.None? || loading
    }

    /**
     * `processFile`: nothing happens without a file; a rejected file only sets
     * the error and keeps the file and preview held so far; an accepted file
     * clears the error, becomes the file, and starts a FileReader whose load
     * sets the preview later.
     */
    method ProcessFile(selected: Option<File>)
      modifies this
      ensures selected.None? ==>
                file == old(file) && preview == old(preview) && error == old(error)
                && pendingReads == old(pendingReads)
      ensures selected.Some? && Validate(selected.value).Reject? ==>
                error == Some(RejectionMessage(Validate(selected.value).reason))
                && file == old(file) && preview == old(preview) && pendingReads == old(pendingReads)
      ensures selected.Some? && Validate(selected.value) == Accept ==>
                error == None && file == selected && preview == old(preview)
                && pendingReads == old(pendingReads) + [selected.value]
      ensures dragging == old(dragging) && loading == old(loading) && uploadsInFlight == old(uploadsInFlight)
    {
      if selected.None? {
        return;
      }
      var f := selected.value;
      match Validate(f) {
        case Reject(reason) =>
          error := Some(RejectionMessage(reason));
        case Accept =>
          error := None;
          file := Some(f);
          pendingReads := pendingReads + [f];
      }
    }

    /** `handleFileChange`: the first file of the picker's list. */
    method HandleFileChange(files: seq<File>)
      modifies this
      ensures file == (if files != [] && Validate(files[0]) == Accept then Some(files[0]) else old(file))
      ensures preview == old(preview) && dragging == old(dragging) && loading == old(loading)
      ensures error == (if files == [] then old(error)
                        else if Validate(files[0]) == Accept then None
                        else Some(RejectionMessage(Validate(files[0]).reason)))
      ensures pendingReads == old(pendingReads) + (if files != [] && Validate(files[0]) == Accept then [files[0]] else [])
      ensures uploadsInFlight == old(uploadsInFlight)
    {
      ProcessFile(FirstFile(files));
    }

    method HandleDragEnter()
      modifies this
      ensures dragging
      ensures file == old(file) && preview == old(preview) && loading == old(loading) && error == old(error)
      ensures pendingReads == old(pendingReads) && uploadsInFlight == old(uploadsInFlight)
    {
      dragging := true;
    }

    method HandleDragLeave()
      modifies this
      ensures !dragging
      ensures file == old(file) && preview == old(preview) && loading == old(loading) && error == old(error)
      ensures pendingReads == old(pendingReads) && uploadsInFlight == old(uploadsInFlight)
    {
      dragging := false;
    }

    /** `handleDrop`: leave the drag state, then process the first dropped file. */
    method HandleDrop(files: seq<File>)
      modifies this
      ensures !dragging
      ensures file == (if files != [] && Validate(files[0]) == Accept then Some(files[0]) else old(file))
      ensures preview == old(preview) && loading == old(loading)
      ensures error == (if files == [] then old(error)
                        else if Validate(files[0]) == Accept then None
                        else Some(RejectionMessage(Validate(files[0]).reason)))
      ensures pendingReads == old(pendingReads) + (if files != [] && Validate(files[0]) == Accept then [files[0]] else [])
      ensures uploadsInFlight == old(uploadsInFlight)
    {
      dragging := false;
      ProcessFile(FirstFile(files));
    }

    /**
     * `reader.onload` of the `k`-th pending read: the preview becomes the data
     * URL the reader produced. Nothing checks that its file is still the
     * selected one.
     */
    method ReaderLoaded(k: nat, dataUrl: string)
      requires k < |pendingReads|
      modifies this
      ensures preview == Some(dataUrl)
      ensures pendingReads == old(pendingReads[..k] + pendingReads[k + 1..])
      ensures file == old(file) && dragging == old(dragging) && loading == old(loading) && error == old(error)
      ensures uploadsInFlight == old(uploadsInFlight)
    {
      preview := Some(dataUrl);
      pendingReads := pendingReads[..k] + pendingReads[k + 1..];
    }

    /**
     * The synchronous part of `handleSubmit`: without a file, set the error
     * and send nothing; otherwise start loading, clear the error and send the
     * held file.
     */
    method Submit() returns (upload: Option<File>)
      modifies this
      ensures upload == old(file)
      ensures old(file).None? ==> error == Some(NoFileMessage) && loading == old(loading)
                                  && uploadsInFlight == old(uploadsInFlight)
      ensures old(file).Some? ==> error == None && loading && uploadsInFlight == old(uploadsInFlight) + 1
      ensures !old(SubmitDisabled()) ==> upload.Some?
      ensures upload.Some? ==> SubmitDisabled()
      ensures file == old(file) && preview == old(preview) && dragging == old(dragging)
      ensures pendingReads == old(pendingReads)
    {
      if file.None? {
        error := Some(NoFileMessage);
        upload := None;
        return;
      }
      loading := true;
      error := None;
      uploadsInFlight := uploadsInFlight + 1;
      upload := file;
    }

    /**
     * The awaited part of `handleSubmit`. Success hands the data to the parent
     * and goes to `/visualization`; a reply with another status shows the
     * server's message or the fallback; a rejected promise shows the generic
     * message. The file and preview stay, and loading ends in every case.
     */
    method SubmitCompleted(outcome: Completion<Option<Analysis>>) returns (handoff: Handoff)
      requires uploadsInFlight > 0
      modifies this
      ensures !loading && uploadsInFlight == old(uploadsInFlight) - 1
      ensures file == old(file) && preview == old(preview) && dragging == old(dragging)
      ensures pendingReads == old(pendingReads)
      ensures outcome.Replied? && outcome.reply.status == "success" ==>
                handoff == Handoff(outcome.reply.data, "/visualization") && error == old(error)
      ensures outcome.Replied? && outcome.reply.status != "success" ==>
                handoff == Stay && error == Some(MessageOr(outcome.reply.message, AnalysisFallbackMessage))
      ensures outcome.TransportFailed? ==> handoff == Stay && error == Some(UploadFailedMessage)
      ensures SubmitDisabled() <==> file.None?
    {
      handoff := Stay;
      match outcome {
        case Replied(reply) =>
          if reply.status == "success" {
            handoff := Handoff(reply.data, "/visualization");
          } else {
            error := Some(MessageOr(reply.message, AnalysisFallbackMessage));
          }
        case TransportFailed =>
          error := Some(UploadFailedMessage);
      }
      loading := false;
      uploadsInFlight := uploadsInFlight - 1;
    }

    /**
     * `handleCancel`: drop the file, the preview and the error. Readers
     * already started are not aborted, so a late `onload` can bring a preview
     * back.
     */
    method Cancel()
      modifies this
      ensures file == None && preview == None && error == None
      ensures dragging == old(dragging) && loading == old(loading)
      ensures pendingReads == old(pendingReads) && uploadsInFlight == old(uploadsInFlight)
    {
      file := None;
      preview := None;
      error := None;
    }
  }

  /** A file is accepted exactly when it is one of the three JPEG/PNG types and at most 5 MiB. */
  lemma ValidateTotal(f: File)
    ensures Validate(f) in {Accept, Reject(InvalidType), Reject(TooLarge)}
    ensures Validate(f) == Accept <==> (f.mediaType == "image/jpeg" || f.mediaType == "image/png"
                                        || f.mediaType == "image/jpg") && f.size <= 5242880
  {
  }
}
