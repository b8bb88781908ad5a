/** The upload panel: the chosen file, the upload's result, error and
    progress flags, the drag highlight, and the analysis settings sent with
    the analyse request. Backend calls are split at their `await`: a Start
    method does what happens before it, a Finish method takes the outcome. */
module UploadPanel {
  import opened Common
  import opened ApiTypes

  /** What the panel knows of a browser `File`. */
  datatype FileInfo = FileInfo(name: string, mimeType: string)

  const DefaultContamination: real := 0.05
  const MinContamination: real := 0.01
  const MaxContamination: real := 0.2

  const NotCsvError: string := "Please upload a CSV file"
  const UploadFallback: string := "Upload failed"
  const AnalysisFallback: string := "Analysis failed"

  /** A drop is taken only when its first file is a CSV. */
  function AcceptsDrop(dropped: Option<FileInfo>): (ok: bool)
    ensures ok <==> dropped.Some? && dropped.value.mimeType == "text/csv"
  {
    dropped.Some? && dropped.value.mimeType == "text/csv"
  }

  /** The error banner shows only a non-empty message. */
  function ErrorBanner(error: Option<string>): (b: Option<string>)
    ensures b.Some? <==> Truthy(error)
    ensures b.Some? ==> b == error
  {
    if Truthy(error) then error else None
  }

  class Panel {
    var file: Option<FileInfo>
    var uploadResult: Option<UploadResponse>
    var isDragging: bool
    var error: Option<string>
    var isUploading: bool
    var contamination: real
    var useAutoencoder: bool

    /** The slider keeps the contamination within its bounds. */
    ghost predicate Valid()
      reads this
    {
      MinContamination <= contamination <= MaxContamination
    }

    /** The drop zone is shown until an upload has succeeded. */
    function DropZoneShown(): bool
      reads this
    {
      uploadResult.None?
    }

    /** The panel as first rendered. */
    constructor ()
      ensures Valid()
      ensures file.None? && uploadResult.None? && !isDragging && error.None? && !isUploading
      ensures contamination == DefaultContamination && !useAutoencoder
    {
      file, uploadResult, isDragging, error, isUploading := None, None, false, None, false;
      contamination, useAutoencoder := DefaultContamination, false;
    }

    method DragOver()
      modifies this
      ensures isDragging
      ensures file == old(file) && uploadResult == old(uploadResult) && error == old(error)
      ensures isUploading == old(isUploading) && contamination == old(contamination) && useAutoencoder == old(useAutoencoder)
    {
      isDragging := true;
    }

    method DragLeave()
      modifies this
      ensures !isDragging
      ensures file == old(file) && uploadResult == old(uploadResult) && error == old(error)
      ensures isUploading == old(isUploading) && contamination == old(contamination) && useAutoencoder == old(useAutoencoder)
    {
      isDragging := false;
    }

    /** The first half of `handleFileSelect`: the file is taken and the upload starts. */
    method StartFileSelect(selected: FileInfo)
      modifies this
      ensures file == Some(selected) && error.None? && isUploading
      ensures uploadResult == old(uploadResult) && isDragging == old(isDragging)
      ensures contamination == old(contamination) && useAutoencoder == old(useAutoencoder)
    {
      file := Some(selected);
      error := None;
      isUploading := true;
    }

    /** The upload completing: a success keeps the response; a failure drops
        the file and shows the error's message, or the fallback. */
    method FinishUpload(outcome: Outcome<UploadResponse>)
      modifies this
      ensures !isUploading
      ensures outcome.Success? ==> uploadResult == Some(outcome.value) && file == old(file) && error == old(error)
      ensures outcome.Failure? ==> file.None? && error == Some(ErrorMessage(outcome.error, UploadFallback))
      ensures outcome.Failure? ==> uploadResult == old(uploadResult)
      ensures isDragging == old(isDragging) && contamination == old(contamination) && useAutoencoder == old(useAutoencoder)
    {
      if outcome.Success? {
        uploadResult := Some(outcome.value);
      } else {
        error := Some(ErrorMessage(outcome.error, UploadFallback));
        file := None;
      }
      isUploading := false;
    }

    /** `handleDrop`: a CSV starts an upload; anything else only sets the error. */
    method HandleDrop(dropped: Option<FileInfo>) returns (started: bool)
      modifies this
      ensures started == AcceptsDrop(dropped)
      ensures !isDragging
      ensures started ==> file == dropped && error.None? && isUploading
      ensures !started ==> error == Some(NotCsvError) && file == old(file) && isUploading == old(isUploading)
      ensures uploadResult == old(uploadResult)
      ensures contamination == old(contamination) && useAutoencoder == old(useAutoencoder)
    {
      isDragging := false;
      if AcceptsDrop(dropped) {
        StartFileSelect(dropped.value);
        started := true;
      } else {
        error := Some(NotCsvError);
        started := false;
      }
    }

    /** `handleInputChange`: any chosen file starts an upload, whatever its type;
        no file changes nothing. */
    method HandleInputChange(selected: Option<FileInfo>) returns (started: bool)
      modifies this
      ensures started <==> selected.Some?
      ensures started ==> file == selected && error.None? && isUploading
      ensures !started ==> file == old(file) && error == old(error) && isUploading == old(isUploading)
      ensures uploadResult == old(uploadResult) && isDragging == old(isDragging)
      ensures contamination == old(contamination) && useAutoencoder == old(useAutoencoder)
    {
      if selected.Some? {
        StartFileSelect(selected.value);
        started := true;
      } else {
        started := false;
      }
    }

    /** The first half of `handleAnalyze` after `onAnalysisStart`: the error is
        cleared and the request carries the current settings. */
    method StartAnalyze() returns (request: AnalyzeRequest)
      requires Valid()
      modifies this
      ensures Valid() && error.None?
      ensures request == AnalyzeRequest(contamination, useAutoencoder)
      ensures MinContamination <= request.contamination <= MaxContamination
      ensures file == old(file) && uploadResult == old(uploadResult) && isDragging == old(isDragging)
      ensures isUploading == old(isUploading) && contamination == old(contamination) && useAutoencoder == old(useAutoencoder)
    {
      error := None;
      request := AnalyzeRequest(contamination, useAutoencoder);
    }

    /** The analysis completing: a success is handed to `onAnalysisComplete`;
        a failure shows the error's message, or the fallback. */
    method FinishAnalyze(outcome: Outcome<AnalyzeResponse>) returns (completed: Option<AnalyzeResponse>)
      modifies this
      ensures outcome.Success? ==> completed == Some(outcome.value) && error == old(error)
      ensures outcome.Failure? ==> completed.None? && error == Some(ErrorMessage(outcome.error, AnalysisFallback))
      ensures file == old(file) && uploadResult == old(uploadResult) && isDragging == old(isDragging)
      ensures isUploading == old(isUploading) && contamination == old(contamination) && useAutoencoder == old(useAutoencoder)
    {
      if outcome.Success? {
        completed := Some(outcome.value);
      } else {
        error := Some(ErrorMessage(outcome.error, AnalysisFallback));
        completed := None;
      }
    }

    /** `clearFile`: back to an empty drop zone. */
    method ClearFile()
      modifies this
      ensures file.None? && uploadResult.None? && error.None? && DropZoneShown()
      ensures isDragging == old(isDragging) && isUploading == old(isUploading)
      ensures contamination == old(contamination) && useAutoencoder == old(useAutoencoder)
    {
      file := None;
      uploadResult := None;
      error := None;
    }

    /** The contamination slider; the range input only yields values within its bounds. */
    method SetContamination(value: real)
      requires MinContamination <= value <= MaxContamination
      modifies this
      ensures Valid() && contamination == value
      ensures file == old(file) && uploadResult == old(uploadResult) && isDragging == old(isDragging)
      ensures error == old(error) && isUploading == old(isUploading) && useAutoencoder == old(useAutoencoder)
    {
      contamination := value;
    }

    /** The model buttons: Isolation Forest or Autoencoder. */
    method SetUseAutoencoder(on: bool)
      modifies this
      ensures useAutoencoder == on
      ensures file == old(file) && uploadResult == old(uploadResult) && isDragging == old(isDragging)
      ensures error == old(error) && isUploading == old(isUploading) && contamination == old(contamination)
    {
      useAutoencoder := on;
    }
  }

  /** A rejected drop followed by a CSV drop leaves no error and an upload running. */
  method RejectThenAccept(p: Panel, bad: FileInfo, good: FileInfo)
    requires bad.mimeType != "text/csv" && good.mimeType == "text/csv"
    modifies p
    ensures p.error.None? && p.isUploading && p.file == Some(good)
  {
    var first := p.HandleDrop(Some(bad));
    assert !first && p.error == Some(NotCsvError);
    var second := p.HandleDrop(Some(good));
    assert second;
  }
}
