/** `WhisperLocalService` as it stands: a flag set by `initialize` and two
    transcription calls that return fixed placeholder texts once it is set. */
module WhisperLocal {
  import opened Wrappers
  import opened Http

  const DefaultModelName := "tiny.en"

  const FilePlaceholder := "\U{1F3A4} [Local Whisper] This is a test transcription. The audio was processed successfully. To enable real transcription, the Whisper.cpp framework needs to be properly linked in Xcode."

  const DataPlaceholder := "This is a placeholder transcription from local Whisper. The actual Whisper.cpp integration needs to be completed in Xcode."

  /** `getAvailableModels()`, a constant list. */
  const AvailableModels := ["tiny.en", "base.en", "small.en", "medium.en", "large-v3"]

  class WhisperLocalService {
    const modelName: string
    var isInitializedFlag: bool

    /** `init(modelName:)`; a fresh service is not initialised. */
    constructor (modelName: string := DefaultModelName)
      ensures this.modelName == modelName
      ensures !IsInitialized()
    {
      this.modelName := modelName;
      isInitializedFlag := false;
    }

    function IsInitialized(): bool
      reads this
    {
      isInitializedFlag
    }

    /** Always succeeds and sets the flag; a second call changes nothing. */
    method Initialize() returns (ok: bool)
      modifies this
      ensures ok && IsInitialized()
      ensures old(IsInitialized()) ==> unchanged(this)
    {
      isInitializedFlag := true;
      return true;
    }

    /** nil before `initialize`, the file placeholder after it, for any URL. */
    method TranscribeAudioFile(url: AudioUrl) returns (r: Option<string>)
      ensures r == if IsInitialized() then Some(FilePlaceholder) else None
    {
      if !isInitializedFlag {
        return None;
      }
      return Some(FilePlaceholder);
    }

    /** nil before `initialize`, the data placeholder after it. */
    method TranscribeAudioData(audioData: Bytes) returns (r: Option<string>)
      ensures r == if IsInitialized() then Some(DataPlaceholder) else None
    {
      if !isInitializedFlag {
        return None;
      }
      return Some(DataPlaceholder);
    }

    function GetAvailableModels(): (models: seq<string>)
      ensures |models| == 5 && models[0] == DefaultModelName
    {
      AvailableModels
    }
  }

  /** The two placeholders differ, so a caller can tell which call answered. */
  lemma PlaceholdersDiffer()
    ensures FilePlaceholder != DataPlaceholder
  {
    assert |FilePlaceholder| != |DataPlaceholder|;
  }
}
