/** `TranscriptionManager`: a single-flight state machine that runs one
    recording through the available services, first success wins, and
    reports the outcome through the history and the toast. The `Task` it
    starts is split in two steps: `TranscribeAudio`, which either ignores the
    call or starts a run, and `CompleteTranscription`, which is the body of
    the `Task`. */
module Orchestrator {
  import opened Wrappers
  import opened Http
  import Registry
  import History
  import WhisperLocal

  datatype TranscriptionError = NoServicesAvailable | ServiceNotAvailable(service: string)

  const NotAvailableSuffix := " is not available"
  const NoServicesText := "No transcription services are available"

  /** `TranscriptionError.errorDescription`: a fixed sentence, or the
      service's name followed by " is not available". */
  function ErrorDescription(e: TranscriptionError): (r: string)
    ensures e.ServiceNotAvailable? ==>
      |r| == |e.service| + |NotAvailableSuffix| && r[..|e.service|] == e.service
      && r[|e.service|..] == NotAvailableSuffix
    ensures e.NoServicesAvailable? ==> r == NoServicesText
  {
    match e
    case NoServicesAvailable => NoServicesText
    case ServiceNotAvailable(service) => service + NotAvailableSuffix
  }

  /** Different errors are described differently, so the toast tells them
      apart. */
  lemma ErrorDescriptionInjective(a: TranscriptionError, b: TranscriptionError)
    ensures ErrorDescription(a) == ErrorDescription(b) ==> a == b
  {
    if a.ServiceNotAvailable? && b.ServiceNotAvailable? && ErrorDescription(a) == ErrorDescription(b) {
      assert a.service == ErrorDescription(a)[..|a.service|];
      assert b.service == ErrorDescription(b)[..|b.service|];
    } else if a.NoServicesAvailable? && b.ServiceNotAvailable? {
      NoServicesTextIsNotASuffixForm(b.service);
    } else if a.ServiceNotAvailable? && b.NoServicesAvailable? {
      NoServicesTextIsNotASuffixForm(a.service);
    }
  }

  lemma NoServicesTextIsNotASuffixForm(service: string)
    ensures service + NotAvailableSuffix != NoServicesText
  {
    var d := service + NotAvailableSuffix;
    if |d| == |NoServicesText| {
      assert d[|service|] == ' ';
      assert |service| == 22;
      assert NoServicesText[22] == 'c';
    }
  }

  const CopiedToast := "Transcription copied to clipboard"

  function FailedToast(e: TranscriptionError): string {
    "Transcription failed: " + ErrorDescription(e)
  }

  /** What trying one service gives, for the recording being transcribed. */
  type ServiceOutcome = (Registry.ServiceType, AudioUrl) -> Result<string, TranscriptionError>

  function OutcomeFor(outcome: ServiceOutcome, url: AudioUrl): Registry.ServiceType -> Result<string, TranscriptionError> {
    s => outcome(s, url)
  }

  /** Reference definition of the fallback: the result of the first service
      that succeeds, or `noServicesAvailable`. */
  function FirstSuccess(services: seq<Registry.ServiceType>, outcome: Registry.ServiceType -> Result<string, TranscriptionError>)
    : (r: Result<string, TranscriptionError>)
  {
    if services == [] then Failure(NoServicesAvailable)
    else match outcome(services[0])
      case Success(text) => Success(text)
      case Failure(_) => FirstSuccess(services[1..], outcome)
  }

  /** The fallback succeeds exactly when some service does, with the result
      of the first such service; otherwise the per-service errors are
      dropped and the run fails with `noServicesAvailable`. */
  lemma {:induction false} FirstSuccessMeaning(services: seq<Registry.ServiceType>, outcome: Registry.ServiceType -> Result<string, TranscriptionError>)
    ensures FirstSuccess(services, outcome).Failure? <==> forall i :: 0 <= i < |services| ==> outcome(services[i]).Failure?
    ensures FirstSuccess(services, outcome).Failure? ==> FirstSuccess(services, outcome) == Failure(NoServicesAvailable)
    ensures forall i :: 0 <= i < |services| && outcome(services[i]).Success?
              && (forall j :: 0 <= j < i ==> outcome(services[j]).Failure?)
              ==> FirstSuccess(services, outcome) == outcome(services[i])
  {
    if services != [] {
      FirstSuccessMeaning(services[1..], outcome);
      assert forall i :: 1 <= i < |services| ==> services[i] == services[1..][i - 1];
      if outcome(services[0]).Failure? {
        forall i | 0 <= i < |services| && outcome(services[i]).Success?
                   && (forall j :: 0 <= j < i ==> outcome(services[j]).Failure?)
          ensures FirstSuccess(services, outcome) == outcome(services[i])
        {
          assert i > 0;
          assert forall j :: 0 <= j < i - 1 ==> outcome(services[1..][j]).Failure? by {
            forall j | 0 <= j < i - 1 ensures outcome(services[1..][j]).Failure? {
              assert services[1..][j] == services[j + 1];
            }
          }
        }
      }
    }
  }

  /** `performTranscriptionWithFallback`: tries the services in order and
      returns the first result; `attempted` lists the services tried. */
  method PerformTranscriptionWithFallback(services: seq<Registry.ServiceType>,
                                          outcome: Registry.ServiceType -> Result<string, TranscriptionError>)
    returns (r: Result<string, TranscriptionError>, attempted: seq<Registry.ServiceType>)
    ensures r == FirstSuccess(services, outcome)
    ensures |attempted| <= |services| && attempted == services[..|attempted|]
    ensures forall j :: 0 <= j < |attempted| - 1 ==> outcome(attempted[j]).Failure?
    ensures r.Success? ==> attempted != [] && outcome(attempted[|attempted| - 1]) == r
    ensures r.Failure? ==> attempted == services && r == Failure(NoServicesAvailable)
  {
    attempted := [];
    var i := 0;
    while i < |services|
      invariant 0 <= i <= |services|
      invariant attempted == services[..i]
      invariant forall j :: 0 <= j < i ==> outcome(services[j]).Failure?
      invariant FirstSuccess(services, outcome) == FirstSuccess(services[i..], outcome)
    {
      var service := services[i];
      attempted := attempted + [service];
      assert services[i..][1..] == services[i + 1..];
      match outcome(service)
      case Success(result) =>
        return Success(result), attempted;
      case Failure(_) =>
        i := i + 1;
    }
    assert services[..i] == services;
    return Failure(NoServicesAvailable), attempted;
  }

  /** `transcribeWithService` as written: the first four branches are stubs
      that throw `serviceNotAvailable` with the service's name, and the local
      branch answers with the local service's file placeholder (see
      `TranscribeWithWhisperLocal`). */
  function TranscribeWithService(service: Registry.ServiceType, url: AudioUrl): Result<string, TranscriptionError> {
    match service
    case AppleIntelligence => Failure(ServiceNotAvailable("Apple Intelligence"))
    case OpenAI => Failure(ServiceNotAvailable("OpenAI Whisper"))
    case OpenRouter => Failure(ServiceNotAvailable("OpenRouter"))
    case Gemini => Failure(ServiceNotAvailable("Google Gemini"))
    case WhisperLocal => Success(WhisperLocal.FilePlaceholder)
  }

  /** The stubs throw for every recording, each naming its service by its
      raw value. */
  lemma StubsAlwaysThrow(service: Registry.ServiceType, url: AudioUrl)
    requires service != Registry.WhisperLocal
    ensures TranscribeWithService(service, url) == Failure(ServiceNotAvailable(Registry.RawValue(service)))
  {
  }

  /** `transcribeWithWhisperLocal`: a fresh service is initialised and asked
      for the file; its guards cannot fire, since `initialize` always
      succeeds. */
  method TranscribeWithWhisperLocal(url: AudioUrl) returns (r: Result<string, TranscriptionError>)
    ensures r == TranscribeWithService(Registry.WhisperLocal, url)
  {
    var whisperService := new WhisperLocal.WhisperLocalService();
    var initialized := whisperService.Initialize();
    var result := whisperService.TranscribeAudioFile(url);
    r := if !initialized then Failure(ServiceNotAvailable("Local Whisper - Failed to initialize"))
         else if result.None? then Failure(ServiceNotAvailable("Local Whisper - Transcription failed"))
         else Success(result.value);
  }

  /** With the code as written every run ends on Local Whisper's placeholder,
      whatever the keys and the probe: every earlier service is a stub, and
      Local Whisper is always listed last. */
  lemma {:induction false} EveryRunEndsOnPlaceholder(appleAvailable: bool, keys: map<Registry.ServiceType, string>, url: AudioUrl)
    ensures FirstSuccess(Registry.AvailableServices(appleAvailable, keys), OutcomeFor(TranscribeWithService, url))
         == Success(WhisperLocal.FilePlaceholder)
  {
    var services := Registry.AvailableServices(appleAvailable, keys);
    var outcome := OutcomeFor(TranscribeWithService, url);
    Registry.AvailableServicesProperties(appleAvailable, keys);
    var last := |services| - 1;
    forall j | 0 <= j < last ensures outcome(services[j]).Failure? {
      assert services[j] != Registry.WhisperLocal;
      assert outcome(services[j]) == TranscribeWithService(services[j], url);
    }
    assert outcome(services[last]) == Success(WhisperLocal.FilePlaceholder);
    FirstSuccessMeaning(services, outcome);
  }

  class TranscriptionManager {
    var isTranscribing: bool
    var lastTranscription: string
    var showToast: bool
    var toastMessage: string
    /** The recording of the run in flight, if any. */
    var pending: Option<AudioUrl>
    const apiManager: Registry.APIManager
    const historyManager: History.TranscriptionHistoryManager

    ghost predicate Valid()
      reads this
    {
      isTranscribing <==> pending.Some?
    }

    constructor (apiManager: Registry.APIManager, historyManager: History.TranscriptionHistoryManager)
      ensures Valid() && !isTranscribing
      ensures lastTranscription == "" && !showToast && toastMessage == ""
      ensures this.apiManager == apiManager && this.historyManager == historyManager
    {
      isTranscribing := false;
      lastTranscription := "";
      showToast := false;
      toastMessage := "";
      pending := None;
      this.apiManager := apiManager;
      this.historyManager := historyManager;
    }

    /** `transcribeAudio(url:)`: ignored while a run is in flight; otherwise
        marks the manager busy before any service is tried. */
    method TranscribeAudio(url: AudioUrl)
      requires Valid()
      modifies this
      ensures Valid()
      ensures old(isTranscribing) ==> unchanged(this)
      ensures !old(isTranscribing) ==> isTranscribing && pending == Some(url)
      ensures lastTranscription == old(lastTranscription)
      ensures showToast == old(showToast) && toastMessage == old(toastMessage)
    {
      if isTranscribing {
        return;
      }
      isTranscribing := true;
      pending := Some(url);
    }

    method ShowToast(message: string)
      modifies this
      ensures toastMessage == message && showToast
      ensures isTranscribing == old(isTranscribing) && pending == old(pending)
      ensures lastTranscription == old(lastTranscription)
    {
      toastMessage := message;
      showToast := true;
    }

    /** `addToHistory(text:)`: a new item with the given id and date and a
        duration of 0 is put first. */
    method AddToHistory(text: string, id: History.Uuid, now: History.Date)
      modifies historyManager
      ensures historyManager.transcriptions
           == [History.TranscriptionHistoryItem(id, text, now, 0.0)] + old(historyManager.transcriptions)
    {
      var item := History.TranscriptionHistoryItem(id, text, now, 0.0);
      historyManager.AddTranscription(item);
    }

    /** The body of the `Task` started by `transcribeAudio`. `outcome` says
        what each service does with the recording; `id` and `now` stand for
        `UUID()` and `Date()`. */
    method CompleteTranscription(appleAvailable: bool, outcome: ServiceOutcome, id: History.Uuid, now: History.Date)
      requires Valid() && isTranscribing
      modifies this, historyManager
      ensures Valid() && !isTranscribing
      ensures var r := FirstSuccess(Registry.AvailableServices(appleAvailable, apiManager.apiKeys), OutcomeFor(outcome, old(pending).value));
        && showToast
        && (r.Success? ==>
              && lastTranscription == r.value
              && historyManager.transcriptions
                 == [History.TranscriptionHistoryItem(id, r.value, now, 0.0)] + old(historyManager.transcriptions)
              && toastMessage == CopiedToast)
        && (r.Failure? ==>
              && lastTranscription == old(lastTranscription)
              && historyManager.transcriptions == old(historyManager.transcriptions)
              && toastMessage == FailedToast(r.error))
    {
      var url := pending.value;
      var services := apiManager.GetAvailableServices(appleAvailable);
      var result, _ := PerformTranscriptionWithFallback(services, OutcomeFor(outcome, url));
      match result
      case Success(text) =>
        lastTranscription := text;
        AddToHistory(text, id, now);
        ShowToast(CopiedToast);
        isTranscribing := false;
        pending := None;
      case Failure(e) =>
        ShowToast(FailedToast(e));
        isTranscribing := false;
        pending := None;
    }

    /** The `Task` as the code is written: the run always succeeds with the
        placeholder, and the history gains exactly that item. */
    method CompleteAsWritten(appleAvailable: bool, id: History.Uuid, now: History.Date)
      requires Valid() && isTranscribing
      modifies this, historyManager
      ensures Valid() && !isTranscribing
      ensures lastTranscription == WhisperLocal.FilePlaceholder && toastMessage == CopiedToast && showToast
      ensures historyManager.transcriptions
           == [History.TranscriptionHistoryItem(id, WhisperLocal.FilePlaceholder, now, 0.0)] + old(historyManager.transcriptions)
    {
      EveryRunEndsOnPlaceholder(appleAvailable, apiManager.apiKeys, pending.value);
      CompleteTranscription(appleAvailable, TranscribeWithService, id, now);
    }
  }
}
