/**
 * The scan-result state machine: `MainViewModel` holds the UI state (whether a
 * scan is running) and emits view events in answer to the scanner's callbacks.
 * The event stream is modelled as a log that each callback appends to, in the
 * order the events are emitted; the QR use case is injected as a function.
 */
module MainViewModelUi {
  import opened Wrappers
  import opened HandleQrCodeUseCase
  import RouterProperties

  datatype MainUiState = MainUiState(isScanning: bool)

  datatype ViewEvent = StartActivity(intent: Intent) | ShowToast(message: string)

  /**
   * The string resources as `application.getString` resolves them: two plain
   * messages and two format strings applied to one argument.
   */
  datatype Resources = Resources(
    scanNoData: string,
    scanCanceled: string,
    cannotOpen: string -> string,
    scanFailedMessage: string -> string)

  /** Substituted into the scan-failed message when the exception has no message. */
  const UnknownError := "Unknown error"

  class MainViewModel {
    const resources: Resources
    /** The injected `HandleQrCodeUseCase`. */
    const handleQrCode: string -> QrCodeProcessingResult

    /** The value of the `uiState` state flow. */
    var uiState: MainUiState
    /** Every event emitted on `eventFlow`, oldest first. */
    var events: seq<ViewEvent>
    /** Every payload passed to the use case, oldest first. */
    ghost var useCaseCalls: seq<string>

    /** A new view model is idle and has emitted nothing. */
    constructor (resources: Resources, handleQrCode: string -> QrCodeProcessingResult)
      ensures this.resources == resources && this.handleQrCode == handleQrCode
      ensures uiState == MainUiState(false) && events == [] && useCaseCalls == []
    {
      this.resources := resources;
      this.handleQrCode := handleQrCode;
      uiState := MainUiState(false);
      events := [];
      useCaseCalls := [];
    }

    /**
     * `onScanStarted`: marks a scan as running, whatever the state was, and emits
     * nothing; calling it again changes nothing more (there is no in-flight guard).
     */
    method OnScanStarted()
      modifies this`uiState
      ensures uiState == MainUiState(true)
      ensures events == old(events) && useCaseCalls == old(useCaseCalls)
    {
      uiState := uiState.(isScanning := true);
    }

    /**
     * `onScanSuccess`: the scan is over; a missing value gives the no-data toast
     * without consulting the use case, a value is handed to the use case once.
     */
    method OnScanSuccess(qrCodeValue: Option<string>)
      modifies this
      ensures uiState == MainUiState(false)
      ensures qrCodeValue.None? ==>
        events == old(events) + [ShowToast(resources.scanNoData)] && useCaseCalls == old(useCaseCalls)
      ensures qrCodeValue.Some? ==> useCaseCalls == old(useCaseCalls) + [qrCodeValue.value]
      ensures qrCodeValue.Some? && handleQrCode(qrCodeValue.value).Success? ==>
        events == old(events) + [StartActivity(handleQrCode(qrCodeValue.value).intent)]
      ensures qrCodeValue.Some? && handleQrCode(qrCodeValue.value).Error? ==>
        events == old(events) + [ShowToast(resources.cannotOpen(handleQrCode(qrCodeValue.value).originalQrCode))]
    {
      uiState := uiState.(isScanning := false);
      if qrCodeValue.Some? {
        ProcessQrCode(qrCodeValue.value);
      } else {
        events := events + [ShowToast(resources.scanNoData)];
      }
    }

    /** `onScanCanceled`: the scan is over and the canceled toast is shown. */
    method OnScanCanceled()
      modifies this
      ensures uiState == MainUiState(false)
      ensures events == old(events) + [ShowToast(resources.scanCanceled)]
      ensures useCaseCalls == old(useCaseCalls)
    {
      uiState := uiState.(isScanning := false);
      events := events + [ShowToast(resources.scanCanceled)];
    }

    /**
     * `onScanFailed(exception)`: the scan is over and the failure toast shows the
     * exception's message, or "Unknown error" when it has none.
     */
    method OnScanFailed(exceptionMessage: Option<string>)
      modifies this
      ensures uiState == MainUiState(false)
      ensures exceptionMessage.Some? ==>
        events == old(events) + [ShowToast(resources.scanFailedMessage(exceptionMessage.value))]
      ensures exceptionMessage.None? ==>
        events == old(events) + [ShowToast(resources.scanFailedMessage(UnknownError))]
      ensures useCaseCalls == old(useCaseCalls)
    {
      uiState := uiState.(isScanning := false);
      var detail := if exceptionMessage.Some? then exceptionMessage.value else UnknownError;
      events := events + [ShowToast(resources.scanFailedMessage(detail))];
    }

    /**
     * `processQrCode`: one call to the use case; `Success(intent)` starts that
     * intent, `Error(original)` shows the cannot-open toast for the original text.
     */
    method ProcessQrCode(qrCode: string)
      modifies this`events, this`useCaseCalls
      ensures useCaseCalls == old(useCaseCalls) + [qrCode]
      ensures handleQrCode(qrCode).Success? ==>
        events == old(events) + [StartActivity(handleQrCode(qrCode).intent)]
      ensures handleQrCode(qrCode).Error? ==>
        events == old(events) + [ShowToast(resources.cannotOpen(handleQrCode(qrCode).originalQrCode))]
    {
      useCaseCalls := useCaseCalls + [qrCode];
      var result := handleQrCode(qrCode);
      match result
      case Success(intent) =>
        events := events + [StartActivity(intent)];
      case Error(originalQrCode) =>
        events := events + [ShowToast(resources.cannotOpen(originalQrCode))];
    }
  }

  /**
   * The wiring of the view model's factory (default repository, use case, view
   * model) followed by one successful scan: exactly one event is emitted; it
   * starts an intent whose package, if any, the repository reported installed,
   * or it is the cannot-open toast for the scanned text when routing failed.
   */
  method ScanSuccessThroughUseCase(resources: Resources, parse: UriParser, repo: AppRepository, qrCode: string)
    returns (events: seq<ViewEvent>, uiState: MainUiState)
    ensures uiState == MainUiState(false) && |events| == 1
    ensures events[0].StartActivity? <==> Invoke(qrCode, parse, repo).result.Success?
    ensures events[0].StartActivity? ==>
      events[0].intent.action == ActionView && parse(qrCode) == Some(events[0].intent.data) &&
      (events[0].intent.pkg.Some? ==> repo(events[0].intent.pkg.value) == Some(true))
    ensures events[0].ShowToast? ==> events[0].message == resources.cannotOpen(qrCode)
  {
    var vm := new MainViewModel(resources, qr => Invoke(qr, parse, repo).result);
    vm.OnScanSuccess(Some(qrCode));
    events, uiState := vm.events, vm.uiState;
    RouterProperties.SuccessIsViewOfParsedUri(qrCode, parse, repo);
    RouterProperties.PackageIsInstalled(qrCode, parse, repo);
  }
}
