/**
 * The screen and the view-model together. The first effect run calls
 * `onPermissionsResult`; the host is assumed to answer it with `initialLoad`,
 * as the app's other screens are wired. A caught write failure is then
 * reported once, however often the effect runs again on the same state.
 */
module Scenarios {
  import opened Wrappers
  import opened Exceptions
  import opened JavaTime
  import opened HealthConnect
  import opened Uuids
  import opened ViewModel
  import opened Screen

  method ErrorReportedOnce(now: Instant, timestamp: LocalDateTime)
  {
    var uuids := new UuidSource();
    var gateway := new HealthConnectGateway();
    var viewModel := new HeartRateViewModel(gateway, uuids);
    var screen := new HeartRateScreen(uuids);

    var callbacks := screen.RunEffect(viewModel.uiState);
    assert callbacks == [PermissionsResult];
    // The host's answer to `onPermissionsResult`.
    var escaped := viewModel.InitialLoad(Completed(true), now, Completed([]));
    assert viewModel.uiState == Done && escaped == None;

    var failure := Thrown(IOException, "disk full");
    WorkflowCatches(IOException);
    escaped := viewModel.InsertHeartRate(70, timestamp, 0, Completed(true), Threw(failure));
    assert viewModel.uiState.Error? && escaped == None;
    assert screen.errorId != viewModel.uiState.uuid;

    callbacks := screen.RunEffect(viewModel.uiState);
    assert callbacks == [ErrorReported(failure)];
    callbacks := screen.RunEffect(viewModel.uiState);
    assert callbacks == [];
  }
}
