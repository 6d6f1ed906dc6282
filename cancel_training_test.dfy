/** The functional test of training cancellation: its in-memory repository with an
    update-by-function accessor, its two recording service mocks, the cancellation
    handler wired to them, and the table of expected balance changes. */
module CancelTrainingTest {
  import opened Errors
  import opened Trainings

  /** The test's repository: trainings keyed by UUID, updated through a callback. */
  class RepositoryMock {
    var trainings: map<string, Training>
    /** Every value handed to an update function, in the order of the calls. */
    ghost var updateFnInputs: seq<Training>

    constructor ()
      ensures trainings == map[] && updateFnInputs == []
    {
      trainings := map[];
      updateFnInputs := [];
    }

    /** Looks the training up, lets `updateFn` work on a copy of it and stores what it
        returns. An unknown UUID fails before `updateFn` runs; a failing `updateFn` leaves
        the store as it was. On success the stored training is also returned. */
    method UpdateTraining(trainingUUID: string, user: User, updateFn: Training -> Result<Training>)
      returns (r: Result<Training>)
      modifies this
      ensures trainingUUID !in old(trainings) ==>
        && r == Err(TrainingNotFound(trainingUUID))
        && trainings == old(trainings)
        && updateFnInputs == old(updateFnInputs)
      ensures trainingUUID in old(trainings) ==>
        && updateFnInputs == old(updateFnInputs) + [old(trainings)[trainingUUID]]
        && r == updateFn(old(trainings)[trainingUUID])
        && trainings == (if r.Ok? then old(trainings)[trainingUUID := r.value] else old(trainings))
    {
      if trainingUUID !in trainings {
        return Err(TrainingNotFound(trainingUUID));
      }
      var tr := trainings[trainingUUID];
      updateFnInputs := updateFnInputs + [tr];
      r := updateFn(tr);
      if r.Err? {
        return;
      }
      trainings := trainings[trainingUUID := r.value];
    }
  }

  /** Records every training time the trainer service is told to cancel; never fails. */
  class TrainerServiceMock {
    var trainingsCancelled: seq<int>

    constructor ()
      ensures trainingsCancelled == []
    {
      trainingsCancelled := [];
    }

    method CancelTraining(trainingTime: int)
      modifies this
      ensures trainingsCancelled == old(trainingsCancelled) + [trainingTime]
    {
      trainingsCancelled := trainingsCancelled + [trainingTime];
    }
  }

  /** Records every balance change the user service is asked for; never fails. */
  class UserServiceMock {
    var balanceUpdates: seq<BalanceUpdate>

    constructor ()
      ensures balanceUpdates == []
    {
      balanceUpdates := [];
    }

    method UpdateTrainingBalance(userID: string, amountChange: int)
      modifies this
      ensures balanceUpdates == old(balanceUpdates) + [BalanceUpdate(userID, amountChange)]
    {
      balanceUpdates := balanceUpdates + [BalanceUpdate(userID, amountChange)];
    }
  }

  /** The update function the cancellation hands to the repository: the domain either
      refuses (`refusal` returns its error) or the training becomes cancelled. */
  function CancelUpdate(user: User, refusal: (Training, User) -> Option<Error>): Training -> Result<Training>
  {
    (tr: Training) =>
      match refusal(tr, user)
      case Some(e) => Err(e)
      case None => Ok(Cancelled(tr))
  }

  datatype CancelTraining = CancelTraining(trainingUUID: string, user: User)

  /** The trainings context's cancellation handler, as the test wires and observes it. */
  class CancelTrainingHandler {
    const repo: RepositoryMock
    const userService: UserServiceMock
    const trainerService: TrainerServiceMock

    constructor (repo: RepositoryMock?, userService: UserServiceMock?, trainerService: TrainerServiceMock?)
      requires repo != null && userService != null && trainerService != null
      ensures this.repo == repo && this.userService == userService && this.trainerService == trainerService
    {
      this.repo := repo;
      this.userService := userService;
      this.trainerService := trainerService;
    }

    /** Cancels through the repository's update function; once the cancellation is stored,
        credits the owner when the balance rule gives a non-zero change and tells the
        trainer service the training's time. `now` is the current time in hours. */
    method Handle(cmd: CancelTraining, now: int, refusal: (Training, User) -> Option<Error>)
      returns (err: Option<Error>)
      modifies repo, userService, trainerService
      ensures cmd.trainingUUID !in old(repo.trainings) ==>
        && err == Some(TrainingNotFound(cmd.trainingUUID))
        && repo.trainings == old(repo.trainings)
        && repo.updateFnInputs == old(repo.updateFnInputs)
        && userService.balanceUpdates == old(userService.balanceUpdates)
        && trainerService.trainingsCancelled == old(trainerService.trainingsCancelled)
      ensures cmd.trainingUUID in old(repo.trainings) ==>
        var tr := old(repo.trainings)[cmd.trainingUUID];
        && repo.updateFnInputs == old(repo.updateFnInputs) + [tr]
        && (refusal(tr, cmd.user).Some? ==>
              && err == refusal(tr, cmd.user)
              && repo.trainings == old(repo.trainings)
              && userService.balanceUpdates == old(userService.balanceUpdates)
              && trainerService.trainingsCancelled == old(trainerService.trainingsCancelled))
        && (refusal(tr, cmd.user).None? ==>
              && err == None
              && repo.trainings == old(repo.trainings)[cmd.trainingUUID := Cancelled(tr)]
              && userService.balanceUpdates
                 == old(userService.balanceUpdates) + BalanceCredit(tr, cmd.user.userType, now)
              && trainerService.trainingsCancelled == old(trainerService.trainingsCancelled) + [tr.time])
    {
      var r := repo.UpdateTraining(cmd.trainingUUID, cmd.user, CancelUpdate(cmd.user, refusal));
      if r.Err? {
        return Some(r.error);
      }
      var tr := r.value;
      var delta := CancelBalanceDelta(tr, cmd.user.userType, now);
      if delta != 0 {
        userService.UpdateTrainingBalance(tr.userUUID, delta);
      }
      trainerService.CancelTraining(tr.time);
      err := None;
    }
  }

  /** One row of the test table: who cancels, whose training it is, how many hours ahead,
      and the balance change the test expects. */
  datatype TestCase = TestCase(
    name: string,
    userType: UserType,
    trainingOwner: string,
    hoursAhead: int,
    shouldUpdateBalance: bool,
    expectedBalanceChange: int)

  const RequestingUserID: string := "requesting-user-id"
  const AnyTrainingUUID: string := "any-training-uuid"

  const TestCases: seq<TestCase> := [
    TestCase("return_training_balance_when_attendee_cancels", Attendee, RequestingUserID, 48, true, 1),
    TestCase("return_training_balance_when_trainer_cancels", Trainer, "trainer-id", 48, true, 1),
    TestCase("extra_training_balance_when_trainer_cancels_before_24h", Trainer, "trainer-id", 12, true, 2),
    TestCase("no_training_balance_returned_when_attendee_cancels_before_24h", Attendee, RequestingUserID, 12, false, 0)
  ]

  /** Runs one row: a fresh repository holding only `tr` (the example training the row builds,
      accepted for cancellation by the domain), fresh mocks, one cancellation by the
      requesting user. Returns what the test inspects. */
  method RunTestCase(tc: TestCase, now: int, tr: Training, refusal: (Training, User) -> Option<Error>)
    returns (err: Option<Error>, balanceUpdates: seq<BalanceUpdate>, trainingsCancelled: seq<int>)
    requires tc in TestCases
    requires tr.userUUID == tc.trainingOwner && tr.time == now + tc.hoursAhead
    requires refusal(tr, User(RequestingUserID, tc.userType)).None?
    ensures err == None
    ensures tc.shouldUpdateBalance ==> balanceUpdates == [BalanceUpdate(tr.userUUID, tc.expectedBalanceChange)]
    ensures !tc.shouldUpdateBalance ==> balanceUpdates == []
    ensures trainingsCancelled == [tr.time]
  {
    var repository := new RepositoryMock();
    var trainerService := new TrainerServiceMock();
    var userService := new UserServiceMock();
    var handler := new CancelTrainingHandler(repository, userService, trainerService);
    repository.trainings := map[AnyTrainingUUID := tr];
    err := handler.Handle(CancelTraining(AnyTrainingUUID, User(RequestingUserID, tc.userType)), now, refusal);
    balanceUpdates := userService.balanceUpdates;
    trainingsCancelled := trainerService.trainingsCancelled;
  }
}
