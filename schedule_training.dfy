/** The ScheduleTraining command of the trainings context: build the training, store it,
    take one training off the owner's balance, then book the hour with the trainer
    service. Each step can fail and a failure ends the command; nothing is undone. */
module ScheduleTrainingCommand {
  import opened Errors
  import opened Trainings

  datatype ScheduleTraining = ScheduleTraining(
    trainingUUID: string,
    userUUID: string,
    userName: string,
    trainingTime: int,
    notes: string)

  /** The trainings repository as this command uses it: the trainings it has stored, in
      order. Whether a write succeeds is the store's answer, passed in as `reply`. */
  class TrainingRepository {
    var added: seq<Training>

    constructor ()
      ensures added == []
    {
      added := [];
    }

    method AddTraining(tr: Training, reply: Option<Error>) returns (err: Option<Error>)
      modifies this
      ensures err == reply
      ensures added == if reply.None? then old(added) + [tr] else old(added)
    {
      err := reply;
      if reply.None? {
        added := added + [tr];
      }
    }
  }

  /** The user service port: every balance change asked for, whether or not it succeeded. */
  class UserService {
    var balanceUpdates: seq<BalanceUpdate>

    constructor ()
      ensures balanceUpdates == []
    {
      balanceUpdates := [];
    }

    method UpdateTrainingBalance(userID: string, amountChange: int, reply: Option<Error>)
      returns (err: Option<Error>)
      modifies this
      ensures err == reply
      ensures balanceUpdates == old(balanceUpdates) + [BalanceUpdate(userID, amountChange)]
    {
      balanceUpdates := balanceUpdates + [BalanceUpdate(userID, amountChange)];
      err := reply;
    }
  }

  /** The trainer service port: every training time it was asked to schedule. */
  class TrainerService {
    var trainingsScheduled: seq<int>

    constructor ()
      ensures trainingsScheduled == []
    {
      trainingsScheduled := [];
    }

    method ScheduleTraining(trainingTime: int, reply: Option<Error>) returns (err: Option<Error>)
      modifies this
      ensures err == reply
      ensures trainingsScheduled == old(trainingsScheduled) + [trainingTime]
    {
      trainingsScheduled := trainingsScheduled + [trainingTime];
      err := reply;
    }
  }

  /** What the store and the two remote services answer to the calls made to them. */
  datatype Replies = Replies(add: Option<Error>, balance: Option<Error>, schedule: Option<Error>)

  /** The effects of one command: what the repository stored, what each port was asked,
      and what the command returned. */
  datatype Effects = Effects(
    added: seq<Training>,
    balanceUpdates: seq<BalanceUpdate>,
    trainingsScheduled: seq<int>,
    err: Option<Error>)

  const BalanceErrorContext: string := "unable to change trainings balance"
  const ScheduleErrorContext: string := "unable to schedule training"

  /** The effects of the command, given what building the training gave (`built`) and the
      collaborators' answers. */
  function Scheduling(built: Result<Training>, replies: Replies): (run: Effects)
    // success exactly when all four steps succeed
    ensures run.err.None? <==>
      built.Ok? && replies.add.None? && replies.balance.None? && replies.schedule.None?
    // a training that cannot be built touches nothing
    ensures built.Err? ==> run == Effects([], [], [], Some(built.error))
    // when every step succeeds: stored, debited -1 for the owner, booked at the training's time
    ensures built.Ok? && replies == Replies(None, None, None) ==>
      run == Effects([built.value], [BalanceUpdate(built.value.userUUID, -1)], [built.value.time], None)
    // a refused write is returned as it is, and neither service is called
    ensures built.Ok? && replies.add.Some? ==> run == Effects([], [], [], replies.add)
    // the balance port is asked once, for -1 on the training's owner, and only after the write
    ensures run.balanceUpdates != [] ==>
      && built.Ok? && replies.add.None?
      && run.added == [built.value]
      && run.balanceUpdates == [BalanceUpdate(built.value.userUUID, -1)]
    // a failed balance change is wrapped, the trainer is not called, the training stays stored
    ensures built.Ok? && replies.add.None? && replies.balance.Some? ==>
      run == Effects([built.value], [BalanceUpdate(built.value.userUUID, -1)], [],
                     Some(Wrapped(BalanceErrorContext, replies.balance.value)))
    // the trainer is asked once, for the training's time, and only after the balance change
    ensures run.trainingsScheduled != [] ==>
      && built.Ok? && replies.add.None? && replies.balance.None?
      && run.trainingsScheduled == [built.value.time]
    // a failed booking is wrapped; neither the stored training nor the balance change is undone
    ensures built.Ok? && replies.add.None? && replies.balance.None? && replies.schedule.Some? ==>
      run == Effects([built.value], [BalanceUpdate(built.value.userUUID, -1)], [built.value.time],
                     Some(Wrapped(ScheduleErrorContext, replies.schedule.value)))
  {
    match built
    case Err(e) => Effects([], [], [], Some(e))
    case Ok(tr) =>
      if replies.add.Some? then Effects([], [], [], replies.add)
      else
        var balanceCall := [BalanceUpdate(tr.userUUID, -1)];
        if replies.balance.Some? then
          Effects([tr], balanceCall, [], Some(Wrapped(BalanceErrorContext, replies.balance.value)))
        else if replies.schedule.Some? then
          Effects([tr], balanceCall, [tr.time], Some(Wrapped(ScheduleErrorContext, replies.schedule.value)))
        else
          Effects([tr], balanceCall, [tr.time], None)
  }

  /** The handler: holds the repository and the two ports it was constructed with. */
  class ScheduleTrainingHandler {
    const repo: TrainingRepository
    const userService: UserService
    const trainerService: TrainerService

    /** Absent dependencies are a wiring mistake that stops the program, so the
        constructor demands all three. */
    constructor (repo: TrainingRepository?, userService: UserService?, trainerService: TrainerService?)
      requires ConstructorPanic(repo == null, userService == null, trainerService == null).None?
      ensures this.repo == repo && this.userService == userService && this.trainerService == trainerService
    {
      this.repo := repo;
      this.userService := userService;
      this.trainerService := trainerService;
    }

    /** Runs the four steps in order. `newTraining` builds the training from the command's
        identifiers, owner and time, and may refuse. */
    method Handle(cmd: ScheduleTraining, newTraining: (string, string, string, int) -> Result<Training>,
                  replies: Replies)
      returns (err: Option<Error>)
      modifies repo, userService, trainerService
      ensures
        var run := Scheduling(newTraining(cmd.trainingUUID, cmd.userUUID, cmd.userName, cmd.trainingTime), replies);
        && err == run.err
        && repo.added == old(repo.added) + run.added
        && userService.balanceUpdates == old(userService.balanceUpdates) + run.balanceUpdates
        && trainerService.trainingsScheduled == old(trainerService.trainingsScheduled) + run.trainingsScheduled
    {
      var built := newTraining(cmd.trainingUUID, cmd.userUUID, cmd.userName, cmd.trainingTime);
      if built.Err? {
        return Some(built.error);
      }
      var tr := built.value;
      err := repo.AddTraining(tr, replies.add);
      if err.Some? {
        return;
      }
      err := userService.UpdateTrainingBalance(tr.userUUID, -1, replies.balance);
      if err.Some? {
        return Some(Wrapped(BalanceErrorContext, err.value));
      }
      err := trainerService.ScheduleTraining(tr.time, replies.schedule);
      if err.Some? {
        return Some(Wrapped(ScheduleErrorContext, err.value));
      }
      err := None;
    }
  }

  /** The message the handler's constructor panics with, AS WRITTEN: checked in the order
      repo, userService, trainerService, with the userService check reusing the repo's text. */
  function ConstructorPanicAsWritten(repoNil: bool, userServiceNil: bool, trainerServiceNil: bool): (p: Option<string>)
    ensures p.None? <==> !repoNil && !userServiceNil && !trainerServiceNil
    ensures p.Some? ==> p.value in {"nil repo", "nil trainerService"}
  {
    if repoNil then Some("nil repo")
    else if userServiceNil then Some("nil repo")
    else if trainerServiceNil then Some("nil trainerService")
    else None
  }

  /** A missing user service panics with the message of a missing repository. */
  lemma ConstructorPanicMisnamesUserService()
    ensures ConstructorPanicAsWritten(false, true, false) == ConstructorPanicAsWritten(true, false, false)
    ensures ConstructorPanicAsWritten(false, true, false) != Some("nil userService")
  {
  }

  /** The message the constructor panics with, as evidently intended: the first absent
      dependency, by its own name; no panic when all three are present. */
  function ConstructorPanic(repoNil: bool, userServiceNil: bool, trainerServiceNil: bool): (p: Option<string>)
    ensures p.None? <==> !repoNil && !userServiceNil && !trainerServiceNil
    ensures repoNil ==> p == Some("nil repo")
    ensures !repoNil && userServiceNil ==> p == Some("nil userService")
    ensures !repoNil && !userServiceNil && trainerServiceNil ==> p == Some("nil trainerService")
  {
    if repoNil then Some("nil repo")
    else if userServiceNil then Some("nil userService")
    else if trainerServiceNil then Some("nil trainerService")
    else None
  }

  /** With the intended messages, each missing dependency names itself: distinct messages. */
  lemma ConstructorPanicDistinguishes()
    ensures ConstructorPanic(true, false, false) != ConstructorPanic(false, true, false)
    ensures ConstructorPanic(false, true, false) != ConstructorPanic(false, false, true)
    ensures ConstructorPanic(true, false, false) != ConstructorPanic(false, false, true)
  {
  }
}
