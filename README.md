# Trainer and trainings application core, modelled in Dafny

This project models the application core of a two-context scheduling backend. In the
**trainer** context, hours can be made available, booked and freed. In the **trainings**
context, attendees book trainings against a balance of trainings. The model covers:

- update-by-function repositories: a keyed store hands a copy of the current value to a
  caller's callback and stores the callback's result only when the callback succeeds;
- the `ScheduleTraining` command: build, store, debit the balance, book the trainer, in
  that fixed order, with no rollback;
- the trainer-side `CancelTraining` command and the `HourAvailability` query over the hour
  store;
- the trainer HTTP adapter: the mapping from the available-hours read model to the response
  body, and the role gate in front of the hour commands;
- the functional test of training cancellation: its repository mock, its two recording
  service mocks and its table of expected balance changes.

Modules (one per file):

| file | module | models |
|---|---|---|
| errors.dfy | `Errors` | the error kinds (plain, not-found, wrapped, slug) and their messages |
| trainings.dfy | `Trainings` | training, user and balance-update values; the balance rule the test pins down |
| cancel_training_test.dfy | `CancelTrainingTest` | `internal/trainings/tests/functional/cancel_training_test.go` |
| schedule_training.dfy | `ScheduleTrainingCommand` | `internal/trainings/src/application/command/schedule_training.go` |
| hours.dfy | `Hours` | the hour value and the hour repository's read and update accessors |
| trainer_cancel_training.dfy | `TrainerCancelTraining` | `internal/trainer/src/application/command/cancel_training.go` |
| hour_availability.dfy | `HourAvailabilityQuery` | `internal/trainer/src/application/query/hour_availability.go` |
| trainer_http.dfy | `TrainerHttp` | `internal/trainer/src/presentation/http/http.go` |

State that the Go code changes in place is modelled as classes:
- the repositories' maps and logs are fields;
- the service ports and mocks are append-only `seq` logs of the calls they received.

Pure decisions are modelled as functions. The domain methods whose bodies are not part of
this model are function-typed parameters. `Hour.CancelTraining`, `NewTraining` and the check
by which `Training.Cancel` may refuse can each fail. `Hour.IsAvailable` is a plain
`Hour -> bool`.

Remote answers and request inputs are also parameters:
- what the store and the remote services reply (`reply`, `Replies`);
- the authenticated user;
- the decoded request body;
- the current time, as a whole number of hours.

A nil dependency makes a handler constructor panic. The model states this as the
constructor's precondition.

The trainings-side cancellation handler works only through `UpdateTraining`. The test's
`GetTraining` only panics (cancel_training_test.go:148-150), so a handler that passes the
test cannot fetch the training any other way.

## Model

| member | source | states |
|---|---|---|
| `Trainings.CancelBalanceDelta` | internal/trainings/tests/functional/cancel_training_test.go:33-67 | Cancelling 24 hours or more ahead gives +1 to either actor. Later, a trainer's cancellation gives +2 and an attendee's gives 0. The result is always between 0 and 2. |
| `Trainings.BalanceCredit` | internal/trainings/tests/functional/cancel_training_test.go:95-101 | A cancellation with a zero delta makes no balance call. Otherwise it makes exactly one call, crediting the training's owner with the delta. |
| `Errors.Message` | internal/trainings/tests/functional/cancel_training_test.go:160 | Definition, no contract of its own: the not-found text is "training '<uuid>' not found". A wrapped error reads "<context>: <cause's text>". A slug error reads as its text. |
| `CancelTrainingTest.RepositoryMock.UpdateTraining` | internal/trainings/tests/functional/cancel_training_test.go:152-171 | An absent UUID fails with "training '<uuid>' not found". The update function is then not invoked and the map is unchanged. Otherwise the update function is invoked exactly once, on the stored value. Its error is returned unchanged and nothing is written. On success its result replaces that one key and every other key stays as it was. |
| `CancelTrainingTest.TrainerServiceMock.CancelTraining` | internal/trainings/tests/functional/cancel_training_test.go:189-192 | Appends exactly the given time at the end of the log and keeps the earlier entries in order. |
| `CancelTrainingTest.UserServiceMock.UpdateTrainingBalance` | internal/trainings/tests/functional/cancel_training_test.go:203-206 | Appends exactly one (user, amount) entry at the end of the log and keeps the earlier entries in order. |
| `CancelTrainingTest.CancelUpdate` | internal/trainings/tests/functional/cancel_training_test.go:152-171 | Definition, no contract of its own: the callback the cancellation passes to `UpdateTraining`. The domain's refusal is returned as the callback's error. Otherwise the training comes back cancelled. Its effect is stated in `CancelTrainingTest.CancelTrainingHandler.Handle`. |
| `CancelTrainingTest.CancelTrainingHandler.Handle` | internal/trainings/tests/functional/cancel_training_test.go:83-104 | Not found: the update function never runs. Not found or refused by the domain: the error is returned, nothing is stored and neither service is called. Accepted: the training is stored as cancelled and the owner is credited per the balance rule (no call when the delta is 0). The trainer service is told the training's original time exactly once. |
| `CancelTrainingTest.RunTestCase` | internal/trainings/tests/functional/cancel_training_test.go:21-105 | For every row of the table, using fresh mocks: when the domain accepts the cancellation (a precondition, not proved), the cancellation succeeds. There is exactly one balance update, for the owner and by the expected amount, when the row expects one, and none otherwise. Exactly one trainer cancellation is made, with the training's time. |
| `ScheduleTrainingCommand.Scheduling` | internal/trainings/src/application/command/schedule_training.go:57-81 | Success exactly when all four steps succeed, and then the training is stored, the owner is debited −1 and the trainer is called with the training's time. A build failure or a refused write is returned unchanged and touches nothing after it. The balance call is exactly −1 for the built training's owner, and only after the write. A failed balance call is wrapped "unable to change trainings balance" and the trainer is not called. The trainer is called with the training's time only after the balance call. Its failure is wrapped "unable to schedule training". Neither failure undoes the stored training, and the second does not undo the balance change either. |
| `ScheduleTrainingCommand.ScheduleTrainingHandler.Handle` | internal/trainings/src/application/command/schedule_training.go:57-82 | The returned error, the repository's contents and the two ports' logs are exactly the effects `Scheduling` gives for that build result and those replies. |
| `ScheduleTrainingCommand.ScheduleTrainingHandler.constructor` | internal/trainings/src/application/command/schedule_training.go:33-55 | Needs a non-nil repository, user service and trainer service, and keeps the three it is given. |
| `ScheduleTrainingCommand.TrainingRepository.AddTraining` | internal/trainings/src/application/command/schedule_training.go:67-69 | Returns the store's answer, and stores the training only when the answer is success. |
| `ScheduleTrainingCommand.UserService.UpdateTrainingBalance` | internal/trainings/src/application/command/schedule_training.go:71-74 | Records the call whatever the answer, and returns the service's answer. |
| `ScheduleTrainingCommand.TrainerService.ScheduleTraining` | internal/trainings/src/application/command/schedule_training.go:76-79 | Records the time whatever the answer, and returns the service's answer. |
| `ScheduleTrainingCommand.ConstructorPanicMisnamesUserService` | internal/trainings/src/application/command/schedule_training.go:40-45 | As written, a nil user service panics with the same message as a nil repository, not "nil userService". |
| `ScheduleTrainingCommand.ConstructorPanicAsWritten` | internal/trainings/src/application/command/schedule_training.go:40-48 | As written: panics exactly when a dependency is nil. The only panic messages are "nil repo" and "nil trainerService". |
| `ScheduleTrainingCommand.ConstructorPanic` | internal/trainings/src/application/command/schedule_training.go:40-48 | The corrected behaviour from "## Findings", which line 44 does not follow: panics exactly when a dependency is nil, and names the first missing dependency by its own name. |
| `ScheduleTrainingCommand.ConstructorPanicDistinguishes` | internal/trainings/src/application/command/schedule_training.go:40-48 | With the corrected messages, each missing dependency gives a different message. |
| `Hours.HourRepository.GetHour` | internal/trainer/src/application/query/hour_availability.go:39 | Definition, no contract of its own: the stored hour when the time is stored, otherwise the factory's hour or its error. `UpdateHour` and both trainer handlers are stated over it. |
| `Hours.HourRepository.UpdateHour` | internal/trainer/src/application/command/cancel_training.go:40-45 | Returns the read's or the update function's error, and then stores nothing. On success it stores the update function's result under that time only. Afterwards a read of that time gives the stored hour, and a read of any other time gives what it gave before. |
| `TrainerCancelTraining.CancelTrainingUpdate` | internal/trainer/src/application/command/cancel_training.go:40-44 | Definition, no contract of its own: the callback runs the hour's `CancelTraining`. On failure it returns that error and drops the hour; otherwise it returns the hour as the method left it. Its promises are stated in `TrainerCancelTraining.CancelTrainingHandler.Handle`. |
| `TrainerCancelTraining.UnableToUpdate` | internal/trainer/src/application/command/cancel_training.go:45-47 | A failed update becomes a slug error with slug "unable-to-update-availability" that keeps the failure's message text. |
| `TrainerCancelTraining.CancelTrainingHandler.Handle` | internal/trainer/src/application/command/cancel_training.go:39-50 | Only the hour at `cmd.hour` can change. A failed read gives the slug error for that failure. If the hour's `CancelTraining` fails, nothing is stored, not even changes the method already made, and the slug error carries that method's error. Otherwise nil is returned and the hour as `CancelTraining` left it is stored. |
| `TrainerCancelTraining.CancelTrainingHandler.constructor` | internal/trainer/src/application/command/cancel_training.go:23-37 | Needs a non-nil hour repository and keeps it. |
| `HourAvailabilityQuery.HourAvailabilityHandler.Handle` | internal/trainer/src/application/query/hour_availability.go:38-45 | The error is exactly the read's error, and nil when the read succeeds. The answer is true exactly when the read succeeds and the hour reports itself available, so a failed read gives false. It only reads the store. |
| `HourAvailabilityQuery.HourAvailabilityHandler.constructor` | internal/trainer/src/application/query/hour_availability.go:22-36 | Needs a non-nil hour repository and keeps it. |
| `TrainerHttp.HoursToResponse` | internal/trainer/src/presentation/http/http.go:42-49 | One response hour per read-model hour, in order, each copying Available, HasTrainingScheduled and Hour. |
| `TrainerHttp.DatesToResponse` | internal/trainer/src/presentation/http/http.go:51-57 | One response date per read-model date, in order, each copying Date and HasFreeHours and converting its hours in order. |
| `TrainerHttp.DateModelsToResponse` | internal/trainer/src/presentation/http/http.go:39-61 | The nested loops build exactly `DatesToResponse` of the input. One date per input date, in input order, with Date and HasFreeHours copied. One hour per input hour, in order, with its three fields copied. |
| `TrainerHttp.HoursRoundTrip` | internal/trainer/src/presentation/http/http.go:42-49 | The response hours determine the read-model hours: reading them back gives the input. |
| `TrainerHttp.ResponseRoundTrip` | internal/trainer/src/presentation/http/http.go:39-61 | The response values lose nothing: reading the read model back from them gives the input exactly. The rendered JSON is not covered (see "## Left out"). |
| `TrainerHttp.HourUpdateEndpoint` | internal/trainer/src/presentation/http/http.go:63-115 | Definition, no contract of its own: the body the two hour endpoints share. Its outcomes are stated in `TrainerHttp.MakeHourAvailable` and `TrainerHttp.MakeHourUnavailable`. |
| `TrainerHttp.MakeHourAvailable` | internal/trainer/src/presentation/http/http.go:63-88 | The command is issued exactly when the user is known, the role is "trainer" and the body decodes. It is then MakeHoursAvailable with the decoded hours. An unknown user, or a body that does not decode, gives that error. A non-trainer role gives Unauthorised "invalid-role". The response is 204 exactly when the command was issued and succeeded, and the command's error otherwise. |
| `TrainerHttp.MakeHourUnavailable` | internal/trainer/src/presentation/http/http.go:90-115 | The same gate and choice of response, issuing MakeHoursUnavailable with the decoded hours. |
| `TrainerHttp.GetTrainerAvailableHours` | internal/trainer/src/presentation/http/http.go:25-37 | Queries the requested range. A failed query gives its error and renders no dates. A successful query renders the mapped dates. |

## Left out

- The logging, metrics and panic-isolation decorators and the command-execution log line (schedule_training.go:58-60). They are observability and are not part of this model.
- Request contexts, cancellation, concurrency and atomicity across writers. The modelled code is sequential.
- Wall-clock time. Times are whole hours, and the current time is a parameter.
- The bodies of `Hour.CancelTraining`, `Hour.IsAvailable`, `NewTraining` and `Training.Cancel` are not part of this model. They are parameters: the first, third and fourth may fail, and `Hour.IsAvailable` only answers a bool. No hour or training rule beyond the balance table is assumed.
- The domain's own cancellation transition is not part of this model. An accepted cancellation sets only the `canceled` flag (the function `Cancelled` in trainings.dfy).
- `Trainings.CancelBalanceDelta`: the test pins only 48 and 12 hours ahead. The 24-hour threshold comes from the test case names ending in `_before_24h` (cancel_training_test.go:52, 61). Making it inclusive at exactly 24 hours is the model's choice.
- `CancelTrainingTest.CancelTrainingHandler.Handle`: the trainings-side cancellation handler is not part of this model, so its steps are modelled as the test observes them. The test's mocks cannot fail, so the handler's own wrapping of failing service calls is not modelled.
- `CancelTrainingTest.RepositoryMock.UpdateTraining` also returns the stored training on success. This stands in for the Go handler's callback capturing the training in its closure.
- The mock methods that only panic as unimplemented: `GetTraining`, `AddTraining`, `MoveTraining`, `ScheduleTraining`.
- The hour repository's implementation is not part of this model. `Hours.HourRepository` states the update-by-function contract, and an abstract factory builds the hour for a slot never stored.
- `ScheduleTrainingCommand.TrainingRepository.AddTraining`: how a real store treats a duplicate UUID is not part of this model. The store's answer is a parameter and a successful write is appended to a log.
- The trainings-for-user query (trainings_for_user.go:41-43) only passes its argument to a read model.
- JSON decoding, response writing, `auth.UserFromCtx` and the mapping of errors to HTTP statuses. These are inputs and an outcome datatype.
- `TrainerHttp.DateModelsToResponse`: Go keeps an empty result as a nil slice, which renders as JSON null rather than an empty list. The model does not tell nil from empty.

## Findings

| source | as written | input that shows it | evidently intended | confidence | as-written member | corrected member |
|---|---|---|---|---|---|---|
| internal/trainings/src/application/command/schedule_training.go:43-45 | a nil userService panics with "nil repo" | repo and trainerService present, userService nil | panic with a message naming the user service, "nil userService" | high; not executed | `ScheduleTrainingCommand.ConstructorPanicAsWritten` (shown by `ScheduleTrainingCommand.ConstructorPanicMisnamesUserService`) | `ScheduleTrainingCommand.ConstructorPanic` (proved by `ScheduleTrainingCommand.ConstructorPanicDistinguishes`; the handler's constructor requires it to report no panic) |
