/** Value types of the trainings context that the handlers and the test pass around,
    and the cancellation balance rule that the functional test pins down. */
module Trainings {

  /** Who is acting: the two user types the trainings context knows. */
  datatype UserType = Trainer | Attendee

  datatype User = User(uuid: string, userType: UserType)

  /** A training as the handlers see it; times are whole hours on one clock. */
  datatype Training = Training(
    uuid: string,
    userUUID: string,
    userName: string,
    time: int,
    notes: string,
    canceled: bool)

  /** One call made to the user service's balance port. */
  datatype BalanceUpdate = BalanceUpdate(userID: string, amountChange: int)

  /** A training cancelled at least this many hours ahead is cancelled for free. */
  const FreeCancellationHours: int := 24

  /** The balance change a cancellation issues, given who cancels and when (`now`, in hours).
      Far enough ahead the owner gets the training back; later, a trainer's cancellation
      gives it back with one extra as compensation and an attendee's gives nothing back. */
  function CancelBalanceDelta(tr: Training, cancelingUserType: UserType, now: int): (delta: int)
    ensures 0 <= delta <= 2
    ensures delta == 1 <==> tr.time - now >= FreeCancellationHours
    ensures delta == 2 <==> tr.time - now < FreeCancellationHours && cancelingUserType == Trainer
    ensures delta == 0 <==> tr.time - now < FreeCancellationHours && cancelingUserType == Attendee
  {
    if tr.time - now >= FreeCancellationHours then 1
    else match cancelingUserType
      case Trainer => 2
      case Attendee => 0
  }

  /** The balance calls a cancellation makes: none when the delta is zero, otherwise one
      call crediting the training's owner (never the acting user). */
  function BalanceCredit(tr: Training, cancelingUserType: UserType, now: int): (calls: seq<BalanceUpdate>)
    ensures |calls| <= 1
    ensures calls == [] <==> CancelBalanceDelta(tr, cancelingUserType, now) == 0
    ensures forall c | c in calls :: c.userID == tr.userUUID && c.amountChange == CancelBalanceDelta(tr, cancelingUserType, now)
  {
    var delta := CancelBalanceDelta(tr, cancelingUserType, now);
    if delta == 0 then [] else [BalanceUpdate(tr.userUUID, delta)]
  }

  /** The state transition of a cancellation that the domain accepted. */
  function Cancelled(tr: Training): Training
  {
    tr.(canceled := true)
  }
}
