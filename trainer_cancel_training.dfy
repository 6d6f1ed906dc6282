/** The trainer context's CancelTraining command: free the hour a training occupied, by
    an update of that one hour, reporting every failure as one slug error. */
module TrainerCancelTraining {
  import opened Errors
  import opened Hours

  datatype CancelTraining = CancelTraining(hour: int)

  const UnableToUpdateAvailability: string := "unable-to-update-availability"

  /** The update function handed to the repository: the hour's own CancelTraining runs on
      the fetched hour; if it fails its error is returned and the hour it left behind is
      dropped, otherwise that hour is the one to store. */
  function CancelTrainingUpdate(cancelTraining: Hour -> HourChange): Hour -> Result<Hour>
  {
    (h: Hour) =>
      var change := cancelTraining(h);
      if change.err.Some? then Err(change.err.value) else Ok(change.hour)
  }

  /** The slug error every failure of the update becomes; it keeps the failure's text. */
  function UnableToUpdate(e: Error): (s: Error)
    ensures s.SlugError? && s.slug == UnableToUpdateAvailability
    ensures Message(s) == Message(e)
  {
    SlugError(Message(e), UnableToUpdateAvailability)
  }

  class CancelTrainingHandler {
    const hourRepo: HourRepository

    /** An absent repository is a wiring mistake that stops the program. */
    constructor (hourRepo: HourRepository?)
      requires hourRepo != null
      ensures this.hourRepo == hourRepo
    {
      this.hourRepo := hourRepo;
    }

    /** Updates only the hour at `cmd.hour`; succeeds exactly when the update does. */
    method Handle(cmd: CancelTraining, cancelTraining: Hour -> HourChange) returns (err: Option<Error>)
      modifies hourRepo
      ensures var r := old(hourRepo.UpdateResult(cmd.hour, CancelTrainingUpdate(cancelTraining)));
        && (r.Err? ==> err == Some(UnableToUpdate(r.error)) && hourRepo.hours == old(hourRepo.hours))
        && (r.Ok? ==> err == None && hourRepo.hours == old(hourRepo.hours)[cmd.hour := r.value])
      // in terms of the hour's own CancelTraining on the fetched hour
      ensures var fetched := old(hourRepo.GetHour(cmd.hour));
        && (fetched.Err? ==> err == Some(UnableToUpdate(fetched.error)) && hourRepo.hours == old(hourRepo.hours))
        && (fetched.Ok? && cancelTraining(fetched.value).err.Some? ==>
              && err == Some(UnableToUpdate(cancelTraining(fetched.value).err.value))
              && hourRepo.hours == old(hourRepo.hours))
        && (fetched.Ok? && cancelTraining(fetched.value).err.None? ==>
              && err == None
              && hourRepo.hours == old(hourRepo.hours)[cmd.hour := cancelTraining(fetched.value).hour])
    {
      var e := hourRepo.UpdateHour(cmd.hour, CancelTrainingUpdate(cancelTraining));
      if e.Some? {
        return Some(UnableToUpdate(e.value));
      }
      err := None;
    }
  }
}
