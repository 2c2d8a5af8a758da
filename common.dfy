/** Shared vocabulary of the gym backend model: keys, dates, optional values and the
    errors the backend raises. */
module Common {

  /** A primary key. Django's auto-increment ids start at 1, so a stored row never has
      id 0 and Python's `not self.id` holds exactly when the id is missing. */
  type Pk = k: int | k > 0 witness 1

  /** A calendar date as an unbounded day number; `date + timedelta(days=n)` is `date + n`
      (the OverflowError Python raises past 9999-12-31 is not modelled). */
  type Date = int

  datatype Option<T> = None | Some(value: T) {
    function GetOr(default: T): T {
      if Some? then value else default
    }
  }

  /** The exceptions the core raises, one per distinct raise site. */
  datatype Error =
    | NoRemainingSessions       // Schedule.save: ValueError when the package balance is <= 0
    | DoesNotExist              // Schedule.save: objects.get finds no stored row
    | MissingEndDate            // MemberPackage.save: `None < date` raises TypeError
    | PtRatingWithoutPt         // Review.save: ValueError
    | NotFound                  // get_object outside the actor's queryset (HTTP 404)
    | ScheduleUpdateDenied      // ScheduleViewSet.perform_update: ValidationError
    | OnlyMembersReview         // ReviewViewSet.perform_create: ValidationError
    | NotReviewOwner            // ReviewViewSet.perform_update: ValidationError
    | OnlyPtsRecordProgress     // ProgressViewSet.perform_create: ValidationError
    | NotProgressAuthor         // ProgressViewSet.perform_update: ValidationError
    | PermissionDenied          // a permission class refuses the request

  datatype Result<T> = Ok(value: T) | Err(error: Error)
}
