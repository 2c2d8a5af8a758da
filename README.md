# Gym management backend: membership and PT-schedule lifecycle

This project models the logic of a gym-management REST backend. The backend has users
in three roles: admin, personal trainer (PT) and member. Members buy membership packages
and book PT sessions. What the model covers:

- **Membership packages** (`MemberPackage.save`). On the first save, the end date is
  derived from the package type: 30, 90 or 365 days after the start date. The balance of
  PT sessions is copied from the package. Every save marks the membership expired once
  its end date is before today.
- **PT schedules** (`Schedule.save`). A schedule with both a PT and a member package
  cannot be saved while the package has no sessions left. Each move of a stored schedule
  that has a PT and a package into `approved` takes exactly one session from the package. That is one session per
  approval, not per booking.
- **Smaller rules.** The review guard (no PT rating without a PT) and a member profile's
  BMI.
- **Role rules of the REST view sets.** Who sees, creates and updates schedules, reviews,
  progress records and memberships. Who may change packages. What a PATCH of the current
  user changes.

How the model is built:

- Dates are day numbers, and "today" is a parameter.
- The database is the class `Store.Database`, with one map from primary key to row per
  table. Primary keys are positive, because Django never issues id 0. So Python's
  `not self.id` is "the id is None".
- An instance that has not been stored yet (`_state.adding`) is one without an id.
- The status that `objects.get(pk=…)` reads back comes from the schedules table
  (`Models.Prior`).
- Each save method of `Store.Database` works on the instance step by step and then writes
  the row. Its postcondition equals a pure definition in `Models`, and the lemmas are
  stated about those definitions.

Behaviours of the code worth knowing, all of which the model follows:

- An unrecognised package type raises no error. The end date stays as supplied. If none
  was supplied, Python compares `None` with a date and fails (`MissingEndDate`).
- The code does not set the status to active on creation. It keeps the field's value
  (the default is active).
- There is no transition graph and no "invalid transition" error. A PT may set any
  status.
- A member's update is not refused. It is saved with the status put back to `pending`.
- A new schedule keeps the status it was sent with. A schedule created already
  `approved` consumes no session (`Models.CreationNeverConsumes`).
- The balance is checked on every save of a schedule with a PT and a package, not only
  on approval. Once the last session is taken, even the schedule that took it cannot be
  saved again, for example to mark it completed (`Models.ExhaustedPackageBlocksEverySave`).
- Package writes need the staff flag, not the `admin` role (`Views.PackageAccess`).
- One booking can take several sessions. A PT approves it, its member edits it and the
  edit puts it back to `pending`, then a PT approves it again: that is two sessions
  (`Models.ReapprovalAfterResetConsumesAgain`).

## Model

| member | source | states |
|---|---|---|
| Models.CalculateBmi | GymApp/models.py:47-52 | a BMI exists exactly when height and weight are both set and non-zero and the height is positive; it is the value that, times the height in metres squared, gives the weight |
| Store.Database.SaveProfile | GymApp/models.py:54-56 | saving a profile always overwrites its BMI with the computed one and writes the row, nothing else changes |
| Models.Initialized | GymApp/models.py:99-108 | the first-save derivation copies the package's session count into the balance, gives a known package type an end date after the start date, keeps the supplied end date otherwise, and touches no other field |
| Models.CheckExpiry | GymApp/models.py:110-112 | the status becomes expired exactly when the end date is before today (or it already was); an end date equal to today is not expired; otherwise the status is unchanged, never reset to active; a missing end date is an error |
| Models.SavedMemberPackage | GymApp/models.py:97-114 | a successful save writes the row under its own id or the issued key and keeps owner, package and start date |
| Models.FirstSaveDerivesFromPackage | GymApp/models.py:99-108 | on creation end date minus start date is 30, 90 or 365 days for monthly, quarterly or yearly packages, and the balance equals the package's PT sessions |
| Models.UnrecognisedTypeKeepsSuppliedEndDate | GymApp/models.py:100-105 | with any other package type the supplied end date stays, no error is raised for the type, and only a missing end date fails |
| Models.LaterSaveOnlyChecksExpiry | GymApp/models.py:99-112 | saving a stored membership recomputes neither end date nor balance and does not read the package: it is the expiry check alone |
| Models.ResaveIsStable | GymApp/models.py:97-114 | saving a saved membership again the same day changes nothing; on a later day only the status may change, and an expired membership stays expired |
| Store.Database.SaveMemberPackage | GymApp/models.py:97-114 | the step-by-step save returns exactly `SavedMemberPackage` and writes the row only when it succeeds |
| Models.PriorOf | GymApp/models.py:160-161 | the save is adding exactly when the instance has no id; otherwise the stored status is the one the table holds under that id, or the row is missing |
| Models.Linked | GymApp/models.py:157 | the balance is consulted exactly when the schedule has a PT and a member package |
| Models.Approves | GymApp/models.py:160-161 | a save approves when the schedule is approved, is already stored, and its stored status is not approved |
| Models.SessionEffect | GymApp/models.py:155-164 | given the package the schedule itself refers to, a schedule with PT and package fails exactly when the balance is <= 0, or with does-not-exist when an approved instance's row is missing, and fails in no other way; one lacking either never touches the balance; the package changes exactly when a stored non-approved schedule becomes approved, and is then the balance minus one, never below zero, after the package's own expiry check (models.py:111-112) |
| Models.CreationNeverConsumes | GymApp/models.py:160 | creating a schedule, even with status approved, never takes a session |
| Models.ReapprovalNeverConsumes | GymApp/models.py:160-161 | saving an already approved schedule as approved again never takes a second session |
| Models.ExhaustedPackageBlocksEverySave | GymApp/models.py:157-159 | with a zero or negative balance every save of a schedule with a PT on that package fails, whatever its status |
| Models.SaveInTurn | GymApp/models.py:155-164 | a run of saves of schedules that all refer to one package, each seeing the balance the previous ones left; the package keeps its key and its end date through the run |
| Models.ApprovalsConsumeOneEach | GymApp/models.py:157-163 | N successive approvals against a balance of at least N all succeed and leave the balance N lower |
| Models.ApprovalBeyondBalanceFails | GymApp/models.py:157-159 | after approvals that use up the whole balance, the next save of a PT schedule on the package fails with no remaining sessions |
| Models.NonApprovalsKeepBalance | GymApp/models.py:157-163 | any run of saves that approve nothing leaves a positive balance exactly as it was |
| Models.ReapprovalAfterResetConsumesAgain | GymApp/models.py:157-163 | approving a booking, putting it back to pending and approving it again takes two sessions from its package |
| Store.Database.SaveSchedule | GymApp/models.py:155-164 | the step-by-step save refuses with nothing modified or writes the schedule and, when a session is taken, the decremented package, exactly as `SessionEffect` says |
| Models.CheckReview | GymApp/models.py:241-245 | a review is refused exactly when it has no PT but a PT rating; otherwise it is saved unchanged |
| Store.Database.SaveReview | GymApp/models.py:241-245 | a refused review leaves the table unchanged; an accepted one is written as it is |
| Views.PatchUser | GymApp/views.py:23-28 | after the loop over the request keys, first and last name hold the last values sent for them, the password is set from the last value sent for it, and every other field is as before |
| Views.PatchCurrentUser | GymApp/views.py:19-30 | the PATCH applies that change to the signed-in account and saves only that account |
| Views.PackagePermission | GymApp/views.py:63-66 | create, update, partial update and destroy ask for the admin permission, every other action for a signed-in user |
| Views.PackageAccess | GymApp/views.py:63-66 | listing and retrieving packages needs a signed-in user; create, update, partial update and destroy need the staff flag, whatever the role |
| Views.CreatePackage | GymApp/views.py:63-69 | a package is created only for a staff account, with that account recorded as its creator |
| Views.MemberPackagesVisibleTo | GymApp/views.py:76-79 | a superuser sees every membership, anyone else exactly their own |
| Views.CreateMemberPackage | GymApp/views.py:81-82 | a created membership belongs to the requesting user, who can then see it, is otherwise what the model's save derives, and is the only row added to the table |
| Views.SchedulesVisibleTo | GymApp/views.py:89-94 | a superuser sees every schedule, a PT exactly those whose PT they are, anyone else exactly those whose member they are |
| Views.ScheduleToCreate | GymApp/views.py:96-100 | a PT creator is recorded as the schedule's PT, anyone else as its member; every other field, status included, is as sent |
| Views.CreatorSeesNewSchedule | GymApp/views.py:89-100 | whoever creates a schedule can see it afterwards |
| Views.ScheduleUpdate | GymApp/views.py:102-109 | an update is refused exactly when the actor is neither a PT nor the schedule's member; a PT's update is saved as sent, the member's with the status forced to pending |
| Views.NonPtUpdateNeverConsumes | GymApp/views.py:102-109 | an update by anyone but a PT never takes a session from a package |
| Views.UpdateRefusedOnlyForSuperusers | GymApp/views.py:89-109 | since the object is looked up in the actor's queryset, the refusal is reached only by a superuser who is neither a PT nor the member |
| Views.CreateSchedule | GymApp/views.py:96-100 | creating a schedule never changes a balance and fails only when it has a PT and an exhausted package |
| Views.UpdateSchedule | GymApp/views.py:102-109 | a schedule outside the actor's queryset is not found; a refused update changes nothing; an allowed one goes through the schedule save, which writes the schedule and, when a PT's update approves it, the package with one session fewer; only a PT's update can change a balance |
| Views.ReviewsVisibleTo | GymApp/views.py:119-124 | a superuser sees every review, a PT exactly the reviews about them, anyone else exactly their own |
| Views.ReviewToCreate | GymApp/views.py:126-129 | only a member may create a review, which becomes theirs, and it must pass the review guard |
| Views.ReviewUpdate | GymApp/views.py:131-135 | only the review's author may update it, the author stays the same, and the guard applies |
| Views.CreateReview | GymApp/views.py:126-129 | the created review is written exactly when `ReviewToCreate` accepts it |
| Views.UpdateReview | GymApp/views.py:131-135 | a review outside the actor's queryset is not found; otherwise the table changes exactly as `ReviewUpdate` decides |
| Views.ProgressVisibleTo | GymApp/views.py:142-147 | a superuser sees every progress record, a PT exactly those they wrote, anyone else exactly those about them |
| Views.ProgressToCreate | GymApp/views.py:149-152 | only a PT may create a progress record, and is recorded as its PT |
| Views.ProgressUpdate | GymApp/views.py:154-158 | only the record's PT may update it; the update is saved as sent |
| Views.PtUpdatesWhatTheySee | GymApp/views.py:142-158 | a PT who is not a superuser passes the author check on every record they can see |
| Views.CreateProgress | GymApp/views.py:149-152 | the record is written exactly when `ProgressToCreate` accepts it |
| Views.UpdateProgress | GymApp/views.py:154-158 | a record outside the actor's queryset is not found; otherwise the table changes exactly as `ProgressUpdate` decides |

## Left out

- Django's ORM, querysets and serializers are left out. Tables are maps. A request is
  the record of values it sends. A partial update is modelled as the full record after
  the sent fields are applied.
- Serializer constraints appear only as preconditions: a purchased package must be
  active, and end date, balance and status cannot be sent. Field validators and `choices`
  are not enforced by save(), so they are not assumed.
- Dates are unbounded day numbers. Python's dates end at 9999-12-31, and adding days
  past it raises OverflowError. The model has no such limit.
- The clock (`datetime.now()`) is the `today` parameter. The database's next primary key
  is the `freshKey` parameter.
- Models.CalculateBmi: the rounding to two decimal places is not modelled. The result is
  the exact quotient over the reals.
- Password hashing (`set_password`) is not modelled. The stored password records the raw
  value it was set from.
- An instance given an explicit primary key before its first save is treated as stored.
  Django's `_state.adding` would still call it new.
- Transactions and concurrency are not modelled. The package is saved before the
  schedule, so a later failure of the schedule write would not roll the decrement back.
  Two concurrent approvals race on the balance. The model runs each save as one step.
- Anonymous requests are not modelled for the schedule, review, progress and membership
  view sets: every handler takes a signed-in account. Three of them refuse anonymous
  requests through `IsAuthenticated`. The review view set has no permission class, so an
  anonymous request there fails when its queryset reads the role.
- The GET branch of the current-user action only returns the account. It is not
  modelled.
- Package update, partial update and destroy are covered only by their permission rule.
  Restrict-on-delete is a database constraint.
- The member-profile and notification querysets are not part of this model.
- As written, `GymApp/views.py:5` imports `PtProfile` and `Comment`, which
  `GymApp/models.py` does not define. So the whole views module, and the URL
  configuration that imports it, fails to import. The view rules are modelled as their
  code reads, as if that import named only models that exist.
- The PtProfile and Comment view sets are not part of this model: they work on those
  missing models. The comment permission is left out too. `GymApp/views.py:229` names
  `perms.IsCommentOwner`, but `GymApp/perms.py:3` defines `CommentOwner`.
- Payment, Notification, Chat, ChatParticipant and Message are not modelled. They are
  plain records with no logic. The admin site, URL routing and Swagger wiring are not
  modelled either.
