/** Who sees, creates and updates which records: the role logic of the REST view sets,
    as pure decisions, and the request handlers that apply them to the database. */
module Views {
  import opened Common
  import opened Models
  import opened Store

  // ---------------------------------------------------------------------------
  // UserViewSet.get_current_user (PATCH)

  /** The value of the last entry for `key` in the request data, if there is one. */
  function LastValue(data: seq<(string, string)>, key: string): (v: Option<string>)
    ensures v.None? <==> forall i :: 0 <= i < |data| ==> data[i].0 != key
    ensures v.Some? ==> exists i :: 0 <= i < |data| && data[i] == (key, v.value) &&
                          forall j :: i < j < |data| ==> data[j].0 != key
  {
    if data == [] then None
    else if data[|data| - 1].0 == key then Some(data[|data| - 1].1)
    else LastValue(data[..|data| - 1], key)
  }

  /** The account after a PATCH: first and last name copied from the request, the
      password set from it, every other key ignored. */
  ghost predicate PatchApplied(u: User, data: seq<(string, string)>, r: User) {
    && r.firstName == LastValue(data, "first_name").GetOr(u.firstName)
    && r.lastName == LastValue(data, "last_name").GetOr(u.lastName)
    && r.password == (if LastValue(data, "password").Some? then Hashed(LastValue(data, "password").value) else u.password)
    && r == u.(firstName := r.firstName, lastName := r.lastName, password := r.password)
  }

  /** The loop over the request keys that updates the current user's attributes. */
  method PatchUser(u: User, data: seq<(string, string)>) returns (r: User)
    ensures PatchApplied(u, data, r)
  {
    r := u;
    for i := 0 to |data|
      invariant PatchApplied(u, data[..i], r)
    {
      var (key, value) := data[i];
      if key == "first_name" {
        r := r.(firstName := value);
      } else if key == "last_name" {
        r := r.(lastName := value);
      } else if key == "password" {
        r := r.(password := Hashed(value));
      }
      assert data[..i + 1][..i] == data[..i];
    }
    assert data[..|data|] == data;
  }

  /** PATCH current-user: apply the request to the signed-in account and save it. */
  method PatchCurrentUser(db: Database, actor: Pk, data: seq<(string, string)>) returns (u: User)
    requires db.Valid() && actor in db.users
    modifies db`users
    ensures db.Valid()
    ensures PatchApplied(old(db.users[actor]), data, u) && u.id == actor
    ensures db.users == old(db.users)[actor := u]
  {
    u := PatchUser(db.users[actor], data);
    db.SaveUser(u);
  }

  // ---------------------------------------------------------------------------
  // PackageViewSet

  datatype Action = List | Retrieve | Create | Update | PartialUpdate | Destroy
  datatype Permission = IsAdminUser | IsAuthenticated
  datatype Requester = Anonymous | SignedIn(user: User)

  /** get_permissions: the four writing actions need an admin, the others a signed-in user. */
  function PackagePermission(action: Action): Permission {
    if action in {Create, Update, PartialUpdate, Destroy} then IsAdminUser else IsAuthenticated
  }

  /** IsAdminUser admits staff accounts; IsAuthenticated any signed-in account. */
  predicate Grants(p: Permission, req: Requester) {
    match p
    case IsAdminUser => req.SignedIn? && req.user.isStaff
    case IsAuthenticated => req.SignedIn?
  }

  /** Listing and retrieving packages needs only a signed-in user; every change needs the
      staff flag, whatever the account's role (an `admin` role without it is refused). */
  lemma PackageAccess(action: Action, req: Requester)
    ensures Grants(PackagePermission(action), req) <==>
      req.SignedIn? && (action == List || action == Retrieve || req.user.isStaff)
  {
  }

  /** PackageViewSet.create: check the permission, then save with the creator recorded. */
  method CreatePackage(db: Database, req: Requester, data: Package, freshKey: Pk) returns (r: Result<Package>)
    requires db.Valid() && data.id.None? && freshKey !in db.packages
    modifies db`packages
    ensures db.Valid()
    ensures r.Err? <==> !(req.SignedIn? && req.user.isStaff)
    ensures r.Err? ==> r.error == PermissionDenied && db.packages == old(db.packages)
    ensures r.Ok? ==> r.value == data.(id := Some(freshKey), createdBy := req.user.id)
    ensures r.Ok? ==> db.packages == old(db.packages)[freshKey := r.value]
  {
    if !Grants(PackagePermission(Create), req) {
      return Err(PermissionDenied);
    }
    var saved := db.SavePackage(data.(createdBy := req.user.id), freshKey);
    r := Ok(saved);
  }

  // ---------------------------------------------------------------------------
  // MemberPackageViewSet

  /** get_queryset: a superuser sees every membership, anyone else only their own. */
  function MemberPackagesVisibleTo(actor: User, mps: map<Pk, MemberPackage>): (r: map<Pk, MemberPackage>)
    ensures forall k :: k in r ==> k in mps && r[k] == mps[k]
    ensures actor.isSuperuser ==> r == mps
    ensures !actor.isSuperuser ==> forall k :: k in mps ==> (k in r <==> mps[k].user == actor.id)
  {
    if actor.isSuperuser then mps
    else map k | k in mps && mps[k].user == actor.id :: mps[k]
  }

  /** perform_create: the membership belongs to the requesting user; the model's save
      derives the rest. The request may name only an active package, and cannot supply
      the end date, the balance or the status. */
  method CreateMemberPackage(db: Database, actor: User, data: MemberPackage, today: Date, freshKey: Pk)
    returns (r: Result<MemberPackage>)
    requires db.Valid() && data.id.None? && freshKey !in db.memberPackages
    requires data.package in db.packages && db.packages[data.package].isActive
    requires data.endDate.None? && data.remainingSessions == 0 && data.status == Active
    modifies db`memberPackages
    ensures db.Valid()
    ensures r == SavedMemberPackage(data.(user := actor.id), old(db.packages), today, freshKey)
    ensures r.Ok? ==> r.value.user == actor.id && freshKey in MemberPackagesVisibleTo(actor, db.memberPackages)
    ensures r.Ok? ==> db.memberPackages == old(db.memberPackages)[freshKey := r.value]
    ensures r.Err? ==> db.memberPackages == old(db.memberPackages)
  {
    r := db.SaveMemberPackage(data.(user := actor.id), today, freshKey);
  }

  // ---------------------------------------------------------------------------
  // ScheduleViewSet

  /** get_queryset: a superuser sees every schedule, a PT those assigned to them, anyone
      else those booked for them. */
  function SchedulesVisibleTo(actor: User, schedules: map<Pk, Schedule>): (r: map<Pk, Schedule>)
    ensures forall k :: k in r ==> k in schedules && r[k] == schedules[k]
    ensures actor.isSuperuser ==> r == schedules
    ensures !actor.isSuperuser && actor.role == Pt ==>
      forall k :: k in schedules ==> (k in r <==> schedules[k].pt == Some(actor.id))
    ensures !actor.isSuperuser && actor.role != Pt ==>
      forall k :: k in schedules ==> (k in r <==> schedules[k].user == actor.id)
  {
    if actor.isSuperuser then schedules
    else if actor.role == Pt then map k | k in schedules && schedules[k].pt == Some(actor.id) :: schedules[k]
    else map k | k in schedules && schedules[k].user == actor.id :: schedules[k]
  }

  /** perform_create: a PT creating a schedule is recorded as its PT, anyone else as its
      member; every other field, the status included, is kept as sent. */
  function ScheduleToCreate(actor: User, data: Schedule): (s: Schedule)
    ensures actor.role == Pt ==> s.pt == Some(actor.id) && s.user == data.user
    ensures actor.role != Pt ==> s.user == actor.id && s.pt == data.pt
    ensures s == data.(user := s.user, pt := s.pt)
  {
    if actor.role == Pt then data.(pt := Some(actor.id)) else data.(user := actor.id)
  }

  /** The creator of a schedule can see it afterwards. */
  lemma CreatorSeesNewSchedule(actor: User, data: Schedule, schedules: map<Pk, Schedule>, key: Pk)
    ensures key in SchedulesVisibleTo(actor, schedules[key := ScheduleToCreate(actor, data).(id := Some(key))])
  {
  }

  /** perform_update: a PT's update is saved as sent; the schedule's own member's update
      is saved with the status put back to pending; anyone else is refused. */
  function ScheduleUpdate(actor: User, instance: Schedule, data: Schedule): (r: Result<Schedule>)
    ensures r.Err? <==> actor.role != Pt && actor.id != instance.user
    ensures r.Err? ==> r.error == ScheduleUpdateDenied
    ensures r.Ok? ==> r.value == data.(id := instance.id, status := r.value.status)
    ensures r.Ok? ==> r.value.status == if actor.role == Pt then data.status else Pending
  {
    var updated := data.(id := instance.id);
    if actor.role == Pt then Ok(updated)
    else if actor.id == instance.user then Ok(updated.(status := Pending))
    else Err(ScheduleUpdateDenied)
  }

  /** An update by anyone but a PT never moves a schedule into approved, so it never
      takes a session from a package. */
  lemma NonPtUpdateNeverConsumes(actor: User, instance: Schedule, data: Schedule, prior: Prior,
                                 mp: Option<MemberPackage>, today: Date)
    requires actor.role != Pt
    requires mp.Some? ==> mp.value.id.Some? && mp.value.endDate.Some?
    requires data.memberPackage == (if mp.Some? then mp.value.id else None)
    requires ScheduleUpdate(actor, instance, data).Ok?
    ensures var effect := SessionEffect(ScheduleUpdate(actor, instance, data).value, prior, mp, today);
      effect.Ok? ==> effect.value.None?
  {
  }

  /** The queryset already limits non-superusers to schedules they may update, so the
      refusal can only reach a superuser who is neither the PT role nor the member. */
  lemma UpdateRefusedOnlyForSuperusers(actor: User, schedules: map<Pk, Schedule>, pk: Pk, data: Schedule)
    requires pk in SchedulesVisibleTo(actor, schedules)
    ensures ScheduleUpdate(actor, schedules[pk], data).Err? ==>
      actor.isSuperuser && actor.role != Pt && schedules[pk].user != actor.id
  {
  }

  /** Create a schedule: record the creator, then Schedule.save. Creation never changes a
      balance; it fails only when the schedule has a PT and an exhausted package. */
  method CreateSchedule(db: Database, actor: User, data: Schedule, today: Date, freshKey: Pk)
    returns (r: Result<Schedule>)
    requires db.Valid() && data.id.None? && freshKey !in db.schedules
    requires data.memberPackage.Some? ==> data.memberPackage.value in db.memberPackages
    modifies db`schedules, db`memberPackages
    ensures db.Valid()
    ensures db.memberPackages == old(db.memberPackages)
    ensures r.Err? <==>
      ScheduleToCreate(actor, data).pt.Some? && data.memberPackage.Some? &&
      old(db.memberPackages)[data.memberPackage.value].remainingSessions <= 0
    ensures r.Err? ==> r.error == NoRemainingSessions && db.schedules == old(db.schedules)
    ensures r.Ok? ==> r.value == ScheduleToCreate(actor, data).(id := Some(freshKey))
    ensures r.Ok? ==> db.schedules == old(db.schedules)[freshKey := r.value]
  {
    r := db.SaveSchedule(ScheduleToCreate(actor, data), today, freshKey);
  }

  /** Update schedule `pk`: find it among the schedules the actor sees, decide by role,
      then Schedule.save. */
  method UpdateSchedule(db: Database, actor: User, pk: Pk, data: Schedule, today: Date)
    returns (r: Result<Schedule>)
    requires db.Valid()
    requires data.memberPackage.Some? ==> data.memberPackage.value in db.memberPackages
    modifies db`schedules, db`memberPackages
    ensures db.Valid()
    ensures pk !in SchedulesVisibleTo(actor, old(db.schedules)) ==> r == Err(NotFound) && unchanged(db)
    ensures pk in SchedulesVisibleTo(actor, old(db.schedules)) ==>
      var decision := ScheduleUpdate(actor, old(db.schedules)[pk], data);
      && (decision.Err? ==> r == decision && unchanged(db))
      && (decision.Ok? ==>
        var effect := SessionEffect(decision.value, Stored(old(db.schedules)[pk].status),
                                    LinkedPackage(decision.value, old(db.memberPackages)), today);
        && (effect.Err? ==> r == Err(effect.error) && unchanged(db))
        && (effect.Ok? ==>
          && r == decision
          && db.schedules == old(db.schedules)[pk := decision.value]
          && db.memberPackages == if effect.value.Some? then old(db.memberPackages)[decision.value.memberPackage.value := effect.value.value]
                                  else old(db.memberPackages)))
    ensures actor.role != Pt ==> db.memberPackages == old(db.memberPackages)
  {
    var visible := SchedulesVisibleTo(actor, db.schedules);
    if pk !in visible {
      return Err(NotFound);
    }
    var decision := ScheduleUpdate(actor, visible[pk], data);
    if decision.Err? {
      return decision;
    }
    r := db.SaveSchedule(decision.value, today, pk);
  }

  // ---------------------------------------------------------------------------
  // ReviewViewSet

  /** get_queryset: a superuser sees every review, a PT the reviews about them, anyone
      else the reviews they wrote. */
  function ReviewsVisibleTo(actor: User, reviews: map<Pk, Review>): (r: map<Pk, Review>)
    ensures forall k :: k in r ==> k in reviews && r[k] == reviews[k]
    ensures actor.isSuperuser ==> r == reviews
    ensures !actor.isSuperuser && actor.role == Pt ==>
      forall k :: k in reviews ==> (k in r <==> reviews[k].pt == Some(actor.id))
    ensures !actor.isSuperuser && actor.role != Pt ==>
      forall k :: k in reviews ==> (k in r <==> reviews[k].user == actor.id)
  {
    if actor.isSuperuser then reviews
    else if actor.role == Pt then map k | k in reviews && reviews[k].pt == Some(actor.id) :: reviews[k]
    else map k | k in reviews && reviews[k].user == actor.id :: reviews[k]
  }

  /** perform_create and Review.save: only a member may review, the review is theirs,
      and it may carry a PT rating only when it names a PT. */
  function ReviewToCreate(actor: User, data: Review): (r: Result<Review>)
    ensures r.Err? <==> actor.role != Member || (data.pt.None? && data.ptRating.Some?)
    ensures actor.role != Member ==> r == Err(OnlyMembersReview)
    ensures r.Ok? ==> r.value == data.(user := actor.id)
  {
    if actor.role != Member then Err(OnlyMembersReview)
    else CheckReview(data.(user := actor.id))
  }

  /** perform_update and Review.save: only the review's author may change it; the author
      stays the same (the field is read-only in the request). */
  function ReviewUpdate(actor: User, instance: Review, data: Review): (r: Result<Review>)
    ensures r.Err? <==> actor.id != instance.user || (data.pt.None? && data.ptRating.Some?)
    ensures actor.id != instance.user ==> r == Err(NotReviewOwner)
    ensures r.Ok? ==> r.value == data.(id := instance.id, user := instance.user)
  {
    if actor.id != instance.user then Err(NotReviewOwner)
    else CheckReview(data.(id := instance.id, user := instance.user))
  }

  method CreateReview(db: Database, actor: User, data: Review, freshKey: Pk) returns (r: Result<Review>)
    requires db.Valid() && data.id.None? && freshKey !in db.reviews
    modifies db`reviews
    ensures db.Valid()
    ensures ReviewToCreate(actor, data).Err? ==> r == ReviewToCreate(actor, data) && db.reviews == old(db.reviews)
    ensures ReviewToCreate(actor, data).Ok? ==>
      && r == Ok(ReviewToCreate(actor, data).value.(id := Some(freshKey)))
      && db.reviews == old(db.reviews)[freshKey := r.value]
  {
    if actor.role != Member {
      return Err(OnlyMembersReview);
    }
    r := db.SaveReview(data.(user := actor.id), freshKey);
  }

  method UpdateReview(db: Database, actor: User, pk: Pk, data: Review) returns (r: Result<Review>)
    requires db.Valid()
    modifies db`reviews
    ensures db.Valid()
    ensures pk !in ReviewsVisibleTo(actor, old(db.reviews)) ==> r == Err(NotFound) && unchanged(db)
    ensures pk in ReviewsVisibleTo(actor, old(db.reviews)) ==>
      var decision := ReviewUpdate(actor, old(db.reviews)[pk], data);
      && (decision.Err? ==> r == decision && unchanged(db))
      && (decision.Ok? ==> r == decision && db.reviews == old(db.reviews)[pk := decision.value])
  {
    var visible := ReviewsVisibleTo(actor, db.reviews);
    if pk !in visible {
      return Err(NotFound);
    }
    var instance := visible[pk];
    if actor.id != instance.user {
      return Err(NotReviewOwner);
    }
    r := db.SaveReview(data.(id := instance.id, user := instance.user), pk);
  }

  // ---------------------------------------------------------------------------
  // ProgressViewSet

  /** get_queryset: a superuser sees every record, a PT the records they wrote, anyone
      else the records about them. */
  function ProgressVisibleTo(actor: User, records: map<Pk, Progress>): (r: map<Pk, Progress>)
    ensures forall k :: k in r ==> k in records && r[k] == records[k]
    ensures actor.isSuperuser ==> r == records
    ensures !actor.isSuperuser && actor.role == Pt ==>
      forall k :: k in records ==> (k in r <==> records[k].pt == Some(actor.id))
    ensures !actor.isSuperuser && actor.role != Pt ==>
      forall k :: k in records ==> (k in r <==> records[k].user == actor.id)
  {
    if actor.isSuperuser then records
    else if actor.role == Pt then map k | k in records && records[k].pt == Some(actor.id) :: records[k]
    else map k | k in records && records[k].user == actor.id :: records[k]
  }

  /** perform_create: only a PT may record progress, and is recorded as its PT. */
  function ProgressToCreate(actor: User, data: Progress): (r: Result<Progress>)
    ensures r.Err? <==> actor.role != Pt
    ensures r.Err? ==> r.error == OnlyPtsRecordProgress
    ensures r.Ok? ==> r.value == data.(pt := Some(actor.id))
  {
    if actor.role != Pt then Err(OnlyPtsRecordProgress) else Ok(data.(pt := Some(actor.id)))
  }

  /** perform_update: only the record's PT may change it; the change is saved as sent. */
  function ProgressUpdate(actor: User, instance: Progress, data: Progress): (r: Result<Progress>)
    ensures r.Err? <==> instance.pt != Some(actor.id)
    ensures r.Err? ==> r.error == NotProgressAuthor
    ensures r.Ok? ==> r.value == data.(id := instance.id)
  {
    if instance.pt != Some(actor.id) then Err(NotProgressAuthor) else Ok(data.(id := instance.id))
  }

  /** A PT can change only records they can see, and only those they wrote: for a PT who
      is not a superuser, every visible record passes the author check. */
  lemma PtUpdatesWhatTheySee(actor: User, records: map<Pk, Progress>, pk: Pk, data: Progress)
    requires actor.role == Pt && !actor.isSuperuser
    requires pk in ProgressVisibleTo(actor, records)
    ensures ProgressUpdate(actor, records[pk], data).Ok?
  {
  }

  method CreateProgress(db: Database, actor: User, data: Progress, freshKey: Pk) returns (r: Result<Progress>)
    requires db.Valid() && data.id.None? && freshKey !in db.progress
    modifies db`progress
    ensures db.Valid()
    ensures ProgressToCreate(actor, data).Err? ==> r == ProgressToCreate(actor, data) && db.progress == old(db.progress)
    ensures ProgressToCreate(actor, data).Ok? ==>
      && r == Ok(ProgressToCreate(actor, data).value.(id := Some(freshKey)))
      && db.progress == old(db.progress)[freshKey := r.value]
  {
    if actor.role != Pt {
      return Err(OnlyPtsRecordProgress);
    }
    var saved := db.SaveProgress(data.(pt := Some(actor.id)), freshKey);
    r := Ok(saved);
  }

  method UpdateProgress(db: Database, actor: User, pk: Pk, data: Progress) returns (r: Result<Progress>)
    requires db.Valid()
    modifies db`progress
    ensures db.Valid()
    ensures pk !in ProgressVisibleTo(actor, old(db.progress)) ==> r == Err(NotFound) && unchanged(db)
    ensures pk in ProgressVisibleTo(actor, old(db.progress)) ==>
      var decision := ProgressUpdate(actor, old(db.progress)[pk], data);
      && (decision.Err? ==> r == decision && unchanged(db))
      && (decision.Ok? ==> r == decision && db.progress == old(db.progress)[pk := decision.value])
  {
    var visible := ProgressVisibleTo(actor, db.progress);
    if pk !in visible {
      return Err(NotFound);
    }
    var instance := visible[pk];
    if instance.pt != Some(actor.id) {
      return Err(NotProgressAuthor);
    }
    var saved := db.SaveProgress(data.(id := instance.id), pk);
    r := Ok(saved);
  }
}
