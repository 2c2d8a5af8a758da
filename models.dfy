/** The entities of the gym backend and the logic their save() methods run before a row
    is written: end date and session balance of a membership, lazy expiry, the session
    balance a PT schedule consumes, the review guard and the BMI of a member profile. */
module Models {
  import opened Common

  datatype Role = Admin | Pt | Member

  /** The password field after set_password(raw): the hash of `raw` (hashing is not modelled). */
  datatype Password = Hashed(raw: string)

  datatype User = User(
    id: Pk,
    username: string,
    email: string,
    firstName: string,
    lastName: string,
    phone: Option<string>,
    role: Role,
    isStaff: bool,
    isSuperuser: bool,
    password: Password)

  /** Height in cm, weight in kg, both nullable decimals. */
  datatype MemberProfile = MemberProfile(
    id: Option<Pk>,
    user: Pk,
    height: Option<real>,
    weight: Option<real>,
    bmi: Option<real>,
    goal: Option<string>)

  /** A package_type string: one of the three choices, or any other text a row may hold.
      `Unrecognised(name)` stands only for a `name` other than "monthly", "quarterly" and
      "yearly", so every stored string has exactly one representation. */
  datatype PackageType = Monthly | Quarterly | Yearly | Unrecognised(name: string)

  datatype Package = Package(
    id: Option<Pk>,
    name: string,
    price: real,
    description: Option<string>,
    ptSessions: int,
    packageType: PackageType,
    createdBy: Pk,
    isActive: bool)

  datatype MembershipStatus = Active | Expired | Cancelled

  /** A member's purchase of a package. `endDate` is None until it is supplied or derived. */
  datatype MemberPackage = MemberPackage(
    id: Option<Pk>,
    user: Pk,
    package: Pk,
    startDate: Date,
    endDate: Option<Date>,
    remainingSessions: int,
    status: MembershipStatus)

  datatype ScheduleStatus = Pending | Approved | Rejected | Completed

  datatype Schedule = Schedule(
    id: Option<Pk>,
    user: Pk,
    pt: Option<Pk>,
    memberPackage: Option<Pk>,
    startTime: int,
    endTime: int,
    status: ScheduleStatus,
    note: Option<string>)

  datatype Progress = Progress(
    id: Option<Pk>,
    user: Pk,
    pt: Option<Pk>,
    weight: Option<real>,
    bodyFat: Option<real>,
    muscleMass: Option<real>,
    note: Option<string>)

  datatype Review = Review(
    id: Option<Pk>,
    user: Pk,
    pt: Option<Pk>,
    gymRating: int,
    ptRating: Option<int>,
    comment: Option<string>)

  /** The key a save writes under: the instance's own id, or the one the database issues. */
  function KeyFor(id: Option<Pk>, freshKey: Pk): (k: Pk)
    ensures id.Some? ==> k == id.value
  {
    if id.Some? then id.value else freshKey
  }

  // ---------------------------------------------------------------------------
  // MemberProfile.calculate_bmi

  /** weight / (height in metres)^2, when both are set, non-zero and the height is
      positive (the rounding to two decimals is not modelled). */
  function CalculateBmi(height: Option<real>, weight: Option<real>): (bmi: Option<real>)
    ensures bmi.Some? <==> height.Some? && weight.Some? && height.value > 0.0 && weight.value != 0.0
    ensures bmi.Some? ==> bmi.value * (height.value / 100.0) * (height.value / 100.0) == weight.value
  {
    if height.Some? && height.value != 0.0 && weight.Some? && weight.value != 0.0 && height.value > 0.0 then
      var heightM := height.value / 100.0;
      Some(weight.value / (heightM * heightM))
    else
      None
  }

  // ---------------------------------------------------------------------------
  // MemberPackage.save

  /** The first-save derivation: the end date from the package type (left as supplied
      for any other type) and the session balance copied from the package. */
  function Initialized(mp: MemberPackage, pkg: Package): (r: MemberPackage)
    ensures r == mp.(endDate := r.endDate, remainingSessions := pkg.ptSessions)
    ensures pkg.packageType.Unrecognised? ==> r.endDate == mp.endDate
    ensures !pkg.packageType.Unrecognised? ==> r.endDate.Some? && r.endDate.value > mp.startDate
  {
    var end := match pkg.packageType
      case Monthly => Some(mp.startDate + 30)
      case Quarterly => Some(mp.startDate + 90)
      case Yearly => Some(mp.startDate + 365)
      case Unrecognised(_) => mp.endDate;
    mp.(endDate := end, remainingSessions := pkg.ptSessions)
  }

  /** The expiry check every save runs: a membership whose end date is before today
      becomes expired; nothing else changes. A missing end date cannot be compared. */
  function CheckExpiry(mp: MemberPackage, today: Date): (r: Result<MemberPackage>)
    ensures r.Err? <==> mp.endDate.None?
    ensures r.Err? ==> r.error == MissingEndDate
    ensures r.Ok? ==> r.value == mp.(status := r.value.status)
    ensures r.Ok? ==> (r.value.status == Expired <==> mp.endDate.value < today || mp.status == Expired)
    ensures r.Ok? && r.value.status != Expired ==> r.value.status == mp.status
  {
    match mp.endDate
    case None => Err(MissingEndDate)
    case Some(end) => Ok(if end < today then mp.(status := Expired) else mp)
  }

  /** MemberPackage.save: derive on the first save (no id yet, the package read from
      `packages`), check expiry on every save, and take the key the row is written under. */
  function SavedMemberPackage(mp: MemberPackage, packages: map<Pk, Package>, today: Date, freshKey: Pk): (r: Result<MemberPackage>)
    requires mp.id.None? ==> mp.package in packages
    ensures r.Ok? ==> r.value.id == Some(KeyFor(mp.id, freshKey))
    ensures r.Ok? ==> r.value.user == mp.user && r.value.package == mp.package && r.value.startDate == mp.startDate
  {
    var derived := if mp.id.None? then Initialized(mp, packages[mp.package]) else mp;
    match CheckExpiry(derived, today)
    case Err(e) => Err(e)
    case Ok(m) => Ok(m.(id := Some(KeyFor(mp.id, freshKey))))
  }

  /** On creation the end date lies 30, 90 or 365 days after the start date for a monthly,
      quarterly or yearly package, and the balance is the package's PT session count. */
  lemma FirstSaveDerivesFromPackage(mp: MemberPackage, packages: map<Pk, Package>, today: Date, freshKey: Pk)
    requires mp.id.None? && mp.package in packages
    requires !packages[mp.package].packageType.Unrecognised?
    ensures var r := SavedMemberPackage(mp, packages, today, freshKey);
      && r.Ok?
      && r.value.remainingSessions == packages[mp.package].ptSessions
      && r.value.endDate.value - mp.startDate
         == (match packages[mp.package].packageType
             case Monthly => 30
             case Quarterly => 90
             case _ => 365)
      && (r.value.status == Expired <==> r.value.endDate.value < today || mp.status == Expired)
  {
  }

  /** With an unrecognised package type the supplied end date stays; none supplied fails. */
  lemma UnrecognisedTypeKeepsSuppliedEndDate(mp: MemberPackage, packages: map<Pk, Package>, today: Date, freshKey: Pk)
    requires mp.id.None? && mp.package in packages
    requires packages[mp.package].packageType.Unrecognised?
    ensures var r := SavedMemberPackage(mp, packages, today, freshKey);
      && (r.Ok? <==> mp.endDate.Some?)
      && (r.Ok? ==> r.value.endDate == mp.endDate)
      && (r.Err? ==> r.error == MissingEndDate)
  {
  }

  /** A save of a stored membership recomputes neither the end date nor the balance, and
      never reads the package: it is the expiry check alone. */
  lemma LaterSaveOnlyChecksExpiry(mp: MemberPackage, packages: map<Pk, Package>, today: Date, freshKey: Pk)
    requires mp.id.Some?
    ensures SavedMemberPackage(mp, packages, today, freshKey) == CheckExpiry(mp, today)
    ensures SavedMemberPackage(mp, packages, today, freshKey) == SavedMemberPackage(mp, map[], today, freshKey)
  {
  }

  /** Saving a saved membership again on the same day changes nothing; on a later day only
      the status can change, and only to expired. */
  lemma ResaveIsStable(mp: MemberPackage, packages: map<Pk, Package>, today: Date, later: Date, freshKey: Pk, freshKey': Pk)
    requires mp.id.None? ==> mp.package in packages
    requires SavedMemberPackage(mp, packages, today, freshKey).Ok?
    requires today <= later
    ensures var saved := SavedMemberPackage(mp, packages, today, freshKey).value;
      && SavedMemberPackage(saved, packages, today, freshKey') == Ok(saved)
      && var again := SavedMemberPackage(saved, packages, later, freshKey');
      && again.Ok?
      && again.value == saved.(status := again.value.status)
      && (saved.status == Expired ==> again.value.status == Expired)
  {
    var saved := SavedMemberPackage(mp, packages, today, freshKey).value;
    LaterSaveOnlyChecksExpiry(saved, packages, today, freshKey');
    LaterSaveOnlyChecksExpiry(saved, packages, later, freshKey');
  }

  // ---------------------------------------------------------------------------
  // Schedule.save

  /** What the database holds for the schedule being saved: nothing yet (the instance is
      being added), a stored row with its status, or no row although the instance has an id. */
  datatype Prior = Adding | Stored(status: ScheduleStatus) | Missing

  function PriorOf(s: Schedule, schedules: map<Pk, Schedule>): (p: Prior)
    ensures p.Adding? <==> s.id.None?
    ensures p.Stored? <==> s.id.Some? && s.id.value in schedules
    ensures p.Stored? ==> p.status == schedules[s.id.value].status
  {
    if s.id.None? then Adding
    else if s.id.value in schedules then Stored(schedules[s.id.value].status)
    else Missing
  }

  /** The member package row a schedule refers to, if it refers to one. */
  function LinkedPackage(s: Schedule, memberPackages: map<Pk, MemberPackage>): (mp: Option<MemberPackage>)
    requires s.memberPackage.Some? ==> s.memberPackage.value in memberPackages
    ensures mp.Some? <==> s.memberPackage.Some?
    ensures mp.Some? ==> mp.value == memberPackages[s.memberPackage.value]
  {
    if s.memberPackage.Some? then Some(memberPackages[s.memberPackage.value]) else None
  }

  /** The save consults the balance: the schedule has a PT and a member package. */
  predicate Linked(s: Schedule, mp: Option<MemberPackage>) {
    s.pt.Some? && mp.Some?
  }

  /** The save moves a stored schedule into approved from another stored status. */
  predicate Approves(s: Schedule, prior: Prior) {
    s.status == Approved && prior.Stored? && prior.status != Approved
  }

  /** Schedule.save's effect on the member package `mp` the schedule refers to: an error,
      Ok(None) when the package is left alone, or Ok(Some(m)) when the package is
      decremented and saved as m (a stored package, so its save is the expiry check). */
  function SessionEffect(s: Schedule, prior: Prior, mp: Option<MemberPackage>, today: Date): (r: Result<Option<MemberPackage>>)
    requires mp.Some? ==> mp.value.id.Some? && mp.value.endDate.Some?
    requires s.memberPackage == (if mp.Some? then mp.value.id else None)
    ensures r == Err(NoRemainingSessions) <==> Linked(s, mp) && mp.value.remainingSessions <= 0
    ensures r == Err(DoesNotExist) <==> Linked(s, mp) && mp.value.remainingSessions > 0 && s.status == Approved && prior.Missing?
    ensures r.Err? ==> r.error == NoRemainingSessions || r.error == DoesNotExist
    ensures !Linked(s, mp) ==> r == Ok(None)
    ensures r.Ok? && r.value.Some? ==>
      && Linked(s, mp) && Approves(s, prior)
      && CheckExpiry(mp.value.(remainingSessions := mp.value.remainingSessions - 1), today) == Ok(r.value.value)
      && r.value.value.remainingSessions >= 0
    ensures Linked(s, mp) && mp.value.remainingSessions > 0 ==>
      (r.Ok? && r.value.Some? <==> Approves(s, prior))
  {
    if !Linked(s, mp) then Ok(None)
    else if mp.value.remainingSessions <= 0 then Err(NoRemainingSessions)
    else if s.status == Approved && !prior.Adding? then
      if prior.Missing? then Err(DoesNotExist)
      else if prior.status != Approved then
        var decremented := mp.value.(remainingSessions := mp.value.remainingSessions - 1);
        match SavedMemberPackage(decremented, map[], today, mp.value.id.value)
        case Err(e) => Err(e)
        case Ok(m) => Ok(Some(m))
      else Ok(None)
    else Ok(None)
  }

  /** Creating a schedule never consumes a session, even when it is created approved. */
  lemma CreationNeverConsumes(s: Schedule, mp: Option<MemberPackage>, today: Date)
    requires mp.Some? ==> mp.value.id.Some? && mp.value.endDate.Some?
    requires s.memberPackage == (if mp.Some? then mp.value.id else None)
    ensures SessionEffect(s, Adding, mp, today).Ok? ==> SessionEffect(s, Adding, mp, today).value.None?
  {
  }

  /** Saving an approved schedule again never consumes a second session. */
  lemma ReapprovalNeverConsumes(s: Schedule, mp: Option<MemberPackage>, today: Date)
    requires mp.Some? ==> mp.value.id.Some? && mp.value.endDate.Some?
    requires s.memberPackage == (if mp.Some? then mp.value.id else None)
    ensures SessionEffect(s, Stored(Approved), mp, today).Ok? ==> SessionEffect(s, Stored(Approved), mp, today).value.None?
  {
  }

  /** Once the balance is used up, no schedule that refers to the package can be saved at
      all, whatever its status: the check runs on every save, not only on approval. */
  lemma ExhaustedPackageBlocksEverySave(s: Schedule, prior: Prior, mp: MemberPackage, today: Date)
    requires mp.id.Some? && mp.endDate.Some? && s.pt.Some? && s.memberPackage == mp.id
    requires mp.remainingSessions <= 0
    ensures SessionEffect(s, prior, Some(mp), today) == Err(NoRemainingSessions)
  {
  }

  /** Every schedule in `saves` refers to the member package stored under `key`. */
  predicate AllReferTo(saves: seq<(Schedule, Prior)>, key: Option<Pk>) {
    forall i :: 0 <= i < |saves| ==> saves[i].0.memberPackage == key
  }

  /** The package balance after saving `saves` one after another, each referring to `mp`.
      The caller supplies each save's stored status: it is not read back from a schedules
      table that the earlier saves of the run wrote, so a run is one the program can
      produce only when those statuses agree with the earlier saves. */
  function SaveInTurn(mp: MemberPackage, saves: seq<(Schedule, Prior)>, today: Date): (r: Result<MemberPackage>)
    requires mp.id.Some? && mp.endDate.Some?
    requires AllReferTo(saves, mp.id)
    ensures r.Ok? ==> r.value.id == mp.id && r.value.endDate == mp.endDate
    decreases |saves|
  {
    if saves == [] then Ok(mp)
    else
      match SessionEffect(saves[0].0, saves[0].1, Some(mp), today)
      case Err(e) => Err(e)
      case Ok(None) => SaveInTurn(mp, saves[1..], today)
      case Ok(Some(m)) => SaveInTurn(m, saves[1..], today)
  }

  /** Every save in `saves` moves a PT schedule into approved. */
  predicate AllApprove(saves: seq<(Schedule, Prior)>) {
    forall i :: 0 <= i < |saves| ==> saves[i].0.pt.Some? && Approves(saves[i].0, saves[i].1)
  }

  /** N approvals against a balance of at least N succeed and leave the balance N lower. */
  lemma {:induction false} ApprovalsConsumeOneEach(mp: MemberPackage, saves: seq<(Schedule, Prior)>, today: Date)
    requires mp.id.Some? && mp.endDate.Some?
    requires AllReferTo(saves, mp.id)
    requires AllApprove(saves)
    requires |saves| <= mp.remainingSessions
    ensures SaveInTurn(mp, saves, today).Ok?
    ensures SaveInTurn(mp, saves, today).value.remainingSessions == mp.remainingSessions - |saves|
    decreases |saves|
  {
    if saves != [] {
      var effect := SessionEffect(saves[0].0, saves[0].1, Some(mp), today);
      assert effect.Ok? && effect.value.Some?;
      ApprovalsConsumeOneEach(effect.value.value, saves[1..], today);
    }
  }

  /** After approvals that use up the whole balance, the next save of a PT schedule on the
      package fails with NoRemainingSessions. */
  lemma {:induction false} ApprovalBeyondBalanceFails(mp: MemberPackage, saves: seq<(Schedule, Prior)>, next: (Schedule, Prior), today: Date)
    requires mp.id.Some? && mp.endDate.Some?
    requires AllReferTo(saves, mp.id)
    requires AllApprove(saves)
    requires |saves| == mp.remainingSessions
    requires next.0.pt.Some? && next.0.memberPackage == mp.id
    ensures SaveInTurn(mp, saves + [next], today) == Err(NoRemainingSessions)
    decreases |saves|
  {
    if saves == [] {
      assert saves + [next] == [next];
    } else {
      var effect := SessionEffect(saves[0].0, saves[0].1, Some(mp), today);
      assert effect.Ok? && effect.value.Some?;
      assert (saves + [next])[1..] == saves[1..] + [next];
      ApprovalBeyondBalanceFails(effect.value.value, saves[1..], next, today);
    }
  }

  /** Saves that approve nothing leave the balance as it was, as long as it is positive
      and no approved instance is missing from the database. */
  lemma {:induction false} NonApprovalsKeepBalance(mp: MemberPackage, saves: seq<(Schedule, Prior)>, today: Date)
    requires mp.id.Some? && mp.endDate.Some? && mp.remainingSessions > 0
    requires AllReferTo(saves, mp.id)
    requires forall i :: 0 <= i < |saves| ==> !Approves(saves[i].0, saves[i].1)
    requires forall i :: 0 <= i < |saves| ==> !(saves[i].0.status == Approved && saves[i].1.Missing?)
    ensures SaveInTurn(mp, saves, today) == Ok(mp)
    decreases |saves|
  {
    if saves != [] {
      NonApprovalsKeepBalance(mp, saves[1..], today);
    }
  }

  /** One booking can take more than one session: approved by a PT, put back to pending
      (as a member's edit does), then approved again, it takes a session each time. */
  lemma {:induction false} ReapprovalAfterResetConsumesAgain(mp: MemberPackage, s: Schedule, today: Date)
    requires mp.id.Some? && mp.endDate.Some? && mp.remainingSessions >= 2
    requires s.pt.Some? && s.memberPackage == mp.id
    ensures var saves := [(s.(status := Approved), Stored(Pending)),
                          (s.(status := Pending), Stored(Approved)),
                          (s.(status := Approved), Stored(Pending))];
      && SaveInTurn(mp, saves, today).Ok?
      && SaveInTurn(mp, saves, today).value.remainingSessions == mp.remainingSessions - 2
  {
    var saves := [(s.(status := Approved), Stored(Pending)),
                  (s.(status := Pending), Stored(Approved)),
                  (s.(status := Approved), Stored(Pending))];
    var first := SessionEffect(saves[0].0, saves[0].1, Some(mp), today);
    assert first.Ok? && first.value.Some?;
    var m1 := first.value.value;
    assert saves[1..][0] == saves[1] && saves[1..][1..] == [saves[2]];
    NonApprovalsKeepBalance(m1, [saves[1]], today);
    assert SaveInTurn(m1, saves[1..], today) == SaveInTurn(m1, [saves[2]], today);
    ApprovalsConsumeOneEach(m1, [saves[2]], today);
  }

  // ---------------------------------------------------------------------------
  // Review.save

  /** A review without a PT must not carry a PT rating; otherwise it is saved unchanged. */
  function CheckReview(rv: Review): (r: Result<Review>)
    ensures r.Err? <==> rv.pt.None? && rv.ptRating.Some?
    ensures r.Err? ==> r.error == PtRatingWithoutPt
    ensures r.Ok? ==> r.value == rv
  {
    if rv.pt.None? && rv.ptRating.Some? then Err(PtRatingWithoutPt) else Ok(rv)
  }
}
