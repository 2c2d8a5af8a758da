/** The database tables and the save() methods that write to them. Each method runs the
    model's save logic step by step on the instance and then writes the row; its
    postcondition ties the outcome to the pure definitions in Models. */
module Store {
  import opened Common
  import opened Models

  class Database {
    var users: map<Pk, User>
    var profiles: map<Pk, MemberProfile>
    var packages: map<Pk, Package>
    var memberPackages: map<Pk, MemberPackage>
    var schedules: map<Pk, Schedule>
    var progress: map<Pk, Progress>
    var reviews: map<Pk, Review>

    /** Every row carries the key it is stored under, and every stored membership has an
        end date (a save without one fails before the write). */
    ghost predicate Valid()
      reads this
    {
      && (forall k :: k in users ==> users[k].id == k)
      && (forall k :: k in profiles ==> profiles[k].id == Some(k))
      && (forall k :: k in packages ==> packages[k].id == Some(k))
      && (forall k :: k in memberPackages ==> memberPackages[k].id == Some(k) && memberPackages[k].endDate.Some?)
      && (forall k :: k in schedules ==> schedules[k].id == Some(k))
      && (forall k :: k in progress ==> progress[k].id == Some(k))
      && (forall k :: k in reviews ==> reviews[k].id == Some(k))
    }

    /** A database holding the given accounts and no other rows. */
    constructor (accounts: map<Pk, User>)
      requires forall k :: k in accounts ==> accounts[k].id == k
      ensures Valid()
      ensures users == accounts
      ensures profiles == map[] && packages == map[] && memberPackages == map[]
      ensures schedules == map[] && progress == map[] && reviews == map[]
    {
      users := accounts;
      profiles, packages, memberPackages := map[], map[], map[];
      schedules, progress, reviews := map[], map[], map[];
    }

    /** MemberPackage.save: on the first save derive the end date and the balance from the
        package, on every save mark an overdue membership expired, then write the row. */
    method SaveMemberPackage(mp: MemberPackage, today: Date, freshKey: Pk) returns (r: Result<MemberPackage>)
      requires Valid()
      requires mp.id.None? ==> mp.package in packages && freshKey !in memberPackages
      modifies this`memberPackages
      ensures Valid()
      ensures r == SavedMemberPackage(mp, packages, today, freshKey)
      ensures memberPackages == if r.Ok? then old(memberPackages)[r.value.id.value := r.value] else old(memberPackages)
    {
      var m := mp;
      if m.id.None? {
        var pkg := packages[m.package];
        match pkg.packageType {
          case Monthly => m := m.(endDate := Some(m.startDate + 30));
          case Quarterly => m := m.(endDate := Some(m.startDate + 90));
          case Yearly => m := m.(endDate := Some(m.startDate + 365));
          case Unrecognised(_) =>
        }
        m := m.(remainingSessions := pkg.ptSessions);
      }
      if m.endDate.None? {
        return Err(MissingEndDate);
      }
      if m.endDate.value < today {
        m := m.(status := Expired);
      }
      var key := if m.id.Some? then m.id.value else freshKey;
      m := m.(id := Some(key));
      memberPackages := memberPackages[key := m];
      r := Ok(m);
    }

    /** Schedule.save: a schedule with a PT and a member package is refused while the
        package has no sessions left; moving a stored schedule into approved takes one
        session from the package and saves it; then the schedule row is written. */
    method SaveSchedule(s: Schedule, today: Date, freshKey: Pk) returns (r: Result<Schedule>)
      requires Valid()
      requires s.memberPackage.Some? ==> s.memberPackage.value in memberPackages
      requires s.id.None? ==> freshKey !in schedules
      modifies this`memberPackages, this`schedules
      ensures Valid()
      ensures var effect := SessionEffect(s, PriorOf(s, old(schedules)), LinkedPackage(s, old(memberPackages)), today);
        && (effect.Err? ==> r == Err(effect.error) && unchanged(this))
        && (effect.Ok? ==>
          && r == Ok(s.(id := Some(KeyFor(s.id, freshKey))))
          && schedules == old(schedules)[KeyFor(s.id, freshKey) := r.value]
          && memberPackages == if effect.value.Some? then old(memberPackages)[s.memberPackage.value := effect.value.value]
                               else old(memberPackages))
    {
      if s.pt.Some? && s.memberPackage.Some? {
        var mp := memberPackages[s.memberPackage.value];
        if mp.remainingSessions <= 0 {
          return Err(NoRemainingSessions);
        }
        if s.status == Approved && s.id.Some? {
          if s.id.value !in schedules {
            return Err(DoesNotExist);
          }
          if schedules[s.id.value].status != Approved {
            mp := mp.(remainingSessions := mp.remainingSessions - 1);
            var saved := SaveMemberPackage(mp, today, mp.id.value);
          }
        }
      }
      var key := if s.id.Some? then s.id.value else freshKey;
      schedules := schedules[key := s.(id := Some(key))];
      r := Ok(s.(id := Some(key)));
    }

    /** Review.save: refuse a PT rating without a PT, otherwise write the review. */
    method SaveReview(rv: Review, freshKey: Pk) returns (r: Result<Review>)
      requires Valid()
      requires rv.id.None? ==> freshKey !in reviews
      modifies this`reviews
      ensures Valid()
      ensures CheckReview(rv).Err? ==> r == CheckReview(rv) && reviews == old(reviews)
      ensures CheckReview(rv).Ok? ==>
        && r == Ok(rv.(id := Some(KeyFor(rv.id, freshKey))))
        && reviews == old(reviews)[KeyFor(rv.id, freshKey) := r.value]
    {
      if rv.pt.None? && rv.ptRating.Some? {
        return Err(PtRatingWithoutPt);
      }
      var key := if rv.id.Some? then rv.id.value else freshKey;
      reviews := reviews[key := rv.(id := Some(key))];
      r := Ok(rv.(id := Some(key)));
    }

    /** MemberProfile.save: overwrite the BMI with the one computed from height and weight,
        then write the profile. */
    method SaveProfile(p: MemberProfile, freshKey: Pk) returns (saved: MemberProfile)
      requires Valid()
      requires p.id.None? ==> freshKey !in profiles
      modifies this`profiles
      ensures Valid()
      ensures saved == p.(id := Some(KeyFor(p.id, freshKey)), bmi := CalculateBmi(p.height, p.weight))
      ensures profiles == old(profiles)[saved.id.value := saved]
    {
      saved := p.(bmi := CalculateBmi(p.height, p.weight));
      var key := if p.id.Some? then p.id.value else freshKey;
      saved := saved.(id := Some(key));
      profiles := profiles[key := saved];
    }

    /** The default save of a progress record: write it as it is. */
    method SaveProgress(p: Progress, freshKey: Pk) returns (saved: Progress)
      requires Valid()
      requires p.id.None? ==> freshKey !in progress
      modifies this`progress
      ensures Valid()
      ensures saved == p.(id := Some(KeyFor(p.id, freshKey)))
      ensures progress == old(progress)[saved.id.value := saved]
    {
      var key := if p.id.Some? then p.id.value else freshKey;
      saved := p.(id := Some(key));
      progress := progress[key := saved];
    }

    /** The default save of a package: write it as it is. */
    method SavePackage(p: Package, freshKey: Pk) returns (saved: Package)
      requires Valid()
      requires p.id.None? ==> freshKey !in packages
      modifies this`packages
      ensures Valid()
      ensures saved == p.(id := Some(KeyFor(p.id, freshKey)))
      ensures packages == old(packages)[saved.id.value := saved]
    {
      var key := if p.id.Some? then p.id.value else freshKey;
      saved := p.(id := Some(key));
      packages := packages[key := saved];
    }

    /** The default save of a user account: write it under its id. */
    method SaveUser(u: User)
      requires Valid()
      modifies this`users
      ensures Valid()
      ensures users == old(users)[u.id := u]
    {
      users := users[u.id := u];
    }
  }
}
