/**
 * The user of the domain layer: a three-step grade ladder, a role and an
 * active flag, all changed in place.
 */
module UserDomain {
  import opened Common
  import opened Exceptions

  /** BRONZE, then SILVER, then GOLD. */
  datatype Grade = Bronze | Silver | Gold {
    /** The position on the ladder. */
    function Rank(): (r: nat)
      ensures r <= 2
    {
      match this
      case Bronze => 0
      case Silver => 1
      case Gold => 2
    }
  }

  /** The grade one step up; GOLD stays GOLD. */
  function Promoted(g: Grade): (r: Grade)
    ensures r.Rank() == if g.Rank() == 2 then 2 else g.Rank() + 1
  {
    match g
    case Bronze => Silver
    case Silver => Gold
    case Gold => Gold
  }

  /** The grade one step down; BRONZE stays BRONZE. */
  function Demoted(g: Grade): (r: Grade)
    ensures r.Rank() == if g.Rank() == 0 then 0 else g.Rank() - 1
  {
    match g
    case Gold => Silver
    case Silver => Bronze
    case Bronze => Bronze
  }

  /** The rank identifies the grade, so the rank contracts above pin the
      grade down. */
  lemma RankInjective(a: Grade, b: Grade)
    ensures a.Rank() == b.Rank() <==> a == b
  {
  }

  /** Demotion undoes promotion below the top, and promotion undoes demotion
      above the bottom. */
  lemma PromoteDemoteInverse(g: Grade)
    ensures g != Gold ==> Demoted(Promoted(g)) == g
    ensures g != Bronze ==> Promoted(Demoted(g)) == g
  {
  }

  /** Two promotions reach GOLD from anywhere, two demotions BRONZE. */
  lemma LadderEnds(g: Grade)
    ensures Promoted(Promoted(g)) == Gold && Demoted(Demoted(g)) == Bronze
  {
    RankInjective(Promoted(Promoted(g)), Gold);
    RankInjective(Demoted(Demoted(g)), Bronze);
  }

  /** The roles an account can hold. */
  datatype Role = RoleUser | RoleAdmin

  datatype UserData = UserData(id: Uuid, email: Option<string>, name: Option<string>, role: Option<Role>,
                               grade: Option<Grade>, active: bool)

  class User {
    const id: Uuid
    var email: Option<string>
    var name: Option<string>
    var role: Option<Role>
    var grade: Option<Grade>
    var active: bool

    function Data(): UserData
      reads this
    {
      UserData(id, email, name, role, grade, active)
    }

    /** The builder. */
    constructor (data: UserData)
      ensures Data() == data
    {
      id, email, name, role, grade, active := data.id, data.email, data.name, data.role, data.grade, data.active;
    }

    method Rename(name: Option<string>)
      modifies this`name
      ensures this.name == name
    {
      this.name := name;
    }

    method ChangeEmail(email: Option<string>)
      modifies this`email
      ensures this.email == email
    {
      this.email := email;
    }

    /** Switching on a `null` grade throws. */
    method PromoteGrade() returns (out: Outcome)
      modifies this`grade
      ensures old(grade).None? ==> out == Fail(NullPointer) && grade == None
      ensures old(grade).Some? ==> out == Done && grade == Some(Promoted(old(grade).value))
    {
      if grade.None? {
        return Fail(NullPointer);
      }
      grade := Some(Promoted(grade.value));
      out := Done;
    }

    method DemoteGrade() returns (out: Outcome)
      modifies this`grade
      ensures old(grade).None? ==> out == Fail(NullPointer) && grade == None
      ensures old(grade).Some? ==> out == Done && grade == Some(Demoted(old(grade).value))
    {
      if grade.None? {
        return Fail(NullPointer);
      }
      grade := Some(Demoted(grade.value));
      out := Done;
    }

    method GrantAdmin()
      modifies this`role
      ensures role == Some(RoleAdmin)
    {
      role := Some(RoleAdmin);
    }

    /** Replaces whatever role the user had, ADMIN included. */
    method GrantUser()
      modifies this`role
      ensures role == Some(RoleUser)
    {
      role := Some(RoleUser);
    }

    method Activate()
      modifies this`active
      ensures active
    {
      active := true;
    }

    method Deactivate()
      modifies this`active
      ensures !active
    {
      active := false;
    }

    function IsAdmin(): (r: bool)
      reads this`role
      ensures r <==> role == Some(RoleAdmin)
    {
      role == Some(RoleAdmin)
    }

    function IsActive(): (r: bool)
      reads this`active
      ensures r <==> active
    {
      active
    }
  }

  /** Granting and then revoking administration: the user is an admin in
      between and a plain user afterwards, whatever role they had before. */
  method GrantThenRevoke(data: UserData) returns (between: bool, after: bool, role: Option<Role>)
    ensures between && !after && role == Some(RoleUser)
  {
    var u := new User(data);
    u.GrantAdmin();
    between := u.IsAdmin();
    u.GrantUser();
    after := u.IsAdmin();
    role := u.role;
  }

  /** Deactivating and reactivating leaves every other field as it was. */
  method DeactivateThenActivate(data: UserData) returns (result: UserData)
    ensures result == data.(active := true)
  {
    var u := new User(data);
    u.Deactivate();
    u.Activate();
    result := u.Data();
  }

  /** `isActive()` follows the last of `deactivate` and `activate`, whatever
      the flag was before. */
  method ActivationToggles(data: UserData) returns (afterDeactivate: bool, afterActivate: bool)
    ensures !afterDeactivate && afterActivate
  {
    var u := new User(data);
    u.Deactivate();
    afterDeactivate := u.IsActive();
    u.Activate();
    afterActivate := u.IsActive();
  }

  /** Promoting a GOLD user leaves them GOLD; demoting a BRONZE one leaves
      them BRONZE. */
  method GradeBounds(data: UserData) returns (top: Option<Grade>, bottom: Option<Grade>)
    ensures top == Some(Gold) && bottom == Some(Bronze)
  {
    var u := new User(data.(grade := Some(Gold)));
    var _ := u.PromoteGrade();
    top := u.grade;
    var v := new User(data.(grade := Some(Bronze)));
    var _ := v.DemoteGrade();
    bottom := v.grade;
  }
}
