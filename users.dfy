/** Users: role check at construction, password hashing, login with a five-strike lockout, and the
    role-permission table that guards package status changes. */
module Users {
  import opened Common

  const ValidRoles: set<string> := {"customer_service", "warehouse", "driver", "admin"}

  /** An entry of the permission table: every status, or exactly the listed ones. */
  datatype Allowed = Everything | Only(statuses: set<string>)

  /** Which package statuses each role may set. */
  const StatusPermissions: map<string, Allowed> := map[
    "customer_service" := Only({"Shipment Created"}),
    "warehouse" := Only({"In Transit", "In Transit - Sorting", "Out for Delivery"}),
    "driver" := Only({"Picked Up", "Out for Delivery", "Delivered"}),
    "admin" := Everything
  ]

  /** Failed logins after which an account is disabled. */
  const MaxFailedAttempts: nat := 5

  /** A password digest. The hash is modelled as an injective tag: two passwords share a digest only
      when they are the same password (collisions of the real hash are not modelled). */
  datatype Digest = Sha256Of(text: string)

  function HashPassword(password: string): Digest
  {
    Sha256Of(password)
  }

  lemma HashInjective(p: string, q: string)
    ensures HashPassword(p) == HashPassword(q) <==> p == q
  {
  }

  /** May a user with this role set this status? Admins may set any status; every other role only
      the statuses of its table entry; a role missing from the table none. */
  predicate Permits(role: string, status: string)
  {
    if role == "admin" then true
    else
      match (if role in StatusPermissions then StatusPermissions[role] else Only({}))
      case Everything => true
      case Only(allowed) => status in allowed
  }

  /** The permission table written out role by role. */
  lemma PermitsExactly(role: string, status: string)
    ensures Permits(role, status) <==>
      || role == "admin"
      || (role == "customer_service" && status == "Shipment Created")
      || (role == "warehouse" && status in {"In Transit", "In Transit - Sorting", "Out for Delivery"})
      || (role == "driver" && status in {"Picked Up", "Out for Delivery", "Delivered"})
  {
  }

  lemma PermissionExamples()
    ensures Permits("driver", "Delivered") && Permits("driver", "Picked Up") && Permits("driver", "Out for Delivery")
    ensures !Permits("driver", "Shipment Created")
    ensures !Permits("customer_service", "Out for Delivery")
    ensures forall s :: Permits("admin", s)
  {
  }

  /** The part of a user that logging in changes. */
  datatype Account = Account(isActive: bool, failedAttempts: nat, loginHistory: seq<string>, lastLogin: Option<string>)

  const FreshAccount: Account := Account(true, 0, [], None)

  /** One call of `login`: the account afterwards and what the call returns or raises, given whether
      the password matched and the timestamp the clock gave. */
  function LoginStep(a: Account, passwordOk: bool, stamp: string): (r: (Account, Result<bool>))
    ensures !a.isActive ==> r == (a, Err(PermissionError))
    ensures a.isActive && passwordOk ==>
      r.1 == Ok(true) && r.0.isActive && r.0.failedAttempts == 0 &&
      r.0.loginHistory == a.loginHistory + [stamp] && r.0.lastLogin == Some(stamp)
    ensures a.isActive && !passwordOk ==>
      r.0.failedAttempts == a.failedAttempts + 1 &&
      r.0.loginHistory == a.loginHistory && r.0.lastLogin == a.lastLogin &&
      (r.0.isActive <==> r.0.failedAttempts < MaxFailedAttempts) &&
      r.1 == (if r.0.isActive then Ok(false) else Err(PermissionError))
  {
    if !a.isActive then (a, Err(PermissionError))
    else if passwordOk then (Account(true, 0, a.loginHistory + [stamp], Some(stamp)), Ok(true))
    else
      var failed := a.failedAttempts + 1;
      if failed >= MaxFailedAttempts then (a.(isActive := false, failedAttempts := failed), Err(PermissionError))
      else (a.(failedAttempts := failed), Ok(false))
  }

  /** The lockout invariant: at most five failures, and an active account has fewer than five. */
  predicate WithinLockout(a: Account)
  {
    a.failedAttempts <= MaxFailedAttempts && (a.isActive ==> a.failedAttempts < MaxFailedAttempts)
  }

  lemma LoginKeepsLockout(a: Account, passwordOk: bool, stamp: string)
    requires WithinLockout(a)
    ensures WithinLockout(LoginStep(a, passwordOk, stamp).0)
  {
  }

  /** The account after a run of logins, the i-th with outcome `oks[i]` and stamp `stamps[i]`. */
  function LoginRun(a: Account, oks: seq<bool>, stamps: seq<string>): Account
    requires |oks| == |stamps|
    decreases |oks|
  {
    if oks == [] then a else LoginRun(LoginStep(a, oks[0], stamps[0]).0, oks[1..], stamps[1..])
  }

  /** Any run of logins from a fresh account keeps the lockout invariant. */
  lemma {:induction false} LoginRunKeepsLockout(a: Account, oks: seq<bool>, stamps: seq<string>)
    requires |oks| == |stamps| && WithinLockout(a)
    ensures WithinLockout(LoginRun(a, oks, stamps))
    decreases |oks|
  {
    if oks != [] {
      LoginKeepsLockout(a, oks[0], stamps[0]);
      LoginRunKeepsLockout(LoginStep(a, oks[0], stamps[0]).0, oks[1..], stamps[1..]);
    }
  }

  /** Five wrong passwords in a row from a fresh account disable it, and after that even the right
      password is refused without any change. */
  lemma {:induction false} FiveStrikes(stamps: seq<string>, stamp: string)
    requires |stamps| == 5
    ensures var a := LoginRun(FreshAccount, [false, false, false, false, false], stamps);
      !a.isActive && a.failedAttempts == 5 && LoginStep(a, true, stamp) == (a, Err(PermissionError))
  {
    var a1 := LoginStep(FreshAccount, false, stamps[0]).0;
    var a2 := LoginStep(a1, false, stamps[1]).0;
    var a3 := LoginStep(a2, false, stamps[2]).0;
    var a4 := LoginStep(a3, false, stamps[3]).0;
    var a5 := LoginStep(a4, false, stamps[4]).0;
    assert LoginRun(a5, [], []) == a5;
    assert LoginRun(a4, [false], stamps[4..]) == a5;
    assert LoginRun(a3, [false, false], stamps[3..]) == a5;
    assert LoginRun(a2, [false, false, false], stamps[2..]) == a5;
    assert LoginRun(a1, [false, false, false, false], stamps[1..]) == a5;
  }

  class User {
    const userId: string
    const username: string
    const passwordHash: Digest
    const role: string
    var isActive: bool
    var failedAttempts: nat
    var loginHistory: seq<string>
    var lastLogin: Option<string>

    /** The role is checked by `NewUser` before construction. */
    constructor (userId: string, username: string, password: string, role: string)
      requires role in ValidRoles
      ensures this.userId == userId && this.username == username && this.role == role
      ensures passwordHash == HashPassword(password)
      ensures State() == FreshAccount
    {
      this.userId := userId;
      this.username := username;
      this.passwordHash := HashPassword(password);
      this.role := role;
      isActive := true;
      failedAttempts := 0;
      loginHistory := [];
      lastLogin := None;
    }

    ghost function State(): Account
      reads this
    {
      Account(isActive, failedAttempts, loginHistory, lastLogin)
    }

    ghost predicate Valid()
      reads this
    {
      role in ValidRoles && WithinLockout(State())
    }

    predicate VerifyPassword(password: string)
    {
      passwordHash == HashPassword(password)
    }

    /** `login(password)`, with the timestamp the clock gives as a parameter. */
    method Login(password: string, stamp: string) returns (r: Result<bool>)
      modifies this
      ensures (State(), r) == LoginStep(old(State()), VerifyPassword(password), stamp)
      ensures old(Valid()) ==> Valid()
    {
      if !isActive {
        return Err(PermissionError);
      }
      if VerifyPassword(password) {
        lastLogin := Some(stamp);
        loginHistory := loginHistory + [stamp];
        failedAttempts := 0;
        return Ok(true);
      }
      failedAttempts := failedAttempts + 1;
      if failedAttempts >= MaxFailedAttempts {
        isActive := false;
        return Err(PermissionError);
      }
      return Ok(false);
    }

    predicate CanUpdateStatus(status: string)
    {
      Permits(role, status)
    }

    predicate CanCreatePackage()
    {
      role in {"customer_service", "admin"}
    }

    predicate CanViewAllPackages()
    {
      role == "admin"
    }

    predicate CanViewCustomerPackages()
    {
      role in {"customer_service", "warehouse", "driver", "admin"}
    }
  }

  /** Only a user built with the same password verifies. */
  lemma VerifyOnlyOwnPassword(u: User, password: string, attempt: string)
    requires u.passwordHash == HashPassword(password)
    ensures u.VerifyPassword(attempt) <==> attempt == password
  {
  }

  /** What each valid role may do besides setting statuses. */
  lemma RolePrivileges(u: User)
    requires u.role in ValidRoles
    ensures u.CanViewCustomerPackages()
    ensures u.CanViewAllPackages() <==> u.role == "admin"
    ensures u.CanCreatePackage() <==> u.role == "customer_service" || u.role == "admin"
    ensures u.CanViewAllPackages() ==> u.CanCreatePackage() && forall s :: u.CanUpdateStatus(s)
  {
  }

  /** `User(username, password, role)`: raises ValueError for a role outside the four known ones.
      The fresh uuid is a parameter. */
  method NewUser(userId: string, username: string, password: string, role: string) returns (r: Result<User>)
    ensures role !in ValidRoles ==> r == Err(ValueError)
    ensures role in ValidRoles ==>
      && r.Ok? && fresh(r.value) && r.value.Valid()
      && r.value.userId == userId && r.value.username == username && r.value.role == role
      && r.value.passwordHash == HashPassword(password) && r.value.State() == FreshAccount
  {
    if role !in ValidRoles {
      return Err(ValueError);
    }
    var u := new User(userId, username, password, role);
    return Ok(u);
  }
}
