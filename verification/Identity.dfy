/**
 Accounts and branches in the local database, mirrored in Keycloak by calls that may fail one by
 one, with compensation when the database write fails after Keycloak was changed.
 */
module Identity {
  import opened Common

  datatype Role = Employee | Manager | Admin

  datatype Branch = Branch(code: string, name: string, active: bool)

  /** Rows written by other programs may lack a full name. */
  datatype Account = Account(
    username: string, fullName: Option<string>, role: Role, branchId: Option<nat>, keycloakId: Option<string>,
    active: bool)

  /** A Keycloak user; only the application roles are of interest. */
  datatype KeycloakUser = KeycloakUser(username: string, firstName: Option<string>, enabled: bool, roles: set<Role>)

  type Directory = map<string, KeycloakUser>

  /**
   The realm's application roles, whether an initial password is configured, whether a creation
   answers with the new user's location, whether a search by name finds it, whether a first name
   sent as null clears the name or leaves it, and which remote calls get through.
   */
  datatype Environment = Environment(
    realm: set<Role>, password: bool, located: bool, found: bool, clears: bool, net: nat -> bool)

  // ---- Keycloak requests ----

  /** The directory after some calls, the number of calls made so far, and whether all got through. */
  datatype Remote = Remote(users: Directory, calls: nat, ok: bool)

  datatype Change = Rename(firstName: Option<string>) | Enable(enabled: bool) | Strip | Grant(role: Role) | Password

  function Renamed(env: Environment, before: Option<string>, given: Option<string>): Option<string> {
    if given.Some? || env.clears then given else before
  }

  function Changed(env: Environment, u: KeycloakUser, change: Change): KeycloakUser {
    match change
    case Rename(firstName) => u.(firstName := Renamed(env, u.firstName, firstName))
    case Enable(enabled) => u.(enabled := enabled)
    case Strip => u.(roles := u.roles - env.realm)
    case Grant(role) => u.(roles := u.roles + {role})
    case Password => u
  }

  /** One atomic request: it changes one existing user, or raises and changes nothing. */
  function Request(env: Environment, r: Remote, id: string, change: Change): Remote {
    if env.net(r.calls) && id in r.users then
      Remote(r.users[id := Changed(env, r.users[id], change)], r.calls + 1, true)
    else Remote(r.users, r.calls + 1, false)
  }

  function Delete(env: Environment, r: Remote, id: string): Remote {
    if env.net(r.calls) && id in r.users then Remote(r.users - {id}, r.calls + 1, true)
    else Remote(r.users, r.calls + 1, false)
  }

  /** Reads the realm's roles, takes all application roles away, and adds the selected one. */
  function AssignRole(env: Environment, r: Remote, id: string, role: Role): Remote {
    if !env.net(r.calls) || role !in env.realm then Remote(r.users, r.calls + 1, false)
    else
      var stripped := Request(env, r.(calls := r.calls + 1), id, Strip);
      if stripped.ok then Request(env, stripped, id, Grant(role)) else stripped
  }

  /** The password is set, then a change at the next login is required. */
  function ResetPassword(env: Environment, r: Remote, id: string): Remote {
    if !env.password then r.(ok := false)
    else
      var first := Request(env, r, id, Password);
      if first.ok then Request(env, first, id, Password) else first
  }

  /** Role and password of a user that has just been created. */
  function Furnish(env: Environment, r: Remote, id: string, role: Role): Remote {
    var granted := AssignRole(env, r, id, role);
    if granted.ok then ResetPassword(env, granted, id) else granted
  }

  predicate NameTaken(users: Directory, username: string) {
    exists k :: k in users && users[k].username == username
  }

  function CreateUser(env: Environment, r: Remote, id: string, username: string, fullName: string): Remote {
    if !env.net(r.calls) || NameTaken(r.users, username) then Remote(r.users, r.calls + 1, false)
    else Remote(r.users[id := KeycloakUser(username, Some(fullName), true, {})], r.calls + 1, true)
  }

  /** The identifier of a user just created: from the answer's location, or else by a search for the name. */
  function Locate(env: Environment, r: Remote): Remote {
    if env.located then r else Remote(r.users, r.calls + 1, env.net(r.calls) && env.found)
  }

  /**
   Creates the user with its role and password.  A failure while furnishing it tries to remove it
   again; a failure to learn its identifier does not.
   */
  function Provision(env: Environment, r: Remote, id: string, username: string, fullName: string, role: Role): Remote {
    if !env.password then r.(ok := false)
    else
      var created := CreateUser(env, r, id, username, fullName);
      var located := if created.ok then Locate(env, created) else created;
      if !located.ok then located
      else
        var ready := Furnish(env, located, id, role);
        if ready.ok then ready else Delete(env, ready, id).(ok := false)
  }

  function UpdateProfile(env: Environment, r: Remote, id: string, fullName: Option<string>, role: Role): Remote {
    var named := Request(env, r, id, Rename(fullName));
    if named.ok then AssignRole(env, named, id, role) else named
  }

  class KeycloakAdminClient {
    const env: Environment
    var users: Directory
    var calls: nat

    function State(): Remote
      reads this
    {
      Remote(users, calls, true)
    }

    constructor (env: Environment, users: Directory)
      ensures this.env == env && this.users == users && calls == 0
    {
      this.env := env;
      this.users := users;
      calls := 0;
    }

    method Send(id: string, change: Change) returns (ok: bool)
      modifies this
      ensures State().(ok := ok) == Request(env, old(State()), id, change)
    {
      ok := env.net(calls) && id in users;
      calls := calls + 1;
      if ok { users := users[id := Changed(env, users[id], change)]; }
    }

    method DeleteAccount(id: string) returns (ok: bool)
      modifies this
      ensures State().(ok := ok) == Delete(env, old(State()), id)
    {
      ok := env.net(calls) && id in users;
      calls := calls + 1;
      if ok { users := users - {id}; }
    }

    method Assign(id: string, role: Role) returns (ok: bool)
      modifies this
      ensures State().(ok := ok) == AssignRole(env, old(State()), id, role)
    {
      ok := env.net(calls);
      calls := calls + 1;
      if !ok || role !in env.realm { return false; }
      ok := Send(id, Strip);
      if ok { ok := Send(id, Grant(role)); }
    }

    method ResetAccountPassword(id: string) returns (ok: bool)
      modifies this
      ensures State().(ok := ok) == ResetPassword(env, old(State()), id)
    {
      if !env.password { return false; }
      ok := Send(id, Password);
      if ok { ok := Send(id, Password); }
    }

    method FindUserId() returns (ok: bool)
      modifies this`calls
      ensures State().(ok := ok) == Locate(env.(located := false), old(State()))
    {
      ok := env.net(calls) && env.found;
      calls := calls + 1;
    }

    method FurnishAccount(id: string, role: Role) returns (ok: bool)
      modifies this
      ensures State().(ok := ok) == Furnish(env, old(State()), id, role)
    {
      ok := Assign(id, role);
      if ok { ok := ResetAccountPassword(id); }
    }

    /** The creating request: usernames are unique in Keycloak. */
    method Post(id: string, username: string, fullName: string) returns (ok: bool)
      modifies this
      ensures State().(ok := ok) == CreateUser(env, old(State()), id, username, fullName)
    {
      ok := env.net(calls) && !NameTaken(users, username);
      calls := calls + 1;
      if ok { users := users[id := KeycloakUser(username, Some(fullName), true, {})]; }
    }

    /** `id` is the identifier Keycloak chooses for the new user. */
    method ProvisionAccount(id: string, username: string, fullName: string, role: Role) returns (ok: bool)
      modifies this
      ensures State().(ok := ok) == Provision(env, old(State()), id, username, fullName, role)
    {
      if !env.password { return false; }
      ok := Post(id, username, fullName);
      if !ok { return; }
      if !env.located { ok := FindUserId(); }
      if !ok { return; }
      ok := FurnishAccount(id, role);
      if !ok { var _ := DeleteAccount(id); }
    }

    method UpdateAccount(id: string, fullName: Option<string>, role: Role) returns (ok: bool)
      modifies this
      ensures State().(ok := ok) == UpdateProfile(env, old(State()), id, fullName, role)
    {
      ok := Send(id, Rename(fullName));
      if ok { ok := Assign(id, role); }
    }
  }

  // ---- The operations of the service ----

  datatype World = World(branches: map<nat, Branch>, accounts: map<nat, Account>, remote: Remote)

  datatype Outcome = Done | BadRequest | Forbidden | NotFound | Conflict | Unavailable | DatabaseError | AuditError

  /** Whether the database write of an operation and its audit entry succeed. */
  datatype Luck = Luck(write: bool, audit: bool)

  function BranchCheck(branches: map<nat, Branch>, role: Role, branchId: Option<nat>): Outcome {
    if role == Admin then (if branchId.Some? then BadRequest else Done)
    else if branchId.None? || branchId.value == 0 then BadRequest
    else if branchId.value !in branches then NotFound
    else if !branches[branchId.value].active then Conflict
    else Done
  }

  predicate ActiveAdmin(a: Account) {
    a.role == Admin && a.active
  }

  predicate AnotherAdmin(accounts: map<nat, Account>, id: nat) {
    exists k :: k in accounts && k != id && ActiveAdmin(accounts[k])
  }

  /** The service counts them: there is another admin exactly if the count is at least one. */
  lemma {:induction false} AnotherAdminIsCounted(accounts: map<nat, Account>, id: nat)
    ensures var others := set k | k in accounts && k != id && accounts[k].role == Admin && accounts[k].active;
      AnotherAdmin(accounts, id) <==> |others| >= 1
  {
    var others := set k | k in accounts && k != id && accounts[k].role == Admin && accounts[k].active;
    if AnotherAdmin(accounts, id) {
      var k :| k in accounts && k != id && ActiveAdmin(accounts[k]);
      assert others == {k} + (others - {k});
    } else {
      assert forall k :: k in accounts && k != id ==> !ActiveAdmin(accounts[k]);
      assert others == {};
    }
  }

  predicate UsernameTaken(accounts: map<nat, Account>, username: string) {
    exists k :: k in accounts && accounts[k].username == username
  }

  datatype CreateCommand = CreateCommand(
    newId: nat, keycloakId: string, username: string, fullName: string, role: Role, branchId: Option<nat>)

  function CreateAccount(env: Environment, w: World, luck: Luck, c: CreateCommand): (World, Outcome) {
    var check := BranchCheck(w.branches, c.role, c.branchId);
    if check != Done then (w, check)
    else
      var made := Provision(env, w.remote, c.keycloakId, c.username, c.fullName, c.role);
      if !made.ok then (w.(remote := made), Unavailable)
      else
        var taken := UsernameTaken(w.accounts, c.username);
        var row := Account(c.username, Some(c.fullName), c.role, c.branchId, Some(c.keycloakId), true);
        if luck.write && !taken && luck.audit then
          (w.(accounts := w.accounts[c.newId := row], remote := made), Done)
        else
          var undone := Delete(env, made, c.keycloakId);
          if luck.write && !taken then (w.(accounts := w.accounts[c.newId := row], remote := undone), AuditError)
          else (w.(remote := undone), if luck.write then Conflict else DatabaseError)
  }

  datatype UpdateCommand = UpdateCommand(id: nat, fullName: string, role: Role, branchId: Option<nat>)

  function UpdateAccount(env: Environment, w: World, luck: Luck, c: UpdateCommand): (World, Outcome) {
    if c.id !in w.accounts then (w, NotFound)
    else
      var current := w.accounts[c.id];
      var check := BranchCheck(w.branches, c.role, c.branchId);
      if check != Done then (w, check)
      else if current.role == Admin && c.role != Admin && !AnotherAdmin(w.accounts, c.id) then (w, Conflict)
      else
        var told :=
          if current.keycloakId.None? then w.remote.(ok := true)
          else UpdateProfile(env, w.remote, current.keycloakId.value, Some(c.fullName), c.role);
        if !told.ok then (w.(remote := told), Unavailable)
        else if luck.write then
          var row := current.(fullName := Some(c.fullName), role := c.role, branchId := c.branchId);
          (w.(accounts := w.accounts[c.id := row],
              remote := told), if luck.audit then Done else AuditError)
        else if current.keycloakId.None? then (w.(remote := told), DatabaseError)
        else (w.(remote := UpdateProfile(env, told, current.keycloakId.value, current.fullName, current.role)),
          DatabaseError)
  }

  datatype Actor = Actor(id: Option<nat>, subject: string)

  function SetAccountEnabled(
      env: Environment, w: World, luck: Luck, actor: Actor, id: nat, enabled: bool): (World, Outcome)
  {
    if id !in w.accounts then (w, NotFound)
    else
      var account := w.accounts[id];
      if !enabled && (actor.id == Some(id) || account.keycloakId == Some(actor.subject)) then (w, Forbidden)
      else if !enabled && account.role == Admin && !AnotherAdmin(w.accounts, id) then (w, Conflict)
      else if account.keycloakId.None? then (w, Conflict)
      else
        var told := Request(env, w.remote, account.keycloakId.value, Enable(enabled));
        if !told.ok then (w.(remote := told), Unavailable)
        else if luck.write then
          (w.(accounts := w.accounts[id := account.(active := enabled)], remote := told),
           if luck.audit then Done else AuditError)
        else (w.(remote := Request(env, told, account.keycloakId.value, Enable(!enabled))), DatabaseError)
  }

  function CreateBranch(w: World, luck: Luck, newId: nat, code: string, name: string): (World, Outcome) {
    if !luck.write then (w, DatabaseError)
    else if exists k :: k in w.branches && w.branches[k].code == code then (w, Conflict)
    else (w.(branches := w.branches[newId := Branch(code, name, true)]), if luck.audit then Done else AuditError)
  }

  predicate Staffed(accounts: map<nat, Account>, branch: nat) {
    exists k :: k in accounts && accounts[k].active && accounts[k].branchId == Some(branch)
  }

  function DeactivateBranch(w: World, luck: Luck, id: nat): (World, Outcome) {
    if Staffed(w.accounts, id) then (w, Conflict)
    else if !luck.write then (w, DatabaseError)
    else if id !in w.branches || !w.branches[id].active then (w, NotFound)
    else (w.(branches := w.branches[id := w.branches[id].(active := false)]), if luck.audit then Done else AuditError)
  }

  /** A request to deactivate ignores the new name. */
  function UpdateBranch(w: World, luck: Luck, id: nat, name: string, active: Option<bool>): (World, Outcome) {
    if active == Some(false) then DeactivateBranch(w, luck, id)
    else if !luck.write then (w, DatabaseError)
    else if id !in w.branches then (w, NotFound)
    else
      var b := w.branches[id];
      (w.(branches := w.branches[id := b.(name := name, active := if active.Some? then active.value else b.active)]),
       if luck.audit then Done else AuditError)
  }

  class IdentityService {
    const keycloak: KeycloakAdminClient
    var branches: map<nat, Branch>
    var accounts: map<nat, Account>

    function State(): World
      reads this, keycloak
    {
      World(branches, accounts, keycloak.State())
    }

    constructor (keycloak: KeycloakAdminClient, branches: map<nat, Branch>, accounts: map<nat, Account>)
      ensures this.keycloak == keycloak && this.branches == branches && this.accounts == accounts
    {
      this.keycloak := keycloak;
      this.branches := branches;
      this.accounts := accounts;
    }

    method ValidateRoleBranch(role: Role, branchId: Option<nat>) returns (check: Outcome)
      ensures check == BranchCheck(branches, role, branchId)
    {
      if role == Admin {
        if branchId.Some? { return BadRequest; }
        return Done;
      }
      if branchId.None? || branchId.value == 0 { return BadRequest; }
      if branchId.value !in branches { return NotFound; }
      if !branches[branchId.value].active { return Conflict; }
      check := Done;
    }

    method Create(luck: Luck, c: CreateCommand) returns (outcome: Outcome)
      modifies this, keycloak
      ensures Same(State(), outcome, CreateAccount(keycloak.env, old(State()), luck, c))
    {
      outcome := ValidateRoleBranch(c.role, c.branchId);
      if outcome != Done { return; }
      var ok := keycloak.ProvisionAccount(c.keycloakId, c.username, c.fullName, c.role);
      if !ok { return Unavailable; }
      if !luck.write {
        outcome := DatabaseError;
      } else if UsernameTaken(accounts, c.username) {
        outcome := Conflict;
      } else {
        var row := Account(c.username, Some(c.fullName), c.role, c.branchId, Some(c.keycloakId), true);
        accounts := accounts[c.newId := row];
        if luck.audit { return Done; }
        outcome := AuditError;
      }
      var _ := keycloak.DeleteAccount(c.keycloakId);
    }

    method Update(luck: Luck, c: UpdateCommand) returns (outcome: Outcome)
      modifies this, keycloak
      ensures Same(State(), outcome, UpdateAccount(keycloak.env, old(State()), luck, c))
    {
      if c.id !in accounts { return NotFound; }
      var current := accounts[c.id];
      outcome := ValidateRoleBranch(c.role, c.branchId);
      if outcome != Done { return; }
      if current.role == Admin && c.role != Admin && !AnotherAdmin(accounts, c.id) { return Conflict; }
      if current.keycloakId.Some? {
        var ok := keycloak.UpdateAccount(current.keycloakId.value, Some(c.fullName), c.role);
        if !ok { return Unavailable; }
      }
      if !luck.write {
        if current.keycloakId.Some? {
          var _ := keycloak.UpdateAccount(current.keycloakId.value, current.fullName, current.role);
        }
        return DatabaseError;
      }
      accounts := accounts[c.id := current.(fullName := Some(c.fullName), role := c.role, branchId := c.branchId)];
      outcome := if luck.audit then Done else AuditError;
    }

    method SetEnabled(luck: Luck, actor: Actor, id: nat, enabled: bool) returns (outcome: Outcome)
      modifies this, keycloak
      ensures Same(State(), outcome, SetAccountEnabled(keycloak.env, old(State()), luck, actor, id, enabled))
    {
      if id !in accounts { return NotFound; }
      var account := accounts[id];
      if !enabled && (actor.id == Some(id) || account.keycloakId == Some(actor.subject)) { return Forbidden; }
      if !enabled && account.role == Admin && !AnotherAdmin(accounts, id) { return Conflict; }
      if account.keycloakId.None? { return Conflict; }
      var ok := keycloak.Send(account.keycloakId.value, Enable(enabled));
      if !ok { return Unavailable; }
      if !luck.write {
        var _ := keycloak.Send(account.keycloakId.value, Enable(!enabled));
        return DatabaseError;
      }
      accounts := accounts[id := account.(active := enabled)];
      outcome := if luck.audit then Done else AuditError;
    }

    method Deactivate(luck: Luck, id: nat) returns (outcome: Outcome)
      modifies this
      ensures (State(), outcome) == DeactivateBranch(old(State()), luck, id)
    {
      if Staffed(accounts, id) { return Conflict; }
      if !luck.write { return DatabaseError; }
      if id !in branches || !branches[id].active { return NotFound; }
      branches := branches[id := branches[id].(active := false)];
      outcome := if luck.audit then Done else AuditError;
    }
  }

  /** State and outcome are those of the specification, apart from whether the last remote call got through. */
  predicate Same(w: World, outcome: Outcome, spec: (World, Outcome)) {
    outcome == spec.1 && w.branches == spec.0.branches && w.accounts == spec.0.accounts
    && w.remote.users == spec.0.remote.users && w.remote.calls == spec.0.remote.calls
  }

  // ---- Every sequence of operations ----

  datatype Op =
    | OpCreate(create: CreateCommand)
    | OpUpdate(update: UpdateCommand)
    | OpEnable(actor: Actor, id: nat, enabled: bool)
    | OpNewBranch(id: nat, code: string, name: string)
    | OpBranch(id: nat, name: string, active: Option<bool>)

  /** Generated identifiers are new. */
  predicate FreshIds(w: World, op: Op) {
    match op
    case OpCreate(c) => c.newId !in w.accounts && c.keycloakId !in w.remote.users
      && forall k :: k in w.accounts ==> w.accounts[k].keycloakId != Some(c.keycloakId)
    case OpNewBranch(id, _, _) => id !in w.branches
    case _ => true
  }

  function Apply(env: Environment, w: World, op: Op, luck: Luck): (World, Outcome) {
    if !FreshIds(w, op) then (w, DatabaseError)
    else match op
      case OpCreate(c) => CreateAccount(env, w, luck, c)
      case OpUpdate(c) => UpdateAccount(env, w, luck, c)
      case OpEnable(actor, id, enabled) => SetAccountEnabled(env, w, luck, actor, id, enabled)
      case OpNewBranch(id, code, name) => CreateBranch(w, luck, id, code, name)
      case OpBranch(id, name, active) => UpdateBranch(w, luck, id, name, active)
  }

  function Exec(env: Environment, w: World, ops: seq<(Op, Luck)>): World {
    if ops == [] then w
    else
      var n := |ops| - 1;
      Apply(env, Exec(env, w, ops[..n]), ops[n].0, ops[n].1).0
  }

  /** Admins have no branch, everybody else belongs to an existing one. */
  predicate WellPlaced(branches: map<nat, Branch>, a: Account) {
    if a.role == Admin then a.branchId.None? else a.branchId.Some? && a.branchId.value in branches
  }

  predicate Sound(w: World) {
    && (forall k :: k in w.accounts ==> WellPlaced(w.branches, w.accounts[k]))
    && (exists k :: k in w.accounts && ActiveAdmin(w.accounts[k]))
  }

  /** Replacing an account keeps an active admin, if it was none, stays one, or another one exists. */
  lemma {:induction false} AdminStays(accounts: map<nat, Account>, id: nat, a: Account)
    requires exists k :: k in accounts && ActiveAdmin(accounts[k])
    requires id in accounts && ActiveAdmin(accounts[id]) ==> ActiveAdmin(a) || AnotherAdmin(accounts, id)
    ensures var after := accounts[id := a]; exists k :: k in after && ActiveAdmin(after[k])
  {
    var after := accounts[id := a];
    var k :| k in accounts && ActiveAdmin(accounts[k]);
    if k != id {
      assert k in after && ActiveAdmin(after[k]);
    } else if ActiveAdmin(a) {
      assert id in after && ActiveAdmin(after[id]);
    } else {
      var l :| l in accounts && l != id && ActiveAdmin(accounts[l]);
      assert l in after && ActiveAdmin(after[l]);
    }
  }

  lemma {:induction false} CreateSound(env: Environment, w: World, luck: Luck, c: CreateCommand)
    requires Sound(w) && FreshIds(w, OpCreate(c))
    ensures Sound(CreateAccount(env, w, luck, c).0)
  {
    var row := Account(c.username, Some(c.fullName), c.role, c.branchId, Some(c.keycloakId), true);
    AdminStays(w.accounts, c.newId, row);
  }

  lemma {:induction false} UpdateSound(env: Environment, w: World, luck: Luck, c: UpdateCommand)
    requires Sound(w)
    ensures Sound(UpdateAccount(env, w, luck, c).0)
  {
    if c.id in w.accounts {
      var current := w.accounts[c.id];
      var row := current.(fullName := Some(c.fullName), role := c.role, branchId := c.branchId);
      if current.role == Admin && c.role != Admin && !AnotherAdmin(w.accounts, c.id) {
      } else {
        AdminStays(w.accounts, c.id, row);
      }
    }
  }

  lemma {:induction false} EnableSound(env: Environment, w: World, luck: Luck, actor: Actor, id: nat, enabled: bool)
    requires Sound(w)
    ensures Sound(SetAccountEnabled(env, w, luck, actor, id, enabled).0)
  {
    if id in w.accounts && (enabled || w.accounts[id].role != Admin || AnotherAdmin(w.accounts, id)) {
      AdminStays(w.accounts, id, w.accounts[id].(active := enabled));
    }
  }

  lemma {:induction false} BranchSound(w: World, branches: map<nat, Branch>)
    requires Sound(w) && w.branches.Keys <= branches.Keys
    ensures Sound(w.(branches := branches))
  {
    forall k | k in w.accounts ensures WellPlaced(branches, w.accounts[k]) {
      assert WellPlaced(w.branches, w.accounts[k]);
    }
  }

  lemma {:induction false} StepSound(env: Environment, w: World, op: Op, luck: Luck)
    requires Sound(w)
    ensures Sound(Apply(env, w, op, luck).0)
  {
    if FreshIds(w, op) {
      match op
      case OpCreate(c) => CreateSound(env, w, luck, c);
      case OpUpdate(c) => UpdateSound(env, w, luck, c);
      case OpEnable(actor, id, enabled) => EnableSound(env, w, luck, actor, id, enabled);
      case OpNewBranch(_, _, _) => BranchSound(w, Apply(env, w, op, luck).0.branches);
      case OpBranch(_, _, _) => BranchSound(w, Apply(env, w, op, luck).0.branches);
    }
  }

  /** Over every sequence of operations and failures: placement is right and an active admin remains. */
  lemma {:induction false} AlwaysSound(env: Environment, w: World, ops: seq<(Op, Luck)>)
    requires Sound(w)
    ensures Sound(Exec(env, w, ops))
  {
    if ops != [] {
      var n := |ops| - 1;
      AlwaysSound(env, w, ops[..n]);
      StepSound(env, Exec(env, w, ops[..n]), ops[n].0, ops[n].1);
    }
  }

  // ---- What a successful operation did ----

  /** The role goes with the branch: the refusals of a placement, and when there is none. */
  lemma {:induction false} PlacementExactly(branches: map<nat, Branch>, role: Role, branchId: Option<nat>)
    ensures var check := BranchCheck(branches, role, branchId);
      && (check == Done <==>
          if role == Admin then branchId.None?
          else branchId.Some? && branchId.value > 0 && branchId.value in branches && branches[branchId.value].active)
      && (check == NotFound <==>
          role != Admin && branchId.Some? && branchId.value > 0 && branchId.value !in branches)
      && (check == Conflict <==>
          && role != Admin && branchId.Some? && branchId.value > 0
          && branchId.value in branches && !branches[branchId.value].active)
      && check in {Done, BadRequest, NotFound, Conflict}
  {
  }

  /** The account at `id` is what was asked for, and no other account or branch changed. */
  predicate OnlyAccount(w: World, v: World, id: nat) {
    v.branches == w.branches && id in v.accounts && v.accounts - {id} == w.accounts - {id}
  }

  predicate OnlyUser(w: World, v: World, id: string) {
    id in v.remote.users && v.remote.users - {id} == w.remote.users - {id}
  }

  predicate OnlyBranch(w: World, v: World, id: nat) {
    && v.accounts == w.accounts && v.remote.users == w.remote.users
    && id in v.branches && v.branches - {id} == w.branches - {id}
  }

  /** The new row and the new Keycloak user say what was asked for. */
  predicate CreatedAsAsked(w: World, v: World, c: CreateCommand) {
    && OnlyAccount(w, v, c.newId) && OnlyUser(w, v, c.keycloakId)
    && var a := v.accounts[c.newId];
      var u := v.remote.users[c.keycloakId];
      && a.username == u.username == c.username && a.fullName == u.firstName == Some(c.fullName)
      && a.role == c.role && u.roles == {c.role} && a.branchId == c.branchId
      && a.keycloakId == Some(c.keycloakId) && a.active && u.enabled
  }

  /** Name, role and branch are the new ones, in the row and in Keycloak; nothing else changed. */
  predicate UpdatedAsAsked(env: Environment, w: World, v: World, c: UpdateCommand) {
    && c.id in w.accounts && OnlyAccount(w, v, c.id)
    && var a, b := w.accounts[c.id], v.accounts[c.id];
      && b.fullName == Some(c.fullName) && b.role == c.role && b.branchId == c.branchId
      && b.username == a.username && b.keycloakId == a.keycloakId && b.active == a.active
      && (a.keycloakId.None? ==> v.remote.users == w.remote.users)
      && (a.keycloakId.Some? ==>
          && var k := a.keycloakId.value;
          && k in w.remote.users && OnlyUser(w, v, k)
          && var t, u := w.remote.users[k], v.remote.users[k];
            && u.firstName == b.fullName
            && u.roles * env.realm == {c.role} && u.roles - env.realm == t.roles - env.realm
            && u.username == t.username && u.enabled == t.enabled)
  }

  /** The account and its Keycloak user are enabled or disabled, as asked; nothing else changed. */
  predicate ToggledAsAsked(w: World, v: World, id: nat, enabled: bool) {
    && id in w.accounts && OnlyAccount(w, v, id)
    && var a, b := w.accounts[id], v.accounts[id];
      && b == a.(active := enabled) && a.keycloakId.Some?
      && a.keycloakId.value in w.remote.users && OnlyUser(w, v, a.keycloakId.value)
      && v.remote.users[a.keycloakId.value] == w.remote.users[a.keycloakId.value].(enabled := enabled)
  }

  predicate AsAsked(env: Environment, w: World, v: World, op: Op) {
    match op
    case OpCreate(c) => CreatedAsAsked(w, v, c)
    case OpUpdate(c) => UpdatedAsAsked(env, w, v, c)
    case OpEnable(_, id, enabled) => ToggledAsAsked(w, v, id, enabled)
    case OpNewBranch(id, code, name) => OnlyBranch(w, v, id) && v.branches[id] == Branch(code, name, true)
    case OpBranch(id, name, active) =>
      && OnlyBranch(w, v, id) && id in w.branches && v.branches[id].code == w.branches[id].code
      && v.branches[id].active == (if active.Some? then active.value else w.branches[id].active)
      && v.branches[id].name == if active == Some(false) then w.branches[id].name else name
  }

  lemma {:induction false} UserUpdated(env: Environment, w: World, luck: Luck, c: UpdateCommand)
    requires UpdateAccount(env, w, luck, c).1 == Done
    ensures UpdatedAsAsked(env, w, UpdateAccount(env, w, luck, c).0, c)
  {
    var a, v := w.accounts[c.id], UpdateAccount(env, w, luck, c).0;
    assert v.accounts - {c.id} == w.accounts - {c.id};
    if a.keycloakId.Some? {
      var k := a.keycloakId.value;
      ProfileWritten(env, w.remote, k, Some(c.fullName), c.role);
      var t, u := w.remote.users[k], v.remote.users[k];
      assert u.roles == t.roles - env.realm + {c.role};
      assert v.remote.users - {k} == w.remote.users - {k};
    }
  }

  lemma {:induction false} UserCreated(env: Environment, w: World, luck: Luck, c: CreateCommand)
    requires FreshIds(w, OpCreate(c)) && CreateAccount(env, w, luck, c).1 == Done
    ensures CreatedAsAsked(w, CreateAccount(env, w, luck, c).0, c)
  {
    var v := CreateAccount(env, w, luck, c).0;
    CreatedUser(env, w.remote, c.keycloakId, c.username, c.fullName, c.role);
    CreateCompensates(env, w, luck, c);
    assert w.remote.users - {c.keycloakId} == w.remote.users;
    assert v.accounts - {c.newId} == w.accounts - {c.newId};
  }

  /** A call that answers Done has done what was asked for, in the database and in Keycloak, and nothing else. */
  lemma {:induction false} DoneAsAsked(env: Environment, w: World, op: Op, luck: Luck)
    requires Apply(env, w, op, luck).1 == Done
    ensures AsAsked(env, w, Apply(env, w, op, luck).0, op)
  {
    var v := Apply(env, w, op, luck).0;
    match op
    case OpCreate(c) => UserCreated(env, w, luck, c);
    case OpUpdate(c) => UserUpdated(env, w, luck, c);
    case OpEnable(_, id, _) => assert v.accounts - {id} == w.accounts - {id};
    case OpNewBranch(id, _, _) => assert v.branches - {id} == w.branches - {id};
    case OpBranch(id, _, _) => assert v.branches - {id} == w.branches - {id};
  }

  /** A call that answers anything else leaves the database alone, unless only its audit entry failed. */
  lemma {:induction false} FailureKeepsDatabase(env: Environment, w: World, op: Op, luck: Luck)
    requires Apply(env, w, op, luck).1 !in {Done, AuditError}
    ensures var v := Apply(env, w, op, luck).0; v.accounts == w.accounts && v.branches == w.branches
  {
  }

  predicate Disables(op: Op, id: nat) {
    op.OpEnable? && op.id == id && !op.enabled
  }

  /** Whoever is disabled was disabled by somebody else. */
  lemma {:induction false} NobodyDisablesThemselves(env: Environment, w: World, op: Op, luck: Luck, id: nat)
    requires id in w.accounts && w.accounts[id].active
    ensures var v := Apply(env, w, op, luck).0;
      && id in v.accounts
      && (!v.accounts[id].active ==>
          && Disables(op, id) && op.actor.id != Some(id) && w.accounts[id].keycloakId != Some(op.actor.subject)
          && w.accounts[id].keycloakId.Some?)
  {
  }

  // ---- Active accounts and active branches ----

  predicate WorksSomewhere(branches: map<nat, Branch>, a: Account) {
    a.active && a.branchId.Some? ==> a.branchId.value in branches && branches[a.branchId.value].active
  }

  predicate BranchesOpen(w: World) {
    forall k :: k in w.accounts ==> WorksSomewhere(w.branches, w.accounts[k])
  }

  predicate Closed(branches: map<nat, Branch>, a: Account) {
    a.branchId.Some? && !(a.branchId.value in branches && branches[a.branchId.value].active)
  }

  /**
   An account of a closed branch is enabled, Keycloak takes it and the write succeeds: nobody looked
   at the branch.
   */
  predicate EnablesIntoClosedBranch(env: Environment, w: World, op: Op, luck: Luck) {
    op.OpEnable? && op.enabled && luck.write && op.id in w.accounts
    && var a := w.accounts[op.id];
      Closed(w.branches, a) && a.keycloakId.Some? && a.keycloakId.value in w.remote.users && env.net(w.remote.calls)
  }

  lemma {:induction false} EnableStepOpen(env: Environment, w: World, luck: Luck, op: Op)
    requires BranchesOpen(w) && op.OpEnable?
    ensures BranchesOpen(Apply(env, w, op, luck).0) <==> !EnablesIntoClosedBranch(env, w, op, luck)
  {
    var v := Apply(env, w, op, luck).0;
    assert v.branches == w.branches;
    if EnablesIntoClosedBranch(env, w, op, luck) {
      assert op.id in v.accounts && !WorksSomewhere(v.branches, v.accounts[op.id]);
    } else {
      forall k | k in v.accounts ensures WorksSomewhere(v.branches, v.accounts[k]) {
        assert k in w.accounts && WorksSomewhere(w.branches, w.accounts[k]);
      }
    }
  }

  lemma {:induction false} AccountStepOpen(env: Environment, w: World, op: Op, luck: Luck)
    requires BranchesOpen(w) && (op.OpCreate? || op.OpUpdate?)
    ensures BranchesOpen(Apply(env, w, op, luck).0)
  {
    var v := Apply(env, w, op, luck).0;
    assert v.branches == w.branches;
    forall k | k in v.accounts ensures WorksSomewhere(v.branches, v.accounts[k]) {
      assert k in w.accounts ==> WorksSomewhere(w.branches, w.accounts[k]);
    }
  }

  lemma {:induction false} BranchStepOpen(env: Environment, w: World, op: Op, luck: Luck)
    requires BranchesOpen(w) && (op.OpNewBranch? || op.OpBranch?)
    ensures BranchesOpen(Apply(env, w, op, luck).0)
  {
    var v := Apply(env, w, op, luck).0;
    forall k | k in v.accounts ensures WorksSomewhere(v.branches, v.accounts[k]) {
      assert WorksSomewhere(w.branches, w.accounts[k]);
      if op.OpBranch? && op.active == Some(false) && w.accounts[k].branchId == Some(op.id) && w.accounts[k].active {
        assert Staffed(w.accounts, op.id);
      }
    }
  }

  lemma {:induction false} StepOpen(env: Environment, w: World, op: Op, luck: Luck)
    requires BranchesOpen(w)
    ensures BranchesOpen(Apply(env, w, op, luck).0) <==> !EnablesIntoClosedBranch(env, w, op, luck)
  {
    match op
    case OpCreate(_) => AccountStepOpen(env, w, op, luck);
    case OpUpdate(_) => AccountStepOpen(env, w, op, luck);
    case OpEnable(_, _, _) => EnableStepOpen(env, w, luck, op);
    case OpNewBranch(_, _, _) => BranchStepOpen(env, w, op, luck);
    case OpBranch(_, _, _) => BranchStepOpen(env, w, op, luck);
  }

  predicate AlwaysOpen(env: Environment, w: World, ops: seq<(Op, Luck)>) {
    BranchesOpen(Exec(env, w, ops)) && (ops != [] ==> AlwaysOpen(env, w, ops[..|ops| - 1]))
  }

  predicate NeverIntoClosed(env: Environment, w: World, ops: seq<(Op, Luck)>) {
    ops != [] ==>
      var n := |ops| - 1;
      NeverIntoClosed(env, w, ops[..n]) && !EnablesIntoClosedBranch(env, Exec(env, w, ops[..n]), ops[n].0, ops[n].1)
  }

  /** Active accounts sit in active branches throughout, exactly if nobody is ever enabled into a closed one. */
  lemma {:induction false} BranchesStayOpenExactly(env: Environment, w: World, ops: seq<(Op, Luck)>)
    requires BranchesOpen(w)
    ensures AlwaysOpen(env, w, ops) <==> NeverIntoClosed(env, w, ops)
  {
    if ops != [] {
      var n := |ops| - 1;
      BranchesStayOpenExactly(env, w, ops[..n]);
      if BranchesOpen(Exec(env, w, ops[..n])) { StepOpen(env, Exec(env, w, ops[..n]), ops[n].0, ops[n].1); }
    }
  }

  /** An input on which it happens: a disabled employee of a branch that has been deactivated is enabled. */
  lemma {:induction false} ClosedBranchGetsActiveAccount(env: Environment, luck: Luck)
    requires luck.write && env.net(0)
    ensures var disabled := Account("an", Some("An"), Employee, Some(1), Some("k"), false);
      var w := World(map[1 := Branch("HN", "Ha Noi", false)], map[2 := disabled],
        Remote(map["k" := KeycloakUser("an", Some("An"), false, {Employee})], 0, true));
      BranchesOpen(w) && !BranchesOpen(Exec(env, w, [(OpEnable(Actor(Some(9), "s"), 2, true), luck)]))
  {
    var disabled := Account("an", Some("An"), Employee, Some(1), Some("k"), false);
    var w := World(map[1 := Branch("HN", "Ha Noi", false)], map[2 := disabled],
      Remote(map["k" := KeycloakUser("an", Some("An"), false, {Employee})], 0, true));
    var op := OpEnable(Actor(Some(9), "s"), 2, true);
    assert [(op, luck)][..0] == [];
    StepOpen(env, w, op, luck);
  }

  // ---- The sagas ----

  /** Every remote call gets through, and the realm is complete. */
  ghost predicate Reliable(env: Environment) {
    env.password && env.realm == {Employee, Manager, Admin} && forall n :: env.net(n)
  }

  /** The creating request got through: from here on a failure must be compensated. */
  predicate CreatedRemotely(env: Environment, w: World, c: CreateCommand) {
    BranchCheck(w.branches, c.role, c.branchId) == Done && env.password && env.net(w.remote.calls)
    && !NameTaken(w.remote.users, c.username)
  }

  lemma {:induction false} RequestTouches(env: Environment, r: Remote, id: string, change: Change)
    ensures var after := Request(env, r, id, change);
      after.users - {id} == r.users - {id} && (id in after.users <==> id in r.users) && after.calls == r.calls + 1
  {
  }

  lemma {:induction false} AssignTouches(env: Environment, r: Remote, id: string, role: Role)
    ensures var after := AssignRole(env, r, id, role);
      after.users - {id} == r.users - {id} && (id in after.users <==> id in r.users) && after.calls > r.calls
  {
    RequestTouches(env, r.(calls := r.calls + 1), id, Strip);
    RequestTouches(env, Request(env, r.(calls := r.calls + 1), id, Strip), id, Grant(role));
  }

  lemma {:induction false} ResetTouches(env: Environment, r: Remote, id: string)
    ensures var after := ResetPassword(env, r, id);
      after.users - {id} == r.users - {id} && (id in after.users <==> id in r.users) && after.calls >= r.calls
  {
    RequestTouches(env, r, id, Password);
    RequestTouches(env, Request(env, r, id, Password), id, Password);
  }

  lemma {:induction false} FurnishTouches(env: Environment, r: Remote, id: string, role: Role)
    ensures var after := Furnish(env, r, id, role);
      after.users - {id} == r.users - {id} && (id in after.users <==> id in r.users)
  {
    AssignTouches(env, r, id, role);
    ResetTouches(env, AssignRole(env, r, id, role), id);
  }

  /** The five requests that furnish a user, from call m on, all get through. */
  predicate Furnishes(env: Environment, role: Role, m: nat) {
    role in env.realm && env.net(m) && env.net(m + 1) && env.net(m + 2) && env.net(m + 3) && env.net(m + 4)
  }

  /** The call that removes the user again: the one after the first failure, or after all five requests. */
  function RemovalCall(env: Environment, role: Role, m: nat): nat {
    if !env.net(m) || role !in env.realm then m + 1
    else if !env.net(m + 1) then m + 2
    else if !env.net(m + 2) then m + 3
    else if !env.net(m + 3) then m + 4
    else m + 5
  }

  lemma {:induction false} FurnishCalls(env: Environment, r: Remote, id: string, role: Role)
    requires env.password && id in r.users
    ensures var after := Furnish(env, r, id, role);
      (after.ok <==> Furnishes(env, role, r.calls)) && after.calls == RemovalCall(env, role, r.calls)
  {
  }

  predicate LocatedAfter(env: Environment, n: nat) {
    env.located || (env.net(n + 1) && env.found)
  }

  /** The first furnishing call of a creation that begins with call n. */
  function FurnishCall(env: Environment, n: nat): nat {
    if env.located then n + 1 else n + 2
  }

  /** Provisioning adds one user, or nothing; and exactly when it succeeds and when it leaves a user behind. */
  lemma {:induction false} ProvisionTouches(
      env: Environment, r: Remote, id: string, username: string, fullName: string, role: Role)
    requires id !in r.users
    ensures var after := Provision(env, r, id, username, fullName, role);
      var created := env.password && env.net(r.calls) && !NameTaken(r.users, username);
      var m := FurnishCall(env, r.calls);
      && after.users - {id} == r.users
      && (after.ok <==> created && LocatedAfter(env, r.calls) && Furnishes(env, role, m))
      && (after.ok ==> id in after.users && after.calls == RemovalCall(env, role, m))
      && (!after.ok ==> (id in after.users <==>
          created && (!LocatedAfter(env, r.calls) || !env.net(RemovalCall(env, role, m)))))
  {
    var created := CreateUser(env, r, id, username, fullName);
    assert created.users - {id} == r.users;
    if env.password && created.ok {
      var located := Locate(env, created);
      if located.ok {
        FurnishTouches(env, located, id, role);
        FurnishCalls(env, located, id, role);
      }
    } else {
      assert r.users - {id} == r.users;
    }
  }

  /** No row and no Keycloak user is left behind. */
  predicate Untouched(w: World, v: World) {
    v.accounts == w.accounts && v.branches == w.branches && v.remote.users == w.remote.users
  }

  /** The creation reached Keycloak, but the new user's identifier could not be learnt. */
  predicate StrandedUnknown(env: Environment, w: World, c: CreateCommand) {
    CreatedRemotely(env, w, c) && !LocatedAfter(env, w.remote.calls)
  }

  /** The removal of a user that must go again does not get through. */
  predicate RemovalLost(env: Environment, w: World, c: CreateCommand) {
    CreatedRemotely(env, w, c) && LocatedAfter(env, w.remote.calls)
    && !env.net(RemovalCall(env, c.role, FurnishCall(env, w.remote.calls)))
  }

  /** The user is ready and the database takes the row. */
  predicate RowWritten(env: Environment, w: World, luck: Luck, c: CreateCommand) {
    CreatedRemotely(env, w, c) && LocatedAfter(env, w.remote.calls)
    && Furnishes(env, c.role, FurnishCall(env, w.remote.calls)) && luck.write && !UsernameTaken(w.accounts, c.username)
  }

  /**
   Creating an account is all or nothing, with exactly three exceptions, each known before the
   call: the identifier of the new user cannot be learnt, its removal does not get through either,
   or the row is written and its audit entry is not.
   */
  lemma {:induction false} CreateCompensates(env: Environment, w: World, luck: Luck, c: CreateCommand)
    requires FreshIds(w, OpCreate(c))
    ensures var (v, outcome) := CreateAccount(env, w, luck, c);
      && v.remote.users - {c.keycloakId} == w.remote.users
      && (outcome == Done <==> RowWritten(env, w, luck, c) && luck.audit)
      && (outcome != Done ==>
          (Untouched(w, v) <==>
            !StrandedUnknown(env, w, c) && !RemovalLost(env, w, c) && !RowWritten(env, w, luck, c)))
  {
    ProvisionTouches(env, w.remote, c.keycloakId, c.username, c.fullName, c.role);
    var (v, outcome) := CreateAccount(env, w, luck, c);
    if BranchCheck(w.branches, c.role, c.branchId) == Done {
      var made := Provision(env, w.remote, c.keycloakId, c.username, c.fullName, c.role);
      if made.ok && outcome != Done { RemovalTouches(env, made, c.keycloakId); }
      if c.keycloakId !in v.remote.users { assert v.remote.users == v.remote.users - {c.keycloakId}; }
      if RowWritten(env, w, luck, c) { assert c.newId in v.accounts && c.newId !in w.accounts; }
    } else {
      assert w.remote.users - {c.keycloakId} == w.remote.users;
    }
  }

  /** An input of the first exception: no location comes back and the search finds nobody. */
  lemma {:induction false} UnlocatedUserStays(env: Environment, luck: Luck, c: CreateCommand)
    requires env.password && env.net(0) && !env.located && !env.found && c.role == Admin && c.branchId.None?
    ensures var w := World(map[], map[], Remote(map[], 0, true));
      var (v, outcome) := CreateAccount(env, w, luck, c);
      outcome == Unavailable && v.accounts == map[] && c.keycloakId in v.remote.users
  {
  }

  /** An input of the second: the role is missing in Keycloak, and the removing call does not get through. */
  lemma {:induction false} UnremovedUserStays(env: Environment, luck: Luck, c: CreateCommand)
    requires env.password && env.located && env.net(0) && !env.net(2)
    requires c.role == Admin && c.branchId.None? && Admin !in env.realm
    ensures var w := World(map[], map[], Remote(map[], 0, true));
      var (v, outcome) := CreateAccount(env, w, luck, c);
      outcome == Unavailable && v.accounts == map[] && c.keycloakId in v.remote.users
  {
  }

  /** The user after its creation, role and password, when it has to go again. */
  lemma {:induction false} RemovalTouches(env: Environment, ready: Remote, id: string)
    requires id in ready.users
    ensures var after := Delete(env, ready, id);
      after.users - {id} == ready.users - {id} && (id in after.users <==> !env.net(ready.calls))
  {
  }

  /** What Keycloak knows of a user's profile is what the account says. */
  predicate ProfileInSync(env: Environment, a: Account, u: KeycloakUser) {
    u.firstName == a.fullName && u.roles * env.realm == {a.role}
  }

  lemma {:induction false} ProfileWritten(env: Environment, r: Remote, id: string, fullName: Option<string>, role: Role)
    requires UpdateProfile(env, r, id, fullName, role).ok
    ensures id in r.users && role in env.realm
    ensures var u := r.users[id];
      UpdateProfile(env, r, id, fullName, role).users == r.users[id :=
        u.(firstName := Renamed(env, u.firstName, fullName), roles := u.roles - env.realm + {role})]
  {
  }

  /** What the compensation writes, after a change to `newName`, is what was there before that change. */
  predicate UndoRestores(env: Environment, a: Account, u: KeycloakUser, newName: string) {
    u.firstName == Renamed(env, Some(newName), a.fullName) && u.roles * env.realm == {a.role}
  }

  /**
   The database write fails and the compensating call succeeds: Keycloak is as before exactly if the
   compensation restores it.  For an account with a name that means: exactly if it was in sync.
   */
  lemma {:induction false} UpdateCompensates(env: Environment, w: World, luck: Luck, c: UpdateCommand)
    requires var (v, outcome) := UpdateAccount(env, w, luck, c);
      outcome == DatabaseError && w.accounts[c.id].keycloakId.Some? && v.remote.ok
    ensures var (v, _) := UpdateAccount(env, w, luck, c);
      var a := w.accounts[c.id];
      && v.accounts == w.accounts && a.keycloakId.value in w.remote.users
      && var u := w.remote.users[a.keycloakId.value];
        && (v.remote.users == w.remote.users <==> UndoRestores(env, a, u, c.fullName))
        && (a.fullName.Some? || env.clears ==> (UndoRestores(env, a, u, c.fullName) <==> ProfileInSync(env, a, u)))
  {
    var (v, _) := UpdateAccount(env, w, luck, c);
    var a := w.accounts[c.id];
    var id := a.keycloakId.value;
    var told := UpdateProfile(env, w.remote, id, Some(c.fullName), c.role);
    ProfileWritten(env, w.remote, id, Some(c.fullName), c.role);
    ProfileWritten(env, told, id, a.fullName, a.role);
    var u, t := w.remote.users[id], v.remote.users[id];
    var name := Renamed(env, Some(c.fullName), a.fullName);
    assert t == u.(firstName := name, roles := u.roles - env.realm + {a.role});
    if UndoRestores(env, a, u, c.fullName) {
      assert u.roles - env.realm + u.roles * env.realm == u.roles;
      assert t == u;
    }
    if v.remote.users == w.remote.users { assert t == u && t.roles * env.realm == {a.role}; }
  }

  /** An input on which it is not: Keycloak knew another name, and the compensation writes the account's. */
  lemma {:induction false} CompensationOverwritesName(env: Environment, luck: Luck)
    requires Reliable(env) && !luck.write
    ensures var a := Account("an", Some("An"), Employee, Some(1), Some("k"), true);
      var w := World(map[1 := Branch("HN", "Ha Noi", true)], map[2 := a],
        Remote(map["k" := KeycloakUser("an", Some("Anh"), true, {Employee})], 0, true));
      var (v, outcome) := UpdateAccount(env, w, luck, UpdateCommand(2, "Binh", Employee, Some(1)));
      outcome == DatabaseError && v.remote.ok && v.accounts == w.accounts
      && "k" in v.remote.users && v.remote.users["k"].firstName == Some("An")
  {
  }

  /** Likewise for enabling and disabling: exactly if the request really toggles. */
  lemma {:induction false} ToggleCompensates(
      env: Environment, w: World, luck: Luck, actor: Actor, id: nat, enabled: bool)
    requires var (v, outcome) := SetAccountEnabled(env, w, luck, actor, id, enabled);
      outcome == DatabaseError && v.remote.ok
    ensures var (v, _) := SetAccountEnabled(env, w, luck, actor, id, enabled);
      var k := w.accounts[id].keycloakId.value;
      && v.accounts == w.accounts && k in w.remote.users
      && (v.remote.users == w.remote.users <==> w.remote.users[k].enabled != enabled)
  {
    var (v, _) := SetAccountEnabled(env, w, luck, actor, id, enabled);
    var k := w.accounts[id].keycloakId.value;
    assert v.remote.users[k] == w.remote.users[k].(enabled := !enabled);
  }

  /** The remote calls of an update, with its user known to Keycloak. */
  lemma {:induction false} UpdateCalls(env: Environment, r: Remote, id: string, fullName: string, role: Role)
    requires id in r.users
    ensures var n, u, after := r.calls, r.users[id], UpdateProfile(env, r, id, Some(fullName), role);
      && (after.ok <==> env.net(n) && env.net(n + 1) && role in env.realm && env.net(n + 2) && env.net(n + 3))
      && (!after.ok ==> after.users == r.users[id :=
            if !env.net(n) then u
            else if !env.net(n + 1) || role !in env.realm || !env.net(n + 2) then u.(firstName := Some(fullName))
            else u.(firstName := Some(fullName), roles := u.roles - env.realm)])
  {
    var named := Request(env, r, id, Rename(Some(fullName)));
    assert r.users[id := r.users[id]] == r.users;
    if named.ok && env.net(r.calls + 1) && role in env.realm && env.net(r.calls + 2) {
      var stripped := Request(env, named.(calls := named.calls + 1), id, Strip);
      assert stripped.users == r.users[id := stripped.users[id]];
    }
  }

  /**
   A remote update that fails is not compensated.  It leaves Keycloak as it was if and only if no
   request got through, or those that did changed nothing: the name was the same, and no
   application role was taken away.
   */
  lemma {:induction false} FailedUpdateUntouchedExactly(
      env: Environment, w: World, luck: Luck, c: UpdateCommand, id: string)
    requires c.id in w.accounts && w.accounts[c.id].keycloakId == Some(id) && id in w.remote.users
    requires UpdateAccount(env, w, luck, c).1 == Unavailable
    ensures var (v, _) := UpdateAccount(env, w, luck, c);
      var n, u := w.remote.calls, w.remote.users[id];
      && v.accounts == w.accounts
      && (v.remote.users == w.remote.users <==>
          || !env.net(n)
          || (u.firstName == Some(c.fullName)
              && (!env.net(n + 1) || c.role !in env.realm || !env.net(n + 2) || u.roles * env.realm == {})))
  {
    var (v, _) := UpdateAccount(env, w, luck, c);
    var n, u := w.remote.calls, w.remote.users[id];
    UpdateCalls(env, w.remote, id, c.fullName, c.role);
    var t := v.remote.users[id];
    assert w.remote.users[id := u] == w.remote.users;
    assert v.remote.users == w.remote.users <==> t == u;
    MinusSame(u.roles, env.realm);
  }

  lemma {:induction false} MinusSame(a: set<Role>, b: set<Role>)
    ensures a - b == a <==> a * b == {}
  {
    if a - b == a {
      forall x ensures x !in a * b { assert x in a ==> x in a - b; }
      assert a * b == {};
    }
    if a * b == {} {
      forall x ensures x in a <==> x in a - b { assert x !in a * b; }
      assert a - b == a;
    }
  }

  /**
   And a user that had an application role is left without any, exactly if the update fails at the
   very last request, between taking the old role away and granting the new one.
   */
  lemma {:induction false} FailedUpdateLosesRoleExactly(
      env: Environment, w: World, luck: Luck, c: UpdateCommand, id: string)
    requires c.id in w.accounts && w.accounts[c.id].keycloakId == Some(id) && id in w.remote.users
    requires UpdateAccount(env, w, luck, c).1 == Unavailable && w.remote.users[id].roles * env.realm != {}
    ensures var (v, _) := UpdateAccount(env, w, luck, c); var n := w.remote.calls;
      v.remote.users[id].roles * env.realm == {} <==>
        env.net(n) && env.net(n + 1) && c.role in env.realm && env.net(n + 2)
  {
    UpdateCalls(env, w.remote, id, c.fullName, c.role);
  }

  /** An input on which it happens: the fourth request of an update is the first that does not get through. */
  lemma {:induction false} InterruptedUpdateLosesRole(
      env: Environment, w: World, luck: Luck, c: UpdateCommand, id: string)
    requires c.id in w.accounts && w.accounts[c.id].keycloakId == Some(id) && id in w.remote.users
    requires BranchCheck(w.branches, c.role, c.branchId) == Done && c.role in env.realm
    requires w.accounts[c.id].role == Admin && c.role != Admin ==> AnotherAdmin(w.accounts, c.id)
    requires w.remote.users[id].roles * env.realm != {}
    requires var n := w.remote.calls; env.net(n) && env.net(n + 1) && env.net(n + 2) && !env.net(n + 3)
    ensures var (v, outcome) := UpdateAccount(env, w, luck, c);
      outcome == Unavailable && v.accounts == w.accounts && v.remote.users != w.remote.users
      && id in v.remote.users && v.remote.users[id].roles * env.realm == {}
  {
    UpdateCalls(env, w.remote, id, c.fullName, c.role);
    FailedUpdateUntouchedExactly(env, w, luck, c, id);
    FailedUpdateLosesRoleExactly(env, w, luck, c, id);
  }

  // ---- Keycloak mirrors the database ----

  predicate Mirrors(env: Environment, a: Account, users: Directory) {
    a.keycloakId.Some? ==>
      var id := a.keycloakId.value;
      id in users && ProfileInSync(env, a, users[id]) && users[id].enabled == a.active
  }

  predicate Mirrored(env: Environment, w: World) {
    && (forall k :: k in w.accounts ==> Mirrors(env, w.accounts[k], w.remote.users))
    && (forall k, l :: k in w.accounts && l in w.accounts && k != l && w.accounts[k].keycloakId.Some? ==>
          w.accounts[k].keycloakId != w.accounts[l].keycloakId)
  }

  /** Nothing refuses the request before Keycloak is called. */
  predicate MayToggle(w: World, actor: Actor, id: nat, enabled: bool) {
    && id in w.accounts && w.accounts[id].keycloakId.Some?
    && (enabled ||
        (actor.id != Some(id) && w.accounts[id].keycloakId != Some(actor.subject)
         && (w.accounts[id].role == Admin ==> AnotherAdmin(w.accounts, id))))
  }

  /** The request asks for what is already so, and its write fails: the compensation then undoes what was not done. */
  predicate UndoesANonChange(w: World, op: Op, luck: Luck) {
    op.OpEnable? && !luck.write && MayToggle(w, op.actor, op.id, op.enabled) && w.accounts[op.id].active == op.enabled
  }

  /** Nothing refuses the update before Keycloak is called. */
  predicate MayUpdate(w: World, c: UpdateCommand) {
    && c.id in w.accounts && BranchCheck(w.branches, c.role, c.branchId) == Done
    && (w.accounts[c.id].role == Admin && c.role != Admin ==> AnotherAdmin(w.accounts, c.id))
  }

  /** The write of an update fails, and the account has no name for the compensation to restore. */
  predicate KeepsNewName(env: Environment, w: World, op: Op, luck: Luck) {
    op.OpUpdate? && !luck.write && MayUpdate(w, op.update)
    && var a := w.accounts[op.update.id];
      a.keycloakId.Some? && a.fullName.None? && !env.clears
  }

  /** The row of a new account is written, its audit entry is not, and so its Keycloak user is removed. */
  predicate StrandsRow(env: Environment, w: World, op: Op, luck: Luck) {
    op.OpCreate? && FreshIds(w, op) && RowWritten(env, w, luck, op.create) && !luck.audit
  }

  lemma {:induction false} ReliableUpdate(env: Environment, r: Remote, id: string, fullName: Option<string>, role: Role)
    requires Reliable(env) && id in r.users
    ensures UpdateProfile(env, r, id, fullName, role).ok
  {
  }

  lemma {:induction false} OthersMirrored(env: Environment, w: World, users: Directory, id: string, k: nat)
    requires Mirrored(env, w) && k in w.accounts && w.accounts[k].keycloakId != Some(id)
    requires users - {id} == w.remote.users - {id}
    ensures Mirrors(env, w.accounts[k], users)
  {
    assert Mirrors(env, w.accounts[k], w.remote.users);
    if w.accounts[k].keycloakId.Some? {
      var l := w.accounts[k].keycloakId.value;
      assert l in w.remote.users - {id} && (users - {id})[l] == (w.remote.users - {id})[l];
    }
  }

  /** Replacing or adding one account whose Keycloak user, alone, was changed. */
  lemma {:induction false} OneMirrored(env: Environment, w: World, v: World, id: nat, a: Account, user: string)
    requires Mirrored(env, w) && v.accounts == w.accounts[id := a]
    requires a.keycloakId == Some(user) && Mirrors(env, a, v.remote.users)
    requires forall k :: k in w.accounts && k != id ==> w.accounts[k].keycloakId != Some(user)
    requires v.remote.users - {user} == w.remote.users - {user}
    ensures Mirrored(env, v)
  {
    forall k | k in v.accounts ensures Mirrors(env, v.accounts[k], v.remote.users) {
      if k != id { OthersMirrored(env, w, v.remote.users, user, k); }
    }
  }

  /** Accounts that do not use a Keycloak user stay mirrored whatever happens to it. */
  lemma {:induction false} UnusedUserIsFree(env: Environment, w: World, v: World, user: string)
    requires Mirrored(env, w) && v.accounts == w.accounts
    requires forall k :: k in w.accounts ==> w.accounts[k].keycloakId != Some(user)
    requires v.remote.users - {user} == w.remote.users - {user}
    ensures Mirrored(env, v)
  {
    forall k | k in v.accounts ensures Mirrors(env, v.accounts[k], v.remote.users) {
      OthersMirrored(env, w, v.remote.users, user, k);
    }
  }

  lemma {:induction false} CreateMirroredExactly(env: Environment, w: World, luck: Luck, c: CreateCommand)
    requires Reliable(env) && Mirrored(env, w) && FreshIds(w, OpCreate(c))
    ensures Mirrored(env, CreateAccount(env, w, luck, c).0) <==> !StrandsRow(env, w, OpCreate(c), luck)
  {
    var (v, outcome) := CreateAccount(env, w, luck, c);
    CreateCompensates(env, w, luck, c);
    assert w.remote.users - {c.keycloakId} == w.remote.users;
    if outcome == Done {
      var row := v.accounts[c.newId];
      CreatedUser(env, w.remote, c.keycloakId, c.username, c.fullName, c.role);
      OneMirrored(env, w, v, c.newId, row, c.keycloakId);
    } else if RowWritten(env, w, luck, c) {
      RowAlone(env, w, luck, c);
      assert !Mirrors(env, v.accounts[c.newId], v.remote.users);
    } else {
      NoRow(env, w, luck, c);
      UnusedUserIsFree(env, w, v, c.keycloakId);
    }
  }

  lemma {:induction false} RowAlone(env: Environment, w: World, luck: Luck, c: CreateCommand)
    requires Reliable(env) && FreshIds(w, OpCreate(c)) && RowWritten(env, w, luck, c) && !luck.audit
    ensures var (v, _) := CreateAccount(env, w, luck, c);
      c.newId in v.accounts && v.accounts[c.newId].keycloakId == Some(c.keycloakId) && c.keycloakId !in v.remote.users
  {
    ProvisionTouches(env, w.remote, c.keycloakId, c.username, c.fullName, c.role);
    RemovalTouches(env, Provision(env, w.remote, c.keycloakId, c.username, c.fullName, c.role), c.keycloakId);
  }

  lemma {:induction false} NoRow(env: Environment, w: World, luck: Luck, c: CreateCommand)
    requires FreshIds(w, OpCreate(c)) && !RowWritten(env, w, luck, c)
    ensures CreateAccount(env, w, luck, c).0.accounts == w.accounts
  {
    ProvisionTouches(env, w.remote, c.keycloakId, c.username, c.fullName, c.role);
  }

  lemma {:induction false} CreatedUser(
      env: Environment, r: Remote, id: string, username: string, fullName: string, role: Role)
    requires Provision(env, r, id, username, fullName, role).ok
    ensures var users := Provision(env, r, id, username, fullName, role).users;
      id in users && users[id] == KeycloakUser(username, Some(fullName), true, {role}) && role in env.realm
  {
  }

  lemma {:induction false} UpdateMirroredExactly(env: Environment, w: World, luck: Luck, c: UpdateCommand)
    requires Reliable(env) && Mirrored(env, w)
    ensures Mirrored(env, UpdateAccount(env, w, luck, c).0) <==> !KeepsNewName(env, w, OpUpdate(c), luck)
  {
    var (v, outcome) := UpdateAccount(env, w, luck, c);
    if MayUpdate(w, c) && w.accounts[c.id].keycloakId.Some? {
      var a := w.accounts[c.id];
      var id := a.keycloakId.value;
      assert Mirrors(env, a, w.remote.users);
      ReliableUpdate(env, w.remote, id, Some(c.fullName), c.role);
      ProfileWritten(env, w.remote, id, Some(c.fullName), c.role);
      if luck.write {
        OneMirrored(env, w, v, c.id, v.accounts[c.id], id);
      } else {
        UndoneUpdate(env, w, luck, c);
      }
    } else if MayUpdate(w, c) {
      AccountAlone(env, w, v, c.id);
    }
  }

  lemma {:induction false} UndoneUpdate(env: Environment, w: World, luck: Luck, c: UpdateCommand)
    requires Reliable(env) && Mirrored(env, w) && !luck.write && MayUpdate(w, c) && w.accounts[c.id].keycloakId.Some?
    ensures Mirrored(env, UpdateAccount(env, w, luck, c).0) <==> w.accounts[c.id].fullName.Some? || env.clears
  {
    var (v, outcome) := UpdateAccount(env, w, luck, c);
    var a := w.accounts[c.id];
    var id := a.keycloakId.value;
    assert Mirrors(env, a, w.remote.users);
    var told := UpdateProfile(env, w.remote, id, Some(c.fullName), c.role);
    ReliableUpdate(env, w.remote, id, Some(c.fullName), c.role);
    ProfileWritten(env, w.remote, id, Some(c.fullName), c.role);
    ReliableUpdate(env, told, id, a.fullName, a.role);
    ProfileWritten(env, told, id, a.fullName, a.role);
    UpdateCompensates(env, w, luck, c);
    if a.fullName.None? && !env.clears {
      assert v.remote.users[id].firstName == Some(c.fullName);
      assert !Mirrors(env, v.accounts[c.id], v.remote.users);
    }
  }

  lemma {:induction false} AccountAlone(env: Environment, w: World, v: World, id: nat)
    requires Mirrored(env, w) && v.remote.users == w.remote.users && id in v.accounts
    requires v.accounts == w.accounts[id := v.accounts[id]] && v.accounts[id].keycloakId.None?
    ensures Mirrored(env, v)
  {
    forall k | k in v.accounts ensures Mirrors(env, v.accounts[k], v.remote.users) {
      if k != id { assert Mirrors(env, w.accounts[k], w.remote.users); }
    }
  }

  lemma {:induction false} EnableMirroredExactly(env: Environment, w: World, luck: Luck, op: Op)
    requires Reliable(env) && Mirrored(env, w) && op.OpEnable?
    ensures Mirrored(env, Apply(env, w, op, luck).0) <==> !UndoesANonChange(w, op, luck)
  {
    var id, enabled := op.id, op.enabled;
    var (v, outcome) := SetAccountEnabled(env, w, luck, op.actor, id, enabled);
    if MayToggle(w, op.actor, id, enabled) {
      var a := w.accounts[id];
      var user := a.keycloakId.value;
      assert Mirrors(env, a, w.remote.users);
      if luck.write {
        OneMirrored(env, w, v, id, v.accounts[id], user);
      } else {
        ToggleCompensates(env, w, luck, op.actor, id, enabled);
        assert v.remote.users[user].enabled == !enabled;
        if a.active == enabled { assert !Mirrors(env, v.accounts[id], v.remote.users); }
      }
    }
  }

  /** Nothing stands in the way of the operation, apart from remote calls and the database. */
  predicate MayDo(w: World, op: Op) {
    match op
    case OpCreate(c) =>
      && FreshIds(w, op) && BranchCheck(w.branches, c.role, c.branchId) == Done
      && !NameTaken(w.remote.users, c.username) && !UsernameTaken(w.accounts, c.username)
    case OpUpdate(c) => MayUpdate(w, c)
    case OpEnable(actor, id, enabled) => MayToggle(w, actor, id, enabled)
    case OpNewBranch(id, code, _) =>
      id !in w.branches && forall k :: k in w.branches ==> w.branches[k].code != code
    case OpBranch(id, _, active) =>
      && id in w.branches
      && (active == Some(false) ==>
          && w.branches[id].active
          && forall k :: k in w.accounts && w.accounts[k].active ==> w.accounts[k].branchId != Some(id))
  }

  /** While remote calls get through, an operation is done exactly if nothing stands in its way. */
  lemma {:induction false} DoneExactly(env: Environment, w: World, op: Op, luck: Luck)
    requires Reliable(env) && Mirrored(env, w) && (env.located || env.found)
    ensures Apply(env, w, op, luck).1 == Done <==> MayDo(w, op) && luck.write && luck.audit
  {
    if FreshIds(w, op) {
      match op
      case OpCreate(c) => CreateCompensates(env, w, luck, c);
      case OpUpdate(c) =>
        if MayUpdate(w, c) && w.accounts[c.id].keycloakId.Some? {
          assert Mirrors(env, w.accounts[c.id], w.remote.users);
          ReliableUpdate(env, w.remote, w.accounts[c.id].keycloakId.value, Some(c.fullName), c.role);
        }
      case OpEnable(actor, id, enabled) =>
        if MayToggle(w, actor, id, enabled) { assert Mirrors(env, w.accounts[id], w.remote.users); }
      case OpNewBranch(_, _, _) =>
      case OpBranch(_, _, _) =>
    }
  }

  /** What breaks the mirror, known before the operation. */
  predicate BreaksMirror(env: Environment, w: World, op: Op, luck: Luck) {
    UndoesANonChange(w, op, luck) || StrandsRow(env, w, op, luck) || KeepsNewName(env, w, op, luck)
  }

  lemma {:induction false} StepMirrorsExactly(env: Environment, w: World, op: Op, luck: Luck)
    requires Reliable(env) && Mirrored(env, w)
    ensures Mirrored(env, Apply(env, w, op, luck).0) <==> !BreaksMirror(env, w, op, luck)
  {
    if FreshIds(w, op) {
      match op
      case OpCreate(c) => CreateMirroredExactly(env, w, luck, c);
      case OpUpdate(c) => UpdateMirroredExactly(env, w, luck, c);
      case OpEnable(_, _, _) => EnableMirroredExactly(env, w, luck, op);
      case OpNewBranch(_, _, _) =>
      case OpBranch(_, _, _) =>
    }
  }

  predicate AlwaysMirrored(env: Environment, w: World, ops: seq<(Op, Luck)>) {
    Mirrored(env, Exec(env, w, ops)) && (ops != [] ==> AlwaysMirrored(env, w, ops[..|ops| - 1]))
  }

  predicate NeverBreaks(env: Environment, w: World, ops: seq<(Op, Luck)>) {
    ops != [] ==>
      var n := |ops| - 1;
      NeverBreaks(env, w, ops[..n]) && !BreaksMirror(env, Exec(env, w, ops[..n]), ops[n].0, ops[n].1)
  }

  /**
   While remote calls get through, Keycloak mirrors every account throughout, whatever the database
   and the audit log do, with exactly three exceptions: a request that changes nothing and whose
   write fails is "compensated" into a change, a new account whose audit entry fails loses its user,
   and a name that Keycloak does not clear stays when an account without one is not updated after all.
   */
  lemma {:induction false} MirrorsExactly(env: Environment, w: World, ops: seq<(Op, Luck)>)
    requires Reliable(env) && Mirrored(env, w)
    ensures AlwaysMirrored(env, w, ops) <==> NeverBreaks(env, w, ops)
  {
    if ops != [] {
      var n := |ops| - 1;
      MirrorsExactly(env, w, ops[..n]);
      if Mirrored(env, Exec(env, w, ops[..n])) { StepMirrorsExactly(env, Exec(env, w, ops[..n]), ops[n].0, ops[n].1); }
    }
  }

  /** An input on which it happens: enabling an enabled account while the database is down disables its user. */
  lemma {:induction false} EnablingTwiceDisables(env: Environment, luck: Luck)
    requires Reliable(env) && !luck.write
    ensures var enabled := Account("an", Some("An"), Employee, Some(1), Some("k"), true);
      var w := World(map[1 := Branch("HN", "Ha Noi", true)], map[2 := enabled],
        Remote(map["k" := KeycloakUser("an", Some("An"), true, {Employee})], 0, true));
      var v := Exec(env, w, [(OpEnable(Actor(Some(9), "s"), 2, true), luck)]);
      Mirrored(env, w) && v.accounts == w.accounts && "k" in v.remote.users && !v.remote.users["k"].enabled
  {
    assert [(OpEnable(Actor(Some(9), "s"), 2, true), luck)][..0] == [];
    assert {Employee} * env.realm == {Employee};
  }

  /** An input on which it happens: the name given to a nameless account stays although the update fails. */
  lemma {:induction false} NamelessAccountKeepsName(env: Environment, luck: Luck)
    requires Reliable(env) && !env.clears && !luck.write
    ensures var a := Account("an", None, Employee, Some(1), Some("k"), true);
      var w := World(map[1 := Branch("HN", "Ha Noi", true)], map[2 := a],
        Remote(map["k" := KeycloakUser("an", None, true, {Employee})], 0, true));
      var v := Exec(env, w, [(OpUpdate(UpdateCommand(2, "Binh", Employee, Some(1))), luck)]);
      Mirrored(env, w) && v.accounts == w.accounts
      && "k" in v.remote.users && v.remote.users["k"].firstName == Some("Binh")
  {
    assert [(OpUpdate(UpdateCommand(2, "Binh", Employee, Some(1))), luck)][..0] == [];
    assert {Employee} * env.realm == {Employee};
  }

  /** An input on which it happens: the audit entry of a new account fails, and its row is left without a user. */
  lemma {:induction false} UnauditedAccountLosesUser(env: Environment, luck: Luck, c: CreateCommand)
    requires Reliable(env) && env.located && luck.write && !luck.audit && c.role == Admin && c.branchId.None?
    ensures var w := World(map[], map[], Remote(map[], 0, true));
      var v := Exec(env, w, [(OpCreate(c), luck)]);
      c.newId in v.accounts && v.accounts[c.newId].keycloakId == Some(c.keycloakId) && v.remote.users == map[]
  {
    var w := World(map[], map[], Remote(map[], 0, true));
    assert [(OpCreate(c), luck)][..0] == [];
    CreateCompensates(env, w, luck, c);
    RowAlone(env, w, luck, c);
    var v := CreateAccount(env, w, luck, c).0;
    assert v.remote.users == v.remote.users - {c.keycloakId};
  }
}
