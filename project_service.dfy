/** src/services/project.service.ts: the mapping between the app's
    camelCase `Project` and the store's snake_case rows, the checks `create`
    makes before it writes, the conditional `update` payload and the mock
    implementation's answers. The Supabase client, the signed-in user and
    the store's replies are parameters. */
module ProjectService {
  import opened Wrappers
  import opened Domain
  import opened Schemas
  import opened Text

  const ClientMissing := "Supabase client not initialized. Check your environment variables."
  const NotAuthenticated := "Usuário não autenticado"

  /** A row of the `projects` table. */
  datatype Row = Row(id: string, userId: string, name: string, target_amount: real, current_amount: real, icon: string)

  /** The object handed to `insert`. */
  datatype InsertPayload = InsertPayload(user_id: string, name: string, target_amount: real, current_amount: real, icon: string)

  /** snake_case to camelCase, as `getAll`, `create` and `update` map rows. */
  function FromRow(r: Row): (p: Project)
    ensures p.id == r.id && p.name == r.name && p.icon == r.icon
    ensures p.targetAmount == r.target_amount && p.currentAmount == r.current_amount
  {
    Project(r.id, r.name, r.target_amount, r.current_amount, r.icon)
  }

  /** The mapping drops the owner and nothing else: two rows map to the
      same project exactly when they differ at most in `user_id`. */
  lemma FromRowForgetsOnlyOwner(r1: Row, r2: Row)
    ensures FromRow(r1) == FromRow(r2) <==> r1.(userId := r2.userId) == r2
  {
  }

  /** `dbPayload` of `create`. */
  function ToPayload(userId: string, p: NewProject): InsertPayload {
    InsertPayload(userId, p.name, p.targetAmount, p.currentAmount, p.icon)
  }

  /** The row a store keeps for an inserted payload under a fresh id. */
  function StoredRow(id: string, payload: InsertPayload): Row {
    Row(id, payload.user_id, payload.name, payload.target_amount, payload.current_amount, payload.icon)
  }

  /** Mapping the stored payload back gives the same name, target, current
      amount and icon that were submitted, with the store's id. */
  lemma PayloadRoundTrip(id: string, userId: string, p: NewProject)
    ensures var q := FromRow(StoredRow(id, ToPayload(userId, p)));
      q == Project(id, p.name, p.targetAmount, p.currentAmount, p.icon)
    ensures StoredRow(id, ToPayload(userId, p)).userId == userId
  {
  }

  /** The two goals the mock `getAll` answers with. */
  const MockProjects: seq<Project> := [
    Project("1", "Reserva Emergência", 20000.0, 14500.0, "\U{1F6E1}\U{FE0F}"),
    Project("2", "Carro Novo", 85000.0, 32000.0, "\U{1F697}")
  ]

  /** The environment the service runs in. */
  datatype Env = Env(mocks: bool, clientPresent: bool)

  /** `getAll`: the rows mapped one for one, or the store's error. */
  function GetAll(env: Env, rows: Result<seq<Row>, string>): Result<seq<Project>, string> {
    if env.mocks then Ok(MockProjects)
    else if !env.clientPresent then Err(ClientMissing)
    else match rows
      case Err(e) => Err(e)
      case Ok(rs) => Ok(seq(|rs|, i requires 0 <= i < |rs| => FromRow(rs[i])))
  }

  /** Live `getAll` keeps the number and order of the rows and maps each
      field to its namesake. */
  lemma GetAllMapsRows(env: Env, rs: seq<Row>, i: nat)
    requires !env.mocks && env.clientPresent && i < |rs|
    ensures GetAll(env, Ok(rs)).Ok? && |GetAll(env, Ok(rs)).value| == |rs|
    ensures GetAll(env, Ok(rs)).value[i] == Project(rs[i].id, rs[i].name, rs[i].target_amount, rs[i].current_amount, rs[i].icon)
  {
  }

  /** What `create` did: its answer, whether it asked for the user and the
      payload it inserted, if any. */
  datatype CreateOutcome = CreateOutcome(result: Result<Project, string>, askedUser: bool, inserted: Option<InsertPayload>)

  /** `create`. `user` is what `auth.getUser()` answers, `insertReply` the
      row or error the insert answers, and `mockId` the random id the mock
      draws. */
  function Create(env: Env, p: NewProject, user: Option<string>, insertReply: Result<Row, string>, mockId: string): CreateOutcome {
    match FirstIssue(ProjectIssues(p.name, p.targetAmount, p.currentAmount))
    case Some(message) => CreateOutcome(Err(message), false, None)
    case None =>
      if env.mocks then CreateOutcome(Ok(Project(mockId, p.name, p.targetAmount, p.currentAmount, p.icon)), false, None)
      else if !env.clientPresent then CreateOutcome(Err(ClientMissing), false, None)
      else match user
        case None => CreateOutcome(Err(NotAuthenticated), true, None)
        case Some(uid) =>
          var payload := ToPayload(uid, p);
          match insertReply
          case Err(e) => CreateOutcome(Err(e), true, Some(payload))
          case Ok(row) => CreateOutcome(Ok(FromRow(row)), true, Some(payload))
  }

  /** An invalid project fails with the schema's first message before the
      user is asked for or anything is inserted, a missing user fails before
      the insert, and nothing is ever inserted without a valid project and a
      user, whose id goes with it. */
  lemma CreateGate(env: Env, p: NewProject, user: Option<string>, insertReply: Result<Row, string>, mockId: string)
    ensures var o := Create(env, p, user, insertReply, mockId);
      (!(Utf16Length(p.name) >= 3 && p.targetAmount > 0.0 && p.currentAmount >= 0.0) ==>
        o.inserted.None? && !o.askedUser && o.result == Err(ProjectIssues(p.name, p.targetAmount, p.currentAmount)[0])) &&
      (o.inserted.Some? ==>
        (Utf16Length(p.name) >= 3 && p.targetAmount > 0.0 && p.currentAmount >= 0.0 &&
         user.Some? && o.inserted.value == ToPayload(user.value, p))) &&
      (ProjectIssues(p.name, p.targetAmount, p.currentAmount) == [] && !env.mocks && env.clientPresent && user.None? ==>
        o.result == Err(NotAuthenticated) && o.inserted.None?)
  {
    ProjectValidIff(p.name, p.targetAmount, p.currentAmount);
  }

  /** A valid project created against an honest store comes back with the
      submitted fields; the mock gives it the drawn id. */
  lemma CreateEchoes(env: Env, p: NewProject, uid: string, id: string, mockId: string)
    requires ProjectIssues(p.name, p.targetAmount, p.currentAmount) == []
    requires env.mocks || env.clientPresent
    ensures var reply := Ok(StoredRow(id, ToPayload(uid, p)));
      Create(env, p, Some(uid), reply, mockId).result ==
        Ok(Project(if env.mocks then mockId else id, p.name, p.targetAmount, p.currentAmount, p.icon))
  {
  }

  /** `Partial<Project>` as `update` reads it. */
  datatype Updates = Updates(name: Option<string>, targetAmount: Option<real>, currentAmount: Option<real>, icon: Option<string>)

  /** A value of the update payload. */
  datatype Value = Text(s: string) | Amount(r: real)

  /** The snake_case keys the update payload can hold. */
  const UpdateKeys: set<string> := {"name", "target_amount", "current_amount", "icon"}

  /** `dbPayload` of `update`, built field by field: name, target and icon
      only when truthy, so an empty name or a zero target is dropped; the
      current amount whenever it is given, zero included. */
  method UpdatePayload(updates: Updates) returns (payload: map<string, Value>)
    ensures payload.Keys <= UpdateKeys
    ensures "name" in payload <==> updates.name.Some? && updates.name.value != ""
    ensures "name" in payload ==> payload["name"] == Text(updates.name.value)
    ensures "target_amount" in payload <==> updates.targetAmount.Some? && updates.targetAmount.value != 0.0
    ensures "target_amount" in payload ==> payload["target_amount"] == Amount(updates.targetAmount.value)
    ensures "current_amount" in payload <==> updates.currentAmount.Some?
    ensures "current_amount" in payload ==> payload["current_amount"] == Amount(updates.currentAmount.value)
    ensures "icon" in payload <==> updates.icon.Some? && updates.icon.value != ""
    ensures "icon" in payload ==> payload["icon"] == Text(updates.icon.value)
  {
    payload := map[];
    if updates.name.Some? && updates.name.value != "" {
      payload := payload["name" := Text(updates.name.value)];
    }
    if updates.targetAmount.Some? && updates.targetAmount.value != 0.0 {
      payload := payload["target_amount" := Amount(updates.targetAmount.value)];
    }
    if updates.currentAmount.Some? {
      payload := payload["current_amount" := Amount(updates.currentAmount.value)];
    }
    if updates.icon.Some? && updates.icon.value != "" {
      payload := payload["icon" := Text(updates.icon.value)];
    }
  }

  /** The contribution the app sends carries exactly the new current
      amount, zero included. */
  method ContributionPayload(amount: real) returns (payload: map<string, Value>)
    ensures payload == map["current_amount" := Amount(amount)]
  {
    payload := UpdatePayload(Updates(None, None, Some(amount), None));
  }

  /** The mock `update`: each missing or falsy field gets its default, and
      the id is the one asked for. */
  function MockUpdate(id: string, updates: Updates): (p: Project)
    ensures p.id == id
    ensures p.currentAmount == updates.currentAmount.GetOr(0.0)
  {
    Project(
      id,
      if updates.name.Some? && updates.name.value != "" then updates.name.value else "Updated Project",
      if updates.targetAmount.Some? && updates.targetAmount.value != 0.0 then updates.targetAmount.value else 1000.0,
      if updates.currentAmount.Some? && updates.currentAmount.value != 0.0 then updates.currentAmount.value else 0.0,
      if updates.icon.Some? && updates.icon.value != "" then updates.icon.value else "\U{1F4DD}")
  }

  /** A complete update of a project whose name, target and icon are truthy
      answers with that project under the id asked for. */
  lemma MockUpdateKeepsGiven(id: string, p: Project)
    requires p.name != "" && p.targetAmount != 0.0 && p.icon != ""
    ensures MockUpdate(id, Updates(Some(p.name), Some(p.targetAmount), Some(p.currentAmount), Some(p.icon))) ==
      Project(id, p.name, p.targetAmount, p.currentAmount, p.icon)
  {
  }

  /** A contribution through the mock keeps only the id and the new amount:
      the goal's name, target and icon are replaced by the defaults. */
  lemma MockContributionResets(p: Project, amount: real)
    ensures MockUpdate(p.id, Updates(None, None, Some(p.currentAmount + amount), None)) ==
      Project(p.id, "Updated Project", 1000.0, p.currentAmount + amount, "\U{1F4DD}")
  {
  }

  /** `update`: the live service answers with the updated row mapped back. */
  function Update(env: Env, id: string, updates: Updates, reply: Result<Row, string>): Result<Project, string> {
    if env.mocks then Ok(MockUpdate(id, updates))
    else if !env.clientPresent then Err(ClientMissing)
    else match reply
      case Err(e) => Err(e)
      case Ok(row) => Ok(FromRow(row))
  }

  /** With live storage, the answer is the row the store holds after the
      update; with mocks it is the defaulted record. */
  lemma UpdateAnswers(env: Env, id: string, updates: Updates, row: Row)
    ensures env.mocks ==> Update(env, id, updates, Ok(row)) == Ok(MockUpdate(id, updates))
    ensures !env.mocks && env.clientPresent ==> Update(env, id, updates, Ok(row)) == Ok(FromRow(row))
    ensures !env.mocks && !env.clientPresent ==> Update(env, id, updates, Ok(row)) == Err(ClientMissing)
  {
  }
}
