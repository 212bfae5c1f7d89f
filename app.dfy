/** The state src/App.tsx keeps and the handlers that change it: the goal
    list and the contribution to the first goal, the daily challenge and
    its copy in `localStorage`, the per-user category lists, the created
    transactions, and the path-to-tab rule of the protected layout. The
    services' replies are parameters; each handler is modelled as if the
    reply it awaits arrived before anything else happened. */
module App {
  import opened Wrappers
  import opened Text
  import opened Domain
  import opened Storage
  import opened DailyChallenge
  import ProjectService

  const SaveTransactionAlert := "Erro ao salvar transação."

  /** `getActiveTab` of the bottom navigation. */
  function ActiveTab(path: string): string {
    if path == "/" || path == "/dashboard" then "home"
    else if StartsWith(path, "/sim") then "sim"
    else if StartsWith(path, "/entries") then "entries"
    else if StartsWith(path, "/history") then "history"
    else if StartsWith(path, "/admin") then "admin"
    else ""
  }

  /** The tests never compete: "home" is exactly the two root paths, each
      other tab exactly the paths with its prefix, and every other path
      selects no tab (so "/dashboard/x" selects none). */
  lemma ActiveTabRule(path: string)
    ensures ActiveTab(path) == "home" <==> path == "/" || path == "/dashboard"
    ensures ActiveTab(path) == "sim" <==> StartsWith(path, "/sim")
    ensures ActiveTab(path) == "entries" <==> StartsWith(path, "/entries")
    ensures ActiveTab(path) == "history" <==> StartsWith(path, "/history")
    ensures ActiveTab(path) == "admin" <==> StartsWith(path, "/admin")
    ensures ActiveTab(path) == "" <==>
      path != "/" && path != "/dashboard" && !StartsWith(path, "/sim") && !StartsWith(path, "/entries") &&
      !StartsWith(path, "/history") && !StartsWith(path, "/admin")
  {
    if |path| >= 2 {
      var c := path[1];
      assert StartsWith(path, "/sim") ==> c == 's';
      assert StartsWith(path, "/entries") ==> c == 'e';
      assert StartsWith(path, "/history") ==> c == 'h';
      assert StartsWith(path, "/admin") ==> c == 'a';
      assert path == "/dashboard" ==> c == 'd';
    }
  }

  const DefaultCategories: seq<string> := ["Essencial", "Estilo de Vida", "Investimento", "Extra"]

  /** A signed-in user: `currentUser` is truthy. */
  predicate SignedIn(currentUser: Option<string>) {
    currentUser.Some? && currentUser.value != ""
  }

  /** The `categories` memo. */
  function CategoriesFor(currentUser: Option<string>, userCategories: map<string, seq<string>>): seq<string> {
    if !SignedIn(currentUser) then DefaultCategories
    else DefaultCategories + (if currentUser.value in userCategories then userCategories[currentUser.value] else [])
  }

  /** The `userCategories` after `handleAddCategory(cat)`. */
  function WithCategory(userCategories: map<string, seq<string>>, currentUser: Option<string>, cat: string): map<string, seq<string>> {
    if !SignedIn(currentUser) then userCategories
    else
      var u := currentUser.value;
      userCategories[u := (if u in userCategories then userCategories[u] else []) + [cat]]
  }

  /** The list always starts with the four defaults. Adding appends the
      category to the signed-in user's list only, and is ignored when no one
      is signed in. */
  lemma CategoryRules(userCategories: map<string, seq<string>>, currentUser: Option<string>, cat: string, other: string)
    ensures |CategoriesFor(currentUser, userCategories)| >= 4 && CategoriesFor(currentUser, userCategories)[..4] == DefaultCategories
    ensures !SignedIn(currentUser) ==> CategoriesFor(currentUser, userCategories) == DefaultCategories
    ensures !SignedIn(currentUser) ==> WithCategory(userCategories, currentUser, cat) == userCategories
    ensures SignedIn(currentUser) ==>
      CategoriesFor(currentUser, WithCategory(userCategories, currentUser, cat)) == CategoriesFor(currentUser, userCategories) + [cat]
    ensures SignedIn(currentUser) && other != currentUser.value ==>
      CategoriesFor(Some(other), WithCategory(userCategories, currentUser, cat)) == CategoriesFor(Some(other), userCategories)
  {
  }

  /** The goal list after the contribution's reply: unchanged when empty
      or when the update failed, else the answer in place of the first. */
  function FirstGoalAfter(projects: seq<Project>, reply: Result<Project, string>): seq<Project> {
    if |projects| == 0 then projects
    else match reply
      case Ok(updated) => projects[0 := updated]
      case Err(_) => projects
  }

  /** The length and every goal but the first are kept; the first becomes
      the service's answer when there is one. */
  lemma FirstGoalRules(projects: seq<Project>, reply: Result<Project, string>)
    ensures |FirstGoalAfter(projects, reply)| == |projects|
    ensures forall i :: 1 <= i < |projects| ==> FirstGoalAfter(projects, reply)[i] == projects[i]
    ensures |projects| > 0 && reply.Ok? ==> FirstGoalAfter(projects, reply)[0] == reply.value
    ensures |projects| == 0 || reply.Err? ==> FirstGoalAfter(projects, reply) == projects
  {
  }

  /** Against the live store, whose reply is the row updated with the new
      amount, the first goal gains exactly the amount and keeps its other
      fields; against the mock it also loses its name, target and icon. */
  lemma ContributionThroughService(projects: seq<Project>, amount: real, env: ProjectService.Env, userId: string)
    requires |projects| > 0 && (env.mocks || env.clientPresent)
    ensures var p := projects[0];
      var updates := ProjectService.Updates(None, None, Some(p.currentAmount + amount), None);
      var row := ProjectService.Row(p.id, userId, p.name, p.targetAmount, p.currentAmount + amount, p.icon);
      FirstGoalAfter(projects, ProjectService.Update(env, p.id, updates, Ok(row)))[0] ==
        if env.mocks then Project(p.id, "Updated Project", 1000.0, p.currentAmount + amount, "\U{1F4DD}")
        else p.(currentAmount := p.currentAmount + amount)
  {
    ProjectService.MockContributionResets(projects[0], amount);
  }

  /** The app's state; `storage` is the browser's `localStorage`. */
  class AppState {
    var projects: seq<Project>
    var transactions: seq<Transaction>
    var challenge: Challenge
    var userCategories: map<string, seq<string>>
    const storage: LocalStorage

    /** The first render: empty lists and the lazily loaded challenge. */
    constructor (storage: LocalStorage, today: string)
      ensures this.storage == storage
      ensures projects == [] && transactions == [] && userCategories == map[]
      ensures challenge == Initial(storage.GetItem(StorageKey), today)
    {
      this.storage := storage;
      projects := [];
      transactions := [];
      userCategories := map[];
      challenge := Initial(storage.GetItem(StorageKey), today);
    }

    /** The stored copy of the challenge is the challenge itself: a reload
        on the challenge's day would start from it. */
    predicate Persisted()
      reads this, storage
    {
      Initial(storage.GetItem(StorageKey), challenge.date) == challenge
    }

    function Categories(currentUser: Option<string>): seq<string>
      reads this
    {
      CategoriesFor(currentUser, userCategories)
    }

    /** `handleAddCategory`. */
    method AddCategory(currentUser: Option<string>, cat: string)
      modifies this
      ensures userCategories == WithCategory(old(userCategories), currentUser, cat)
      ensures projects == old(projects) && transactions == old(transactions) && challenge == old(challenge)
    {
      if !SignedIn(currentUser) {
        return;
      }
      var u := currentUser.value;
      var mine := if u in userCategories then userCategories[u] else [];
      userCategories := userCategories[u := mine + [cat]];
    }

    /** `handleAddToFirstGoal(amount)`: the update it sends, if any (the
        first goal's id and its new current amount), and the list after the
        service's `reply`. */
    method AddToFirstGoal(amount: real, reply: Result<Project, string>) returns (request: Option<(string, real)>)
      modifies this
      ensures request == if |old(projects)| == 0 then None else Some((old(projects)[0].id, old(projects)[0].currentAmount + amount))
      ensures projects == FirstGoalAfter(old(projects), reply)
      ensures transactions == old(transactions) && challenge == old(challenge) && userCategories == old(userCategories)
    {
      if |projects| == 0 {
        return None;
      }
      var target := projects[0];
      request := Some((target.id, target.currentAmount + amount));
      match reply {
        case Ok(updated) =>
          var next := projects;
          next := next[0 := updated];
          projects := next;
        case Err(_) =>
      }
    }

    /** The effect over the transactions: a new challenge replaces the old
        one and is stored, or nothing changes. */
    method RefreshChallenge(today: string, rand: real)
      requires 0.0 <= rand < 1.0
      modifies this, storage
      ensures var r := Refreshed(old(challenge), today, transactions, rand);
        challenge == (if r.Some? then r.value else old(challenge)) &&
        storage.items == (if r.Some? then old(storage.items)[StorageKey := Encode(r.value)] else old(storage.items))
      ensures Refreshed(old(challenge), today, transactions, rand).Some? ==> Persisted()
      ensures projects == old(projects) && transactions == old(transactions) && userCategories == old(userCategories)
    {
      var r := Refreshed(challenge, today, transactions, rand);
      if r.Some? {
        challenge := r.value;
        storage.SetItem(StorageKey, Encode(r.value));
        ReloadRoundTrip(r.value, r.value.date);
      }
    }

    /** `handleAcceptChallenge`: the contribution of the challenge's amount
        is sent whatever becomes of it, and the record is marked completed
        and stored. */
    method AcceptChallenge(reply: Result<Project, string>) returns (request: Option<(string, real)>)
      modifies this, storage
      ensures request == if |old(projects)| == 0 then None else Some((old(projects)[0].id, old(projects)[0].currentAmount + old(challenge).amount as real))
      ensures projects == FirstGoalAfter(old(projects), reply)
      ensures challenge == Accepted(old(challenge))
      ensures storage.items == old(storage.items)[StorageKey := Encode(Accepted(old(challenge)))]
      ensures Persisted() && challenge.completed
      ensures transactions == old(transactions) && userCategories == old(userCategories)
    {
      request := AddToFirstGoal(challenge.amount as real, reply);
      var updated := Accepted(challenge);
      challenge := updated;
      storage.SetItem(StorageKey, Encode(updated));
      ReloadRoundTrip(updated, updated.date);
    }

    /** `handleAddTransaction`: the created record goes first; a failure
        only raises the alert, so the handler never fails. */
    method AddTransaction(reply: Result<Transaction, string>) returns (alert: Option<string>)
      modifies this
      ensures reply.Ok? ==> transactions == [reply.value] + old(transactions) && alert == None
      ensures reply.Err? ==> transactions == old(transactions) && alert == Some(SaveTransactionAlert)
      ensures projects == old(projects) && challenge == old(challenge) && userCategories == old(userCategories)
    {
      match reply {
        case Ok(created) =>
          transactions := [created] + transactions;
          alert := None;
        case Err(_) =>
          alert := Some(SaveTransactionAlert);
      }
    }
  }
}
