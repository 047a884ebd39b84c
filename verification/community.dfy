/** The community page: a member search over first name, last name and
    specialisations, the member cards, and the unfiltered team list. */
module Community {
  import opened Types
  import opened Seqs
  import opened Text

  /** Some specialisation, lower-cased, includes the (lower-cased) query. */
  predicate AnySpecMatches(specs: seq<string>, query: string) {
    specs != [] && (Contains(Lower(specs[0]), query) || AnySpecMatches(specs[1..], query))
  }

  /** `specializations.some(...)` holds exactly when one of them matches. */
  lemma {:induction false} AnySpecMatchesIff(specs: seq<string>, query: string)
    ensures AnySpecMatches(specs, query) <==> exists i :: 0 <= i < |specs| && Contains(Lower(specs[i]), query)
  {
    if specs != [] {
      AnySpecMatchesIff(specs[1..], query);
      if exists i :: 0 <= i < |specs| && Contains(Lower(specs[i]), query) {
        var i :| 0 <= i < |specs| && Contains(Lower(specs[i]), query);
        if i > 0 {
          assert specs[1..][i - 1] == specs[i];
        }
      }
      if AnySpecMatches(specs[1..], query) {
        var i :| 0 <= i < |specs[1..]| && Contains(Lower(specs[1..][i]), query);
        assert specs[i + 1] == specs[1..][i];
      }
    }
  }

  /** The search predicate: the lower-cased term occurs in the lower-cased
      first name, last name or any specialisation. */
  predicate MatchesTerm(u: User, term: string) {
    var q := Lower(term);
    Contains(Lower(u.firstName), q) || Contains(Lower(u.lastName), q) || AnySpecMatches(u.specializations, q)
  }

  /** `filteredUsers`: the matching users, in their order. */
  function FilteredUsers(users: seq<User>, term: string): (r: seq<User>)
    ensures IsSubsequence(r, users)
    ensures forall u :: u in r <==> u in users && MatchesTerm(u, term)
  {
    var p := (u: User) => MatchesTerm(u, term);
    FilterMembers(users, p);
    Filter(users, p)
  }

  /** An empty search box shows every member. */
  lemma EmptyTermKeepsAll(users: seq<User>)
    ensures FilteredUsers(users, "") == users
  {
    forall i | 0 <= i < |users| ensures MatchesTerm(users[i], "") {
      ContainsEmpty(Lower(users[i].firstName));
    }
    FilterKeepsAll(users, (u: User) => MatchesTerm(u, ""));
  }

  /** The search ignores the case of the term. */
  lemma SearchIgnoresCase(users: seq<User>, term: string)
    ensures FilteredUsers(users, Lower(term)) == FilteredUsers(users, term)
  {
    LowerIdempotent(term);
    FilterCongruent(users, (u: User) => MatchesTerm(u, Lower(term)), (u: User) => MatchesTerm(u, term));
  }

  /** `user.specializations[0] || 'Member'`: the first specialisation
      unless there is none or it is the empty (falsy) string. */
  function CardSubtitle(u: User): (r: string)
    ensures r != ""
    ensures |u.specializations| > 0 && u.specializations[0] != "" ==> r == u.specializations[0]
    ensures (|u.specializations| == 0 || u.specializations[0] == "") ==> r == "Member"
  {
    if |u.specializations| > 0 && u.specializations[0] != "" then u.specializations[0] else "Member"
  }

  /** `specializations.slice(0, 3)`: the first three at most. */
  function CardSpecializations(u: User): (r: seq<string>)
    ensures |r| <= 3
    ensures |u.specializations| >= 3 ==> |r| == 3
    ensures |u.specializations| < 3 ==> r == u.specializations
    ensures forall i :: 0 <= i < |r| ==> r[i] == u.specializations[i]
  {
    Take(u.specializations, 3)
  }

  /** What a team card shows. */
  datatype TeamCard = TeamCard(name: string, score: int, memberCount: nat)

  /** The Teams tab: one card per team, in order, each counting its members. */
  function TeamCards(teams: seq<Team>): (r: seq<TeamCard>)
    ensures |r| == |teams|
    ensures forall i :: 0 <= i < |teams| ==>
      r[i].name == teams[i].name && r[i].score == teams[i].score && r[i].memberCount == |teams[i].members|
  {
    if teams == [] then []
    else
      assert forall i :: 1 <= i < |teams| ==> teams[i] == teams[1..][i - 1];
      [TeamCard(teams[0].name, teams[0].score, |teams[0].members|)] + TeamCards(teams[1..])
  }

  datatype Tab = MembersTab | TeamsTab

  datatype View = MemberCards(users: seq<User>) | TeamList(cards: seq<TeamCard>)

  /** The page's result grid for the active tab and search term. */
  function Page(tab: Tab, term: string, users: seq<User>, teams: seq<Team>): View {
    if tab == MembersTab then MemberCards(FilteredUsers(users, term)) else TeamList(TeamCards(teams))
  }

  /** The search term filters members only: the Teams tab is the same for
      every term and lists every team. */
  lemma TeamsIgnoreSearch(term1: string, term2: string, users: seq<User>, teams: seq<Team>)
    ensures Page(TeamsTab, term1, users, teams) == Page(TeamsTab, term2, users, teams)
    ensures |Page(TeamsTab, term1, users, teams).cards| == |teams|
  {
  }
}
