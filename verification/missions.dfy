/** The onboarding pages: the mission list with its tabs, search and filters,
    and the execution of one mission step by step. */
module Missions {
  import opened Types
  import opened Seqs
  import opened Text

  // ---------------------------------------------------------------------
  // Mission list: tabs and filters
  // ---------------------------------------------------------------------

  datatype Tab = OpenTab | CompletedTab | PayoutsTab | FaqTab

  datatype StatusFilter = AllStatuses | OnlyStatus(status: MissionStatus)

  datatype CategoryFilter = AllCategories | OnlyCategory(name: string)

  /** A level-range field as typed: left blank, a number `parseInt` reads,
      or text `parseInt` rejects (NaN). */
  datatype LevelInput = Blank | Num(n: int) | NotANumber

  /** The filter state of the list page. `showFilters` is whether the
      advanced-filter panel is open. */
  datatype Filters = Filters(
    searchQuery: string,
    category: CategoryFilter,
    status: StatusFilter,
    onlyPrio: bool,
    minLevel: LevelInput,
    maxLevel: LevelInput,
    showFilters: bool)

  /** `requirements?.minLevel || 0`: a missing requirement counts as level 0. */
  function RequiredLevel(m: Mission): (r: int)
    ensures m.minLevel.None? ==> r == 0
    ensures m.minLevel.Some? ==> r == m.minLevel.value
  {
    match m.minLevel
    case None => 0
    case Some(v) => v
  }

  /** The lower bound a level field stands for: blank is 0, NaN is no number. */
  function LowerBound(b: LevelInput): Option<int> {
    match b
    case Blank => Some(0)
    case Num(n) => Some(n)
    case NotANumber => None
  }

  /** The upper bound a level field stands for: blank is 999. */
  function UpperBound(b: LevelInput): Option<int> {
    match b
    case Blank => Some(999)
    case Num(n) => Some(n)
    case NotANumber => None
  }

  /** With status filter 'ALL' the tab decides: OPEN hides completed missions,
      COMPLETED shows only them; any other status filter overrides the tab. */
  predicate TabAdmits(tab: Tab, f: Filters, m: Mission) {
    f.status.AllStatuses? ==>
      !(tab == OpenTab && m.status == Completed) && !(tab == CompletedTab && m.status != Completed)
  }

  /** Case-insensitive search in the title or the description. */
  predicate MatchesSearch(m: Mission, query: string) {
    Contains(Lower(m.title), Lower(query)) || Contains(Lower(m.description), Lower(query))
  }

  predicate MatchesCategory(m: Mission, f: Filters) {
    f.category.AllCategories? || m.category == f.category.name
  }

  predicate MatchesStatus(m: Mission, f: Filters) {
    f.status.AllStatuses? || m.status == f.status.status
  }

  predicate MatchesPrio(m: Mission, f: Filters) {
    !f.onlyPrio || m.isPrio
  }

  /** The level-range test; a NaN bound compares false with every level. */
  predicate MatchesLevel(m: Mission, f: Filters) {
    var lo, hi := LowerBound(f.minLevel), UpperBound(f.maxLevel);
    lo.Some? && hi.Some? && lo.value <= RequiredLevel(m) <= hi.value
  }

  /** The filter callback of the list page. */
  predicate Shown(tab: Tab, f: Filters, m: Mission) {
    TabAdmits(tab, f, m)
    && MatchesSearch(m, f.searchQuery) && MatchesCategory(m, f) && MatchesStatus(m, f)
    && MatchesPrio(m, f) && MatchesLevel(m, f)
  }

  /** The missions the list page shows for a tab and a filter state. */
  function FilteredMissions(missions: seq<Mission>, tab: Tab, f: Filters): (r: seq<Mission>)
    ensures IsSubsequence(r, missions)
    ensures forall m :: m in r <==> m in missions && Shown(tab, f, m)
    ensures f.status.AllStatuses? && tab == OpenTab ==>
      forall k :: 0 <= k < |r| ==> r[k].status != Completed
    ensures f.status.AllStatuses? && tab == CompletedTab ==>
      forall k :: 0 <= k < |r| ==> r[k].status == Completed
    ensures f.status.OnlyStatus? ==> forall k :: 0 <= k < |r| ==> r[k].status == f.status.status
    ensures f.minLevel == NotANumber || f.maxLevel == NotANumber ==> r == []
  {
    var p := (m: Mission) => Shown(tab, f, m);
    FilterMembers(missions, p);
    var r := Filter(missions, p);
    ShownListFacts(r, tab, f);
    r
  }

  /** What every shown mission has in common: the tab's status rule, the
      status filter, and level bounds that are numbers. */
  lemma ShownListFacts(r: seq<Mission>, tab: Tab, f: Filters)
    requires forall i :: 0 <= i < |r| ==> Shown(tab, f, r[i])
    ensures f.status.AllStatuses? && tab == OpenTab ==>
      forall k :: 0 <= k < |r| ==> r[k].status != Completed
    ensures f.status.AllStatuses? && tab == CompletedTab ==>
      forall k :: 0 <= k < |r| ==> r[k].status == Completed
    ensures f.status.OnlyStatus? ==> forall k :: 0 <= k < |r| ==> r[k].status == f.status.status
    ensures f.minLevel == NotANumber || f.maxLevel == NotANumber ==> r == []
  {
    if r != [] {
      assert Shown(tab, f, r[0]);
    }
  }

  /** An empty query rejects nothing, and the query's case does not matter. */
  lemma SearchIgnoresCase(m: Mission, query: string)
    ensures MatchesSearch(m, "")
    ensures MatchesSearch(m, Lower(query)) == MatchesSearch(m, query)
  {
    assert Lower("") == "";
    LowerIdempotent(query);
  }

  /** Blank level fields default to the range 0..999, and a mission without
      a requirement counts as level 0. */
  lemma BlankLevelRange(m: Mission, f: Filters)
    requires f.minLevel == Blank && f.maxLevel == Blank
    ensures MatchesLevel(m, f) <==> 0 <= RequiredLevel(m) <= 999
    ensures m.minLevel.None? ==> MatchesLevel(m, f)
  {
  }

  /** How many advanced filters are set: status, prio, level range. */
  function ActiveFilterCount(f: Filters): (r: int)
    ensures 0 <= r <= 3
    ensures r == 0 <==> f.status.AllStatuses? && !f.onlyPrio && f.minLevel == Blank && f.maxLevel == Blank
  {
    (if f.status != AllStatuses then 1 else 0)
    + (if f.onlyPrio then 1 else 0)
    + (if f.minLevel != Blank || f.maxLevel != Blank then 1 else 0)
  }

  /** `clearFilters`: every field back to its initial value, panel closed. */
  function ClearFilters(f: Filters): (r: Filters)
    ensures ActiveFilterCount(r) == 0
    ensures r.searchQuery == "" && r.category.AllCategories? && !r.showFilters
  {
    Filters("", AllCategories, AllStatuses, false, Blank, Blank, false)
  }

  /** With the filters cleared, the list shows exactly the missions the tab
      admits whose required level lies in 0..999. */
  lemma ClearedFiltersShowTab(missions: seq<Mission>, tab: Tab, f: Filters)
    ensures FilteredMissions(missions, tab, ClearFilters(f))
      == Filter(missions, (m: Mission) =>
           !(tab == OpenTab && m.status == Completed) && !(tab == CompletedTab && m.status != Completed)
           && 0 <= RequiredLevel(m) <= 999)
  {
    var c := ClearFilters(f);
    forall m: Mission ensures MatchesSearch(m, c.searchQuery) {
      SearchIgnoresCase(m, "");
    }
    FilterCongruent(missions,
      (m: Mission) => Shown(tab, c, m),
      (m: Mission) =>
           !(tab == OpenTab && m.status == Completed) && !(tab == CompletedTab && m.status != Completed)
           && 0 <= RequiredLevel(m) <= 999);
  }

  // ---------------------------------------------------------------------
  // Category pills: sorted, duplicate-free
  // ---------------------------------------------------------------------

  /** The default order of `Array.prototype.sort` on strings: lexicographic
      by character code. */
  predicate Below(a: string, b: string) {
    if a == [] then b != []
    else if b == [] then false
    else if a[0] == b[0] then Below(a[1..], b[1..])
    else a[0] < b[0]
  }

  lemma {:induction false} BelowIrreflexive(a: string)
    ensures !Below(a, a)
  {
    if a != [] {
      BelowIrreflexive(a[1..]);
    }
  }

  lemma {:induction false} BelowTransitive(a: string, b: string, c: string)
    requires Below(a, b) && Below(b, c)
    ensures Below(a, c)
  {
    if a != [] && b != [] && c != [] && a[0] == b[0] && b[0] == c[0] {
      BelowTransitive(a[1..], b[1..], c[1..]);
    }
  }

  lemma {:induction false} BelowTotal(a: string, b: string)
    requires a != b
    ensures Below(a, b) || Below(b, a)
  {
    if a != [] && b != [] && a[0] == b[0] {
      assert a == [a[0]] + a[1..] && b == [b[0]] + b[1..];
      BelowTotal(a[1..], b[1..]);
    }
  }

  /** Each element is strictly below the next. */
  predicate StrictlySorted(s: seq<string>) {
    forall i :: 0 <= i < |s| - 1 ==> Below(s[i], s[i + 1])
  }

  lemma {:induction false} StrictlySortedBelow(s: seq<string>, i: int, j: int)
    requires StrictlySorted(s)
    requires 0 <= i < j < |s|
    ensures Below(s[i], s[j])
    decreases j - i
  {
    if i + 1 < j {
      StrictlySortedBelow(s, i + 1, j);
      BelowTransitive(s[i], s[i + 1], s[j]);
    }
  }

  lemma StrictlySortedNoDuplicates(s: seq<string>)
    requires StrictlySorted(s)
    ensures NoDuplicates(s)
  {
    forall i, j | 0 <= i < j < |s| ensures s[i] != s[j] {
      StrictlySortedBelow(s, i, j);
      BelowIrreflexive(s[i]);
    }
  }

  /** Inserts `x` at its place in a strictly sorted sequence, unless present. */
  function InsertSorted(x: string, s: seq<string>): (r: seq<string>)
    requires StrictlySorted(s)
    ensures StrictlySorted(r)
    ensures forall y :: y in r <==> y == x || y in s
    ensures |r| > 0 && (r[0] == x || (s != [] && r[0] == s[0]))
  {
    if s == [] then [x]
    else if x == s[0] then s
    else if Below(x, s[0]) then [x] + s
    else
      BelowTotal(x, s[0]);
      [s[0]] + InsertSorted(x, s[1..])
  }

  /** `Array.from(new Set(missions.map(m => m.category))).sort()`. */
  function Categories(missions: seq<Mission>): (r: seq<string>)
    ensures StrictlySorted(r)
    ensures forall i :: 0 <= i < |missions| ==> missions[i].category in r
    ensures forall c :: c in r ==> exists i :: 0 <= i < |missions| && missions[i].category == c
  {
    if missions == [] then []
    else
      var rest := Categories(missions[1..]);
      var r := InsertSorted(missions[0].category, rest);
      assert forall c :: c in rest ==> exists i :: 0 <= i < |missions| && missions[i].category == c by {
        forall c | c in rest ensures exists i :: 0 <= i < |missions| && missions[i].category == c {
          var j :| 0 <= j < |missions[1..]| && missions[1..][j].category == c;
          assert missions[j + 1].category == c;
        }
      }
      assert forall i :: 1 <= i < |missions| ==> missions[i].category in rest by {
        forall i | 1 <= i < |missions| ensures missions[i].category in rest {
          assert missions[1..][i - 1] == missions[i];
        }
      }
      r
  }

  /** The category list has no duplicates. */
  lemma CategoriesDistinct(missions: seq<Mission>)
    ensures NoDuplicates(Categories(missions))
  {
    StrictlySortedNoDuplicates(Categories(missions));
  }

  /** A strictly sorted list is determined by its elements, so `Categories`
      is the one sorted, duplicate-free list of the missions' categories. */
  lemma {:induction false} StrictlySortedUnique(a: seq<string>, b: seq<string>)
    requires StrictlySorted(a) && StrictlySorted(b)
    requires forall x :: x in a <==> x in b
    ensures a == b
  {
    StrictlySortedNoDuplicates(a);
    StrictlySortedNoDuplicates(b);
    ElementsCardinality(a);
    ElementsCardinality(b);
    assert Elements(a) == Elements(b);
    if a != [] {
      assert a[0] in b && b[0] in a;
      if a[0] != b[0] {
        var i :| 0 <= i < |b| && b[i] == a[0];
        var j :| 0 <= j < |a| && a[j] == b[0];
        assert i > 0 && j > 0;
        StrictlySortedBelow(b, 0, i);
        StrictlySortedBelow(a, 0, j);
        BelowTransitive(a[0], b[0], a[0]);
        BelowIrreflexive(a[0]);
        assert false;
      }
      forall x ensures x in a[1..] <==> x in b[1..] {
        if x in a[1..] {
          var k :| 0 <= k < |a[1..]| && a[1..][k] == x;
          assert a[k + 1] == x && x != a[0];
          assert x in b;
        }
        if x in b[1..] {
          var k :| 0 <= k < |b[1..]| && b[1..][k] == x;
          assert b[k + 1] == x && x != b[0];
          assert x in a;
        }
      }
      StrictlySortedUnique(a[1..], b[1..]);
      assert a == [a[0]] + a[1..] && b == [b[0]] + b[1..];
    }
  }

  // ---------------------------------------------------------------------
  // Mission execution
  // ---------------------------------------------------------------------

  /** A value of the step form: never entered, text (a typed value or an
      uploaded file name), or a checkbox. */
  datatype FormValue = Missing | Text(text: string) | Flag(flag: bool)

  /** JavaScript truthiness of a form value. */
  predicate Truthy(v: FormValue) {
    match v
    case Missing => false
    case Text(s) => s != ""
    case Flag(b) => b
  }

  function Lookup(form: map<string, FormValue>, id: string): FormValue {
    if id in form then form[id] else Missing
  }

  /** The outcome of validating a step: pass, or the alert shown instead. */
  datatype Check = Pass | Refuse(alert: string)

  /** The validation shared by "next step" and "finish". */
  function Validate(step: MissionStep, v: FormValue): (r: Check)
    ensures r.Pass? <==> step.requiredInputType.None? || Truthy(v)
    ensures step.requiredInputType == Some(BooleanInput) && v.Flag? ==> (r.Pass? <==> v == Flag(true))
  {
    if step.requiredInputType.Some? && !Truthy(v) then
      if step.requiredInputType.value == BooleanInput && v != Flag(true) then
        Refuse("Vink het vakje aan om te bevestigen.")
      else if step.requiredInputType.value != BooleanInput then
        Refuse("Vul alstublieft het veld in.")
      else Pass
    else Pass
  }

  /** Records a step id as completed unless it already is. */
  function Record(completed: seq<string>, id: string): (r: seq<string>)
    ensures id in r && multiset(r)[id] >= 1
    ensures NoDuplicates(completed) ==> NoDuplicates(r) && multiset(r)[id] == 1
    ensures forall x :: x in r <==> x in completed || x == id
  {
    if id in completed then
      assert NoDuplicates(completed) ==> multiset(completed)[id] == 1 by {
        if NoDuplicates(completed) {
          NoDuplicatesOccursOnce(completed, id);
        }
      }
      completed
    else
      assert NoDuplicates(completed) ==> NoDuplicates(completed + [id]) by {
        forall i, j | 0 <= i < j < |completed + [id]| && NoDuplicates(completed)
          ensures (completed + [id])[i] != (completed + [id])[j]
        {
          if j == |completed| {
            assert (completed + [id])[i] == completed[i];
          }
        }
      }
      assert multiset(completed + [id])[id] == multiset(completed)[id] + 1;
      completed + [id]
  }

  lemma {:induction false} NoDuplicatesOccursOnce(s: seq<string>, x: string)
    requires NoDuplicates(s) && x in s
    ensures multiset(s)[x] == 1
  {
    assert s == [s[0]] + s[1..];
    assert NoDuplicates(s[1..]) by {
      forall i, j | 0 <= i < j < |s[1..]| ensures s[1..][i] != s[1..][j] {
        assert s[1..][i] == s[i + 1] && s[1..][j] == s[j + 1];
      }
    }
    forall k | 0 <= k < |s[1..]| ensures s[1..][k] != s[0] {
      assert s[1..][k] == s[k + 1];
    }
    if x == s[0] {
      assert x !in s[1..];
    } else {
      NoDuplicatesOccursOnce(s[1..], x);
    }
  }

  /** The step index after a valid "next": one further, never past the last step. */
  function Advance(index: nat, count: nat): (r: nat)
    requires index < count
    ensures r < count
    ensures index <= r <= index + 1
    ensures r == index + 1 <==> index < count - 1
  {
    if index < count - 1 then index + 1 else index
  }

  /** The index stays on a step, completed ids are step ids without
      duplicates, and every step before the current one is completed. */
  ghost predicate RunInvariant(steps: seq<MissionStep>, index: nat, completed: seq<string>) {
    index < |steps|
    && NoDuplicates(completed)
    && (forall k :: 0 <= k < |completed| ==> completed[k] in StepIds(steps))
    && (forall i :: 0 <= i < index ==> steps[i].id in completed)
  }

  /** Recording the current step keeps the invariant, both when the index
      then moves on and when it stays (finishing). */
  lemma RecordKeepsInvariant(steps: seq<MissionStep>, index: nat, completed: seq<string>)
    requires RunInvariant(steps, index, completed)
    ensures RunInvariant(steps, index, Record(completed, steps[index].id))
    ensures RunInvariant(steps, Advance(index, |steps|), Record(completed, steps[index].id))
  {
    var id := steps[index].id;
    var r := Record(completed, id);
    assert id in StepIds(steps) by {
      assert StepIds(steps)[index] == id;
    }
    RecordedAreSteps(steps, completed, id, r);
    RecordedPrefix(steps, index, completed, r);
  }

  lemma RecordedAreSteps(steps: seq<MissionStep>, completed: seq<string>, id: string, r: seq<string>)
    requires forall k :: 0 <= k < |completed| ==> completed[k] in StepIds(steps)
    requires id in StepIds(steps)
    requires forall x :: x in r ==> x in completed || x == id
    ensures forall k :: 0 <= k < |r| ==> r[k] in StepIds(steps)
  {
    forall k | 0 <= k < |r| ensures r[k] in StepIds(steps) {
      var x := r[k];
      assert x in r;
      if x != id {
        var j :| 0 <= j < |completed| && completed[j] == x;
      }
    }
  }

  lemma RecordedPrefix(steps: seq<MissionStep>, index: nat, completed: seq<string>, r: seq<string>)
    requires index < |steps|
    requires forall i :: 0 <= i < index ==> steps[i].id in completed
    requires steps[index].id in r
    requires forall x :: x in completed ==> x in r
    ensures forall i :: 0 <= i <= index ==> steps[i].id in r
  {
  }

  /** How a step is drawn in the timeline. */
  datatype StepPhase = Done | Current | Pending

  /** The execution of one mission: current step, completed step ids, form values. */
  class MissionRun {
    const mission: Mission
    var currentStepIndex: nat
    var completedSteps: seq<string>
    var formData: map<string, FormValue>

    /** The index stays on a step, completed ids are step ids without
        duplicates, and every step before the current one is completed. */
    ghost predicate Valid()
      reads this
    {
      RunInvariant(mission.steps, currentStepIndex, completedSteps)
    }

    /** Opening a mission: first step, nothing completed, an empty form. */
    constructor (m: Mission)
      requires |m.steps| > 0
      ensures Valid()
      ensures mission == m && currentStepIndex == 0 && completedSteps == [] && formData == map[]
    {
      mission := m;
      currentStepIndex := 0;
      completedSteps := [];
      formData := map[];
    }

    function CurrentStep(): (s: MissionStep)
      reads this
      requires Valid()
      ensures s in mission.steps
    {
      mission.steps[currentStepIndex]
    }

    /** `handleInputChange`: one form entry set, nothing else changed. */
    method InputChange(stepId: string, value: FormValue)
      modifies this`formData
      ensures formData == old(formData)[stepId := value]
    {
      formData := formData[stepId := value];
    }

    /** `handleNextStep`: refused with no change when the step is not
        filled in; otherwise the step is recorded once and the index moves
        on, stopping at the last step. */
    method NextStep() returns (check: Check)
      requires Valid()
      modifies this`currentStepIndex, this`completedSteps
      ensures Valid()
      ensures check == Validate(old(CurrentStep()), Lookup(formData, old(CurrentStep()).id))
      ensures check.Refuse? ==>
        currentStepIndex == old(currentStepIndex) && completedSteps == old(completedSteps)
      ensures check.Pass? ==>
        completedSteps == Record(old(completedSteps), old(CurrentStep()).id)
        && multiset(completedSteps)[old(CurrentStep()).id] == 1
        && currentStepIndex == Advance(old(currentStepIndex), |mission.steps|)
    {
      var step := mission.steps[currentStepIndex];
      check := Validate(step, Lookup(formData, step.id));
      if check.Refuse? {
        return;
      }
      RecordKeepsInvariant(mission.steps, currentStepIndex, completedSteps);
      completedSteps := Record(completedSteps, step.id);
      if currentStepIndex < |mission.steps| - 1 {
        currentStepIndex := currentStepIndex + 1;
      }
    }

    /** `handleFinish`, behind the button that only the last step shows:
        the same validation and recording; on success every step of the
        mission is recorded and its id is handed to the completion callback. */
    method Finish() returns (check: Check, handedOver: Option<string>)
      requires Valid()
      requires currentStepIndex == |mission.steps| - 1
      modifies this`completedSteps
      ensures Valid()
      ensures check == Validate(old(CurrentStep()), Lookup(formData, old(CurrentStep()).id))
      ensures handedOver == if check.Pass? then Some(mission.id) else None
      ensures check.Refuse? ==> completedSteps == old(completedSteps)
      ensures check.Pass? ==>
        completedSteps == Record(old(completedSteps), old(CurrentStep()).id)
        && multiset(completedSteps)[old(CurrentStep()).id] == 1
      ensures check.Pass? ==> forall i :: 0 <= i < |mission.steps| ==> mission.steps[i].id in completedSteps
    {
      var step := mission.steps[currentStepIndex];
      check := Validate(step, Lookup(formData, step.id));
      if check.Refuse? {
        handedOver := None;
        return;
      }
      RecordKeepsInvariant(mission.steps, currentStepIndex, completedSteps);
      var recorded := Record(completedSteps, step.id);
      RecordedPrefix(mission.steps, currentStepIndex, completedSteps, recorded);
      completedSteps := recorded;
      handedOver := Some(mission.id);
    }

    /** The Back button: disabled on the first step, otherwise one step back. */
    method Back() returns (moved: bool)
      requires Valid()
      modifies this`currentStepIndex
      ensures Valid()
      ensures moved == (old(currentStepIndex) > 0)
      ensures currentStepIndex == if moved then old(currentStepIndex) - 1 else old(currentStepIndex)
    {
      moved := currentStepIndex > 0;
      if moved {
        currentStepIndex := currentStepIndex - 1;
      }
    }

    /** The timeline classification: steps before the current one are done
        (and recorded as completed), after it pending. */
    function PhaseOf(idx: nat): (r: StepPhase)
      reads this
      requires Valid() && idx < |mission.steps|
      ensures r == Done ==> mission.steps[idx].id in completedSteps
      ensures r == Current <==> idx == currentStepIndex
      ensures r == Pending <==> currentStepIndex < idx
    {
      if idx < currentStepIndex then Done
      else if idx == currentStepIndex then Current
      else Pending
    }

    /** The progress numerator: when the mission's step ids are distinct
        it never exceeds the number of steps. */
    function ProgressCount(): (n: nat)
      reads this
      requires Valid()
      ensures n == |completedSteps|
      ensures NoDuplicates(StepIds(mission.steps)) ==> n <= |mission.steps|
      ensures currentStepIndex <= n || !NoDuplicates(StepIds(mission.steps))
    {
      var n := |completedSteps|;
      forall x | x in completedSteps ensures x in StepIds(mission.steps) {
        var k :| 0 <= k < |completedSteps| && completedSteps[k] == x;
      }
      NoDuplicatesBounded(completedSteps, StepIds(mission.steps));
      PrefixCompleted(this);
      n
    }
  }

  /** Every step before the current one is among the completed ids; with
      distinct step ids that makes at least `currentStepIndex` of them. */
  lemma PrefixCompleted(run: MissionRun)
    requires run.Valid()
    ensures NoDuplicates(StepIds(run.mission.steps)) ==> run.currentStepIndex <= |run.completedSteps|
  {
    var ids := StepIds(run.mission.steps);
    if NoDuplicates(ids) {
      var prefix := ids[..run.currentStepIndex];
      assert NoDuplicates(prefix);
      forall x | x in prefix ensures x in run.completedSteps {
        var k :| 0 <= k < |prefix| && prefix[k] == x;
        assert x == run.mission.steps[k].id;
      }
      NoDuplicatesBounded(prefix, run.completedSteps);
    }
  }
}
