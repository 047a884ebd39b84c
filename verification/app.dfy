/** The application shell: the signed-in flag, the current user, the
    mission list and the notifications, and the completion handler that
    every finished mission ends in. */
module App {
  import opened Types
  import opened Seqs
  import opened Text
  import opened Dashboard
  import opened Missions
  import opened Constants

  // ---------------------------------------------------------------------
  // Completing a mission
  // ---------------------------------------------------------------------

  /** `missions.map(m => m.id === id ? { ...m, status: COMPLETED } : m)`:
      every mission with that id becomes completed, every other one is
      kept, and the order and length stay the same. */
  function MarkCompleted(ms: seq<Mission>, id: string): (r: seq<Mission>)
    ensures |r| == |ms|
    ensures forall i :: 0 <= i < |ms| ==> r[i].id == ms[i].id
    ensures forall i :: 0 <= i < |ms| && ms[i].id == id ==> r[i] == ms[i].(status := Completed)
    ensures forall i :: 0 <= i < |ms| && ms[i].id != id ==> r[i] == ms[i]
  {
    if ms == [] then []
    else
      var rest := MarkCompleted(ms[1..], id);
      var head := if ms[0].id == id then ms[0].(status := Completed) else ms[0];
      assert forall i :: 1 <= i < |ms| ==> ms[i] == ms[1..][i - 1];
      [head] + rest
  }

  /** Completing the same mission again changes nothing more. */
  lemma MarkCompletedIdempotent(ms: seq<Mission>, id: string)
    ensures MarkCompleted(MarkCompleted(ms, id), id) == MarkCompleted(ms, id)
  {
    var once := MarkCompleted(ms, id);
    var twice := MarkCompleted(once, id);
    forall i | 0 <= i < |ms| ensures twice[i] == once[i] {
      if ms[i].id == id {
        assert once[i].id == id;
      }
    }
  }

  /** An id no mission has leaves the list as it was. */
  lemma MarkCompletedUnknownId(ms: seq<Mission>, id: string)
    requires forall i :: 0 <= i < |ms| ==> ms[i].id != id
    ensures MarkCompleted(ms, id) == ms
  {
    var r := MarkCompleted(ms, id);
    forall i | 0 <= i < |ms| ensures r[i] == ms[i] {
      assert ms[i].id != id;
    }
  }

  function CompletedCount(ms: seq<Mission>): (r: nat)
    ensures r <= |ms|
  {
    if ms == [] then 0 else (if ms[0].status == Completed then 1 else 0) + CompletedCount(ms[1..])
  }

  /** Some mission carries the id and is not yet completed. */
  predicate Pending(ms: seq<Mission>, id: string) {
    exists i :: 0 <= i < |ms| && ms[i].id == id && ms[i].status != Completed
  }

  /** With distinct ids, completing a mission adds one completed mission
      when it was pending and none otherwise: exactly one mission changes. */
  lemma {:induction false} CompletionCount(ms: seq<Mission>, id: string)
    requires IdsDistinct(ms)
    ensures CompletedCount(MarkCompleted(ms, id)) == CompletedCount(ms) + (if Pending(ms, id) then 1 else 0)
  {
    if ms != [] {
      var r := MarkCompleted(ms, id);
      var tail := ms[1..];
      assert IdsDistinct(tail) by {
        forall a, b | 0 <= a < b < |tail| ensures tail[a].id != tail[b].id {
          assert tail[a] == ms[a + 1] && tail[b] == ms[b + 1];
        }
      }
      CompletionCount(tail, id);
      assert r[1..] == MarkCompleted(tail, id);
      if ms[0].id == id {
        assert !Pending(tail, id) by {
          forall i | 0 <= i < |tail| ensures tail[i].id != id {
            assert tail[i] == ms[i + 1];
          }
        }
        assert Pending(ms, id) <==> ms[0].status != Completed;
      } else {
        assert Pending(ms, id) <==> Pending(tail, id) by {
          if Pending(tail, id) {
            var i :| 0 <= i < |tail| && tail[i].id == id && tail[i].status != Completed;
            assert ms[i + 1] == tail[i];
          }
          if Pending(ms, id) {
            var i :| 0 <= i < |ms| && ms[i].id == id && ms[i].status != Completed;
            assert tail[i - 1] == ms[i];
          }
        }
      }
    }
  }

  /** The notification that announces a level-up; `now` stands for
      `Date.now()`, which gives both its id and its timestamp. */
  function LevelUpNotification(now: nat): (n: Notification)
    ensures !n.read && n.kind == "success"
    ensures n.timestamp == now
  {
    Notification(NatToString(now), "Onboarding Voltooid", "Goed gedaan! Je hebt een nieuw level bereikt.", "success", false, now)
  }

  /** Notifications made at different moments have different ids. */
  lemma LevelUpNotificationIds(a: nat, b: nat)
    requires a != b
    ensures LevelUpNotification(a).id != LevelUpNotification(b).id
  {
    if LevelUpNotification(a).id == LevelUpNotification(b).id {
      NatToStringInjective(a, b);
    }
  }

  /** Prepending the level-up notification raises the unread count by one. */
  lemma LevelUpRaisesUnread(ns: seq<Notification>, now: nat)
    ensures UnreadCount([LevelUpNotification(now)] + ns) == UnreadCount(ns) + 1
  {
    UnreadCountAppend([LevelUpNotification(now)], ns);
  }

  /** `{showLevelUp && <LevelUpModal level={showLevelUp} />}`: the modal is
      shown with the stored level unless there is none or it is 0 (falsy). */
  function LevelUpModal(showLevelUp: Option<int>): (shown: Option<int>)
    ensures shown.Some? <==> showLevelUp.Some? && showLevelUp.value != 0
    ensures shown.Some? ==> shown == showLevelUp
  {
    if showLevelUp.Some? && showLevelUp.value != 0 then showLevelUp else None
  }

  // ---------------------------------------------------------------------
  // What the shell renders
  // ---------------------------------------------------------------------

  /** The missions the dashboard receives: in progress, available, or the
      completed mission `m_001`. */
  predicate OnDashboard(m: Mission) {
    m.status == InProgress || m.status == Available || (m.status == Completed && m.id == "m_001")
  }

  function DashboardMissions(ms: seq<Mission>): (r: seq<Mission>)
    ensures IsSubsequence(r, ms)
    ensures forall m :: m in r <==> m in ms && OnDashboard(m)
  {
    FilterMembers(ms, OnDashboard);
    Filter(ms, OnDashboard)
  }

  /** A completed mission other than `m_001` drops off the dashboard. */
  lemma CompletedLeavesDashboard(ms: seq<Mission>, id: string)
    requires id != "m_001"
    ensures forall m :: m in DashboardMissions(MarkCompleted(ms, id)) ==> m.id != id
  {
    var r := MarkCompleted(ms, id);
    forall m | m in DashboardMissions(r) ensures m.id != id {
      var i :| 0 <= i < |r| && r[i] == m;
      assert ms[i].id == id ==> m.status == Completed;
    }
  }

  /** On the generated library, completion adds exactly one completed
      mission when the id names a pending one, and none otherwise. */
  lemma LibraryCompletionCount(s: seq<Mission>, id: string)
    requires IsLibrary(s)
    ensures CompletedCount(MarkCompleted(s, id)) == CompletedCount(s) + (if Pending(s, id) then 1 else 0)
  {
    LibraryIdsDistinct(s);
    CompletionCount(s, id);
  }

  /** No mission of the generated library has the id `m_001`. */
  lemma LibraryHasNoM001(s: seq<Mission>)
    requires IsLibrary(s)
    ensures forall k :: 0 <= k < |s| ==> s[k].id != "m_001"
  {
    LibraryCatalogued(s);
    assert Position("m_001") == -1;
    forall k | 0 <= k < |s| ensures s[k].id != "m_001" {
      assert Catalogued(s[k], k);
    }
  }

  /** Hence, on the generated library, the dashboard shows no completed
      mission after any completion: the `m_001` exception never applies. */
  lemma LibraryDashboardHasNoCompleted(s: seq<Mission>, id: string)
    requires IsLibrary(s)
    ensures forall m :: m in DashboardMissions(MarkCompleted(s, id)) ==> m.status != Completed
  {
    LibraryHasNoM001(s);
    DashboardHasNoCompleted(s, id);
  }

  /** Without an `m_001`, the dashboard shows no completed mission after
      any completion. */
  lemma DashboardHasNoCompleted(s: seq<Mission>, id: string)
    requires forall k :: 0 <= k < |s| ==> s[k].id != "m_001"
    ensures forall m :: m in DashboardMissions(MarkCompleted(s, id)) ==> m.status != Completed
  {
    var r := MarkCompleted(s, id);
    forall m | m in DashboardMissions(r) ensures m.status != Completed {
      var i :| 0 <= i < |r| && r[i] == m;
      assert r[i].id == s[i].id;
    }
  }

  datatype Screen =
    | AuthScreen
    | MainScreen(notificationsCount: nat, dashboardMissions: seq<Mission>, allMissions: seq<Mission>)

  /** Signed out, only the sign-in page is produced; signed in, the layout
      gets the unread count and the dashboard its filtered missions. */
  function Render(isAuthenticated: bool, ms: seq<Mission>, ns: seq<Notification>): (r: Screen)
    ensures r.AuthScreen? <==> !isAuthenticated
    ensures r.MainScreen? ==>
      && r.notificationsCount == UnreadCount(ns) && r.notificationsCount <= |ns|
      && IsSubsequence(r.dashboardMissions, ms)
      && (forall m :: m in r.dashboardMissions <==> m in ms && OnDashboard(m))
      && r.allMissions == ms
  {
    if !isAuthenticated then AuthScreen
    else MainScreen(UnreadCount(ns), DashboardMissions(ms), ms)
  }

  // ---------------------------------------------------------------------
  // The state
  // ---------------------------------------------------------------------

  class AppState {
    var isAuthenticated: bool
    var user: User
    var missions: seq<Mission>
    var notifications: seq<Notification>
    var showLevelUp: Option<int>

    /** The initial state: signed out, no level-up pending, and the mock
        user, missions and notifications the shell starts from. */
    constructor (u: User, ms: seq<Mission>, ns: seq<Notification>)
      ensures !isAuthenticated && showLevelUp.None?
      ensures user == u && missions == ms && notifications == ns
    {
      isAuthenticated := false;
      user := u;
      missions := ms;
      notifications := ns;
      showLevelUp := None;
    }

    method Login()
      modifies this`isAuthenticated
      ensures isAuthenticated
    {
      isAuthenticated := true;
    }

    method Logout()
      modifies this`isAuthenticated
      ensures !isAuthenticated
    {
      isAuthenticated := false;
    }

    /** The count the layout's bell shows. */
    function NotificationsCount(): nat
      reads this
    {
      UnreadCount(notifications)
    }

    function View(): Screen
      reads this
    {
      Render(isAuthenticated, missions, notifications)
    }

    /** `handleCompleteMission`: the mission with that id is completed, the
        level goes up by one and XP restarts at 0 (also when the mission was
        completed before), the level-up modal gets the new level, and one
        unread notification is put in front of the others. */
    method CompleteMission(missionId: string, now: nat)
      modifies this`missions, this`user, this`showLevelUp, this`notifications
      ensures missions == MarkCompleted(old(missions), missionId)
      ensures user == old(user).(level := old(user.level) + 1, xp := 0)
      ensures showLevelUp == Some(user.level)
      ensures old(user.level) != -1 ==> LevelUpModal(showLevelUp) == Some(old(user.level) + 1)
      ensures notifications == [LevelUpNotification(now)] + old(notifications)
      ensures NotificationsCount() == old(NotificationsCount()) + 1
    {
      missions := MarkCompleted(missions, missionId);
      var newLevel := user.level + 1;
      user := user.(level := newLevel, xp := 0);
      showLevelUp := Some(newLevel);
      LevelUpRaisesUnread(notifications, now);
      notifications := [LevelUpNotification(now)] + notifications;
    }

    /** Closing the modal clears the stored level. */
    method CloseLevelUp()
      modifies this`showLevelUp
      ensures showLevelUp.None? && LevelUpModal(showLevelUp).None?
    {
      showLevelUp := None;
    }

    /** Finishing a mission run: when the last step passes validation the
        run hands its mission id over and the shell completes that mission;
        when it is refused, the shell's state is untouched. */
    method FinishRun(run: MissionRun, now: nat) returns (check: Check)
      requires run.Valid()
      requires run.currentStepIndex == |run.mission.steps| - 1
      modifies run`completedSteps, this`missions, this`user, this`showLevelUp, this`notifications
      ensures run.Valid()
      ensures check == Validate(old(run.CurrentStep()), Lookup(run.formData, old(run.CurrentStep()).id))
      ensures check.Refuse? ==>
        && run.completedSteps == old(run.completedSteps)
        && missions == old(missions) && user == old(user)
        && notifications == old(notifications) && showLevelUp == old(showLevelUp)
      ensures check.Pass? ==>
        && run.completedSteps == Record(old(run.completedSteps), old(run.CurrentStep()).id)
        && (forall i :: 0 <= i < |run.mission.steps| ==> run.mission.steps[i].id in run.completedSteps)
        && missions == MarkCompleted(old(missions), run.mission.id)
        && user == old(user).(level := old(user.level) + 1, xp := 0)
        && showLevelUp == Some(user.level)
        && notifications == [LevelUpNotification(now)] + old(notifications)
    {
      var handedOver;
      check, handedOver := run.Finish();
      if handedOver.Some? {
        CompleteMission(handedOver.value, now);
      }
    }
  }
}
