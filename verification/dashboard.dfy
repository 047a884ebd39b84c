/** The dashboard page: the "next prio mission" card, the short list of
    active missions with their step progress, and the notifications
    widget. Everything here is a `find`, `filter` or `slice` over the lists
    the page receives. */
module Dashboard {
  import opened Types
  import opened Seqs

  /** The card's test: a prio mission that can be started. */
  predicate IsUpcoming(m: Mission) {
    m.isPrio && m.status == Available
  }

  /** `i` is the first position holding an upcoming mission. */
  ghost predicate FirstUpcomingAt(ms: seq<Mission>, i: int) {
    0 <= i < |ms| && IsUpcoming(ms[i]) && forall j :: 0 <= j < i ==> !IsUpcoming(ms[j])
  }

  /** `activeMissions.find(...)`: the first upcoming mission in list order,
      or none when no mission qualifies. */
  function UpcomingMission(ms: seq<Mission>): (r: Option<Mission>)
    ensures r.None? <==> forall i :: 0 <= i < |ms| ==> !IsUpcoming(ms[i])
    ensures r.Some? ==> exists i :: FirstUpcomingAt(ms, i) && ms[i] == r.value
  {
    if ms == [] then None
    else if IsUpcoming(ms[0]) then
      assert FirstUpcomingAt(ms, 0);
      Some(ms[0])
    else
      var rest := UpcomingMission(ms[1..]);
      assert rest.Some? ==> exists i :: FirstUpcomingAt(ms, i) && ms[i] == rest.value by {
        if rest.Some? {
          var i :| FirstUpcomingAt(ms[1..], i) && ms[1..][i] == rest.value;
          assert FirstUpcomingAt(ms, i + 1);
        }
      }
      assert rest.None? ==> forall i :: 0 <= i < |ms| ==> !IsUpcoming(ms[i]) by {
        if rest.None? {
          forall i | 1 <= i < |ms| ensures !IsUpcoming(ms[i]) {
            assert ms[i] == ms[1..][i - 1];
          }
        }
      }
      rest
  }

  /** Only one position can be the first upcoming one. */
  lemma FirstUpcomingUnique(ms: seq<Mission>, i: int, j: int)
    requires FirstUpcomingAt(ms, i) && FirstUpcomingAt(ms, j)
    ensures i == j
  {
  }

  /** The card's link: the found mission's id is the id at its first position. */
  lemma UpcomingMissionIsFirst(ms: seq<Mission>, i: int)
    requires FirstUpcomingAt(ms, i)
    ensures UpcomingMission(ms) == Some(ms[i])
  {
    var r := UpcomingMission(ms);
    assert r.Some?;
    var j :| FirstUpcomingAt(ms, j) && ms[j] == r.value;
    FirstUpcomingUnique(ms, i, j);
  }

  /** `activeMissions.slice(0, 3)`: the listed missions are the first ones, at most three. */
  function ListedMissions(ms: seq<Mission>): (r: seq<Mission>)
    ensures |r| <= 3
    ensures |ms| >= 3 ==> |r| == 3
    ensures |ms| < 3 ==> r == ms
    ensures forall i :: 0 <= i < |r| ==> r[i] == ms[i]
  {
    Take(ms, 3)
  }

  /** The "no active missions" message. */
  predicate ShowsEmptyState(ms: seq<Mission>) {
    |ms| == 0
  }

  /** The empty-state message appears exactly when no mission is listed. */
  lemma EmptyStateIffNothingListed(ms: seq<Mission>)
    ensures ShowsEmptyState(ms) <==> ListedMissions(ms) == []
  {
    if ms != [] {
      assert ListedMissions(ms)[0] == ms[0];
    }
  }

  /** `mission.steps.filter(s => s.completed).length`. */
  function CompletedStepCount(steps: seq<MissionStep>): (r: nat)
    ensures r <= |steps|
    ensures r == |steps| <==> forall i :: 0 <= i < |steps| ==> steps[i].completed
    ensures r == 0 <==> forall i :: 0 <= i < |steps| ==> !steps[i].completed
  {
    if steps == [] then 0
    else
      var rest := CompletedStepCount(steps[1..]);
      assert forall i :: 1 <= i < |steps| ==> steps[i] == steps[1..][i - 1];
      (if steps[0].completed then 1 else 0) + rest
  }

  /** The completed-step count adds up over a concatenation. */
  lemma {:induction false} CompletedStepCountAppend(a: seq<MissionStep>, b: seq<MissionStep>)
    ensures CompletedStepCount(a + b) == CompletedStepCount(a) + CompletedStepCount(b)
  {
    if a != [] {
      assert (a + b)[1..] == a[1..] + b;
      CompletedStepCountAppend(a[1..], b);
    } else {
      assert a + b == b;
    }
  }

  /** `notifications.filter(n => !n.read).length`: the badge's number. */
  function UnreadCount(ns: seq<Notification>): (r: nat)
    ensures r <= |ns|
    ensures r == 0 <==> forall i :: 0 <= i < |ns| ==> ns[i].read
    ensures r == |ns| <==> forall i :: 0 <= i < |ns| ==> !ns[i].read
  {
    if ns == [] then 0
    else
      var rest := UnreadCount(ns[1..]);
      assert forall i :: 1 <= i < |ns| ==> ns[i] == ns[1..][i - 1];
      (if ns[0].read then 0 else 1) + rest
  }

  /** The unread count adds up over a concatenation. */
  lemma {:induction false} UnreadCountAppend(a: seq<Notification>, b: seq<Notification>)
    ensures UnreadCount(a + b) == UnreadCount(a) + UnreadCount(b)
  {
    if a != [] {
      assert (a + b)[1..] == a[1..] + b;
      UnreadCountAppend(a[1..], b);
    } else {
      assert a + b == b;
    }
  }

  /** `notifications.slice(0, 4)`: at most the first four notifications. */
  function ListedNotifications(ns: seq<Notification>): (r: seq<Notification>)
    ensures |r| <= 4
    ensures |ns| >= 4 ==> |r| == 4
    ensures |ns| < 4 ==> r == ns
    ensures forall i :: 0 <= i < |r| ==> r[i] == ns[i]
  {
    Take(ns, 4)
  }
}
