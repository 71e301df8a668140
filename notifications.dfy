/** src/NotificationManager.js: the permission the page holds, the
    notifications it asks the browser to display, and the milestone tracker
    that announces collection sizes once each, remembering the last one in
    `localStorage`. How a notification reaches the screen (the service
    worker message, the `Notification` object, the in-app banner) is not
    modelled: a displayed notification is one entry in `displayed`. */
module Notifications {
  import opened Base
  import opened Pokedex
  import opened WebStorage

  /** An option value, as far as the options this class builds go. */
  datatype Value =
    | Str(s: string)
    | Flag(b: bool)
    | Number(n: int)
    | Pattern(ms: seq<int>)
    | Data(fields: map<string, Value>)
    | Actions(pairs: seq<(string, string)>)

  type Options = map<string, Value>

  /** One call of the browser's display machinery: a title and the merged
      options. */
  datatype Notice = Notice(title: string, options: Options)

  const Granted: string := "granted"

  /** The defaults `showNotification` starts from; `timestamp` is
      `Date.now()`, here the parameter `now`. */
  function Defaults(now: int): Options
  {
    map[
      "icon" := Str("/logo192.png"),
      "badge" := Str("/favicon.ico"),
      "image" := Str("/logo192.png"),
      "vibrate" := Pattern([500, 110, 500, 110, 450, 110, 200, 110, 170, 40, 450, 110, 200, 110, 170, 40, 500]),
      "silent" := Flag(false),
      "requireInteraction" := Flag(true),
      "timestamp" := Number(now),
      "renotify" := Flag(true),
      "sticky" := Flag(true)
    ]
  }

  /** `{...defaults, ...options}`: every key of either, the caller's value
      where the caller gave one. */
  function Merge(defaults: Options, options: Options): (r: Options)
    ensures r.Keys == defaults.Keys + options.Keys
    ensures forall k :: k in options ==> r[k] == options[k]
    ensures forall k :: k in defaults && k !in options ==> r[k] == defaults[k]
  {
    defaults + options
  }

  /** What one `showNotification(title, options)` displays: nothing unless
      the permission is granted. */
  function Displayed(permission: string, title: string, options: Options, now: int): (r: seq<Notice>)
    ensures r != [] <==> permission == Granted
    ensures r != [] ==> r == [Notice(title, Merge(Defaults(now), options))]
  {
    if permission != Granted then [] else [Notice(title, Merge(Defaults(now), options))]
  }

  /** The caller's options win over every default, whatever the defaults
      are: an explicit `requireInteraction: false` switches the persistent
      default off. */
  lemma CallerOptionsWin(permission: string, title: string, options: Options, now: int, k: string)
    requires permission == Granted && k in options
    ensures Displayed(permission, title, options, now)[0].options[k] == options[k]
  {
  }

  const WelcomeTitle: string := "🔴 ¡Pokédex Activada!"

  function WelcomeOptions(): Options
  {
    map[
      "body" := Str("¡Las notificaciones están habilitadas! Te avisaremos cuando captures nuevos Pokémon."),
      "icon" := Str("/logo192.png"),
      "badge" := Str("/favicon.ico"),
      "tag" := Str("welcome"),
      "data" := Data(map["type" := Str("welcome")])
    ]
  }

  /** `requestPermission` as a value: whether it resolves to true and the
      permission held afterwards. `answer` is what the browser's prompt
      resolves to, `None` when it throws; the prompt is only shown when the
      API exists and the permission is not already granted. */
  function Requested(permission: string, supported: bool, answer: Option<string>): (r: (bool, string))
    ensures r.0 <==> supported && (permission == Granted || answer == Some(Granted))
    ensures r.1 == if supported && permission != Granted && answer.Some? then answer.value else permission
  {
    if !supported then (false, permission)
    else if permission == Granted then (true, permission)
    else match answer
      case None => (false, permission)
      case Some(a) => (a == Granted, a)
  }

  /** Once granted, a request prompts no more: whatever the prompt would
      have answered, the result is true and the permission stays granted. */
  lemma GrantedIsFinal(supported: bool, a1: Option<string>, a2: Option<string>)
    requires supported
    ensures Requested(Granted, supported, a1) == Requested(Granted, supported, a2) == (true, Granted)
  {
  }

  /** A thrown prompt and an unsupported browser leave the permission as it
      was and resolve to false unless it was already granted. */
  lemma FailedRequestChangesNothing(permission: string, supported: bool, answer: Option<string>)
    requires !supported || answer.None?
    ensures Requested(permission, supported, answer) == (supported && permission == Granted, permission)
  {
  }

  const MarkerKey: string := "pokepwa-last-milestone"
  const Milestones: seq<int> := [100, 250, 500, 750, 1000]
  const MilestoneTitle: string := "🎖️ ¡Logro Desbloqueado!"

  /** The table of `showMilestoneNotification`: a message for the five
      milestones and for nothing else. */
  function MilestoneMessage(m: int): (r: Option<string>)
    ensures r.Some? <==> m in Milestones
  {
    if m == 100 then Some("🥉 ¡Primer centenar! 100 Pokémon capturados")
    else if m == 250 then Some("🥈 ¡Cuarto de mil! 250 Pokémon en tu colección")
    else if m == 500 then Some("🥇 ¡Medio millar! 500 Pokémon capturados")
    else if m == 750 then Some("🏆 ¡Casi mil! 750 Pokémon en tu Pokédex")
    else if m == 1000 then Some("👑 ¡MAESTRO POKÉMON! ¡1000 Pokémon capturados!")
    else None
  }

  function MilestoneOptions(m: nat, message: string): Options
  {
    map[
      "body" := Str(message),
      "icon" := Str("/logo192.png"),
      "badge" := Str("/favicon.ico"),
      "tag" := Str("milestone-" + Decimal(m)),
      "data" := Data(map["type" := Str("milestone"), "milestone" := Number(m)]),
      "requireInteraction" := Flag(true),
      "actions" := Actions([("celebrate", "🎉 Celebrar"), ("view", "👁️ Ver Colección")])
    ]
  }

  /** What `showMilestoneNotification(m)` displays. */
  function MilestoneNotices(permission: string, m: int, now: int): (r: seq<Notice>)
    ensures r != [] <==> permission == Granted && m in Milestones
    ensures r != [] ==> r[0].title == MilestoneTitle && "body" in r[0].options && r[0].options["body"] == Str(MilestoneMessage(m).value)
  {
    match MilestoneMessage(m)
    case None => []
    case Some(message) => Displayed(permission, MilestoneTitle, MilestoneOptions(m as nat, message), now)
  }

  /** `parseInt(localStorage.getItem(key) || '0')`: an absent or empty
      marker is 0, a number is itself, anything else NaN (`None`). */
  function Marker(v: Option<Text>): Option<int>
  {
    if Truthy(v) then ParseInt(v.value) else Some(0)
  }

  predicate Increasing(ms: seq<int>)
  {
    forall i, j :: 0 <= i < j < |ms| ==> ms[i] < ms[j]
  }

  /** The first of `ms` above `last` and at most `count`. For an increasing
      list it is the smallest such, and `None` means there is none. */
  function FirstQualifying(ms: seq<int>, count: int, last: int): (r: Option<int>)
    requires Increasing(ms)
    ensures r.None? <==> forall m :: m in ms ==> !(last < m <= count)
    ensures r.Some? ==> r.value in ms && last < r.value <= count
    ensures r.Some? ==> forall m :: m in ms && last < m <= count ==> r.value <= m
  {
    if ms == [] then None
    else if last < ms[0] <= count then
      assert forall m :: m in ms ==> ms[0] <= m by {
        forall m | m in ms ensures ms[0] <= m {
          var j :| 0 <= j < |ms| && ms[j] == m;
          assert j == 0 || ms[0] < ms[j];
        }
      }
      assert ms[0] in ms;
      Some(ms[0])
    else
      assert forall m :: m in ms ==> m == ms[0] || m in ms[1..] by {
        forall m | m in ms ensures m == ms[0] || m in ms[1..] {
          var j :| 0 <= j < |ms| && ms[j] == m;
          assert j == 0 || ms[1..][j - 1] == m;
        }
      }
      assert forall m :: m in ms[1..] ==> m in ms;
      FirstQualifying(ms[1..], count, last)
  }

  /** The loop of `checkMilestones` as a value: the milestone it stores and
      announces, `None` when none qualifies or the marker is NaN (every
      comparison with NaN is false). */
  function NextMilestone(count: int, marker: Option<int>): Option<int>
  {
    match marker
    case None => None
    case Some(last) => FirstQualifying(Milestones, count, last)
  }

  /** One `checkMilestones(count)`: the storage afterwards, what it
      displayed, and whether `setItem` threw (a full quota), in which case
      the error escapes before the notification. */
  datatype Check = Check(store: Store, notices: seq<Notice>, failed: bool)

  function Checked(st: Store, permission: string, count: int, now: int): Check
  {
    match NextMilestone(count, Marker(st.Get(MarkerKey)))
    case None => Check(st, [], false)
    case Some(m) =>
      var (s, ok) := st.Set(MarkerKey, NumberText(m));
      Check(s, if ok then MilestoneNotices(permission, m, now) else [], !ok)
  }

  /** At most one milestone per call, only the marker key is touched, and
      the marker moves only upwards and never past `count`: whatever is
      written is a milestone above the marker read and at most `count`. */
  lemma OneMilestonePerCheck(st: Store, permission: string, count: int, now: int)
    ensures var r := Checked(st, permission, count, now);
      && |r.notices| <= 1
      && (forall k :: k != MarkerKey ==> r.store.Get(k) == st.Get(k))
      && (r.store.Get(MarkerKey) == st.Get(MarkerKey)
          || exists m :: m in Milestones && r.store.Get(MarkerKey) == Some(NumberText(m))
               && Marker(st.Get(MarkerKey)).Some? && Marker(st.Get(MarkerKey)).value < m <= count)
  {
    var r := Checked(st, permission, count, now);
    match NextMilestone(count, Marker(st.Get(MarkerKey)))
    case None =>
    case Some(m) =>
      assert r.store.Get(MarkerKey) == st.Get(MarkerKey) || r.store.Get(MarkerKey) == Some(NumberText(m));
  }

  /** When nothing qualifies, the storage is unchanged, nothing is shown
      and no quota answer is used. */
  lemma NothingQualifiesNoChange(st: Store, permission: string, count: int, now: int)
    requires var last := Marker(st.Get(MarkerKey));
      last.Some? ==> forall m :: m in Milestones ==> !(last.value < m <= count)
    ensures Checked(st, permission, count, now) == Check(st, [], false)
  {
  }

  /** An unreadable marker switches the tracker off for good: NaN is never
      less than a milestone. */
  lemma UnreadableMarkerBlocksAll(st: Store, permission: string, count: int, now: int)
    requires Truthy(st.Get(MarkerKey)) && !st.Get(MarkerKey).value.NumberText?
    ensures Checked(st, permission, count, now) == Check(st, [], false)
  {
  }

  /** With room in storage and a readable marker, a check writes exactly
      the milestone `FirstQualifying` picks, or changes nothing. */
  lemma CheckFollowsFirstQualifying(st: Store, permission: string, count: int, now: int, last: int)
    requires st.quota == [] && Marker(st.Get(MarkerKey)) == Some(last)
    ensures var r := Checked(st, permission, count, now);
      match FirstQualifying(Milestones, count, last)
      case None => r == Check(st, [], false)
      case Some(m) =>
        && r.store.quota == [] && !r.failed
        && Marker(r.store.Get(MarkerKey)) == Some(m)
        && r.notices == MilestoneNotices(permission, m, now)
  {
  }

  /** A check fails exactly when a milestone qualifies and the quota
      refuses its marker; a failed check shows nothing and leaves the marker
      as it was, so the same milestone is tried again next time. */
  lemma FailedCheckShowsNothing(st: Store, permission: string, count: int, now: int)
    ensures var r := Checked(st, permission, count, now);
      && (r.failed <==> NextMilestone(count, Marker(st.Get(MarkerKey))).Some? && !st.Fits())
      && (r.failed ==> r.notices == [] && r.store.Get(MarkerKey) == st.Get(MarkerKey))
  {
  }

  /** The markers written by `calls` checks in a row with the same count,
      each one reading the storage the previous one left, up to the first
      check that writes none. */
  function MarkersWritten(st: Store, permission: string, count: int, now: int, calls: nat): seq<int>
    decreases calls
  {
    if calls == 0 then []
    else
      var r := Checked(st, permission, count, now);
      if r.failed || r.store.Get(MarkerKey) == st.Get(MarkerKey) then []
      else match Marker(r.store.Get(MarkerKey))
        case Some(m) => [m] + MarkersWritten(r.store, permission, count, now, calls - 1)
        case None => []
  }

  /** With room in storage and a readable marker, successive checks write
      exactly the milestones `Announcements` predicts; from five calls on,
      that is every milestone between the marker and the count, once each,
      smallest first. */
  lemma {:induction false} RepeatedChecksWriteAnnouncements(st: Store, permission: string, count: int,
                                                           now: int, last: int, calls: nat)
    requires st.quota == [] && Marker(st.Get(MarkerKey)) == Some(last)
    ensures MarkersWritten(st, permission, count, now, calls) == Announcements(Milestones, count, last, calls)
    ensures calls >= |Milestones| ==>
      MarkersWritten(st, permission, count, now, calls) == Qualifying(Milestones, count, last)
    decreases calls
  {
    if calls > 0 {
      CheckFollowsFirstQualifying(st, permission, count, now, last);
      match FirstQualifying(Milestones, count, last)
      case None =>
      case Some(m) =>
        var r := Checked(st, permission, count, now);
        assert Marker(r.store.Get(MarkerKey)) != Marker(st.Get(MarkerKey));
        RepeatedChecksWriteAnnouncements(r.store, permission, count, now, m, calls - 1);
    }
    if calls >= |Milestones| {
      MilestonesSettle(count, last, calls);
    }
  }

  /** The milestones of `ms` above `last` and at most `count`, in order. */
  function Qualifying(ms: seq<int>, count: int, last: int): (q: seq<int>)
    ensures |q| <= |ms|
  {
    if ms == [] then []
    else (if last < ms[0] <= count then [ms[0]] else []) + Qualifying(ms[1..], count, last)
  }

  lemma {:induction false} QualifyingMembers(ms: seq<int>, count: int, last: int)
    ensures forall m :: m in Qualifying(ms, count, last) <==> m in ms && last < m <= count
    decreases |ms|
  {
    if ms != [] {
      QualifyingMembers(ms[1..], count, last);
      assert ms == [ms[0]] + ms[1..];
    }
  }

  /** The milestones announced by `calls` checks in a row with the same
      count, each one starting from the marker the previous one wrote. */
  function Announcements(ms: seq<int>, count: int, last: int, calls: nat): seq<int>
    requires Increasing(ms)
    decreases calls
  {
    if calls == 0 then []
    else match FirstQualifying(ms, count, last)
      case None => []
      case Some(m) => [m] + Announcements(ms, count, m, calls - 1)
  }

  lemma {:induction false} QualifyingIgnoresLowMarker(ms: seq<int>, count: int, a: int, b: int)
    requires forall m :: m in ms ==> a < m && b < m
    ensures Qualifying(ms, count, a) == Qualifying(ms, count, b)
    decreases |ms|
  {
    if ms != [] {
      assert ms[0] in ms;
      assert forall m :: m in ms[1..] ==> m in ms;
      QualifyingIgnoresLowMarker(ms[1..], count, a, b);
    }
  }

  lemma {:induction false} FirstIsHead(ms: seq<int>, count: int, last: int)
    requires Increasing(ms)
    ensures var q := Qualifying(ms, count, last);
      FirstQualifying(ms, count, last) == if q == [] then None else Some(q[0])
    decreases |ms|
  {
    if ms != [] && !(last < ms[0] <= count) {
      FirstIsHead(ms[1..], count, last);
    }
  }

  /** After announcing the first qualifying milestone, the ones left to
      announce are the rest. */
  lemma {:induction false} AfterFirst(ms: seq<int>, count: int, last: int)
    requires Increasing(ms) && Qualifying(ms, count, last) != []
    ensures var q := Qualifying(ms, count, last);
      Qualifying(ms, count, q[0]) == q[1..]
    decreases |ms|
  {
    var q := Qualifying(ms, count, last);
    assert ms != [];
    var tail := ms[1..];
    assert forall m :: m in tail ==> ms[0] < m by {
      forall m | m in tail ensures ms[0] < m {
        var j :| 0 <= j < |tail| && tail[j] == m;
        assert ms[j + 1] == m;
      }
    }
    if last < ms[0] <= count {
      assert q == [ms[0]] + Qualifying(tail, count, last);
      QualifyingIgnoresLowMarker(tail, count, ms[0], last);
    } else {
      assert q == Qualifying(tail, count, last);
      AfterFirst(tail, count, last);
      QualifyingMembers(tail, count, last);
      assert q[0] in tail;
    }
  }

  /** Repeated checks with the same count announce every qualifying
      milestone exactly once, smallest first, one per call; once they are
      used up every further call is a no-op. */
  lemma {:induction false} RepeatedChecksAnnounceEachOnce(ms: seq<int>, count: int, last: int, calls: nat)
    requires Increasing(ms) && calls >= |Qualifying(ms, count, last)|
    ensures Announcements(ms, count, last, calls) == Qualifying(ms, count, last)
    decreases calls
  {
    var q := Qualifying(ms, count, last);
    FirstIsHead(ms, count, last);
    if calls > 0 && q != [] {
      AfterFirst(ms, count, last);
      RepeatedChecksAnnounceEachOnce(ms, count, q[0], calls - 1);
      assert q == [q[0]] + q[1..];
    }
  }

  /** For the five milestones: five checks with a fixed count announce
      exactly the milestones between the marker and the count, strictly
      increasing, and any further check announces nothing. */
  lemma MilestonesSettle(count: int, last: int, calls: nat)
    requires calls >= |Milestones|
    ensures var q := Qualifying(Milestones, count, last);
      && Announcements(Milestones, count, last, calls) == q
      && (forall m :: m in q <==> m in Milestones && last < m <= count)
      && Increasing(q)
  {
    var q := Qualifying(Milestones, count, last);
    RepeatedChecksAnnounceEachOnce(Milestones, count, last, calls);
    QualifyingMembers(Milestones, count, last);
    QualifyingIncreasing(Milestones, count, last);
  }

  lemma {:induction false} QualifyingIncreasing(ms: seq<int>, count: int, last: int)
    requires Increasing(ms)
    ensures Increasing(Qualifying(ms, count, last))
    decreases |ms|
  {
    if ms != [] {
      var tail := ms[1..];
      QualifyingIncreasing(tail, count, last);
      var rest := Qualifying(tail, count, last);
      QualifyingMembers(tail, count, last);
      forall j | 0 <= j < |rest| ensures ms[0] < rest[j] {
        assert rest[j] in rest;
        var i :| 0 <= i < |tail| && tail[i] == rest[j];
        assert ms[i + 1] == rest[j];
      }
    }
  }

  class NotificationManager {
    var permission: string
    /** Every notification displayed so far, oldest first. */
    var displayed: seq<Notice>

    /** `constructor` followed by the synchronous part of `init`:
        `supported` is whether `Notification` exists, `current` its
        `permission`. */
    constructor (supported: bool, current: string)
      ensures permission == (if supported then current else "default")
      ensures displayed == []
    {
      permission := "default";
      displayed := [];
      if supported {
        permission := current;
      }
    }

    method Init(supported: bool, current: string)
      modifies this
      ensures permission == (if supported then current else old(permission))
      ensures displayed == old(displayed)
    {
      if supported {
        permission := current;
      }
    }

    method ShowNotification(title: string, options: Options, now: int)
      modifies this
      ensures permission == old(permission)
      ensures displayed == old(displayed) + Displayed(permission, title, options, now)
    {
      if permission != Granted {
        return;
      }
      displayed := displayed + [Notice(title, Merge(Defaults(now), options))];
    }

    /** Resolves to `granted`; a newly granted permission is greeted with
        the welcome notification. */
    method RequestPermission(supported: bool, answer: Option<string>, now: int) returns (granted: bool)
      modifies this
      ensures (granted, permission) == Requested(old(permission), supported, answer)
      ensures displayed == old(displayed) +
        (if supported && old(permission) != Granted && answer == Some(Granted)
         then [Notice(WelcomeTitle, Merge(Defaults(now), WelcomeOptions()))] else [])
    {
      if !supported {
        return false;
      }
      if permission == Granted {
        return true;
      }
      if answer.None? {
        return false;
      }
      permission := answer.value;
      if permission == Granted {
        ShowNotification(WelcomeTitle, WelcomeOptions(), now);
        return true;
      }
      return false;
    }

    method ShowMilestoneNotification(m: int, now: int)
      modifies this
      ensures permission == old(permission)
      ensures displayed == old(displayed) + MilestoneNotices(permission, m, now)
    {
      var message := MilestoneMessage(m);
      if message.None? {
        return;
      }
      ShowNotification(MilestoneTitle, MilestoneOptions(m as nat, message.value), now);
    }

    /** `checkMilestones(count)`; `failed` stands for the QuotaExceededError
        `setItem` would throw out of it. */
    method CheckMilestones(store: LocalStorage, count: int, now: int) returns (failed: bool)
      modifies this, store
      ensures permission == old(permission)
      ensures var r := Checked(old(store.State()), old(permission), count, now);
        store.State() == r.store && displayed == old(displayed) + r.notices && failed == r.failed
    {
      var last := Marker(store.GetItem(MarkerKey));
      failed := false;
      ghost var next := NextMilestone(count, last);
      var i := 0;
      while i < |Milestones|
        invariant 0 <= i <= |Milestones|
        invariant store.State() == old(store.State()) && displayed == old(displayed)
        invariant permission == old(permission)
        invariant last.Some? ==> forall j :: 0 <= j < i ==> !(count >= Milestones[j] && last.value < Milestones[j])
      {
        var m := Milestones[i];
        if count >= m && last.Some? && last.value < m {
          assert next == Some(m) by {
            assert Milestones[i] in Milestones;
            var r := FirstQualifying(Milestones, count, last.value);
            var j :| 0 <= j < |Milestones| && Milestones[j] == r.value;
            assert !(j < i) && !(i < j);
          }
          var ok := store.SetItem(MarkerKey, NumberText(m));
          if ok {
            ShowMilestoneNotification(m, now);
          }
          failed := !ok;
          return;
        }
        i := i + 1;
      }
      assert last.Some? ==> forall mm :: mm in Milestones ==> !(last.value < mm <= count);
    }
  }
}
