/** The real-time alerts page (app/admin/dashboard/alerts/page.tsx): a list
    of alerts filtered by level and by status, the per-alert buttons that
    move an alert from active to acknowledged to resolved, and the two
    counters above the list. */
module AlertsPage {
  import opened JsPrelude

  datatype AlertLevel = Critical | Warning | Info
  datatype AlertStatus = Active | Resolved | Acknowledged

  datatype Alert = Alert(
    id: string,
    title: string,
    description: string,
    level: AlertLevel,
    status: AlertStatus,
    timestamp: string,
    source: string,
    category: string)

  /** A level filter is 'all' or one level; likewise for status. */
  datatype LevelFilter = AllLevels | OnlyLevel(level: AlertLevel)
  datatype StatusFilter = AllStatuses | OnlyStatus(status: AlertStatus)

  // ------------------------------------------------------------ filtering

  predicate LevelMatch(f: LevelFilter, a: Alert)
  {
    f == AllLevels || f == OnlyLevel(a.level)
  }

  predicate StatusMatch(f: StatusFilter, a: Alert)
  {
    f == AllStatuses || f == OnlyStatus(a.status)
  }

  function KeptBy(fl: LevelFilter, fs: StatusFilter): Alert -> bool
  {
    (a: Alert) => LevelMatch(fl, a) && StatusMatch(fs, a)
  }

  /** filteredAlerts */
  function FilterAlerts(alerts: seq<Alert>, fl: LevelFilter, fs: StatusFilter): seq<Alert>
  {
    Filter(alerts, KeptBy(fl, fs))
  }

  /** An alert is shown iff it is in the list and its level and status pass
      their filters ('all' passes everything); the shown alerts keep the
      list's order; with both filters at 'all' the whole list shows. */
  lemma FilterAlertsSpec(alerts: seq<Alert>, fl: LevelFilter, fs: StatusFilter, a: Alert)
    ensures a in FilterAlerts(alerts, fl, fs) <==>
      a in alerts && (fl == AllLevels || a.level == fl.level) && (fs == AllStatuses || a.status == fs.status)
    ensures IsSubsequence(FilterAlerts(alerts, fl, fs), alerts)
    ensures FilterAlerts(alerts, AllLevels, AllStatuses) == alerts
  {
    FilterMembership(alerts, KeptBy(fl, fs), a);
    FilterIsSubsequence(alerts, KeptBy(fl, fs));
    FilterAllPass(alerts, KeptBy(AllLevels, AllStatuses));
  }

  /** The filter buttons, in display order; a button is highlighted when
      the filter equals its value. */
  const LevelButtons: seq<LevelFilter> := [AllLevels, OnlyLevel(Critical), OnlyLevel(Warning), OnlyLevel(Info)]
  const StatusButtons: seq<StatusFilter> :=
    [AllStatuses, OnlyStatus(Active), OnlyStatus(Acknowledged), OnlyStatus(Resolved)]

  /** Whatever the filters hold, exactly one button of each row is
      highlighted. */
  lemma ExactlyOneFilterButtonHighlighted(fl: LevelFilter, fs: StatusFilter)
    ensures exists i :: 0 <= i < |LevelButtons| && LevelButtons[i] == fl
    ensures forall i, j :: 0 <= i < j < |LevelButtons| ==> LevelButtons[i] != LevelButtons[j]
    ensures exists i :: 0 <= i < |StatusButtons| && StatusButtons[i] == fs
    ensures forall i, j :: 0 <= i < j < |StatusButtons| ==> StatusButtons[i] != StatusButtons[j]
  {
    match fl {
      case AllLevels => assert LevelButtons[0] == fl;
      case OnlyLevel(Critical) => assert LevelButtons[1] == fl;
      case OnlyLevel(Warning) => assert LevelButtons[2] == fl;
      case OnlyLevel(Info) => assert LevelButtons[3] == fl;
    }
    match fs {
      case AllStatuses => assert StatusButtons[0] == fs;
      case OnlyStatus(Active) => assert StatusButtons[1] == fs;
      case OnlyStatus(Acknowledged) => assert StatusButtons[2] == fs;
      case OnlyStatus(Resolved) => assert StatusButtons[3] == fs;
    }
  }

  // ------------------------------------------------------------ icons and badges

  datatype Icon = RedXCircle | YellowAlertTriangle | BlueCheckCircle
  datatype Colour = Red | Yellow | Green | Blue | NoColour
  datatype BadgeVariant = DestructiveBadge | OutlineBadge
  datatype Badge = Badge(variant: BadgeVariant, colour: Colour, text: string)

  /** getAlertIcon */
  function AlertIcon(level: AlertLevel): Icon
  {
    match level
    case Critical => RedXCircle
    case Warning => YellowAlertTriangle
    case Info => BlueCheckCircle
  }

  /** getAlertBadge */
  function AlertBadge(level: AlertLevel): Badge
  {
    match level
    case Critical => Badge(DestructiveBadge, NoColour, "严重")
    case Warning => Badge(OutlineBadge, Yellow, "警告")
    case Info => Badge(OutlineBadge, Blue, "信息")
  }

  /** getStatusBadge */
  function StatusBadge(status: AlertStatus): Badge
  {
    match status
    case Active => Badge(OutlineBadge, Red, "活跃")
    case Acknowledged => Badge(OutlineBadge, Yellow, "已确认")
    case Resolved => Badge(OutlineBadge, Green, "已解决")
  }

  /** Every level and status has its own icon and badge: the mappings are
      defined for each of the three values and tell them apart. */
  lemma BadgesAreDistinct(l1: AlertLevel, l2: AlertLevel, s1: AlertStatus, s2: AlertStatus)
    ensures AlertIcon(l1) == AlertIcon(l2) <==> l1 == l2
    ensures AlertBadge(l1) == AlertBadge(l2) <==> l1 == l2
    ensures StatusBadge(s1) == StatusBadge(s2) <==> s1 == s2
    ensures AlertBadge(l1).text in {"严重", "警告", "信息"}
    ensures StatusBadge(s1).text in {"活跃", "已确认", "已解决"}
  {
  }

  // ------------------------------------------------------------ status changes

  /** `prev.map(alert => alert.id === id ? {...alert, status} : alert)`;
      PositionsPage.WithStatus is the same update over positions. */
  function WithStatus(alerts: seq<Alert>, id: string, status: AlertStatus): (r: seq<Alert>)
    ensures |r| == |alerts|
    ensures forall i :: 0 <= i < |r| ==>
      r[i] == if alerts[i].id == id then alerts[i].(status := status) else alerts[i]
  {
    seq(|alerts|, i requires 0 <= i < |alerts| =>
      if alerts[i].id == id then alerts[i].(status := status) else alerts[i])
  }

  /** The buttons an alert row offers. Archive has no handler. */
  datatype AlertAction = AcknowledgeAction | ResolveAction | ArchiveAction

  function OfferedActions(status: AlertStatus): (r: seq<AlertAction>)
    ensures ArchiveAction in r
  {
    match status
    case Active => [AcknowledgeAction, ResolveAction, ArchiveAction]
    case Acknowledged => [ResolveAction, ArchiveAction]
    case Resolved => [ArchiveAction]
  }

  /** Clicking an action of the row of alert `a`. */
  function ClickAction(alerts: seq<Alert>, a: Alert, action: AlertAction): seq<Alert>
  {
    match action
    case AcknowledgeAction => WithStatus(alerts, a.id, Acknowledged)
    case ResolveAction => WithStatus(alerts, a.id, Resolved)
    case ArchiveAction => alerts
  }

  /** The position of a status on the path active, acknowledged, resolved. */
  function Rank(status: AlertStatus): nat
  {
    match status
    case Active => 0
    case Acknowledged => 1
    case Resolved => 2
  }

  /** What each status offers: active offers acknowledge and resolve,
      acknowledged offers resolve, resolved offers neither. */
  lemma OfferedActionsSpec(status: AlertStatus)
    ensures AcknowledgeAction in OfferedActions(status) <==> status == Active
    ensures ResolveAction in OfferedActions(status) <==> status != Resolved
  {
  }

  predicate UniqueIds(alerts: seq<Alert>)
  {
    forall i, j :: 0 <= i < j < |alerts| ==> alerts[i].id != alerts[j].id
  }

  /** Through the buttons a status only moves forward: clicking an offered
      action of row i changes at most that alert's status, to a later one,
      and nothing else in the list. */
  lemma ActionsOnlyMoveForward(alerts: seq<Alert>, i: int, action: AlertAction)
    requires UniqueIds(alerts)
    requires 0 <= i < |alerts|
    requires action in OfferedActions(alerts[i].status)
    ensures var r := ClickAction(alerts, alerts[i], action);
      && |r| == |alerts|
      && (forall j :: 0 <= j < |r| && j != i ==> r[j] == alerts[j])
      && r[i] == alerts[i].(status := r[i].status)
      && Rank(r[i].status) >= Rank(alerts[i].status)
      && (action != ArchiveAction ==> Rank(r[i].status) > Rank(alerts[i].status))
  {
  }

  // ------------------------------------------------------------ counters

  predicate IsActive(a: Alert)
  {
    a.status == Active
  }

  predicate IsCriticalActive(a: Alert)
  {
    a.level == Critical && a.status == Active
  }

  /** activeAlertsCount */
  function ActiveCount(alerts: seq<Alert>): nat
  {
    Count(alerts, IsActive)
  }

  /** criticalAlertsCount */
  function CriticalCount(alerts: seq<Alert>): nat
  {
    Count(alerts, IsCriticalActive)
  }

  /** Critical active alerts are active alerts, which are alerts. */
  lemma CountsBounded(alerts: seq<Alert>)
    ensures CriticalCount(alerts) <= ActiveCount(alerts) <= |alerts|
  {
    CountMonotone(alerts, IsCriticalActive, IsActive);
  }

  /** Acknowledging or resolving never adds an active alert, and when the id
      names an active alert the active count drops. */
  lemma {:induction false} LeavingActiveLowersCount(alerts: seq<Alert>, id: string, status: AlertStatus)
    requires status != Active
    ensures ActiveCount(WithStatus(alerts, id, status)) <= ActiveCount(alerts)
    ensures (exists i :: 0 <= i < |alerts| && alerts[i].id == id && alerts[i].status == Active) ==>
      ActiveCount(WithStatus(alerts, id, status)) < ActiveCount(alerts)
  {
    if alerts != [] {
      var n := |alerts|;
      var init := alerts[..n - 1];
      LeavingActiveLowersCount(init, id, status);
      var r := WithStatus(alerts, id, status);
      assert r[..n - 1] == WithStatus(init, id, status);
      if exists i :: 0 <= i < n && alerts[i].id == id && alerts[i].status == Active {
        var i :| 0 <= i < n && alerts[i].id == id && alerts[i].status == Active;
        if i < n - 1 {
          assert init[i] == alerts[i];
        }
      }
    }
  }

  // ------------------------------------------------------------ the page

  class AlertsPageState {
    var alerts: seq<Alert>
    var filterLevel: LevelFilter
    var filterStatus: StatusFilter

    /** Both filters start at 'all'. */
    constructor (initial: seq<Alert>)
      ensures alerts == initial && filterLevel == AllLevels && filterStatus == AllStatuses
      ensures Filtered() == initial
    {
      alerts, filterLevel, filterStatus := initial, AllLevels, AllStatuses;
      FilterAllPass(initial, KeptBy(AllLevels, AllStatuses));
    }

    function Filtered(): seq<Alert>
      reads this
    {
      FilterAlerts(alerts, filterLevel, filterStatus)
    }

    method SetFilterLevel(f: LevelFilter)
      modifies this`filterLevel
      ensures filterLevel == f
    {
      filterLevel := f;
    }

    method SetFilterStatus(f: StatusFilter)
      modifies this`filterStatus
      ensures filterStatus == f
    {
      filterStatus := f;
    }

    /** handleAcknowledge: the alerts with that id become acknowledged; the
        active count does not grow. */
    method Acknowledge(id: string)
      modifies this`alerts
      ensures alerts == WithStatus(old(alerts), id, Acknowledged)
      ensures ActiveCount(alerts) <= ActiveCount(old(alerts))
    {
      LeavingActiveLowersCount(alerts, id, Acknowledged);
      alerts := WithStatus(alerts, id, Acknowledged);
    }

    /** handleResolve: the alerts with that id become resolved; the active
        count does not grow. */
    method Resolve(id: string)
      modifies this`alerts
      ensures alerts == WithStatus(old(alerts), id, Resolved)
      ensures ActiveCount(alerts) <= ActiveCount(old(alerts))
    {
      LeavingActiveLowersCount(alerts, id, Resolved);
      alerts := WithStatus(alerts, id, Resolved);
    }
  }
}
