/** The alert banner logic (src/components/AlertSystem.tsx): the active
    alerts and the dismissed keys, and the transitions its state updaters
    perform on them. */
module AlertSystem {
  import opened Types
  import opened Seqs

  /** The dismissal key `${type}-${timestamp}`, kept as its two parts. */
  datatype AlertKey = AlertKey(kind: string, timestamp: int)

  function KeyOf(a: Alert): AlertKey
  {
    AlertKey(a.kind, a.timestamp)
  }

  datatype AlertState = AlertState(active: seq<Alert>, dismissed: set<AlertKey>)

  const InitialAlerts: AlertState := AlertState([], {})

  /** Info alerts are auto-dismissed this many milliseconds after their timestamp. */
  const InfoLifetimeMs: int := 5000

  /** The predicates handed to `filter`, one function each so that every
      use of a filter names the same predicate. */
  function NotDismissed(dismissed: set<AlertKey>): Alert -> bool
  {
    (a: Alert) => KeyOf(a) !in dismissed
  }

  function NotOfKinds(kinds: set<string>): Alert -> bool
  {
    (a: Alert) => a.kind !in kinds
  }

  function FreshAt(now: int): Alert -> bool
  {
    (a: Alert) => Fresh(a, now)
  }

  function Other(alert: Alert): Alert -> bool
  {
    (a: Alert) => a != alert
  }

  /** Incoming alerts whose key has not been dismissed. */
  function Undismissed(incoming: seq<Alert>, dismissed: set<AlertKey>): (r: seq<Alert>)
    ensures forall a :: a in r <==> a in incoming && KeyOf(a) !in dismissed
  {
    Filter(incoming, NotDismissed(dismissed))
  }

  /** The types that occur among `alerts`. */
  function KindsOf(alerts: seq<Alert>): (kinds: set<string>)
    ensures forall k :: k in kinds <==> exists a :: a in alerts && a.kind == k
  {
    set a | a in alerts :: a.kind
  }

  /** The merge effect run for a new `latestResult` (or a changed dismissed
      set): drop dismissed alerts; if any survive, remove every active alert
      of a type among them and append the survivors. */
  function MergeIncoming(s: AlertState, incoming: seq<Alert>): (t: AlertState)
    ensures t.dismissed == s.dismissed
    ensures Undismissed(incoming, s.dismissed) == [] ==> t == s
    ensures Undismissed(incoming, s.dismissed) != [] ==>
      var survivors := Undismissed(incoming, s.dismissed);
      && |survivors| <= |t.active|
      && t.active[|t.active| - |survivors|..] == survivors
      && (forall a :: a in t.active[..|t.active| - |survivors|] <==>
            a in s.active && a.kind !in KindsOf(survivors))
      && t.active == Filter(s.active, NotOfKinds(KindsOf(survivors))) + survivors
  {
    var survivors := Undismissed(incoming, s.dismissed);
    if survivors == [] then s
    else
      var kinds := KindsOf(survivors);
      var kept := Filter(s.active, NotOfKinds(kinds));
      assert (kept + survivors)[..|kept|] == kept;
      assert (kept + survivors)[|kept|..] == survivors;
      s.(active := kept + survivors)
  }

  /** After a merge with survivors, no alert of a replaced type is left from
      before: every alert of such a type is one of the new ones. */
  lemma MergeReplacesKinds(s: AlertState, incoming: seq<Alert>, a: Alert)
    requires Undismissed(incoming, s.dismissed) != []
    requires a in MergeIncoming(s, incoming).active
    requires a.kind in KindsOf(Undismissed(incoming, s.dismissed))
    ensures a in Undismissed(incoming, s.dismissed)
  {
    var survivors := Undismissed(incoming, s.dismissed);
    var kinds := KindsOf(survivors);
    var kept := Filter(s.active, NotOfKinds(kinds));
    assert MergeIncoming(s, incoming).active == kept + survivors;
  }

  /** The old alerts a merge keeps stay in their order: merging into
      `xs + ys` keeps the kept part of `xs` before the kept part of `ys`, and
      an old alert of an unreplaced type is kept where it was. */
  lemma MergeKeepsOrder(xs: seq<Alert>, ys: seq<Alert>, dismissed: set<AlertKey>, incoming: seq<Alert>)
    requires Undismissed(incoming, dismissed) != []
    ensures var kinds := KindsOf(Undismissed(incoming, dismissed));
      MergeIncoming(AlertState(xs + ys, dismissed), incoming).active
        == Filter(xs, NotOfKinds(kinds)) + Filter(ys, NotOfKinds(kinds)) + Undismissed(incoming, dismissed)
  {
    FilterConcat(xs, ys, NotOfKinds(KindsOf(Undismissed(incoming, dismissed))));
  }

  /** Still shown at time `now`: not an info alert, or one younger than 5 s. */
  predicate Fresh(a: Alert, now: int)
  {
    a.level != "info" || now - a.timestamp < InfoLifetimeMs
  }

  /** The auto-dismiss updater. */
  function ExpireInfo(active: seq<Alert>, now: int): (r: seq<Alert>)
    ensures forall a :: a in r <==> a in active && Fresh(a, now)
  {
    Filter(active, FreshAt(now))
  }

  /** Expiry keeps the surviving alerts in order (it distributes over
      concatenation), removes nothing that is fresh, and is idempotent. */
  lemma ExpireInfoLaws(xs: seq<Alert>, ys: seq<Alert>, now: int)
    ensures ExpireInfo(xs + ys, now) == ExpireInfo(xs, now) + ExpireInfo(ys, now)
    ensures ExpireInfo(ExpireInfo(xs, now), now) == ExpireInfo(xs, now)
    ensures (forall i :: 0 <= i < |xs| ==> Fresh(xs[i], now)) ==> ExpireInfo(xs, now) == xs
  {
    FilterConcat(xs, ys, FreshAt(now));
    FilterIdempotent(xs, FreshAt(now));
    if forall i :: 0 <= i < |xs| ==> Fresh(xs[i], now) {
      FilterAll(xs, FreshAt(now));
    }
  }

  /** One alert's "X" button: remember its key, remove it from the list. */
  function DismissAlert(s: AlertState, alert: Alert): (t: AlertState)
    ensures t.dismissed == s.dismissed + {KeyOf(alert)}
    ensures alert !in t.active
    ensures forall a :: a != alert ==> (a in t.active <==> a in s.active)
  {
    AlertState(Filter(s.active, Other(alert)), s.dismissed + {KeyOf(alert)})
  }

  /** Removing one alert keeps the others in their order. */
  lemma DismissKeepsOrder(xs: seq<Alert>, ys: seq<Alert>, dismissed: set<AlertKey>, alert: Alert)
    requires alert !in xs && alert !in ys
    ensures DismissAlert(AlertState(xs + [alert] + ys, dismissed), alert).active == xs + ys
  {
    FilterDropsOne(xs, alert, ys, Other(alert));
  }

  /** One click on an alert's "X" as the component runs it: the two updaters
      of `dismissAlert`, and then the merge effect. Every click stores a new
      `Set` in `dismissedAlerts`, which the effect depends on, so the merge
      runs again with the same latest result. */
  function DismissClick(s: AlertState, alert: Alert, latest: seq<Alert>): (t: AlertState)
    ensures t.dismissed == s.dismissed + {KeyOf(alert)}
    ensures alert !in t.active
    ensures forall a :: a in t.active ==> a in s.active || a in latest
  {
    MergeIncoming(DismissAlert(s, alert), latest)
  }

  /** The re-run merge brings back every alert of the latest result whose key
      is not dismissed, among them info alerts that expiry had removed. */
  lemma DismissClickRestores(s: AlertState, alert: Alert, latest: seq<Alert>, x: Alert)
    requires x in latest && KeyOf(x) !in s.dismissed && KeyOf(x) != KeyOf(alert)
    ensures x in DismissClick(s, alert, latest).active
  {
    var survivors := Undismissed(latest, s.dismissed + {KeyOf(alert)});
    assert x in survivors;
    var t := DismissClick(s, alert, latest);
    assert t.active[|t.active| - |survivors|..] == survivors;
  }

  /** So a click can leave the "Dismiss All" button in place: with alerts
      `a` and `b` shown, out of a latest result `[a, b, c]` whose `c` had
      expired, dismissing `a` shows `b` and `c` again. */
  lemma DismissClickKeepsButton(a: Alert, b: Alert, c: Alert, dismissed: set<AlertKey>)
    requires a.kind != b.kind && b.kind != c.kind && a.kind != c.kind
    requires KeyOf(b) !in dismissed && KeyOf(c) !in dismissed
    ensures DismissClick(AlertState([a, b], dismissed), a, [a, b, c]).active == [b, c]
    ensures ShowsDismissAll(true, DismissClick(AlertState([a, b], dismissed), a, [a, b, c]))
  {
    var d := dismissed + {KeyOf(a)};
    assert [a, b, c][1..] == [b, c] && [b, c][1..] == [c] && [c][1..] == [];
    assert !NotDismissed(d)(a) && NotDismissed(d)(b) && NotDismissed(d)(c);
    assert Filter([c], NotDismissed(d)) == [c];
    assert Filter([b, c], NotDismissed(d)) == [b] + [c];
    assert Undismissed([a, b, c], d) == [b, c];
    assert [a, b][1..] == [b] && [b][1..] == [];
    assert Filter([a, b], Other(a)) == [b];
    assert KindsOf([b, c]) == {b.kind, c.kind};
    assert Filter([b], NotOfKinds({b.kind, c.kind})) == [];
    assert [] + [b, c] == [b, c];
  }

  /** When the latest result adds nothing beyond the other shown alert, a
      click on one of two alerts does hide the button. */
  lemma DismissClickOneOfTwo(showAlerts: bool, a: Alert, b: Alert, dismissed: set<AlertKey>, latest: seq<Alert>)
    requires a != b && showAlerts
    requires Undismissed(latest, dismissed + {KeyOf(a)}) == []
          || Undismissed(latest, dismissed + {KeyOf(a)}) == [b]
    ensures Renders(showAlerts, DismissClick(AlertState([a, b], dismissed), a, latest))
    ensures !ShowsDismissAll(showAlerts, DismissClick(AlertState([a, b], dismissed), a, latest))
  {
    FilterDropsOne([], a, [b], Other(a));
    assert [] + [a] + [b] == [a, b];
    assert [b][1..] == [];
    assert Filter([b], NotOfKinds({b.kind})) == [];
    assert KindsOf([b]) == {b.kind};
    assert [] + [b] == [b];
  }

  /** "Dismiss All" as written: empty list and an emptied dismissed set. */
  function DismissAllAsWritten(s: AlertState): (t: AlertState)
    ensures t.active == [] && t.dismissed == {}
  {
    AlertState([], {})
  }

  /** Because the merge effect depends on the dismissed set, emptying it
      re-runs the merge with the same latest result, and every one of that
      result's alerts comes straight back. */
  lemma DismissAllAsWrittenReturns(s: AlertState, incoming: seq<Alert>)
    requires incoming != []
    ensures MergeIncoming(DismissAllAsWritten(s), incoming).active == incoming
  {
    FilterAll(incoming, NotDismissed({}));
  }

  /** "Dismiss All" with the dismissals kept: the shown alerts' keys are
      remembered, so a re-run of the merge shows none of them again. */
  function DismissAll(s: AlertState): (t: AlertState)
    ensures t.active == []
    ensures forall a :: a in s.active ==> KeyOf(a) in t.dismissed
    ensures s.dismissed <= t.dismissed
  {
    AlertState([], s.dismissed + set a | a in s.active :: KeyOf(a))
  }

  /** Re-running the merge on the alerts that were shown, or on any that had
      been dismissed before, leaves the list empty. */
  lemma DismissAllStays(s: AlertState, incoming: seq<Alert>)
    requires forall a :: a in incoming ==> a in s.active || KeyOf(a) in s.dismissed
    ensures MergeIncoming(DismissAll(s), incoming).active == []
  {
    var t := DismissAll(s);
    assert forall a :: a in incoming ==> KeyOf(a) in t.dismissed;
    FilterNone(incoming, NotDismissed(t.dismissed));
  }

  datatype Severity = Critical | Error | Warning | Info

  /** The `switch` shared by `getAlertIcon` and `getAlertStyles`: `info`
      and every unknown level fall through to the default. */
  function SeverityOf(level: string): (s: Severity)
    ensures level !in {"critical", "error", "warning"} <==> s == Info
  {
    if level == "critical" then Critical
    else if level == "error" then Error
    else if level == "warning" then Warning
    else Info
  }

  datatype Icon = XCircle | AlertCircle | AlertTriangle | InfoIcon

  function AlertIcon(level: string): (icon: Icon)
    ensures icon == InfoIcon <==> SeverityOf(level) == Info
  {
    match SeverityOf(level)
    case Critical => XCircle
    case Error => AlertCircle
    case Warning => AlertTriangle
    case Info => InfoIcon
  }

  function AlertStyles(level: string): (classes: string)
    ensures classes == "bg-blue-50 border-blue-400 text-blue-700" <==> SeverityOf(level) == Info
  {
    match SeverityOf(level)
    case Critical => "bg-red-100 border-red-500 text-red-800"
    case Error => "bg-red-50 border-red-400 text-red-700"
    case Warning => "bg-yellow-50 border-yellow-400 text-yellow-700"
    case Info => "bg-blue-50 border-blue-400 text-blue-700"
  }

  /** The four levels get four different icons and four different styles. */
  lemma LevelsDistinguished(l1: string, l2: string)
    requires SeverityOf(l1) != SeverityOf(l2)
    ensures AlertIcon(l1) != AlertIcon(l2) && AlertStyles(l1) != AlertStyles(l2)
  {
  }

  /** The component renders nothing when alerts are hidden or none are active. */
  predicate Renders(showAlerts: bool, s: AlertState)
  {
    showAlerts && |s.active| > 0
  }

  /** The "Dismiss All" button is shown only for two or more alerts. */
  predicate ShowsDismissAll(showAlerts: bool, s: AlertState)
  {
    Renders(showAlerts, s) && |s.active| > 1
  }

  /** Nothing renders with alerts hidden, with none active, or after either
      "Dismiss All"; the button itself needs the banner and a second alert. */
  lemma RenderingAfterDismissAll(showAlerts: bool, s: AlertState)
    ensures !Renders(showAlerts, DismissAll(s)) && !Renders(showAlerts, DismissAllAsWritten(s))
    ensures !Renders(false, s) && !Renders(showAlerts, InitialAlerts)
    ensures ShowsDismissAll(showAlerts, s) ==> Renders(showAlerts, s)
    ensures |s.active| <= 1 ==> !ShowsDismissAll(showAlerts, s)
  {
  }

  /** With the merge run only for a new result, a click is `DismissAlert`
      alone: no alert comes back, and dismissing one of two distinct alerts
      leaves a banner without the "Dismiss All" button. */
  lemma DismissingOneOfTwoHidesButton(showAlerts: bool, a: Alert, b: Alert, dismissed: set<AlertKey>)
    requires a != b && showAlerts
    ensures ShowsDismissAll(showAlerts, AlertState([a, b], dismissed))
    ensures Renders(showAlerts, DismissAlert(AlertState([a, b], dismissed), a))
    ensures !ShowsDismissAll(showAlerts, DismissAlert(AlertState([a, b], dismissed), a))
  {
    FilterDropsOne([], a, [b], Other(a));
    assert [] + [a] + [b] == [a, b];
  }
}
