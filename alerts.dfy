/**
 * The alert queue (services/ui/src/hooks/useAlerts.tsx).
 *
 * The provider keeps a list of alerts. `showAlert` appends one and, unless
 * it is modal, arms a 5 s timer that later filters out every alert with its
 * id; `removeAlert` applies the same filter at once. The page shows the
 * non-modal alerts as toasts and the modal ones as dialogs.
 *
 * Alert ids come from `Math.random`, so they are parameters here and need not
 * be unique; the pending auto-dismiss timers are kept as the ids they filter.
 */
module Alerts {
  import opened Wrappers

  datatype AlertType = Info | Success | Warning | Error

  datatype Alert = Alert(id: string, message: string, kind: AlertType, modal: bool)

  const MissingProviderMessage: string := "useAlert must be used within AlertProvider"

  /** The alert `showAlert(message, type?, modal?)` creates under `id`:
      the type defaults to info and `modal` to false. */
  function NewAlert(id: string, message: string, kind: Option<AlertType>, modal: Option<bool>): (a: Alert)
    ensures a.id == id && a.message == message
    ensures kind.None? ==> a.kind == Info
    ensures kind.Some? ==> a.kind == kind.value
    ensures a.modal <==> modal == Some(true)
  {
    Alert(id, message, kind.GetOr(Info), modal.GetOr(false))
  }

  /** `prev.filter((alert) => alert.id !== id)`. */
  function WithoutId(alerts: seq<Alert>, id: string): (r: seq<Alert>)
    ensures forall a :: a in r <==> a in alerts && a.id != id
    ensures |r| <= |alerts|
  {
    if alerts == [] then []
    else (if alerts[0].id != id then [alerts[0]] else []) + WithoutId(alerts[1..], id)
  }

  /** `alerts.filter((a) => !a.modal)`. */
  function Toasts(alerts: seq<Alert>): (r: seq<Alert>)
    ensures forall a :: a in r <==> a in alerts && !a.modal
  {
    if alerts == [] then []
    else (if !alerts[0].modal then [alerts[0]] else []) + Toasts(alerts[1..])
  }

  /** `alerts.filter((a) => a.modal)`. */
  function Modals(alerts: seq<Alert>): (r: seq<Alert>)
    ensures forall a :: a in r <==> a in alerts && a.modal
  {
    if alerts == [] then []
    else (if alerts[0].modal then [alerts[0]] else []) + Modals(alerts[1..])
  }

  // ---------------------------------------------------------------------
  // Removal by id
  // ---------------------------------------------------------------------

  /** The filter keeps the relative order: it works piecewise on a
      concatenation. */
  lemma {:induction false} WithoutIdConcat(s: seq<Alert>, t: seq<Alert>, id: string)
    ensures WithoutId(s + t, id) == WithoutId(s, id) + WithoutId(t, id)
    decreases |s|
  {
    if s == [] {
      assert s + t == t;
    } else {
      assert (s + t)[1..] == s[1..] + t;
      WithoutIdConcat(s[1..], t, id);
    }
  }

  /** Removing an id no alert carries leaves the list unchanged. */
  lemma {:induction false} WithoutAbsentId(s: seq<Alert>, id: string)
    requires forall a | a in s :: a.id != id
    ensures WithoutId(s, id) == s
    decreases |s|
  {
    if s != [] {
      assert s[0] in s;
      WithoutAbsentId(s[1..], id);
      assert [s[0]] + s[1..] == s;
    }
  }

  /** Removing the same id twice is removing it once. */
  lemma WithoutIdIdempotent(s: seq<Alert>, id: string)
    ensures WithoutId(WithoutId(s, id), id) == WithoutId(s, id)
  {
    WithoutAbsentId(WithoutId(s, id), id);
  }

  /** The order of two removals does not matter. */
  lemma {:induction false} WithoutIdCommutes(s: seq<Alert>, x: string, y: string)
    ensures WithoutId(WithoutId(s, x), y) == WithoutId(WithoutId(s, y), x)
    decreases |s|
  {
    if s != [] {
      var head := [s[0]];
      assert s == head + s[1..];
      WithoutIdConcat(head, s[1..], x);
      WithoutIdConcat(head, s[1..], y);
      WithoutIdConcat(WithoutId(head, x), WithoutId(s[1..], x), y);
      WithoutIdConcat(WithoutId(head, y), WithoutId(s[1..], y), x);
      WithoutIdCommutes(s[1..], x, y);
    }
  }

  /** Showing an alert and then removing its id is removing that id from the
      earlier list: every alert sharing the id goes too. */
  lemma ShowThenRemove(s: seq<Alert>, a: Alert)
    ensures WithoutId(s + [a], a.id) == WithoutId(s, a.id)
  {
    WithoutIdConcat(s, [a], a.id);
  }

  // ---------------------------------------------------------------------
  // Toasts and modals
  // ---------------------------------------------------------------------

  /** The toast view keeps the list's order: it works piecewise on a
      concatenation. */
  lemma {:induction false} ToastsConcat(s: seq<Alert>, t: seq<Alert>)
    ensures Toasts(s + t) == Toasts(s) + Toasts(t)
    decreases |s|
  {
    if s == [] {
      assert s + t == t;
    } else {
      assert (s + t)[1..] == s[1..] + t;
      ToastsConcat(s[1..], t);
    }
  }

  /** The modal view keeps the list's order too. */
  lemma {:induction false} ModalsConcat(s: seq<Alert>, t: seq<Alert>)
    ensures Modals(s + t) == Modals(s) + Modals(t)
    decreases |s|
  {
    if s == [] {
      assert s + t == t;
    } else {
      assert (s + t)[1..] == s[1..] + t;
      ModalsConcat(s[1..], t);
    }
  }

  /** Toasts and modals partition the list: every occurrence of an alert is
      in exactly one of them. */
  lemma {:induction false} ViewsPartition(s: seq<Alert>)
    ensures multiset(Toasts(s)) + multiset(Modals(s)) == multiset(s)
    ensures |Toasts(s)| + |Modals(s)| == |s|
    decreases |s|
  {
    if s != [] {
      ViewsPartition(s[1..]);
      assert s == [s[0]] + s[1..];
    }
  }

  /** A newly shown alert lands at the end of exactly one view. */
  lemma NewAlertJoinsOneView(s: seq<Alert>, a: Alert)
    ensures !a.modal ==> Toasts(s + [a]) == Toasts(s) + [a] && Modals(s + [a]) == Modals(s)
    ensures a.modal ==> Modals(s + [a]) == Modals(s) + [a] && Toasts(s + [a]) == Toasts(s)
  {
    ToastsConcat(s, [a]);
    ModalsConcat(s, [a]);
  }

  // ---------------------------------------------------------------------
  // useAlert and the styling tables
  // ---------------------------------------------------------------------

  /** `useAlert()`: the provider's value, or the error thrown outside a
      provider. */
  function UseAlert<C>(context: Option<C>): (r: Result<C, string>)
    ensures r.Success? <==> context.Some?
    ensures r.Success? ==> r.value == context.value
    ensures r.Failure? ==> r.error == MissingProviderMessage
  {
    match context
    case Some(value) => Result.Success(value)
    case None => Result.Failure(MissingProviderMessage)
  }

  /** The glyph `getAlertIcon` draws. */
  datatype Icon = CheckCircle | CrossCircle | WarningTriangle | InfoCircle

  /** The type an icon stands for: each glyph is used by exactly one type. */
  function KindOfIcon(icon: Icon): AlertType {
    match icon
    case CheckCircle => AlertType.Success
    case CrossCircle => Error
    case WarningTriangle => Warning
    case InfoCircle => Info
  }

  function AlertIcon(kind: AlertType): (icon: Icon)
    ensures KindOfIcon(icon) == kind
  {
    match kind
    case Success => CheckCircle
    case Error => CrossCircle
    case Warning => WarningTriangle
    case _ => InfoCircle
  }

  /** The classes `getAlertColors` returns. */
  datatype Palette = Palette(bg: string, border: string, icon: string, text: string, glow: string)

  /** The type a background class belongs to, if any. */
  function KindOfBackground(bg: string): Option<AlertType> {
    if bg == "bg-emerald-500/10" then Some(AlertType.Success)
    else if bg == "bg-red-500/10" then Some(Error)
    else if bg == "bg-amber-500/10" then Some(Warning)
    else if bg == "bg-cyan-500/10" then Some(Info)
    else None
  }

  /** The colours of a type: its background tells which type it is. */
  function AlertColors(kind: AlertType): (p: Palette)
    ensures KindOfBackground(p.bg) == Some(kind)
  {
    match kind
    case Success =>
      Palette("bg-emerald-500/10", "border-emerald-500/30", "text-emerald-400", "text-emerald-100",
              "shadow-[0_0_30px_rgba(16,185,129,0.4)]")
    case Error =>
      Palette("bg-red-500/10", "border-red-500/30", "text-red-400", "text-red-100",
              "shadow-[0_0_30px_rgba(239,68,68,0.4)]")
    case Warning =>
      Palette("bg-amber-500/10", "border-amber-500/30", "text-amber-400", "text-amber-100",
              "shadow-[0_0_30px_rgba(245,158,11,0.4)]")
    case _ =>
      Palette("bg-cyan-500/10", "border-cyan-500/30", "text-cyan-400", "text-cyan-100",
              "shadow-[0_0_30px_rgba(6,182,212,0.4)]")
  }

  /** Every alert type gets its own glyph and its own colours. */
  lemma AlertStylesDistinct(k1: AlertType, k2: AlertType)
    requires k1 != k2
    ensures AlertIcon(k1) != AlertIcon(k2)
    ensures AlertColors(k1).bg != AlertColors(k2).bg
  {
  }

  // ---------------------------------------------------------------------
  // The provider
  // ---------------------------------------------------------------------

  /** `AlertProvider`'s `alerts` state and its pending auto-dismiss timers
      (each named by the id it will filter out), in arming order; `shown`
      records every alert shown so far and `armedFor` the toast each pending
      timer was armed for. */
  class AlertProvider {
    var alerts: seq<Alert>
    var timers: seq<string>
    ghost var shown: seq<Alert>
    ghost var armedFor: seq<Alert>

    /** Every alert on screen was shown, and every pending timer was armed
        for a shown toast. */
    ghost predicate Valid()
      reads this
    {
      && (forall a | a in alerts :: a in shown)
      && |armedFor| == |timers|
      && (forall i | 0 <= i < |timers| :: armedFor[i] in shown && !armedFor[i].modal && armedFor[i].id == timers[i])
    }

    constructor()
      ensures Valid()
      ensures alerts == [] && timers == [] && shown == []
    {
      alerts := [];
      timers := [];
      shown := [];
      armedFor := [];
    }

    /** `showAlert(message, type?, modal?)` with `id` drawn at random. */
    method ShowAlert(message: string, kind: Option<AlertType>, modal: Option<bool>, id: string)
      requires Valid()
      modifies this
      ensures Valid()
      ensures alerts == old(alerts) + [NewAlert(id, message, kind, modal)]
      ensures timers == old(timers) + (if modal == Some(true) then [] else [id])
      ensures shown == old(shown) + [NewAlert(id, message, kind, modal)]
    {
      var alert := NewAlert(id, message, kind, modal);
      alerts := alerts + [alert];
      shown := shown + [alert];
      if !alert.modal {
        timers := timers + [id];
        armedFor := armedFor + [alert];
      }
    }

    /** `removeAlert(id)`; a pending timer for that id stays armed. */
    method RemoveAlert(id: string)
      requires Valid()
      modifies this
      ensures Valid()
      ensures alerts == WithoutId(old(alerts), id)
      ensures timers == old(timers) && shown == old(shown)
    {
      ghost var before := alerts;
      alerts := WithoutId(alerts, id);
      forall a | a in alerts ensures a in shown {
        assert a in before;
      }
    }

    /** The `k`-th pending auto-dismiss timer fires. A modal alert goes only
        when a toast shown under the same id armed that timer: modal alerts
        otherwise stay until removed. */
    method AutoDismiss(k: nat)
      requires Valid() && k < |timers|
      modifies this
      ensures Valid()
      ensures alerts == WithoutId(old(alerts), old(timers[k]))
      ensures timers == old(timers[..k] + timers[k + 1..]) && shown == old(shown)
      ensures forall a | a in old(alerts) && a.id != old(timers[k]) :: a in alerts
      ensures forall a | a in old(alerts) && a.modal && a !in alerts ::
        exists t | t in shown :: !t.modal && t.id == a.id
    {
      var id := timers[k];
      ghost var toast := armedFor[k];
      ghost var before := alerts;
      timers := timers[..k] + timers[k + 1..];
      armedFor := armedFor[..k] + armedFor[k + 1..];
      alerts := WithoutId(alerts, id);
      forall a | a in alerts ensures a in shown {
        assert a in before;
      }
      assert toast in shown && !toast.modal && toast.id == id;
    }
  }
}
