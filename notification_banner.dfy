/**
 * The notification banner of the home page: the notifications not yet dismissed, each in
 * the colours and icon of its type.
 */
module NotificationBanner {
  import opened Seqs
  import opened FilterState

  datatype Notification = Notification(id: string, kind: string, title: string, message: string)

  /** The test `!dismissedIds.has(n.id)`. */
  function NotDismissed(dismissed: set<string>): Notification -> bool {
    (n: Notification) => n.id !in dismissed
  }

  /** `visibleNotifications`: the notifications whose id has not been dismissed, in the
      order given. */
  function Visible(ns: seq<Notification>, dismissed: set<string>): (r: seq<Notification>)
    ensures forall i :: 0 <= i < |r| ==> r[i].id !in dismissed && r[i] in ns
    ensures forall i :: 0 <= i < |ns| && ns[i].id !in dismissed ==> ns[i] in r
  {
    Filter(ns, NotDismissed(dismissed))
  }

  /** Nothing dismissed, everything visible. */
  lemma NothingDismissed(ns: seq<Notification>)
    ensures Visible(ns, {}) == ns
  {
    FilterAll(ns, NotDismissed({}));
  }

  /** Dismissing one more id is filtering once more: the earlier visible list loses exactly
      the notifications with that id. */
  lemma DismissOneMore(ns: seq<Notification>, dismissed: set<string>, id: string)
    ensures Visible(ns, dismissed + {id}) == Filter(Visible(ns, dismissed), NotDismissed({id}))
  {
    FilterConj(ns, NotDismissed(dismissed), NotDismissed({id}), NotDismissed(dismissed + {id}));
  }

  /** What the banner renders: nothing when no notification is visible. */
  function Render(ns: seq<Notification>, dismissed: set<string>): (r: Option<seq<Notification>>)
    ensures r.None? <==> forall i :: 0 <= i < |ns| ==> ns[i].id in dismissed
    ensures r.Some? ==> r.value == Visible(ns, dismissed) && r.value != []
  {
    var v := Visible(ns, dismissed);
    if v == [] then None
    else
      assert v[0] in ns && v[0].id !in dismissed;
      Some(v)
  }

  /** The styling of a notification. */
  datatype Tone = WarningTone | SuccessTone | ErrorTone | InfoTone

  /** The tone of a type; any type other than the three known ones gets the info styling. */
  function ToneOf(kind: string): (t: Tone)
    ensures t == WarningTone <==> kind == "warning"
    ensures t == SuccessTone <==> kind == "success"
    ensures t == ErrorTone <==> kind == "error"
    ensures t == InfoTone <==> kind !in {"warning", "success", "error"}
  {
    if kind == "warning" then WarningTone
    else if kind == "success" then SuccessTone
    else if kind == "error" then ErrorTone
    else InfoTone
  }

  /** The icon of a tone. */
  function IconOf(t: Tone): string {
    match t
    case WarningTone => "AlertTriangle"
    case SuccessTone => "CheckCircle"
    case ErrorTone => "XCircle"
    case InfoTone => "Info"
  }

  /** Distinct tones get distinct icons, so the icon tells the tone. */
  lemma IconsDistinct(a: Tone, b: Tone)
    requires IconOf(a) == IconOf(b)
    ensures a == b
  {
    assert IconOf(a)[0] == IconOf(b)[0];
  }

  /** The banner's own state: the ids dismissed so far. */
  class Banner {
    var dismissedIds: set<string>

    constructor()
      ensures dismissedIds == {}
    {
      dismissedIds := {};
    }

    /** `handleDismiss`: the id joins the dismissed set and is passed on to the page when
        it listens. */
    method Dismiss(id: string, hasOnDismiss: bool) returns (forwarded: Option<string>)
      modifies this
      ensures dismissedIds == old(dismissedIds) + {id}
      ensures forwarded == if hasOnDismiss then Some(id) else None
    {
      dismissedIds := dismissedIds + {id};
      forwarded := if hasOnDismiss then Some(id) else None;
    }

    function Shown(ns: seq<Notification>): seq<Notification>
      reads this
    {
      Visible(ns, dismissedIds)
    }
  }

  /** After a dismissal, no visible notification carries that id. */
  lemma DismissedNotVisible(ns: seq<Notification>, dismissed: set<string>, id: string)
    ensures forall i :: 0 <= i < |Visible(ns, dismissed + {id})| ==> Visible(ns, dismissed + {id})[i].id != id
  {
  }
}
