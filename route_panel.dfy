/**
 * The route panel of the store map: its duration text, its route-type choice and its two
 * guarded callbacks.
 */
module RoutePanel {
  import opened JsText
  import opened FilterState

  /** `formatDuration`: below an hour `"<m> Min"`, from an hour on `"<h>h <r>m"`. */
  function FormatDuration(minutes: int): (r: string)
    ensures minutes < 60 ==> r == IntText(minutes) + " Min"
    ensures minutes >= 60 ==> exists h: nat, rest: nat {:trigger NatText(h), NatText(rest)} ::
      && h >= 1 && rest < 60 && h * 60 + rest == minutes
      && r == NatText(h) + "h " + NatText(rest) + "m"
  {
    if minutes < 60 then IntText(minutes) + " Min"
    else
      var h := minutes / 60;
      var rest := minutes % 60;
      assert h * 60 + rest == minutes;
      NatText(h) + "h " + NatText(rest) + "m"
  }

  /** Two texts that each start with a run of digits followed by a non-digit agree on the
      digits and on the rest. */
  lemma DigitsHead(d1: string, t1: string, d2: string, t2: string)
    requires AllDigits(d1) && AllDigits(d2)
    requires t1 != [] && t2 != [] && !IsDigit(t1[0]) && !IsDigit(t2[0])
    requires d1 + t1 == d2 + t2
    ensures d1 == d2 && t1 == t2
  {
    LeadingDigitsPrefix(d1, t1);
    LeadingDigitsPrefix(d2, t2);
    assert t1 == (d1 + t1)[|d1|..];
    assert t2 == (d2 + t2)[|d2|..];
  }

  /** Concatenation regroups. */
  lemma Assoc(a: string, b: string, c: string)
    ensures a + b + c == a + (b + c)
  {
  }

  lemma ShortDurationInjective(m: nat, n: nat)
    requires NatText(m) + " Min" == NatText(n) + " Min"
    ensures m == n
  {
    DigitsHead(NatText(m), " Min", NatText(n), " Min");
    NatTextInjective(m, n);
  }

  lemma HoursInjective(hm: nat, tm: string, hn: nat, tn: string)
    requires NatText(hm) + "h " + tm == NatText(hn) + "h " + tn
    ensures hm == hn && tm == tn
  {
    var um, un := "h " + tm, "h " + tn;
    Assoc(NatText(hm), "h ", tm);
    Assoc(NatText(hn), "h ", tn);
    DigitsHead(NatText(hm), um, NatText(hn), un);
    NatTextInjective(hm, hn);
    assert tm == um[2..] && tn == un[2..];
  }

  lemma LongDurationInjective(hm: nat, rm: nat, hn: nat, rn: nat)
    requires NatText(hm) + "h " + NatText(rm) + "m" == NatText(hn) + "h " + NatText(rn) + "m"
    ensures hm == hn && rm == rn
  {
    var tm, tn := NatText(rm) + "m", NatText(rn) + "m";
    Assoc(NatText(hm) + "h ", NatText(rm), "m");
    Assoc(NatText(hn) + "h ", NatText(rn), "m");
    HoursInjective(hm, tm, hn, tn);
    DigitsHead(NatText(rm), "m", NatText(rn), "m");
    NatTextInjective(rm, rn);
  }

  /** Distinct durations of at least zero minutes read differently: the text determines the
      duration. */
  lemma FormatDurationInjective(m: nat, n: nat)
    requires FormatDuration(m) == FormatDuration(n)
    ensures m == n
  {
    var s := FormatDuration(m);
    assert s[|s| - 1] == (if m < 60 then 'n' else 'm');
    assert s[|s| - 1] == (if n < 60 then 'n' else 'm');
    if m < 60 {
      ShortDurationInjective(m, n);
    } else {
      LongDurationInjective(m / 60, m % 60, n / 60, n % 60);
    }
  }

  /** `handleStartNavigation`: the route is handed on only when there is a callback and a
      route. */
  function StartNavigation<R>(hasCallback: bool, routeData: Option<R>): (call: Option<R>)
    ensures call.Some? <==> hasCallback && routeData.Some?
    ensures call.Some? ==> call == routeData
  {
    if hasCallback && routeData.Some? then routeData else None
  }

  /** `handleOptimizeRoute`: the selected stores and the current route type are handed on
      unchanged when there is a callback. */
  function OptimizeRoute<S>(hasCallback: bool, selectedStores: seq<S>, routeType: string): (call: Option<(seq<S>, string)>)
    ensures call.Some? <==> hasCallback
    ensures call.Some? ==> call.value.0 == selectedStores && call.value.1 == routeType
  {
    if hasCallback then Some((selectedStores, routeType)) else None
  }

  /** The values of the three route options, in the order the panel lists them. */
  const RouteOptions: seq<string> := ["fastest", "shortest", "eco"]

  /** The panel's `routeType` state: it starts at the fastest route, and a click on an
      option button selects that option. */
  class RouteChoice {
    var routeType: string

    ghost predicate Valid()
      reads this
    {
      routeType in RouteOptions
    }

    constructor()
      ensures routeType == "fastest" && Valid()
    {
      routeType := "fastest";
    }

    /** `setRouteType(option.value)` for the option button at index `i`. */
    method Choose(i: nat)
      requires i < |RouteOptions|
      modifies this
      ensures routeType == RouteOptions[i] && Valid()
    {
      routeType := RouteOptions[i];
    }

    /** `handleOptimizeRoute` on the current state: what is handed on is always one of the
        three route types. */
    method Optimize<S>(hasCallback: bool, selectedStores: seq<S>) returns (call: Option<(seq<S>, string)>)
      requires Valid()
      ensures call == OptimizeRoute(hasCallback, selectedStores, routeType)
      ensures call.Some? ==> call.value.1 in RouteOptions
    {
      call := OptimizeRoute(hasCallback, selectedStores, routeType);
    }

    /** The panel as rendered: nothing while it is hidden (`if (!isVisible) return null`);
        otherwise one button per route option, highlighted exactly for the current type. */
    method Shown(isVisible: bool) returns (highlighted: Option<seq<bool>>)
      requires Valid()
      ensures !isVisible ==> highlighted.None?
      ensures isVisible ==> highlighted.Some? && |highlighted.value| == |RouteOptions|
      ensures isVisible ==> forall i :: 0 <= i < |RouteOptions| ==> (highlighted.value[i] <==> RouteOptions[i] == routeType)
      ensures isVisible ==> exists i :: 0 <= i < |RouteOptions| && highlighted.value[i]
      ensures isVisible ==> forall i, j :: 0 <= i < j < |RouteOptions| ==> !(highlighted.value[i] && highlighted.value[j])
    {
      if !isVisible {
        return None;
      }
      var current := routeType;
      highlighted := Some(seq(|RouteOptions|, i requires 0 <= i < |RouteOptions| => RouteOptions[i] == current));
    }
  }
}
