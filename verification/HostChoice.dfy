/** chooseHost and pickHost: which of the listed hosts a Metal3Machine takes. */
module HostChoice {
  import opened Wrappers
  import opened HostModel

  datatype Domain = NoDomain | Domain(name: string, wellFormed: bool)

  datatype Choice = NoHost | Requeue | PickError | Chosen(index: nat, viaReuse: bool)

  predicate IsAvailable(h: Host) {
    h.status.state.Ready? || h.status.state.Available?
  }

  /** Not being deleted, not in error, not paused, not marked unhealthy. */
  predicate Eligible(h: Host) {
    !h.status.deleting && !h.status.error && h.extra.pause.None? && !h.status.unhealthy
  }

  /** nodeReuseLabelMatches; `group` is None when the machine's owner cannot be
      resolved. */
  predicate LabelMatches(h: Host, group: Option<string>) {
    group.Some? && h.core.reuse == group && group.value != ""
  }

  predicate ReuseCandidate(h: Host, group: Option<string>) {
    h.core.reuse.Some? && LabelMatches(h, group) && Eligible(h)
  }

  predicate FreshCandidate(h: Host) {
    h.core.reuse.None? && h.core.consumer.None? && Eligible(h) && IsAvailable(h)
  }

  predicate InDomain(h: Host, d: Domain) {
    d.Domain? && h.status.domain == Some(d.name)
  }

  predicate AnyOwn(hosts: seq<Host>, me: string) {
    exists i :: 0 <= i < |hosts| && ConsumedBy(hosts[i].core, me)
  }

  predicate AnyReuse(hosts: seq<Host>, groups: seq<Option<string>>)
    requires |groups| == |hosts|
  {
    exists i :: 0 <= i < |hosts| && ReuseCandidate(hosts[i], groups[i])
  }

  /** The first host kept for the group. */
  predicate FirstReuse(hosts: seq<Host>, groups: seq<Option<string>>, i: int)
    requires |groups| == |hosts|
  {
    && 0 <= i < |hosts| && ReuseCandidate(hosts[i], groups[i])
    && forall j :: 0 <= j < i ==> !ReuseCandidate(hosts[j], groups[j])
  }

  predicate AnyUnavailable(hosts: seq<Host>, groups: seq<Option<string>>)
    requires |groups| == |hosts|
  {
    exists j :: 0 <= j < |hosts| && ReuseCandidate(hosts[j], groups[j]) && !IsAvailable(hosts[j])
  }

  predicate Malformed(d: Domain) {
    d.Domain? && !d.wellFormed
  }

  /** A malformed failure domain is noticed when the first candidate is picked. */
  predicate MustRequeue(hosts: seq<Host>, groups: seq<Option<string>>, me: string, d: Domain)
    requires |groups| == |hosts|
  {
    && !AnyOwn(hosts, me) && AnyUnavailable(hosts, groups)
    && (Malformed(d) ==> forall i :: 0 <= i < |hosts| && FirstReuse(hosts, groups, i) ==> !IsAvailable(hosts[i]))
  }

  predicate MustFail(hosts: seq<Host>, groups: seq<Option<string>>, me: string, d: Domain)
    requires |groups| == |hosts|
  {
    && !AnyOwn(hosts, me) && Malformed(d) && (AnyReuse(hosts, groups) || AnyFresh(hosts))
    && forall i :: 0 <= i < |hosts| && FirstReuse(hosts, groups, i) ==> IsAvailable(hosts[i])
  }

  predicate AnyFresh(hosts: seq<Host>) {
    exists i :: 0 <= i < |hosts| && FreshCandidate(hosts[i])
  }

  predicate AnyFreshInDomain(hosts: seq<Host>, d: Domain) {
    exists i :: 0 <= i < |hosts| && FreshCandidate(hosts[i]) && InDomain(hosts[i], d)
  }

  /** The rules of the choice: a host already consumed by this machine comes first;
      otherwise hosts kept for its group, all of which must be available; only without
      any of those an unlabelled host, from the failure domain if it has one there. */
  ghost predicate Allowed(hosts: seq<Host>, groups: seq<Option<string>>, me: string, d: Domain, c: Choice)
    requires |groups| == |hosts|
  {
    match c
    case Chosen(i, via) =>
      && i < |hosts| && (AnyOwn(hosts, me) || !Malformed(d))
      && if AnyOwn(hosts, me) then
           !via && ConsumedBy(hosts[i].core, me) && forall j :: 0 <= j < i ==> !ConsumedBy(hosts[j].core, me)
         else if AnyReuse(hosts, groups) then
           && via && ReuseCandidate(hosts[i], groups[i])
           && forall j :: 0 <= j < |hosts| && ReuseCandidate(hosts[j], groups[j]) ==> IsAvailable(hosts[j]) && j <= i
         else !via && FreshCandidate(hosts[i]) && (AnyFreshInDomain(hosts, d) ==> InDomain(hosts[i], d))
    case NoHost => !AnyOwn(hosts, me) && !AnyReuse(hosts, groups) && !AnyFresh(hosts)
    case Requeue => MustRequeue(hosts, groups, me, d)
    case PickError => MustFail(hosts, groups, me, d)
  }

  lemma SomeFirst(hosts: seq<Host>, groups: seq<Option<string>>, n: nat) returns (i: nat)
    requires |groups| == |hosts| && n < |hosts| && ReuseCandidate(hosts[n], groups[n])
    ensures FirstReuse(hosts, groups, i)
  {
    if j :| 0 <= j < n && ReuseCandidate(hosts[j], groups[j]) {
      i := SomeFirst(hosts, groups, j);
    } else {
      i := n;
    }
  }

  /** Which kind of answer it is depends on the listing and the failure domain alone. */
  lemma AnswersExactly(hosts: seq<Host>, groups: seq<Option<string>>, me: string, d: Domain, c: Choice)
    requires |groups| == |hosts| && Allowed(hosts, groups, me, d, c)
    ensures c.NoHost? <==> !AnyOwn(hosts, me) && !AnyReuse(hosts, groups) && !AnyFresh(hosts)
    ensures c.Requeue? <==> MustRequeue(hosts, groups, me, d)
    ensures c.PickError? <==> MustFail(hosts, groups, me, d)
  {
    if AnyReuse(hosts, groups) {
      var n :| 0 <= n < |hosts| && ReuseCandidate(hosts[n], groups[n]);
      var i := SomeFirst(hosts, groups, n);
      assert FirstReuse(hosts, groups, i);
    }
  }

  /** The same on the fields of the hosts: what is chosen is the machine's own, or ready,
      healthy and either unlabelled and unconsumed or labelled with the machine's group;
      nothing is chosen only if no host is one of these, availability apart for labelled
      ones; and the failure domain is kept to. */
  ghost predicate AnswerOnFields(hosts: seq<Host>, groups: seq<Option<string>>, me: string, d: Domain, c: Choice)
    requires |groups| == |hosts|
  {
    && ((exists i :: 0 <= i < |hosts| && hosts[i].core.consumer == Some(MachineRef(me))) ==>
          c.Chosen? && c.index < |hosts| && hosts[c.index].core.consumer == Some(MachineRef(me)))
    && (c.Chosen? ==>
          && c.index < |hosts|
          && var h := hosts[c.index];
             || h.core.consumer == Some(MachineRef(me))
             || (&& (h.status.state.Ready? || h.status.state.Available?)
                 && !h.status.deleting && !h.status.error && !h.status.unhealthy && h.extra.pause.None?
                 && (h.core.reuse.None? ==> h.core.consumer.None?)
                 && (h.core.reuse.Some? ==> h.core.reuse == groups[c.index] && h.core.reuse != Some(""))))
    && (c.NoHost? <==> forall i :: 0 <= i < |hosts| ==>
          && hosts[i].core.consumer != Some(MachineRef(me))
          && (|| hosts[i].status.deleting || hosts[i].status.error || hosts[i].status.unhealthy || hosts[i].extra.pause.Some?
              || (hosts[i].core.reuse.Some? && (hosts[i].core.reuse != groups[i] || hosts[i].core.reuse == Some("")))
              || (hosts[i].core.reuse.None? &&
                  (hosts[i].core.consumer.Some? || !(hosts[i].status.state.Ready? || hosts[i].status.state.Available?)))))
    && ((d.Domain? ==> d.wellFormed) ==>
          (c.Requeue? <==>
             && (forall i :: 0 <= i < |hosts| ==> hosts[i].core.consumer != Some(MachineRef(me)))
             && exists i :: (&& 0 <= i < |hosts|
                             && hosts[i].core.reuse.Some? && hosts[i].core.reuse == groups[i] && hosts[i].core.reuse != Some("")
                             && !hosts[i].status.deleting && !hosts[i].status.error && !hosts[i].status.unhealthy
                             && hosts[i].extra.pause.None?
                             && !hosts[i].status.state.Ready? && !hosts[i].status.state.Available?)))
    && (c.PickError? ==> d.Domain? && !d.wellFormed)
    && (c.Chosen? && c.index < |hosts| && hosts[c.index].core.reuse.None? && hosts[c.index].core.consumer.None? && d.Domain?
        && (exists i :: (&& 0 <= i < |hosts|
                         && hosts[i].core.reuse.None? && hosts[i].core.consumer.None? && hosts[i].status.domain == Some(d.name)
                         && !hosts[i].status.deleting && !hosts[i].status.error && !hosts[i].status.unhealthy
                         && hosts[i].extra.pause.None?
                         && (hosts[i].status.state.Ready? || hosts[i].status.state.Available?))) ==>
          hosts[c.index].status.domain == Some(d.name))
  }

  lemma AllowedOnFields(hosts: seq<Host>, groups: seq<Option<string>>, me: string, d: Domain, c: Choice)
    requires |groups| == |hosts| && Allowed(hosts, groups, me, d, c)
    ensures AnswerOnFields(hosts, groups, me, d, c)
  {
    AnswersExactly(hosts, groups, me, d, c);
    forall i | 0 <= i < |hosts|
      ensures ConsumedBy(hosts[i].core, me) ==> AnyOwn(hosts, me)
      ensures ReuseCandidate(hosts[i], groups[i]) ==> AnyReuse(hosts, groups)
      ensures FreshCandidate(hosts[i]) ==> AnyFresh(hosts)
      ensures FreshCandidate(hosts[i]) && InDomain(hosts[i], d) ==> AnyFreshInDomain(hosts, d)
    {
    }
  }

  /** A listing of one host that may be taken. */
  lemma OneAllowed(host: Host, group: Option<string>, m: string, via: bool)
    requires IsAvailable(host) && !ConsumedBy(host.core, m)
    requires if via then ReuseCandidate(host, group) else FreshCandidate(host)
    ensures Allowed([host], [group], m, NoDomain, Chosen(0, via))
  {
    var hosts, groups := [host], [group];
    assert hosts[0] == host && groups[0] == group;
    assert !AnyOwn(hosts, m);
    assert via ==> ReuseCandidate(hosts[0], groups[0]);
    assert AnyReuse(hosts, groups) <==> ReuseCandidate(hosts[0], groups[0]);
  }

  /** The indexes below `n` of the hosts kept for the machine's group, in order. */
  predicate CollectsReuse(hosts: seq<Host>, groups: seq<Option<string>>, n: nat, picks: seq<nat>)
    requires |groups| == |hosts| && n <= |hosts|
  {
    && (forall k :: 0 <= k < |picks| ==> picks[k] < n && ReuseCandidate(hosts[picks[k]], groups[picks[k]]))
    && (forall k, l :: 0 <= k < l < |picks| ==> picks[k] < picks[l])
    && (forall i :: 0 <= i < n && ReuseCandidate(hosts[i], groups[i]) ==> i in picks)
  }

  /** The indexes below `n` of the unlabelled candidates. */
  predicate CollectsFresh(hosts: seq<Host>, n: nat, picks: seq<nat>)
    requires n <= |hosts|
  {
    && (forall k :: 0 <= k < |picks| ==> picks[k] < n && FreshCandidate(hosts[picks[k]]))
    && (forall i :: 0 <= i < n && FreshCandidate(hosts[i]) ==> i in picks)
  }

  /** pickHost on a non-empty list of candidates; `random` is the random draw. */
  method PickHost(hosts: seq<Host>, candidates: seq<nat>, d: Domain, random: nat) returns (r: Option<nat>)
    requires candidates != [] && forall k :: 0 <= k < |candidates| ==> candidates[k] < |hosts|
    ensures r.None? <==> d.Domain? && !d.wellFormed
    ensures r.Some? ==> r.value in candidates && r.value < |hosts|
    ensures r.Some? && (exists k :: 0 <= k < |candidates| && InDomain(hosts[candidates[k]], d)) ==> InDomain(hosts[r.value], d)
  {
    var inDomain: seq<nat> := [];
    if d.Domain? {
      if !d.wellFormed {
        return None;
      }
      for k := 0 to |candidates|
        invariant forall x :: x in inDomain ==> x in candidates && x < |hosts| && InDomain(hosts[x], d)
        invariant forall j :: 0 <= j < k && InDomain(hosts[candidates[j]], d) ==> candidates[j] in inDomain
      {
        if hosts[candidates[k]].status.domain == Some(d.name) {
          inDomain := inDomain + [candidates[k]];
        }
      }
    }
    if |inDomain| > 0 {
      r := Some(inDomain[random % |inDomain|]);
    } else {
      r := Some(candidates[random % |candidates|]);
    }
  }

  /** Among the hosts kept for the group, every one must be available; the last one
      is taken. */
  method TakeReused(hosts: seq<Host>, groups: seq<Option<string>>, kept: seq<nat>, me: string, d: Domain, random: nat)
    returns (c: Choice)
    requires |groups| == |hosts| && kept != [] && CollectsReuse(hosts, groups, |hosts|, kept)
    requires !AnyOwn(hosts, me)
    ensures Allowed(hosts, groups, me, d, c)
  {
    c := NoHost;
    assert ReuseCandidate(hosts[kept[0]], groups[kept[0]]);
    FirstKept(hosts, groups, kept);
    for k := 0 to |kept|
      invariant k > 0 ==> c == Chosen(kept[k - 1], true) && !Malformed(d)
      invariant forall j :: 0 <= j < k ==> IsAvailable(hosts[kept[j]])
    {
      var host := hosts[kept[k]];
      if host.status.state.Ready? || host.status.state.Available? {
        var picked := PickHost(hosts, [kept[k]], d, random);
        if picked.None? {
          return PickError;
        }
        c := Chosen(picked.value, true);
      } else {
        return Requeue;
      }
    }
    LastKept(hosts, groups, kept);
  }

  lemma FirstKept(hosts: seq<Host>, groups: seq<Option<string>>, kept: seq<nat>)
    requires |groups| == |hosts| && kept != [] && CollectsReuse(hosts, groups, |hosts|, kept)
    ensures forall i :: 0 <= i < |hosts| && FirstReuse(hosts, groups, i) ==> i == kept[0]
  {
    forall i | 0 <= i < |hosts| && FirstReuse(hosts, groups, i)
      ensures i == kept[0]
    {
      var k :| 0 <= k < |kept| && kept[k] == i;
      assert ReuseCandidate(hosts[kept[0]], groups[kept[0]]);
    }
  }

  lemma LastKept(hosts: seq<Host>, groups: seq<Option<string>>, kept: seq<nat>)
    requires |groups| == |hosts| && kept != [] && CollectsReuse(hosts, groups, |hosts|, kept)
    requires forall k :: 0 <= k < |kept| ==> IsAvailable(hosts[kept[k]])
    ensures forall j :: 0 <= j < |hosts| && ReuseCandidate(hosts[j], groups[j]) ==>
              IsAvailable(hosts[j]) && j <= kept[|kept| - 1]
  {
    forall j | 0 <= j < |hosts| && ReuseCandidate(hosts[j], groups[j])
      ensures IsAvailable(hosts[j]) && j <= kept[|kept| - 1]
    {
      var k :| 0 <= k < |kept| && kept[k] == j;
      assert k == |kept| - 1 || kept[k] < kept[|kept| - 1];
    }
  }

  /** The loop over the listing: the first host the machine consumes already, or else
      the unlabelled candidates and those kept for its group. */
  method GatherHosts(hosts: seq<Host>, groups: seq<Option<string>>, me: string)
    returns (own: Option<nat>, free: seq<nat>, kept: seq<nat>)
    requires |groups| == |hosts|
    ensures own.None? ==> !AnyOwn(hosts, me) && CollectsReuse(hosts, groups, |hosts|, kept) && CollectsFresh(hosts, |hosts|, free)
    ensures own.Some? ==>
              && own.value < |hosts| && ConsumedBy(hosts[own.value].core, me)
              && forall j :: 0 <= j < own.value ==> !ConsumedBy(hosts[j].core, me)
  {
    own, free, kept := None, [], [];
    for i := 0 to |hosts|
      invariant own.None? && forall k :: 0 <= k < i ==> !ConsumedBy(hosts[k].core, me)
      invariant CollectsReuse(hosts, groups, i, kept)
      invariant CollectsFresh(hosts, i, free)
    {
      var host := hosts[i];
      if ConsumedBy(host.core, me) {
        own := Some(i);
        return;
      }
      if host.core.reuse.Some? {
        if !LabelMatches(host, groups[i]) {
          continue;
        }
      } else if host.core.consumer.Some? {
        continue;
      }
      if host.status.deleting || host.status.error || host.extra.pause.Some? || host.status.unhealthy {
        continue;
      }
      if host.core.reuse.Some? && LabelMatches(host, groups[i]) {
        kept := kept + [i];
      } else if host.core.reuse.None? {
        match host.status.state {
          case Ready | Available => free := free + [i];
          case _ =>
        }
      }
    }
  }

  method ChooseHost(hosts: seq<Host>, groups: seq<Option<string>>, me: string, d: Domain, random: nat) returns (c: Choice)
    requires |groups| == |hosts|
    ensures Allowed(hosts, groups, me, d, c)
    ensures AnswerOnFields(hosts, groups, me, d, c)
  {
    c := AllowedHost(hosts, groups, me, d, random);
    AllowedOnFields(hosts, groups, me, d, c);
  }

  method AllowedHost(hosts: seq<Host>, groups: seq<Option<string>>, me: string, d: Domain, random: nat) returns (c: Choice)
    requires |groups| == |hosts|
    ensures Allowed(hosts, groups, me, d, c)
  {
    var own, free, kept := GatherHosts(hosts, groups, me);
    if own.Some? {
      return Chosen(own.value, false);
    }
    if kept == [] && free == [] {
      return NoHost;
    }
    if kept != [] {
      c := TakeReused(hosts, groups, kept, me, d, random);
    } else {
      assert FreshCandidate(hosts[free[0]]);
      var picked := PickHost(hosts, free, d, random);
      c := if picked.None? then PickError else Chosen(picked.value, false);
    }
  }
}
