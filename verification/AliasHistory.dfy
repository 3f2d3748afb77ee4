/** Alias versions as compare-and-swap: over a whole run each version is spent at most once. */
module AliasHistory {
  import opened Text
  import opened Resources
  import opened Requests
  import opened Handlers
  import opened Invariants
  import opened Runs

  /** The alias under `key` was created or altered. */
  ghost predicate Changed(before: State, after: State, key: string) {
    key in after.aliases && (key !in before.aliases || after.aliases[key] != before.aliases[key])
  }

  /** The alias version a request names, when it names one. */
  ghost function Expected(p: Platform, r: Request): Option<int> {
    var route := RouteOf(p, r);
    if r.body.None? then None
    else match p.decode(route, r.body.value)
      case VersionInput(v) => if route.WithdrawAlias? then Some(v) else None
      case AliasInput(_, v) => if route.AssignAlias? then v else None
      case _ => None
  }

  ghost function VersionAt(s: State, key: string): int {
    if key in s.aliases then s.aliases[key].meta.version else 0
  }

  ghost predicate Versioned(s: State) {
    forall k | k in s.aliases :: s.aliases[k].meta.version == s.aliases[k].meta.generation >= 1
  }

  /** A handler that changes an alias moves its version and generation up by one, and only if the
      version its request names (when it names a positive one) is the current version. */
  lemma HandleSpendsOneVersion(p: Platform, s: State, r: Request, route: Route, input: Input, key: string)
    requires Versioned(s)
    ensures var s' := Handle(p, s, r, route, input).state;
      && Versioned(s')
      && (key in s.aliases ==> key in s'.aliases)
      && VersionAt(s', key) == VersionAt(s, key) + (if Changed(s, s', key) then 1 else 0)
      && (Changed(s, s', key) && route.WithdrawAlias? ==> input.VersionInput? && input.expectedVersion == VersionAt(s, key))
      && (Changed(s, s', key) && route.AssignAlias? ==> NamesCurrent(s, key, input))
      && (Changed(s, s', key) ==> route.AssignAlias? || route.WithdrawAlias?)
  {
    if route.AssignAlias? {
      AssignSpends(s, r, route.domain, route.serviceId, route.alias, input, key);
    } else if route.WithdrawAlias? {
      WithdrawSpends(s, r, route.domain, route.serviceId, route.alias, input, key);
    } else {
      OthersSpareAliases(p, s, r, route, input);
    }
  }

  /** An assignment that names a positive version names the current one. */
  ghost predicate NamesCurrent(s: State, key: string, input: Input) {
    && input.AliasInput?
    && (input.expected.Some? && input.expected.value != 0 ==> input.expected.value == VersionAt(s, key))
  }

  /** Storing an alias one version up changes that alias only. */
  lemma PutSpends(s: State, s': State, at: string, key: string)
    requires Versioned(s) && at in s'.aliases && s'.aliases == s.aliases[at := s'.aliases[at]]
    requires s'.aliases[at].meta.version == s'.aliases[at].meta.generation == VersionAt(s, at) + 1
    ensures Versioned(s') && (key in s.aliases ==> key in s'.aliases)
    ensures Changed(s, s', key) <==> key == at
    ensures VersionAt(s', key) == VersionAt(s, key) + (if Changed(s, s', key) then 1 else 0)
  {
  }

  lemma AssignSpends(s: State, r: Request, domain: string, serviceId: string, alias: string, input: Input, key: string)
    requires Versioned(s)
    ensures var s' := DoAssign(s, r, domain, serviceId, alias, input).state;
      && Versioned(s') && (key in s.aliases ==> key in s'.aliases)
      && VersionAt(s', key) == VersionAt(s, key) + (if Changed(s, s', key) then 1 else 0)
      && (Changed(s, s', key) ==> NamesCurrent(s, key, input))
  {
    if AssignRefusal(s, r, domain, serviceId, alias, input).None? {
      var s' := DoAssign(s, r, domain, serviceId, alias, input).state;
      PutSpends(s, s', AliasKey(domain, serviceId, alias), key);
    }
  }

  lemma WithdrawSpends(s: State, r: Request, domain: string, serviceId: string, alias: string, input: Input, key: string)
    requires Versioned(s)
    ensures var s' := DoWithdraw(s, r, domain, serviceId, alias, input).state;
      && Versioned(s') && (key in s.aliases ==> key in s'.aliases)
      && VersionAt(s', key) == VersionAt(s, key) + (if Changed(s, s', key) then 1 else 0)
      && (Changed(s, s', key) ==> input.VersionInput? && input.expectedVersion == VersionAt(s, key))
  {
    var done := DoWithdraw(s, r, domain, serviceId, alias, input);
    if done.reply.status == 200 {
      PutSpends(s, done.state, AliasKey(domain, serviceId, alias), key);
    }
  }

  lemma OthersSpareAliases(p: Platform, s: State, r: Request, route: Route, input: Input)
    requires !route.AssignAlias? && !route.WithdrawAlias?
    ensures Handle(p, s, r, route, input).state.aliases == s.aliases
  {
    HandleFrame(p, s, r, route, input);
  }

  lemma MutateSpendsOneVersion(p: Platform, s: State, r: Request, key: string)
    requires Versioned(s)
    ensures var s' := Mutate(p, s, r).state;
      && Versioned(s')
      && VersionAt(s', key) == VersionAt(s, key) + (if Changed(s, s', key) then 1 else 0)
      && (Changed(s, s', key) && Expected(p, r).Some? && Expected(p, r).value >= 1 ==> Expected(p, r).value == VersionAt(s, key))
  {
    if Admitted(p, r) && SlotOf(r) !in s.cache {
      HandleSpendsOneVersion(p, s, r, RouteOf(p, r), p.decode(RouteOf(p, r), r.body.value), key);
    }
  }

  ghost function Changes(p: Platform, requests: seq<Request>, key: string): nat {
    if requests == [] then 0
    else
      var n := |requests| - 1;
      Changes(p, requests[..n], key) +
      (if Changed(Exec(p, EMPTY, requests[..n]), Exec(p, EMPTY, requests), key) then 1 else 0)
  }

  /** After any run an alias's version and generation both equal the number of times it was changed. */
  lemma {:induction false} VersionCountsChanges(p: Platform, requests: seq<Request>, key: string)
    ensures Versioned(Exec(p, EMPTY, requests))
    ensures VersionAt(Exec(p, EMPTY, requests), key) == Changes(p, requests, key)
  {
    if requests != [] {
      var n := |requests| - 1;
      VersionCountsChanges(p, requests[..n], key);
      MutateSpendsOneVersion(p, Exec(p, EMPTY, requests[..n]), requests[n], key);
    }
  }

  // ---- Where an alias routes ------------------------------------------------------------------------------

  /** What a change of an alias does: an assignment routes it to the revision named, a withdrawal stops it routing. */
  ghost predicate Effected(s: State, s': State, r: Request, route: Route, input: Input, key: string)
    requires key in s'.aliases
  {
    var a := s'.aliases[key];
    || (&& route.AssignAlias? && key == AliasKey(route.domain, route.serviceId, route.alias)
        && input.AliasInput? && a.revisionId == input.revisionId && a.withdrawnAt.None?)
    || (&& route.WithdrawAlias? && key == AliasKey(route.domain, route.serviceId, route.alias)
        && key in s.aliases && a.revisionId == s.aliases[key].revisionId && a.withdrawnAt == Some(r.now))
  }

  lemma AssignEffects(s: State, r: Request, domain: string, serviceId: string, alias: string, input: Input, key: string)
    ensures var s' := DoAssign(s, r, domain, serviceId, alias, input).state;
      && (key in s.aliases ==> key in s'.aliases)
      && (Changed(s, s', key) ==> Effected(s, s', r, AssignAlias(domain, serviceId, alias), input, key))
  {
  }

  lemma WithdrawEffects(s: State, r: Request, domain: string, serviceId: string, alias: string, input: Input, key: string)
    ensures var s' := DoWithdraw(s, r, domain, serviceId, alias, input).state;
      && (key in s.aliases ==> key in s'.aliases)
      && (Changed(s, s', key) ==> Effected(s, s', r, WithdrawAlias(domain, serviceId, alias), input, key))
  {
  }

  lemma HandleEffects(p: Platform, s: State, r: Request, route: Route, input: Input, key: string)
    ensures var s' := Handle(p, s, r, route, input).state;
      && (key in s.aliases ==> key in s'.aliases)
      && (Changed(s, s', key) ==> Effected(s, s', r, route, input, key))
  {
    if route.AssignAlias? {
      AssignEffects(s, r, route.domain, route.serviceId, route.alias, input, key);
    } else if route.WithdrawAlias? {
      WithdrawEffects(s, r, route.domain, route.serviceId, route.alias, input, key);
    } else {
      OthersSpareAliases(p, s, r, route, input);
    }
  }

  lemma MutateEffects(p: Platform, s: State, r: Request, key: string)
    ensures var s' := Mutate(p, s, r).state;
      && (key in s.aliases ==> key in s'.aliases)
      && (Changed(s, s', key) ==> r.body.Some? && Effected(s, s', r, RouteOf(p, r), p.decode(RouteOf(p, r), r.body.value), key))
  {
    if Admitted(p, r) && SlotOf(r) !in s.cache {
      HandleEffects(p, s, r, RouteOf(p, r), p.decode(RouteOf(p, r), r.body.value), key);
    }
  }

  /** The revision named by the last assignment that changed the alias. */
  ghost function LastAssigned(p: Platform, requests: seq<Request>, key: string): Option<string> {
    if requests == [] then None
    else
      var n := |requests| - 1;
      var r := requests[n];
      if Changed(Exec(p, EMPTY, requests[..n]), Exec(p, EMPTY, requests), key) && RouteOf(p, r).AssignAlias? && r.body.Some?
         && p.decode(RouteOf(p, r), r.body.value).AliasInput?
      then Some(p.decode(RouteOf(p, r), r.body.value).revisionId)
      else LastAssigned(p, requests[..n], key)
  }

  /** The last change of the alias was a withdrawal. */
  ghost predicate LastWithdrawn(p: Platform, requests: seq<Request>, key: string) {
    requests != [] &&
    var n := |requests| - 1;
    if Changed(Exec(p, EMPTY, requests[..n]), Exec(p, EMPTY, requests), key) then RouteOf(p, requests[n]).WithdrawAlias?
    else LastWithdrawn(p, requests[..n], key)
  }

  /** After any run an alias routes to the revision named by the last assignment that took effect, and is withdrawn exactly
      when the last change of it was a withdrawal. */
  lemma {:induction false} LastAssignmentRoutes(p: Platform, requests: seq<Request>, key: string)
    ensures var s := Exec(p, EMPTY, requests);
      key in s.aliases ==>
        && LastAssigned(p, requests, key) == Some(s.aliases[key].revisionId)
        && (s.aliases[key].withdrawnAt.Some? <==> LastWithdrawn(p, requests, key))
  {
    if requests != [] {
      var n := |requests| - 1;
      LastAssignmentRoutes(p, requests[..n], key);
      MutateEffects(p, Exec(p, EMPTY, requests[..n]), requests[n], key);
    }
  }

  /** The i-th request changed the alias while naming version v. */
  ghost predicate Wins(p: Platform, requests: seq<Request>, i: nat, key: string, v: int) {
    && i < |requests| && Expected(p, requests[i]) == Some(v)
    && Changed(Exec(p, EMPTY, requests[..i]), Exec(p, EMPTY, requests[..i + 1]), key)
  }

  lemma {:induction false} ChangesMonotone(p: Platform, requests: seq<Request>, i: nat, j: nat, key: string)
    requires i <= j <= |requests|
    ensures Changes(p, requests[..i], key) <= Changes(p, requests[..j], key)
    decreases j
  {
    if i < j {
      ChangesMonotone(p, requests, i, j - 1, key);
      ChangesStep(p, requests, j, key);
    }
  }

  lemma ChangesStep(p: Platform, requests: seq<Request>, j: nat, key: string)
    requires 0 < j <= |requests|
    ensures Changes(p, requests[..j - 1], key) <= Changes(p, requests[..j], key)
  {
    assert requests[..j][..j - 1] == requests[..j - 1];
  }

  /** Compare-and-swap: for one alias and one positive version at most one request of the run wins. */
  lemma EachVersionSpentOnce(p: Platform, requests: seq<Request>, i: nat, j: nat, key: string, v: int)
    requires v >= 1 && i < j < |requests|
    ensures !(Wins(p, requests, i, key, v) && Wins(p, requests, j, key, v))
  {
    VersionSpent(p, requests, i, key, v);
    VersionSpent(p, requests, j, key, v);
    ChangesMonotone(p, requests, i + 1, j, key);
  }

  lemma VersionSpent(p: Platform, requests: seq<Request>, i: nat, key: string, v: int)
    requires v >= 1 && i < |requests|
    ensures Wins(p, requests, i, key, v) ==> Changes(p, requests[..i], key) == v && Changes(p, requests[..i + 1], key) == v + 1
  {
    VersionCountsChanges(p, requests[..i], key);
    ExecStep(p, EMPTY, requests, i);
    MutateSpendsOneVersion(p, Exec(p, EMPTY, requests[..i]), requests[i], key);
    VersionCountsChanges(p, requests[..i + 1], key);
  }
}
