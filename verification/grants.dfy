/** Grant policies: explicit and rule-derived access, materialized into the grants table. */
module Grants {
  import opened Tables

  type RegionId = nat
  type Grant = (NodeKey, Protocol)

  datatype Rule = Everywhere(protocols: set<Protocol>) | InRegion(region: RegionId, protocols: set<Protocol>)
  datatype Policy = Policy(explicit: set<Grant>, rules: seq<Rule>, exclusions: set<Grant>)
  /** region is the node's row in backend_node_regions. */
  datatype Place = Place(protocols: set<Protocol>, enabled: bool, applied: nat, region: Option<RegionId>, drained: bool, retired: bool)

  /** titles maps a canonical region title to its id. log records the operations queued, in order. */
  datatype Access = Access(places: map<NodeKey, Place>, titles: map<nat, RegionId>, policies: map<ProfileId, Policy>,
                           grants: map<ProfileId, set<Grant>>, revisions: map<ProfileId, nat>, admins: set<ProfileId>,
                           deleted: set<ProfileId>, log: seq<(ProfileId, nat)>)

  const BOTH: set<Protocol> := {Awg, Xray}
  const ADMIN_POLICY := Policy({}, [Everywhere(BOTH)], {})

  function GrantsOf(t: Access, p: ProfileId): set<Grant> { if p in t.grants then t.grants[p] else {} }

  function RawPolicy(t: Access, p: ProfileId): Policy {
    if p in t.policies then t.policies[p] else Policy(GrantsOf(t, p), [], {})
  }

  /** read. */
  function PolicyOf(t: Access, p: ProfileId): Policy { if p in t.admins then ADMIN_POLICY else RawPolicy(t, p) }

  /** Rules apply on the node; a preview also counts a node that is not set up yet. */
  predicate Counts(x: Place, previewed: bool) {
    x.region.Some? && (x.enabled || x.applied > 0 || previewed) && !x.drained && !x.retired
  }

  predicate Gives(r: Rule, region: Option<RegionId>, protocol: Protocol) {
    (r.Everywhere? || Some(r.region) == region) && protocol in r.protocols
  }

  /** A region the preview puts one node into; None is a region that does not exist yet. */
  datatype Override = Override(node: NodeKey, region: Option<RegionId>)

  function RegionFor(t: Access, o: Option<Override>, n: NodeKey): Option<RegionId>
    requires n in t.places
  {
    if o.Some? && o.value.node == n then o.value.region else t.places[n].region
  }

  predicate Derives(t: Access, v: Policy, o: Option<Override>, preview: Option<NodeKey>, g: Grant) {
    g.0 in t.places && Counts(t.places[g.0], preview == Some(g.0)) && g.1 in t.places[g.0].protocols && g !in v.exclusions &&
    Rules(v, |v.rules|, RegionFor(t, o, g.0), g.1)
  }

  /** One of the first k rules gives the protocol in the region. */
  predicate Rules(v: Policy, k: nat, region: Option<RegionId>, protocol: Protocol)
    requires k <= |v.rules|
  {
    exists i :: 0 <= i < k && Gives(v.rules[i], region, protocol)
  }

  function Derived(t: Access, v: Policy, o: Option<Override>, preview: Option<NodeKey>): set<Grant> {
    set n, protocol | n in t.places && protocol in t.places[n].protocols && Derives(t, v, o, preview, (n, protocol)) :: (n, protocol)
  }

  /** What a profile is entitled to. */
  function Entitled(t: Access, p: ProfileId): set<Grant> {
    var v := PolicyOf(t, p);
    var all := v.explicit + Derived(t, v, None, None);
    if p in t.deleted then {}
    else if p in t.admins then set g | g in all && g.0 in t.places && t.places[g.0].applied > 0
    else all
  }

  /** materialize, when the entitlement is e. */
  function MaterializedTo(t: Access, p: ProfileId, e: set<Grant>): Access {
    var kept := if p in t.admins && p !in t.policies then t.(policies := t.policies[p := RawPolicy(t, p)]) else t;
    if e == GrantsOf(t, p) then kept else kept.(grants := kept.grants[p := e])
  }

  function Materialized(t: Access, p: ProfileId): Access { MaterializedTo(t, p, Entitled(t, p)) }

  predicate Changes(t: Access, p: ProfileId) { Entitled(t, p) != GrantsOf(t, p) }

  /** Profiles a pass looks at. */
  function Governed(t: Access): set<ProfileId> { t.policies.Keys + (set p | p in t.admins && p in t.revisions) }

  /** One profile of a pass: materialize, and on a change one new revision and one operation at it. */
  function PassTo(t: Access, p: ProfileId, e: set<Grant>): Access {
    var m := MaterializedTo(t, p, e);
    if e != GrantsOf(t, p) && p in t.revisions
    then m.(revisions := m.revisions[p := m.revisions[p] + 1], log := m.log + [(p, m.revisions[p] + 1)]) else m
  }

  function Pass(t: Access, p: ProfileId): Access { PassTo(t, p, Entitled(t, p)) }

  ghost predicate WellKept(t: Access) {
    t.policies.Keys <= t.revisions.Keys && t.admins <= t.revisions.Keys
  }

  // ----- One profile does not affect another -----

  /** What an entitlement reads is the same. */
  ghost predicate SameBasis(t: Access, t': Access, p: ProfileId) {
    t'.places == t.places && (p in t'.admins <==> p in t.admins) && (p in t'.deleted <==> p in t.deleted) &&
    PolicyOf(t', p) == PolicyOf(t, p)
  }

  lemma SameEntitled(t: Access, t': Access, p: ProfileId)
    requires SameBasis(t, t', p)
    ensures Entitled(t', p) == Entitled(t, p)
  {
  }

  /** After its pass a governed profile has what it is entitled to, before and after. */
  lemma PassSettles(t: Access, p: ProfileId)
    requires p in t.policies || p in t.admins
    ensures Entitled(Pass(t, p), p) == Entitled(t, p) && GrantsOf(Pass(t, p), p) == Entitled(t, p)
  {
    PassBasis(t, p);
    SameEntitled(t, Pass(t, p), p);
  }

  lemma PassBasis(t: Access, p: ProfileId)
    requires p in t.policies || p in t.admins
    ensures SameBasis(t, Pass(t, p), p) && GrantsOf(Pass(t, p), p) == Entitled(t, p)
  {
  }

  lemma PassElsewhere(t: Access, p: ProfileId, q: ProfileId)
    requires p != q
    ensures Entitled(Pass(t, p), q) == Entitled(t, q) && Unmoved(t, Pass(t, p), q)
  {
    RowsElsewhere(t, p, q);
    SameEntitled(t, Pass(t, p), q);
  }

  ghost predicate Unmoved(t: Access, t': Access, q: ProfileId) {
    GrantsOf(t', q) == GrantsOf(t, q) && (q in t'.policies <==> q in t.policies) &&
    (q in t.policies ==> t'.policies[q] == t.policies[q]) &&
    (q in t'.revisions <==> q in t.revisions) && (q in t.revisions ==> t'.revisions[q] == t.revisions[q])
  }

  lemma RowsElsewhere(t: Access, p: ProfileId, q: ProfileId)
    requires p != q
    ensures Unmoved(t, Pass(t, p), q) && SameBasis(t, Pass(t, p), q)
  {
    MovesOnly(t, p, Entitled(t, p), q);
    UnmovedByOthers(t, Pass(t, p), q);
  }

  lemma MovesOnly(t: Access, p: ProfileId, e: set<Grant>, q: ProfileId)
    requires p != q
    ensures Unmoved(t, PassTo(t, p, e), q) && SameWorld(t, PassTo(t, p, e))
  {
  }

  lemma UnmovedByOthers(t: Access, t': Access, q: ProfileId)
    requires Unmoved(t, t', q) && SameWorld(t, t')
    ensures SameBasis(t, t', q)
  {
  }

  // ----- A whole pass -----

  /** What a pass does to one profile; done says whether its turn has come. */
  ghost predicate Reconciled(t: Access, t': Access, q: ProfileId, done: bool) {
    Entitled(t', q) == Entitled(t, q) &&
    GrantsOf(t', q) == (if done then Entitled(t, q) else GrantsOf(t, q)) &&
    (q in t'.policies <==> q in t.policies || (done && q in t.admins)) &&
    (q in t'.policies ==> t'.policies[q] == RawPolicy(t, q)) &&
    (q in t'.revisions <==> q in t.revisions) &&
    (q in t.revisions ==> t'.revisions[q] == t.revisions[q] + if done && Changes(t, q) then 1 else 0)
  }

  ghost predicate SameWorld(t: Access, t': Access) {
    t'.places == t.places && t'.titles == t.titles && t'.admins == t.admins && t'.deleted == t.deleted
  }

  /** A pass over exactly the profiles in done: the operations queued are those of the changed profiles, one each. */
  ghost predicate Passed(t: Access, t': Access, done: set<ProfileId>) {
    SameWorld(t, t') && (forall q :: Reconciled(t, t', q, q in done)) && t.log <= t'.log &&
    LogOf(t, t'.log[|t.log|..], done)
  }

  ghost predicate LogOf(t: Access, added: seq<(ProfileId, nat)>, done: set<ProfileId>) {
    (forall i :: 0 <= i < |added| ==> Queued(t, done, added[i])) &&
    (forall i, j :: 0 <= i < j < |added| ==> added[i].0 != added[j].0) &&
    (forall q :: q in done && q in t.revisions && Changes(t, q) ==> (q, t.revisions[q] + 1) in added)
  }

  predicate Queued(t: Access, done: set<ProfileId>, e: (ProfileId, nat)) {
    e.0 in done && e.0 in t.revisions && Changes(t, e.0) && e.1 == t.revisions[e.0] + 1
  }

  lemma NothingPassed(t: Access)
    ensures Passed(t, t, {})
  {
  }

  lemma PassOn(t: Access, m: Access, done: set<ProfileId>, p: ProfileId, q: ProfileId)
    requires SameWorld(t, m) && Reconciled(t, m, q, q in done) && p !in done && p in Governed(t) && Reconciled(t, m, p, false)
    ensures Reconciled(t, Pass(m, p), q, q in done + {p})
  {
    if q == p {
      PassSettles(m, p);
    } else {
      PassElsewhere(m, p, q);
    }
  }

  lemma LogGrows(t: Access, added: seq<(ProfileId, nat)>, done: set<ProfileId>, p: ProfileId)
    requires LogOf(t, added, done) && p !in done && p in t.revisions && Changes(t, p)
    ensures LogOf(t, added + [(p, t.revisions[p] + 1)], done + {p})
  {
  }

  lemma LogStays(t: Access, added: seq<(ProfileId, nat)>, done: set<ProfileId>, p: ProfileId)
    requires LogOf(t, added, done) && !(p in t.revisions && Changes(t, p))
    ensures LogOf(t, added, done + {p})
  {
  }

  lemma LogOn(t: Access, m: Access, done: set<ProfileId>, p: ProfileId)
    requires t.log <= m.log && LogOf(t, m.log[|t.log|..], done) && p !in done && Reconciled(t, m, p, false)
    ensures t.log <= Pass(m, p).log && LogOf(t, Pass(m, p).log[|t.log|..], done + {p})
  {
    PassLog(m, p);
    if Changes(t, p) && p in t.revisions { LogMore(t, m.log, Pass(m, p).log, done, p); }
    else { LogStays(t, m.log[|t.log|..], done, p); }
  }

  lemma LogMore(t: Access, was: seq<(ProfileId, nat)>, now: seq<(ProfileId, nat)>, done: set<ProfileId>, p: ProfileId)
    requires t.log <= was && LogOf(t, was[|t.log|..], done) && p !in done && p in t.revisions && Changes(t, p)
    requires now == was + [(p, t.revisions[p] + 1)]
    ensures t.log <= now && LogOf(t, now[|t.log|..], done + {p})
  {
    Suffix(t.log, was, (p, t.revisions[p] + 1));
    LogGrows(t, was[|t.log|..], done, p);
  }

  lemma PassLog(m: Access, p: ProfileId)
    ensures Pass(m, p).log == if Changes(m, p) && p in m.revisions then m.log + [(p, m.revisions[p] + 1)] else m.log
  {
  }

  lemma Suffix(a: seq<(ProfileId, nat)>, b: seq<(ProfileId, nat)>, e: (ProfileId, nat))
    requires a <= b
    ensures a <= b + [e] && (b + [e])[|a|..] == b[|a|..] + [e]
  {
  }

  lemma PassOnAll(t: Access, m: Access, done: set<ProfileId>, p: ProfileId)
    requires Passed(t, m, done) && p !in done && p in Governed(t)
    ensures Passed(t, Pass(m, p), done + {p})
  {
    assert Reconciled(t, m, p, false);
    forall q
      ensures Reconciled(t, Pass(m, p), q, q in done + {p})
    {
      assert Reconciled(t, m, q, q in done);
      PassOn(t, m, done, p, q);
    }
    LogOn(t, m, done, p);
  }

  lemma SameChange(t: Access, m: Access, done: set<ProfileId>, p: ProfileId)
    requires Passed(t, m, done) && p !in done
    ensures Changes(m, p) == Changes(t, p)
  {
  }

  /** The profiles among ds whose grants a pass changes. */
  function ChangedOf(t: Access, ds: set<ProfileId>): set<ProfileId> { set p | p in ds && Changes(t, p) }

  lemma ChangedMore(t: Access, ds: set<ProfileId>, p: ProfileId)
    ensures ChangedOf(t, ds + {p}) == if Changes(t, p) then ChangedOf(t, ds) + {p} else ChangedOf(t, ds)
  {
  }

  // ----- Main results -----

  /** reconcile, as a whole. */
  ghost predicate ReconciledAll(t: Access, t': Access) { Passed(t, t', Governed(t)) }

  /** Reconciling reaches a fixpoint: afterwards every governed profile has exactly what it is entitled to, exactly the
      changed profiles got one new revision, and a second pass changes no grant, no revision and no policy. */
  lemma ReconcileIsFixpoint(t: Access, t': Access, t'': Access, p: ProfileId)
    requires WellKept(t) && ReconciledAll(t, t') && ReconciledAll(t', t'')
    ensures p in Governed(t') ==> GrantsOf(t', p) == Entitled(t', p)
    ensures p in t.revisions ==> p in t'.revisions
    ensures p in t.revisions ==> (t'.revisions[p] > t.revisions[p] <==> GrantsOf(t', p) != GrantsOf(t, p))
    ensures p in t.revisions ==> t'.revisions[p] <= t.revisions[p] + 1
    ensures GrantsOf(t'', p) == GrantsOf(t', p) && (p in t''.policies <==> p in t'.policies)
    ensures p in t.revisions ==> p in t''.revisions && t''.revisions[p] == t'.revisions[p]
    ensures p in t'.policies ==> t''.policies[p] == t'.policies[p]
    ensures t''.log == t'.log
  {
    SameGoverned(t, t');
    assert Reconciled(t, t', p, p in Governed(t)) && Reconciled(t', t'', p, p in Governed(t'));
    QuietLog(t, t', t'');
  }

  // ----- The entitlement, from the rows -----

  /** The rule lists the protocol, for every region or for this one. */
  predicate Extends(r: Rule, region: RegionId, protocol: Protocol) {
    match r
    case Everywhere(protocols) => protocol in protocols
    case InRegion(only, protocols) => only == region && protocol in protocols
  }

  /** A placed node that takes part: neither drained nor retired. */
  predicate TakesPart(t: Access, n: NodeKey, protocol: Protocol) {
    n in t.places && protocol in t.places[n].protocols && t.places[n].region.Some? && !t.places[n].drained && !t.places[n].retired
  }

  lemma DerivedExactly(t: Access, v: Policy, n: NodeKey, protocol: Protocol)
    ensures (n, protocol) in Derived(t, v, None, None) <==>
      TakesPart(t, n, protocol) && (t.places[n].enabled || t.places[n].applied > 0) && (n, protocol) !in v.exclusions &&
      exists r :: r in v.rules && Extends(r, t.places[n].region.value, protocol)
  {
    if TakesPart(t, n, protocol) {
      var region := t.places[n].region;
      if i :| 0 <= i < |v.rules| && Gives(v.rules[i], region, protocol) {
        assert v.rules[i] in v.rules && Extends(v.rules[i], region.value, protocol);
      }
      if r :| r in v.rules && Extends(r, region.value, protocol) {
        var i :| 0 <= i < |v.rules| && v.rules[i] == r;
        assert Gives(v.rules[i], region, protocol);
      }
    }
  }

  predicate HasGrant(t: Access, p: ProfileId, n: NodeKey, protocol: Protocol) { p in t.grants && (n, protocol) in t.grants[p] }

  /** What a pass leaves a member with a policy: what is listed, and on every node in service what some rule extends to the
      node's own region and no exclusion takes away. */
  lemma MemberGrantsExactly(t: Access, t': Access, p: ProfileId, n: NodeKey, protocol: Protocol)
    requires ReconciledAll(t, t') && p in t.policies && p !in t.admins
    ensures HasGrant(t', p, n, protocol) <==>
      p !in t.deleted &&
      ((n, protocol) in t.policies[p].explicit ||
       (TakesPart(t, n, protocol) && (t.places[n].enabled || t.places[n].applied > 0) && (n, protocol) !in t.policies[p].exclusions &&
        exists r :: r in t.policies[p].rules && Extends(r, t.places[n].region.value, protocol)))
  {
    assert Reconciled(t, t', p, true);
    DerivedExactly(t, t.policies[p], n, protocol);
  }

  /** And an admin: everything on every placed node that has been set up. */
  lemma AdminGrantsExactly(t: Access, t': Access, p: ProfileId, n: NodeKey, protocol: Protocol)
    requires ReconciledAll(t, t') && p in t.admins && p in t.revisions
    ensures HasGrant(t', p, n, protocol) <==> p !in t.deleted && TakesPart(t, n, protocol) && t.places[n].applied > 0
  {
    assert Reconciled(t, t', p, true);
    DerivedExactly(t, ADMIN_POLICY, n, protocol);
    if TakesPart(t, n, protocol) {
      assert Everywhere(BOTH) in ADMIN_POLICY.rules && Extends(Everywhere(BOTH), t.places[n].region.value, protocol);
    }
  }

  lemma SameGoverned(t: Access, t': Access)
    requires WellKept(t) && ReconciledAll(t, t')
    ensures Governed(t') == Governed(t)
  {
  }

  lemma QuietLog(t: Access, t': Access, t'': Access)
    requires WellKept(t) && ReconciledAll(t, t') && ReconciledAll(t', t'')
    ensures t''.log == t'.log
  {
    SameGoverned(t, t');
    var added := t''.log[|t'.log|..];
    forall q | q in Governed(t')
      ensures !Changes(t', q)
    {
      assert Reconciled(t, t', q, true);
    }
    assert added != [] ==> Queued(t', Governed(t'), added[0]);
  }

  function Promote(t: Access, p: ProfileId): Access { t.(admins := t.admins + {p}) }

  function Demote(t: Access, p: ProfileId): Access { t.(admins := t.admins - {p}) }

  /** Any number of passes. */
  ghost predicate Passes(ts: seq<Access>) {
    |ts| > 0 && forall i :: 0 <= i < |ts| - 1 ==> ReconciledAll(ts[i], ts[i + 1])
  }

  /** What the passes of an admin keep of the member's policy. */
  ghost predicate Remembers(t: Access, t': Access, p: ProfileId) {
    t'.places == t.places && t'.deleted == t.deleted && p in t'.revisions && WellKept(t') &&
    (p in t.policies ==> p in t'.policies) && RawPolicy(t', p) == RawPolicy(t, p) && p in t'.admins
  }

  lemma PassRemembers(t: Access, a: Access, b: Access, p: ProfileId)
    requires Remembers(t, a, p) && ReconciledAll(a, b)
    ensures Remembers(t, b, p)
  {
    assert Reconciled(a, b, p, p in Governed(a));
    forall q | q in b.policies || q in b.admins
      ensures q in b.revisions
    {
      assert Reconciled(a, b, q, q in Governed(a));
    }
  }

  lemma {:induction false} PassesRemember(t: Access, ts: seq<Access>, p: ProfileId, i: nat)
    requires Passes(ts) && Remembers(t, ts[0], p) && i < |ts|
    ensures Remembers(t, ts[i], p)
  {
    if i == 0 {
    } else {
      PassesRemember(t, ts, p, i - 1);
      assert ReconciledAll(ts[i - 1], ts[i - 1 + 1]);
      PassRemembers(t, ts[i - 1], ts[i], p);
    }
  }

  /** A member without rules is entitled to exactly what is listed. */
  lemma PlainEntitled(t: Access, p: ProfileId)
    requires p !in t.admins && p !in t.policies && p !in t.deleted
    ensures Entitled(t, p) == GrantsOf(t, p)
  {
  }

  /** Promotion to admin, any number of passes, and demotion give the member its grants back. */
  lemma PromotionRoundTrip(t: Access, ts: seq<Access>, t': Access, p: ProfileId)
    requires WellKept(t) && p in t.revisions && p !in t.admins
    requires (p in t.policies ==> GrantsOf(t, p) == Entitled(t, p)) && (p in t.deleted ==> GrantsOf(t, p) == {})
    requires Passes(ts) && ts[0] == Promote(t, p) && ReconciledAll(Demote(ts[|ts| - 1], p), t')
    ensures GrantsOf(t', p) == GrantsOf(t, p)
  {
    PassesRemember(t, ts, p, |ts| - 1);
    var d := Demote(ts[|ts| - 1], p);
    SameEntitled(t, d, p);
    if p !in t.policies && p !in t.deleted { PlainEntitled(t, p); }
    assert Reconciled(d, t', p, p in Governed(d));
  }

  // ----- Moving a node to another region -----

  /** assign_region; unused is the id a new region would get. */
  function Assigned(t: Access, n: NodeKey, title: nat, unused: RegionId): Access
    requires n in t.places
  {
    var id := if title in t.titles then t.titles[title] else unused;
    t.(titles := t.titles[title := id], places := t.places[n := t.places[n].(region := Some(id))])
  }

  function Lookup(t: Access, title: nat): Option<RegionId> { if title in t.titles then Some(t.titles[title]) else None }

  function PreviewBefore(t: Access, n: NodeKey, p: ProfileId): set<Grant> {
    PolicyOf(t, p).explicit + Derived(t, PolicyOf(t, p), None, Some(n))
  }

  function PreviewAfter(t: Access, n: NodeKey, title: nat, p: ProfileId): set<Grant> {
    PolicyOf(t, p).explicit + Derived(t, PolicyOf(t, p), Some(Override(n, Lookup(t, title))), Some(n))
  }

  /** A rule names a region on record. */
  predicate KnownRule(t: Access, r: Rule) { r.InRegion? ==> r.region in t.titles.Values }

  ghost predicate KnownRules(t: Access) {
    forall p :: p in t.policies ==> forall i :: 0 <= i < |t.policies[p].rules| ==> KnownRule(t, t.policies[p].rules[i])
  }

  /** The node's rules apply to it now. */
  predicate ActivePlace(x: Place) { x.region.Some? && (x.enabled || x.applied > 0) }

  lemma SameDerived(t: Access, n: NodeKey, title: nat, unused: RegionId, v: Policy)
    requires n in t.places && ActivePlace(t.places[n]) && (title !in t.titles ==> unused !in t.titles.Values)
    requires forall i :: 0 <= i < |v.rules| ==> KnownRule(t, v.rules[i])
    ensures Derived(Assigned(t, n, title, unused), v, None, None) == Derived(t, v, Some(Override(n, Lookup(t, title))), Some(n))
    ensures Derived(t, v, None, None) == Derived(t, v, None, Some(n))
  {
  }

  /** Rules for everywhere do not look at the region. */
  lemma AdminUnmoved(t: Access, n: NodeKey, title: nat, unused: RegionId, p: ProfileId)
    requires n in t.places && ActivePlace(t.places[n]) && p in t.admins
    ensures Entitled(Assigned(t, n, title, unused), p) == Entitled(t, p)
    ensures PreviewBefore(t, n, p) == PreviewAfter(t, n, title, p)
  {
  }

  /** The preview lists the profile. */
  predicate Listed(t: Access, n: NodeKey, title: nat, p: ProfileId) {
    p in t.policies && p !in t.deleted && PreviewBefore(t, n, p) != PreviewAfter(t, n, title, p)
  }

  /** Other nodes are not affected by a preview. */
  lemma PreviewIsLocal(t: Access, n: NodeKey, title: nat, p: ProfileId, g: Grant)
    requires g.0 != n
    ensures g in PreviewBefore(t, n, p) <==> g in PreviewAfter(t, n, title, p)
  {
  }

  /** The preview agrees with its effect: assigning the region and reconciling changes exactly the listed profiles, and
      for them exactly the listed protocols of that node, also when the region does not exist yet. */
  lemma PreviewIsEffect(t: Access, n: NodeKey, title: nat, unused: RegionId, t': Access, p: ProfileId)
    requires WellKept(t) && n in t.places && ActivePlace(t.places[n]) && KnownRules(t)
    requires title !in t.titles ==> unused !in t.titles.Values
    requires forall q :: q in Governed(t) ==> GrantsOf(t, q) == Entitled(t, q)
    requires ReconciledAll(Assigned(t, n, title, unused), t')
    ensures Listed(t, n, title, p) <==> GrantsOf(t', p) != GrantsOf(t, p)
    ensures Listed(t, n, title, p) ==> forall g ::
      (g in PreviewAfter(t, n, title, p) - PreviewBefore(t, n, p) <==> g in GrantsOf(t', p) - GrantsOf(t, p)) &&
      (g in PreviewBefore(t, n, p) - PreviewAfter(t, n, title, p) <==> g in GrantsOf(t, p) - GrantsOf(t', p))
    ensures forall g: Grant :: g.0 != n ==> (g in GrantsOf(t', p) <==> g in GrantsOf(t, p))
  {
    var a := Assigned(t, n, title, unused);
    assert Reconciled(a, t', p, p in Governed(a));
    assert GrantsOf(a, p) == GrantsOf(t, p) && Governed(a) == Governed(t);
    if p in t.admins {
      AdminUnmoved(t, n, title, unused, p);
    } else if p in t.policies && p !in t.deleted {
      SameDerived(t, n, title, unused, t.policies[p]);
      assert GrantsOf(t, p) == PreviewBefore(t, n, p) && GrantsOf(t', p) == PreviewAfter(t, n, title, p);
      forall g: Grant | g.0 != n
        ensures g in GrantsOf(t', p) <==> g in GrantsOf(t, p)
      {
        PreviewIsLocal(t, n, title, p, g);
      }
    }
  }

  /** A node that is not set up yet gets nothing from the assignment: there the preview shows what its activation would
      bring, and agrees with the immediate effect only when it lists nobody. */
  lemma InactiveHasNoEffect(t: Access, n: NodeKey, title: nat, unused: RegionId, t': Access, p: ProfileId)
    requires WellKept(t) && n in t.places && !t.places[n].enabled && t.places[n].applied == 0
    requires forall q :: q in Governed(t) ==> GrantsOf(t, q) == Entitled(t, q)
    requires ReconciledAll(Assigned(t, n, title, unused), t')
    ensures GrantsOf(t', p) == GrantsOf(t, p)
    ensures (Listed(t, n, title, p) <==> GrantsOf(t', p) != GrantsOf(t, p)) <==> !Listed(t, n, title, p)
  {
    var a := Assigned(t, n, title, unused);
    assert Reconciled(a, t', p, p in Governed(a));
    var v := PolicyOf(t, p);
    forall g
      ensures Derives(a, v, None, None, g) <==> Derives(t, v, None, None, g)
    {
      if g.0 in t.places && g.0 != n { assert RegionFor(a, None, g.0) == RegionFor(t, None, g.0); }
    }
    assert Derived(a, v, None, None) == Derived(t, v, None, None);
    assert Entitled(a, p) == Entitled(t, p);
  }

  /** Added and removed protocols of the node. */
  function PreviewRow(t: Access, n: NodeKey, title: nat, p: ProfileId): (set<Protocol>, set<Protocol>) {
    var before, after := PreviewBefore(t, n, p), PreviewAfter(t, n, title, p);
    (set g | g in after - before && g.0 == n :: g.1, set g | g in before - after && g.0 == n :: g.1)
  }

  // ----- The tables -----

  class GrantTables {
    var places: map<NodeKey, Place>
    var titles: map<nat, RegionId>
    var policies: map<ProfileId, Policy>
    var grants: map<ProfileId, set<Grant>>
    var revisions: map<ProfileId, nat>
    var admins: set<ProfileId>
    var deleted: set<ProfileId>
    var log: seq<(ProfileId, nat)>

    function View(): Access
      reads this
    {
      Access(places, titles, policies, grants, revisions, admins, deleted, log)
    }

    /** assign_region. */
    method AssignRegion(n: NodeKey, title: nat, unused: RegionId) returns (id: RegionId)
      requires n in places
      modifies this`titles, this`places
      ensures View() == Assigned(old(View()), n, title, unused) && Lookup(View(), title) == Some(id) && places[n].region == Some(id)
    {
      if title !in titles { titles := titles[title := unused]; }
      id := titles[title];
      places := places[n := places[n].(region := Some(id))];
    }

    /** region_preview: the listed profiles with the node's added and removed protocols. */
    method RegionPreview(n: NodeKey, title: nat) returns (profiles: map<ProfileId, (set<Protocol>, set<Protocol>)>)
      ensures forall p :: p in profiles <==> Listed(View(), n, title, p)
      ensures forall p :: p in profiles ==> profiles[p] == PreviewRow(View(), n, title, p)
    {
      profiles := map[];
      var todo := set p | p in policies && p !in deleted;
      while todo != {}
        invariant forall p :: p in todo ==> p in policies && p !in deleted
        invariant forall p :: p in profiles <==> Listed(View(), n, title, p) && p !in todo
        invariant forall p :: p in profiles ==> profiles[p] == PreviewRow(View(), n, title, p)
        decreases todo
      {
        var p :| p in todo;
        var v := PolicyOf(View(), p);
        var before := Derive(v, None, Some(n));
        var after := Derive(v, Some(Override(n, Lookup(View(), title))), Some(n));
        before, after := v.explicit + before, v.explicit + after;
        if before != after {
          profiles := profiles[p := (set g | g in after - before && g.0 == n :: g.1, set g | g in before - after && g.0 == n :: g.1)];
        }
        todo := todo - {p};
      }
    }

    /** One node's rules, in order. */
    method DeriveNode(n: NodeKey, v: Policy, region: Option<RegionId>) returns (result: set<Grant>)
      requires n in places
      ensures forall g :: g in result <==> g.0 == n && g.1 in places[n].protocols && Rules(v, |v.rules|, region, g.1)
    {
      result := {};
      for i := 0 to |v.rules|
        invariant forall g :: g in result <==> g.0 == n && g.1 in places[n].protocols && Rules(v, i, region, g.1)
      {
        var rule := v.rules[i];
        if rule.Everywhere? || Some(rule.region) == region {
          result := result + set protocol | protocol in rule.protocols && protocol in places[n].protocols :: (n, protocol);
        }
      }
    }

    /** derived. */
    method Derive(v: Policy, o: Option<Override>, preview: Option<NodeKey>) returns (result: set<Grant>)
      ensures result == Derived(View(), v, o, preview)
    {
      var all: set<Grant> := {};
      var todo := set n | n in places && Counts(places[n], preview == Some(n));
      while todo != {}
        invariant forall n :: n in todo ==> n in places && Counts(places[n], preview == Some(n))
        invariant forall g :: g in all - v.exclusions <==> g.0 !in todo && Derives(View(), v, o, preview, g)
        decreases todo
      {
        var n :| n in todo;
        var more := DeriveNode(n, v, RegionFor(View(), o, n));
        all := all + more;
        todo := todo - {n};
      }
      result := all - v.exclusions;
      assert forall g :: g in result <==> Derives(View(), v, o, preview, g);
    }

    /** materialize. */
    method Materialize(p: ProfileId) returns (changed: bool)
      modifies this`policies, this`grants
      ensures View() == Materialized(old(View()), p) && changed == Changes(old(View()), p)
    {
      ghost var was := View();
      if p in admins && p !in policies { policies := policies[p := RawPolicy(View(), p)]; }
      var v := PolicyOf(View(), p);
      var more := Derive(v, None, None);
      SameEntitled(was, View(), p);
      var effective := v.explicit + more;
      if p in admins { effective := set g | g in effective && g.0 in places && places[g.0].applied > 0; }
      if p in deleted { effective := {}; }
      assert effective == Entitled(was, p);
      changed := effective != GrantsOf(View(), p);
      if changed { grants := grants[p := effective]; }
    }

    /** One profile of reconcile. */
    method PassOne(p: ProfileId) returns (moved: bool)
      modifies this`policies, this`grants, this`revisions, this`log
      ensures View() == Pass(old(View()), p) && moved == Changes(old(View()), p)
    {
      moved := Materialize(p);
      if moved && p in revisions {
        revisions := revisions[p := revisions[p] + 1];
        log := log + [(p, revisions[p])];
      }
    }

    /** reconcile. */
    method Reconcile() returns (changed: set<ProfileId>)
      modifies this`policies, this`grants, this`revisions, this`log
      ensures ReconciledAll(old(View()), View())
      ensures changed == ChangedOf(old(View()), Governed(old(View())))
    {
      ghost var was := View();
      changed := {};
      ghost var done: set<ProfileId> := {};
      var todo := Governed(View());
      ghost var all := todo;
      NothingPassed(was);
      while todo != {}
        invariant todo !! done && todo + done == all && Passed(was, View(), done) && changed == ChangedOf(was, done)
        decreases todo
      {
        var p :| p in todo;
        assert p in all;
        var moved := PassNext(p, was, done);
        ChangedMore(was, done, p);
        if moved { changed := changed + {p}; }
        todo, done := todo - {p}, done + {p};
      }
      assert done == all;
    }

    /** One more profile of a pass that began with the tables `was`. */
    method PassNext(p: ProfileId, ghost was: Access, ghost done: set<ProfileId>) returns (moved: bool)
      requires Passed(was, View(), done) && p !in done && p in Governed(was)
      modifies this`policies, this`grants, this`revisions, this`log
      ensures Passed(was, View(), done + {p}) && moved == Changes(was, p)
    {
      SameChange(was, View(), done, p);
      PassOnAll(was, View(), done, p);
      moved := PassOne(p);
    }
  }
}
