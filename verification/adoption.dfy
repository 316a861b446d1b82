/** Adoption of profile-wide Xray clients: each legacy profile's client goes to exactly one of its devices. */
module Adoption {
  import opened Tables
  import opened Sets

  /** A display name, case-folded: "device n", or anything else. */
  datatype Label = Numbered(n: nat) | Named(text: nat)
  datatype Owner = Owner(runtime: nat, created: nat)
  datatype Unit = Unit(id: DeviceId, profile: ProfileId, title: Label, runtime: nat, status: DeviceStatus, created: nat)
  datatype Credential = Credential(device: DeviceId, profile: ProfileId, runtime: nat, uuid: nat)

  /** granted: profiles with an Xray grant. legacy: profiles that had a profile-wide client. ids and names derive the
      identities of created devices from the profile. */
  datatype Rows = Rows(profiles: map<ProfileId, Owner>, devices: map<DeviceId, Unit>, uuids: map<ProfileId, nat>,
                       granted: set<ProfileId>, credentials: seq<Credential>, legacy: set<ProfileId>)

  datatype Derived = Derived(fallback: map<ProfileId, DeviceId>, extra: map<ProfileId, DeviceId>, runtime: map<ProfileId, nat>)

  function Holders(cs: seq<Credential>): set<ProfileId> { set i | 0 <= i < |cs| :: cs[i].profile }

  predicate Eligible(r: Rows, p: ProfileId) {
    p in r.uuids && p in r.profiles && p !in Holders(r.credentials) && p in r.legacy
  }

  function Own(r: Rows, p: ProfileId): set<DeviceId> { set d | d in r.devices && r.devices[d].profile == p }

  function Usable(r: Rows, p: ProfileId): set<DeviceId> { set d | d in r.devices && r.devices[d].profile == p && r.devices[d].status.Active? }

  /** Sort key (created_at, id). */
  predicate Earlier(a: Unit, b: Unit) { a.created < b.created || (a.created == b.created && a.id < b.id) }

  ghost predicate First(r: Rows, ids: set<DeviceId>, d: DeviceId) {
    d in ids && ids <= r.devices.Keys && forall e :: e in ids && e != d ==> Earlier(r.devices[d], r.devices[e])
  }

  ghost predicate Last(r: Rows, ids: set<DeviceId>, d: DeviceId) {
    d in ids && ids <= r.devices.Keys && forall e :: e in ids && e != d ==> Earlier(r.devices[e], r.devices[d])
  }

  function Matching(r: Rows, ids: set<DeviceId>, runtime: nat): set<DeviceId> {
    set d | d in ids && d in r.devices && r.devices[d].runtime == runtime
  }

  function Labels(r: Rows, p: ProfileId): set<Label> {
    set d | d in r.devices && r.devices[d].profile == p && !r.devices[d].status.Retired? :: r.devices[d].title
  }

  /** Identities can be derived for every profile. */
  predicate Derives(r: Rows, x: Derived) {
    r.profiles.Keys <= x.fallback.Keys && r.profiles.Keys <= x.extra.Keys && r.profiles.Keys <= x.runtime.Keys
  }

  ghost predicate WellKept(r: Rows) { forall d :: d in r.devices ==> r.devices[d].id == d }

  /** The number of a new device: the first free one, and one of the first |labels| + 1. */
  predicate FreeNumber(labels: set<Label>, n: nat) {
    1 <= n <= |labels| + 1 && Numbered(n) !in labels && forall m :: 1 <= m < n ==> Numbered(m) in labels
  }

  /** Where the client of profile p goes; made is the device created for it, if any. */
  ghost predicate Chosen(r: Rows, x: Derived, now: nat, p: ProfileId, d: DeviceId, made: Option<Unit>)
    requires p in r.profiles && p in x.fallback && p in x.extra && p in x.runtime
  {
    var own, active, runtime := Own(r, p), Usable(r, p), r.profiles[p].runtime;
    if Matching(r, active, runtime) != {} then First(r, Matching(r, active, runtime), d) && made.None?
    else if active != {} then First(r, active, d) && made.None?
    else if own == {} then
      d == x.fallback[p] && made == Some(Unit(d, p, Numbered(1), runtime, Active, r.profiles[p].created))
    else if p in r.granted then
      d == x.extra[p] && made.Some? && made.value.title.Numbered? && FreeNumber(Labels(r, p), made.value.title.n) &&
      made.value == Unit(d, p, made.value.title, x.runtime[p], Active, now)
    else Last(r, own, d) && made.None?
  }

  /** Device e of the profile is active, and carries its runtime name if asked to. */
  predicate Candidate(r: Rows, p: ProfileId, e: DeviceId, own: bool) {
    e in r.devices && r.devices[e].profile == p && r.devices[e].status == Active &&
    (own ==> p in r.profiles && r.devices[e].runtime == r.profiles[p].runtime)
  }

  ghost predicate OldestCandidate(r: Rows, p: ProfileId, d: DeviceId, own: bool) {
    Candidate(r, p, d, own) && forall e | Candidate(r, p, e, own) && e != d
      :: r.devices[d].created < r.devices[e].created || (r.devices[d].created == r.devices[e].created && d < e)
  }

  ghost predicate NewestOwn(r: Rows, p: ProfileId, d: DeviceId) {
    d in r.devices && r.devices[d].profile == p && forall e | e in r.devices && r.devices[e].profile == p && e != d
      :: r.devices[e].created < r.devices[d].created || (r.devices[e].created == r.devices[d].created && e < d)
  }

  /** Which device it is: the oldest active one with the profile's own name, else the oldest active one, else a new default
      device for a profile without any, else a new device for a profile with an Xray grant, else the profile's newest. */
  lemma ChosenExactly(r: Rows, x: Derived, now: nat, p: ProfileId, d: DeviceId, made: Option<Unit>)
    requires WellKept(r) && p in r.profiles && p in x.fallback && p in x.extra && p in x.runtime && Chosen(r, x, now, p, d, made)
    ensures (exists e :: Candidate(r, p, e, true)) ==> OldestCandidate(r, p, d, true)
    ensures (exists e :: Candidate(r, p, e, false)) && !(exists e :: Candidate(r, p, e, true)) ==> OldestCandidate(r, p, d, false)
    ensures made.None? && !(exists e :: Candidate(r, p, e, false)) ==> NewestOwn(r, p, d) && p !in r.granted
    ensures made.Some? ==> (forall e :: !Candidate(r, p, e, false)) && made.value.id == d
    ensures made.Some? && (forall e :: e in r.devices ==> r.devices[e].profile != p) ==>
      made.value == Unit(x.fallback[p], p, Numbered(1), r.profiles[p].runtime, Active, r.profiles[p].created)
    ensures made.Some? && (exists e :: e in r.devices && r.devices[e].profile == p) ==>
      p in r.granted && made.value == Unit(x.extra[p], p, made.value.title, x.runtime[p], Active, now)
    ensures made.Some? ==> forall e :: e in r.devices && r.devices[e].profile == p && r.devices[e].status != Retired ==>
      r.devices[e].title != made.value.title
  {
    var own, active, runtime := Own(r, p), Usable(r, p), r.profiles[p].runtime;
    assert forall e :: Candidate(r, p, e, false) <==> e in active;
    assert forall e :: Candidate(r, p, e, true) <==> e in Matching(r, active, runtime);
    assert forall e :: e in own <==> e in r.devices && r.devices[e].profile == p;
    assert forall e :: e in r.devices && r.devices[e].profile == p && r.devices[e].status != Retired ==> r.devices[e].title in Labels(r, p);
  }

  /** One credential per eligible profile, keeping its client's identity, on a device chosen for it. */
  ghost predicate Places(r: Rows, x: Derived, now: nat, made: seq<Unit>, given: seq<Credential>, done: set<ProfileId>) {
    (forall p :: p in done ==> Eligible(r, p) && p in x.fallback && p in x.extra && p in x.runtime) &&
    (forall i :: 0 <= i < |given| ==> given[i].profile in done && Placed(r, x, now, made, given[i])) &&
    (forall i, j :: 0 <= i < j < |given| ==> given[i].profile != given[j].profile) &&
    (forall p :: p in done ==> p in Holders(given)) &&
    (forall i :: 0 <= i < |made| ==> made[i].profile in done)
  }

  /** What adopt returns. */
  ghost predicate Adopts(r: Rows, x: Derived, now: nat, made: seq<Unit>, given: seq<Credential>) {
    Places(r, x, now, made, given, Candidates(r)) && |given| == |Candidates(r)| && |made| <= |Candidates(r)|
  }

  ghost predicate Placed(r: Rows, x: Derived, now: nat, made: seq<Unit>, c: Credential) {
    c.profile in r.profiles && c.profile in r.uuids && c.profile in x.fallback && c.profile in x.extra && c.profile in x.runtime &&
    c.runtime == r.profiles[c.profile].runtime && c.uuid == r.uuids[c.profile] &&
    exists m: Option<Unit> :: (m.Some? ==> m.value in made) && Chosen(r, x, now, c.profile, c.device, m)
  }

  ghost function Candidates(r: Rows): set<ProfileId> { set p | p in r.uuids && Eligible(r, p) }

  // ----- Pigeonhole -----

  function Numbers(k: nat): set<Label> { set n | 1 <= n <= k :: Numbered(n) }

  lemma {:induction false} CountNumbers(k: nat)
    ensures |Numbers(k)| == k
  {
    if k == 0 {
      assert Numbers(0) == {};
    } else {
      CountNumbers(k - 1);
      assert Numbers(k) == Numbers(k - 1) + {Numbered(k)};
    }
  }

  /** Among the first |labels| + 1 names one is free. */
  lemma Pigeonhole(labels: set<Label>)
    ensures exists n :: 1 <= n <= |labels| + 1 && Numbered(n) !in labels
  {
    var k := |labels| + 1;
    if forall n :: 1 <= n <= k ==> Numbered(n) in labels {
      assert Numbers(k) <= labels;
      CountNumbers(k);
      Smaller(Numbers(k), labels);
      assert false;
    }
  }

  /** The search never runs out of its range. */
  method NextNumber(labels: set<Label>) returns (n: nat)
    ensures FreeNumber(labels, n)
  {
    Pigeonhole(labels);
    n := 1;
    while Numbered(n) in labels
      invariant 1 <= n <= |labels| + 1 && forall m :: 1 <= m < n ==> Numbered(m) in labels
      decreases |labels| + 1 - n
    {
      n := n + 1;
    }
  }

  // ----- adopt -----

  method Earliest(r: Rows, ids: set<DeviceId>) returns (d: DeviceId)
    requires ids != {} && ids <= r.devices.Keys && WellKept(r)
    ensures First(r, ids, d)
  {
    d :| d in ids;
    var rest := ids - {d};
    while rest != {}
      invariant rest <= ids && d in ids && d !in rest
      invariant forall e :: e in ids && e !in rest && e != d ==> Earlier(r.devices[d], r.devices[e])
      decreases rest
    {
      var e :| e in rest;
      if Earlier(r.devices[e], r.devices[d]) { d := e; }
      rest := rest - {e};
    }
  }

  method Latest(r: Rows, ids: set<DeviceId>) returns (d: DeviceId)
    requires ids != {} && ids <= r.devices.Keys && WellKept(r)
    ensures Last(r, ids, d)
  {
    d :| d in ids;
    var rest := ids - {d};
    while rest != {}
      invariant rest <= ids && d in ids && d !in rest
      invariant forall e :: e in ids && e !in rest && e != d ==> Earlier(r.devices[e], r.devices[d])
      decreases rest
    {
      var e :| e in rest;
      if Earlier(r.devices[d], r.devices[e]) { d := e; }
      rest := rest - {e};
    }
  }

  method Choose(r: Rows, x: Derived, now: nat, p: ProfileId) returns (d: DeviceId, made: Option<Unit>)
    requires WellKept(r) && p in r.profiles && p in x.fallback && p in x.extra && p in x.runtime
    ensures Chosen(r, x, now, p, d, made)
  {
    var own, active := Own(r, p), Usable(r, p);
    var matching := Matching(r, active, r.profiles[p].runtime);
    made := None;
    if matching != {} { d := Earliest(r, matching); }
    else if active != {} { d := Earliest(r, active); }
    else if own == {} {
      d := x.fallback[p];
      made := Some(Unit(d, p, Numbered(1), r.profiles[p].runtime, Active, r.profiles[p].created));
    } else if p in r.granted {
      var n := NextNumber(Labels(r, p));
      d := x.extra[p];
      made := Some(Unit(d, p, Numbered(n), x.runtime[p], Active, now));
    } else {
      d := Latest(r, own);
    }
  }

  method Adopt(r: Rows, x: Derived, now: nat) returns (made: seq<Unit>, given: seq<Credential>)
    requires WellKept(r) && Derives(r, x)
    ensures Adopts(r, x, now, made, given)
  {
    made, given := [], [];
    var todo := set p | p in r.uuids && Eligible(r, p);
    ghost var all, done: set<ProfileId> := Candidates(r), {};
    while todo != {}
      invariant todo !! done && todo + done == all && (forall p :: p in todo ==> Eligible(r, p))
      invariant Places(r, x, now, made, given, done) && |given| == |done| && |made| <= |done|
      decreases todo
    {
      var p :| p in todo;
      made, given := PlaceNext(r, x, now, made, given, p, done);
      todo, done := todo - {p}, done + {p};
    }
    assert done == all;
  }

  /** One more profile. */
  method PlaceNext(r: Rows, x: Derived, now: nat, made: seq<Unit>, given: seq<Credential>, p: ProfileId, ghost done: set<ProfileId>)
    returns (made': seq<Unit>, given': seq<Credential>)
    requires WellKept(r) && Derives(r, x) && Eligible(r, p)
    requires Places(r, x, now, made, given, done) && p !in done
    ensures Places(r, x, now, made', given', done + {p}) && |given'| == |given| + 1 && |made| <= |made'| <= |made| + 1
  {
    var c, m := PlaceProfile(r, x, now, p);
    PlaceOne(r, x, now, made, given, done, c, m);
    made' := if m.Some? then made + [m.value] else made;
    given' := given + [c];
  }

  /** The client of one profile. */
  method PlaceProfile(r: Rows, x: Derived, now: nat, p: ProfileId) returns (c: Credential, m: Option<Unit>)
    requires WellKept(r) && Eligible(r, p) && p in x.fallback && p in x.extra && p in x.runtime
    ensures c == Credential(c.device, p, r.profiles[p].runtime, r.uuids[p]) && Chosen(r, x, now, p, c.device, m)
  {
    var d;
    d, m := Choose(r, x, now, p);
    c := Credential(d, p, r.profiles[p].runtime, r.uuids[p]);
  }

  lemma PlaceOne(r: Rows, x: Derived, now: nat, made: seq<Unit>, given: seq<Credential>, done: set<ProfileId>, c: Credential, m: Option<Unit>)
    requires Places(r, x, now, made, given, done) && c.profile !in done && Eligible(r, c.profile)
    requires c.profile in x.fallback && c.profile in x.extra && c.profile in x.runtime
    requires c.runtime == r.profiles[c.profile].runtime && c.uuid == r.uuids[c.profile]
    requires Chosen(r, x, now, c.profile, c.device, m)
    ensures Places(r, x, now, if m.Some? then made + [m.value] else made, given + [c], done + {c.profile})
  {
    var made', given' := if m.Some? then made + [m.value] else made, given + [c];
    forall i | 0 <= i < |given'|
      ensures given'[i].profile in done + {c.profile} && Placed(r, x, now, made', given'[i])
    {
      if i < |given| { StillPlaced(r, x, now, made, made', given[i]); } else { assert m.Some? ==> m.value in made'; }
    }
    forall p | p in done + {c.profile}
      ensures p in Holders(given')
    {
      if p in done {
        var i :| 0 <= i < |given| && given[i].profile == p;
        assert given'[i].profile == p;
      } else {
        assert given'[|given|].profile == p;
      }
    }
  }

  lemma StillPlaced(r: Rows, x: Derived, now: nat, made: seq<Unit>, made': seq<Unit>, c: Credential)
    requires Placed(r, x, now, made, c) && forall u :: u in made ==> u in made'
    ensures Placed(r, x, now, made', c)
  {
    var n: Option<Unit> :| (n.Some? ==> n.value in made) && Chosen(r, x, now, c.profile, c.device, n);
    assert n.Some? ==> n.value in made';
  }

  // ----- What adoption achieves -----

  function WithUnits(devices: map<DeviceId, Unit>, made: seq<Unit>): map<DeviceId, Unit> {
    if made == [] then devices else WithUnits(devices, made[..|made| - 1])[made[|made| - 1].id := made[|made| - 1]]
  }

  /** The rows with the results inserted. */
  function Inserted(r: Rows, made: seq<Unit>, given: seq<Credential>): Rows {
    r.(devices := WithUnits(r.devices, made), credentials := r.credentials + given)
  }

  /** Each eligible profile gets exactly one credential, with its own runtime name and UUID, on a device of its own. */
  lemma OnePerProfile(r: Rows, x: Derived, now: nat, made: seq<Unit>, given: seq<Credential>, p: ProfileId)
    requires Adopts(r, x, now, made, given)
    ensures (exists i :: 0 <= i < |given| && given[i].profile == p) <==>
            p in r.uuids && p in r.profiles && p in r.legacy && forall c :: c in r.credentials ==> c.profile != p
    ensures forall i, j :: 0 <= i < |given| && 0 <= j < |given| && given[i].profile == p && given[j].profile == p ==> i == j
    ensures forall i :: 0 <= i < |given| && given[i].profile == p ==> OwnIdentity(r, made, given[i])
  {
    if Eligible(r, p) { assert p in Holders(given); }
    assert p in Holders(r.credentials) <==> exists c :: c in r.credentials && c.profile == p by {
      if c :| c in r.credentials && c.profile == p { var i :| 0 <= i < |r.credentials| && r.credentials[i] == c; }
      if p in Holders(r.credentials) { var i :| 0 <= i < |r.credentials| && r.credentials[i].profile == p; }
    }
    forall i | 0 <= i < |given| && given[i].profile == p
      ensures OwnIdentity(r, made, given[i])
    {
      assert Placed(r, x, now, made, given[i]);
      OnOwnDevice(r, x, now, made, given[i]);
    }
  }

  /** The credential keeps the profile's runtime name and UUID, on a device of that profile. */
  ghost predicate OwnIdentity(r: Rows, made: seq<Unit>, c: Credential) {
    c.profile in r.profiles && c.profile in r.uuids && c.runtime == r.profiles[c.profile].runtime && c.uuid == r.uuids[c.profile] &&
    (c.device in Own(r, c.profile) || exists k :: 0 <= k < |made| && made[k].id == c.device && made[k].profile == c.profile)
  }

  lemma OnOwnDevice(r: Rows, x: Derived, now: nat, made: seq<Unit>, c: Credential)
    requires Placed(r, x, now, made, c)
    ensures OwnIdentity(r, made, c)
  {
    var m: Option<Unit> :| (m.Some? ==> m.value in made) && Chosen(r, x, now, c.profile, c.device, m);
    if m.Some? {
      var k :| 0 <= k < |made| && made[k] == m.value;
    }
  }

  /** A profile that got a credential, or had one, is not eligible any more. */
  lemma NoneEligible(r: Rows, made: seq<Unit>, given: seq<Credential>, p: ProfileId)
    requires Eligible(r, p) ==> p in Holders(given)
    ensures !Eligible(Inserted(r, made, given), p)
  {
    var all := r.credentials + given;
    if p in Holders(given) {
      var i :| 0 <= i < |given| && given[i].profile == p;
      assert all[|r.credentials| + i].profile == p;
    } else if p in Holders(r.credentials) {
      var i :| 0 <= i < |r.credentials| && r.credentials[i].profile == p;
      assert all[i].profile == p;
    }
  }

  lemma NoCandidates(r: Rows, x: Derived, now: nat, made: seq<Unit>, given: seq<Credential>)
    requires Places(r, x, now, made, given, Candidates(r))
    ensures Candidates(Inserted(r, made, given)) == {}
  {
    forall p
      ensures !Eligible(Inserted(r, made, given), p)
    {
      assert Eligible(r, p) ==> p in Candidates(r);
      NoneEligible(r, made, given, p);
    }
  }

  /** Running adoption on its own output adds nothing. */
  lemma AdoptsOnce(r: Rows, x: Derived, now: nat, made: seq<Unit>, given: seq<Credential>, later: nat, more: seq<Unit>, again: seq<Credential>)
    requires Adopts(r, x, now, made, given) && Adopts(Inserted(r, made, given), x, later, more, again)
    ensures more == [] && again == []
  {
    NoCandidates(r, x, now, made, given);
  }
}
