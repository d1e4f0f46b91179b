/** Concrete ROSA histories: a whole life, a cluster that is never deleted, a role left behind by a
    lost prefix, and a deletion that names no cluster because its ID was lost. */
module RosaWitness {
  import opened Conditions
  import opened StatusPatch
  import opened Requests
  import opened OperatorRoles
  import opened RosaProtocol
  import opened RosaHistories

  // ---- Reaching states ----

  ghost predicate Reaches(s: State, t: State) {
    exists es :: Legal(s, es) && Exec(s, es) == t
  }

  lemma Reached(s: State)
    ensures Reaches(s, s)
  {
    assert Legal(s, []) && Exec(s, []) == s;
  }

  lemma Then(s: State, t: State, e: Event)
    requires Reaches(s, t) && Enabled(t, e)
    ensures Reaches(s, Apply(t, e))
  {
    var es :| Legal(s, es) && Exec(s, es) == t;
    Extend(s, es, e);
  }

  lemma Call(s: State, t: State, e: Event) returns (u: State)
    requires Reaches(s, t) && IsCall(e) && CanCall(t, e)
    ensures Reaches(s, u) && u == ApplyCall(t, e)
  {
    Then(s, t, e);
    u := Apply(t, e);
  }

  lemma Write(s: State, t: State, e: Event) returns (u: State)
    requires Reaches(s, t) && IsWrite(e) && CanWrite(t, e)
    ensures Reaches(s, u) && u == ApplyWrite(t, e)
  {
    Then(s, t, e);
    u := Apply(t, e);
  }

  lemma Create(s: State, t: State, e: Event) returns (u: State)
    requires Reaches(s, t) && IsCreate(e) && CanCreate(t, e)
    ensures Reaches(s, u) && u == ApplyCreate(t, e)
  {
    Then(s, t, e);
    u := Apply(t, e);
  }

  lemma Send(s: State, t: State, snapshot: Status, o: PatchOutcome) returns (u: State)
    requires Reaches(s, t) && CanPatch(t, snapshot, o)
    ensures Reaches(s, u) && u == ApplyPatch(t, snapshot, o)
  {
    Then(s, t, Patch(snapshot, o));
    u := Apply(t, Patch(snapshot, o));
  }

  lemma Happen(s: State, t: State, e: Event) returns (u: State)
    requires Reaches(s, t) && IsOther(e) && CanOccur(t, e)
    ensures Reaches(s, u) && u == Occur(t, e)
  {
    Then(s, t, e);
    u := Apply(t, e);
  }

  // ---- Conditions ----

  lemma Appends(l: seq<Condition>, c: Condition)
    requires forall i :: 0 <= i < |l| ==> l[i].ctype != c.ctype
    ensures !IsSet(c, l) && AddCondition(l, c) == l + [c]
  {
    FirstOfIs(l, c.ctype, |l|);
  }

  lemma Replaces(l: seq<Condition>, c: Condition)
    requires |l| > 0 && l[0].ctype == c.ctype && !EqualCondition(c, l[0])
    requires forall i :: 1 <= i < |l| ==> l[i].ctype != c.ctype
    ensures !IsSet(c, l) && AddCondition(l, c) == l[0 := c]
  {
    FirstOfIs(l, c.ctype, 0);
  }

  /** Memory holds what the server answers. */
  predicate Synced(p: Status, m: Status) {
    Decode(p, m) == m && p.conditions == m.conditions
  }

  /** Between phases, in a request that goes on. */
  predicate During(t: State, p: Status, m: Status, prefix: string, deletes: bool, facts: set<Fact>) {
    && t.spec == SPEC && t.obj == Resource(p, FinalizerOn in facts, deletes, false)
    && t.run.Active? && t.run.mem == m && t.run.prefix == prefix && t.run.version == "v" && t.run.deletes == deletes
    && t.run.facts == facts && t.run.unsaved == {} && !t.run.failed && m.versionID == "i" && prefix != ""
  }

  /** A condition is noted and its patch applied. */
  lemma Noted(s: State, t: State, p: Status, m: Status, prefix: string, deletes: bool, facts: set<Fact>,
              c: Condition, r: seq<Condition>) returns (u: State)
    requires Reaches(s, t) && During(t, p, m, prefix, deletes, facts) && Synced(p, m) && CanNote(t, c)
    requires AddCondition(m.conditions, c) == r && r != [] && r != m.conditions
    ensures Reaches(s, u) && During(u, p.(conditions := r), m.(conditions := r), prefix, deletes, facts)
    ensures Synced(p.(conditions := r), m.(conditions := r)) && u.cloud == t.cloud && u.ledger == t.ledger
  {
    var v := Write(s, t, Note(c));
    assert Covered(m, v.run.mem) == {};
    u := Send(s, v, m, Applied);
  }

  // ---- The constants of the histories ----

  const SPEC := Spec("", "", false)
  const REQUEST := CredentialRequest("r", "n", "o")
  const ROLE := Role("x", RoleName("x", REQUEST))
  const GRANT := Grant(ROLE, PolicyName("x", REQUEST))
  const NOTHING := Cloud({}, false, {}, {}, {}, {}, {})

  function Fresh(): State {
    State(SPEC, Resource(EMPTY_STATUS, false, false, false), NOTHING, Idle,
          Ledger(0, 0, false, 0, false, false, 0, 0, 0, 0, {}, {}, {}, {}, {}, false))
  }

  function Mark(trigger: Trigger): Condition {
    Condition(Reconciling, true, trigger, ReconcilingStart, 0, 0)
  }

  const UPDATING := Mark(TriggerUpdate)
  const DELETING := Mark(TriggerDelete)

  /** The prefix on the server, after its patch was applied or swallowed. */
  function SavedPrefix(o: PatchOutcome): string {
    if o.Applied? then "x" else ""
  }

  // ---- NewRequest of the first reconcile ----

  lemma Starts(o: PatchOutcome) returns (t: State)
    requires o.Applied? || o.Swallowed?
    ensures Init(Fresh()) && Reaches(Fresh(), t) && t.spec == SPEC && t.cloud == NOTHING && !t.ledger.idLost
    ensures t.obj == Resource(EMPTY_STATUS.(rolesPrefix := SavedPrefix(o)), false, false, false)
    ensures t.run == Active(EMPTY_STATUS, EMPTY_STATUS.(rolesPrefix := "x"), "x", "", false, {}, {}, [], false)
    ensures t.ledger.lost == if o.Applied? then 0 else 1
  {
    var s := Fresh();
    Reached(s);
    t := Happen(s, s, Start);
    t := Write(s, t, PickPrefix("x"));
    assert {} + {UnsavedPrefix} == {UnsavedPrefix};
    t := Send(s, t, EMPTY_STATUS, o);
    assert Covered(EMPTY_STATUS, EMPTY_STATUS.(rolesPrefix := "x")) == {UnsavedPrefix};
    assert {UnsavedPrefix} - {UnsavedPrefix} == {};
  }

  /** The status of the histories: what varies, and the resolved version. */
  function Stat(conditions: seq<Condition>, cluster: string, config: string, provider: string, roles: bool,
      prefix: string): Status {
    Status(conditions, cluster, config, provider, "v", "i", roles, prefix)
  }

  lemma Versioned(o: PatchOutcome) returns (t: State)
    requires o.Applied? || o.Swallowed?
    ensures Init(Fresh()) && Reaches(Fresh(), t) && t.cloud == NOTHING && !t.ledger.idLost
    ensures During(t, Stat([], "", "", "", false, SavedPrefix(o)), Stat([], "", "", "", false, "x"), "x", false, {})
    ensures t.ledger.lost == if o.Applied? then 0 else 1
  {
    var s := Fresh();
    t := Starts(o);
    var snapshot := t.run.mem;
    t := Write(s, t, PickVersion("v"));
    t := Write(s, t, SetVersionID("i"));
    assert {} + {UnsavedVersion} == {UnsavedVersion};
    assert Covered(snapshot, t.run.mem) == {UnsavedVersion};
    t := Send(s, t, snapshot, Applied);
    assert {UnsavedVersion} - {UnsavedVersion} == {};
  }

  lemma Secures(s: State, t: State, p: Status, m: Status) returns (u: State)
    requires Reaches(s, t) && During(t, p, m, "x", false, {}) && Synced(p, m)
    ensures Reaches(s, u) && During(u, p, m, "x", false, {FinalizerOn}) && u.cloud == t.cloud && u.ledger == t.ledger
  {
    u := Happen(s, t, AddFinalizer(Accepted));
    assert {} + {FinalizerOn} == {FinalizerOn};
  }

  lemma FindsNone(s: State, t: State, p: Status, m: Status, prefix: string, deletes: bool,
      facts: set<Fact>) returns (u: State)
    requires Reaches(s, t) && During(t, p, m, prefix, deletes, facts) && SawListed !in facts && FinalizerOn in facts
    requires t.cloud.mine == {} && !t.cloud.foreign
    ensures Reaches(s, u) && During(u, p, m, prefix, deletes, facts + {SawMissing}) && u.cloud == t.cloud
    ensures SameLedger(u, t)
  {
    u := Call(s, t, Lookup(false));
    assert facts - {SawListed} + {SawMissing} == facts + {SawMissing};
  }

  /** What the conclusions need of the history variables. */
  predicate SameLedger(t: State, u: State) {
    t.ledger.lost == u.ledger.lost && t.ledger.idLost == u.ledger.idLost
  }

  const HELD := {FinalizerOn} + {SawMissing}

  lemma Holds(o: PatchOutcome) returns (t: State)
    requires o.Applied? || o.Swallowed?
    ensures Init(Fresh()) && Reaches(Fresh(), t) && t.cloud == NOTHING && !t.ledger.idLost
    ensures During(t, Stat([UPDATING], "", "", "", false, SavedPrefix(o)), Stat([UPDATING], "", "", "", false, "x"),
                   "x", false, HELD)
    ensures t.ledger.lost == if o.Applied? then 0 else 1
  {
    var s := Fresh();
    t := Versioned(o);
    Appends([], UPDATING);
    t := Noted(s, t, Stat([], "", "", "", false, SavedPrefix(o)), Stat([], "", "", "", false, "x"), "x", false, {},
               UPDATING, [UPDATING]);
    var p, m := Stat([UPDATING], "", "", "", false, SavedPrefix(o)), Stat([UPDATING], "", "", "", false, "x");
    t := Secures(s, t, p, m);
    t := FindsNone(s, t, p, m, "x", false, {FinalizerOn});
  }

  // ---- createCluster ----

  lemma MakesConfig(s: State, t: State, p: Status, m: Status) returns (u: State)
    requires Reaches(s, t) && During(t, p, m, "x", false, HELD) && Synced(p, m)
    requires m.oidcConfigID == "" == p.oidcConfigID
    requires !Has(m, ClusterCreated) && t.cloud == NOTHING
    ensures Reaches(s, u) && During(u, p.(oidcConfigID := "o"), m.(oidcConfigID := "o"), "x", false, HELD)
    ensures u.cloud == NOTHING.(configs := {"o"}) && SameLedger(u, t)
  {
    u := Create(s, t, ConfigCreate(Made("o")));
    assert {} + {UnsavedConfig} == {UnsavedConfig} && {} + {"o"} == {"o"};
    assert Covered(m, u.run.mem) == {UnsavedConfig} && {UnsavedConfig} - {UnsavedConfig} == {};
    u := Send(s, u, m, Applied);
  }

  lemma MakesProvider(s: State, t: State, p: Status, m: Status) returns (u: State)
    requires Reaches(s, t) && During(t, p.(oidcConfigID := "o"), m.(oidcConfigID := "o"), "x", false, HELD)
    requires Synced(p, m)
    requires m.oidcConfigID == "" == m.oidcProviderARN && p.oidcProviderARN == "" == p.oidcConfigID
    requires !Has(m, ClusterCreated) && t.cloud == NOTHING.(configs := {"o"})
    ensures Reaches(s, u) && SameLedger(u, t) && u.cloud == NOTHING.(configs := {"o"}, providers := {"p"})
    ensures During(u, p.(oidcConfigID := "o", oidcProviderARN := "p"), m.(oidcConfigID := "o", oidcProviderARN := "p"),
                   "x", false, HELD)
  {
    u := Create(s, t, ProviderCreate(Made("p")));
    assert {} + {UnsavedProvider} == {UnsavedProvider} && {} + {"p"} == {"p"};
    assert Covered(m, u.run.mem) == {UnsavedConfig, UnsavedProvider};
    assert {UnsavedProvider} - {UnsavedConfig, UnsavedProvider} == {};
    u := Send(s, u, m, Applied);
  }

  const POLICY := PolicyName("x", REQUEST)
  const SERVED := NOTHING.(configs := {"o"}, providers := {"p"}, policies := {POLICY}, roles := {ROLE},
      grants := {GRANT})

  lemma Lists(s: State, t: State, p: Status, m: Status) returns (u: State)
    requires Reaches(s, t) && During(t, p, m, "x", false, HELD) && !m.rolesCreated && !Has(m, ClusterCreated)
    ensures Reaches(s, u) && During(u, p, m, "x", false, HELD) && SameLedger(u, t) && u.run.requests == [REQUEST]
    ensures u.cloud == t.cloud.(policies := t.cloud.policies + {POLICY})
  {
    u := Write(s, t, ListRequests([REQUEST]));
    u := Call(s, u, EnsurePolicy(POLICY));
  }

  lemma Equips(s: State, t: State, p: Status, m: Status) returns (u: State)
    requires Reaches(s, t) && During(t, p, m, "x", false, HELD) && !m.rolesCreated && !Has(m, ClusterCreated)
    requires POLICY in t.cloud.policies
    ensures Reaches(s, u) && During(u, p, m, "x", false, HELD) && SameLedger(u, t) && u.run.requests == t.run.requests
    ensures u.cloud == t.cloud.(roles := t.cloud.roles + {ROLE}, grants := t.cloud.grants + {GRANT})
  {
    u := Call(s, t, EnsureRole(ROLE));
    u := Call(s, u, Attach(GRANT, Accepted));
  }

  /** The role of the one listed request, and its policy. */
  lemma Serves(s: State, t: State, p: Status, m: Status) returns (u: State)
    requires Reaches(s, t) && During(t, p, m, "x", false, HELD) && !m.rolesCreated && !Has(m, ClusterCreated)
    requires t.cloud == NOTHING.(configs := {"o"}, providers := {"p"})
    ensures Reaches(s, u) && During(u, p, m, "x", false, HELD) && SameLedger(u, t)
    ensures u.cloud == SERVED && u.run.requests == [REQUEST]
  {
    u := Lists(s, t, p, m);
    u := Equips(s, u, p, m);
    assert {} + {POLICY} == {POLICY} && {} + {ROLE} == {ROLE} && {} + {GRANT} == {GRANT};
  }

  lemma Flags(s: State, t: State, p: Status, m: Status) returns (u: State)
    requires Reaches(s, t) && During(t, p, m, "x", false, HELD) && Synced(p, m) && !m.rolesCreated && !p.rolesCreated
    requires !Has(m, ClusterCreated) && t.cloud == SERVED && t.run.requests == [REQUEST]
    ensures Reaches(s, u) && During(u, p.(rolesCreated := true), m.(rolesCreated := true), "x", false, HELD)
    ensures u.cloud == SERVED && SameLedger(u, t)
  {
    assert Granted(false, "x", [REQUEST], [], {GRANT});
    u := Write(s, t, RolesReady("x", [REQUEST], []));
    assert {} + {UnsavedRoles} == {UnsavedRoles};
    assert Covered(m, u.run.mem) == {UnsavedRoles} && {UnsavedRoles} - {UnsavedRoles} == {};
    u := Send(s, u, m, Applied);
  }

  lemma NotCreated()
    ensures !IsSet(RosaCondition(ClusterCreated, 0), [UPDATING])
  {
  }

  /** Ready for the create request. */
  lemma Provides(o: PatchOutcome) returns (t: State)
    requires o.Applied? || o.Swallowed?
    ensures Init(Fresh()) && Reaches(Fresh(), t) && t.cloud == SERVED && !t.ledger.idLost
    ensures During(t, Stat([UPDATING], "", "o", "p", true, SavedPrefix(o)), Stat([UPDATING], "", "o", "p", true, "x"),
                   "x", false, HELD)
    ensures t.ledger.lost == if o.Applied? then 0 else 1
  {
    var s := Fresh();
    t := Holds(o);
    NotCreated();
    var p, m := Stat([UPDATING], "", "", "", false, SavedPrefix(o)), Stat([UPDATING], "", "", "", false, "x");
    t := MakesConfig(s, t, p, m);
    t := MakesProvider(s, t, p, m);
    p, m := p.(oidcConfigID := "o", oidcProviderARN := "p"), m.(oidcConfigID := "o", oidcProviderARN := "p");
    t := Serves(s, t, p, m);
    t := Flags(s, t, p, m);
  }

  // ---- The create request ----

  const CREATED := RosaCondition(ClusterCreated, 0)
  const MADE := {FinalizerOn, CreateOk}
  const LISTED := SERVED.(mine := {"c"})

  /** The cluster's ID on the server, after its patch was applied or swallowed. */
  function SavedID(o: PatchOutcome): string {
    if o.Applied? then "c" else ""
  }

  lemma Asks(s: State, t: State, p: Status, m: Status, o: PatchOutcome) returns (u: State)
    requires Reaches(s, t) && During(t, p, m, "x", false, HELD) && Synced(p, m) && t.cloud == SERVED
    requires !Has(m, ClusterCreated) && m.rolesCreated && m.oidcConfigID == "o" && m.oidcProviderARN == "p"
    requires m.clusterID == "" == p.clusterID && (o.Applied? || o.Swallowed?)
    ensures Reaches(s, u) && u.cloud == LISTED
    ensures During(u, p.(clusterID := SavedID(o)), m.(clusterID := "c"), "x", false, MADE)
    ensures u.ledger.lost == t.ledger.lost + (if o.Applied? then 0 else 1)
  {
    u := Create(s, t, ClusterCreate("i", Made("c")));
    assert {} + {UnsavedCluster} == {UnsavedCluster} && {} + {"c"} == {"c"};
    assert HELD - {SawMissing} + {CreateOk} == MADE;
    assert Covered(m, u.run.mem) == {UnsavedCluster} && {UnsavedCluster} - {UnsavedCluster} == {};
    u := Send(s, u, m, o);
  }

  /** Between reconciles, before deletion is asked for. */
  predicate Resting(t: State, p: Status) {
    t.spec == SPEC && t.obj == Resource(p, true, false, false) && t.run == Idle
  }

  lemma Rests(s: State, t: State, p: Status, m: Status, facts: set<Fact>) returns (u: State)
    requires Reaches(s, t) && During(t, p, m, "x", false, facts) && FinalizerOn in facts
    ensures Reaches(s, u) && Resting(u, p) && u.cloud == t.cloud && u.ledger == t.ledger
  {
    u := Happen(s, t, End);
  }

  /** The first reconcile, up to the wait for the cluster. */
  lemma Creates(o: PatchOutcome, io: PatchOutcome) returns (t: State)
    requires (o.Applied? || o.Swallowed?) && (io.Applied? || io.Swallowed?)
    ensures Init(Fresh()) && Reaches(Fresh(), t) && t.cloud == LISTED
    ensures Resting(t, Stat([UPDATING, CREATED], SavedID(io), "o", "p", true, SavedPrefix(o)))
    ensures t.ledger.lost == (if o.Applied? then 0 else 1) + (if io.Applied? then 0 else 1)
  {
    var s := Fresh();
    t := Provides(o);
    NotCreated();
    var p, m := Stat([UPDATING], "", "o", "p", true, SavedPrefix(o)), Stat([UPDATING], "", "o", "p", true, "x");
    t := Asks(s, t, p, m, io);
    p, m := p.(clusterID := SavedID(io)), m.(clusterID := "c");
    Appends([UPDATING], CREATED);
    t := Noted(s, t, p, m, "x", false, MADE, CREATED, [UPDATING, CREATED]);
    t := Rests(s, t, p.(conditions := [UPDATING, CREATED]), m.(conditions := [UPDATING, CREATED]), MADE);
  }

  /** A create request that fails after taking effect ends the reconcile. */
  lemma Doubts(s: State, t: State, p: Status, m: Status) returns (u: State)
    requires Reaches(s, t) && During(t, p, m, "x", false, HELD) && t.cloud == SERVED
    requires !Has(m, ClusterCreated) && m.rolesCreated && m.oidcConfigID == "o" && m.oidcProviderARN == "p"
    ensures Reaches(s, u) && Resting(u, p) && u.cloud == LISTED && SameLedger(u, t)
  {
    u := Create(s, t, ClusterCreate("i", Ambiguous("c")));
    assert {} + {"c"} == {"c"};
    u := Happen(s, u, End);
  }

  lemma Orphans() returns (t: State)
    ensures Init(Fresh()) && Reaches(Fresh(), t) && t.cloud == LISTED && t.ledger.lost == 0
    ensures Resting(t, Stat([UPDATING], "", "o", "p", true, "x"))
  {
    t := Provides(Applied);
    NotCreated();
    var p := Stat([UPDATING], "", "o", "p", true, "x");
    t := Doubts(Fresh(), t, p, p);
  }

  lemma Swallows(s: State, t: State, p: Status, m: Status, snapshot: Status) returns (u: State)
    requires Reaches(s, t) && During(t, p, m, "x", false, MADE)
    requires snapshot == m.(conditions := snapshot.conditions)
    ensures Reaches(s, u) && During(u, p, m, "x", false, MADE) && u.cloud == t.cloud
    ensures u.ledger.lost == t.ledger.lost + 1
  {
    assert Covered(snapshot, m) == {};
    u := Send(s, t, snapshot, Swallowed);
  }

  /** ClusterCreated is noted, and its patch swallowed; the reconcile ends without an error. */
  lemma Forgets(s: State, t: State, p: Status) returns (u: State)
    requires Reaches(s, t) && During(t, p, p, "x", false, MADE) && p.conditions == [UPDATING]
    ensures Reaches(s, u) && Resting(u, p) && u.cloud == t.cloud && u.ledger.lost == t.ledger.lost + 1
  {
    Appends([UPDATING], CREATED);
    u := Write(s, t, Note(CREATED));
    var m := p.(conditions := [UPDATING] + [CREATED]);
    u := Swallows(s, u, p, m, p);
    u := Rests(s, u, p, m, MADE);
  }

  lemma Unmarks() returns (t: State)
    ensures Init(Fresh()) && Reaches(Fresh(), t) && t.cloud == LISTED && t.ledger.lost == 1
    ensures Resting(t, Stat([UPDATING], "c", "o", "p", true, "x"))
  {
    var s, p := Fresh(), Stat([UPDATING], "", "o", "p", true, "x");
    t := Provides(Applied);
    NotCreated();
    t := Asks(s, t, p, p, Applied);
    t := Forgets(s, t, p.(clusterID := "c"));
  }

  // ---- The delete reconcile ----

  /** UserDelete, the read, and the prefix: the recorded one, else a new one. */
  lemma Rereads(s: State, t: State, p: Status, q: string) returns (u: State)
    requires Reaches(s, t) && Resting(t, p) && p.version == "v" && p.versionID == "i"
    requires if p.rolesPrefix != "" then q == p.rolesPrefix else q != ""
    ensures Reaches(s, u) && u.cloud == t.cloud && SameLedger(u, t) && u.spec == SPEC
    ensures u.obj == Resource(p.(rolesPrefix := q), true, true, false)
    ensures u.run == Active(p, p.(rolesPrefix := q), q, "", true, {FinalizerOn}, {}, [], false)
  {
    u := Happen(s, t, UserDelete);
    u := Happen(s, u, Start);
    u := Write(s, u, PickPrefix(q));
    if p.rolesPrefix == "" {
      assert {} + {UnsavedPrefix} == {UnsavedPrefix};
      assert Covered(p, u.run.mem) == {UnsavedPrefix} && {UnsavedPrefix} - {UnsavedPrefix} == {};
      u := Send(s, u, p, Applied);
    }
  }

  lemma Reopens(s: State, t: State, p: Status, q: string) returns (u: State)
    requires Reaches(s, t) && Resting(t, p) && p.version == "v" && p.versionID == "i"
    requires if p.rolesPrefix != "" then q == p.rolesPrefix else q != ""
    ensures Reaches(s, u) && u.cloud == t.cloud && SameLedger(u, t)
    ensures During(u, p.(rolesPrefix := q), p.(rolesPrefix := q), q, true, {FinalizerOn})
  {
    u := Rereads(s, t, p, q);
    u := Write(s, u, PickVersion("v"));
  }

  const NONE: seq<seq<string>> := [[], [], []]
  const SCANNED := {FinalizerOn} + {ScanClear}

  lemma Scans(s: State, t: State, p: Status, q: string) returns (u: State)
    requires Reaches(s, t) && During(t, p, p, q, true, {FinalizerOn})
    ensures Reaches(s, u) && During(u, p, p, q, true, SCANNED) && u.cloud == t.cloud && SameLedger(u, t)
  {
    assert NoChild(p.clusterID, NONE);
    u := Call(s, t, ScanChildren(p.clusterID, NONE));
  }

  /** The delete reconcile up to DestroyCluster. */
  lemma Deletes(s: State, t: State, p: Status, q: string, rest: seq<Condition>) returns (u: State)
    requires Reaches(s, t) && Resting(t, p) && p.version == "v" && p.versionID == "i"
    requires if p.rolesPrefix != "" then q == p.rolesPrefix else q != ""
    requires p.conditions == [UPDATING] + rest && forall i :: 0 <= i < |rest| ==> rest[i].ctype != Reconciling
    ensures Reaches(s, u) && u.cloud == t.cloud && SameLedger(u, t)
    ensures var p' := p.(rolesPrefix := q, conditions := [DELETING] + rest); During(u, p', p', q, true, SCANNED)
  {
    u := Reopens(s, t, p, q);
    var p2 := p.(rolesPrefix := q);
    Replaces(p.conditions, DELETING);
    assert p.conditions[0 := DELETING] == [DELETING] + rest;
    assert ([DELETING] + rest)[0] != p.conditions[0];
    u := Noted(s, u, p2, p2, q, true, {FinalizerOn}, DELETING, [DELETING] + rest);
    u := Scans(s, u, p2.(conditions := [DELETING] + rest), q);
  }

  /** OCM still lists the cluster. */
  lemma Waits(s: State, t: State, p: Status) returns (u: State)
    requires Reaches(s, t) && During(t, p, p, "x", true, SCANNED) && t.cloud.mine != {} && !Has(p, ClusterCreated)
    ensures Reaches(s, u) && u.obj == t.obj && u.run == Idle && u.cloud == t.cloud && SameLedger(u, t) && Unmarked(u)
  {
    u := Call(s, t, Lookup(true));
    u := Happen(s, u, End);
  }

  // ---- Teardown ----

  const UNINSTALLING := RosaCondition(ClusterUninstalling, 0)
  const NO_ROLES := RosaCondition(OperatorRolesDeleted, 0)
  const NO_CONFIG := RosaCondition(OIDCProviderDeleted, 0)
  const NO_PROVIDER := RosaCondition(OIDCConfigDeleted, 0)

  const ASKED := SCANNED + {DeleteOk}
  const MISSED := ASKED + {SawMissing}

  lemma CreatedOnly()
    ensures IsSet(CREATED, [DELETING] + [CREATED]) && !IsSet(UNINSTALLING, [DELETING] + [CREATED])
  {
    assert EqualCondition(CREATED, ([DELETING] + [CREATED])[1]);
  }

  lemma Uninstalls(s: State, t: State, p: Status, q: string) returns (u: State)
    requires Reaches(s, t) && During(t, p, p, q, true, SCANNED) && p.conditions == [DELETING] + [CREATED]
    ensures Reaches(s, u) && u.cloud == t.cloud && SameLedger(u, t)
    ensures var p' := p.(conditions := [DELETING, CREATED, UNINSTALLING]); During(u, p', p', q, true, ASKED)
  {
    CreatedOnly();
    u := Call(s, t, ClusterDelete(p.clusterID, Accepted));
    Appends(p.conditions, UNINSTALLING);
    assert p.conditions + [UNINSTALLING] == [DELETING, CREATED, UNINSTALLING];
    u := Noted(s, u, p, p, q, true, ASKED, UNINSTALLING, [DELETING, CREATED, UNINSTALLING]);
  }

  /** OCM is done with the cluster. */
  lemma Vanishes(s: State, t: State, p: Status, q: string) returns (u: State)
    requires Reaches(s, t) && During(t, p, p, q, true, ASKED)
    ensures Reaches(s, u) && u.cloud == t.cloud.(mine := {}, foreign := false) && SameLedger(u, t)
    ensures During(u, p, p, q, true, MISSED)
  {
    u := Happen(s, t, Drift({}, false));
    u := FindsNone(s, u, p, p, q, true, ASKED);
  }

  lemma RolesUnder(q: string)
    requires q == "x" || q == "y"
    ensures RolesOf({ROLE}, q) == if q == "x" then {ROLE} else {}
  {
    if q == "y" {
      assert ROLE.prefix == "x" && "x"[0] != "y"[0];
    }
  }

  /** Deletes the one role under the prefix. */
  lemma ClearsRoles(s: State, t: State, p: Status, facts: set<Fact>) returns (u: State)
    requires Reaches(s, t) && During(t, p, p, "x", true, facts) && SawMissing in facts && FinalizerOn in facts
    requires !Has(p, OperatorRolesDeleted) && t.cloud == SERVED
    ensures Reaches(s, u) && During(u, p, p, "x", true, facts + {RolesGone}) && SameLedger(u, t)
    ensures u.cloud == SERVED.(roles := {}, grants := {})
  {
    RolesUnder("x");
    u := Call(s, t, ListRoles("x", {ROLE}));
    u := Call(s, u, RoleDelete(ROLE, Accepted));
    assert {ROLE} - {ROLE} == {} && (set g | g in {GRANT} && g.role != ROLE) == {};
    u := Done(s, u, p, "x", facts);
  }

  lemma Done(s: State, t: State, p: Status, q: string, facts: set<Fact>) returns (u: State)
    requires Reaches(s, t) && During(t, p, p, q, true, facts) && SawMissing in facts && FinalizerOn in facts
    requires RolesOf(t.cloud.roles, q) == {}
    ensures Reaches(s, u) && During(u, p, p, q, true, facts + {RolesGone}) && SameLedger(u, t) && u.cloud == t.cloud
  {
    u := Call(s, t, RolesDone);
  }

  /** Finds no role under a prefix that is not theirs. */
  lemma MissesRoles(s: State, t: State, p: Status, facts: set<Fact>) returns (u: State)
    requires Reaches(s, t) && During(t, p, p, "y", true, facts) && SawMissing in facts && FinalizerOn in facts
    requires t.cloud == SERVED
    ensures Reaches(s, u) && During(u, p, p, "y", true, facts + {RolesGone}) && SameLedger(u, t) && u.cloud == SERVED
  {
    RolesUnder("y");
    u := Call(s, t, ListRoles("y", {}));
    u := Done(s, u, p, "y", facts);
  }

  const L1 := [DELETING, CREATED, UNINSTALLING]
  const L2 := L1 + [NO_ROLES]
  const L3 := L2 + [NO_CONFIG]
  const L4 := L3 + [NO_PROVIDER]

  lemma Torn()
    ensures IsSet(NO_ROLES, L2) && !IsSet(NO_CONFIG, L2)
    ensures IsSet(NO_ROLES, L3) && IsSet(NO_CONFIG, L3) && !IsSet(NO_PROVIDER, L3)
    ensures IsSet(NO_ROLES, L4) && IsSet(NO_CONFIG, L4) && IsSet(NO_PROVIDER, L4)
  {
    assert L2[3] == L3[3] == L4[3] == NO_ROLES && L3[4] == L4[4] == NO_CONFIG && L4[5] == NO_PROVIDER;
  }

  lemma NotesRoles(s: State, t: State, p: Status, q: string, facts: set<Fact>) returns (u: State)
    requires Reaches(s, t) && During(t, p, p, q, true, facts) && p.conditions == L1 && RolesGone in facts
    ensures Reaches(s, u) && u.cloud == t.cloud && SameLedger(u, t)
    ensures During(u, p.(conditions := L2), p.(conditions := L2), q, true, facts)
  {
    Appends(L1, NO_ROLES);
    u := Noted(s, t, p, p, q, true, facts, NO_ROLES, L2);
  }

  lemma ClearsConfig(s: State, t: State, p: Status, q: string, facts: set<Fact>) returns (u: State)
    requires Reaches(s, t) && During(t, p, p, q, true, facts) && SawMissing in facts && FinalizerOn in facts
    requires p.conditions == L2 && p.oidcConfigID == "o" && t.cloud.configs == {"o"}
    ensures Reaches(s, u) && u.cloud == t.cloud.(configs := {}) && SameLedger(u, t)
    ensures During(u, p, p, q, true, facts + {ConfigGone})
  {
    Torn();
    u := Call(s, t, ConfigDelete("o", Accepted));
    assert {"o"} - {"o"} == {};
  }

  lemma NotesConfig(s: State, t: State, p: Status, q: string, facts: set<Fact>) returns (u: State)
    requires Reaches(s, t) && During(t, p, p, q, true, facts) && p.conditions == L2 && ConfigGone in facts
    ensures Reaches(s, u) && u.cloud == t.cloud && SameLedger(u, t)
    ensures During(u, p.(conditions := L3), p.(conditions := L3), q, true, facts)
  {
    Appends(L2, NO_CONFIG);
    u := Noted(s, t, p, p, q, true, facts, NO_CONFIG, L3);
  }

  lemma ClearsProvider(s: State, t: State, p: Status, q: string, facts: set<Fact>) returns (u: State)
    requires Reaches(s, t) && During(t, p, p, q, true, facts) && SawMissing in facts && FinalizerOn in facts
    requires p.conditions == L3 && p.oidcProviderARN == "p" && t.cloud.providers == {"p"}
    ensures Reaches(s, u) && u.cloud == t.cloud.(providers := {}) && SameLedger(u, t)
    ensures During(u, p, p, q, true, facts + {ProviderGone})
  {
    Torn();
    u := Call(s, t, ProviderDelete("p", Accepted));
    assert {"p"} - {"p"} == {};
  }

  lemma NotesProvider(s: State, t: State, p: Status, q: string, facts: set<Fact>) returns (u: State)
    requires Reaches(s, t) && During(t, p, p, q, true, facts) && p.conditions == L3 && ProviderGone in facts
    ensures Reaches(s, u) && u.cloud == t.cloud && SameLedger(u, t)
    ensures During(u, p.(conditions := L4), p.(conditions := L4), q, true, facts)
  {
    Appends(L3, NO_PROVIDER);
    u := Noted(s, t, p, p, q, true, facts, NO_PROVIDER, L4);
  }

  lemma LetsGo(s: State, t: State, p: Status, q: string, facts: set<Fact>) returns (u: State)
    requires Reaches(s, t) && During(t, p, p, q, true, facts) && SawMissing in facts && p.conditions == L4
    ensures Reaches(s, u) && u.obj.gone && u.cloud == t.cloud && SameLedger(u, t)
  {
    Torn();
    u := Happen(s, t, RemoveFinalizer(Accepted));
  }

  /** DestroyOIDC and the end, once the roles are dealt with. */
  lemma Ends(s: State, t: State, p: Status, q: string, facts: set<Fact>) returns (u: State)
    requires Reaches(s, t) && During(t, p, p, q, true, facts) && SawMissing in facts && FinalizerOn in facts
    requires p.conditions == L1 && RolesGone in facts && p.oidcConfigID == "o" && p.oidcProviderARN == "p"
    requires t.cloud.configs == {"o"} && t.cloud.providers == {"p"}
    ensures Reaches(s, u) && u.obj.gone && SameLedger(u, t) && u.cloud == t.cloud.(configs := {}, providers := {})
  {
    u := NotesRoles(s, t, p, q, facts);
    u := ClearsConfig(s, u, p.(conditions := L2), q, facts);
    u := NotesConfig(s, u, p.(conditions := L2), q, facts + {ConfigGone});
    u := ClearsProvider(s, u, p.(conditions := L3), q, facts + {ConfigGone});
    u := NotesProvider(s, u, p.(conditions := L3), q, facts + {ConfigGone} + {ProviderGone});
    u := LetsGo(s, u, p.(conditions := L4), q, facts + {ConfigGone} + {ProviderGone});
  }

  /** From the scan to the cluster's disappearance. */
  lemma Outlives(s: State, t: State, p: Status, q: string) returns (u: State)
    requires Reaches(s, t) && During(t, p, p, q, true, SCANNED) && p.conditions == [DELETING] + [CREATED]
    requires t.cloud == LISTED
    ensures Reaches(s, u) && SameLedger(u, t) && u.cloud == SERVED
    ensures During(u, p.(conditions := L1), p.(conditions := L1), q, true, MISSED)
  {
    u := Uninstalls(s, t, p, q);
    u := Vanishes(s, u, p.(conditions := L1), q);
  }

  // ---- The histories ----

  /** A create request that fails after taking effect: the delete reconcile asks nobody to delete the
      cluster and waits for it to disappear. */
  lemma NeverDeleted()
    ensures Init(Fresh())
    ensures exists t :: Reaches(Fresh(), t) && t.obj.deleting && !t.obj.gone && t.run == Idle
                     && t.cloud.mine == {"c"} && t.ledger.lost == 0 && Unmarked(t)
  {
    var s := Fresh();
    var t := Orphans();
    var p := Stat([UPDATING], "", "o", "p", true, "x");
    assert p.conditions == [UPDATING] + [];
    t := Deletes(s, t, p, "x", []);
    t := Waits(s, t, p.(conditions := [DELETING] + []));
  }

  /** A swallowed patch of ClusterCreated, and no other fault: again nobody is asked to delete the
      cluster, although its ID is recorded. */
  lemma LostMarkNeverDeleted()
    ensures Init(Fresh())
    ensures exists t :: Reaches(Fresh(), t) && t.obj.deleting && !t.obj.gone && t.run == Idle
                     && t.cloud.mine == {"c"} && t.obj.persisted.clusterID == "c" && t.ledger.lost == 1 && Unmarked(t)
  {
    var s := Fresh();
    var t := Unmarks();
    var p := Stat([UPDATING], "c", "o", "p", true, "x");
    assert p.conditions == [UPDATING] + [];
    t := Deletes(s, t, p, "x", []);
    t := Waits(s, t, p.(conditions := [DELETING] + []));
  }

  /** A swallowed patch of the ID: OCM is asked to delete a cluster without an ID. */
  lemma BlankDelete()
    ensures Init(Fresh())
    ensures exists t :: Reaches(Fresh(), t) && Enabled(t, ClusterDelete("", Accepted))
                     && t.cloud.mine == {"c"} && t.ledger.lost == 1
  {
    var s := Fresh();
    var t := Creates(Applied, Swallowed);
    var p := Stat([UPDATING, CREATED], "", "o", "p", true, "x");
    assert p.conditions == [UPDATING] + [CREATED];
    t := Deletes(s, t, p, "x", [CREATED]);
    CreatedOnly();
    assert CanCall(t, ClusterDelete("", Accepted));
  }

  lemma Dies(s: State, t: State) returns (u: State)
    requires Reaches(s, t) && t.cloud == LISTED && Resting(t, Stat([UPDATING, CREATED], "c", "o", "p", true, "x"))
    ensures Reaches(s, u) && u.obj.gone && SameLedger(u, t) && u.cloud == NOTHING.(policies := {POLICY})
  {
    var p := Stat([UPDATING, CREATED], "c", "o", "p", true, "x");
    assert p.conditions == [UPDATING] + [CREATED];
    u := Deletes(s, t, p, "x", [CREATED]);
    u := Outlives(s, u, p.(conditions := [DELETING] + [CREATED]), "x");
    p := p.(conditions := L1);
    Appends(L1, NO_ROLES);
    u := ClearsRoles(s, u, p, MISSED);
    u := Ends(s, u, p, "x", MISSED + {RolesGone});
  }

  /** A whole life: a cluster with all that belongs to it is created, and all of it is deleted. */
  lemma WholeLife()
    ensures Init(Fresh())
    ensures exists t, u :: Reaches(Fresh(), t) && t.cloud == LISTED && Reaches(t, u) && u.obj.gone && u.ledger.lost == 0
                        && u.cloud == NOTHING.(policies := {POLICY})
  {
    var s := Fresh();
    var t := Creates(Applied, Applied);
    Reached(t);
    var u := Dies(t, t);
  }

  /** A swallowed patch of the generated prefix: the delete reconcile looks under another prefix, and
      the role is left behind. */
  lemma LostPrefixLeaves()
    ensures Init(Fresh())
    ensures exists t :: Reaches(Fresh(), t) && t.obj.gone && t.cloud.roles == {ROLE} && t.ledger.lost == 1
  {
    var s := Fresh();
    var t := Creates(Swallowed, Applied);
    var p := Stat([UPDATING, CREATED], "c", "o", "p", true, "");
    assert p.conditions == [UPDATING] + [CREATED];
    t := Deletes(s, t, p, "y", [CREATED]);
    t := Outlives(s, t, p.(rolesPrefix := "y", conditions := [DELETING] + [CREATED]), "y");
    p := p.(rolesPrefix := "y", conditions := L1);
    t := MissesRoles(s, t, p, MISSED);
    t := Ends(s, t, p, "y", MISSED + {RolesGone});
  }
}
