/** Access: resolving group and policy names to bindings, and strict binding ownership. */
module Bindings {
  import opened Options
  import opened Authentik
  import opened Desired
  import opened Lookups

  // Resolving names.

  /** Nothing but the group table has moved, and no group changed or left. */
  ghost predicate GroupStep(t0: Tables, e: Entry) {
    && (e.op.Read? || e.op.CreateGroup?)
    && e.after == t0.(groups := e.after.groups, next := e.after.next) && t0.next <= e.after.next
    && forall g | g in t0.groups :: g in e.after.groups && e.after.groups[g] == t0.groups[g]
  }

  ghost predicate GroupSteps(trace: seq<Entry>, n: nat, t0: Tables) {
    n <= |trace| && forall i | n <= i < |trace| :: GroupStep(t0, trace[i])
  }

  /** Every group that was added is among the names asked for. */
  ghost predicate GroupsAsked(t0: Tables, names: seq<string>, t: Tables) {
    forall g | g in t.groups && g !in t0.groups :: g in names
  }

  ghost predicate AllAsked(trace: seq<Entry>, n: nat, t0: Tables, names: seq<string>) {
    n <= |trace| && forall i | n <= i < |trace| :: GroupsAsked(t0, names, trace[i].after)
  }

  lemma CreateIsGroupStep(t0: Tables, t: Tables, name: string, after: Tables)
    requires t == t0 || GroupStep(t0, Entry(Read, t))
    requires after == t || (Apply(t, CreateGroup(name)).Applied? && after == Apply(t, CreateGroup(name)).tables)
    ensures GroupStep(t0, Entry(Read, after)) && GroupStep(t0, Entry(CreateGroup(name), after))
    ensures forall g | g in t.groups :: g in after.groups && after.groups[g] == t.groups[g]
    ensures Apply(t, CreateGroup(name)).Applied? <==> name !in t.groups
    ensures Apply(t, CreateGroup(name)).Applied? && after == Apply(t, CreateGroup(name)).tables ==> name in after.groups
    ensures !Apply(t, CreateGroup(name)).Absent?
    ensures forall names | GroupsAsked(t0, names, t) && name in names :: GroupsAsked(t0, names, after)
    ensures t == t0 ==> forall names :: GroupsAsked(t0, names, t)
  {
  }

  method ResolveGroups(api: Server, cfg: Config, res: Result, names: seq<string>)
    returns (err: Option<Code>, desired: seq<Key>)
    requires api.Valid()
    modifies api`tables, api`calls, api`trace, res`issues
    ensures api.Valid() && Reported(old(res.issues), res.issues, err)
    ensures old(api.trace) <= api.trace && old(api.calls) <= api.calls
    ensures GroupSteps(api.trace, |old(api.trace)|, old(api.tables))
    ensures GroupStep(old(api.tables), Entry(Read, api.tables))
    ensures AllAsked(api.trace, |old(api.trace)|, old(api.tables), names) && GroupsAsked(old(api.tables), names, api.tables)
    ensures err.None? ==> Known(names, api.tables.groups) && desired == GroupKeys(names, api.tables.groups)
    // Groups are created only under the opt-in, and only when one is missing.
    ensures (!cfg.createGroups || Known(names, old(api.tables).groups)) ==>
              api.tables == old(api.tables) && Reads(api.trace, |old(api.trace)|, old(api.tables))
    ensures err == Some(GroupMissing) ==> !cfg.createGroups && !Known(names, api.tables.groups)
    ensures err in {None, Some(GroupMissing), Some(ApiError)}
    ensures Calm(api.env, old(api.calls)) ==> err != Some(ApiError)
  {
    hide WellFormed, GroupStep, GroupsAsked, Errors, Apply;
    ghost var t0, n := api.tables, |api.trace|;
    CreateIsGroupStep(t0, t0, "", t0);
    desired := [];
    for i := 0 to |names|
      invariant api.Valid() && Errors(res.issues) == Errors(old(res.issues))
      invariant old(api.trace) <= api.trace && old(api.calls) <= api.calls
      invariant GroupSteps(api.trace, n, t0) && GroupStep(t0, Entry(Read, api.tables))
      invariant AllAsked(api.trace, n, t0, names) && GroupsAsked(t0, names, api.tables)
      invariant |desired| == i
      invariant forall j | 0 <= j < i :: names[j] in api.tables.groups && desired[j] == GroupKey(api.tables.groups[names[j]])
      invariant (!cfg.createGroups || Known(names, t0.groups)) ==> api.tables == t0 && Reads(api.trace, n, t0)
    {
      var key;
      err, key := ResolveGroup(api, cfg, res, names[i], t0, n, names);
      if err.Some? {
        return;
      }
      desired := desired + [key];
    }
    return None, desired;
  }

  /** One name of the list `names`: read, and created if that is allowed. */
  method ResolveGroup(api: Server, cfg: Config, res: Result, name: string, ghost t0: Tables, ghost n: nat, ghost names: seq<string>)
    returns (err: Option<Code>, key: Key)
    requires api.Valid() && name in names
    requires GroupSteps(api.trace, n, t0) && GroupStep(t0, Entry(Read, api.tables))
    requires AllAsked(api.trace, n, t0, names) && GroupsAsked(t0, names, api.tables)
    modifies api`tables, api`calls, api`trace, res`issues
    ensures api.Valid() && Reported(old(res.issues), res.issues, err)
    ensures old(api.trace) <= api.trace && old(api.calls) <= api.calls
    ensures GroupSteps(api.trace, n, t0) && GroupStep(t0, Entry(Read, api.tables))
    ensures AllAsked(api.trace, n, t0, names) && GroupsAsked(t0, names, api.tables)
    ensures forall g | g in old(api.tables).groups :: g in api.tables.groups && api.tables.groups[g] == old(api.tables).groups[g]
    ensures err.None? ==> name in api.tables.groups && key == GroupKey(api.tables.groups[name])
    ensures !cfg.createGroups || name in old(api.tables).groups ==>
              api.tables == old(api.tables) && Reads(api.trace, |old(api.trace)|, old(api.tables))
    ensures err == Some(GroupMissing) ==> !cfg.createGroups && name !in api.tables.groups
    ensures err in {None, Some(GroupMissing), Some(ApiError)}
    ensures Calm(api.env, old(api.calls)) ==> err != Some(ApiError)
  {
    hide WellFormed, GroupStep, GroupsAsked, Errors, Apply;
    key := GroupKey("");
    ghost var before := api.tables;
    var found := api.Fetch(Lookup(api.tables.groups, name));
    if found.Unreachable? {
      err := res.Fail(ApiError);
      return;
    }
    if found.value.Some? {
      return None, GroupKey(found.value.value);
    }
    if !cfg.createGroups {
      var _ := api.Fetch(api.tables.groups);
      err := res.Fail(GroupMissing);
      return;
    }
    var created := api.Commit(CreateGroup(name));
    CreateIsGroupStep(t0, before, name, api.tables);
    if !created.Written? {
      err := res.Fail(ApiError);
      return;
    }
    res.Note(Warning, GroupCreated);
    return None, GroupKey(api.tables.groups[name]);
  }

  method ResolvePolicies(api: Server, res: Result, names: seq<string>) returns (err: Option<Code>, desired: seq<Key>)
    requires api.Valid()
    modifies api`calls, api`trace, res`issues
    ensures Reported(old(res.issues), res.issues, err)
    ensures Looked(api, err != Some(ApiError))
    ensures err.None? ==> Known(names, api.lib.policies) && desired == PolicyKeys(names, api.lib.policies)
    ensures err == Some(PolicyMissing) ==> !Known(names, api.lib.policies)
    ensures err in {None, Some(PolicyMissing), Some(ApiError)}
  {
    desired := [];
    for i := 0 to |names|
      invariant res.issues == old(res.issues) && old(api.calls) <= api.calls
      invariant old(api.trace) <= api.trace && Reads(api.trace, |old(api.trace)|, api.tables)
      invariant |desired| == i
      invariant forall j | 0 <= j < i :: names[j] in api.lib.policies && desired[j] == PolicyKey(api.lib.policies[names[j]])
    {
      var found := api.Fetch(Lookup(api.lib.policies, names[i]));
      if found.Unreachable? {
        err := res.Fail(ApiError);
        return;
      }
      if found.value.None? {
        err := res.Fail(PolicyMissing);
        return;
      }
      desired := desired + [PolicyKey(found.value.value)];
    }
    return None, desired;
  }

  /** The keys of resolved names are never empty, so a binding made for one carries that key. */
  lemma WantedKeysAreReal(cfg: Config, api: Server, s: Spec)
    requires api.Valid() && Resolvable(cfg, api.lib, s, api.tables.groups)
    ensures forall k | k in WantedKeys(cfg, api.lib, s, api.tables.groups) :: k.pk != ""
  {
  }

  // Strict ownership.

  /** What the adoption gate shows as the binding diff: keys to add, bindings to remove. */
  method BindingDiff(bindings: map<nat, Binding>, existing: seq<nat>, desired: seq<Key>)
    returns (adds: seq<Key>, removes: seq<nat>)
    requires forall i | 0 <= i < |existing| :: existing[i] in bindings
    ensures forall k :: k in adds <==> k in desired && forall i | 0 <= i < |existing| :: KeyOf(bindings[existing[i]]) != Some(k)
    ensures forall b :: b in removes <==> b in existing && Stray(bindings[b], desired)
  {
    var existingKeys := {};
    for i := 0 to |existing|
      invariant forall j | 0 <= j < i :: KeyOf(bindings[existing[j]]).Some? ==> KeyOf(bindings[existing[j]]).value in existingKeys
      invariant forall k | k in existingKeys :: exists j | 0 <= j < i :: KeyOf(bindings[existing[j]]) == Some(k)
    {
      if KeyOf(bindings[existing[i]]).Some? {
        existingKeys := existingKeys + {KeyOf(bindings[existing[i]]).value};
      }
    }
    adds, removes := [], [];
    for i := 0 to |desired|
      invariant forall k :: k in adds <==> k in desired[..i] && k !in existingKeys
    {
      assert desired[..i + 1] == desired[..i] + [desired[i]];
      if desired[i] !in existingKeys {
        adds := adds + [desired[i]];
      }
    }
    assert desired[..|desired|] == desired;
    for i := 0 to |existing|
      invariant forall b :: b in removes <==> b in existing[..i] && Stray(bindings[b], desired)
    {
      assert existing[..i + 1] == existing[..i] + [existing[i]];
      if Stray(bindings[existing[i]], desired) {
        removes := removes + [existing[i]];
      }
    }
    assert existing[..|existing|] == existing;
  }

  /** Only bindings of `app` have moved: those that were wanted stay as they are, and what is
      new is wanted. */
  ghost predicate BindingStep(t0: Tables, app: nat, wanted: seq<Key>, e: Entry) {
    && (e.op.Read? || e.op.DeleteBinding? || e.op.CreateBinding?)
    && e.after == t0.(bindings := e.after.bindings, next := e.after.next) && t0.next <= e.after.next
    && (forall b | b in t0.bindings && (t0.bindings[b].target != app || !Stray(t0.bindings[b], wanted)) ::
          b in e.after.bindings)
    && (forall b | b in e.after.bindings && b in t0.bindings :: e.after.bindings[b] == t0.bindings[b])
    && (forall b | b in e.after.bindings && b !in t0.bindings ::
          t0.next <= b < e.after.next && e.after.bindings[b].target == app && !Stray(e.after.bindings[b], wanted))
    && (e.op.CreateBinding? ==> NoStray(e.after.bindings, app, wanted))
  }

  ghost predicate BindingSteps(trace: seq<Entry>, n: nat, t0: Tables, app: nat, wanted: seq<Key>) {
    n <= |trace| && forall i | n <= i < |trace| :: BindingStep(t0, app, wanted, trace[i])
  }

  /** In every state of a run a bound key is old or wanted, and wanted once nothing stray is left. */
  lemma KeysStayWithin(t0: Tables, app: nat, wanted: seq<Key>, e: Entry, key: Key)
    requires BindingStep(t0, app, wanted, e) && Bound(e.after.bindings, app, key)
    ensures Bound(t0.bindings, app, key) || key in wanted
    ensures NoStray(e.after.bindings, app, wanted) ==> key in wanted
  {
    var b :| b in e.after.bindings && e.after.bindings[b].target == app && KeyOf(e.after.bindings[b]) == Some(key);
    assert key in wanted <==> !Stray(e.after.bindings[b], wanted);
  }

  lemma StepsCompose(trace: seq<Entry>, n: nat, m: nat, t0: Tables, t1: Tables, app: nat, wanted: seq<Key>)
    requires RowsBelow(t0) && n <= m <= |trace| && BindingSteps(trace[..m], n, t0, app, wanted)
    requires BindingStep(t0, app, wanted, Entry(Read, t1)) && BindingSteps(trace, m, t1, app, wanted)
    ensures BindingSteps(trace, n, t0, app, wanted)
  {
    forall i | n <= i < |trace| ensures BindingStep(t0, app, wanted, trace[i]) {
      if i < m {
        assert trace[..m][i] == trace[i];
      } else {
        StepCompose(t0, t1, app, wanted, trace[i]);
      }
    }
  }

  lemma StepCompose(t0: Tables, t1: Tables, app: nat, wanted: seq<Key>, e: Entry)
    requires RowsBelow(t0) && BindingStep(t0, app, wanted, Entry(Read, t1)) && BindingStep(t1, app, wanted, e)
    ensures BindingStep(t0, app, wanted, e)
  {
  }

  /** Deleting a stray, or failing to, is a step; so is creating a wanted binding when nothing
      stray is left. */
  lemma WriteIsStep(t0: Tables, t: Tables, app: nat, wanted: seq<Key>, op: Op, after: Tables)
    requires BindingStep(t0, app, wanted, Entry(Read, t))
    requires op.Read? || op.DeleteBinding? || op.CreateBinding?
    requires after == t || (Apply(t, op).Applied? && after == Apply(t, op).tables)
    requires op.DeleteBinding? ==> op.pk in t0.bindings && t0.bindings[op.pk].target == app && Stray(t0.bindings[op.pk], wanted)
    requires op.CreateBinding? ==> op.binding.target == app && !Stray(op.binding, wanted) && NoStray(t.bindings, app, wanted)
    requires RowsBelow(t0) && RowsBelow(t)
    ensures BindingStep(t0, app, wanted, Entry(op, after)) && BindingStep(t0, app, wanted, Entry(Read, after))
    ensures op.CreateBinding? ==> NoStray(after.bindings, app, wanted)
    ensures op.CreateBinding? && op.binding.target < t.next ==> Apply(t, op).Applied?
    ensures op.CreateBinding? ==> forall b | b in t.bindings :: b in after.bindings && after.bindings[b] == t.bindings[b]
    ensures op.DeleteBinding? ==> forall b | b in after.bindings :: b in t.bindings && after.bindings[b] == t.bindings[b]
    ensures op.DeleteBinding? ==> forall b | b in t.bindings && b != op.pk :: b in after.bindings
    ensures op.DeleteBinding? && Apply(t, op).Applied? && after == Apply(t, op).tables ==> op.pk !in after.bindings
    ensures op.CreateBinding? && Apply(t, op).Applied? && after == Apply(t, op).tables ==>
              Apply(t, op).pk in after.bindings && after.bindings[Apply(t, op).pk] == op.binding
  {
  }

  lemma ValidMeans(api: Server)
    requires api.Valid()
    ensures NamesUnique(api.tables) && RowsBelow(api.tables) && AppsDistinct(api.tables) && GroupsReal(api.tables)
  {
  }

  lemma BoundGrows(before: map<nat, Binding>, after: map<nat, Binding>, app: nat)
    requires forall b | b in before :: b in after && after[b] == before[b]
    ensures forall k | Bound(before, app, k) :: Bound(after, app, k)
  {
  }

  lemma NoStrayStays(t0: Tables, app: nat, wanted: seq<Key>, e: Entry)
    requires NoStray(t0.bindings, app, wanted) && BindingStep(t0, app, wanted, e)
    ensures NoStray(e.after.bindings, app, wanted)
  {
  }

  /** Half-way through the listed rows: the first `i` are judged, and only strays are gone. */
  ghost predicate Sifted(t0: Tables, t: Tables, app: nat, wanted: seq<Key>, rows: seq<nat>, i: nat, present: set<Key>) {
    && i <= |rows|
    && (forall b :: b in rows <==> b in t0.bindings && t0.bindings[b].target == app)
    && (forall j, k | 0 <= j < k < |rows| :: rows[j] != rows[k])
    && (forall b | b in t.bindings :: b in t0.bindings && t.bindings[b] == t0.bindings[b])
    && (forall b | b in t0.bindings && b !in rows[..i] :: b in t.bindings)
    && (forall b | b in rows[..i] :: b in t0.bindings && (b in t.bindings <==> !Stray(t0.bindings[b], wanted)))
    && (forall b | b in rows[..i] && !Stray(t0.bindings[b], wanted) :: KeyOf(t0.bindings[b]).value in present)
    && (forall k | k in present :: k in wanted && exists b | b in rows[..i] :: b in t0.bindings && KeyOf(t0.bindings[b]) == Some(k))
  }

  lemma SiftNone(t0: Tables, app: nat, wanted: seq<Key>, rows: seq<nat>)
    requires forall b :: b in rows <==> b in t0.bindings && t0.bindings[b].target == app
    requires forall j, k | 0 <= j < k < |rows| :: rows[j] != rows[k]
    ensures Sifted(t0, t0, app, wanted, rows, 0, {})
  {
  }

  /** The next row is still there to delete. */
  lemma Siftable(t0: Tables, t: Tables, app: nat, wanted: seq<Key>, rows: seq<nat>, i: nat, present: set<Key>)
    requires i < |rows| && Sifted(t0, t, app, wanted, rows, i, present)
    ensures Apply(t, DeleteBinding(rows[i])) == Applied(t.(bindings := t.bindings - {rows[i]}), rows[i])
  {
    assert rows[i] in rows && rows[i] !in rows[..i];
  }

  lemma StrayFound(bindings: map<nat, Binding>, app: nat, wanted: seq<Key>, b: nat)
    requires b in bindings && bindings[b].target == app && Stray(bindings[b], wanted)
    ensures !NoStray(bindings, app, wanted)
  {
  }

  lemma SiftOne(t0: Tables, t: Tables, app: nat, wanted: seq<Key>, rows: seq<nat>, i: nat, present: set<Key>, after: Tables, seen: set<Key>)
    requires i < |rows| && Sifted(t0, t, app, wanted, rows, i, present)
    requires rows[i] in t0.bindings
    requires if Stray(t0.bindings[rows[i]], wanted) then seen == present && after.bindings == t.bindings - {rows[i]}
             else seen == present + {KeyOf(t0.bindings[rows[i]]).value} && after.bindings == t.bindings
    ensures Sifted(t0, after, app, wanted, rows, i + 1, seen)
  {
    assert rows[..i + 1] == rows[..i] + [rows[i]];
    assert rows[i] !in rows[..i];
  }

  /** Once every listed row is sifted, what the pass saw as present is what is bound. */
  lemma SiftedIsClean(t0: Tables, t: Tables, app: nat, wanted: seq<Key>, rows: seq<nat>, present: set<Key>)
    requires Sifted(t0, t, app, wanted, rows, |rows|, present)
    ensures NoStray(t.bindings, app, wanted)
    ensures forall k | k in wanted :: k in present <==> Bound(t.bindings, app, k)
    ensures t.bindings == t0.bindings ==> NoStray(t0.bindings, app, wanted)
  {
    assert rows[..|rows|] == rows;
    forall k | k in present ensures Bound(t.bindings, app, k) {
      var b :| b in rows && b in t0.bindings && KeyOf(t0.bindings[b]) == Some(k);
      assert !Stray(t0.bindings[b], wanted) && b in t.bindings;
    }
    forall k | k in wanted && Bound(t.bindings, app, k) ensures k in present {
      var b :| b in t.bindings && t.bindings[b].target == app && KeyOf(t.bindings[b]) == Some(k);
      assert b in rows;
    }
  }

  lemma NextGrows(t0: Tables, app: nat, wanted: seq<Key>, e: Entry)
    requires BindingStep(t0, app, wanted, e)
    ensures t0.next <= e.after.next
  {
  }

  lemma NowBound(bindings: map<nat, Binding>, app: nat, b: nat)
    requires b in bindings && bindings[b].target == app && KeyOf(bindings[b]).Some?
    ensures Bound(bindings, app, KeyOf(bindings[b]).value)
  {
  }

  /** Deletes every binding of `app` that is not wanted; `present` is the set of wanted keys that
      were already bound. */
  method RemoveStrays(api: Server, res: Result, app: nat, desired: seq<Key>)
    returns (err: Option<Code>, present: set<Key>, removed: bool)
    requires api.Valid()
    modifies api`tables, api`calls, api`trace, res`issues
    ensures api.Valid() && Reported(old(res.issues), res.issues, err)
    ensures old(api.trace) <= api.trace && old(api.calls) <= api.calls
    ensures BindingSteps(api.trace, |old(api.trace)|, old(api.tables), app, desired)
    ensures BindingStep(old(api.tables), app, desired, Entry(Read, api.tables))
    ensures forall i | |old(api.trace)| <= i < |api.trace| :: !api.trace[i].op.CreateBinding?
    ensures err.None? ==> NoStray(api.tables.bindings, app, desired)
    ensures err.None? ==> forall k | k in desired :: k in present <==> Bound(api.tables.bindings, app, k)
    ensures NoStray(old(api.tables).bindings, app, desired) ==>
              api.tables == old(api.tables) && Reads(api.trace, |old(api.trace)|, old(api.tables))
    ensures err.None? && Reads(api.trace, |old(api.trace)|, old(api.tables)) ==> NoStray(old(api.tables).bindings, app, desired)
    ensures err in {None, Some(ApiError)} && (Calm(api.env, old(api.calls)) ==> err.None?)
  {
    hide WellFormed, BindingStep, Errors, Bound, NoStray, Apply, Sifted;
    ghost var t0, n := api.tables, |api.trace|;
    ValidMeans(api);
    WriteIsStep(t0, t0, app, desired, Read, t0);
    present, removed := {}, false;
    var existing := api.ListBindings(app);
    if existing.Unreachable? {
      err := res.Fail(ApiError);
      return;
    }
    var rows, listed := existing.value, api.tables.bindings;
    assert Sifted(t0, t0, app, desired, rows, 0, {}) by { SiftNone(t0, app, desired, rows); }
    for i := 0 to |rows|
      invariant api.Valid() && res.issues == old(res.issues)
      invariant old(api.trace) <= api.trace && old(api.calls) <= api.calls
      invariant BindingSteps(api.trace, n, t0, app, desired) && BindingStep(t0, app, desired, Entry(Read, api.tables))
      invariant forall j | n <= j < |api.trace| :: !api.trace[j].op.CreateBinding?
      invariant Sifted(t0, api.tables, app, desired, rows, i, present)
      invariant if removed then !NoStray(t0.bindings, app, desired) && !Reads(api.trace, n, t0)
                else api.tables == t0 && Reads(api.trace, n, t0)
    {
      ghost var before, was := api.tables, present;
      if !Stray(listed[rows[i]], desired) {
        present := present + {KeyOf(listed[rows[i]]).value};
      } else {
        StrayFound(t0.bindings, app, desired, rows[i]);
        Siftable(t0, before, app, desired, rows, i, present);
        ValidMeans(api);
        var gone := api.Commit(DeleteBinding(rows[i]));
        NotReads(api.trace, n, t0);
        WriteIsStep(t0, before, app, desired, DeleteBinding(rows[i]), api.tables);
        if !gone.Written? {
          err := res.Fail(ApiError);
          return;
        }
        removed := true;
      }
      SiftOne(t0, before, app, desired, rows, i, was, api.tables, present);
    }
    SiftedIsClean(t0, api.tables, app, desired, rows, present);
    err := None;
  }

  function BindingFor(app: nat, key: Key, order: nat): (b: Binding)
    requires key.pk != ""
    ensures b.target == app && KeyOf(b) == Some(key)
  {
    match key
    case GroupKey(pk) => Binding(app, Some(pk), None, order)
    case PolicyKey(pk) => Binding(app, None, Some(pk), order)
  }

  /** Creates a binding for each desired key that is not already bound. */
  method CreateMissing(api: Server, res: Result, app: nat, desired: seq<Key>, present: set<Key>) returns (err: Option<Code>)
    requires api.Valid() && app < api.tables.next && forall k | k in desired :: k.pk != ""
    requires NoStray(api.tables.bindings, app, desired)
    requires forall k | k in desired :: k in present <==> Bound(api.tables.bindings, app, k)
    modifies api`tables, api`calls, api`trace, res`issues
    ensures api.Valid() && Reported(old(res.issues), res.issues, err)
    ensures old(api.trace) <= api.trace && old(api.calls) <= api.calls
    ensures BindingSteps(api.trace, |old(api.trace)|, old(api.tables), app, desired)
    ensures BindingStep(old(api.tables), app, desired, Entry(Read, api.tables))
    ensures err.None? ==> forall k | k in desired :: Bound(api.tables.bindings, app, k)
    ensures (forall k | k in desired :: k in present) ==>
              api.tables == old(api.tables) && Reads(api.trace, |old(api.trace)|, old(api.tables))
    ensures err.None? && Reads(api.trace, |old(api.trace)|, old(api.tables)) ==> forall k | k in desired :: k in present
    ensures err in {None, Some(ApiError)} && (Calm(api.env, old(api.calls)) ==> err.None?)
  {
    hide WellFormed, BindingStep, Errors, Bound, NoStray, Apply, KeyOf;
    ghost var t0, n := api.tables, |api.trace|;
    ValidMeans(api);
    WriteIsStep(t0, t0, app, desired, Read, t0);
    ghost var wrote := false;
    for i := 0 to |desired|
      invariant api.Valid() && res.issues == old(res.issues)
      invariant old(api.trace) <= api.trace && old(api.calls) <= api.calls
      invariant BindingSteps(api.trace, n, t0, app, desired) && BindingStep(t0, app, desired, Entry(Read, api.tables))
      invariant app < api.tables.next && NoStray(api.tables.bindings, app, desired)
      invariant forall k | Bound(t0.bindings, app, k) :: Bound(api.tables.bindings, app, k)
      invariant forall j | 0 <= j < i :: Bound(api.tables.bindings, app, desired[j])
      invariant wrote ==> !Reads(api.trace, n, t0) && exists k | k in desired :: k !in present
      invariant !wrote ==> api.tables == t0 && Reads(api.trace, n, t0) && forall j | 0 <= j < i :: desired[j] in present
    {
      assert desired[i] in desired;
      if desired[i] !in present {
        wrote := true;
        var body := BindingFor(app, desired[i], i);
        ghost var before := api.tables;
        ValidMeans(api);
        var created := api.Commit(CreateBinding(body));
        NotReads(api.trace, n, t0);
        WriteIsStep(t0, before, app, desired, CreateBinding(body), api.tables);
        NextGrows(t0, app, desired, Entry(Read, api.tables));
        BoundGrows(before.bindings, api.tables.bindings, app);
        if !created.Written? {
          err := res.Fail(ApiError);
          return;
        }
        NowBound(api.tables.bindings, app, created.pk);
      }
    }
    err := None;
  }

  /** Makes the wanted set the binding set of `app`: strays go first, then what is missing is
      created, in the order of the labels. */
  method ConvergeBindings(api: Server, res: Result, app: nat, desired: seq<Key>) returns (err: Option<Code>)
    requires api.Valid() && app < api.tables.next && forall k | k in desired :: k.pk != ""
    modifies api`tables, api`calls, api`trace, res`issues
    ensures api.Valid() && Reported(old(res.issues), res.issues, err)
    ensures old(api.trace) <= api.trace && old(api.calls) <= api.calls
    ensures BindingSteps(api.trace, |old(api.trace)|, old(api.tables), app, desired)
    ensures BindingStep(old(api.tables), app, desired, Entry(Read, api.tables))
    // Nothing stray is bound from the first creation on.
    ensures forall i, j | |old(api.trace)| <= i <= j < |api.trace| && api.trace[i].op.CreateBinding? ::
              NoStray(api.trace[j].after.bindings, app, desired)
    ensures err.None? ==> ExactlyBound(api.tables.bindings, app, desired)
    // The gate's diff predicts this pass: it is empty exactly when nothing is written.
    ensures ExactlyBound(old(api.tables).bindings, app, desired) ==>
              api.tables == old(api.tables) && Reads(api.trace, |old(api.trace)|, old(api.tables))
    ensures err.None? && Reads(api.trace, |old(api.trace)|, old(api.tables)) ==>
              ExactlyBound(old(api.tables).bindings, app, desired)
    ensures err in {None, Some(ApiError)} && (Calm(api.env, old(api.calls)) ==> err.None?)
  {
    hide WellFormed, BindingStep, Errors, Bound, NoStray;
    ghost var t0, n := api.tables, |api.trace|;
    assert RowsBelow(t0) by { ValidMeans(api); }
    var present, removed;
    err, present, removed := RemoveStrays(api, res, app, desired);
    if err.Some? {
      return;
    }
    ghost var t1, m := api.tables, |api.trace|;
    NextGrows(t0, app, desired, Entry(Read, t1));
    err := CreateMissing(api, res, app, desired, present);
    StepsCompose(api.trace, n, m, t0, t1, app, desired);
    StepCompose(t0, t1, app, desired, Entry(Read, api.tables));
    forall i | m <= i < |api.trace| ensures NoStray(api.trace[i].after.bindings, app, desired) {
      NoStrayStays(t1, app, desired, api.trace[i]);
    }
    NoStrayStays(t1, app, desired, Entry(Read, api.tables));
    if err.None? && removed {
      res.Note(Warning, BindingRemoved);
    }
  }
}
