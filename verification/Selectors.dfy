/**
 Which instances of a cluster an InstanceSelector picks: the restore controller resolves
 it against the spec, the user controller against the status.
 */
module Selectors {
  import opened Wrappers
  import opened ApiTypes

  /** What LabelSelectorAsSelector accepts: a value list exactly when the operator takes one. */
  predicate ValidRequirement(r: Requirement) {
    match r.op
    case In | NotIn => r.values != []
    case Exists | DoesNotExist => r.values == []
  }

  predicate ValidSelector(s: LabelSelector) {
    forall r | r in s.matchExpressions :: ValidRequirement(r)
  }

  predicate MeetsRequirement(r: Requirement, labels: map<string, string>) {
    match r.op
    case In => r.key in labels && labels[r.key] in r.values
    case NotIn => r.key in labels ==> labels[r.key] !in r.values
    case Exists => r.key in labels
    case DoesNotExist => r.key !in labels
  }

  predicate Matches(s: LabelSelector, labels: map<string, string>) {
    && (forall k | k in s.matchLabels :: k in labels && labels[k] == s.matchLabels[k])
    && (forall r | r in s.matchExpressions :: MeetsRequirement(r, labels))
  }

  /** The labels the restore controller gives an instance for matching. */
  function SpecLabels(instance: InstanceSpec): map<string, string> {
    map["instance" := instance.name, "role" := instance.role]
  }

  function WithRole(instances: seq<InstanceSpec>, role: string): seq<InstanceSpec> {
    if instances == [] then []
    else (if instances[0].role == role then [instances[0]] else []) + WithRole(instances[1..], role)
  }

  function WithLabels(instances: seq<InstanceSpec>, s: LabelSelector): seq<InstanceSpec> {
    if instances == [] then []
    else (if Matches(s, SpecLabels(instances[0])) then [instances[0]] else []) + WithLabels(instances[1..], s)
  }

  /** The first instance of that name. */
  function Find(instances: seq<InstanceSpec>, name: string): Option<InstanceSpec> {
    if instances == [] then None
    else if instances[0].name == name then Some(instances[0])
    else Find(instances[1..], name)
  }

  function FindAll(instances: seq<InstanceSpec>, names: seq<string>): Result<seq<InstanceSpec>> {
    if names == [] then Ok([])
    else
      var first, rest := Find(instances, names[0]), FindAll(instances, names[1..]);
      if first.None? || rest.Err? then Err else Ok([first.value] + rest.value)
  }

  /** getTargetInstances of controllers/postgresrestore_controller.go. */
  function RestoreTargets(instances: seq<InstanceSpec>, selector: Option<InstanceSelector>): Result<seq<InstanceSpec>> {
    if selector.None? then Ok(instances)
    else
      var s := selector.value;
      if s.names != [] then FindAll(instances, s.names)
      else if s.role != "" then
        var picked := WithRole(instances, s.role);
        if picked == [] then Err else Ok(picked)
      else if s.labelSelector.Some? then
        if ValidSelector(s.labelSelector.value) then Ok(WithLabels(instances, s.labelSelector.value)) else Err
      else Ok(instances)
  }

  /** The same names and roles in the same order, whatever else the instances say. */
  ghost predicate SameRoster(a: seq<InstanceSpec>, b: seq<InstanceSpec>) {
    |a| == |b| && forall i | 0 <= i < |a| :: a[i].name == b[i].name && a[i].role == b[i].role
  }

  lemma SameRosterRest(a: seq<InstanceSpec>, b: seq<InstanceSpec>)
    requires SameRoster(a, b) && a != []
    ensures a[0].name == b[0].name && a[0].role == b[0].role && SameRoster(a[1..], b[1..])
  {
  }

  lemma {:induction false} FindAlike(a: seq<InstanceSpec>, b: seq<InstanceSpec>, name: string)
    requires SameRoster(a, b)
    ensures var x, y := Find(a, name), Find(b, name);
            if x.Some? then y.Some? && SameRoster([x.value], [y.value]) else y.None?
  {
    if a != [] {
      SameRosterRest(a, b);
      FindAlike(a[1..], b[1..], name);
    }
  }

  lemma {:induction false} FindAllAlike(a: seq<InstanceSpec>, b: seq<InstanceSpec>, names: seq<string>)
    requires SameRoster(a, b)
    ensures var x, y := FindAll(a, names), FindAll(b, names);
            if x.Ok? then y.Ok? && SameRoster(x.value, y.value) else y.Err?
  {
    if names != [] {
      FindAlike(a, b, names[0]);
      FindAllAlike(a, b, names[1..]);
    }
  }

  lemma {:induction false} WithRoleAlike(a: seq<InstanceSpec>, b: seq<InstanceSpec>, role: string)
    requires SameRoster(a, b)
    ensures SameRoster(WithRole(a, role), WithRole(b, role))
  {
    if a != [] {
      SameRosterRest(a, b);
      WithRoleAlike(a[1..], b[1..], role);
    }
  }

  lemma {:induction false} WithLabelsAlike(a: seq<InstanceSpec>, b: seq<InstanceSpec>, s: LabelSelector)
    requires SameRoster(a, b)
    ensures SameRoster(WithLabels(a, s), WithLabels(b, s))
  {
    if a != [] {
      SameRosterRest(a, b);
      WithLabelsAlike(a[1..], b[1..], s);
      assert SpecLabels(a[0]) == SpecLabels(b[0]);
    }
  }

  /** Resolution reads names and roles only. */
  lemma TargetsAlike(a: seq<InstanceSpec>, b: seq<InstanceSpec>, selector: Option<InstanceSelector>)
    requires SameRoster(a, b)
    ensures var x, y := RestoreTargets(a, selector), RestoreTargets(b, selector);
            if x.Ok? then y.Ok? && SameRoster(x.value, y.value) else y.Err?
  {
    if selector.Some? {
      FindAllAlike(a, b, selector.value.names);
      WithRoleAlike(a, b, selector.value.role);
      if selector.value.labelSelector.Some? {
        WithLabelsAlike(a, b, selector.value.labelSelector.value);
      }
    }
  }

  lemma {:induction false} WithRoleSnoc(instances: seq<InstanceSpec>, role: string, i: nat)
    requires i < |instances|
    ensures WithRole(instances[..i + 1], role)
         == WithRole(instances[..i], role) + if instances[i].role == role then [instances[i]] else []
  {
    if i > 0 {
      WithRoleSnoc(instances[1..], role, i - 1);
      assert instances[..i + 1][1..] == instances[1..][..i] && instances[..i][1..] == instances[1..][..i - 1];
    }
  }

  lemma {:induction false} WithLabelsSnoc(instances: seq<InstanceSpec>, s: LabelSelector, i: nat)
    requires i < |instances|
    ensures WithLabels(instances[..i + 1], s)
         == WithLabels(instances[..i], s) + if Matches(s, SpecLabels(instances[i])) then [instances[i]] else []
  {
    if i > 0 {
      WithLabelsSnoc(instances[1..], s, i - 1);
      assert instances[..i + 1][1..] == instances[1..][..i] && instances[..i][1..] == instances[1..][..i - 1];
    }
  }

  /** The search of the inner loop at lines 206-212: the first instance of that name, if any. */
  method FindByName(instances: seq<InstanceSpec>, name: string) returns (found: Option<InstanceSpec>)
    ensures found == Find(instances, name)
    ensures found.Some? ==> found.value in instances && found.value.name == name
    ensures found.None? ==> forall instance | instance in instances :: instance.name != name
  {
    var i := 0;
    while i < |instances|
      invariant 0 <= i <= |instances|
      invariant forall j | 0 <= j < i :: instances[j].name != name
      invariant Find(instances[i..], name) == Find(instances, name)
    {
      if instances[i].name == name { return Some(instances[i]); }
      assert instances[i..][1..] == instances[i + 1..];
      i := i + 1;
    }
    return None;
  }

  function Prepend(front: seq<InstanceSpec>, back: Result<seq<InstanceSpec>>): Result<seq<InstanceSpec>> {
    if back.Err? then Err else Ok(front + back.value)
  }

  lemma PrependNothing(back: Result<seq<InstanceSpec>>)
    ensures Prepend([], back) == back
  {
    if back.Ok? {
      assert [] + back.value == back.value;
    }
  }

  lemma PrependMore(front: seq<InstanceSpec>, x: InstanceSpec, back: Result<seq<InstanceSpec>>)
    ensures Prepend(front, Prepend([x], back)) == Prepend(front + [x], back)
  {
    if back.Ok? {
      assert front + ([x] + back.value) == front + [x] + back.value;
    }
  }

  /** getTargetInstances, loop by loop. */
  method GetTargetInstances(instances: seq<InstanceSpec>, selector: Option<InstanceSelector>)
    returns (targets: Result<seq<InstanceSpec>>)
    ensures targets == RestoreTargets(instances, selector)
  {
    if selector.None? { return Ok(instances); }
    var s := selector.value;
    var picked: seq<InstanceSpec> := [];
    if |s.names| > 0 {
      var i := 0;
      assert s.names[0..] == s.names;
      PrependNothing(FindAll(instances, s.names));
      while i < |s.names|
        invariant 0 <= i <= |s.names|
        invariant FindAll(instances, s.names) == Prepend(picked, FindAll(instances, s.names[i..]))
      {
        var found := FindByName(instances, s.names[i]);
        assert s.names[i..][1..] == s.names[i + 1..];
        if found.None? { return Err; }
        PrependMore(picked, found.value, FindAll(instances, s.names[i + 1..]));
        picked := picked + [found.value];
        i := i + 1;
      }
      assert s.names[i..] == [] && picked + [] == picked;
      return Ok(picked);
    }
    if s.role != "" {
      var i := 0;
      while i < |instances|
        invariant 0 <= i <= |instances|
        invariant picked == WithRole(instances[..i], s.role)
      {
        WithRoleSnoc(instances, s.role, i);
        if instances[i].role == s.role { picked := picked + [instances[i]]; }
        i := i + 1;
      }
      assert instances[..i] == instances;
      if |picked| > 0 { return Ok(picked); }
      return Err;
    }
    if s.labelSelector.Some? {
      if !ValidSelector(s.labelSelector.value) { return Err; }
      var i := 0;
      while i < |instances|
        invariant 0 <= i <= |instances|
        invariant picked == WithLabels(instances[..i], s.labelSelector.value)
      {
        WithLabelsSnoc(instances, s.labelSelector.value, i);
        if Matches(s.labelSelector.value, SpecLabels(instances[i])) { picked := picked + [instances[i]]; }
        i := i + 1;
      }
      assert instances[..i] == instances;
      return Ok(picked);
    }
    return Ok(instances);
  }

  // ------------------------------------------------------------------ the user controller

  function NamesWithRole(statuses: seq<InstanceStatus>, role: string): seq<string> {
    if statuses == [] then []
    else (if statuses[0].role == role then [statuses[0].name] else []) + NamesWithRole(statuses[1..], role)
  }

  function NamesWithLabels(statuses: seq<InstanceStatus>, s: LabelSelector): seq<string> {
    if statuses == [] then []
    else (if Matches(s, statuses[0].labels) then [statuses[0].name] else []) + NamesWithLabels(statuses[1..], s)
  }

  function StatusNames(statuses: seq<InstanceStatus>): (names: seq<string>)
    ensures |names| == |statuses|
  {
    seq(|statuses|, i requires 0 <= i < |statuses| => statuses[i].name)
  }

  /** getTargetInstances of controllers/postgresuser_controller.go; names are taken unchecked. */
  function UserTargets(statuses: seq<InstanceStatus>, selector: Option<InstanceSelector>): Result<seq<string>> {
    if selector.None? then Ok(StatusNames(statuses))
    else
      var s := selector.value;
      if s.names != [] then Ok(s.names)
      else if s.role != "" then
        var picked := NamesWithRole(statuses, s.role);
        if picked == [] then Err else Ok(picked)
      else if s.labelSelector.Some? then
        if !ValidSelector(s.labelSelector.value) then Err
        else
          var picked := NamesWithLabels(statuses, s.labelSelector.value);
          if picked == [] then Err else Ok(picked)
      else Ok(StatusNames(statuses))
  }

  lemma {:induction false} NamesWithRoleSnoc(statuses: seq<InstanceStatus>, role: string, i: nat)
    requires i < |statuses|
    ensures NamesWithRole(statuses[..i + 1], role)
         == NamesWithRole(statuses[..i], role) + if statuses[i].role == role then [statuses[i].name] else []
  {
    if i > 0 {
      NamesWithRoleSnoc(statuses[1..], role, i - 1);
      assert statuses[..i + 1][1..] == statuses[1..][..i] && statuses[..i][1..] == statuses[1..][..i - 1];
    }
  }

  lemma {:induction false} NamesWithLabelsSnoc(statuses: seq<InstanceStatus>, s: LabelSelector, i: nat)
    requires i < |statuses|
    ensures NamesWithLabels(statuses[..i + 1], s)
         == NamesWithLabels(statuses[..i], s) + if Matches(s, statuses[i].labels) then [statuses[i].name] else []
  {
    if i > 0 {
      NamesWithLabelsSnoc(statuses[1..], s, i - 1);
      assert statuses[..i + 1][1..] == statuses[1..][..i] && statuses[..i][1..] == statuses[1..][..i - 1];
    }
  }

  /** The names of all instances in the status, one appended at a time. */
  method AllNames(statuses: seq<InstanceStatus>) returns (names: seq<string>)
    ensures names == StatusNames(statuses)
  {
    names := [];
    var i := 0;
    while i < |statuses|
      invariant 0 <= i <= |statuses|
      invariant names == StatusNames(statuses)[..i]
    {
      names := names + [statuses[i].name];
      i := i + 1;
    }
  }

  /** getTargetInstances of the user controller, loop by loop. */
  method GetTargetNames(statuses: seq<InstanceStatus>, selector: Option<InstanceSelector>) returns (targets: Result<seq<string>>)
    ensures targets == UserTargets(statuses, selector)
  {
    if selector.None? {
      var all := AllNames(statuses);
      return Ok(all);
    }
    var s := selector.value;
    var picked: seq<string> := [];
    if |s.names| > 0 { return Ok(s.names); }
    if s.role != "" {
      var i := 0;
      while i < |statuses|
        invariant 0 <= i <= |statuses|
        invariant picked == NamesWithRole(statuses[..i], s.role)
      {
        NamesWithRoleSnoc(statuses, s.role, i);
        if statuses[i].role == s.role { picked := picked + [statuses[i].name]; }
        i := i + 1;
      }
      assert statuses[..i] == statuses;
      if |picked| == 0 { return Err; }
      return Ok(picked);
    }
    if s.labelSelector.Some? {
      if !ValidSelector(s.labelSelector.value) { return Err; }
      var i := 0;
      while i < |statuses|
        invariant 0 <= i <= |statuses|
        invariant picked == NamesWithLabels(statuses[..i], s.labelSelector.value)
      {
        NamesWithLabelsSnoc(statuses, s.labelSelector.value, i);
        if Matches(s.labelSelector.value, statuses[i].labels) { picked := picked + [statuses[i].name]; }
        i := i + 1;
      }
      assert statuses[..i] == statuses;
      if |picked| == 0 { return Err; }
      return Ok(picked);
    }
    var all := AllNames(statuses);
    return Ok(all);
  }
}
