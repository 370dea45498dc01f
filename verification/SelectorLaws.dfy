/**
 What the selectors pick, without reference to how: exactly the instances that fit, in the
 cluster's order, or for each name the first instance that bears it.
 */
module SelectorLaws {
  import opened Wrappers
  import opened ApiTypes
  import opened Selectors
  import BackupController

  // ------------------------------------------------------------------ label selectors

  ghost predicate Labelled(labels: map<string, string>, key: string, value: string) {
    key in labels && labels[key] == value
  }

  ghost predicate Meets(r: Requirement, labels: map<string, string>) {
    match r.op
    case In => exists v :: v in r.values && Labelled(labels, r.key, v)
    case NotIn => forall v | v in r.values :: !Labelled(labels, r.key, v)
    case Exists => exists v :: Labelled(labels, r.key, v)
    case DoesNotExist => forall v :: !Labelled(labels, r.key, v)
  }

  /** The labels have every value asked for, and meet every requirement. */
  ghost predicate FitsLabels(s: LabelSelector, labels: map<string, string>) {
    && (forall k | k in s.matchLabels :: Labelled(labels, k, s.matchLabels[k]))
    && (forall r | r in s.matchExpressions :: Meets(r, labels))
  }

  /** Values are given for those operators, and only those, that compare with values. */
  ghost predicate WellFormed(s: LabelSelector) {
    forall r | r in s.matchExpressions :: r.values == [] <==> r.op == Exists || r.op == DoesNotExist
  }

  lemma RequirementMeans(r: Requirement, labels: map<string, string>)
    ensures MeetsRequirement(r, labels) <==> Meets(r, labels)
  {
    if r.key in labels {
      assert Labelled(labels, r.key, labels[r.key]);
    }
  }

  lemma LabelsMean(s: LabelSelector, labels: map<string, string>)
    ensures Matches(s, labels) <==> FitsLabels(s, labels)
    ensures ValidSelector(s) <==> WellFormed(s)
  {
    forall r ensures MeetsRequirement(r, labels) <==> Meets(r, labels) {
      RequirementMeans(r, labels);
    }
  }

  // ------------------------------------------------------------------ sublists

  ghost predicate Increasing(at: seq<nat>, n: nat) {
    && (forall k | 0 <= k < |at| :: at[k] < n)
    && (forall k, l | 0 <= k < l < |at| :: at[k] < at[l])
  }

  /** The positions of exactly the wanted elements. */
  ghost predicate Positions<T(!new)>(at: seq<nat>, all: seq<T>, wanted: T -> bool) {
    Increasing(at, |all|) && forall i: nat | i < |all| :: wanted(all[i]) <==> i in at
  }

  /** What is shown of exactly the wanted elements, in their order. */
  ghost predicate Sublist<T(!new), U>(all: seq<T>, picked: seq<U>, wanted: T -> bool, shown: T -> U) {
    exists at :: Positions(at, all, wanted) && Shows(at, all, picked, shown)
  }

  ghost predicate Shows<T, U>(at: seq<nat>, all: seq<T>, picked: seq<U>, shown: T -> U)
    requires Increasing(at, |all|)
  {
    |at| == |picked| && forall k | 0 <= k < |at| :: picked[k] == shown(all[at[k]])
  }

  ghost function Later(at: seq<nat>): (later: seq<nat>)
    ensures |later| == |at| && forall k | 0 <= k < |at| :: later[k] == at[k] + 1
  {
    seq(|at|, k requires 0 <= k < |at| => at[k] + 1)
  }

  lemma PositionsLater<T(!new)>(at: seq<nat>, all: seq<T>, wanted: T -> bool)
    requires all != [] && Positions(at, all[1..], wanted)
    ensures Positions((if wanted(all[0]) then [0] else []) + Later(at), all, wanted)
  {
    var at' := (if wanted(all[0]) then [0] else []) + Later(at);
    forall i: nat | i < |all| ensures wanted(all[i]) <==> i in at' {
      assert i in Later(at) <==> i > 0 && i - 1 in at by {
        if i > 0 && i - 1 in at {
          var k :| 0 <= k < |at| && at[k] == i - 1;
          assert Later(at)[k] == i;
        }
      }
      assert i > 0 ==> all[1..][i - 1] == all[i];
    }
  }

  lemma ShowsLater<T, U>(at: seq<nat>, all: seq<T>, picked: seq<U>, shown: T -> U)
    requires all != [] && Increasing(at, |all| - 1) && Shows(at, all[1..], picked, shown)
    ensures Increasing(Later(at), |all|) && Shows(Later(at), all, picked, shown)
    ensures Increasing([0] + Later(at), |all|) && Shows([0] + Later(at), all, [shown(all[0])] + picked, shown)
  {
  }

  lemma SublistMore<T(!new), U>(all: seq<T>, picked: seq<U>, wanted: T -> bool, shown: T -> U)
    requires all != [] && Sublist(all[1..], picked, wanted, shown)
    ensures Sublist(all, (if wanted(all[0]) then [shown(all[0])] else []) + picked, wanted, shown)
  {
    var at :| Positions(at, all[1..], wanted) && Shows(at, all[1..], picked, shown);
    PositionsLater(at, all, wanted);
    ShowsLater(at, all, picked, shown);
    if !wanted(all[0]) {
      assert [] + Later(at) == Later(at) && [] + picked == picked;
    }
  }

  lemma SublistNone<T(!new), U>(wanted: T -> bool, shown: T -> U)
    ensures Sublist([], [], wanted, shown)
  {
    var none: seq<nat>, nothing: seq<T> := [], [];
    assert Positions(none, nothing, wanted);
  }

  lemma SublistEmpty<T(!new), U>(all: seq<T>, picked: seq<U>, wanted: T -> bool, shown: T -> U)
    requires Sublist(all, picked, wanted, shown)
    ensures picked == [] <==> forall x | x in all :: !wanted(x)
  {
    var at :| Positions(at, all, wanted) && Shows(at, all, picked, shown);
    if picked != [] {
      assert wanted(all[at[0]]);
    } else {
      forall x | x in all ensures !wanted(x) {
        var i :| 0 <= i < |all| && all[i] == x;
        assert i !in at;
      }
    }
  }

  // ------------------------------------------------------------------ the restore's targets

  function RoleIs(role: string): InstanceSpec -> bool {
    (instance: InstanceSpec) => instance.role == role
  }

  ghost function LabelsFit(s: LabelSelector): InstanceSpec -> bool {
    (instance: InstanceSpec) => FitsLabels(s, map["instance" := instance.name, "role" := instance.role])
  }

  function Itself(): InstanceSpec -> InstanceSpec {
    (instance: InstanceSpec) => instance
  }

  lemma {:induction false} RolePicks(instances: seq<InstanceSpec>, role: string)
    ensures Sublist(instances, WithRole(instances, role), RoleIs(role), Itself())
  {
    if instances == [] {
      SublistNone(RoleIs(role), Itself());
    } else {
      RolePicks(instances[1..], role);
      SublistMore(instances, WithRole(instances[1..], role), RoleIs(role), Itself());
    }
  }

  lemma {:induction false} LabelPicks(instances: seq<InstanceSpec>, s: LabelSelector)
    ensures Sublist(instances, WithLabels(instances, s), LabelsFit(s), Itself())
  {
    if instances == [] {
      SublistNone(LabelsFit(s), Itself());
    } else {
      LabelPicks(instances[1..], s);
      LabelsMean(s, SpecLabels(instances[0]));
      SublistMore(instances, WithLabels(instances[1..], s), LabelsFit(s), Itself());
    }
  }

  /** The first instance of that name. */
  ghost predicate FirstOf(instances: seq<InstanceSpec>, name: string, i: nat) {
    i < |instances| && instances[i].name == name && forall j | 0 <= j < i :: instances[j].name != name
  }

  ghost predicate Bears(instances: seq<InstanceSpec>, name: string) {
    exists i: nat :: FirstOf(instances, name, i)
  }

  lemma {:induction false} FindFirst(instances: seq<InstanceSpec>, name: string)
    ensures match Find(instances, name)
            case None => !Bears(instances, name) && forall i | 0 <= i < |instances| :: instances[i].name != name
            case Some(found) => exists i: nat :: FirstOf(instances, name, i) && instances[i] == found
  {
    if instances != [] {
      FindFirst(instances[1..], name);
      assert forall i | 1 <= i < |instances| :: instances[i] == instances[1..][i - 1];
      if instances[0].name == name {
        assert FirstOf(instances, name, 0);
      } else if Find(instances[1..], name).Some? {
        var i: nat :| FirstOf(instances[1..], name, i) && instances[1..][i] == Find(instances[1..], name).value;
        assert FirstOf(instances, name, i + 1);
      }
    }
  }

  /** For each name, in the selector's order, the first instance that bears it. */
  ghost predicate NamesPicked(instances: seq<InstanceSpec>, names: seq<string>, picked: seq<InstanceSpec>) {
    |picked| == |names| && forall k | 0 <= k < |names| :: exists i: nat :: FirstOf(instances, names[k], i) && picked[k] == instances[i]
  }

  lemma {:induction false} NamePicks(instances: seq<InstanceSpec>, names: seq<string>)
    ensures match FindAll(instances, names)
            case Ok(picked) => NamesPicked(instances, names, picked)
            case Err => exists n :: n in names && !Bears(instances, n)
  {
    if names != [] {
      FindFirst(instances, names[0]);
      NamePicks(instances, names[1..]);
      if FindAll(instances, names).Ok? {
        var rest := FindAll(instances, names[1..]).value;
        forall k | 0 <= k < |names|
          ensures exists i: nat :: FirstOf(instances, names[k], i) && FindAll(instances, names).value[k] == instances[i]
        {
          if k > 0 {
            assert names[k] == names[1..][k - 1];
          }
        }
      }
    }
  }

  /** What a selector without names, role and labels says: nothing. */
  ghost predicate PicksAll(selector: Option<InstanceSelector>) {
    selector.None? || (selector.value.names == [] && selector.value.role == "" && selector.value.labelSelector.None?)
  }

  ghost predicate PicksSpec(instances: seq<InstanceSpec>, s: InstanceSelector, targets: Result<seq<InstanceSpec>>) {
    if s.names != [] then
      match targets
      case Ok(picked) => NamesPicked(instances, s.names, picked)
      case Err => exists n :: n in s.names && !Bears(instances, n)
    else if s.role != "" then
      match targets
      case Ok(picked) => picked != [] && Sublist(instances, picked, RoleIs(s.role), Itself())
      case Err => forall instance | instance in instances :: instance.role != s.role
    else if s.labelSelector.Some? then
      match targets
      case Ok(picked) => WellFormed(s.labelSelector.value) && Sublist(instances, picked, LabelsFit(s.labelSelector.value), Itself())
      case Err => !WellFormed(s.labelSelector.value)
    else targets == Ok(instances)
  }

  /** A restore's targets: names go before a role, a role before labels; labels may pick nothing. */
  lemma RestorePicks(instances: seq<InstanceSpec>, selector: Option<InstanceSelector>)
    ensures PicksAll(selector) ==> RestoreTargets(instances, selector) == Ok(instances)
    ensures selector.Some? ==> PicksSpec(instances, selector.value, RestoreTargets(instances, selector))
  {
    if selector.Some? {
      var s := selector.value;
      NamePicks(instances, s.names);
      RolePicks(instances, s.role);
      SublistEmpty(instances, WithRole(instances, s.role), RoleIs(s.role), Itself());
      if s.labelSelector.Some? {
        LabelPicks(instances, s.labelSelector.value);
        LabelsMean(s.labelSelector.value, map[]);
      }
    }
  }

  // ------------------------------------------------------------------ the user's targets

  function StatusRoleIs(role: string): InstanceStatus -> bool {
    (status: InstanceStatus) => status.role == role
  }

  ghost function StatusLabelsFit(s: LabelSelector): InstanceStatus -> bool {
    (status: InstanceStatus) => FitsLabels(s, status.labels)
  }

  function ItsName(): InstanceStatus -> string {
    (status: InstanceStatus) => status.name
  }

  lemma {:induction false} StatusRolePicks(statuses: seq<InstanceStatus>, role: string)
    ensures Sublist(statuses, NamesWithRole(statuses, role), StatusRoleIs(role), ItsName())
  {
    if statuses == [] {
      SublistNone(StatusRoleIs(role), ItsName());
    } else {
      StatusRolePicks(statuses[1..], role);
      SublistMore(statuses, NamesWithRole(statuses[1..], role), StatusRoleIs(role), ItsName());
    }
  }

  lemma {:induction false} StatusLabelPicks(statuses: seq<InstanceStatus>, s: LabelSelector)
    ensures Sublist(statuses, NamesWithLabels(statuses, s), StatusLabelsFit(s), ItsName())
  {
    if statuses == [] {
      SublistNone(StatusLabelsFit(s), ItsName());
    } else {
      StatusLabelPicks(statuses[1..], s);
      LabelsMean(s, statuses[0].labels);
      SublistMore(statuses, NamesWithLabels(statuses[1..], s), StatusLabelsFit(s), ItsName());
    }
  }

  ghost predicate ListsAll(statuses: seq<InstanceStatus>, targets: Result<seq<string>>) {
    targets.Ok? && |targets.value| == |statuses| && forall i | 0 <= i < |statuses| :: targets.value[i] == statuses[i].name
  }

  ghost predicate PicksStatus(statuses: seq<InstanceStatus>, s: InstanceSelector, targets: Result<seq<string>>) {
    if s.names != [] then targets == Ok(s.names)
    else if s.role != "" then
      match targets
      case Ok(picked) => picked != [] && Sublist(statuses, picked, StatusRoleIs(s.role), ItsName())
      case Err => forall status | status in statuses :: status.role != s.role
    else if s.labelSelector.Some? then
      match targets
      case Ok(picked) =>
        WellFormed(s.labelSelector.value) && picked != [] && Sublist(statuses, picked, StatusLabelsFit(s.labelSelector.value), ItsName())
      case Err =>
        !WellFormed(s.labelSelector.value) || forall status | status in statuses :: !FitsLabels(s.labelSelector.value, status.labels)
    else ListsAll(statuses, targets)
  }

  /** A user's targets: names are taken as they are, and labels that pick nothing are an error. */
  lemma UserPicks(statuses: seq<InstanceStatus>, selector: Option<InstanceSelector>)
    ensures PicksAll(selector) ==> ListsAll(statuses, UserTargets(statuses, selector))
    ensures selector.Some? ==> PicksStatus(statuses, selector.value, UserTargets(statuses, selector))
  {
    if selector.Some? {
      var s := selector.value;
      StatusRolePicks(statuses, s.role);
      SublistEmpty(statuses, NamesWithRole(statuses, s.role), StatusRoleIs(s.role), ItsName());
      if s.labelSelector.Some? {
        StatusLabelPicks(statuses, s.labelSelector.value);
        SublistEmpty(statuses, NamesWithLabels(statuses, s.labelSelector.value), StatusLabelsFit(s.labelSelector.value), ItsName());
        LabelsMean(s.labelSelector.value, map[]);
        LabelsFitNone(statuses, s.labelSelector.value);
      }
    }
  }

  lemma LabelsFitNone(statuses: seq<InstanceStatus>, s: LabelSelector)
    ensures (forall status | status in statuses :: !FitsLabels(s, status.labels))
       <==> (forall status | status in statuses :: !StatusLabelsFit(s)(status))
  {
  }

  // ------------------------------------------------------------------ the backup's instance

  /** The i-th name is the first that some instance bears. */
  ghost predicate FirstBorne(instances: seq<InstanceSpec>, names: seq<string>, i: nat) {
    i < |names| && Bears(instances, names[i]) && forall j | 0 <= j < i :: !Bears(instances, names[j])
  }

  ghost predicate Chosen(instances: seq<InstanceSpec>, names: seq<string>, found: Option<InstanceSpec>) {
    match found
    case None => forall n | n in names :: !Bears(instances, n)
    case Some(instance) =>
      exists i: nat, k: nat :: FirstBorne(instances, names, i) && FirstOf(instances, names[i], k) && instances[k] == instance
  }

  lemma {:induction false} FirstKnownChosen(instances: seq<InstanceSpec>, names: seq<string>)
    ensures Chosen(instances, names, BackupController.FirstKnown(instances, names))
  {
    if names != [] {
      FindFirst(instances, names[0]);
      FirstKnownChosen(instances, names[1..]);
      var found := BackupController.FirstKnown(instances, names);
      if Find(instances, names[0]).Some? {
        assert FirstBorne(instances, names, 0);
      } else if found.Some? {
        var i: nat, k: nat :| FirstBorne(instances, names[1..], i) && FirstOf(instances, names[1..][i], k) && instances[k] == found.value;
        assert forall j | 1 <= j < |names| :: names[j] == names[1..][j - 1];
        assert FirstBorne(instances, names, i + 1) && FirstOf(instances, names[i + 1], k);
      }
    }
  }

  /** The names a backup goes by: those of its selector, or else "primary". */
  ghost function SoughtNames(selector: Option<InstanceSelector>): seq<string> {
    match selector
    case None => ["primary"]
    case Some(s) => if |s.names| == 0 then ["primary"] else s.names
  }

  /** A backup takes the first instance that bears the first name known, and of a cluster without instances none. */
  lemma BackupPicks(instances: seq<InstanceSpec>, selector: Option<InstanceSelector>)
    ensures match BackupController.BackupTarget(instances, selector)
            case Ok(None) => instances == []
            case Ok(Some(instance)) => Chosen(instances, SoughtNames(selector), Some(instance))
            case Err => instances != [] && Chosen(instances, SoughtNames(selector), None)
  {
    FirstKnownChosen(instances, SoughtNames(selector));
  }
}
