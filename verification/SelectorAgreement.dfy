/**
 The user controller resolves a selector against the cluster's status, the restore controller
 against its spec: when do they pick the same instances?
 */
module SelectorAgreement {
  import opened Wrappers
  import opened ApiTypes
  import opened Selectors
  import opened ClusterModel

  /** The status lists the spec's instances in order, each with its role and labels. */
  ghost predicate Projects(c: Cluster, instances: seq<InstanceSpec>, statuses: seq<InstanceStatus>) {
    && |statuses| == |instances|
    && forall i | 0 <= i < |instances| :: ProjectsOne(c, instances[i], statuses[i])
  }

  ghost predicate ProjectsOne(c: Cluster, instance: InstanceSpec, status: InstanceStatus) {
    && status.name == instance.name && status.role == instance.role
    && status.labels == InstanceLabels(c, instance)
  }

  /** What updateStatus gathers, whatever its reads return, is a projection of the spec. */
  lemma {:induction false} GatherProjects(s: Sys, c: Cluster, i: nat, g: Gathered)
    requires i <= |c.spec.instances| && Projects(c, c.spec.instances[..i], g.statuses)
    ensures Projects(c, c.spec.instances, GatherFrom(s, c, i, g).1.statuses)
    decreases |c.spec.instances| - i
  {
    if i < |c.spec.instances| {
      var instance := c.spec.instances[i];
      var (s', a) := Call(s, GetObject(StatefulSetKey(c.name, instance.name)));
      var g' := Gather(c, instance, if a.ObjectIs? then Some(a.found.ready) else None, g);
      forall j | 0 <= j < i + 1 ensures ProjectsOne(c, c.spec.instances[..i + 1][j], g'.statuses[j]) {
        if j < i {
          assert ProjectsOne(c, c.spec.instances[..i][j], g.statuses[j]);
        }
      }
      GatherProjects(s', c, i + 1, g');
    } else {
      assert c.spec.instances[..i] == c.spec.instances;
    }
  }

  function NamesOf(instances: seq<InstanceSpec>): seq<string> {
    if instances == [] then [] else [instances[0].name] + NamesOf(instances[1..])
  }

  function SpecNames(targets: Result<seq<InstanceSpec>>): Result<seq<string>> {
    if targets.Err? then Err else Ok(NamesOf(targets.value))
  }

  lemma NamesOfMore(front: seq<InstanceSpec>, rest: seq<InstanceSpec>)
    requires |front| <= 1
    ensures NamesOf(front + rest) == NamesOf(front) + NamesOf(rest)
  {
    if front == [] {
      assert front + rest == rest;
    } else {
      assert (front + rest)[1..] == rest && front[1..] == [];
    }
  }

  lemma {:induction false} AllAlike(c: Cluster, instances: seq<InstanceSpec>, statuses: seq<InstanceStatus>)
    requires Projects(c, instances, statuses)
    ensures NamesOf(instances) == StatusNames(statuses)
  {
    if instances != [] {
      ProjectsTail(c, instances, statuses);
      AllAlike(c, instances[1..], statuses[1..]);
      assert ProjectsOne(c, instances[0], statuses[0]);
      assert StatusNames(statuses) == [statuses[0].name] + StatusNames(statuses[1..]);
    }
  }

  /** The selector looks only at labels that both controllers give an instance. */
  ghost predicate SharedKeys(s: LabelSelector) {
    && (forall k | k in s.matchLabels :: k == "instance" || k == "role")
    && (forall r | r in s.matchExpressions :: r.key == "instance" || r.key == "role")
  }

  lemma LabelLookups(c: Cluster, instance: InstanceSpec, k: string)
    requires k == "instance" || k == "role"
    ensures k in InstanceLabels(c, instance) && k in SpecLabels(instance)
    ensures InstanceLabels(c, instance)[k] == SpecLabels(instance)[k]
  {
    assert "instance"[0] != "role"[0];
  }

  lemma MatchAlike(c: Cluster, instance: InstanceSpec, s: LabelSelector)
    requires SharedKeys(s)
    ensures Matches(s, InstanceLabels(c, instance)) <==> Matches(s, SpecLabels(instance))
  {
    LabelLookups(c, instance, "instance");
    LabelLookups(c, instance, "role");
    forall r | r in s.matchExpressions
      ensures MeetsRequirement(r, InstanceLabels(c, instance)) <==> MeetsRequirement(r, SpecLabels(instance))
    {
    }
  }

  lemma {:induction false} RolesAlike(c: Cluster, instances: seq<InstanceSpec>, statuses: seq<InstanceStatus>, role: string)
    requires Projects(c, instances, statuses)
    ensures NamesOf(WithRole(instances, role)) == NamesWithRole(statuses, role)
  {
    if instances != [] {
      ProjectsTail(c, instances, statuses);
      RolesAlike(c, instances[1..], statuses[1..], role);
      assert ProjectsOne(c, instances[0], statuses[0]);
      NamesOfMore(if instances[0].role == role then [instances[0]] else [], WithRole(instances[1..], role));
    }
  }

  lemma ProjectsTail(c: Cluster, instances: seq<InstanceSpec>, statuses: seq<InstanceStatus>)
    requires Projects(c, instances, statuses) && instances != []
    ensures Projects(c, instances[1..], statuses[1..])
  {
    forall i | 0 <= i < |instances| - 1 ensures ProjectsOne(c, instances[1..][i], statuses[1..][i]) {
      assert ProjectsOne(c, instances[i + 1], statuses[i + 1]);
    }
  }

  lemma {:induction false} LabelsAlike(c: Cluster, instances: seq<InstanceSpec>, statuses: seq<InstanceStatus>, s: LabelSelector)
    requires Projects(c, instances, statuses) && SharedKeys(s)
    ensures NamesOf(WithLabels(instances, s)) == NamesWithLabels(statuses, s)
    ensures WithLabels(instances, s) == [] <==> forall instance | instance in instances :: !Matches(s, SpecLabels(instance))
  {
    if instances != [] {
      ProjectsTail(c, instances, statuses);
      LabelsAlike(c, instances[1..], statuses[1..], s);
      MatchAlike(c, instances[0], s);
      assert ProjectsOne(c, instances[0], statuses[0]);
      NamesOfMore(if Matches(s, SpecLabels(instances[0])) then [instances[0]] else [], WithLabels(instances[1..], s));
    }
  }

  lemma {:induction false} FindAllNames(instances: seq<InstanceSpec>, names: seq<string>)
    ensures FindAll(instances, names).Ok? <==> forall n | n in names :: HasName(instances, n)
    ensures FindAll(instances, names).Ok? ==> NamesOf(FindAll(instances, names).value) == names
  {
    if names != [] {
      FindAllNames(instances, names[1..]);
      FindKnown(instances, names[0]);
      assert forall n :: n in names <==> n == names[0] || n in names[1..];
      if FindAll(instances, names).Ok? {
        NamesOfMore([Find(instances, names[0]).value], FindAll(instances, names[1..]).value);
        assert [Find(instances, names[0]).value][1..] == [];
        assert names == [names[0]] + names[1..];
      }
    }
  }

  lemma {:induction false} FindKnown(instances: seq<InstanceSpec>, name: string)
    ensures Find(instances, name).Some? <==> HasName(instances, name)
    ensures Find(instances, name).Some? ==> Find(instances, name).value.name == name
  {
    if instances != [] {
      FindKnown(instances[1..], name);
      if instances[0].name != name && Find(instances[1..], name).Some? {
        var i :| 0 <= i < |instances| - 1 && instances[1..][i].name == name;
        assert instances[i + 1].name == name;
      }
    }
  }

  ghost predicate HasName(instances: seq<InstanceSpec>, name: string) {
    exists i :: 0 <= i < |instances| && instances[i].name == name
  }

  /** Every named instance is in the cluster, or no name is given. */
  ghost predicate NamesKnown(instances: seq<InstanceSpec>, selector: Option<InstanceSelector>) {
    selector.Some? ==>
      forall n | n in selector.value.names :: HasName(instances, n)
  }

  ghost predicate UsesLabels(selector: Option<InstanceSelector>) {
    selector.Some? && selector.value.names == [] && selector.value.role == "" && selector.value.labelSelector.Some?
  }

  /** A well-formed label selector that is used matches some instance. */
  ghost predicate LabelsMatchSome(instances: seq<InstanceSpec>, selector: Option<InstanceSelector>) {
    UsesLabels(selector) && ValidSelector(selector.value.labelSelector.value) ==>
      exists i :: 0 <= i < |instances| && Matches(selector.value.labelSelector.value, SpecLabels(instances[i]))
  }

  /**
   After the status has been reported, both controllers pick the same instances in the same
   order, or both refuse, exactly when every name given is in the cluster and a label selector
   that is used matches something; the labels it mentions are the two both sides know.
   */
  lemma ResolversAgree(c: Cluster, instances: seq<InstanceSpec>, statuses: seq<InstanceStatus>, selector: Option<InstanceSelector>)
    requires Projects(c, instances, statuses)
    requires UsesLabels(selector) ==> SharedKeys(selector.value.labelSelector.value)
    ensures SpecNames(RestoreTargets(instances, selector)) == UserTargets(statuses, selector)
       <==> && NamesKnown(instances, selector)
            && LabelsMatchSome(instances, selector)
  {
    AllAlike(c, instances, statuses);
    if selector.Some? {
      var s := selector.value;
      if s.names != [] {
        FindAllNames(instances, s.names);
      } else if s.role != "" {
        RolesAlike(c, instances, statuses, s.role);
      } else if s.labelSelector.Some? {
        LabelsAlike(c, instances, statuses, s.labelSelector.value);
      }
    }
  }

  /** A status report that is accepted persists a projection of the spec the pass has read. */
  lemma ReportPersists(s: Sys, c: Cluster)
    requires ReportStatus(s, c).1
    ensures var w := ReportStatus(s, c).0.world;
            w.cluster.Some? && Projects(c, c.spec.instances, w.cluster.value.status.instances)
  {
    var g0 := Gathered([], 0, c.status.currentPrimary);
    assert c.spec.instances[..0] == [];
    GatherProjects(s, c, 0, g0);
  }

  /**
   So once a status report has been accepted, whatever its reads returned, the persisted status
   resolves a selector as the spec does, or both fail, under that condition exactly.
   */
  lemma PersistedResolversAgree(s: Sys, c: Cluster, selector: Option<InstanceSelector>)
    requires ReportStatus(s, c).1
    requires UsesLabels(selector) ==> SharedKeys(selector.value.labelSelector.value)
    ensures var w := ReportStatus(s, c).0.world;
            && w.cluster.Some?
            && (SpecNames(RestoreTargets(c.spec.instances, selector)) == UserTargets(w.cluster.value.status.instances, selector)
                <==> NamesKnown(c.spec.instances, selector) && LabelsMatchSome(c.spec.instances, selector))
  {
    ReportPersists(s, c);
    ResolversAgree(c, c.spec.instances, ReportStatus(s, c).0.world.cluster.value.status.instances, selector);
  }

  /** A label only the status carries: the user controller picks an instance the restore controller does not. */
  lemma OtherLabelsDisagree(c: Cluster, instance: InstanceSpec, status: InstanceStatus)
    requires ProjectsOne(c, instance, status)
    ensures var selector := Some(InstanceSelector([], "", Some(LabelSelector(map["app" := "postgres"], []))));
            UserTargets([status], selector) == Ok([instance.name]) && RestoreTargets([instance], selector) == Ok([])
  {
    var s := LabelSelector(map["app" := "postgres"], []);
    assert "app" !in SpecLabels(instance) by {
      assert "app"[0] != "instance"[0] && "app"[0] != "role"[0];
    }
    assert Matches(s, status.labels) && !Matches(s, SpecLabels(instance));
    assert [status][1..] == [] && [instance][1..] == [];
    assert NamesWithLabels([status], s) == [instance.name];
    var rest := WithLabels([instance][1..], s);
    assert rest == [] && WithLabels([instance], s) == [] + rest;
  }
}
