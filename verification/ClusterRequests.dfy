/**
 The parts of a cluster pass as sequences of requests: what each of them may ask for, whatever
 the answers turn out to be.

 Gathering the status reads, carrying out a plan writes the keys of the plan, and the deletion
 deletes. What holds over all sequences of such requests then holds of these parts, too.
 */
module ClusterRequests {
  import opened Wrappers
  import opened ApiServer
  import opened ClusterModel

  datatype Manner = Reading | Writing(keys: set<ObjKey>) | Deleting

  ghost predicate InManner(q: Request, m: Manner) {
    || q.GetObject?
    || (m.Writing? && (q.CreateObject? || q.UpdateObject?) && q.key in m.keys)
    || (m.Deleting? && q.DeleteObject?)
  }

  ghost function Of(m: Manner): Request -> bool {
    q => InManner(q, m)
  }

  // ------------------------------------------------------------------ the parts

  lemma UpsertIssues(s: Sys, write: Write, m: Manner)
    requires m.Writing? && write.key in m.keys
    ensures Issues(API, s, CreateOrUpdate(s, write).0, Of(m))
  {
    OneIssued(API, s, GetObject(write.key), Of(m));
    var (s1, current) := Call(s, GetObject(write.key));
    var s' := CreateOrUpdate(s, write).0;
    if current.ObjectIs? {
      OneIssued(API, s1, UpdateObject(write.key, write.body, current.found.version), Of(m));
      IssuedThen(API, s, s1, s', Of(m));
    } else if current.NotFound? {
      OneIssued(API, s1, CreateObject(write.key, write.body), Of(m));
      IssuedThen(API, s, s1, s', Of(m));
    }
  }

  lemma {:induction false} WritesIssue(s: Sys, writes: seq<Write>, m: Manner)
    requires m.Writing? && forall i | 0 <= i < |writes| :: writes[i].key in m.keys
    ensures Issues(API, s, ApplyWrites(s, writes).0, Of(m))
    decreases |writes|
  {
    if writes == [] {
      NothingIssued(API, s, Of(m));
    } else {
      UpsertIssues(s, writes[0], m);
      var (s1, ok) := CreateOrUpdate(s, writes[0]);
      if ok {
        WritesIssue(s1, writes[1..], m);
        IssuedThen(API, s, s1, ApplyWrites(s1, writes[1..]).0, Of(m));
      }
    }
  }

  lemma {:induction false} GatherIssues(s: Sys, c: Cluster, i: nat, g: Gathered)
    requires i <= |c.spec.instances|
    ensures Issues(API, s, GatherFrom(s, c, i, g).0, Of(Reading))
    decreases |c.spec.instances| - i
  {
    if i == |c.spec.instances| {
      NothingIssued(API, s, Of(Reading));
    } else {
      var instance := c.spec.instances[i];
      OneIssued(API, s, GetObject(StatefulSetKey(c.name, instance.name)), Of(Reading));
      var (s', a) := Call(s, GetObject(StatefulSetKey(c.name, instance.name)));
      var g' := Gather(c, instance, if a.ObjectIs? then Some(a.found.ready) else None, g);
      GatherIssues(s', c, i + 1, g');
      IssuedThen(API, s, s', GatherFrom(s', c, i + 1, g').0, Of(Reading));
    }
  }

  lemma {:induction false} DeletesIssue(s: Sys, keys: seq<ObjKey>)
    ensures Issues(API, s, DeleteAll(s, keys).0, Of(Deleting))
    decreases |keys|
  {
    if keys == [] {
      NothingIssued(API, s, Of(Deleting));
    } else {
      OneIssued(API, s, DeleteObject(keys[0]), Of(Deleting));
      var (s1, a) := Call(s, DeleteObject(keys[0]));
      if a.Done? || a.NotFound? {
        DeletesIssue(s1, keys[1..]);
        IssuedThen(API, s, s1, DeleteAll(s1, keys[1..]).0, Of(Deleting));
      }
    }
  }
}
