/**
 The copy tree of a cluster spec in api/v1/zz_generated.deepcopy.go, over Go's references as heap
 objects. The ghost set `R` names cells that hold everything reachable from a value; each copy
 has such a set of its own, `C`, of new objects.
 */
module DeepCopy {
  import opened Wrappers
  import ApiTypes

  // ------------------------------------------------------------------ the heap form

  /** What a pointer or a map refers to. */
  class Cell<T> {
    var value: T

    constructor (value: T)
      ensures this.value == value
    {
      this.value := value;
    }
  }

  type Config = Cell?<map<string, string>>

  datatype SchemaAccess = SchemaAccess(name: string, privileges: array?<string>)

  datatype DatabaseAccess =
    DatabaseAccess(username: string, privileges: array?<string>, schemas: array?<SchemaAccess>)

  datatype DatabaseSpec =
    DatabaseSpec(name: string, initScript: string, config: Config, access: array?<DatabaseAccess>)

  datatype StorageSpec =
    StorageSpec(volumeName: string, size: string, storageClass: string, accessModes: array?<string>)

  datatype InstanceSpec = InstanceSpec(
    name: string,
    replicas: Cell?<int>,
    role: string,
    storage: Cell?<StorageSpec>,
    resources: Cell?<ApiTypes.ResourceRequirements>,
    database: Cell?<DatabaseSpec>,
    config: Config)

  // ------------------------------------------------------------------ what the heap form means

  datatype SchemaV = SchemaV(name: string, privileges: Option<seq<string>>)

  datatype AccessV = AccessV(username: string, privileges: Option<seq<string>>, schemas: Option<seq<SchemaV>>)

  datatype DatabaseV =
    DatabaseV(name: string, initScript: string, config: Option<map<string, string>>, access: Option<seq<AccessV>>)

  datatype StorageV = StorageV(volumeName: string, size: string, storageClass: string, accessModes: Option<seq<string>>)

  datatype InstanceV = InstanceV(
    name: string,
    replicas: Option<int>,
    role: string,
    storage: Option<StorageV>,
    resources: Option<ApiTypes.ResourceRequirements>,
    database: Option<DatabaseV>,
    config: Option<map<string, string>>)

  ghost predicate Within(o: object?, R: set<object>) {
    o != null ==> o in R
  }

  ghost function Strings(a: array?<string>): Option<seq<string>>
    reads a
  {
    if a == null then None else Some(a[..])
  }

  ghost function Content<T>(c: Cell?<T>): Option<T>
    reads c
  {
    if c == null then None else Some(c.value)
  }

  ghost function SchemaValue(s: SchemaAccess): SchemaV
    reads s.privileges
  {
    SchemaV(s.name, Strings(s.privileges))
  }

  ghost predicate SchemasIn(s: seq<SchemaAccess>, R: set<object>) {
    forall i | 0 <= i < |s| :: Within(s[i].privileges, R)
  }

  ghost function SchemaValues(s: seq<SchemaAccess>, R: set<object>): (v: seq<SchemaV>)
    requires SchemasIn(s, R)
    reads R
    ensures |v| == |s| && forall i | 0 <= i < |s| :: v[i] == SchemaValue(s[i])
  {
    if s == [] then [] else [SchemaValue(s[0])] + SchemaValues(s[1..], R)
  }

  ghost predicate AccessIn(a: DatabaseAccess, R: set<object>)
    reads R
  {
    && Within(a.privileges, R)
    && (a.schemas != null ==> a.schemas in R && SchemasIn(a.schemas[..], R))
  }

  ghost function AccessValue(a: DatabaseAccess, R: set<object>): AccessV
    requires AccessIn(a, R)
    reads R
  {
    AccessV(a.username, Strings(a.privileges), if a.schemas == null then None else Some(SchemaValues(a.schemas[..], R)))
  }

  ghost predicate AccessesIn(s: seq<DatabaseAccess>, R: set<object>)
    reads R
  {
    forall i | 0 <= i < |s| :: AccessIn(s[i], R)
  }

  ghost function AccessValues(s: seq<DatabaseAccess>, R: set<object>): (v: seq<AccessV>)
    requires AccessesIn(s, R)
    reads R
    ensures |v| == |s| && forall i | 0 <= i < |s| :: v[i] == AccessValue(s[i], R)
  {
    if s == [] then [] else [AccessValue(s[0], R)] + AccessValues(s[1..], R)
  }

  ghost predicate DatabaseIn(d: DatabaseSpec, R: set<object>)
    reads R
  {
    && Within(d.config, R)
    && (d.access != null ==> d.access in R && AccessesIn(d.access[..], R))
  }

  ghost function DatabaseValue(d: DatabaseSpec, R: set<object>): DatabaseV
    requires DatabaseIn(d, R)
    reads R
  {
    DatabaseV(d.name, d.initScript, Content(d.config),
              if d.access == null then None else Some(AccessValues(d.access[..], R)))
  }

  ghost function StorageValue(s: StorageSpec): StorageV
    reads s.accessModes
  {
    StorageV(s.volumeName, s.size, s.storageClass, Strings(s.accessModes))
  }

  ghost predicate StorageIn(s: StorageSpec, R: set<object>) {
    Within(s.accessModes, R)
  }

  ghost predicate StorageCellIn(c: Cell?<StorageSpec>, R: set<object>)
    reads R
  {
    c != null ==> c in R && StorageIn(c.value, R)
  }

  ghost function StorageCellValue(c: Cell?<StorageSpec>, R: set<object>): Option<StorageV>
    requires StorageCellIn(c, R)
    reads R
  {
    if c == null then None else Some(StorageValue(c.value))
  }

  ghost predicate DatabaseCellIn(c: Cell?<DatabaseSpec>, R: set<object>)
    reads R
  {
    c != null ==> c in R && DatabaseIn(c.value, R)
  }

  ghost function DatabaseCellValue(c: Cell?<DatabaseSpec>, R: set<object>): Option<DatabaseV>
    requires DatabaseCellIn(c, R)
    reads R
  {
    if c == null then None else Some(DatabaseValue(c.value, R))
  }

  ghost predicate InstanceIn(x: InstanceSpec, R: set<object>)
    reads R
  {
    && Within(x.replicas, R) && Within(x.resources, R) && Within(x.config, R)
    && StorageCellIn(x.storage, R) && DatabaseCellIn(x.database, R)
  }

  ghost function InstanceValue(x: InstanceSpec, R: set<object>): InstanceV
    requires InstanceIn(x, R)
    reads R
  {
    InstanceV(x.name, Content(x.replicas), x.role, StorageCellValue(x.storage, R), Content(x.resources),
              DatabaseCellValue(x.database, R), Content(x.config))
  }

  ghost predicate InstancesIn(s: seq<InstanceSpec>, R: set<object>)
    reads R
  {
    forall i | 0 <= i < |s| :: InstanceIn(s[i], R)
  }

  ghost function InstanceValues(s: seq<InstanceSpec>, R: set<object>): (v: seq<InstanceV>)
    requires InstancesIn(s, R)
    reads R
    ensures |v| == |s| && forall i | 0 <= i < |s| :: v[i] == InstanceValue(s[i], R)
  {
    if s == [] then [] else [InstanceValue(s[0], R)] + InstanceValues(s[1..], R)
  }

  // ------------------------------------------------------------------ more cells change nothing

  lemma SchemasGrow(s: seq<SchemaAccess>, R: set<object>, R': set<object>)
    requires SchemasIn(s, R) && R <= R'
    ensures SchemasIn(s, R') && SchemaValues(s, R') == SchemaValues(s, R)
  {
  }

  lemma AccessGrows(a: DatabaseAccess, R: set<object>, R': set<object>)
    requires AccessIn(a, R) && R <= R'
    ensures AccessIn(a, R') && AccessValue(a, R') == AccessValue(a, R)
  {
    if a.schemas != null {
      SchemasGrow(a.schemas[..], R, R');
    }
  }

  lemma AccessesGrow(s: seq<DatabaseAccess>, R: set<object>, R': set<object>)
    requires AccessesIn(s, R) && R <= R'
    ensures AccessesIn(s, R') && AccessValues(s, R') == AccessValues(s, R)
  {
    forall i | 0 <= i < |s| ensures AccessIn(s[i], R') && AccessValue(s[i], R') == AccessValue(s[i], R) {
      AccessGrows(s[i], R, R');
    }
  }

  lemma DatabaseGrows(d: DatabaseSpec, R: set<object>, R': set<object>)
    requires DatabaseIn(d, R) && R <= R'
    ensures DatabaseIn(d, R') && DatabaseValue(d, R') == DatabaseValue(d, R)
  {
    if d.access != null {
      AccessesGrow(d.access[..], R, R');
    }
  }

  lemma CellsGrow(storage: Cell?<StorageSpec>, database: Cell?<DatabaseSpec>, R: set<object>, R': set<object>)
    requires R <= R'
    ensures StorageCellIn(storage, R) ==>
      StorageCellIn(storage, R') && StorageCellValue(storage, R') == StorageCellValue(storage, R)
    ensures DatabaseCellIn(database, R) ==>
      DatabaseCellIn(database, R') && DatabaseCellValue(database, R') == DatabaseCellValue(database, R)
  {
    if database != null && DatabaseCellIn(database, R) {
      DatabaseGrows(database.value, R, R');
    }
  }

  lemma InstanceGrows(x: InstanceSpec, R: set<object>, R': set<object>)
    requires InstanceIn(x, R) && R <= R'
    ensures InstanceIn(x, R') && InstanceValue(x, R') == InstanceValue(x, R)
  {
    CellsGrow(x.storage, x.database, R, R');
  }

  lemma InstancesGrow(s: seq<InstanceSpec>, R: set<object>, R': set<object>)
    requires InstancesIn(s, R) && R <= R'
    ensures InstancesIn(s, R') && InstanceValues(s, R') == InstanceValues(s, R)
  {
    forall i | 0 <= i < |s| ensures InstanceIn(s[i], R') && InstanceValue(s[i], R') == InstanceValue(s[i], R) {
      InstanceGrows(s[i], R, R');
    }
  }

  // ------------------------------------------------------------------ copies

  method CopyStrings(a: array?<string>) returns (c: array?<string>)
    ensures Strings(c) == Strings(a) && (c != null ==> fresh(c))
  {
    if a == null { return null; }
    c := new string[a.Length];
    forall i | 0 <= i < a.Length {
      c[i] := a[i];
    }
    assert c[..] == a[..];
  }

  /** A new map, filled key by key in whatever order. */
  method CopyConfig(m: Config) returns (c: Config)
    ensures Content(c) == Content(m) && (c != null ==> fresh(c))
  {
    if m == null { return null; }
    c := new Cell(map[]);
    var rest := m.value.Keys;
    while rest != {}
      invariant rest <= m.value.Keys && fresh(c)
      invariant c.value.Keys == m.value.Keys - rest
      invariant forall k | k in c.value :: c.value[k] == m.value[k]
      decreases |rest|
    {
      var k :| k in rest;
      c.value := c.value[k := m.value[k]];
      rest := rest - {k};
    }
    assert c.value == m.value;
  }

  method CopySchema(s: SchemaAccess) returns (c: SchemaAccess)
    ensures SchemaValue(c) == SchemaValue(s) && (c.privileges != null ==> fresh(c.privileges))
  {
    c := s;
    var privileges := CopyStrings(s.privileges);
    c := c.(privileges := privileges);
  }

  method CopySchemas(a: array<SchemaAccess>, ghost R: set<object>) returns (c: array<SchemaAccess>, ghost C: set<object>)
    requires a in R && SchemasIn(a[..], R)
    ensures fresh(C) && c in C && SchemasIn(c[..], C)
    ensures SchemasIn(a[..], R) && SchemaValues(c[..], C) == SchemaValues(a[..], R)
  {
    c := new SchemaAccess[a.Length];
    C := {};
    var i := 0;
    while i < a.Length
      invariant 0 <= i <= a.Length
      invariant fresh(C) && c !in C
      invariant forall j | 0 <= j < i :: Within(c[j].privileges, C) && SchemaValue(c[j]) == SchemaValue(a[j])
    {
      var schema := CopySchema(a[i]);
      if schema.privileges != null { C := C + {schema.privileges}; }
      c[i] := schema;
      i := i + 1;
    }
    C := C + {c};
  }

  method CopyAccess(a: DatabaseAccess, ghost R: set<object>) returns (c: DatabaseAccess, ghost C: set<object>)
    requires AccessIn(a, R)
    ensures fresh(C) && AccessIn(c, C)
    ensures AccessIn(a, R) && AccessValue(c, C) == AccessValue(a, R)
  {
    c, C := a, {};
    var privileges := CopyStrings(a.privileges);
    c := c.(privileges := privileges);
    if privileges != null { C := {privileges}; }
    if a.schemas != null {
      var schemas, S := CopySchemas(a.schemas, R);
      c := c.(schemas := schemas);
      SchemasGrow(schemas[..], S, C + S);
      C := C + S;
    }
  }

  /** Each element of `done` is a copy, within C, of the one in `source`. */
  ghost predicate AccessesCopied(done: seq<DatabaseAccess>, C: set<object>, source: seq<DatabaseAccess>, R: set<object>)
    reads C, R
  {
    && |done| == |source| && AccessesIn(done, C) && AccessesIn(source, R)
    && forall i | 0 <= i < |done| :: AccessValue(done[i], C) == AccessValue(source[i], R)
  }

  lemma AccessesCopiedMore(done: seq<DatabaseAccess>, C: set<object>, source: seq<DatabaseAccess>, R: set<object>,
                           x: DatabaseAccess, S: set<object>, y: DatabaseAccess)
    requires AccessesCopied(done, C, source, R)
    requires AccessIn(x, S) && AccessIn(y, R) && AccessValue(x, S) == AccessValue(y, R)
    ensures AccessesCopied(done + [x], C + S, source + [y], R)
  {
    AccessesGrow(done, C, C + S);
    AccessGrows(x, S, C + S);
    forall i | 0 <= i < |done + [x]|
      ensures AccessIn((done + [x])[i], C + S) && AccessValue((done + [x])[i], C + S) == AccessValue((source + [y])[i], R)
    {
      if i < |done| {
        AccessGrows(done[i], C, C + S);
      }
    }
  }

  lemma AccessesCopiedAll(done: seq<DatabaseAccess>, C: set<object>, source: seq<DatabaseAccess>, R: set<object>, C': set<object>)
    requires AccessesCopied(done, C, source, R) && C <= C'
    ensures AccessesIn(done, C') && AccessValues(done, C') == AccessValues(source, R)
  {
    AccessesGrow(done, C, C');
  }

  /** One turn of the loop over the accesses. */
  method CopyNextAccess(a: array<DatabaseAccess>, c: array<DatabaseAccess>, i: nat, ghost R: set<object>, ghost C: set<object>)
    returns (ghost S: set<object>)
    requires i < a.Length == c.Length && c !in C && c !in R && a != c
    requires AccessesIn(a[..], R) && AccessesCopied(c[..i], C, a[..i], R)
    modifies c
    ensures fresh(S)
    ensures AccessesIn(a[..], R) && AccessesCopied(c[..i + 1], C + S, a[..i + 1], R)
  {
    ghost var source, done := a[..], c[..i];
    var access;
    access, S := CopyAccess(a[i], R);
    AccessesCopiedMore(done, C, source[..i], R, access, S, source[i]);
    c[i] := access;
    assert c[..i + 1] == done + [access] && a[..i + 1] == source[..i] + [source[i]];
  }

  method CopyAccesses(a: array<DatabaseAccess>, ghost R: set<object>) returns (c: array<DatabaseAccess>, ghost C: set<object>)
    requires a in R && AccessesIn(a[..], R)
    ensures fresh(C) && c in C && AccessesIn(c[..], C)
    ensures AccessesIn(a[..], R) && AccessValues(c[..], C) == AccessValues(a[..], R)
  {
    c := new DatabaseAccess[a.Length];
    C := {};
    var i := 0;
    while i < a.Length
      invariant 0 <= i <= a.Length
      invariant fresh(C) && c !in C && c !in R
      invariant AccessesIn(a[..], R) && AccessesCopied(c[..i], C, a[..i], R)
    {
      ghost var S := CopyNextAccess(a, c, i, R, C);
      C := C + S;
      i := i + 1;
    }
    assert a[..i] == a[..] && c[..i] == c[..];
    AccessesCopiedAll(c[..], C, a[..], R, C + {c});
    C := C + {c};
  }

  method CopyDatabase(d: DatabaseSpec, ghost R: set<object>) returns (c: DatabaseSpec, ghost C: set<object>)
    requires DatabaseIn(d, R)
    ensures fresh(C) && DatabaseIn(c, C)
    ensures DatabaseIn(d, R) && DatabaseValue(c, C) == DatabaseValue(d, R)
  {
    c, C := d, {};
    var config := CopyConfig(d.config);
    c := c.(config := config);
    if config != null { C := {config}; }
    if d.access != null {
      var access, S := CopyAccesses(d.access, R);
      c := c.(access := access);
      AccessesGrow(access[..], S, C + S);
      C := C + S;
    }
  }

  method CopyStorage(s: StorageSpec) returns (c: StorageSpec)
    ensures StorageValue(c) == StorageValue(s) && (c.accessModes != null ==> fresh(c.accessModes))
  {
    c := s;
    var accessModes := CopyStrings(s.accessModes);
    c := c.(accessModes := accessModes);
  }

  method CopyNumber(n: Cell?<int>) returns (c: Cell?<int>)
    ensures Content(c) == Content(n) && (c != null ==> fresh(c))
  {
    if n == null { return null; }
    c := new Cell(n.value);
  }

  method CopyResources(r: Cell?<ApiTypes.ResourceRequirements>) returns (c: Cell?<ApiTypes.ResourceRequirements>)
    ensures Content(c) == Content(r) && (c != null ==> fresh(c))
  {
    if r == null { return null; }
    c := new Cell(r.value);
  }

  ghost function Alone(o: object?): set<object> {
    if o == null then {} else {o}
  }

  method CopyStorageCell(s: Cell?<StorageSpec>, ghost R: set<object>) returns (c: Cell?<StorageSpec>, ghost C: set<object>)
    requires StorageCellIn(s, R)
    ensures fresh(C) && StorageCellIn(c, C)
    ensures StorageCellIn(s, R) && StorageCellValue(c, C) == StorageCellValue(s, R)
  {
    if s == null { return null, {}; }
    var storage := CopyStorage(s.value);
    c := new Cell(storage);
    C := {c} + Alone(storage.accessModes);
  }

  method CopyDatabaseCell(d: Cell?<DatabaseSpec>, ghost R: set<object>) returns (c: Cell?<DatabaseSpec>, ghost C: set<object>)
    requires DatabaseCellIn(d, R)
    ensures fresh(C) && DatabaseCellIn(c, C)
    ensures DatabaseCellIn(d, R) && DatabaseCellValue(c, C) == DatabaseCellValue(d, R)
  {
    if d == null { return null, {}; }
    var database, D := CopyDatabase(d.value, R);
    c := new Cell(database);
    DatabaseGrows(database, D, D + {c});
    C := D + {c};
  }

  /** The pointers to numbers, resources and settings. */
  method CopyPlain(x: InstanceSpec, ghost R: set<object>)
    returns (replicas: Cell?<int>, resources: Cell?<ApiTypes.ResourceRequirements>, config: Config, ghost C: set<object>)
    ensures fresh(C) && Within(replicas, C) && Within(resources, C) && Within(config, C)
    ensures Content(replicas) == Content(x.replicas) && Content(resources) == Content(x.resources)
    ensures Content(config) == Content(x.config)
  {
    replicas := CopyNumber(x.replicas);
    resources := CopyResources(x.resources);
    config := CopyConfig(x.config);
    C := Alone(replicas) + Alone(resources) + Alone(config);
  }

  /** The pointers to storage and database. */
  method CopyNested(x: InstanceSpec, ghost R: set<object>)
    returns (storage: Cell?<StorageSpec>, database: Cell?<DatabaseSpec>, ghost C: set<object>)
    requires InstanceIn(x, R)
    ensures fresh(C) && StorageCellIn(storage, C) && DatabaseCellIn(database, C) && InstanceIn(x, R)
    ensures StorageCellValue(storage, C) == StorageCellValue(x.storage, R)
    ensures DatabaseCellValue(database, C) == DatabaseCellValue(x.database, R)
  {
    ghost var S, D;
    storage, S := CopyStorageCell(x.storage, R);
    database, D := CopyDatabaseCell(x.database, R);
    C := S + D;
    CellsGrow(storage, null, S, C);
    CellsGrow(null, database, D, C);
  }

  method CopyInstance(x: InstanceSpec, ghost R: set<object>) returns (c: InstanceSpec, ghost C: set<object>)
    requires InstanceIn(x, R)
    ensures fresh(C) && InstanceIn(c, C)
    ensures InstanceIn(x, R) && InstanceValue(c, C) == InstanceValue(x, R)
  {
    c := x;
    var replicas, resources, config, P := CopyPlain(x, R);
    var storage, database, S := CopyNested(x, R);
    c := c.(replicas := replicas, storage := storage, resources := resources, database := database, config := config);
    C := P + S;
    CellsGrow(storage, database, S, C);
  }

  ghost predicate InstancesCopied(done: seq<InstanceSpec>, C: set<object>, source: seq<InstanceSpec>, R: set<object>)
    reads C, R
  {
    && |done| == |source| && InstancesIn(done, C) && InstancesIn(source, R)
    && forall i | 0 <= i < |done| :: InstanceValue(done[i], C) == InstanceValue(source[i], R)
  }

  lemma InstancesCopiedMore(done: seq<InstanceSpec>, C: set<object>, source: seq<InstanceSpec>, R: set<object>,
                            x: InstanceSpec, S: set<object>, y: InstanceSpec)
    requires InstancesCopied(done, C, source, R)
    requires InstanceIn(x, S) && InstanceIn(y, R) && InstanceValue(x, S) == InstanceValue(y, R)
    ensures InstancesCopied(done + [x], C + S, source + [y], R)
  {
    InstancesGrow(done, C, C + S);
    InstanceGrows(x, S, C + S);
    forall i | 0 <= i < |done + [x]|
      ensures InstanceIn((done + [x])[i], C + S) && InstanceValue((done + [x])[i], C + S) == InstanceValue((source + [y])[i], R)
    {
      if i < |done| {
        InstanceGrows(done[i], C, C + S);
      }
    }
  }

  lemma InstancesCopiedAll(done: seq<InstanceSpec>, C: set<object>, source: seq<InstanceSpec>, R: set<object>, C': set<object>)
    requires InstancesCopied(done, C, source, R) && C <= C'
    ensures InstancesIn(done, C') && InstanceValues(done, C') == InstanceValues(source, R)
  {
    InstancesGrow(done, C, C');
  }

  /** One turn of the loop over the instances. */
  method CopyNextInstance(a: array<InstanceSpec>, c: array<InstanceSpec>, i: nat, ghost R: set<object>, ghost C: set<object>)
    returns (ghost S: set<object>)
    requires i < a.Length == c.Length && c !in C && c !in R && a != c
    requires InstancesIn(a[..], R) && InstancesCopied(c[..i], C, a[..i], R)
    modifies c
    ensures fresh(S)
    ensures InstancesCopied(c[..i + 1], C + S, a[..i + 1], R)
  {
    ghost var source, done := a[..], c[..i];
    var instance;
    instance, S := CopyInstance(a[i], R);
    InstancesCopiedMore(done, C, source[..i], R, instance, S, source[i]);
    c[i] := instance;
    assert c[..i + 1] == done + [instance] && a[..i + 1] == source[..i] + [source[i]];
  }

  method CopyInstances(a: array<InstanceSpec>, ghost R: set<object>) returns (c: array<InstanceSpec>, ghost C: set<object>)
    requires a in R && InstancesIn(a[..], R)
    ensures fresh(C) && c in C && InstancesIn(c[..], C)
    ensures InstancesIn(a[..], R) && InstanceValues(c[..], C) == InstanceValues(a[..], R)
  {
    c := new InstanceSpec[a.Length];
    C := {};
    var i := 0;
    while i < a.Length
      invariant 0 <= i <= a.Length
      invariant fresh(C) && c !in C && c !in R
      invariant InstancesIn(a[..], R) && InstancesCopied(c[..i], C, a[..i], R)
    {
      ghost var S := CopyNextInstance(a, c, i, R, C);
      C := C + S;
      i := i + 1;
    }
    assert a[..i] == a[..] && c[..i] == c[..];
    InstancesCopiedAll(c[..], C, a[..], R, C + {c});
    C := C + {c};
  }

  // ------------------------------------------------------------------ the cluster spec

  datatype BackupSpec = BackupSpec(enabled: bool, schedule: string, kind: string, config: Config)

  /** Fields whose address can be taken are cells of their own. */
  class ClusterSpec {
    var postgresVersion: string
    var instances: array?<InstanceSpec>
    var highAvailability: ApiTypes.HASpec
    var backup: BackupSpec
    const replicas: Cell<int>
    var role: string
    const storage: Cell<StorageSpec>
    const resources: Cell<ApiTypes.ResourceRequirements>
    const database: Cell<DatabaseSpec>
    var monitoring: ApiTypes.MonitoringSpec

    /** Go's `*out = *in`, then the copies of what the fields refer to. */
    constructor (spec: ClusterSpec, instances: array?<InstanceSpec>, config: Config, storage: StorageSpec, database: DatabaseSpec)
      ensures fresh(replicas) && fresh(this.storage) && fresh(resources) && fresh(this.database)
      ensures SameFields(this, spec)
      ensures this.instances == instances && backup.config == config
      ensures this.storage.value == storage && this.database.value == database
    {
      postgresVersion, this.instances, highAvailability := spec.postgresVersion, spec.instances, spec.highAvailability;
      backup, role, monitoring := spec.backup, spec.role, spec.monitoring;
      replicas := new Cell(spec.replicas.value);
      this.storage := new Cell(storage);
      resources := new Cell(spec.resources.value);
      this.database := new Cell(database);
      new;
      this.instances := instances;
      backup := backup.(config := config);
    }
  }

  /** The fields that hold no reference. */
  ghost predicate SameFields(c: ClusterSpec, spec: ClusterSpec)
    reads c, spec, c.replicas, spec.replicas, c.resources, spec.resources
  {
    && c.postgresVersion == spec.postgresVersion && c.highAvailability == spec.highAvailability
    && c.backup == spec.backup.(config := c.backup.config)
    && c.replicas.value == spec.replicas.value && c.role == spec.role
    && c.resources.value == spec.resources.value && c.monitoring == spec.monitoring
  }

  datatype BackupV = BackupV(enabled: bool, schedule: string, kind: string, config: Option<map<string, string>>)

  datatype ClusterV = ClusterV(
    postgresVersion: string,
    instances: Option<seq<InstanceV>>,
    highAvailability: ApiTypes.HASpec,
    backup: BackupV,
    replicas: int,
    role: string,
    storage: StorageV,
    resources: ApiTypes.ResourceRequirements,
    database: DatabaseV,
    monitoring: ApiTypes.MonitoringSpec)

  ghost predicate ClusterIn(c: ClusterSpec, R: set<object>)
    reads R
  {
    && c in R && c.replicas in R && c.storage in R && c.resources in R && c.database in R
    && Within(c.backup.config, R)
    && StorageIn(c.storage.value, R)
    && DatabaseIn(c.database.value, R)
    && SliceIn(c.instances, R)
  }

  ghost function ClusterValue(c: ClusterSpec, R: set<object>): ClusterV
    requires ClusterIn(c, R)
    reads R
  {
    ClusterV(
      c.postgresVersion,
      SliceValue(c.instances, R),
      c.highAvailability,
      BackupV(c.backup.enabled, c.backup.schedule, c.backup.kind, Content(c.backup.config)),
      c.replicas.value, c.role, StorageValue(c.storage.value), c.resources.value, DatabaseValue(c.database.value, R),
      c.monitoring)
  }

  method CopyFlat(spec: ClusterSpec, ghost R: set<object>) returns (config: Config, storage: StorageSpec, ghost C: set<object>)
    requires ClusterIn(spec, R)
    ensures fresh(C) && Within(config, C) && StorageIn(storage, C) && ClusterIn(spec, R)
    ensures Content(config) == Content(spec.backup.config) && StorageValue(storage) == StorageValue(spec.storage.value)
  {
    config := CopyConfig(spec.backup.config);
    storage := CopyStorage(spec.storage.value);
    C := Alone(config) + Alone(storage.accessModes);
  }

  method CopyTrees(spec: ClusterSpec, ghost R: set<object>)
    returns (instances: array?<InstanceSpec>, database: DatabaseSpec, ghost C: set<object>)
    requires ClusterIn(spec, R)
    ensures fresh(C) && SliceIn(instances, C) && DatabaseIn(database, C) && ClusterIn(spec, R)
    ensures SliceValue(instances, C) == SliceValue(spec.instances, R)
    ensures DatabaseValue(database, C) == DatabaseValue(spec.database.value, R)
  {
    ghost var I, D;
    instances, I := CopySlice(spec.instances, R);
    database, D := CopyDatabase(spec.database.value, R);
    C := I + D;
    SliceGrows(instances, I, C);
    DatabaseGrows(database, D, C);
  }

  lemma SliceGrows(a: array?<InstanceSpec>, R: set<object>, R': set<object>)
    requires SliceIn(a, R) && R <= R'
    ensures SliceIn(a, R') && SliceValue(a, R') == SliceValue(a, R)
  {
    if a != null {
      InstancesGrow(a[..], R, R');
    }
  }

  ghost predicate SliceIn(a: array?<InstanceSpec>, R: set<object>)
    reads R
  {
    a != null ==> a in R && InstancesIn(a[..], R)
  }

  ghost function SliceValue(a: array?<InstanceSpec>, R: set<object>): Option<seq<InstanceV>>
    requires SliceIn(a, R)
    reads R
  {
    if a == null then None else Some(InstanceValues(a[..], R))
  }

  method CopySlice(a: array?<InstanceSpec>, ghost R: set<object>) returns (c: array?<InstanceSpec>, ghost C: set<object>)
    requires SliceIn(a, R)
    ensures fresh(C) && SliceIn(c, C)
    ensures SliceIn(a, R) && SliceValue(c, C) == SliceValue(a, R)
  {
    if a == null { return null, {}; }
    c, C := CopyInstances(a, R);
  }

  /** Copies, within D, of everything the fields of a spec refer to. */
  ghost predicate Parts(spec: ClusterSpec, R: set<object>, instances: array?<InstanceSpec>, config: Config,
                        storage: StorageSpec, database: DatabaseSpec, D: set<object>)
    reads R, D
  {
    && ClusterIn(spec, R)
    && Within(config, D) && StorageIn(storage, D) && SliceIn(instances, D) && DatabaseIn(database, D)
    && Content(config) == Content(spec.backup.config)
    && StorageValue(storage) == StorageValue(spec.storage.value)
    && SliceValue(instances, D) == SliceValue(spec.instances, R)
    && DatabaseValue(database, D) == DatabaseValue(spec.database.value, R)
  }

  method CopyParts(spec: ClusterSpec, ghost R: set<object>)
    returns (instances: array?<InstanceSpec>, config: Config, storage: StorageSpec, database: DatabaseSpec, ghost D: set<object>)
    requires ClusterIn(spec, R)
    ensures fresh(D) && Parts(spec, R, instances, config, storage, database, D)
  {
    ghost var P, T;
    config, storage, P := CopyFlat(spec, R);
    instances, database, T := CopyTrees(spec, R);
    D := P + T;
    SliceGrows(instances, T, D);
    DatabaseGrows(database, T, D);
  }

  /** The fields of the copy are right: so is the copy. */
  lemma ClusterCopied(out: ClusterSpec, C: set<object>, spec: ClusterSpec, R: set<object>, D: set<object>)
    requires Parts(spec, R, out.instances, out.backup.config, out.storage.value, out.database.value, D) && SameFields(out, spec)
    requires {out, out.replicas, out.storage, out.resources, out.database} + D <= C
    ensures ClusterIn(out, C) && ClusterValue(out, C) == ClusterValue(spec, R)
  {
    DatabaseGrows(out.database.value, D, C);
    SliceGrows(out.instances, D, C);
  }

  method Assemble(spec: ClusterSpec, ghost R: set<object>, instances: array?<InstanceSpec>, config: Config,
                  storage: StorageSpec, database: DatabaseSpec, ghost D: set<object>)
    returns (out: ClusterSpec, ghost own: set<object>)
    requires Parts(spec, R, instances, config, storage, database, D)
    ensures Parts(spec, R, instances, config, storage, database, D) && SameFields(out, spec)
    ensures fresh(own) && own == {out, out.replicas, out.storage, out.resources, out.database}
    ensures out.instances == instances && out.backup.config == config
    ensures out.storage.value == storage && out.database.value == database
  {
    out := new ClusterSpec(spec, instances, config, storage, database);
    assert Parts(spec, R, instances, config, storage, database, D);
    own := {out, out.replicas, out.storage, out.resources, out.database};
  }

  method CopyCluster(spec: ClusterSpec, ghost R: set<object>) returns (out: ClusterSpec, ghost C: set<object>)
    requires ClusterIn(spec, R)
    ensures fresh(C) && ClusterIn(out, C)
    ensures ClusterIn(spec, R) && ClusterValue(out, C) == ClusterValue(spec, R)
  {
    var instances, config, storage, database, D := CopyParts(spec, R);
    ghost var own;
    out, own := Assemble(spec, R, instances, config, storage, database, D);
    C := own + D;
    ClusterCopied(out, C, spec, R, D);
  }

  /**
   DeepCopy of a cluster spec, whatever its cells share with each other: the copy means the
   same, nil and empty apart, all its cells are new, and the source means what it meant.
   */
  method DeepCopyCluster(spec: ClusterSpec?, ghost R: set<object>) returns (out: ClusterSpec?, ghost C: set<object>)
    requires spec != null ==> ClusterIn(spec, R)
    ensures fresh(C) && C !! R && (out == null <==> spec == null)
    ensures spec != null ==> ClusterIn(out, C) && ClusterIn(spec, R)
    ensures spec != null ==> ClusterValue(out, C) == ClusterValue(spec, R) == old(ClusterValue(spec, R))
  {
    if spec == null { return null, {}; }
    out, C := CopyCluster(spec, R);
  }

  // ------------------------------------------------------------------ a spec that shares its own fields

  /** The default instance of controllers/postgrescluster_controller.go points into the spec it belongs to. */
  ghost predicate PointsInto(spec: ClusterSpec)
    reads spec, spec.instances
  {
    && spec.instances != null && spec.instances.Length == 1
    && var x := spec.instances[0];
       x.replicas == spec.replicas && x.storage == spec.storage && x.resources == spec.resources && x.database == spec.database
  }

  method InjectDefault(spec: ClusterSpec, ghost R: set<object>) returns (ghost R': set<object>)
    requires ClusterIn(spec, R)
    modifies spec`instances
    ensures R <= R' && fresh(R' - R) && ClusterIn(spec, R') && PointsInto(spec)
    ensures InstanceValue(spec.instances[0], R')
         == InstanceV("primary", Some(spec.replicas.value), "primary", Some(StorageValue(spec.storage.value)),
                      Some(spec.resources.value), Some(DatabaseValue(spec.database.value, R')), None)
  {
    var x := InstanceSpec("primary", spec.replicas, "primary", spec.storage, spec.resources, spec.database, null);
    DatabaseGrows(spec.database.value, R, R);
    var instances := new InstanceSpec[1](i => x);
    R' := R + {instances};
    DatabaseGrows(spec.database.value, R, R');
    spec.instances := instances;
    assert DatabaseIn(spec.database.value, R');
  }

  /** A spec whose default instance shares its storage and database is copied like any other. */
  method CopyWithDefault(spec: ClusterSpec, ghost R: set<object>)
    returns (out: ClusterSpec, ghost R': set<object>, ghost C: set<object>)
    requires ClusterIn(spec, R)
    modifies spec`instances
    ensures PointsInto(spec) && ClusterIn(spec, R') && ClusterIn(out, C)
    ensures fresh(C) && C !! R' && ClusterValue(out, C) == ClusterValue(spec, R')
  {
    R' := InjectDefault(spec, R);
    out, C := CopyCluster(spec, R');
  }
}
