/**
 The file generatePostgresConfig writes and what PostgreSQL makes of it: the last entry for a
 name wins, and case does not matter (section 20.1.2 of the PostgreSQL 15 documentation).

 The file is first a list of lines, for some order in which each instance's map was ranged over,
 and then a text. Reading the text line by line gives the settings back; they are those intended
 for every order exactly if no instance gives two values to what folds to the same name.
 */
module PostgresConf {
  import opened ApiTypes

  // ------------------------------------------------------------------ writing the file

  function Join(lines: seq<string>): string {
    if lines == [] then "" else Join(lines[..|lines| - 1]) + lines[|lines| - 1] + "\n"
  }

  function Flatten(blocks: seq<seq<string>>): seq<string> {
    if blocks == [] then [] else Flatten(blocks[..|blocks| - 1]) + blocks[|blocks| - 1]
  }

  function HALines(ha: HASpec): seq<string> {
    if !ha.enabled then []
    else
      [SettingLine("synchronous_commit", "on")]
      + if ha.synchronousReplication then [SettingLine("synchronous_standby_names", "'*'")] else []
  }

  /** An order in which Go may range over the map: every key once. */
  ghost predicate IsOrder(config: map<string, string>, order: seq<string>) {
    && (forall k :: k in order <==> k in config)
    && (forall i, j | 0 <= i < j < |order| :: order[i] != order[j])
  }

  ghost predicate AreOrders(instances: seq<InstanceSpec>, orders: seq<seq<string>>) {
    && |orders| == |instances|
    && forall i | 0 <= i < |instances| :: IsOrder(instances[i].config, orders[i])
  }

  function SettingLine(k: string, v: string): string {
    k + " = " + v
  }

  /** The lines of a map whose keys Go ranges over in this order. */
  function SettingLines(config: map<string, string>, order: seq<string>): (lines: seq<string>)
    requires forall k | k in order :: k in config
    ensures |lines| == |order|
    ensures forall i | 0 <= i < |order| :: lines[i] == SettingLine(order[i], config[order[i]])
  {
    seq(|order|, i requires 0 <= i < |order| => SettingLine(order[i], config[order[i]]))
  }

  function Title(instance: InstanceSpec): string {
    "# Configuration for instance " + instance.name
  }

  function Block(instance: InstanceSpec, order: seq<string>): seq<string>
    requires IsOrder(instance.config, order)
  {
    if instance.config == map[] then []
    else ["", Title(instance)] + SettingLines(instance.config, order)
  }

  function Blocks(instances: seq<InstanceSpec>, orders: seq<seq<string>>): (blocks: seq<seq<string>>)
    requires AreOrders(instances, orders)
    ensures |blocks| == |instances|
    ensures forall i | 0 <= i < |instances| :: blocks[i] == Block(instances[i], orders[i])
  {
    seq(|instances|, i requires 0 <= i < |instances| => Block(instances[i], orders[i]))
  }

  /** The file; `orders` are the ranges Go happens to choose. */
  function ConfigText(ha: HASpec, instances: seq<InstanceSpec>, orders: seq<seq<string>>): string
    requires AreOrders(instances, orders)
  {
    Join(HALines(ha) + Flatten(Blocks(instances, orders)))
  }

  method AppendLine(config: string, ghost before: seq<string>, line: string) returns (longer: string)
    requires config == Join(before)
    ensures longer == Join(before + [line])
  {
    longer := config + line + "\n";
    assert (before + [line])[..|before|] == before;
  }

  lemma TakeMore(before: seq<string>, lines: seq<string>, j: nat)
    requires j < |lines|
    ensures before + lines[..j] + [lines[j]] == before + lines[..j + 1]
  {
  }

  lemma AppendTwo(before: seq<string>, x: string, y: string, lines: seq<string>)
    ensures before + [x] + [y] + lines == before + ([x, y] + lines)
  {
  }

  method AppendSettings(config: string, ghost before: seq<string>, settings: map<string, string>, order: seq<string>)
    returns (longer: string)
    requires config == Join(before) && IsOrder(settings, order)
    ensures longer == Join(before + SettingLines(settings, order))
  {
    longer := config;
    ghost var lines := SettingLines(settings, order);
    ghost var written := before;
    var j := 0;
    while j < |order|
      invariant 0 <= j <= |order|
      invariant longer == Join(written) && written == before + lines[..j]
    {
      longer := AppendLine(longer, written, SettingLine(order[j], settings[order[j]]));
      TakeMore(before, lines, j);
      written := written + [lines[j]];
      j := j + 1;
    }
    assert lines[..j] == lines;
  }

  /** One instance's block, appended to what is written so far. */
  method AppendInstance(config: string, ghost before: seq<string>, instance: InstanceSpec, order: seq<string>)
    returns (longer: string)
    requires config == Join(before) && IsOrder(instance.config, order)
    ensures longer == Join(before + Block(instance, order))
  {
    if instance.config == map[] {
      assert before + [] == before;
      return config;
    }
    var title := Title(instance);
    longer := AppendLine(config, before, "");
    longer := AppendLine(longer, before + [""], title);
    longer := AppendSettings(longer, before + [""] + [title], instance.config, order);
    AppendTwo(before, "", title, SettingLines(instance.config, order));
  }

  method AppendInstances(config: string, ghost before: seq<string>, instances: seq<InstanceSpec>, orders: seq<seq<string>>)
    returns (longer: string)
    requires config == Join(before) && AreOrders(instances, orders)
    ensures longer == Join(before + Flatten(Blocks(instances, orders)))
  {
    longer := config;
    ghost var blocks := Blocks(instances, orders);
    var i := 0;
    assert before + Flatten(blocks[..0]) == before;
    while i < |instances|
      invariant 0 <= i <= |instances|
      invariant longer == Join(before + Flatten(blocks[..i]))
    {
      longer := AppendInstance(longer, before + Flatten(blocks[..i]), instances[i], orders[i]);
      FlattenMore(before, blocks, i);
      i := i + 1;
    }
    assert blocks[..i] == blocks;
  }

  lemma FlattenMore(before: seq<string>, blocks: seq<seq<string>>, i: nat)
    requires i < |blocks|
    ensures before + Flatten(blocks[..i]) + blocks[i] == before + Flatten(blocks[..i + 1])
  {
    assert blocks[..i + 1][..i] == blocks[..i];
  }

  /** generatePostgresConfig: the file grows by appending to a string. */
  method GeneratePostgresConfig(ha: HASpec, instances: seq<InstanceSpec>, orders: seq<seq<string>>)
    returns (config: string)
    requires AreOrders(instances, orders)
    ensures config == ConfigText(ha, instances, orders)
  {
    config := "";
    ghost var written := [];
    var lines := HALines(ha);
    if ha.enabled {
      config := AppendLine(config, written, lines[0]);
      written := [lines[0]];
      if ha.synchronousReplication {
        config := AppendLine(config, written, lines[1]);
        written := [lines[0], lines[1]];
      }
    }
    assert written == lines;
    config := AppendInstances(config, lines, instances, orders);
  }

  // ------------------------------------------------------------------ reading it back

  /** The index of the first `c`, or the length of the text. */
  function IndexOf(text: string, c: char): (n: nat)
    ensures n <= |text|
    ensures forall i | 0 <= i < n :: text[i] != c
    ensures n < |text| ==> text[n] == c
  {
    if text == "" || text[0] == c then 0 else 1 + IndexOf(text[1..], c)
  }

  /** PostgreSQL compares setting names without regard to ASCII case. */
  function FoldChar(c: char): char {
    if 'A' <= c <= 'Z' then c + ('a' - 'A') else c
  }

  function FoldName(name: string): (folded: string)
    ensures |folded| == |name|
    ensures forall i | 0 <= i < |name| :: folded[i] == FoldChar(name[i])
  {
    seq(|name|, i requires 0 <= i < |name| => FoldChar(name[i]))
  }

  type Settings = map<string, string>

  /** A line sets nothing when blank or a comment, else the name before its first blank. */
  function Apply(line: string, settings: Settings): Settings {
    if line == "" || line[0] == '#' then settings
    else
      var n := IndexOf(line, ' ');
      if n + 3 <= |line| && line[n..n + 3] == " = " then settings[FoldName(line[..n]) := line[n + 3..]]
      else settings
  }

  /** Reading a file from some settings on: line by line, the last entry for a name wins. */
  function Read(text: string, settings: Settings): Settings
    decreases |text|
  {
    if text == "" then settings
    else
      var n := IndexOf(text, '\n');
      var after := Apply(text[..n], settings);
      if n == |text| then after else Read(text[n + 1..], after)
  }

  function ApplyAll(lines: seq<string>, settings: Settings): Settings {
    if lines == [] then settings else ApplyAll(lines[1..], Apply(lines[0], settings))
  }

  ghost predicate OneLine(s: string) {
    '\n' !in s
  }

  ghost predicate OneLineEach(lines: seq<string>) {
    forall i | 0 <= i < |lines| :: OneLine(lines[i])
  }

  lemma {:induction false} IndexOfFirst(before: string, c: char, after: string)
    requires c !in before
    ensures IndexOf(before + [c] + after, c) == |before|
  {
    if before != "" {
      IndexOfFirst(before[1..], c, after);
      assert (before + [c] + after)[1..] == before[1..] + [c] + after;
    }
  }

  lemma ReadLine(line: string, rest: string, settings: Settings)
    requires OneLine(line)
    ensures Read(line + "\n" + rest, settings) == Read(rest, Apply(line, settings))
  {
    var text := line + "\n" + rest;
    IndexOfFirst(line, '\n', rest);
    assert line + ['\n'] + rest == text;
    assert text[..|line|] == line && text[|line| + 1..] == rest;
  }

  lemma {:induction false} JoinAppend(a: seq<string>, b: seq<string>)
    ensures Join(a + b) == Join(a) + Join(b)
  {
    if b == [] {
      assert a + b == a;
    } else {
      var n := |b| - 1;
      JoinAppend(a, b[..n]);
      assert (a + b)[..|a + b| - 1] == a + b[..n];
      Associate(Join(a), Join(b[..n]), b[n], "\n");
    }
  }

  lemma Associate(a: string, b: string, c: string, d: string)
    ensures a + b + c + d == a + (b + c + d)
  {
  }

  lemma {:induction false} ReadJoin(lines: seq<string>, settings: Settings)
    requires OneLineEach(lines)
    ensures Read(Join(lines), settings) == ApplyAll(lines, settings)
  {
    if lines != [] {
      JoinAppend([lines[0]], lines[1..]);
      assert [lines[0]] + lines[1..] == lines;
      assert Join([lines[0]]) == lines[0] + "\n";
      assert Join(lines) == lines[0] + "\n" + Join(lines[1..]);
      ReadLine(lines[0], Join(lines[1..]), settings);
      ReadJoin(lines[1..], Apply(lines[0], settings));
    }
  }

  // ------------------------------------------------------------------ what the lines set

  /** The names and values a line can carry: names without blanks, nothing over a line. */
  ghost predicate PlainName(k: string) {
    k != "" && OneLine(k) && ' ' !in k && k[0] != '#'
  }

  ghost predicate PlainConfig(config: map<string, string>) {
    forall k | k in config :: PlainName(k) && OneLine(config[k])
  }

  ghost predicate PlainInstances(instances: seq<InstanceSpec>) {
    forall i | 0 <= i < |instances| :: PlainConfig(instances[i].config) && OneLine(instances[i].name)
  }

  lemma ApplySetting(k: string, v: string, settings: Settings)
    requires PlainName(k)
    ensures Apply(SettingLine(k, v), settings) == settings[FoldName(k) := v]
  {
    var line, n := SettingLine(k, v), |k|;
    IndexOfFirst(k, ' ', "= " + v);
    assert k + [' '] + ("= " + v) == line;
    assert line[0] == k[0] && line[..n] == k && line[n..n + 3] == " = " && line[n + 3..] == v;
  }

  /** The settings of a map written from the `j`-th key on. */
  ghost function WrittenFrom(config: map<string, string>, order: seq<string>, j: nat): Settings
    requires IsOrder(config, order) && j <= |order|
    decreases |order| - j
  {
    if j == |order| then map[]
    else map[FoldName(order[j]) := config[order[j]]] + WrittenFrom(config, order, j + 1)
  }

  lemma UpdateThenMerge(settings: Settings, n: string, v: string, rest: Settings)
    ensures settings[n := v] + rest == settings + (map[n := v] + rest)
  {
  }

  lemma {:induction false} ApplySettings(config: map<string, string>, order: seq<string>, j: nat, settings: Settings)
    requires PlainConfig(config) && IsOrder(config, order) && j <= |order|
    ensures ApplyAll(SettingLines(config, order)[j..], settings) == settings + WrittenFrom(config, order, j)
    decreases |order| - j
  {
    if j < |order| {
      var k, lines := order[j], SettingLines(config, order);
      assert k in config;
      ApplySetting(k, config[k], settings);
      var next := settings[FoldName(k) := config[k]];
      assert lines[j..][1..] == lines[j + 1..];
      ApplySettings(config, order, j + 1, next);
      UpdateThenMerge(settings, FoldName(k), config[k], WrittenFrom(config, order, j + 1));
    } else {
      assert settings + map[] == settings;
    }
  }

  lemma {:induction false} ApplyAllAppend(a: seq<string>, b: seq<string>, settings: Settings)
    ensures ApplyAll(a + b, settings) == ApplyAll(b, ApplyAll(a, settings))
  {
    if a == [] {
      assert a + b == b;
    } else {
      assert (a + b)[1..] == a[1..] + b;
      ApplyAllAppend(a[1..], b, Apply(a[0], settings));
    }
  }

  lemma ApplyTitle(title: string, settings: Settings)
    requires |title| > 0 && title[0] == '#'
    ensures ApplyAll(["", title], settings) == settings
  {
    assert ["", title][1..] == [title] && [title][1..] == [];
    assert ApplyAll([title], settings) == ApplyAll([], Apply(title, settings));
    assert ApplyAll(["", title], settings) == ApplyAll([title], Apply("", settings));
  }

  lemma SomeElement(order: seq<string>)
    ensures order == [] || exists k :: k in order
  {
    assert order != [] ==> order[0] in order;
  }

  lemma ApplyBlock(instance: InstanceSpec, order: seq<string>, settings: Settings)
    requires PlainConfig(instance.config) && IsOrder(instance.config, order)
    ensures ApplyAll(Block(instance, order), settings) == settings + WrittenFrom(instance.config, order, 0)
  {
    var config := instance.config;
    if config == map[] {
      SomeElement(order);
      assert settings + map[] == settings;
    } else {
      var lines := SettingLines(config, order);
      ApplyAllAppend(["", Title(instance)], lines, settings);
      ApplyTitle(Title(instance), settings);
      ApplySettings(config, order, 0, settings);
      assert lines[0..] == lines;
    }
  }

  /** Settings overridden by a list of settings, one after another. */
  ghost function Overlay(settings: Settings, overrides: seq<Settings>): Settings {
    if overrides == [] then settings
    else Overlay(settings, overrides[..|overrides| - 1]) + overrides[|overrides| - 1]
  }

  ghost function Written(instances: seq<InstanceSpec>, orders: seq<seq<string>>): (overrides: seq<Settings>)
    requires AreOrders(instances, orders)
    ensures |overrides| == |instances|
    ensures forall i | 0 <= i < |instances| :: overrides[i] == WrittenFrom(instances[i].config, orders[i], 0)
  {
    seq(|instances|, i requires 0 <= i < |instances| => WrittenFrom(instances[i].config, orders[i], 0))
  }

  /** Each block overrides the settings before it by its own. */
  ghost predicate Overriding(blocks: seq<seq<string>>, overrides: seq<Settings>) {
    && |blocks| == |overrides|
    && forall i, settings: Settings | 0 <= i < |blocks| :: ApplyAll(blocks[i], settings) == settings + overrides[i]
  }

  lemma {:induction false} ApplyBlocks(blocks: seq<seq<string>>, overrides: seq<Settings>, settings: Settings)
    requires Overriding(blocks, overrides)
    ensures ApplyAll(Flatten(blocks), settings) == Overlay(settings, overrides)
  {
    if blocks != [] {
      var n := |blocks| - 1;
      ApplyBlocks(blocks[..n], overrides[..n], settings);
      ApplyAllAppend(Flatten(blocks[..n]), blocks[n], settings);
    }
  }

  lemma {:induction false} FlattenOneLine(blocks: seq<seq<string>>)
    requires forall i | 0 <= i < |blocks| :: OneLineEach(blocks[i])
    ensures OneLineEach(Flatten(blocks))
  {
    if blocks != [] {
      FlattenOneLine(blocks[..|blocks| - 1]);
    }
  }

  lemma BlockOneLine(instance: InstanceSpec, order: seq<string>)
    requires PlainConfig(instance.config) && OneLine(instance.name) && IsOrder(instance.config, order)
    ensures OneLineEach(Block(instance, order))
  {
    forall i | 0 <= i < |order| ensures OneLine(SettingLines(instance.config, order)[i]) {
      assert order[i] in instance.config;
    }
    assert OneLine(Title(instance));
  }

  /** What PostgreSQL makes of the file, for any orders. */
  lemma ReadConfig(ha: HASpec, instances: seq<InstanceSpec>, orders: seq<seq<string>>)
    requires PlainInstances(instances) && AreOrders(instances, orders)
    ensures Read(ConfigText(ha, instances, orders), map[])
         == Overlay(ApplyAll(HALines(ha), map[]), Written(instances, orders))
  {
    var blocks := Blocks(instances, orders);
    forall i | 0 <= i < |blocks| ensures OneLineEach(blocks[i]) {
      BlockOneLine(instances[i], orders[i]);
    }
    FlattenOneLine(blocks);
    ReadJoin(HALines(ha) + Flatten(blocks), map[]);
    ApplyAllAppend(HALines(ha), Flatten(blocks), map[]);
    forall i, settings: Settings | 0 <= i < |blocks|
      ensures ApplyAll(blocks[i], settings) == settings + Written(instances, orders)[i]
    {
      ApplyBlock(instances[i], orders[i], settings);
    }
    ApplyBlocks(blocks, Written(instances, orders), ApplyAll(HALines(ha), map[]));
  }

  // ------------------------------------------------------------------ independence of the order

  ghost predicate Has(config: map<string, string>, n: string) {
    exists k :: k in config && FoldName(k) == n
  }

  /** All keys PostgreSQL takes for this name have the same value. */
  ghost predicate AgreesOn(config: map<string, string>, n: string) {
    forall k, k' | k in config && k' in config && FoldName(k) == n == FoldName(k') :: config[k] == config[k']
  }

  /** The last instance that sets this name has one value for it, or no instance sets it. */
  ghost predicate Decided(instances: seq<InstanceSpec>, n: string) {
    instances != [] ==>
      var last := |instances| - 1;
      if Has(instances[last].config, n) then AgreesOn(instances[last].config, n) else Decided(instances[..last], n)
  }

  ghost predicate AllDecided(instances: seq<InstanceSpec>) {
    forall n :: Decided(instances, n)
  }

  ghost function KeyOf(config: map<string, string>, n: string): (k: string)
    requires exists k :: k in config && FoldName(k) == n
    ensures k in config && FoldName(k) == n
  {
    var k :| k in config && FoldName(k) == n; k
  }

  /** The settings a map stands for, whatever the order. */
  ghost function Folded(config: map<string, string>): Settings {
    map n | n in (set k | k in config :: FoldName(k)) :: config[KeyOf(config, n)]
  }

  ghost function HASettings(ha: HASpec): Settings {
    if !ha.enabled then map[]
    else
      map["synchronous_commit" := "on"]
      + if ha.synchronousReplication then map["synchronous_standby_names" := "'*'"] else map[]
  }

  ghost function Overrides(instances: seq<InstanceSpec>): (overrides: seq<Settings>)
    ensures |overrides| == |instances|
    ensures forall i | 0 <= i < |instances| :: overrides[i] == Folded(instances[i].config)
  {
    seq(|instances|, i requires 0 <= i < |instances| => Folded(instances[i].config))
  }

  /** What a cluster means to set: the HA settings, overridden by each instance's map in list order. */
  ghost function Intended(ha: HASpec, instances: seq<InstanceSpec>): Settings {
    Overlay(HASettings(ha), Overrides(instances))
  }

  /** The value of some key of that name. */
  ghost predicate Sourced(config: map<string, string>, n: string, v: string) {
    exists k :: k in config && FoldName(k) == n && config[k] == v
  }

  lemma {:induction false} WrittenSourced(config: map<string, string>, order: seq<string>, j: nat, n: string)
    requires IsOrder(config, order) && j <= |order| && n in WrittenFrom(config, order, j)
    ensures Sourced(config, n, WrittenFrom(config, order, j)[n])
    decreases |order| - j
  {
    if j < |order| {
      var k, rest := order[j], WrittenFrom(config, order, j + 1);
      assert k in config;
      if n in rest {
        WrittenSourced(config, order, j + 1, n);
        assert WrittenFrom(config, order, j)[n] == rest[n];
      }
    }
  }

  lemma {:induction false} WrittenNamed(config: map<string, string>, order: seq<string>, j: nat, i: nat)
    requires IsOrder(config, order) && j <= i < |order|
    ensures FoldName(order[i]) in WrittenFrom(config, order, j)
    decreases |order| - j
  {
    if j < i {
      WrittenNamed(config, order, j + 1, i);
    }
  }

  /** What an order writes for a name, and what the map stands for: a value of some key of that name. */
  lemma WrittenAndFolded(config: map<string, string>, order: seq<string>, n: string)
    requires IsOrder(config, order)
    ensures n in WrittenFrom(config, order, 0) <==> Has(config, n)
    ensures n in Folded(config) <==> Has(config, n)
    ensures Has(config, n) && AgreesOn(config, n) ==> WrittenFrom(config, order, 0)[n] == Folded(config)[n]
  {
    if n in WrittenFrom(config, order, 0) {
      WrittenSourced(config, order, 0, n);
    }
    if Has(config, n) {
      var k := KeyOf(config, n);
      var i :| 0 <= i < |order| && order[i] == k;
      WrittenNamed(config, order, 0, i);
    }
  }

  lemma SameSettings(a: Settings, b: Settings)
    requires forall n: string :: SameAt(a, b, n)
    ensures a == b
  {
    forall n | n in a || n in b ensures n in a && n in b && a[n] == b[n] {
      assert SameAt(a, b, n);
    }
  }

  ghost predicate SameAt(a: Settings, b: Settings, n: string) {
    (n in a <==> n in b) && (n in a ==> a[n] == b[n])
  }

  lemma WrittenPrefix(instances: seq<InstanceSpec>, orders: seq<seq<string>>, i: nat)
    requires AreOrders(instances, orders) && i <= |instances|
    ensures AreOrders(instances[..i], orders[..i])
    ensures Written(instances[..i], orders[..i]) == Written(instances, orders)[..i]
    ensures Overrides(instances[..i]) == Overrides(instances)[..i]
  {
  }

  /** A decided name means the same for every order, and what the maps stand for. */
  lemma {:induction false} DecidedMeans(instances: seq<InstanceSpec>, orders: seq<seq<string>>, settings: Settings, n: string)
    requires AreOrders(instances, orders) && Decided(instances, n)
    ensures SameAt(Overlay(settings, Written(instances, orders)), Overlay(settings, Overrides(instances)), n)
  {
    if instances != [] {
      var last := |instances| - 1;
      WrittenPrefix(instances, orders, last);
      WrittenAndFolded(instances[last].config, orders[last], n);
      if !Has(instances[last].config, n) {
        DecidedMeans(instances[..last], orders[..last], settings, n);
      }
    }
  }

  lemma ApplyOne(k: string, v: string, settings: Settings)
    requires PlainName(k) && FoldName(k) == k
    ensures ApplyAll([SettingLine(k, v)], settings) == settings + map[k := v]
  {
    ApplySetting(k, v, settings);
    assert [SettingLine(k, v)][1..] == [];
    assert ApplyAll([SettingLine(k, v)], settings) == ApplyAll([], Apply(SettingLine(k, v), settings));
  }

  lemma ApplyTwo(k: string, v: string, k': string, v': string)
    requires PlainName(k) && FoldName(k) == k && PlainName(k') && FoldName(k') == k'
    ensures ApplyAll([SettingLine(k, v)] + [SettingLine(k', v')], map[]) == map[k := v] + map[k' := v']
  {
    ApplyOne(k, v, map[]);
    ApplyOne(k', v', map[k := v]);
    ApplyAllAppend([SettingLine(k, v)], [SettingLine(k', v')], map[]);
    assert map[] + map[k := v] == map[k := v];
  }

  lemma HALinesSet(ha: HASpec)
    ensures ApplyAll(HALines(ha), map[]) == HASettings(ha)
  {
    CommitPlain();
    StandbyPlain();
    ApplyTwo("synchronous_commit", "on", "synchronous_standby_names", "'*'");
    ApplyOne("synchronous_commit", "on", map[]);
    var first, off := [SettingLine("synchronous_commit", "on")], map["synchronous_commit" := "on"];
    assert first + [] == first && map[] + off == off && off + map[] == off;
  }

  lemma CommitPlain()
    ensures FoldName("synchronous_commit") == "synchronous_commit" && PlainName("synchronous_commit")
  {
  }

  lemma StandbyPlain()
    ensures FoldName("synchronous_standby_names") == "synchronous_standby_names" && PlainName("synchronous_standby_names")
  {
  }

  /**
   Where every name is decided, the file does not depend on the order in which Go ranges over
   the maps: read back, it means the HA settings overridden by each instance's map in list order.
   */
  lemma ConfigMeansIntended(ha: HASpec, instances: seq<InstanceSpec>, orders: seq<seq<string>>)
    requires PlainInstances(instances) && AreOrders(instances, orders) && AllDecided(instances)
    ensures Read(ConfigText(ha, instances, orders), map[]) == Intended(ha, instances)
  {
    ReadConfig(ha, instances, orders);
    HALinesSet(ha);
    forall n: string ensures SameAt(Overlay(HASettings(ha), Written(instances, orders)), Intended(ha, instances), n) {
      DecidedMeans(instances, orders, HASettings(ha), n);
    }
    SameSettings(Overlay(HASettings(ha), Written(instances, orders)), Intended(ha, instances));
  }

  // ------------------------------------------------------------------ the condition is exact

  lemma SomeOrder(keys: set<string>) returns (order: seq<string>)
    ensures forall k :: k in order <==> k in keys
    ensures forall i, j | 0 <= i < j < |order| :: order[i] != order[j]
  {
    order := [];
    var left := keys;
    while left != {}
      invariant left <= keys
      invariant forall k :: k in order <==> k in keys - left
      invariant forall i, j | 0 <= i < j < |order| :: order[i] != order[j]
      decreases left
    {
      var k :| k in left;
      var longer := order + [k];
      forall i, j | 0 <= i < j < |longer| ensures longer[i] != longer[j] {
        assert longer[i] in order;
      }
      assert forall x :: x in longer <==> x in order || x == k;
      order, left := longer, left - {k};
    }
  }

  /** Go may range over a map so that any given key comes last, and then its value stays. */
  lemma LastOrder(config: map<string, string>, k: string) returns (order: seq<string>)
    requires k in config
    ensures IsOrder(config, order) && FoldName(k) in WrittenFrom(config, order, 0)
    ensures WrittenFrom(config, order, 0)[FoldName(k)] == config[k]
  {
    var front := SomeOrder(config.Keys - {k});
    order := front + [k];
    LastStays(config, order, 0);
  }

  lemma {:induction false} LastStays(config: map<string, string>, order: seq<string>, j: nat)
    requires IsOrder(config, order) && j < |order|
    ensures var k := order[|order| - 1];
            FoldName(k) in WrittenFrom(config, order, j) && WrittenFrom(config, order, j)[FoldName(k)] == config[k]
    decreases |order| - j
  {
    if j + 1 < |order| {
      LastStays(config, order, j + 1);
    } else {
      assert WrittenFrom(config, order, j + 1) == map[];
    }
  }

  lemma {:induction false} SomeOrders(instances: seq<InstanceSpec>) returns (orders: seq<seq<string>>)
    ensures AreOrders(instances, orders)
  {
    orders := [];
    var i := 0;
    while i < |instances|
      invariant 0 <= i <= |instances| && AreOrders(instances[..i], orders)
    {
      var order := SomeOrder(instances[i].config.Keys);
      orders := orders + [order];
      i := i + 1;
    }
    assert instances[..i] == instances;
  }

  lemma OverlayLast(settings: Settings, overrides: seq<Settings>, o: Settings, n: string)
    ensures n in o ==> n in Overlay(settings, overrides + [o]) && Overlay(settings, overrides + [o])[n] == o[n]
    ensures n !in o ==> SameAt(Overlay(settings, overrides + [o]), Overlay(settings, overrides), n)
  {
    assert (overrides + [o])[..|overrides|] == overrides;
  }

  lemma WrittenMore(instances: seq<InstanceSpec>, orders: seq<seq<string>>, order: seq<string>)
    requires instances != [] && AreOrders(instances[..|instances| - 1], orders)
    requires IsOrder(instances[|instances| - 1].config, order)
    ensures AreOrders(instances, orders + [order])
    ensures Written(instances, orders + [order])
         == Written(instances[..|instances| - 1], orders) + [WrittenFrom(instances[|instances| - 1].config, order, 0)]
  {
  }

  /** Two orders of one map, with either of two values for a name that disagrees. */
  lemma TwoOrders(config: map<string, string>, n: string) returns (order: seq<string>, order': seq<string>)
    requires !AgreesOn(config, n)
    ensures IsOrder(config, order) && IsOrder(config, order')
    ensures var a, b := WrittenFrom(config, order, 0), WrittenFrom(config, order', 0); n in a && n in b && a[n] != b[n]
  {
    var k, k' :| k in config && k' in config && FoldName(k) == n == FoldName(k') && config[k] != config[k'];
    order := LastOrder(config, k);
    order' := LastOrder(config, k');
  }

  /** For a name that is not decided, Go may range over the maps so that it gets either of two values. */
  lemma {:induction false} UndecidedDiffers(instances: seq<InstanceSpec>, settings: Settings, n: string)
    returns (orders: seq<seq<string>>, orders': seq<seq<string>>)
    requires !Decided(instances, n)
    ensures AreOrders(instances, orders) && AreOrders(instances, orders')
    ensures !SameAt(Overlay(settings, Written(instances, orders)), Overlay(settings, Written(instances, orders')), n)
  {
    var last := |instances| - 1;
    var config, prefix := instances[last].config, instances[..last];
    var order, order';
    if Has(config, n) {
      order, order' := TwoOrders(config, n);
      orders := SomeOrders(prefix);
      orders' := orders;
    } else {
      orders, orders' := UndecidedDiffers(prefix, settings, n);
      order := SomeOrder(config.Keys);
      order' := order;
      WrittenAndFolded(config, order, n);
    }
    WrittenMore(instances, orders, order);
    WrittenMore(instances, orders', order');
    OverlayLast(settings, Written(prefix, orders), WrittenFrom(config, order, 0), n);
    OverlayLast(settings, Written(prefix, orders'), WrittenFrom(config, order', 0), n);
    orders, orders' := orders + [order], orders' + [order'];
  }

  /** Then the file means either of two things. */
  lemma UndecidedDepends(ha: HASpec, instances: seq<InstanceSpec>, n: string)
    returns (orders: seq<seq<string>>, orders': seq<seq<string>>)
    requires PlainInstances(instances) && !Decided(instances, n)
    ensures AreOrders(instances, orders) && AreOrders(instances, orders')
    ensures Read(ConfigText(ha, instances, orders), map[]) != Read(ConfigText(ha, instances, orders'), map[])
  {
    orders, orders' := UndecidedDiffers(instances, ApplyAll(HALines(ha), map[]), n);
    ReadConfig(ha, instances, orders);
    ReadConfig(ha, instances, orders');
  }

  /** Whatever orders Go takes, the file means the same. */
  ghost predicate OrderIndependent(ha: HASpec, instances: seq<InstanceSpec>) {
    forall orders, orders' | AreOrders(instances, orders) && AreOrders(instances, orders') ::
      Read(ConfigText(ha, instances, orders), map[]) == Read(ConfigText(ha, instances, orders'), map[])
  }

  /**
   For every HA setting and every list of instances, the meaning of the file is independent of
   the orders exactly if, for each name, the last instance that sets it has one value for it.
   */
  lemma IndependentIffDecided(ha: HASpec, instances: seq<InstanceSpec>)
    requires PlainInstances(instances)
    ensures OrderIndependent(ha, instances) <==> AllDecided(instances)
  {
    if AllDecided(instances) {
      forall orders | AreOrders(instances, orders)
        ensures Read(ConfigText(ha, instances, orders), map[]) == Intended(ha, instances)
      {
        ConfigMeansIntended(ha, instances, orders);
      }
    } else {
      var n :| !Decided(instances, n);
      var orders, orders' := UndecidedDepends(ha, instances, n);
    }
  }
}
