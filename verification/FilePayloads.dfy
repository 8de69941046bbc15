/** The desired values of the nodes that the file provider plans, as the graph builds them. */
module FilePayloads {
  datatype Value = Text(text: string) | Flag(flag: bool) | Digest(sha: string, bytes: int)

  /** The names of the values; the digest and the size of a sensitive content count as one. */
  datatype Field =
    | Name | Path | Component | Owner | Group | Mode | Ensure | Sensitive | SourcePath | Summary
    | Content | ContentWriteOnly | ContentVersion | ContentDigest | ChangeAction

  type Desired = map<Field, Value>

  function StringDesired(desired: Desired, name: Field): string {
    if name in desired && desired[name].Text? then desired[name].text else ""
  }

  predicate FileContentWriteOnly(desired: Desired) {
    ContentWriteOnly in desired && desired[ContentWriteOnly] == Flag(true)
  }

  predicate EnsureAbsent(desired: Desired) { StringDesired(desired, Ensure) == "absent" }

  datatype FileResourceSpec = FileResourceSpec(
    path: string, component: string, content: string, contentVersion: string, contentWriteOnly: bool,
    sourcePath: string, owner: string, group: string, mode: string, sensitive: bool, ensure: string,
    summary: Value)

  datatype SystemdUnit = SystemdUnit(
    name: string, path: string, content: string, sourcePath: string, owner: string, group: string,
    mode: string, sensitive: bool, ensure: string, changeAction: string, summary: Value)

  /** The values with one more, if it is to be there. */
  function With(d: Desired, c: bool, name: Field, v: Value): (r: Desired)
    ensures r.Keys == if c then d.Keys + {name} else d.Keys
  {
    if c then d[name := v] else d
  }

  /** ... with the path, and what is set of everything that is written there. */
  function Placed(d: Desired, path: string, owner: string, group: string, mode: string, ensure: string): (r: Desired)
    ensures r.Keys == d.Keys + {Path, Owner, Group, Mode, Ensure}
  {
    d[Path := Text(path)][Owner := Text(owner)][Group := Text(group)][Mode := Text(mode)][Ensure := Text(ensure)]
  }

  /** The content itself, or what stands for it if it is sensitive. */
  function Contents(content: string, sensitive: bool, writeOnly: bool, summary: Value): (d: Desired)
    ensures d.Keys <= {Content, ContentDigest}
  {
    With(With(map[], content != "" && !sensitive, Content, Text(content)), content != "" && sensitive && !writeOnly, ContentDigest, summary)
  }

  /** What is desired of a file beside its place. */
  function FileValues(item: FileResourceSpec): (d: Desired)
    ensures ContentWriteOnly in d.Keys <==> item.contentWriteOnly
    ensures ChangeAction !in d.Keys
  {
    var d := With(Contents(item.content, item.sensitive, item.contentWriteOnly, item.summary), item.component != "", Component, Text(item.component));
    var d := With(d, true, Sensitive, Flag(item.sensitive));
    var d := With(d, !item.contentWriteOnly, Summary, item.summary);
    var d := With(d, item.contentWriteOnly, ContentWriteOnly, Flag(true));
    var d := With(d, item.contentVersion != "", ContentVersion, Text(item.contentVersion));
    With(d, item.sourcePath != "", SourcePath, Text(item.sourcePath))
  }

  /** `fileResourceDesiredPayload` */
  function FileResourceDesired(item: FileResourceSpec): (d: Desired)
    ensures ContentWriteOnly in d.Keys <==> item.contentWriteOnly
    ensures ChangeAction !in d.Keys
  {
    Placed(FileValues(item), item.path, item.owner, item.group, item.mode, item.ensure)
  }

  /** What is desired of a unit beside its place. */
  function UnitValues(component: string, item: SystemdUnit): (d: Desired)
    ensures ContentWriteOnly !in d.Keys
    ensures ChangeAction in d.Keys <==> item.changeAction != ""
  {
    var d := With(Contents(item.content, item.sensitive, false, item.summary), component != "", Component, Text(component));
    var d := With(d, true, Name, Text(item.name));
    var d := With(d, true, Summary, item.summary);
    var d := With(d, !item.sensitive, SourcePath, Text(item.sourcePath));
    var d := With(d, item.sensitive, Sensitive, Flag(true));
    With(d, item.changeAction != "", ChangeAction, Text(item.changeAction))
  }

  /** `systemdUnitNode` */
  function SystemdUnitDesired(component: string, item: SystemdUnit): (d: Desired)
    ensures ContentWriteOnly !in d.Keys
    ensures ChangeAction in d.Keys <==> item.changeAction != ""
  {
    Placed(UnitValues(component, item), item.path, item.owner, item.group, item.mode, item.ensure)
  }

  /** The two ways in which the graph builds a node for a file: as a file or secret, and as a unit. */
  datatype Spec = File(file: FileResourceSpec) | Unit(component: string, unit: SystemdUnit)

  function DesiredOf(spec: Spec): Desired {
    match spec
    case File(item) => FileResourceDesired(item)
    case Unit(component, item) => SystemdUnitDesired(component, item)
  }

  /** Only a file is write-only, only a unit has a change action, and so no node is and has both. */
  lemma WriteOnlyOrChangeAction(spec: Spec)
    ensures FileContentWriteOnly(DesiredOf(spec)) <==> spec.File? && spec.file.contentWriteOnly
    ensures StringDesired(DesiredOf(spec), ChangeAction) == if spec.Unit? then spec.unit.changeAction else ""
    ensures FileContentWriteOnly(DesiredOf(spec)) ==> StringDesired(DesiredOf(spec), ChangeAction) == ""
  {
    match spec
    case File(item) =>
      assert ChangeAction !in FileResourceDesired(item);
    case Unit(component, item) =>
      assert ContentWriteOnly !in SystemdUnitDesired(component, item);
  }

  lemma PlacedSays(d: Desired, path: string, owner: string, group: string, mode: string, ensure: string)
    ensures var e := Placed(d, path, owner, group, mode, ensure);
      && StringDesired(e, Path) == path && StringDesired(e, Owner) == owner && StringDesired(e, Group) == group
      && StringDesired(e, Mode) == mode && (EnsureAbsent(e) <==> ensure == "absent")
  {
  }

  /** The values say what was asked for: path, owner, group, mode and presence. */
  lemma PayloadSaysSpec(spec: Spec)
    ensures var d := DesiredOf(spec);
      match spec
      case File(item) =>
        && StringDesired(d, Path) == item.path && StringDesired(d, Owner) == item.owner && StringDesired(d, Group) == item.group
        && StringDesired(d, Mode) == item.mode && (EnsureAbsent(d) <==> item.ensure == "absent")
      case Unit(_, item) =>
        && StringDesired(d, Path) == item.path && StringDesired(d, Owner) == item.owner && StringDesired(d, Group) == item.group
        && StringDesired(d, Mode) == item.mode && (EnsureAbsent(d) <==> item.ensure == "absent")
  {
    match spec
    case File(item) => PlacedSays(FileValues(item), item.path, item.owner, item.group, item.mode, item.ensure);
    case Unit(component, item) => PlacedSays(UnitValues(component, item), item.path, item.owner, item.group, item.mode, item.ensure);
  }
}
