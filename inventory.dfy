/** Inventory synthesis (`AnsiblePlaybook._hosts_group`, `AnsiblePlaybook.hosts`)
    and the choice of inventory path (`AnsiblePlaybook.inventory`). */
module Inventory {
  import opened Wrappers
  import opened PyValues
  import opened Fs
  import opened ConfigResolver

  /** One host line: a host, or a list of tokens written space-separated. */
  datatype HostEntry = Host(name: string) | Tokens(tokens: seq<string>)

  /** The `vars` of a group: a mapping, or a value without `.keys()`, whose block fails. */
  datatype Vars = VarMap(pairs: seq<(string, Value)>) | NotAMapping

  /** What a group name maps to: a node with optional `hosts`, `vars` and `children`
      keys, a plain list of hosts, or any other value printed as one line. */
  datatype Group =
    | Node(hosts: Option<seq<HostEntry>>, vars: Option<Vars>, children: Option<seq<string>>)
    | HostGroup(entries: seq<HostEntry>)
    | LineGroup(line: string)

  /** An inventory specification: one host line, a list of host lines, or groups by name. */
  datatype Spec =
    | Single(line: string)
    | HostList(entries: seq<HostEntry>)
    | Groups(groups: seq<(string, Group)>)

  /** The header every group is given: the format string is used with `.format`,
      which has no `{}` to fill, so the group name never appears. */
  const HEADER := "[%s]"
  const DEFAULT_INVENTORY_FILE := "inventory.ini"
  const DEFAULT_INVENTORY_PATH := "inventory"

  /** The exception raised while writing an entry that is not text: a token list
      holding a non-string, or `hosts`/`children` that cannot be iterated. */
  const NOT_TEXT := TypeError("inventory entry is not text")

  // ----- reading the JSON specification -----

  function StringsOf(vs: seq<Value>): Option<seq<string>> {
    if vs == [] then Some([])
    else if !vs[0].VStr? then None
    else match StringsOf(vs[1..])
      case Some(rest) => Some([vs[0].s] + rest)
      case None => None
  }

  /** A host as `print` or `' '.join` sees it. */
  function EntryOf(v: Value): Result<HostEntry, Exc> {
    match v
    case VList(items) =>
      (match StringsOf(items)
       case Some(tokens) => Ok(Tokens(tokens))
       case None => Err(NOT_TEXT))
    case _ => Ok(Host(Str(v)))
  }

  function EntriesOf(vs: seq<Value>): Result<seq<HostEntry>, Exc> {
    if vs == [] then Ok([])
    else match (EntryOf(vs[0]), EntriesOf(vs[1..]))
      case (Ok(e), Ok(rest)) => Ok([e] + rest)
      case _ => Err(NOT_TEXT)
  }

  /** The host entries of an iterable value (`for host in value`). */
  function IteratedEntries(v: Value): Result<seq<HostEntry>, Exc> {
    match Iterate(v)
    case Ok(items) => EntriesOf(items)
    case Err(_) => Err(NOT_TEXT)
  }

  function GroupOf(v: Value): Result<Group, Exc> {
    match v
    case VDict(d) =>
      var hosts := if "hosts" in Keys(d) then Some(IteratedEntries(GetOr(d, "hosts", VNone))) else None;
      var vars := if "vars" in Keys(d) then
          Some(match GetOr(d, "vars", VNone) case VDict(pairs) => VarMap(pairs) case _ => NotAMapping)
        else None;
      var children := if "children" in Keys(d) then
          Some(match Iterate(GetOr(d, "children", VNone))
               case Ok(items) => Ok(seq(|items|, k requires 0 <= k < |items| => Str(items[k])))
               case Err(_) => Err(NOT_TEXT))
        else None;
      if hosts.Some? && hosts.value.Err? then Err(NOT_TEXT)
      else if children.Some? && children.value.Err? then Err(NOT_TEXT)
      else Ok(Node(if hosts.Some? then Some(hosts.value.value) else None,
                   vars,
                   if children.Some? then Some(children.value.value) else None))
    case VList(items) =>
      (match EntriesOf(items)
       case Ok(es) => Ok(HostGroup(es))
       case Err(e) => Err(e))
    case _ => Ok(LineGroup(Str(v)))
  }

  function GroupsOf(d: seq<(string, Value)>): (r: Result<seq<(string, Group)>, Exc>)
    ensures r.Ok? ==> Keys(r.value) == Keys(d)
  {
    if d == [] then Ok([])
    else match (GroupOf(d[0].1), GroupsOf(d[1..]))
      case (Ok(g), Ok(rest)) => Ok([(d[0].0, g)] + rest)
      case _ => Err(NOT_TEXT)
  }

  /** The specification `hosts` reads from its JSON argument, or the TypeError writing it raises. */
  function SpecOf(v: Value): Result<Spec, Exc> {
    match v
    case VDict(d) =>
      (match GroupsOf(d)
       case Ok(gs) => Ok(Groups(gs))
       case Err(e) => Err(e))
    case VList(items) =>
      (match EntriesOf(items)
       case Ok(es) => Ok(HostList(es))
       case Err(e) => Err(e))
    case _ => Ok(Single(Str(v)))
  }

  // ----- the text written -----

  function EntryLine(e: HostEntry): string {
    match e
    case Host(name) => name
    case Tokens(tokens) => JoinWith(tokens, " ")
  }

  function EntryLines(es: seq<HostEntry>): (lines: seq<string>)
    ensures |lines| == |es|
    ensures forall i :: 0 <= i < |es| ==> lines[i] == EntryLine(es[i])
  {
    seq(|es|, i requires 0 <= i < |es| => EntryLine(es[i]))
  }

  /** `k='v'` for one variable. */
  function VarLine(var_: (string, Value)): string {
    var_.0 + "='" + Str(var_.1) + "'"
  }

  function VarLines(pairs: seq<(string, Value)>): (lines: seq<string>)
    ensures |lines| == |pairs|
    ensures forall i :: 0 <= i < |pairs| ==> lines[i] == VarLine(pairs[i])
  {
    seq(|pairs|, i requires 0 <= i < |pairs| => VarLine(pairs[i]))
  }

  function VarsBlock(name: string, vars: Option<Vars>): seq<string> {
    match vars
    case None => []
    case Some(VarMap(pairs)) => ["[" + name + ":vars]"] + VarLines(pairs) + ["", ""]
    case Some(NotAMapping) => ["[" + name + ":vars]", ""]
  }

  function ChildrenBlock(name: string, children: Option<seq<string>>): seq<string> {
    match children
    case None => []
    case Some(cs) => ["[" + name + ":children]"] + cs + [""]
  }

  function HostLines(hosts: Option<seq<HostEntry>>): seq<string> {
    if hosts.Some? then EntryLines(hosts.value) else []
  }

  /** What `_hosts_group` prints between the header and the final blank line. */
  function GroupBody(name: string, g: Group): seq<string> {
    match g
    case Node(hosts, vars, children) =>
      HostLines(hosts) + [""] + VarsBlock(name, vars) + ChildrenBlock(name, children)
    case HostGroup(es) => EntryLines(es) + [""]
    case LineGroup(line) => [line, ""]
  }

  /** The lines `_hosts_group(name, group)` prints. */
  function GroupLines(name: string, g: Group): seq<string> {
    [HEADER] + GroupBody(name, g) + [""]
  }

  /** A group that `hosts` writes first: a mapping with a `children` key. */
  predicate IsParent(e: (string, Group)) {
    e.1.Node? && e.1.children.Some?
  }

  /** `groups_children`. */
  function ParentNames(gs: seq<(string, Group)>): seq<string> {
    Keys(Filter(gs, IsParent))
  }

  /** The groups in the order `hosts` writes them: `groups_children`, then the
      names not among them (`groups_leaf`). */
  function WriteOrder(gs: seq<(string, Group)>): seq<(string, Group)> {
    var parents := ParentNames(gs);
    Filter(gs, IsParent) + Filter(gs, (e: (string, Group)) => e.0 !in parents)
  }

  function AllGroupLines(order: seq<(string, Group)>): seq<string> {
    if order == [] then [] else GroupLines(order[0].0, order[0].1) + AllGroupLines(order[1..])
  }

  /** The lines `hosts` prints for a specification. */
  function SpecLines(spec: Spec): seq<string> {
    match spec
    case Single(line) => [line]
    case HostList(es) => EntryLines(es)
    case Groups(gs) => AllGroupLines(WriteOrder(gs))
  }

  /** The text of printed lines: each followed by a newline. */
  function Text(lines: seq<string>): string {
    if lines == [] then "" else lines[0] + "\n" + Text(lines[1..])
  }

  lemma {:induction false} TextAppend(a: seq<string>, b: seq<string>)
    ensures Text(a + b) == Text(a) + Text(b)
  {
    if a == [] {
      assert a + b == b;
    } else {
      assert (a + b)[0] == a[0];
      assert (a + b)[1..] == a[1..] + b;
      TextAppend(a[1..], b);
    }
  }

  lemma {:induction false} AllGroupLinesAppend(order: seq<(string, Group)>, e: (string, Group))
    ensures AllGroupLines(order + [e]) == AllGroupLines(order) + GroupLines(e.0, e.1)
  {
    if order != [] {
      assert (order + [e])[1..] == order[1..] + [e];
      AllGroupLinesAppend(order[1..], e);
    }
  }

  lemma AllGroupLinesPrefix(start: seq<string>, order: seq<(string, Group)>, i: nat)
    requires i < |order|
    ensures start + AllGroupLines(order[..i]) + GroupLines(order[i].0, order[i].1) == start + AllGroupLines(order[..i + 1])
  {
    assert order[..i + 1] == order[..i] + [order[i]];
    AllGroupLinesAppend(order[..i], order[i]);
  }

  lemma NodeBodyAppend(start: seq<string>, name: string, hosts: Option<seq<HostEntry>>, vars: Option<Vars>,
                       children: Option<seq<string>>)
    ensures start + HostLines(hosts) + [""] + VarsBlock(name, vars) + ChildrenBlock(name, children)
         == start + GroupBody(name, Node(hosts, vars, children))
  {
    var hl, vb, cb := HostLines(hosts), VarsBlock(name, vars), ChildrenBlock(name, children);
    assert GroupBody(name, Node(hosts, vars, children)) == hl + [""] + vb + cb;
    Assoc(start, hl + [""] + vb, cb);
    Assoc(start, hl + [""], vb);
    Assoc(start, hl, [""]);
  }

  // ----- the StringIO buffer -----

  /** The `StringIO` that `hosts` prints into, as the lines printed so far. */
  class OutputBuffer {
    var lines: seq<string>

    constructor ()
      ensures lines == []
    {
      lines := [];
    }

    /** `print(line, file=output)`. */
    method Print(line: string)
      modifies this
      ensures lines == old(lines) + [line]
    {
      lines := lines + [line];
    }

    /** `output.getvalue()`. */
    function GetValue(): string
      reads this
    {
      Text(lines)
    }
  }

  /** Prints one line per host entry. */
  method PrintEntries(es: seq<HostEntry>, output: OutputBuffer)
    modifies output
    ensures output.lines == old(output.lines) + EntryLines(es)
  {
    var i := 0;
    while i < |es|
      invariant 0 <= i <= |es|
      invariant output.lines == old(output.lines) + EntryLines(es)[..i]
    {
      var line := match es[i] case Host(name) => name case Tokens(tokens) => JoinWith(tokens, " ");
      output.Print(line);
      assert EntryLines(es)[..i + 1] == EntryLines(es)[..i] + [line];
      i := i + 1;
    }
    assert EntryLines(es)[..i] == EntryLines(es);
  }

  /** The loop over `variables.keys()`: one `k='v'` line per variable. */
  method PrintVarLines(pairs: seq<(string, Value)>, output: OutputBuffer)
    modifies output
    ensures output.lines == old(output.lines) + VarLines(pairs)
  {
    var i := 0;
    while i < |pairs|
      invariant 0 <= i <= |pairs|
      invariant output.lines == old(output.lines) + VarLines(pairs)[..i]
    {
      output.Print(pairs[i].0 + "='" + Str(pairs[i].1) + "'");
      assert VarLines(pairs)[..i + 1] == VarLines(pairs)[..i] + [VarLine(pairs[i])];
      i := i + 1;
    }
    assert VarLines(pairs)[..i] == VarLines(pairs);
  }

  /** The `vars` part of `_hosts_group`. */
  method PrintVars(name: string, vars: Option<Vars>, output: OutputBuffer)
    modifies output
    ensures output.lines == old(output.lines) + VarsBlock(name, vars)
  {
    if vars.Some? {
      output.Print("[" + name + ":vars]");
      match vars.value {
        case VarMap(pairs) =>
          PrintVarLines(pairs, output);
          output.Print("");
        case NotAMapping =>
          // `.keys()` raises; the error is logged and the block stays as it is
      }
      output.Print("");
    }
  }

  /** The `children` part of `_hosts_group`. */
  method PrintChildren(name: string, children: Option<seq<string>>, output: OutputBuffer)
    modifies output
    ensures output.lines == old(output.lines) + ChildrenBlock(name, children)
  {
    if children.Some? {
      output.Print("[" + name + ":children]");
      var cs := children.value;
      var j := 0;
      ghost var before := output.lines;
      while j < |cs|
        invariant 0 <= j <= |cs|
        invariant output.lines == before + cs[..j]
      {
        output.Print(cs[j]);
        assert cs[..j + 1] == cs[..j] + [cs[j]];
        j := j + 1;
      }
      assert cs[..j] == cs;
      output.Print("");
    }
  }

  /** The part of `_hosts_group` for a group given as a mapping. */
  method PrintNode(name: string, hosts: Option<seq<HostEntry>>, vars: Option<Vars>,
                   children: Option<seq<string>>, output: OutputBuffer)
    modifies output
    ensures output.lines == old(output.lines) + GroupBody(name, Node(hosts, vars, children))
  {
    ghost var start := output.lines;
    if hosts.Some? {
      PrintEntries(hosts.value, output);
    } else {
      assert output.lines == start + HostLines(hosts);
    }
    output.Print("");
    PrintVars(name, vars, output);
    PrintChildren(name, children, output);
    NodeBodyAppend(start, name, hosts, vars, children);
  }

  /** `_hosts_group`: prints one group. */
  method HostsGroup(name: string, group: Group, output: OutputBuffer)
    modifies output
    ensures output.lines == old(output.lines) + GroupLines(name, group)
  {
    ghost var start := output.lines;
    output.Print(HEADER);
    ghost var afterHeader := output.lines;
    match group {
      case Node(hosts, vars, children) =>
        PrintNode(name, hosts, vars, children, output);
      case HostGroup(es) =>
        PrintEntries(es, output);
        output.Print("");
        Assoc(afterHeader, EntryLines(es), [""]);
      case LineGroup(line) =>
        output.Print(line);
        output.Print("");
        Assoc(afterHeader, [line], [""]);
    }
    ghost var body := GroupBody(name, group);
    assert output.lines == start + [HEADER] + body;
    output.Print("");
    Assoc(start, [HEADER] + body, [""]);
    Assoc(start, [HEADER], body);
  }

  /** Prints the groups in the given order. */
  method PrintGroups(order: seq<(string, Group)>, output: OutputBuffer)
    modifies output
    ensures output.lines == old(output.lines) + AllGroupLines(order)
  {
    ghost var start := output.lines;
    var i := 0;
    while i < |order|
      invariant 0 <= i <= |order|
      invariant output.lines == start + AllGroupLines(order[..i])
    {
      HostsGroup(order[i].0, order[i].1, output);
      AllGroupLinesPrefix(start, order, i);
      i := i + 1;
    }
    assert order[..i] == order;
  }

  /** The printing part of `hosts`: the text of the inventory file for `spec`. */
  method RenderSpec(spec: Spec) returns (content: string)
    ensures content == Text(SpecLines(spec))
  {
    var output := new OutputBuffer();
    match spec {
      case Groups(gs) =>
        PrintGroups(WriteOrder(gs), output);
      case HostList(es) =>
        PrintEntries(es, output);
      case Single(line) =>
        output.Print(line);
    }
    assert output.lines == [] + SpecLines(spec);
    assert output.lines == SpecLines(spec);
    content := output.GetValue();
  }

  /** `hosts`: writes the inventory text for `data` to `path/hostsFile` and returns it. */
  method Hosts(data: Value, path: string, hostsFile: string, fs: FileSystem) returns (r: Result<string, Exc>)
    modifies fs
    ensures SpecOf(data).Err? ==> r == Err(SpecOf(data).error) && unchanged(fs)
    ensures SpecOf(data).Ok? ==>
      var target := Join(path, hostsFile);
      && (r.Ok? <==> target !in fs.denied && target !in old(fs.dirs))
      && (r.Ok? ==> r.value == Text(SpecLines(SpecOf(data).value))
                    && fs.files == old(fs.files)[target := r.value]
                    && fs.written == old(fs.written) + [(target, r.value)])
      && (r.Err? ==> r.error == OSError(target) && unchanged(fs))
    ensures fs.dirs == old(fs.dirs) && old(fs.written) <= fs.written
  {
    var spec;
    match SpecOf(data) {
      case Err(e) => return Err(e);
      case Ok(s) => spec := s;
    }
    var content := RenderSpec(spec);
    var target := Join(path, hostsFile);
    var ok := fs.Write(target, content);
    if !ok {
      return Err(OSError(target));
    }
    return Ok(content);
  }

  // ----- properties of the text -----

  /** A single-string inventory is that string and one newline; a list inventory is
      one line per host, tokens joined by spaces, with no header. */
  lemma FlatSpecText(line: string, es: seq<HostEntry>)
    ensures Text(SpecLines(Single(line))) == line + "\n"
    ensures |SpecLines(HostList(es))| == |es|
    ensures forall i :: 0 <= i < |es| ==>
      SpecLines(HostList(es))[i] == (match es[i] case Host(name) => name case Tokens(tokens) => JoinWith(tokens, " "))
    ensures HEADER !in SpecLines(HostList(es)) <== forall i :: 0 <= i < |es| ==> EntryLine(es[i]) != HEADER
  {
    assert Text([line]) == line + "\n" + Text([]);
  }

  /** A group given as a mapping is laid out as: the literal header `[%s]` whatever
      the name, its hosts one per line, one blank line, then the vars block, then the
      children block, then one final blank line. */
  lemma NodeLayout(name: string, hosts: Option<seq<HostEntry>>, vars: Option<Vars>, children: Option<seq<string>>,
                    lines: seq<string>)
    requires lines == GroupLines(name, Node(hosts, vars, children))
    ensures |lines| == |HostLines(hosts)| + |VarsBlock(name, vars)| + |ChildrenBlock(name, children)| + 3
    ensures lines[0] == "[%s]"
    ensures lines[1..1 + |HostLines(hosts)|] == HostLines(hosts)
    ensures lines[1 + |HostLines(hosts)|] == ""
    ensures lines[2 + |HostLines(hosts)|..2 + |HostLines(hosts)| + |VarsBlock(name, vars)|] == VarsBlock(name, vars)
    ensures lines[2 + |HostLines(hosts)| + |VarsBlock(name, vars)|..|lines| - 1] == ChildrenBlock(name, children)
    ensures lines[|lines| - 1] == ""
  {
    NodeLines(name, hosts, vars, children);
    BlocksLayout(HostLines(hosts), VarsBlock(name, vars), ChildrenBlock(name, children), lines);
  }

  /** Where the pieces of `[HEADER] + es + [""] + vb + cb + [""]` sit. */
  lemma BlocksLayout(es: seq<string>, vb: seq<string>, cb: seq<string>, lines: seq<string>)
    requires lines == [HEADER] + es + [""] + vb + cb + [""]
    ensures |lines| == |es| + |vb| + |cb| + 3
    ensures lines[0] == HEADER
    ensures lines[1..1 + |es|] == es
    ensures lines[1 + |es|] == ""
    ensures lines[2 + |es|..2 + |es| + |vb|] == vb
    ensures lines[2 + |es| + |vb|..|lines| - 1] == cb
    ensures lines[|lines| - 1] == ""
  {
    var a := [HEADER] + es;
    var b := a + [""];
    var c := b + vb;
    var d := c + cb;
    assert lines[..|d|] == d;
    assert d[..|c|] == c;
    assert c[..|b|] == b;
    assert b[..|a|] == a;
    assert lines[1..1 + |es|] == a[1..];
    assert lines[2 + |es|..2 + |es| + |vb|] == c[|b|..];
    assert lines[2 + |es| + |vb|..|lines| - 1] == d[|c|..];
  }

  lemma NodeLines(name: string, hosts: Option<seq<HostEntry>>, vars: Option<Vars>, children: Option<seq<string>>)
    ensures GroupLines(name, Node(hosts, vars, children)) ==
      [HEADER] + HostLines(hosts) + [""]
      + VarsBlock(name, vars) + ChildrenBlock(name, children) + [""]
  {
    var hl, vb, cb := HostLines(hosts), VarsBlock(name, vars), ChildrenBlock(name, children);
    var x := hl + [""];
    Assoc([HEADER], x + vb, cb);
    Assoc([HEADER], x, vb);
    Assoc([HEADER], hl, [""]);
  }

  lemma Assoc(a: seq<string>, b: seq<string>, c: seq<string>)
    ensures a + (b + c) == a + b + c
  {
  }

  /** The vars block: absent without `vars`; for a mapping, `[name:vars]`, one
      `k='v'` line per variable in order and two blank lines; for anything else,
      whose `.keys()` fails, the header and a single blank line. */
  lemma VarsBlockLayout(name: string, vars: Option<Vars>)
    ensures vars.None? ==> VarsBlock(name, vars) == []
    ensures vars == Some(NotAMapping) ==> VarsBlock(name, vars) == ["[" + name + ":vars]", ""]
    ensures vars.Some? && vars.value.VarMap? ==>
      var ps := vars.value.pairs;
      var vb := VarsBlock(name, vars);
      && |vb| == |ps| + 3
      && vb[0] == "[" + name + ":vars]"
      && (forall j :: 0 <= j < |ps| ==> vb[1 + j] == ps[j].0 + "='" + Str(ps[j].1) + "'")
      && vb[|ps| + 1] == "" && vb[|ps| + 2] == ""
  {
  }

  /** The children block: absent without `children`; otherwise `[name:children]`,
      one child name per line in order, and one blank line. */
  lemma ChildrenBlockLayout(name: string, children: Option<seq<string>>)
    ensures children.None? ==> ChildrenBlock(name, children) == []
    ensures children.Some? ==>
      var cs := children.value;
      var cb := ChildrenBlock(name, children);
      && |cb| == |cs| + 2
      && cb[0] == "[" + name + ":children]"
      && (forall j :: 0 <= j < |cs| ==> cb[1 + j] == cs[j])
      && cb[|cs| + 1] == ""
  {
  }

  /** Each name in `groups_children` belongs to a group that has children. */
  lemma ParentNamed(gs: seq<(string, Group)>, name: string)
    requires name in ParentNames(gs)
    ensures exists p :: p in gs && IsParent(p) && p.0 == name
  {
    var parents := Filter(gs, IsParent);
    FilterMembers(gs, IsParent);
    var k :| 0 <= k < |parents| && ParentNames(gs)[k] == name;
    assert parents[k] in parents;
  }

  /** With distinct group names, a name is among `groups_children` exactly when its group has children. */
  lemma ParentNameOf(gs: seq<(string, Group)>, e: (string, Group))
    requires DistinctKeys(gs) && e in gs
    ensures (e.0 in ParentNames(gs)) == IsParent(e)
  {
    var parents := Filter(gs, IsParent);
    FilterMembers(gs, IsParent);
    if IsParent(e) {
      var k :| 0 <= k < |parents| && parents[k] == e;
      assert ParentNames(gs)[k] == e.0;
    } else if e.0 in ParentNames(gs) {
      // the group under that name has children, so it is another entry with the same key
      ParentNamed(gs, e.0);
      assert false;
    }
  }

  /** `hosts` writes the groups with `children` and then the others, each run in the
      order of the input mapping. */
  lemma WriteOrderSplit(gs: seq<(string, Group)>)
    requires DistinctKeys(gs)
    ensures WriteOrder(gs) == Filter(gs, IsParent) + Filter(gs, (e: (string, Group)) => !IsParent(e))
  {
    var parents := ParentNames(gs);
    forall e | e in gs
      ensures (e.0 !in parents) == !IsParent(e)
    {
      ParentNameOf(gs, e);
    }
    FilterCongruent(gs, (e: (string, Group)) => e.0 !in parents, (e: (string, Group)) => !IsParent(e));
  }

  /** Every group is written exactly once, and no group with `children` follows one without. */
  lemma WriteOrderPartition(gs: seq<(string, Group)>)
    requires DistinctKeys(gs)
    ensures multiset(WriteOrder(gs)) == multiset(gs)
    ensures forall i, j :: 0 <= i < j < |WriteOrder(gs)| && IsParent(WriteOrder(gs)[j]) ==> IsParent(WriteOrder(gs)[i])
  {
    WriteOrderSplit(gs);
    var front := Filter(gs, IsParent);
    var notParent := (e: (string, Group)) => !IsParent(e);
    var back := Filter(gs, notParent);
    FilterPartition(gs, IsParent, notParent);
    FilterMembers(gs, IsParent);
    FilterMembers(gs, notParent);
    var order := front + back;
    forall i, j | 0 <= i < j < |order| && IsParent(order[j])
      ensures IsParent(order[i])
    {
      if i < |front| {
        assert order[i] in front;
      }
    }
  }

  /** A mapping specification writes the lines of each group in write order. */
  lemma GroupsSpecText(gs: seq<(string, Group)>)
    requires DistinctKeys(gs)
    ensures SpecLines(Groups(gs)) ==
      AllGroupLines(Filter(gs, IsParent) + Filter(gs, (e: (string, Group)) => !IsParent(e)))
  {
    WriteOrderSplit(gs);
  }

  // ----- choosing the inventory -----

  /** The inventory settings: `source['inventory']` updated with `params['inventory']`,
      or the exception that update raises. */
  function Settings(source: seq<(string, Value)>, params: seq<(string, Value)>): Result<seq<(string, Value)>, Exc> {
    match GetOr(source, "inventory", VDict([]))
    case VDict(s) => DictUpdate(s, GetOr(params, "inventory", VDict([])))
    case other => Err(AttributeError("'" + TypeName(other) + "' object has no attribute 'update'"))
  }

  /** A setting present in `params`' inventory overrides the one in `source`'s; the
      others keep their `source` value. */
  lemma SettingsOverride(source: seq<(string, Value)>, params: seq<(string, Value)>, k: string)
    requires GetOr(source, "inventory", VDict([])).VDict? && GetOr(params, "inventory", VDict([])).VDict?
    requires DistinctKeys(GetOr(params, "inventory", VDict([])).entries)
    ensures Settings(source, params).Ok?
    ensures var p := GetOr(params, "inventory", VDict([])).entries;
            var s := GetOr(source, "inventory", VDict([])).entries;
            Get(Settings(source, params).value, k) == if k in Keys(p) then Get(p, k) else Get(s, k)
  {
    var s := GetOr(source, "inventory", VDict([])).entries;
    var p := GetOr(params, "inventory", VDict([])).entries;
    assert Settings(source, params) == DictUpdate(s, VDict(p)) == Ok(Update(s, p));
    UpdateGet(s, p, k);
  }

  /** What `os.path.join` raises for a part that is not a string. */
  function PathTypeError(typeName: string): Exc {
    TypeError("join() argument must be str, bytes, or os.PathLike object, not '" + typeName + "'")
  }

  /** The name of the hosts file: `file` when given, else the default. */
  function HostsFileName(file: Value): string {
    if Truthy(file) && file.VStr? then file.s else DEFAULT_INVENTORY_FILE
  }

  /** The value `inventory` returns when it returns: the executable when one is set,
      else `workfolder/path/file`, or the folder `workfolder/path` without a file. */
  function InventoryValue(workfolder: string, source: seq<(string, Value)>, params: seq<(string, Value)>)
    : Result<Value, Exc>
  {
    match Settings(source, params)
    case Err(e) => Err(e)
    case Ok(inv) =>
      var exec := GetOr(inv, "executable", VNone);
      var path := GetOr(inv, "path", VStr(DEFAULT_INVENTORY_PATH));
      var file := GetOr(inv, "file", VNone);
      if Truthy(exec) then Ok(exec)
      else if !path.VStr? then Err(PathTypeError(TypeName(path)))
      else if Truthy(file) && !file.VStr? then Err(PathTypeError(TypeName(file)))
      else
        var folder := Join(workfolder, path.s);
        Ok(VStr(if Truthy(file) then Join(folder, file.s) else folder))
  }

  /** With no inventory settings at all, the inventory is the folder `workfolder/inventory`. */
  lemma InventoryDefault(workfolder: string, source: seq<(string, Value)>, params: seq<(string, Value)>)
    requires "inventory" !in Keys(source) && "inventory" !in Keys(params)
    ensures InventoryValue(workfolder, source, params) == Ok(VStr(Join(workfolder, "inventory")))
  {
    assert GetOr(source, "inventory", VDict([])) == VDict([]);
    assert GetOr(params, "inventory", VDict([])) == VDict([]);
    assert Settings(source, params) == DictUpdate([], VDict([])) == Ok([]);
    assert GetOr([], "path", VStr(DEFAULT_INVENTORY_PATH)) == VStr(DEFAULT_INVENTORY_PATH);
  }

  /** The filesystem, given as its directories, files and denied paths, lets the folder
      part of `inventory` finish: the folder exists or can be created and, with `hosts`,
      the specification is text and the hosts file can be written. */
  predicate FolderReady(folder: string, file: Value, hosts: Value,
                        dirs: set<string>, files: map<string, string>, denied: set<string>)
  {
    && (folder in dirs || folder in files || (folder !in denied && folder !in files))
    && (Truthy(hosts) ==> HostsWritable(folder, HostsFileName(file), hosts, dirs, denied))
  }

  /** The hosts file `folder/hostsFile` can be written from `hosts`: the specification
      is text and the path is neither denied nor a directory. */
  predicate HostsWritable(folder: string, hostsFile: string, hosts: Value, dirs: set<string>, denied: set<string>) {
    && SpecOf(hosts).Ok?
    && Join(folder, hostsFile) !in denied
    && Join(folder, hostsFile) !in dirs
  }

  /** Creating the folder itself does not change whether a file inside it can be written. */
  lemma HostsWritableAfterFolder(folder: string, hostsFile: string, hosts: Value, dirs: set<string>, denied: set<string>)
    ensures HostsWritable(folder, hostsFile, hosts, dirs + {folder}, denied) == HostsWritable(folder, hostsFile, hosts, dirs, denied)
  {
    assert |Join(folder, hostsFile)| > |folder|;
  }

  /** The filesystem lets `inventory` finish with the resolved settings: an executable
      needs nothing, a folder needs `FolderReady`. */
  predicate InventoryReady(workfolder: string, source: seq<(string, Value)>, params: seq<(string, Value)>,
                           dirs: set<string>, files: map<string, string>, denied: set<string>)
  {
    && Settings(source, params).Ok?
    && var inv := Settings(source, params).value;
       var path := GetOr(inv, "path", VStr(DEFAULT_INVENTORY_PATH));
       || Truthy(GetOr(inv, "executable", VNone))
       || (path.VStr? && FolderReady(Join(workfolder, path.s), GetOr(inv, "file", VNone), GetOr(inv, "hosts", VNone),
                                     dirs, files, denied))
  }

  /** The directories after the folder part of `inventory`: the folder is added unless
      it exists already or its creation is refused. */
  function DirsAfterFolder(folder: string, dirs: set<string>, files: map<string, string>, denied: set<string>)
    : set<string>
  {
    if folder in dirs || folder in files || folder in denied then dirs else dirs + {folder}
  }

  /** The write of the hosts file that a successful folder part makes: one entry with
      `hosts`, none without. */
  function HostsWrites(folder: string, file: Value, hosts: Value): seq<(string, string)> {
    if Truthy(hosts) && SpecOf(hosts).Ok? then [(Join(folder, HostsFileName(file)), Text(SpecLines(SpecOf(hosts).value)))]
    else []
  }

  /** The files after a successful folder part. */
  function FilesAfterHosts(folder: string, file: Value, hosts: Value, files: map<string, string>): map<string, string> {
    if Truthy(hosts) && SpecOf(hosts).Ok? then files[Join(folder, HostsFileName(file)) := Text(SpecLines(SpecOf(hosts).value))]
    else files
  }

  /** The folder, `file` and `hosts` of the folder part of `inventory`, when the settings
      resolve, name no executable and give a text `path`. */
  function FolderSettings(workfolder: string, source: seq<(string, Value)>, params: seq<(string, Value)>)
    : Option<(string, Value, Value)>
  {
    match Settings(source, params)
    case Err(_) => None
    case Ok(inv) =>
      var path := GetOr(inv, "path", VStr(DEFAULT_INVENTORY_PATH));
      if Truthy(GetOr(inv, "executable", VNone)) || !path.VStr? then None
      else Some((Join(workfolder, path.s), GetOr(inv, "file", VNone), GetOr(inv, "hosts", VNone)))
  }

  /** The directories after `inventory`, whether it succeeds or not. */
  function DirsAfterInventory(workfolder: string, source: seq<(string, Value)>, params: seq<(string, Value)>,
                              dirs: set<string>, files: map<string, string>, denied: set<string>): set<string>
  {
    match FolderSettings(workfolder, source, params)
    case None => dirs
    case Some((folder, _, _)) => DirsAfterFolder(folder, dirs, files, denied)
  }

  /** The writes a successful `inventory` makes. */
  function InventoryWrites(workfolder: string, source: seq<(string, Value)>, params: seq<(string, Value)>)
    : seq<(string, string)>
  {
    match FolderSettings(workfolder, source, params)
    case None => []
    case Some((folder, file, hosts)) => HostsWrites(folder, file, hosts)
  }

  /** The files after a successful `inventory`. */
  function FilesAfterInventory(workfolder: string, source: seq<(string, Value)>, params: seq<(string, Value)>,
                               files: map<string, string>): map<string, string>
  {
    match FolderSettings(workfolder, source, params)
    case None => files
    case Some((folder, file, hosts)) => FilesAfterHosts(folder, file, hosts, files)
  }

  /** Creates the inventory folder unless it exists already. */
  method EnsureFolder(folder: string, fs: FileSystem) returns (ok: bool)
    modifies fs
    ensures ok == (old(fs.Exists(folder)) || (folder !in fs.denied && folder !in fs.files))
    ensures ok ==> fs.Exists(folder)
    ensures fs.dirs == if old(fs.Exists(folder)) || !ok then old(fs.dirs) else old(fs.dirs) + {folder}
    ensures fs.files == old(fs.files) && fs.written == old(fs.written)
    ensures !ok ==> unchanged(fs)
  {
    ok := true;
    if !fs.Exists(folder) {
      ok := fs.MakeDirs(folder);
    }
  }

  /** The first half of the folder part of `inventory`: the folder is created when
      missing, then a `file` that is not text makes `os.path.join` raise. */
  method OpenFolder(folder: string, file: Value, fs: FileSystem) returns (failure: Option<Exc>)
    modifies fs
    ensures failure.None? <==>
      (old(fs.Exists(folder)) || (folder !in fs.denied && folder !in fs.files)) && !(Truthy(file) && !file.VStr?)
    ensures failure.None? ==> fs.Exists(folder)
    ensures fs.dirs == DirsAfterFolder(folder, old(fs.dirs), old(fs.files), fs.denied)
    ensures fs.files == old(fs.files) && fs.written == old(fs.written)
    ensures !old(fs.Exists(folder)) && folder in fs.denied ==> failure == Some(OSError(folder)) && unchanged(fs)
  {
    var present := EnsureFolder(folder, fs);
    if !present {
      return Some(OSError(folder));
    }
    if Truthy(file) && !file.VStr? {
      return Some(PathTypeError(TypeName(file)));
    }
    return None;
  }

  /** The hosts part of `inventory`: with a truthy `hosts`, the inventory text is written
      to `folder/hostsFile`; the exception raised, if any, is returned. */
  method WriteHosts(folder: string, hostsFile: string, hosts: Value, fs: FileSystem) returns (failure: Option<Exc>)
    modifies fs
    ensures failure.None? <==> !Truthy(hosts) || HostsWritable(folder, hostsFile, hosts, old(fs.dirs), fs.denied)
    ensures fs.dirs == old(fs.dirs) && old(fs.written) <= fs.written
    ensures !Truthy(hosts) || failure.Some? ==> fs.files == old(fs.files) && fs.written == old(fs.written)
    ensures failure.None? && Truthy(hosts) ==>
      && fs.written == old(fs.written) + [(Join(folder, hostsFile), Text(SpecLines(SpecOf(hosts).value)))]
      && fs.files == old(fs.files)[Join(folder, hostsFile) := Text(SpecLines(SpecOf(hosts).value))]
  {
    failure := None;
    if Truthy(hosts) {
      var written := Hosts(hosts, folder, hostsFile, fs);
      if written.Err? {
        failure := Some(written.error);
      }
    }
  }

  /** The folder part of `inventory`: creates `workfolder/path` when missing, writes
      the hosts text when `hosts` is truthy, and returns `workfolder/path/file` or,
      without a file, the folder itself. */
  method InventoryFolder(workfolder: string, path: string, file: Value, hosts: Value, fs: FileSystem)
    returns (r: Result<Value, Exc>)
    modifies fs
    ensures fs.dirs == DirsAfterFolder(Join(workfolder, path), old(fs.dirs), old(fs.files), fs.denied)
    ensures fs.files == if r.Ok? then FilesAfterHosts(Join(workfolder, path), file, hosts, old(fs.files)) else old(fs.files)
    ensures fs.written == old(fs.written) + if r.Ok? then HostsWrites(Join(workfolder, path), file, hosts) else []
    ensures old(fs.dirs) <= fs.dirs && old(fs.written) <= fs.written
    ensures r.Ok? <==>
      FolderReady(Join(workfolder, path), file, hosts, old(fs.dirs), old(fs.files), fs.denied) && !(Truthy(file) && !file.VStr?)
    ensures r.Ok? ==> fs.Exists(Join(workfolder, path))
    ensures r.Ok? ==> r.value == VStr(if Truthy(file) then Join(Join(workfolder, path), HostsFileName(file))
                                      else Join(workfolder, path))
    ensures Truthy(file) && !file.VStr? ==> r.Err?
    ensures old(fs.Exists(Join(workfolder, path))) ==> fs.dirs == old(fs.dirs)
    ensures !old(fs.Exists(Join(workfolder, path))) && Join(workfolder, path) in fs.denied ==>
              r == Err(OSError(Join(workfolder, path))) && unchanged(fs)
    ensures !Truthy(hosts) ==> fs.files == old(fs.files) && fs.written == old(fs.written)
    ensures r.Ok? && Truthy(hosts) ==>
      var target := Join(Join(workfolder, path), HostsFileName(file));
      && SpecOf(hosts).Ok?
      && fs.written == old(fs.written) + [(target, Text(SpecLines(SpecOf(hosts).value)))]
      && fs.files == old(fs.files)[target := Text(SpecLines(SpecOf(hosts).value))]
  {
    var folder := Join(workfolder, path);
    var refused := OpenFolder(folder, file, fs);
    if refused.Some? {
      return Err(refused.value);
    }
    var hostsFile := HostsFileName(file);
    var output := if Truthy(file) then Join(folder, hostsFile) else folder;
    HostsWritableAfterFolder(folder, hostsFile, hosts, old(fs.dirs), fs.denied);
    var failure := WriteHosts(folder, hostsFile, hosts, fs);
    if failure.Some? {
      return Err(failure.value);
    }
    return Ok(VStr(output));
  }

  /** `inventory`: the inventory argument for the engine. A truthy `executable` is
      returned as it is and nothing is touched; otherwise the folder is created when
      missing and, with `hosts`, the hosts file is written into it. */
  method InventoryTarget(workfolder: string, source: seq<(string, Value)>, params: seq<(string, Value)>, fs: FileSystem)
    returns (r: Result<Value, Exc>)
    modifies fs
    ensures fs.dirs == DirsAfterInventory(workfolder, source, params, old(fs.dirs), old(fs.files), fs.denied)
    ensures fs.files == if r.Ok? then FilesAfterInventory(workfolder, source, params, old(fs.files)) else old(fs.files)
    ensures fs.written == old(fs.written) + if r.Ok? then InventoryWrites(workfolder, source, params) else []
    ensures old(fs.dirs) <= fs.dirs && old(fs.written) <= fs.written
    ensures r.Ok? ==> r == InventoryValue(workfolder, source, params)
    ensures InventoryValue(workfolder, source, params).Err? ==> r.Err?
    ensures r.Ok? <==>
      InventoryValue(workfolder, source, params).Ok? && InventoryReady(workfolder, source, params, old(fs.dirs), old(fs.files), fs.denied)
    ensures Settings(source, params).Ok? && Truthy(GetOr(Settings(source, params).value, "executable", VNone)) ==>
      r == Ok(GetOr(Settings(source, params).value, "executable", VNone))
    ensures Settings(source, params).Err? ==> r == Err(Settings(source, params).error) && unchanged(fs)
    ensures Settings(source, params).Ok? ==>
      var inv := Settings(source, params).value;
      var hosts := GetOr(inv, "hosts", VNone);
      && (Truthy(GetOr(inv, "executable", VNone)) ==> unchanged(fs))
      && (!Truthy(hosts) ==> fs.files == old(fs.files) && fs.written == old(fs.written))
    ensures r.Ok? && Settings(source, params).Ok? && !Truthy(GetOr(Settings(source, params).value, "executable", VNone)) ==>
      var inv := Settings(source, params).value;
      var path := GetOr(inv, "path", VStr(DEFAULT_INVENTORY_PATH));
      var hosts := GetOr(inv, "hosts", VNone);
      && path.VStr?
      && var folder := Join(workfolder, path.s);
         var target := Join(folder, HostsFileName(GetOr(inv, "file", VNone)));
         && fs.Exists(folder)
         && (Truthy(hosts) ==>
               && SpecOf(hosts).Ok?
               && fs.written == old(fs.written) + [(target, Text(SpecLines(SpecOf(hosts).value)))])
  {
    var inventory;
    match Settings(source, params) {
      case Err(e) => return Err(e);
      case Ok(inv) => inventory := inv;
    }
    var hosts := GetOr(inventory, "hosts", VNone);
    var inventoryPath := GetOr(inventory, "path", VStr(DEFAULT_INVENTORY_PATH));
    var inventoryFile := GetOr(inventory, "file", VNone);
    var inventoryExec := GetOr(inventory, "executable", VNone);
    if Truthy(inventoryExec) {
      return Ok(inventoryExec);
    }
    if !inventoryPath.VStr? {
      return Err(PathTypeError(TypeName(inventoryPath)));
    }
    r := InventoryFolder(workfolder, inventoryPath.s, inventoryFile, hosts, fs);
  }
}
