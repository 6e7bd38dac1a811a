/** The chat tool registry: registered tools keyed by name, the slash commands that invoke them,
    the role-filtered listings, and the slash-command parser. */
module Registry {
  import opened Wrappers
  import opened Text
  import opened Permissions
  import opened Store

  /** `ToolDefinition` without its input schema and body; every registered tool names one of the
      capabilities of the permission table. */
  datatype Tool = Tool(
    name: string, displayName: string, description: string, category: string,
    requiredPermission: Permission, isWriteAction: bool)

  /** The slash command as given at registration (`Omit<SlashCommand, "toolName">`). */
  datatype SlashSpec = SlashSpec(command: string, description: string, usage: string)

  datatype SlashCommand = SlashCommand(command: string, toolName: string, description: string, usage: string)

  datatype Parsed = Parsed(toolName: string, args: map<string, string>)

  /** `a` is `b` with some elements left out, order kept. */
  predicate Subsequence<T(==)>(a: seq<T>, b: seq<T>)
    decreases |b|
  {
    if a == [] then true
    else if b == [] then false
    else if a[0] == b[0] then Subsequence(a[1..], b[1..])
    else Subsequence(a, b[1..])
  }

  /** `slashCommands.find(s => s.command === command)`: the first command with that word. */
  function FindCommand(cs: seq<SlashCommand>, command: string): (r: Option<SlashCommand>)
    ensures r.None? <==> forall i :: 0 <= i < |cs| ==> cs[i].command != command
    ensures r.Some? ==> exists i :: (0 <= i < |cs| && cs[i] == r.value && r.value.command == command
      && forall j :: 0 <= j < i ==> cs[j].command != command)
  {
    if cs == [] then None
    else if cs[0].command == command then Some(cs[0])
    else
      var r := FindCommand(cs[1..], command);
      assert forall i :: 1 <= i < |cs| ==> cs[i] == cs[1..][i - 1];
      if r.Some? then
        ghost var i :| 0 <= i < |cs[1..]| && cs[1..][i] == r.value && r.value.command == command
          && forall j :: 0 <= j < i ==> cs[1..][j].command != command;
        assert cs[i + 1] == r.value;
        r
      else r
  }

  // ---- Argument parsing ----

  /** The key a token after the command is stored under: the text before its first "=", or `arg<i>`
      for a token without one, `i` being its position among those tokens. */
  function ArgKey(part: string, i: nat): string {
    if '=' in part then SplitOn(part, '=')[0] else "arg" + NatToString(i)
  }

  /** The value stored: what follows the first "=", the other pieces rejoined with "=", or the
      whole token. */
  function ArgValue(part: string): string {
    if '=' in part then Join(SplitOn(part, '=')[1..], "=") else part
  }

  /** The one key a plain JavaScript object does not store on assignment: `args["__proto__"] = v`
      calls the prototype setter, which ignores a string. */
  const ProtoKey := "__proto__"

  /** The `args` record after the `forEach` has visited every token of `rest`, in order. */
  function ArgsOf(rest: seq<string>): map<string, string>
    decreases |rest|
  {
    if rest == [] then map[]
    else
      var n := |rest| - 1;
      Assign(ArgsOf(rest[..n]), ArgKey(rest[n], n), ArgValue(rest[n]))
  }

  /** `args[key] = value` on a plain object: every key but the prototype key is set. */
  function Assign(args: map<string, string>, key: string, value: string): (r: map<string, string>)
    ensures key != ProtoKey ==> r == args[key := value]
    ensures key == ProtoKey ==> r == args
  {
    if key == ProtoKey then args else args[key := value]
  }

  /** A positional key is never the prototype key. */
  lemma PositionalKeyIsNotProto(i: nat)
    ensures "arg" + NatToString(i) != ProtoKey
  {
    assert ("arg" + NatToString(i))[0] == 'a';
  }

  /** The `forEach` over the tokens after the command, filling `args`. */
  method CollectArgs(rest: seq<string>) returns (args: map<string, string>)
    ensures args == ArgsOf(rest)
  {
    args := map[];
    var i := 0;
    while i < |rest|
      invariant 0 <= i <= |rest|
      invariant args == ArgsOf(rest[..i])
    {
      var part := rest[i];
      assert rest[..i + 1][..i] == rest[..i];
      PositionalKeyIsNotProto(i);
      if '=' in part {
        var pieces := SplitOn(part, '=');
        if pieces[0] != ProtoKey {
          args := args[pieces[0] := Join(pieces[1..], "=")];
        }
      } else {
        args := args["arg" + NatToString(i) := part];
      }
      i := i + 1;
    }
    assert rest[..i] == rest;
  }

  /** A key=value token splits at its first "=": the value keeps any later "=". */
  lemma KeyValueToken(part: string, i: nat)
    requires '=' in part
    ensures IndexOf(part, '=') < |part|
    ensures ArgKey(part, i) == part[..IndexOf(part, '=')]
    ensures ArgValue(part) == part[IndexOf(part, '=') + 1..]
  {
    RestAfterFirst(part, '=');
  }

  /** The keys of `args` are exactly the keys of the tokens, except the prototype key. */
  lemma ArgsKeys(rest: seq<string>, k: string)
    ensures k in ArgsOf(rest) <==> k != ProtoKey && exists j :: 0 <= j < |rest| && ArgKey(rest[j], j) == k
  {
    ProtoKeyNeverStored(rest);
    if k in ArgsOf(rest) {
      ArgsKeysFromTokens(rest, k);
    }
    if k != ProtoKey && exists j :: 0 <= j < |rest| && ArgKey(rest[j], j) == k {
      var j :| 0 <= j < |rest| && ArgKey(rest[j], j) == k;
      TokenKeysInArgs(rest, j, k);
    }
  }

  /** A `__proto__=...` token leaves no key behind. */
  lemma {:induction false} ProtoKeyNeverStored(rest: seq<string>)
    ensures ProtoKey !in ArgsOf(rest)
    decreases |rest|
  {
    if rest != [] {
      ProtoKeyNeverStored(rest[..|rest| - 1]);
    }
  }

  /** `/tasks __proto__=x` yields an empty record, as the object assignment does. */
  lemma ProtoTokenDropped()
    ensures ArgsOf(["__proto__=x"]) == map[]
  {
    var part := "__proto__=x";
    assert ArgKey(part, 0) == ProtoKey by {
      assert part[9] == '=' && forall k :: 0 <= k < 9 ==> part[k] != '=';
      assert part[..9] == ProtoKey;
    }
    assert ["__proto__=x"][..0] == [];
  }

  /** Every key of `args` comes from some token. */
  lemma {:induction false} ArgsKeysFromTokens(rest: seq<string>, k: string)
    requires k in ArgsOf(rest)
    ensures exists j :: 0 <= j < |rest| && ArgKey(rest[j], j) == k
    decreases |rest|
  {
    var n := |rest| - 1;
    if k != ArgKey(rest[n], n) {
      var init := rest[..n];
      ArgsKeysFromTokens(init, k);
      var j :| 0 <= j < n && ArgKey(init[j], j) == k;
      assert init[j] == rest[j];
    }
  }

  /** Every token's key is a key of `args`. */
  lemma TokenKeysInArgs(rest: seq<string>, j: nat, k: string)
    requires j < |rest| && ArgKey(rest[j], j) == k && k != ProtoKey
    ensures k in ArgsOf(rest)
  {
    ArgsOfIsFold(rest);
    FoldKeeps(KeysOf(rest), ValuesOf(rest), j);
  }

  /** When a key repeats, the last token with that key decides its value. */
  lemma LastWins(rest: seq<string>, j: nat, k: string)
    requires j < |rest| && ArgKey(rest[j], j) == k && k != ProtoKey
    requires forall l :: j < l < |rest| ==> ArgKey(rest[l], l) != k
    ensures k in ArgsOf(rest) && ArgsOf(rest)[k] == ArgValue(rest[j])
  {
    var keys, values := KeysOf(rest), ValuesOf(rest);
    assert forall l :: j < l < |keys| ==> keys[l] != keys[j];
    FoldLastWins(keys, values, j);
    ArgsOfIsFold(rest);
  }

  // The same record with the keys and values computed first, so that the proofs about
  // repeated keys compare keys only.

  function KeysOf(rest: seq<string>): (keys: seq<string>)
    ensures |keys| == |rest| && forall i :: 0 <= i < |rest| ==> keys[i] == ArgKey(rest[i], i)
    decreases |rest|
  {
    if rest == [] then [] else KeysOf(rest[..|rest| - 1]) + [ArgKey(rest[|rest| - 1], |rest| - 1)]
  }

  function ValuesOf(rest: seq<string>): (values: seq<string>)
    ensures |values| == |rest| && forall i :: 0 <= i < |rest| ==> values[i] == ArgValue(rest[i])
    decreases |rest|
  {
    if rest == [] then [] else ValuesOf(rest[..|rest| - 1]) + [ArgValue(rest[|rest| - 1])]
  }

  /** The assignments `keys[i] = values[i]`, in order, on an empty object. */
  function Fold(keys: seq<string>, values: seq<string>): map<string, string>
    requires |keys| == |values|
    decreases |keys|
  {
    if keys == [] then map[]
    else
      var n := |keys| - 1;
      Assign(Fold(keys[..n], values[..n]), keys[n], values[n])
  }

  lemma {:induction false} ArgsOfIsFold(rest: seq<string>)
    ensures ArgsOf(rest) == Fold(KeysOf(rest), ValuesOf(rest))
    decreases |rest|
  {
    if rest != [] {
      var n := |rest| - 1;
      ArgsOfIsFold(rest[..n]);
      assert KeysOf(rest)[..n] == KeysOf(rest[..n]);
      assert ValuesOf(rest)[..n] == ValuesOf(rest[..n]);
    }
  }

  lemma {:induction false} FoldKeeps(keys: seq<string>, values: seq<string>, j: nat)
    requires |keys| == |values| && j < |keys| && keys[j] != ProtoKey
    ensures keys[j] in Fold(keys, values)
    decreases |keys|
  {
    var n := |keys| - 1;
    if j < n {
      FoldKeeps(keys[..n], values[..n], j);
    }
  }

  lemma {:induction false} FoldLastWins(keys: seq<string>, values: seq<string>, j: nat)
    requires |keys| == |values| && j < |keys| && keys[j] != ProtoKey
    requires forall l :: j < l < |keys| ==> keys[l] != keys[j]
    ensures keys[j] in Fold(keys, values) && Fold(keys, values)[keys[j]] == values[j]
    decreases |keys|
  {
    var n := |keys| - 1;
    if j < n {
      FoldLastWins(keys[..n], values[..n], j);
    }
  }

  /** Positional keys of different positions differ. */
  lemma PositionalKeysDistinct(i: nat, j: nat)
    requires i != j
    ensures "arg" + NatToString(i) != "arg" + NatToString(j)
  {
    if "arg" + NatToString(i) == "arg" + NatToString(j) {
      assert NatToString(i) == ("arg" + NatToString(i))[3..];
      NatToStringInjective(i, j);
    }
  }

  /** With no "=" anywhere, token `i` is stored under `arg<i>` unchanged. */
  lemma AllPositional(rest: seq<string>, i: nat)
    requires i < |rest|
    requires forall l :: 0 <= l < |rest| ==> '=' !in rest[l]
    ensures "arg" + NatToString(i) in ArgsOf(rest)
    ensures ArgsOf(rest)["arg" + NatToString(i)] == rest[i]
  {
    forall l | i < l < |rest|
      ensures ArgKey(rest[l], l) != ArgKey(rest[i], i)
    {
      PositionalKeysDistinct(l, i);
    }
    PositionalKeyIsNotProto(i);
    LastWins(rest, i, "arg" + NatToString(i));
  }

  // ---- The registry ----

  class ToolRegistry {
    /** The module-level `tools` Map, and the order its keys were first set in. */
    var tools: map<string, Tool>
    var order: seq<string>
    var slashCommands: seq<SlashCommand>

    ghost predicate Valid()
      reads this
    {
      && (forall i, j :: 0 <= i < j < |order| ==> order[i] != order[j])
      && (forall n :: n in tools <==> n in order)
      && (forall n :: n in tools ==> tools[n].name == n)
    }

    constructor()
      ensures Valid() && tools == map[] && order == [] && slashCommands == []
    {
      tools := map[];
      order := [];
      slashCommands := [];
    }

    /** `getTool`. */
    function GetTool(name: string): (r: Option<Tool>)
      reads this
      requires Valid()
      ensures r.Some? <==> name in tools
      ensures r.Some? ==> r.value == tools[name] && r.value.name == name
    {
      if name in tools then Some(tools[name]) else None
    }

    /** `registerTool`: a name set again keeps its place and takes the new tool; a slash command,
        when given, is appended bound to the tool's name. */
    method RegisterTool(tool: Tool, slash: Option<SlashSpec>)
      requires Valid()
      modifies this
      ensures Valid()
      ensures tools == old(tools)[tool.name := tool]
      ensures order == if tool.name in old(tools) then old(order) else old(order) + [tool.name]
      ensures slash.None? ==> slashCommands == old(slashCommands)
      ensures slash.Some? ==> (slashCommands == old(slashCommands)
        + [SlashCommand(slash.value.command, tool.name, slash.value.description, slash.value.usage)])
      ensures GetTool(tool.name) == Some(tool)
      ensures forall n :: n != tool.name ==> GetTool(n) == old(GetTool(n))
    {
      if tool.name !in tools {
        order := order + [tool.name];
      }
      tools := tools[tool.name := tool];
      if slash.Some? {
        slashCommands := slashCommands
          + [SlashCommand(slash.value.command, tool.name, slash.value.description, slash.value.usage)];
      }
    }

    /** The tools named by `names`, in that order. */
    function ToolsIn(names: seq<string>): (ts: seq<Tool>)
      reads this
      requires forall n :: n in names ==> n in tools
      ensures |ts| == |names| && forall i :: 0 <= i < |names| ==> ts[i] == tools[names[i]]
    {
      if names == [] then [] else [tools[names[0]]] + ToolsIn(names[1..])
    }

    /** `listTools(role)`: all tools in registration order without a role, and with one exactly
        those whose capability the role holds. */
    function ListTools(role: Option<string>): (r: seq<Tool>)
      reads this
      requires Valid()
      ensures !Truthy(role) ==> |r| == |order| && forall i :: 0 <= i < |order| ==> r[i] == tools[order[i]]
      ensures Truthy(role) ==> Subsequence(r, ToolsIn(order))
      ensures forall t :: t in r <==>
        t in tools.Values && (!Truthy(role) || HasPermissionByName(role.value, t.requiredPermission))
    {
      var all := ToolsIn(order);
      assert forall t :: t in all <==> t in tools.Values by {
        forall t | t in tools.Values
          ensures t in all
        {
          var n :| n in tools && tools[n] == t;
          var i :| 0 <= i < |order| && order[i] == n;
          assert all[i] == t;
        }
      }
      if !Truthy(role) then all else Permitted(all, role.value)
    }

    predicate CommandPermitted(c: SlashCommand, roleName: string)
      reads this
    {
      c.toolName in tools && HasPermissionByName(roleName, tools[c.toolName].requiredPermission)
    }

    function PermittedCommands(cs: seq<SlashCommand>, roleName: string): (r: seq<SlashCommand>)
      reads this
      ensures Subsequence(r, cs)
      ensures forall c :: c in r <==> c in cs && CommandPermitted(c, roleName)
    {
      if cs == [] then []
      else
        var rest := PermittedCommands(cs[1..], roleName);
        if CommandPermitted(cs[0], roleName) then [cs[0]] + rest
        else
          assert rest == [] || rest[0] != cs[0];
          rest
    }

    /** `listSlashCommands(role)`: every command without a role; with one, the commands whose tool
        is registered and permitted, in their order. */
    function ListSlashCommands(role: Option<string>): (r: seq<SlashCommand>)
      reads this
      ensures !Truthy(role) ==> r == slashCommands
      ensures Truthy(role) ==> (Subsequence(r, slashCommands)
        && forall c :: c in r <==> c in slashCommands && CommandPermitted(c, role.value))
    {
      if !Truthy(role) then slashCommands else PermittedCommands(slashCommands, role.value)
    }

    /** `parseSlashCommand`: trim, require a leading "/", split the rest at runs of spaces, look
        the lower-cased first word up, and collect the remaining tokens into `args`. */
    method ParseSlashCommand(input: string) returns (r: Option<Parsed>)
      ensures !StartsWith(Trim(input), "/") ==> r.None?
      ensures StartsWith(Trim(input), "/") ==>
        var words := SplitSpaces(Trim(input)[1..]);
        var command := Lower(words[0]);
        && (r.Some? <==> command != "" && FindCommand(slashCommands, command).Some?)
        && (r.Some? ==> r.value == Parsed(FindCommand(slashCommands, command).value.toolName, ArgsOf(words[1..])))
    {
      var trimmed := Trim(input);
      if !StartsWith(trimmed, "/") {
        return None;
      }
      var parts := SplitSpaces(trimmed[1..]);
      var command := Lower(parts[0]);
      if command == "" {
        return None;
      }
      var sc := FindCommand(slashCommands, command);
      if sc.None? {
        return None;
      }
      var args := CollectArgs(parts[1..]);
      return Some(Parsed(sc.value.toolName, args));
    }
  }

  /** `all.filter(t => hasPermission(role, t.requiredPermission))`. */
  function Permitted(ts: seq<Tool>, roleName: string): (r: seq<Tool>)
    ensures |r| <= |ts| && Subsequence(r, ts)
    ensures forall t :: t in r <==> t in ts && HasPermissionByName(roleName, t.requiredPermission)
  {
    if ts == [] then []
    else
      var rest := Permitted(ts[1..], roleName);
      if HasPermissionByName(roleName, ts[0].requiredPermission) then [ts[0]] + rest
      else
        assert rest == [] || rest[0] != ts[0];
        rest
  }
}
