/** The command framework (src/cmdlib/core.py): flag parsing, the command
    and subcommand registries with their alias tables, the descent into
    subcommands, and the flag half of invoke. Signature reflection, the
    binding of positional arguments and type conversion are not part of
    this model. */
module Commands {
  import opened Errors
  import opened CmdUtils

  /** A flag value as the parser and flag defaults produce them. */
  datatype Value = BoolValue(b: bool) | StrValue(s: string) | NoneValue

  /** A Python dict from flag names to values: an association list with
      distinct keys, kept in insertion order. */
  type Dict = seq<(string, Value)>

  function Keys(d: Dict): (ks: seq<string>)
    ensures |ks| == |d|
    ensures forall i :: 0 <= i < |d| ==> ks[i] == d[i].0
  {
    if d == [] then [] else [d[0].0] + Keys(d[1..])
  }

  predicate DistinctKeys(d: Dict) {
    d == [] || (d[0].0 !in Keys(d[1..]) && DistinctKeys(d[1..]))
  }

  function Lookup(d: Dict, k: string): (r: Option<Value>)
    ensures r.None? <==> k !in Keys(d)
  {
    if d == [] then None
    else if d[0].0 == k then Some(d[0].1)
    else Lookup(d[1..], k)
  }

  /** `d[k] = v`: an existing key keeps its place, a new one goes last. */
  function Put(d: Dict, k: string, v: Value): (r: Dict)
    requires DistinctKeys(d)
    ensures DistinctKeys(r)
    ensures k in Keys(d) ==> Keys(r) == Keys(d)
    ensures k !in Keys(d) ==> Keys(r) == Keys(d) + [k]
    decreases |d|
  {
    if d == [] then [(k, v)]
    else if d[0].0 == k then
      var r := [(k, v)] + d[1..];
      assert r[1..] == d[1..];
      r
    else
      var rest := Put(d[1..], k, v);
      var r := [d[0]] + rest;
      assert r[1..] == rest;
      r
  }

  /** After `d[k] = v`, `k` maps to `v` and every other key is unchanged. */
  lemma {:induction false} PutLookup(d: Dict, k: string, v: Value, k': string)
    requires DistinctKeys(d)
    ensures Lookup(Put(d, k, v), k) == Some(v)
    ensures k' != k ==> Lookup(Put(d, k, v), k') == Lookup(d, k')
    decreases |d|
  {
    if d != [] && d[0].0 != k {
      PutLookup(d[1..], k, v, k');
      assert Put(d, k, v)[1..] == Put(d[1..], k, v);
    } else if d != [] {
      assert Put(d, k, v)[1..] == d[1..];
    }
  }

  predicate StartsWith(s: string, p: string) {
    |p| <= |s| && s[..|p|] == p
  }

  /** `--name`: a boolean flag (src/cmdlib/core.py:40). */
  predicate IsBoolFlag(arg: string) {
    StartsWith(arg, "--") && |arg| > 2
  }

  /** `-name`, followed by its value (src/cmdlib/core.py:42). */
  predicate IsValueFlag(arg: string) {
    !IsBoolFlag(arg) && StartsWith(arg, "-") && |arg| > 1
  }

  /** How parse_flags reads the argument list. */
  datatype Token = BoolFlag(name: string) | ValueFlag(name: string, value: string) | Positional(arg: string)

  function Prepend(t: Token, r: Result<seq<Token>>): Result<seq<Token>> {
    if r.Ok? then Ok([t] + r.value) else r
  }

  /** The tokens of an argument list, left to right. FlagError when a value
      flag is last or is followed by something that starts with `-`. */
  function Classify(args: seq<string>): (r: Result<seq<Token>>)
    ensures r.Err? ==> r.error == FlagError
    decreases |args|
  {
    if args == [] then Ok([])
    else if IsBoolFlag(args[0]) then Prepend(BoolFlag(args[0][2..]), Classify(args[1..]))
    else if IsValueFlag(args[0]) then
      if |args| < 2 || StartsWith(args[1], "-") then Err(FlagError)
      else Prepend(ValueFlag(args[0][1..], args[1]), Classify(args[2..]))
    else Prepend(Positional(args[0]), Classify(args[1..]))
  }

  /** The arguments a token was read from. */
  function Render(ts: seq<Token>): seq<string> {
    if ts == [] then []
    else match ts[0]
      case BoolFlag(n) => ["--" + n] + Render(ts[1..])
      case ValueFlag(n, v) => ["-" + n, v] + Render(ts[1..])
      case Positional(a) => [a] + Render(ts[1..])
  }

  /** The tokens Classify can produce. */
  predicate WellFormed(t: Token) {
    match t
    case BoolFlag(n) => |n| > 0
    case ValueFlag(n, v) => |n| > 0 && !IsBoolFlag("-" + n) && !StartsWith(v, "-")
    case Positional(a) => !IsBoolFlag(a) && !IsValueFlag(a)
  }

  /** Classification loses nothing: its tokens spell out the arguments. */
  lemma {:induction false} ClassifyRender(args: seq<string>)
    requires Classify(args).Ok?
    ensures Render(Classify(args).value) == args
    ensures forall i :: 0 <= i < |Classify(args).value| ==> WellFormed(Classify(args).value[i])
    decreases |args|
  {
    if args != [] {
      var a := args[0];
      if IsBoolFlag(a) {
        ClassifyRender(args[1..]);
        assert "--" + a[2..] == a;
      } else if IsValueFlag(a) {
        ClassifyRender(args[2..]);
        assert "-" + a[1..] == a;
        assert args == [a, args[1]] + args[2..];
      } else {
        ClassifyRender(args[1..]);
        assert args == [a] + args[1..];
      }
    }
  }

  /** And well-formed tokens are read back as themselves. */
  lemma {:induction false} RenderClassify(ts: seq<Token>)
    requires forall i :: 0 <= i < |ts| ==> WellFormed(ts[i])
    ensures Classify(Render(ts)) == Ok(ts)
    decreases |ts|
  {
    if ts != [] {
      RenderClassify(ts[1..]);
      var rest := Render(ts[1..]);
      assert ts == [ts[0]] + ts[1..];
      match ts[0]
      case BoolFlag(n) =>
        var a := "--" + n;
        assert StartsWith(a, "--");
        assert a[2..] == n;
        assert ([a] + rest)[1..] == rest;
      case ValueFlag(n, v) =>
        var a := "-" + n;
        assert StartsWith(a, "-");
        assert a[1..] == n;
        assert ([a, v] + rest)[2..] == rest;
      case Positional(a) =>
        assert ([a] + rest)[1..] == rest;
    }
  }

  /** One token's effect on the flag dict parse_flags builds: a later flag
      of the same name overwrites the value. */
  function AddFlagToken(d: Dict, t: Token): (r: Dict)
    requires DistinctKeys(d)
    ensures DistinctKeys(r)
  {
    match t
    case BoolFlag(n) => Put(d, n, BoolValue(true))
    case ValueFlag(n, v) => Put(d, n, StrValue(v))
    case Positional(_) => d
  }

  function AddPositionalToken(ps: seq<string>, t: Token): seq<string> {
    if t.Positional? then ps + [t.arg] else ps
  }

  /** The flags of a token list. */
  function FlagsOf(ts: seq<Token>): (d: Dict)
    ensures DistinctKeys(d)
  {
    if ts == [] then [] else AddFlagToken(FlagsOf(ts[..|ts| - 1]), ts[|ts| - 1])
  }

  /** The positional arguments of a token list, in order. */
  function PositionalsOf(ts: seq<Token>): seq<string> {
    if ts == [] then [] else AddPositionalToken(PositionalsOf(ts[..|ts| - 1]), ts[|ts| - 1])
  }

  /** The value of the last flag token named `n`, searching from the end. */
  function LastFlag(ts: seq<Token>, n: string): Option<Value> {
    if ts == [] then None
    else match ts[|ts| - 1]
      case BoolFlag(m) => if m == n then Some(BoolValue(true)) else LastFlag(ts[..|ts| - 1], n)
      case ValueFlag(m, v) => if m == n then Some(StrValue(v)) else LastFlag(ts[..|ts| - 1], n)
      case Positional(_) => LastFlag(ts[..|ts| - 1], n)
  }

  /** Each flag maps to the value of its last occurrence, and only named
      flags are present. */
  lemma {:induction false} FlagsOfLast(ts: seq<Token>, n: string)
    ensures Lookup(FlagsOf(ts), n) == LastFlag(ts, n)
    decreases |ts|
  {
    if ts != [] {
      var init := ts[..|ts| - 1];
      FlagsOfLast(init, n);
      match ts[|ts| - 1]
      case BoolFlag(m) => PutLookup(FlagsOf(init), m, BoolValue(true), n);
      case ValueFlag(m, v) => PutLookup(FlagsOf(init), m, StrValue(v), n);
      case Positional(_) =>
    }
  }

  /** `a` is `b` with some elements left out. */
  predicate IsSubsequence(a: seq<string>, b: seq<string>)
    decreases |b|
  {
    if a == [] then true
    else if b == [] then false
    else if a[|a| - 1] == b[|b| - 1] then IsSubsequence(a[..|a| - 1], b[..|b| - 1])
    else IsSubsequence(a, b[..|b| - 1])
  }

  lemma {:induction false} SubsequenceExtend(a: seq<string>, b: seq<string>, x: string)
    requires IsSubsequence(a, b)
    ensures IsSubsequence(a, b + [x])
    decreases |b|, 1
  {
    assert (b + [x])[..|b|] == b;
    if a != [] && a[|a| - 1] == x {
      SubsequenceDropLast(a, b);
    }
  }

  lemma {:induction false} SubsequenceDropLast(a: seq<string>, b: seq<string>)
    requires a != [] && IsSubsequence(a, b)
    ensures IsSubsequence(a[..|a| - 1], b)
    decreases |b|, 0
  {
    var init := b[..|b| - 1];
    assert b == init + [b[|b| - 1]];
    if a[|a| - 1] == b[|b| - 1] {
      SubsequenceExtend(a[..|a| - 1], init, b[|b| - 1]);
    } else {
      SubsequenceDropLast(a, init);
      SubsequenceExtend(a[..|a| - 1], init, b[|b| - 1]);
    }
  }

  lemma {:induction false} PositionalsInRender(ts: seq<Token>)
    ensures IsSubsequence(PositionalsOf(ts), Render(ts))
    decreases |ts|
  {
    if ts != [] {
      var init, last := ts[..|ts| - 1], ts[|ts| - 1];
      assert ts == init + [last];
      PositionalsInRender(init);
      RenderAppend(init, last);
      var p, r := PositionalsOf(init), Render(init);
      match last
      case Positional(a) =>
        assert (p + [a])[..|p|] == p && (r + [a])[..|r|] == r;
      case BoolFlag(n) =>
        SubsequenceExtend(p, r, "--" + n);
      case ValueFlag(n, v) =>
        assert Render([last]) == ["-" + n, v];
        SubsequenceExtend(p, r, "-" + n);
        SubsequenceExtend(p, r + ["-" + n], v);
        assert r + ["-" + n] + [v] == r + ["-" + n, v];
    }
  }

  /** Rendering a token list is rendering its first token, then the rest. */
  lemma RenderHead(ts: seq<Token>)
    requires ts != []
    ensures Render(ts) == Render([ts[0]]) + Render(ts[1..])
  {
    assert [ts[0]][1..] == [];
  }

  lemma {:induction false} RenderAppend(init: seq<Token>, last: Token)
    ensures Render(init + [last]) == Render(init) + Render([last])
    decreases |init|
  {
    if init != [] {
      RenderAppend(init[1..], last);
      var t := init + [last];
      assert t[0] == init[0] && t[1..] == init[1..] + [last];
      var head := Render([init[0]]);
      RenderHead(init);
      RenderHead(t);
      assert head + (Render(init[1..]) + Render([last])) == head + Render(init[1..]) + Render([last]);
    } else {
      assert init + [last] == [last];
    }
  }

  /** The positional arguments keep their input order: they are a
      subsequence of the arguments. */
  lemma PositionalsAreSubsequence(args: seq<string>)
    requires Classify(args).Ok?
    ensures IsSubsequence(PositionalsOf(Classify(args).value), args)
  {
    ClassifyRender(args);
    PositionalsInRender(Classify(args).value);
  }

  /** Tokens already read followed by the reading of the rest. */
  function Then(ts: seq<Token>, r: Result<seq<Token>>): Result<seq<Token>> {
    if r.Ok? then Ok(ts + r.value) else r
  }

  lemma ThenPrepend(ts: seq<Token>, t: Token, r: Result<seq<Token>>)
    ensures Then(ts, Prepend(t, r)) == Then(ts + [t], r)
  {
    if r.Ok? {
      assert ts + ([t] + r.value) == (ts + [t]) + r.value;
    }
  }

  lemma FlagsOfAppend(ts: seq<Token>, t: Token)
    ensures FlagsOf(ts + [t]) == AddFlagToken(FlagsOf(ts), t)
    ensures PositionalsOf(ts + [t]) == AddPositionalToken(PositionalsOf(ts), t)
  {
    assert (ts + [t])[..|ts|] == ts;
  }

  /** parse_flags (src/cmdlib/core.py:35-54): the flags as a dict and the
      positional arguments in order, or FlagError. */
  method ParseFlags(args: seq<string>) returns (r: Result<(Dict, seq<string>)>)
    ensures Classify(args).Err? ==> r == Err(FlagError)
    ensures Classify(args).Ok? ==>
      r == Ok((FlagsOf(Classify(args).value), PositionalsOf(Classify(args).value)))
  {
    var flags: Dict := [];
    var notflags: seq<string> := [];
    ghost var ts: seq<Token> := [];
    var x := 0;
    assert args[x..] == args;
    if Classify(args).Ok? {
      assert ts + Classify(args).value == Classify(args).value;
    }
    while x < |args|
      invariant 0 <= x <= |args|
      invariant Classify(args) == Then(ts, Classify(args[x..]))
      invariant flags == FlagsOf(ts) && notflags == PositionalsOf(ts)
      decreases |args| - x
    {
      var arg := args[x];
      assert args[x..][0] == arg;
      if StartsWith(arg, "--") && |arg| > 2 {
        flags := Put(flags, arg[2..], BoolValue(true));
        assert args[x..][1..] == args[x + 1..];
        ThenPrepend(ts, BoolFlag(arg[2..]), Classify(args[x + 1..]));
        FlagsOfAppend(ts, BoolFlag(arg[2..]));
        ts := ts + [BoolFlag(arg[2..])];
      } else if StartsWith(arg, "-") && |arg| > 1 {
        if x + 1 >= |args| {
          return Err(FlagError);
        }
        assert args[x..][1] == args[x + 1];
        if StartsWith(args[x + 1], "-") {
          return Err(FlagError);
        }
        flags := Put(flags, arg[1..], StrValue(args[x + 1]));
        assert args[x..][2..] == args[x + 2..];
        ThenPrepend(ts, ValueFlag(arg[1..], args[x + 1]), Classify(args[x + 2..]));
        FlagsOfAppend(ts, ValueFlag(arg[1..], args[x + 1]));
        ts := ts + [ValueFlag(arg[1..], args[x + 1])];
        x := x + 1;
      } else {
        notflags := notflags + [arg];
        assert args[x..][1..] == args[x + 1..];
        ThenPrepend(ts, Positional(arg), Classify(args[x + 1..]));
        FlagsOfAppend(ts, Positional(arg));
        ts := ts + [Positional(arg)];
      }
      x := x + 1;
    }
    assert Classify(args[x..]) == Ok([]);
    assert ts + [] == ts;
    r := Ok((flags, notflags));
  }

  predicate HasSpace(s: string) {
    ' ' in s
  }

  /** The first alias that is rejected, in list order: one with a space
      (CommandError) or one already in the table (CommandAlreadyRegistered). */
  function AliasError(aliases: seq<string>, table: map<string, string>): (e: Option<Error>)
    ensures e.None? <==> forall i :: 0 <= i < |aliases| ==> !HasSpace(aliases[i]) && aliases[i] !in table
    ensures e.Some? ==> e.value in {PlainCommandError, CommandAlreadyRegistered}
  {
    if aliases == [] then None
    else if HasSpace(aliases[0]) then Some(PlainCommandError)
    else if aliases[0] in table then Some(CommandAlreadyRegistered)
    else AliasError(aliases[1..], table)
  }

  /** The checks of add_command and add_subcommand, in their order. The
      name is checked against the registered names only, not against the
      alias table. */
  function RegistrationError(name: string, aliases: seq<string>, names: set<string>, table: map<string, string>)
    : (e: Option<Error>)
    ensures e.None? <==>
      && !HasSpace(name) && name !in names
      && forall i :: 0 <= i < |aliases| ==> !HasSpace(aliases[i]) && aliases[i] !in table
    ensures HasSpace(name) ==> e == Some(PlainCommandError)
    ensures !HasSpace(name) && name in names ==> e == Some(CommandAlreadyRegistered)
  {
    if HasSpace(name) then Some(PlainCommandError)
    else if name in names then Some(CommandAlreadyRegistered)
    else AliasError(aliases, table)
  }

  /** The alias table after the aliases of `name` are entered in order. */
  function Assign(table: map<string, string>, aliases: seq<string>, name: string): (r: map<string, string>)
    ensures r.Keys == table.Keys + set a | a in aliases
    ensures forall k :: k in r ==> r[k] == if k in aliases then name else table[k]
  {
    if aliases == [] then table
    else Assign(table, aliases[..|aliases| - 1], name)[aliases[|aliases| - 1] := name]
  }

  /** The alias table after a registration: every alias and the name itself
      resolve to the name; every other entry is kept. */
  function WithAliases(table: map<string, string>, aliases: seq<string>, name: string): (r: map<string, string>)
    ensures r.Keys == table.Keys + (set a | a in aliases) + {name}
    ensures r[name] == name
    ensures forall a :: a in aliases ==> r[a] == name
    ensures forall k :: k in table && k !in aliases && k != name ==> r[k] == table[k]
  {
    Assign(table, aliases, name)[name := name]
  }

  /** A new name is not checked against the aliases: it takes over an
      alias that another command registered (src/cmdlib/core.py:70,85). */
  lemma NameTakesOverAlias(table: map<string, string>, names: set<string>, name: string, owner: string)
    requires name in table && table[name] == owner && owner != name
    requires !HasSpace(name) && name !in names
    ensures RegistrationError(name, [], names, table).None?
    ensures WithAliases(table, [], name)[name] == name != table[name]
  {
  }

  /** The alias table part-way through remove_subcommand: the entries that
      lead to `n` are gone, except those still `pending` a visit. */
  ghost function Dropping(table: map<string, string>, n: string, pending: set<string>): map<string, string> {
    map k | k in table && (k in pending || table[k] != n) :: table[k]
  }

  lemma DroppingNone(table: map<string, string>, n: string)
    ensures Dropping(table, n, table.Keys) == table
  {
  }

  /** Visiting one pending entry drops it exactly when it leads to `n`. */
  lemma DroppingStep(table: map<string, string>, n: string, pending: set<string>, k: string)
    requires pending <= table.Keys && k in pending
    ensures k in Dropping(table, n, pending) && Dropping(table, n, pending)[k] == table[k]
    ensures Dropping(table, n, pending - {k}) ==
      if table[k] == n then Dropping(table, n, pending) - {k} else Dropping(table, n, pending)
  {
  }

  /** The loop of remove_subcommand (src/cmdlib/core.py:184-187): every
      entry of the alias table that leads to `n` is deleted, the others are
      kept. */
  method DropAliasesOf(table: map<string, string>, n: string) returns (r: map<string, string>)
    ensures r.Keys <= table.Keys
    ensures forall k :: k in r ==> r[k] == table[k] != n
    ensures forall k :: k in table && table[k] != n ==> k in r
  {
    r := table;
    var remaining := table.Keys;
    DroppingNone(table, n);
    while remaining != {}
      invariant remaining <= table.Keys
      invariant r == Dropping(table, n, remaining)
      decreases |remaining|
    {
      var k :| k in remaining;
      DroppingStep(table, n, remaining, k);
      if r[k] == n {
        r := r - {k};
      }
      remaining := remaining - {k};
    }
  }

  /** A registry of commands and its alias table: every alias leads to a
      registered command, and every command is registered under its own
      name, which resolves to itself. */
  ghost predicate Registry(cmds: map<string, Command>, table: map<string, string>) {
    && (forall k :: k in table ==> table[k] in cmds)
    && (forall n :: n in cmds ==> cmds[n].name == n && n in table && table[n] == n)
  }

  /** Registering a command keeps the registry consistent. */
  lemma RegisterKeepsRegistry(cmds: map<string, Command>, table: map<string, string>, c: Command)
    requires Registry(cmds, table)
    requires forall i :: 0 <= i < |c.aliases| ==> c.aliases[i] !in table
    ensures Registry(cmds[c.name := c], WithAliases(table, c.aliases, c.name))
  {
    var cmds2, table2 := cmds[c.name := c], WithAliases(table, c.aliases, c.name);
    forall k | k in table2
      ensures table2[k] in cmds2
    {
      if k != c.name && k !in c.aliases {
        assert table2[k] == table[k];
      }
    }
    forall n | n in cmds2 && n != c.name
      ensures cmds2[n].name == n && n in table2 && table2[n] == n
    {
      assert n in table && n !in c.aliases;
    }
  }

  /** Removing a command together with every alias that leads to it keeps
      the registry consistent. */
  lemma UnregisterKeepsRegistry(cmds: map<string, Command>, table: map<string, string>, n: string)
    requires Registry(cmds, table)
    ensures Registry(cmds - {n}, map k | k in table && table[k] != n :: table[k])
  {
  }

  /** Flag (src/cmdlib/core.py:287-296); its type and description are not
      modelled. */
  class Flag {
    const name: string
    const default: Value
    const aliases: seq<string>
    var passed: bool

    constructor (name: string, default: Value, aliases: seq<string>)
      ensures this.name == name && this.default == default && this.aliases == aliases
      ensures !passed
    {
      this.name := name;
      this.default := default;
      this.aliases := aliases;
      passed := false;
    }
  }

  /** Command (src/cmdlib/core.py:126-258): a name and aliases, declared
      flags with their alias table, and subcommands with theirs. */
  class Command {
    const name: string
    const aliases: seq<string>
    var flags: map<string, Flag>
    var flagAliases: map<string, string>
    var subcommands: map<string, Command>
    var subAliases: map<string, string>

    constructor (name: string, aliases: seq<string>)
      ensures this.name == name && this.aliases == aliases
      ensures flags == map[] && flagAliases == map[]
      ensures subcommands == map[] && subAliases == map[]
    {
      this.name := name;
      this.aliases := aliases;
      flags := map[];
      flagAliases := map[];
      subcommands := map[];
      subAliases := map[];
    }

    /** Every subcommand alias leads to a registered subcommand, under the
        name it was registered with. */
    ghost predicate Valid()
      reads this
    {
      Registry(subcommands, subAliases)
    }

    /** add_subcommand (src/cmdlib/core.py:156-176): every check runs before
        anything is changed. */
    method AddSubcommand(sub: Command) returns (err: Option<Error>)
      modifies this
      ensures err == RegistrationError(sub.name, sub.aliases, old(subcommands).Keys, old(subAliases))
      ensures err.Some? ==> subcommands == old(subcommands) && subAliases == old(subAliases)
      ensures err.None? ==>
        && subcommands == old(subcommands)[sub.name := sub]
        && subAliases == WithAliases(old(subAliases), sub.aliases, sub.name)
      ensures flags == old(flags) && flagAliases == old(flagAliases)
      ensures old(Valid()) ==> Valid()
    {
      if HasSpace(sub.name) {
        return Some(PlainCommandError);
      }
      if sub.name in subcommands {
        return Some(CommandAlreadyRegistered);
      }
      var i := 0;
      while i < |sub.aliases|
        invariant 0 <= i <= |sub.aliases|
        invariant AliasError(sub.aliases, subAliases) == AliasError(sub.aliases[i..], subAliases)
        invariant subcommands == old(subcommands) && subAliases == old(subAliases)
        invariant flags == old(flags) && flagAliases == old(flagAliases)
      {
        assert sub.aliases[i..][1..] == sub.aliases[i + 1..];
        if HasSpace(sub.aliases[i]) {
          return Some(PlainCommandError);
        }
        if sub.aliases[i] in subAliases {
          return Some(CommandAlreadyRegistered);
        }
        i := i + 1;
      }
      subcommands := subcommands[sub.name := sub];
      i := 0;
      while i < |sub.aliases|
        invariant 0 <= i <= |sub.aliases|
        invariant subAliases == Assign(old(subAliases), sub.aliases[..i], sub.name)
        invariant subcommands == old(subcommands)[sub.name := sub]
        invariant flags == old(flags) && flagAliases == old(flagAliases)
      {
        assert sub.aliases[..i + 1][..i] == sub.aliases[..i];
        subAliases := subAliases[sub.aliases[i] := sub.name];
        i := i + 1;
      }
      assert sub.aliases[..i] == sub.aliases;
      subAliases := subAliases[sub.name := sub.name];
      if Registry(old(subcommands), old(subAliases)) {
        RegisterKeepsRegistry(old(subcommands), old(subAliases), sub);
      }
      return None;
    }

    /** remove_subcommand (src/cmdlib/core.py:178-187): the subcommand and
        every alias that leads to it go; an unknown name changes nothing. */
    method RemoveSubcommand(n: string)
      modifies this
      ensures n !in old(subcommands) ==> subcommands == old(subcommands) && subAliases == old(subAliases)
      ensures n in old(subcommands) ==>
        && subcommands == old(subcommands) - {n}
        && subAliases == map k | k in old(subAliases) && old(subAliases)[k] != n :: old(subAliases)[k]
      ensures flags == old(flags) && flagAliases == old(flagAliases)
      ensures old(Valid()) ==> Valid()
    {
      if n !in subcommands {
        return;
      }
      subcommands := subcommands - {n};
      subAliases := DropAliasesOf(subAliases, n);
      if Registry(old(subcommands), old(subAliases)) {
        UnregisterKeepsRegistry(old(subcommands), old(subAliases), n);
      }
    }
  }

  /** The descent of _retrive_subcommand: path[0] is the starting command,
      and each next command is the subcommand its predecessor resolves the
      next consumed argument to. */
  ghost predicate Descends(path: seq<Command>, consumed: seq<string>)
    reads set c | c in path
  {
    && |path| == |consumed| + 1
    && forall i :: 0 <= i < |consumed| ==>
      && consumed[i] in path[i].subAliases
      && path[i].subAliases[consumed[i]] in path[i].subcommands
      && path[i + 1] == path[i].subcommands[path[i].subAliases[consumed[i]]]
  }

  /** The descent is stuck on a dangling alias: the next argument is an
      alias of `c` whose name has no registered subcommand. */
  ghost predicate Dangling(c: Command, rest: seq<string>)
    reads c
  {
    rest != [] && rest[0] in c.subAliases && c.subAliases[rest[0]] !in c.subcommands
  }

  /** _retrive_subcommand (src/cmdlib/core.py:11-20): consume leading
      arguments while each is a subcommand alias of the current command.
      The descent stops at the first argument that is not an alias, or with
      KeyError at an alias that leads to a name that is not registered. */
  method RetrieveSubcommand(command: Command, args: seq<string>)
    returns (r: Result<(Command, seq<string>)>, ghost path: seq<Command>, ghost rest: seq<string>)
    ensures |rest| <= |args| && rest == args[|args| - |rest|..]
    ensures Descends(path, args[..|args| - |rest|]) && path[0] == command
    ensures rest == [] || rest[0] !in path[|path| - 1].subAliases || Dangling(path[|path| - 1], rest)
    ensures r.Err? <==> Dangling(path[|path| - 1], rest)
    ensures r.Err? ==> r.error == KeyError
    ensures r.Ok? ==> r.value == (path[|path| - 1], rest)
  {
    var cur := command;
    var arguments := args;
    path := [command];
    while true
      invariant |arguments| <= |args| && arguments == args[|args| - |arguments|..]
      invariant Descends(path, args[..|args| - |arguments|])
      invariant path[0] == command && path[|path| - 1] == cur
      decreases |arguments|
    {
      var key := SafeGet(arguments, 0, None);
      if key.Some? && key.value in cur.subAliases {
        var s := cur.subAliases[key.value];
        if s !in cur.subcommands {
          return Err(KeyError), path, arguments;
        }
        ghost var consumed := args[..|args| - |arguments|];
        assert args[..|args| - |arguments| + 1] == consumed + [arguments[0]];
        cur := cur.subcommands[s];
        arguments := arguments[1..];
        path := path + [cur];
      } else {
        break;
      }
    }
    return Ok((cur, arguments)), path, arguments;
  }

  /** Parser (src/cmdlib/core.py:6-124): the registered commands and the
      table from every name and alias to a registered name. */
  class Parser {
    var commands: map<string, Command>
    var aliasTable: map<string, string>

    constructor ()
      ensures commands == map[] && aliasTable == map[]
    {
      commands := map[];
      aliasTable := map[];
    }

    /** Every alias leads to a registered command, and every command is
        registered under its own name, which resolves to itself. */
    ghost predicate Valid()
      reads this
    {
      Registry(commands, aliasTable)
    }

    /** add_command (src/cmdlib/core.py:66-86): every check runs before
        anything is changed. */
    method AddCommand(command: Command) returns (err: Option<Error>)
      modifies this
      ensures err == RegistrationError(command.name, command.aliases, old(commands).Keys, old(aliasTable))
      ensures err.Some? ==> commands == old(commands) && aliasTable == old(aliasTable)
      ensures err.None? ==>
        && commands == old(commands)[command.name := command]
        && aliasTable == WithAliases(old(aliasTable), command.aliases, command.name)
      ensures old(Valid()) ==> Valid()
    {
      if HasSpace(command.name) {
        return Some(PlainCommandError);
      }
      if command.name in commands {
        return Some(CommandAlreadyRegistered);
      }
      var i := 0;
      while i < |command.aliases|
        invariant 0 <= i <= |command.aliases|
        invariant AliasError(command.aliases, aliasTable) == AliasError(command.aliases[i..], aliasTable)
        invariant commands == old(commands) && aliasTable == old(aliasTable)
      {
        assert command.aliases[i..][1..] == command.aliases[i + 1..];
        if HasSpace(command.aliases[i]) {
          return Some(PlainCommandError);
        }
        if command.aliases[i] in aliasTable {
          return Some(CommandAlreadyRegistered);
        }
        i := i + 1;
      }
      commands := commands[command.name := command];
      i := 0;
      while i < |command.aliases|
        invariant 0 <= i <= |command.aliases|
        invariant aliasTable == Assign(old(aliasTable), command.aliases[..i], command.name)
        invariant commands == old(commands)[command.name := command]
      {
        assert command.aliases[..i + 1][..i] == command.aliases[..i];
        aliasTable := aliasTable[command.aliases[i] := command.name];
        i := i + 1;
      }
      assert command.aliases[..i] == command.aliases;
      aliasTable := aliasTable[command.name := command.name];
      if Registry(old(commands), old(aliasTable)) {
        RegisterKeepsRegistry(old(commands), old(aliasTable), command);
      }
      return None;
    }

    /** remove_command (src/cmdlib/core.py:88-98) looks the command up by
        the Command object instead of its name, finds nothing, and returns
        on the KeyError: it never changes the registry. */
    method RemoveCommand(command: Command)
      ensures commands == old(commands) && aliasTable == old(aliasTable)
    {
    }

    /** parse (src/cmdlib/core.py:22-33): resolve the name, descend into
        subcommands from the command it resolves to, then split the rest
        into flags and positionals. CommandNotFound for an unknown name,
        KeyError from a dangling subcommand alias, FlagError from the flags. */
    method Parse(name: string, args: seq<string>)
      returns (r: Result<(Command, seq<string>, Dict)>, ghost path: seq<Command>, ghost rest: seq<string>)
      requires Valid()
      ensures name !in aliasTable ==> r == Err(CommandNotFound)
      ensures name in aliasTable ==>
        && |rest| <= |args| && rest == args[|args| - |rest|..]
        && Descends(path, args[..|args| - |rest|])
        && path[0] == commands[aliasTable[name]]
        && (rest == [] || rest[0] !in path[|path| - 1].subAliases || Dangling(path[|path| - 1], rest))
        && (r.Ok? <==> !Dangling(path[|path| - 1], rest) && Classify(rest).Ok?)
        && (Dangling(path[|path| - 1], rest) ==> r == Err(KeyError))
        && (!Dangling(path[|path| - 1], rest) && Classify(rest).Err? ==> r == Err(FlagError))
        && (r.Ok? ==> r.value == (path[|path| - 1], PositionalsOf(Classify(rest).value), FlagsOf(Classify(rest).value)))
    {
      if name !in aliasTable {
        return Err(CommandNotFound), [], args;
      }
      var command := commands[aliasTable[name]];
      var found;
      found, path, rest := RetrieveSubcommand(command, args);
      if found.Err? {
        return Err(found.error), path, rest;
      }
      var (c, remaining) := found.value;
      var parsed := ParseFlags(remaining);
      if parsed.Err? {
        return Err(parsed.error), path, rest;
      }
      var (flags, positionals) := parsed.value;
      r := Ok((c, positionals, flags));
    }
  }

  /** add_flag (src/cmdlib/core.py:343-363): a name or alias with a space is
      a FlagError, checked before anything changes; otherwise the flag is
      declared, replacing any flag of that name, and it and its aliases
      resolve to the name. */
  method AddFlag(command: Command, name: string, default: Value, aliases: seq<string>)
    returns (err: Option<Error>)
    modifies command
    ensures err.Some? <==> HasSpace(name) || exists i :: 0 <= i < |aliases| && HasSpace(aliases[i])
    ensures err.Some? ==> err.value == FlagError && unchanged(command)
    ensures err.None? ==>
      && command.flags.Keys == old(command.flags).Keys + {name}
      && fresh(command.flags[name])
      && command.flags[name].name == name && command.flags[name].default == default
      && !command.flags[name].passed
      && (forall k :: k in old(command.flags) && k != name ==> command.flags[k] == old(command.flags)[k])
      && command.flagAliases == WithAliases(old(command.flagAliases), aliases, name)
    ensures command.subcommands == old(command.subcommands) && command.subAliases == old(command.subAliases)
  {
    if HasSpace(name) {
      return Some(FlagError);
    }
    var i := 0;
    while i < |aliases|
      invariant 0 <= i <= |aliases|
      invariant forall k :: 0 <= k < i ==> !HasSpace(aliases[k])
    {
      if HasSpace(aliases[i]) {
        return Some(FlagError);
      }
      i := i + 1;
    }
    var flag := new Flag(name, default, aliases);
    command.flags := command.flags[name := flag];
    i := 0;
    while i < |aliases|
      invariant 0 <= i <= |aliases|
      invariant command.flagAliases == Assign(old(command.flagAliases), aliases[..i], name)
      invariant command.flags == old(command.flags)[name := flag]
      invariant command.subcommands == old(command.subcommands) && command.subAliases == old(command.subAliases)
      invariant !flag.passed && flag.name == name && flag.default == default
    {
      assert aliases[..i + 1][..i] == aliases[..i];
      command.flagAliases := command.flagAliases[aliases[i] := name];
      i := i + 1;
    }
    assert aliases[..i] == aliases;
    command.flagAliases := command.flagAliases[name := name];
    return None;
  }

  /** The original name of a passed flag: its entry in the flag alias
      table, or the name itself when it has none. */
  function Original(name: string, flagAliases: map<string, string>): string {
    if name in flagAliases then flagAliases[name] else name
  }

  /** The dict invoke builds from the passed flags (src/cmdlib/core.py:229-232):
      each passed name under its original name, a later one overwriting an
      earlier one. */
  function ResolveFlags(passed: Dict, flagAliases: map<string, string>): map<string, Value> {
    if passed == [] then map[]
    else
      var (k, v) := passed[|passed| - 1];
      ResolveFlags(passed[..|passed| - 1], flagAliases)[Original(k, flagAliases) := v]
  }

  /** A flag is in the dict exactly when some passed name stands for it. */
  lemma {:induction false} ResolveFlagsHas(passed: Dict, flagAliases: map<string, string>, f: string)
    ensures f in ResolveFlags(passed, flagAliases) <==>
      exists i :: 0 <= i < |passed| && Original(passed[i].0, flagAliases) == f
    decreases |passed|
  {
    if passed != [] {
      var init := passed[..|passed| - 1];
      ResolveFlagsHas(init, flagAliases, f);
      if f in ResolveFlags(init, flagAliases) {
        var i :| 0 <= i < |init| && Original(init[i].0, flagAliases) == f;
        assert passed[i] == init[i];
      }
      if exists i :: 0 <= i < |passed| && Original(passed[i].0, flagAliases) == f {
        var i :| 0 <= i < |passed| && Original(passed[i].0, flagAliases) == f;
        if i < |init| {
          assert init[i] == passed[i];
        }
      }
    }
  }

  /** A flag holds the value passed last under any of its names. */
  lemma {:induction false} ResolveFlagsLast(passed: Dict, flagAliases: map<string, string>, i: int)
    requires 0 <= i < |passed|
    requires forall j :: i < j < |passed| ==> Original(passed[j].0, flagAliases) != Original(passed[i].0, flagAliases)
    ensures Original(passed[i].0, flagAliases) in ResolveFlags(passed, flagAliases)
    ensures ResolveFlags(passed, flagAliases)[Original(passed[i].0, flagAliases)] == passed[i].1
    decreases |passed|
  {
    if i < |passed| - 1 {
      var init := passed[..|passed| - 1];
      assert init[i] == passed[i];
      forall j | i < j < |init|
        ensures Original(init[j].0, flagAliases) != Original(init[i].0, flagAliases)
      {
        assert init[j] == passed[j];
      }
      ResolveFlagsLast(init, flagAliases, i);
    }
  }

  /** The flags invoke puts in the context: every declared flag, with the
      passed value when there is one and its default otherwise. */
  function FlagContext(defaults: map<string, Value>, resolved: map<string, Value>): (ctx: map<string, Value>)
    ensures ctx.Keys == defaults.Keys
  {
    map f | f in defaults :: if f in resolved then resolved[f] else defaults[f]
  }

  /** With nothing passed, the context holds exactly the defaults; a
      passed value always wins over the default; and a declared flag that
      was not passed keeps its default. */
  lemma FlagContextProperties(defaults: map<string, Value>, resolved: map<string, Value>, f: string)
    ensures FlagContext(defaults, map[]) == defaults
    ensures f in defaults && f in resolved ==> FlagContext(defaults, resolved)[f] == resolved[f]
    ensures f in defaults && f !in resolved ==> FlagContext(defaults, resolved)[f] == defaults[f]
  {
  }

  /** The default value of every declared flag. */
  function Defaults(declared: map<string, Flag>): (ds: map<string, Value>)
    ensures ds.Keys == declared.Keys
  {
    map f | f in declared :: declared[f].default
  }

  /** The loop over kwargs (src/cmdlib/core.py:229-232). */
  method ResolvePassed(passed: Dict, flagAliases: map<string, string>) returns (flags: map<string, Value>)
    ensures flags == ResolveFlags(passed, flagAliases)
  {
    flags := map[];
    var i := 0;
    while i < |passed|
      invariant 0 <= i <= |passed|
      invariant flags == ResolveFlags(passed[..i], flagAliases)
    {
      var (k, v) := passed[i];
      assert passed[..i + 1][..i] == passed[..i] && passed[..i + 1][i] == passed[i];
      flags := flags[Original(k, flagAliases) := v];
      i := i + 1;
    }
    assert passed[..i] == passed;
  }

  /** The check for undeclared flags (src/cmdlib/core.py:234-237). */
  method CheckDeclared(flags: map<string, Value>, declared: set<string>) returns (ok: bool)
    ensures ok <==> flags.Keys <= declared
  {
    var remaining := flags.Keys;
    while remaining != {}
      invariant remaining <= flags.Keys
      invariant forall f :: f in flags && f !in remaining ==> f in declared
      decreases |remaining|
    {
      var f :| f in remaining;
      if f !in declared {
        return false;
      }
      remaining := remaining - {f};
    }
    return true;
  }

  /** The defaults of the declared flags that were not passed
      (src/cmdlib/core.py:239-241). */
  method DefaultFlags(declared: map<string, Flag>, flags: map<string, Value>) returns (ctx: map<string, Value>)
    ensures forall f :: f in ctx <==> f in declared && f !in flags
    ensures forall f :: f in ctx ==> ctx[f] == declared[f].default
  {
    ctx := map[];
    var remaining := declared.Keys;
    while remaining != {}
      invariant remaining <= declared.Keys
      invariant forall f :: f in ctx <==> f in declared && f !in remaining && f !in flags
      invariant forall f :: f in ctx ==> ctx[f] == declared[f].default
      decreases |remaining|
    {
      var f :| f in remaining;
      if f !in flags {
        ctx := ctx[f := declared[f].default];
      }
      remaining := remaining - {f};
    }
  }

  /** The context while the passed flags are added: the defaults of the
      flags not passed, and the passed value of those already added (all
      but `remaining`). */
  ghost predicate ContextSoFar(declared: map<string, Flag>, flags: map<string, Value>, ctx: map<string, Value>,
                               remaining: set<string>) {
    && (forall f :: f in ctx <==> f in declared && (f !in flags || f !in remaining))
    && (forall f :: f in ctx ==> ctx[f] == if f in flags then flags[f] else declared[f].default)
  }

  lemma ContextStep(declared: map<string, Flag>, flags: map<string, Value>, ctx: map<string, Value>,
                    remaining: set<string>, f: string)
    requires f in remaining && remaining <= flags.Keys <= declared.Keys
    requires ContextSoFar(declared, flags, ctx, remaining)
    ensures ContextSoFar(declared, flags, ctx[f := flags[f]], remaining - {f})
  {
  }

  lemma ContextDone(declared: map<string, Flag>, flags: map<string, Value>, ctx: map<string, Value>)
    requires ContextSoFar(declared, flags, ctx, {})
    ensures ctx == FlagContext(Defaults(declared), flags)
  {
    assert ctx.Keys == FlagContext(Defaults(declared), flags).Keys;
  }

  /** The loop over the passed flags (src/cmdlib/core.py:245-253): each
      goes into the context and its Flag is marked passed. */
  method MarkPassed(declared: map<string, Flag>, flags: map<string, Value>, ctx0: map<string, Value>)
    returns (ctx: map<string, Value>)
    requires forall f :: f in declared ==> declared[f].name == f
    requires flags.Keys <= declared.Keys
    requires forall f :: f in ctx0 <==> f in declared && f !in flags
    requires forall f :: f in ctx0 ==> ctx0[f] == declared[f].default
    modifies set f | f in declared.Values
    ensures ctx == FlagContext(Defaults(declared), flags)
    ensures forall f :: f in declared ==> (declared[f].passed <==> old(declared[f].passed) || f in flags)
  {
    ctx := ctx0;
    var remaining := flags.Keys;
    while remaining != {}
      invariant remaining <= flags.Keys
      invariant ContextSoFar(declared, flags, ctx, remaining)
      invariant forall g :: g in declared ==>
        declared[g].passed == (old(declared[g].passed) || (g in flags && g !in remaining))
      decreases |remaining|
    {
      var f :| f in remaining;
      ContextStep(declared, flags, ctx, remaining, f);
      ctx := ctx[f := flags[f]];
      var flag := declared[f];
      assert forall g :: g in declared && g != f ==> declared[g] != flag;
      flag.passed := true;
      remaining := remaining - {f};
    }
    ContextDone(declared, flags, ctx);
  }

  /** The flag half of invoke (src/cmdlib/core.py:229-255): FlagError for
      a flag the command does not declare; otherwise the context flags, and
      every passed flag is marked passed. `passed` is never reset, so a flag
      stays marked on later invocations without it. */
  method InvokeFlags(command: Command, passed: Dict) returns (r: Result<map<string, Value>>)
    requires forall f :: f in command.flags ==> command.flags[f].name == f
    modifies set f | f in command.flags.Values
    ensures var resolved := ResolveFlags(passed, command.flagAliases);
      && (r.Err? <==> !(resolved.Keys <= command.flags.Keys))
      && (r.Err? ==> r.error == FlagError)
      && (r.Ok? ==> r.value == FlagContext(Defaults(command.flags), resolved))
    ensures forall f :: f in command.flags ==>
      (command.flags[f].passed <==>
        old(command.flags[f].passed) || (r.Ok? && f in ResolveFlags(passed, command.flagAliases)))
  {
    var flags := ResolvePassed(passed, command.flagAliases);
    var ok := CheckDeclared(flags, command.flags.Keys);
    if !ok {
      return Err(FlagError);
    }
    var ctx := DefaultFlags(command.flags, flags);
    ctx := MarkPassed(command.flags, flags, ctx);
    r := Ok(ctx);
  }
}
