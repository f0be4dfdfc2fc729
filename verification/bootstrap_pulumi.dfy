/** The developer script that runs Pulumi against the shared state store: the
    command it assembles from its own command line. The command line is a
    parameter, as parsed into positional words and options. */
module BootstrapPulumi {
  import opened Wrappers

  /** An option's value as the argument parser gives it. `List` is the
      positional words under the `_` key. */
  datatype ArgValue = Bool(b: bool) | Str(s: string) | Num(n: int) | List(items: seq<string>)

  /** JavaScript truthiness of an option value; arrays are always truthy. */
  predicate Truthy(v: ArgValue) {
    match v
    case Bool(b) => b
    case Str(s) => s != ""
    case Num(n) => n != 0
    case List(_) => true
  }

  /** One entry of `Object.entries(argv)`. */
  datatype Entry = Entry(key: string, value: ArgValue)

  /** The commands that create a stack: `stack init` and `new`. */
  const ToIncludeSecretProvider: seq<(string, Option<string>)> := [("stack", Some("init")), ("new", None)]

  predicate Matches(positional: seq<string>, command: string, subcommand: Option<string>) {
    command in positional && (Wrappers.Truthy(subcommand) ==> subcommand.value in positional)
  }

  /** Whether the command creates a stack, which then needs the key-vault
      secrets provider. */
  predicate IncludeSecretProvider(positional: seq<string>) {
    exists k :: 0 <= k < |ToIncludeSecretProvider| &&
                Matches(positional, ToIncludeSecretProvider[k].0, ToIncludeSecretProvider[k].1)
  }

  /** A stack is created exactly when the words hold both `stack` and
      `init`, in any order and anywhere, or hold `new`. */
  lemma SecretProviderCommands(positional: seq<string>)
    ensures IncludeSecretProvider(positional) <==>
              ("stack" in positional && "init" in positional) || "new" in positional
  {
    if "stack" in positional && "init" in positional {
      assert Matches(positional, ToIncludeSecretProvider[0].0, ToIncludeSecretProvider[0].1);
    }
    if "new" in positional {
      assert Matches(positional, ToIncludeSecretProvider[1].0, ToIncludeSecretProvider[1].1);
    }
  }

  /** The flag one entry adds: `--key` for a truthy option other than the
      positional words, else nothing. */
  function FlagOf(e: Entry): seq<string> {
    if e.key == "_" || !Truthy(e.value) then [] else ["--" + e.key]
  }

  /** The `reduce` over the entries: `--key` for each truthy option, in
      entry order, skipping the positional words. */
  function Flags(entries: seq<Entry>): (flags: seq<string>)
    ensures |flags| <= |entries|
    decreases |entries|
  {
    if entries == [] then []
    else Flags(entries[..|entries| - 1]) + FlagOf(entries[|entries| - 1])
  }

  /** An entry yields a flag when it is a truthy option. */
  predicate IsFlagged(e: Entry) {
    e.key != "_" && Truthy(e.value)
  }

  /** The flags are exactly `--key` for the truthy options. */
  lemma {:induction false} FlagsOfOptions(entries: seq<Entry>)
    ensures forall f :: f in Flags(entries) ==>
              exists k :: 0 <= k < |entries| && IsFlagged(entries[k]) && f == "--" + entries[k].key
    ensures forall k :: 0 <= k < |entries| && IsFlagged(entries[k]) ==> "--" + entries[k].key in Flags(entries)
    decreases |entries|
  {
    if entries != [] {
      var front := entries[..|entries| - 1];
      var last := entries[|entries| - 1];
      FlagsOfOptions(front);
      assert forall k :: 0 <= k < |front| ==> front[k] == entries[k];
      assert Flags(entries) == Flags(front) + FlagOf(last);
    }
  }

  /** The flags of consecutive entries follow each other: the flag list keeps
      the entries' order. */
  lemma {:induction false} FlagsAppend(a: seq<Entry>, b: seq<Entry>)
    ensures Flags(a + b) == Flags(a) + Flags(b)
    decreases |b|
  {
    if b == [] {
      assert a + b == a;
    } else {
      var b' := b[..|b| - 1];
      var last := b[|b| - 1];
      calc {
        Flags(a + b);
        { assert a + b == (a + b') + [last]; }
        Flags((a + b') + [last]);
        { FlagsOfLast(a + b', last); }
        Flags(a + b') + FlagOf(last);
        { FlagsAppend(a, b'); }
        Flags(a) + Flags(b') + FlagOf(last);
        { FlagsOfLast(b', last); assert b' + [last] == b; }
        Flags(a) + Flags(b);
      }
    }
  }

  /** One more entry adds its own flag, if any, at the end. */
  lemma FlagsOfLast(entries: seq<Entry>, e: Entry)
    ensures Flags(entries + [e]) == Flags(entries) + FlagOf(e)
  {
    assert (entries + [e])[..|entries|] == entries;
  }

  /** The positional words never become a flag, and a falsy option is left
      out. */
  lemma PositionalIsNoFlag(words: seq<string>, key: string, value: ArgValue)
    requires !Truthy(value)
    ensures Flags([Entry("_", List(words)), Entry(key, value)]) == []
  {
    var e := [Entry("_", List(words)), Entry(key, value)];
    assert e[..1] == [Entry("_", List(words))];
    assert e[..1][..0] == [];
  }

  /** An argument of the spawned command: a word, or the flag list passed as
      one array element. */
  datatype CommandArg = Word(word: string) | Words(words: seq<string>)

  /** The secrets-provider flag for the key vault and project name the
      generator filled in. */
  function SecretsProvider(keyVault: string, name: string): string {
    "--secrets-provider=\"azurekeyvault://" + keyVault + ".vault.azure.net/keys/" + name + "\""
  }

  /** The command: the positional words, the flag list as one element, then
      the secrets-provider flag or an empty word. */
  function Command(positional: seq<string>, entries: seq<Entry>, keyVault: string, name: string): (c: seq<CommandArg>)
    ensures |c| == |positional| + 2
    ensures forall k :: 0 <= k < |positional| ==> c[k] == Word(positional[k])
    ensures c[|positional|] == Words(Flags(entries))
    ensures IncludeSecretProvider(positional) ==> c[|positional| + 1] == Word(SecretsProvider(keyVault, name))
    ensures !IncludeSecretProvider(positional) ==> c[|positional| + 1] == Word("")
  {
    var words := seq(|positional|, k requires 0 <= k < |positional| => Word(positional[k]));
    words + [Words(Flags(entries)), Word(if IncludeSecretProvider(positional) then SecretsProvider(keyVault, name) else "")]
  }

  /** `pulumi stack init --yes` gets the secrets provider. */
  lemma StackInitGetsProvider(keyVault: string, name: string)
    ensures Command(["stack", "init"], [Entry("_", List(["stack", "init"])), Entry("yes", Bool(true))], keyVault, name)
            == [Word("stack"), Word("init"), Words(["--yes"]), Word(SecretsProvider(keyVault, name))]
  {
    SecretProviderCommands(["stack", "init"]);
    var e := [Entry("_", List(["stack", "init"])), Entry("yes", Bool(true))];
    assert e[..1] == [Entry("_", List(["stack", "init"]))];
    assert e[..1][..0] == [];
    assert Flags(e[..1]) == [];
    assert "--" + "yes" == "--yes";
    assert Flags(e) == ["--yes"];
    var c := Command(["stack", "init"], e, keyVault, name);
    assert c[0] == Word("stack") && c[1] == Word("init");
  }

  /** `pulumi up` does not, and ends in an empty word. */
  lemma UpGetsNoProvider(keyVault: string, name: string)
    ensures Command(["up"], [Entry("_", List(["up"]))], keyVault, name) == [Word("up"), Words([]), Word("")]
  {
    SecretProviderCommands(["up"]);
    var u := [Entry("_", List(["up"]))];
    assert u[..0] == [];
    var c := Command(["up"], u, keyVault, name);
    assert c[0] == Word("up");
  }
}
