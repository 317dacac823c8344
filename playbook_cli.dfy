/** The engine adapter (`PlaybookCLI`): the options record built from the defaults
    and the configuration, and the decisions `run` takes before and after handing
    the playbook to the engine. The engine's own objects are kept abstract: the
    loader and the variable manager record only what `run` does to them, and the
    inventory's hosts and the executor's outcome are parameters. */
module PlaybookCli {
  import opened Wrappers
  import opened PyValues
  import opened Reporting
  import Configure

  /** The options every run starts from. */
  const DEFAULTS: map<string, Value> := map[
    "subset" := VNone,
    "ask_pass" := VBool(false),
    "ask_vault_pass" := VBool(false),
    "become" := VBool(false),
    "become_ask_pass" := VBool(false),
    "become_user" := VStr("root"),
    "become_method" := VStr("sudo"),
    "become_pass" := VNone,
    "check" := VBool(false),
    "connection" := VStr("smart"),
    "diff" := VBool(false),
    "extra_vars" := VList([]),
    "flush_cache" := VBool(false),
    "force_handlers" := VBool(false),
    "forks" := VInt(5),
    "inventory" := VNone,
    "listhosts" := VBool(false),
    "listtags" := VBool(false),
    "listtasks" := VBool(false),
    "module_path" := VNone,
    "new_vault_password_file" := VNone,
    "output_file" := VNone,
    "private_key_file" := VNone,
    "remote_user" := VStr("root"),
    "remote_pass" := VNone,
    "scp_extra_args" := VStr(""),
    "sftp_extra_args" := VStr(""),
    "skip_tags" := VList([]),
    "ssh_common_args" := VStr(""),
    "ssh_extra_args" := VStr(""),
    "start_at_task" := VNone,
    "step" := VNone,
    "syntax" := VBool(false),
    "tags" := VList([VStr("all")]),
    "timeout" := VInt(10),
    "vault_password" := VNone,
    "vault_password_file" := VNone,
    "verbosity" := VInt(0)
  ]

  /** What the playbook executor does when run. */
  datatype ExecOutcome =
    | Finished(results: Value)
    | AnsibleError(message: string)
    | Crashed(exc: Exc)

  /** The engine's data loader, as far as `run` configures it. */
  class Loader {
    var basedir: Option<Value>
    /** The vault secrets: identifier and password text. */
    var vaultSecrets: seq<(string, string)>

    constructor ()
      ensures basedir == None && vaultSecrets == []
    {
      basedir := None;
      vaultSecrets := [];
    }
  }

  /** The engine's variable manager, as far as `run` configures it. */
  class VariableManager {
    var extraVarsLoaded: bool
    var safeBasedir: bool
    /** The hosts whose facts were cleared, in order. */
    var clearedFacts: seq<string>

    constructor ()
      ensures !extraVarsLoaded && !safeBasedir && clearedFacts == []
    {
      extraVarsLoaded := false;
      safeBasedir := false;
      clearedFacts := [];
    }

    /** `clear_facts(hostname)`. */
    method ClearFacts(hostname: string)
      modifies this
      ensures clearedFacts == old(clearedFacts) + [hostname]
      ensures extraVarsLoaded == old(extraVarsLoaded) && safeBasedir == old(safeBasedir)
    {
      clearedFacts := clearedFacts + [hostname];
    }
  }

  /** The options record: the configuration laid over the defaults. */
  function Options(config: map<string, Value>): map<string, Value> {
    DEFAULTS + config
  }

  /** Every default is an option; a configured value wins over the default, and
      configuration keys without a default (such as `playbook`) are options too. */
  lemma OptionsOverlay(config: map<string, Value>, k: string)
    ensures k in Options(config) <==> k in DEFAULTS || k in config
    ensures k in config ==> Options(config)[k] == config[k]
    ensures k !in config && k in DEFAULTS ==> Options(config)[k] == DEFAULTS[k]
  {
  }

  /** The configuration `configure` assembles reaches the options whole: the playbook,
      which has no default, the inventory and the list of extra vars. */
  lemma ConfiguredOptions(merged: map<string, Value>, extraVars: seq<(string, Value)>, keyFile: Option<Value>,
                          inventory: Value, playbook: string)
    ensures var options := Options(Configure.Assembled(merged, extraVars, keyFile, inventory, playbook));
      && options["playbook"] == VStr(playbook)
      && options["inventory"] == inventory
      && options["extra_vars"] == VList([VDict(extraVars)])
      && (keyFile.Some? ==> options["private_key_file"] == keyFile.value)
  {
  }

  /** Without configuration the engine runs with 5 forks over a smart connection as
      root, a timeout of 10 and the tag `all`. */
  lemma DefaultOptions()
    ensures Options(map[])["forks"] == VInt(5)
    ensures Options(map[])["connection"] == VStr("smart")
    ensures Options(map[])["remote_user"] == VStr("root")
    ensures Options(map[])["timeout"] == VInt(10)
    ensures Options(map[])["tags"] == VList([VStr("all")])
  {
    DefaultConnection();
    DefaultSelection();
  }

  lemma DefaultConnection()
    ensures DEFAULTS["forks"] == VInt(5)
    ensures DEFAULTS["connection"] == VStr("smart")
    ensures DEFAULTS["timeout"] == VInt(10)
  {
  }

  lemma DefaultSelection()
    ensures DEFAULTS["remote_user"] == VStr("root")
    ensures DEFAULTS["tags"] == VList([VStr("all")])
  {
  }

  /** The options `run` reads without a fallback. */
  const RUN_KEYS: set<string> := {"vault_password", "become_pass", "remote_pass", "extra_vars", "flush_cache"}

  lemma RunKeysDefaulted()
    ensures RUN_KEYS <= DEFAULTS.Keys
  {
  }

  /** The passwords handed to the executor. */
  function Passwords(options: map<string, Value>): (p: map<string, Value>)
    requires "become_pass" in options && "remote_pass" in options
    ensures "become_pass" in p <==> options["become_pass"] != VNone
    ensures "conn_pass" in p <==> options["remote_pass"] != VNone
    ensures forall k :: k in p ==> k == "become_pass" || k == "conn_pass"
    ensures "become_pass" in p ==> p["become_pass"] == options["become_pass"]
    ensures "conn_pass" in p ==> p["conn_pass"] == options["remote_pass"]
  {
    var withBecome := if options["become_pass"] != VNone then map["become_pass" := options["become_pass"]] else map[];
    if options["remote_pass"] != VNone then withBecome["conn_pass" := options["remote_pass"]] else withBecome
  }

  /** The return code of a run whose executor finished or failed with an AnsibleError. */
  function ReturnCode(outcome: ExecOutcome): int
    requires !outcome.Crashed?
  {
    if outcome.AnsibleError? then 1 else 0
  }

  /** `_flush_cache`: clears the facts of every inventory host, in order. */
  method FlushCache(hosts: seq<string>, variableManager: VariableManager)
    modifies variableManager
    ensures variableManager.clearedFacts == old(variableManager.clearedFacts) + hosts
    ensures variableManager.extraVarsLoaded == old(variableManager.extraVarsLoaded)
    ensures variableManager.safeBasedir == old(variableManager.safeBasedir)
  {
    for i := 0 to |hosts|
      invariant variableManager.clearedFacts == old(variableManager.clearedFacts) + hosts[..i]
      invariant variableManager.extraVarsLoaded == old(variableManager.extraVarsLoaded)
      invariant variableManager.safeBasedir == old(variableManager.safeBasedir)
    {
      variableManager.ClearFacts(hosts[i]);
      assert hosts[..i + 1] == hosts[..i] + [hosts[i]];
    }
    assert hosts[..|hosts|] == hosts;
  }

  class PlaybookCLI {
    /** The options record, fixed when the adapter is built. */
    const options: map<string, Value>

    /** `__init__`: the defaults, updated with the configuration. */
    constructor (config: map<string, Value>)
      ensures options == Options(config)
      ensures Valid()
    {
      options := DEFAULTS + config;
      RunKeysDefaulted();
    }

    /** The options `run` reads without a fallback are present; every default is. */
    predicate Valid() {
      RUN_KEYS <= options.Keys
    }

    /** The part of `run` before the executor is built: the loader, the variable
        manager and the passwords, set up from the options. */
    method Prepare(inventoryHosts: seq<string>)
      returns (passwords: map<string, Value>, loader: Loader, variableManager: VariableManager)
      requires Valid()
      ensures passwords == Passwords(options)
      ensures fresh(loader) && fresh(variableManager)
      ensures variableManager.extraVarsLoaded == Truthy(options["extra_vars"])
      ensures variableManager.safeBasedir <==> "basedir" !in options || Truthy(options["basedir"])
      ensures loader.basedir.Some? <==> "basedir" in options && Truthy(options["basedir"])
      ensures loader.basedir.Some? ==> loader.basedir.value == options["basedir"]
      ensures Truthy(options["vault_password"]) ==> loader.vaultSecrets == [("default", Str(options["vault_password"]))]
      ensures !Truthy(options["vault_password"]) ==> loader.vaultSecrets == []
      ensures variableManager.clearedFacts == if Truthy(options["flush_cache"]) then inventoryHosts else []
    {
      var vaultPassword := options["vault_password"];
      var becomePassword := options["become_pass"];
      var remotePassword := options["remote_pass"];
      var extraVars := options["extra_vars"];
      passwords := map[];
      loader := new Loader();
      var basedir := if "basedir" in options then options["basedir"] else VBool(false);
      if Truthy(basedir) {
        loader.basedir := Some(basedir);
      }
      variableManager := new VariableManager();
      if Truthy(extraVars) {
        // `load_extra_vars(loader, options)`
        variableManager.extraVarsLoaded := true;
      }
      if "basedir" in options {
        if Truthy(options["basedir"]) {
          variableManager.safeBasedir := true;
        }
      } else {
        variableManager.safeBasedir := true;
      }
      if Truthy(vaultPassword) {
        loader.vaultSecrets := [("default", Str(vaultPassword))];
      }
      if becomePassword != VNone {
        passwords := passwords["become_pass" := becomePassword];
      }
      if remotePassword != VNone {
        passwords := passwords["conn_pass" := remotePassword];
      }
      if Truthy(options["flush_cache"]) {
        FlushCache(inventoryHosts, variableManager);
      }
    }

    /** `run`. `inventoryHosts` are the hosts of the inventory the engine loads,
        `outcome` is what the executor does and `stats` its statistics afterwards.
        Besides the return code, results and statistics, the run yields the
        passwords, loader and variable manager it handed to the executor. */
    method Run(inventoryHosts: seq<string>, outcome: ExecOutcome, stats: Stats)
      returns (r: Result<(int, Value, Stats), Exc>, passwords: map<string, Value>,
               loader: Loader, variableManager: VariableManager)
      requires Valid()
      ensures "playbook" !in options ==> r == Err(AttributeError("'Options' object has no attribute 'playbook'"))
      ensures "playbook" in options && outcome.Crashed? ==> r == Err(outcome.exc)
      ensures "playbook" in options && !outcome.Crashed? ==>
        r == Ok((ReturnCode(outcome), if outcome.Finished? then outcome.results else VStr(""), stats))
      ensures fresh(loader) && fresh(variableManager)
      ensures r.Ok? ==>
        && passwords == Passwords(options)
        && variableManager.extraVarsLoaded == Truthy(options["extra_vars"])
        && loader.vaultSecrets == (if Truthy(options["vault_password"]) then [("default", Str(options["vault_password"]))] else [])
        && (loader.basedir.Some? <==> "basedir" in options && Truthy(options["basedir"]))
        && (loader.basedir.Some? ==> loader.basedir.value == options["basedir"])
        && (variableManager.safeBasedir <==> "basedir" !in options || Truthy(options["basedir"]))
        && variableManager.clearedFacts == (if Truthy(options["flush_cache"]) then inventoryHosts else [])
    {
      if "playbook" !in options {
        loader := new Loader();
        variableManager := new VariableManager();
        return Err(AttributeError("'Options' object has no attribute 'playbook'")), map[], loader, variableManager;
      }
      var rcode := 0;
      passwords, loader, variableManager := Prepare(inventoryHosts);
      var results := VStr("");
      match outcome {
        case Finished(value) =>
          results := value;
        case AnsibleError(_) =>
          rcode := 1;
        case Crashed(e) =>
          return Err(e), passwords, loader, variableManager;
      }
      r := Ok((rcode, results, stats));
    }
  }
}
