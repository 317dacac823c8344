/** Assembly of the run configuration (`AnsiblePlaybook.configure`): the coerced
    `source` and `params` fields, the folder the playbook runs from, the merged
    extra vars, the private key file, the inventory and the playbook path. */
module Configure {
  import opened Wrappers
  import opened PyValues
  import opened Fs
  import opened ConfigResolver
  import opened Inventory

  const DEFAULT_PLAYBOOK := "playbook.yml"
  /** The folder under the work folder where the repository is cloned when `params` gives no `src`. */
  const CLONE_FOLDER := "src"

  /** With no `src` in the coerced `params`, the repository is cloned. */
  predicate ClonesRepository(paramsConfig: map<string, Value>) {
    !("src" in paramsConfig && Truthy(paramsConfig["src"]))
  }

  /** The folder the playbook is run from: `workfolder/<src>`, or the clone folder. */
  function BuildPath(workfolder: string, paramsConfig: map<string, Value>): string {
    if ClonesRepository(paramsConfig) then Join(workfolder, CLONE_FOLDER)
    else Join(workfolder, Str(paramsConfig["src"]))
  }

  /** The extra vars before they are wrapped in a list: the configured `extra_vars`
      (a dict, `{}` when absent) updated with the raw `source['extra_vars']`. */
  function ExtraVars(config: map<string, Value>, source: seq<(string, Value)>): Result<seq<(string, Value)>, Exc> {
    var configured := if "extra_vars" in config then config["extra_vars"] else VDict([]);
    match configured
    case VDict(d) => DictUpdate(d, GetOr(source, "extra_vars", VDict([])))
    case _ => Err(AttributeError("'" + TypeName(configured) + "' object has no attribute 'update'"))
  }

  /** `config['private_key_file']` as `configure` sets it, when it sets it: the file the
      inline `private_key` is written to, else the coerced `private_key_file` of
      `source` taken relative to the build folder. */
  function KeyFile(sourceConfig: map<string, Value>, buildPath: string, source: seq<(string, Value)>, keyPath: string)
    : Option<Value>
  {
    if Truthy(GetOr(source, "private_key", VNone)) then Some(VStr(keyPath))
    else if "private_key_file" in sourceConfig && Truthy(sourceConfig["private_key_file"]) then
      Some(VStr(Join(buildPath, Str(sourceConfig["private_key_file"]))))
    else None
  }

  /** The path of the playbook: `params['playbook']` (default `playbook.yml`) in the build folder. */
  function PlaybookPath(buildPath: string, params: seq<(string, Value)>): Result<string, Exc> {
    var playbook := GetOr(params, "playbook", VStr(DEFAULT_PLAYBOOK));
    if playbook.VStr? then Ok(Join(buildPath, playbook.s)) else Err(PathTypeError(TypeName(playbook)))
  }

  /** The clone step can finish: no clone is needed, or the identity file can be written,
      `src_private_key` is text and the clone succeeds. */
  predicate CloneReady(source: seq<(string, Value)>, paramsConfig: map<string, Value>, identityPath: string,
                       checkout: Option<map<string, string>>, dirs: set<string>, denied: set<string>)
  {
    || !ClonesRepository(paramsConfig)
    || (identityPath !in denied && identityPath !in dirs && GetOr(source, "src_private_key", VNone).VStr?
        && checkout.Some?)
  }

  /** The directories after a successful clone step. */
  function DirsAfterClone(workfolder: string, paramsConfig: map<string, Value>, dirs: set<string>): set<string> {
    if ClonesRepository(paramsConfig) then dirs + {Join(workfolder, CLONE_FOLDER)} else dirs
  }

  /** The files after a successful clone step: the identity file and the checked-out files. */
  function FilesAfterClone(source: seq<(string, Value)>, paramsConfig: map<string, Value>, identityPath: string,
                           checkout: Option<map<string, string>>, files: map<string, string>): map<string, string>
  {
    var identity := GetOr(source, "src_private_key", VNone);
    if ClonesRepository(paramsConfig) && identity.VStr? && checkout.Some? then
      files[identityPath := identity.s] + checkout.value
    else files
  }

  /** The write a successful clone step makes: the deploy key to the identity file. */
  function CloneWrites(source: seq<(string, Value)>, paramsConfig: map<string, Value>, identityPath: string)
    : seq<(string, string)>
  {
    var identity := GetOr(source, "src_private_key", VNone);
    if ClonesRepository(paramsConfig) && identity.VStr? then [(identityPath, identity.s)] else []
  }

  /** The key step can finish: no inline key, or a text key whose file can be written. */
  predicate KeyReady(source: seq<(string, Value)>, keyPath: string, dirs: set<string>, denied: set<string>) {
    var key := GetOr(source, "private_key", VNone);
    !Truthy(key) || (keyPath !in denied && keyPath !in dirs && key.VStr?)
  }

  /** The files after a successful key step. */
  function FilesAfterKey(source: seq<(string, Value)>, keyPath: string, files: map<string, string>): map<string, string> {
    var key := GetOr(source, "private_key", VNone);
    if Truthy(key) && key.VStr? then files[keyPath := key.s] else files
  }

  /** The write a successful key step makes: the inline key to the temporary file. */
  function KeyWrites(source: seq<(string, Value)>, keyPath: string): seq<(string, string)> {
    var key := GetOr(source, "private_key", VNone);
    if Truthy(key) && key.VStr? then [(keyPath, key.s)] else []
  }

  /** Every step of `configure` before the playbook check can finish, from a filesystem
      with directories `dirs`, files `files` and denied paths `denied`: the clone, the
      extra vars, the key file and the inventory. */
  predicate ReadyForPlaybook(workfolder: string, source: seq<(string, Value)>, params: seq<(string, Value)>,
                             sourceConfig: map<string, Value>, paramsConfig: map<string, Value>,
                             identityPath: string, checkout: Option<map<string, string>>, keyPath: string,
                             dirs: set<string>, files: map<string, string>, denied: set<string>)
  {
    var buildPath := BuildPath(workfolder, paramsConfig);
    var cloned := DirsAfterClone(workfolder, paramsConfig, dirs);
    && CloneReady(source, paramsConfig, identityPath, checkout, dirs, denied)
    && ExtraVars(sourceConfig + paramsConfig, source).Ok?
    && KeyReady(source, keyPath, cloned, denied)
    && InventoryValue(buildPath, source, params).Ok?
    && InventoryReady(buildPath, source, params, cloned,
                      FilesAfterKey(source, keyPath, FilesAfterClone(source, paramsConfig, identityPath, checkout, files)),
                      denied)
  }

  /** The configuration before the inventory and the playbook: the merged fields with
      the extra vars wrapped in a list and, when there is one, the key file. */
  function Prepared(merged: map<string, Value>, extraVars: seq<(string, Value)>, keyFile: Option<Value>)
    : map<string, Value>
  {
    var withVars := merged["extra_vars" := VList([VDict(extraVars)])];
    if keyFile.Some? then withVars["private_key_file" := keyFile.value] else withVars
  }

  /** The configuration `configure` returns: the merged fields with the four entries it assigns itself. */
  function Assembled(merged: map<string, Value>, extraVars: seq<(string, Value)>, keyFile: Option<Value>,
                     inventory: Value, playbook: string): map<string, Value>
  {
    Prepared(merged, extraVars, keyFile)["inventory" := inventory]["playbook" := VStr(playbook)]
  }

  /** The build folder part of `configure`: with a `src` the folder is `workfolder/<src>`
      and nothing is touched; otherwise the deploy key `src_private_key` is written to
      `identityPath` and the repository is cloned into `workfolder/src`. */
  method PrepareBuildPath(workfolder: string, source: seq<(string, Value)>, paramsConfig: map<string, Value>,
                          fs: FileSystem, identityPath: string, checkout: Option<map<string, string>>)
    returns (r: Result<string, Exc>)
    modifies fs
    ensures r.Ok? ==> r.value == BuildPath(workfolder, paramsConfig)
    ensures !ClonesRepository(paramsConfig) ==> r.Ok? && unchanged(fs)
    ensures ClonesRepository(paramsConfig) && checkout.None? ==> r.Err?
    ensures r.Ok? <==> CloneReady(source, paramsConfig, identityPath, checkout, old(fs.dirs), fs.denied)
    ensures r.Ok? && ClonesRepository(paramsConfig) ==>
      var identity := GetOr(source, "src_private_key", VNone);
      && identity.VStr?
      && fs.written == old(fs.written) + [(identityPath, identity.s)]
      && fs.dirs == old(fs.dirs) + {r.value}
      && fs.files == old(fs.files)[identityPath := identity.s] + checkout.value
    ensures old(fs.dirs) <= fs.dirs && old(fs.written) <= fs.written
  {
    var src := if "src" in paramsConfig then paramsConfig["src"] else VNone;
    if Truthy(src) {
      return Ok(Join(workfolder, Str(src)));
    }
    var buildPath := Join(workfolder, CLONE_FOLDER);
    var identity := GetOr(source, "src_private_key", VNone);
    var created := fs.Write(identityPath, if identity.VStr? then identity.s else "");
    if !created {
      return Err(OSError(identityPath));
    }
    if !identity.VStr? {
      return Err(TypeError("write() argument must be str, not " + TypeName(identity)));
    }
    match checkout {
      case None =>
        return Err(GitCommandError(buildPath));
      case Some(files) =>
        fs.Populate(buildPath, files);
    }
    return Ok(buildPath);
  }

  /** The private key part of `configure`: an inline `private_key` is written to
      `keyPath`, which becomes the key file; otherwise a `private_key_file` of `source`
      is taken relative to the build folder. */
  method PrepareKeyFile(sourceConfig: map<string, Value>, buildPath: string, source: seq<(string, Value)>,
                        fs: FileSystem, keyPath: string)
    returns (r: Result<Option<Value>, Exc>)
    modifies fs
    ensures r.Ok? ==> r.value == KeyFile(sourceConfig, buildPath, source, keyPath)
    ensures !Truthy(GetOr(source, "private_key", VNone)) ==> r.Ok? && unchanged(fs)
    ensures r.Ok? <==> KeyReady(source, keyPath, old(fs.dirs), fs.denied)
    ensures r.Ok? && Truthy(GetOr(source, "private_key", VNone)) ==>
      var key := GetOr(source, "private_key", VNone);
      && key.VStr?
      && fs.written == old(fs.written) + [(keyPath, key.s)]
      && fs.files == old(fs.files)[keyPath := key.s]
    ensures fs.dirs == old(fs.dirs) && old(fs.written) <= fs.written
  {
    var privateKeyPath := if "private_key_file" in sourceConfig then sourceConfig["private_key_file"] else VNone;
    var privateKey := GetOr(source, "private_key", VNone);
    if Truthy(privateKey) {
      var written := fs.Write(keyPath, if privateKey.VStr? then privateKey.s else "");
      if !written {
        return Err(OSError(keyPath));
      }
      if !privateKey.VStr? {
        return Err(TypeError("write() argument must be str, not " + TypeName(privateKey)));
      }
      return Ok(Some(VStr(keyPath)));
    } else if Truthy(privateKeyPath) {
      return Ok(Some(VStr(Join(buildPath, Str(privateKeyPath)))));
    }
    return Ok(None);
  }

  /** `configure` after the two coercions: the build folder, the extra vars, the key
      file, the inventory and the playbook path, from the coerced `source` fields
      `sourceConfig` and the coerced `params` fields `paramsConfig`. */
  method AssembleConfig(workfolder: string, source: seq<(string, Value)>, params: seq<(string, Value)>,
                        sourceConfig: map<string, Value>, paramsConfig: map<string, Value>, fs: FileSystem,
                        identityPath: string, checkout: Option<map<string, string>>, keyPath: string)
    returns (r: Result<map<string, Value>, Exc>)
    modifies fs
    ensures ClonesRepository(paramsConfig) && checkout.None? ==> r.Err?
    ensures r.Ok? ==>
      var buildPath := BuildPath(workfolder, paramsConfig);
      && ExtraVars(sourceConfig + paramsConfig, source).Ok?
      && InventoryValue(buildPath, source, params).Ok?
      && PlaybookPath(buildPath, params).Ok?
      && fs.IsFile(PlaybookPath(buildPath, params).value)
      && r.value == Assembled(sourceConfig + paramsConfig, ExtraVars(sourceConfig + paramsConfig, source).value,
                              KeyFile(sourceConfig, buildPath, source, keyPath),
                              InventoryValue(buildPath, source, params).value,
                              PlaybookPath(buildPath, params).value)
    ensures r.Ok? <==>
      && ReadyForPlaybook(workfolder, source, params, sourceConfig, paramsConfig, identityPath, checkout, keyPath,
                              old(fs.dirs), old(fs.files), fs.denied)
      && PlaybookPath(BuildPath(workfolder, paramsConfig), params).Ok?
      && fs.IsFile(PlaybookPath(BuildPath(workfolder, paramsConfig), params).value)
    ensures
      && ReadyForPlaybook(workfolder, source, params, sourceConfig, paramsConfig, identityPath, checkout, keyPath,
                              old(fs.dirs), old(fs.files), fs.denied)
      && PlaybookPath(BuildPath(workfolder, paramsConfig), params).Ok?
      && !fs.IsFile(PlaybookPath(BuildPath(workfolder, paramsConfig), params).value)
      ==> r.Err? && r.error.ValueError?
    ensures r.Ok? ==>
      var buildPath := BuildPath(workfolder, paramsConfig);
      var keyed := FilesAfterKey(source, keyPath, FilesAfterClone(source, paramsConfig, identityPath, checkout, old(fs.files)));
      && fs.dirs == DirsAfterInventory(buildPath, source, params, DirsAfterClone(workfolder, paramsConfig, old(fs.dirs)),
                                       keyed, fs.denied)
      && fs.files == FilesAfterInventory(buildPath, source, params, keyed)
      && fs.written == old(fs.written) + CloneWrites(source, paramsConfig, identityPath) + KeyWrites(source, keyPath)
                                       + InventoryWrites(buildPath, source, params)
    ensures r.Ok? && ClonesRepository(paramsConfig) ==> GetOr(source, "src_private_key", VNone).VStr?
    ensures r.Ok? && Truthy(GetOr(source, "private_key", VNone)) ==> GetOr(source, "private_key", VNone).VStr?
    ensures old(fs.dirs) <= fs.dirs && old(fs.written) <= fs.written
  {
    var prepared := PrepareSources(workfolder, source, sourceConfig, paramsConfig, fs, identityPath, checkout, keyPath);
    if prepared.Err? {
      return Err(prepared.error);
    }
    r := PlaceInventoryAndPlaybook(BuildPath(workfolder, paramsConfig), source, params, fs, prepared.value);
  }

  /** The steps of `configure` before the inventory: the build folder, the extra vars and the key file. */
  method PrepareSources(workfolder: string, source: seq<(string, Value)>,
                        sourceConfig: map<string, Value>, paramsConfig: map<string, Value>, fs: FileSystem,
                        identityPath: string, checkout: Option<map<string, string>>, keyPath: string)
    returns (r: Result<map<string, Value>, Exc>)
    modifies fs
    ensures ClonesRepository(paramsConfig) && checkout.None? ==> r.Err?
    ensures r.Ok? <==>
      && CloneReady(source, paramsConfig, identityPath, checkout, old(fs.dirs), fs.denied)
      && ExtraVars(sourceConfig + paramsConfig, source).Ok?
      && KeyReady(source, keyPath, DirsAfterClone(workfolder, paramsConfig, old(fs.dirs)), fs.denied)
    ensures r.Ok? ==>
      && r.value == Prepared(sourceConfig + paramsConfig, ExtraVars(sourceConfig + paramsConfig, source).value,
                             KeyFile(sourceConfig, BuildPath(workfolder, paramsConfig), source, keyPath))
      && fs.dirs == DirsAfterClone(workfolder, paramsConfig, old(fs.dirs))
      && fs.files == FilesAfterKey(source, keyPath, FilesAfterClone(source, paramsConfig, identityPath, checkout, old(fs.files)))
      && fs.written == old(fs.written) + CloneWrites(source, paramsConfig, identityPath) + KeyWrites(source, keyPath)
    ensures r.Ok? && ClonesRepository(paramsConfig) ==> GetOr(source, "src_private_key", VNone).VStr?
    ensures r.Ok? && Truthy(GetOr(source, "private_key", VNone)) ==> GetOr(source, "private_key", VNone).VStr?
    ensures old(fs.dirs) <= fs.dirs && old(fs.written) <= fs.written
  {
    var merged := sourceConfig + paramsConfig;
    var buildPath := PrepareBuildPath(workfolder, source, paramsConfig, fs, identityPath, checkout);
    if buildPath.Err? {
      return Err(buildPath.error);
    }
    assert fs.dirs == DirsAfterClone(workfolder, paramsConfig, old(fs.dirs));
    var extraVars := ExtraVars(merged, source);
    if extraVars.Err? {
      return Err(extraVars.error);
    }
    var keyFile := PrepareKeyFile(sourceConfig, buildPath.value, source, fs, keyPath);
    if keyFile.Err? {
      return Err(keyFile.error);
    }
    return Ok(Prepared(merged, extraVars.value, keyFile.value));
  }

  /** The end of `configure`: the inventory, then the playbook path, which must name a file. */
  method PlaceInventoryAndPlaybook(buildPath: string, source: seq<(string, Value)>, params: seq<(string, Value)>,
                                   fs: FileSystem, config: map<string, Value>)
    returns (r: Result<map<string, Value>, Exc>)
    modifies fs
    ensures r.Ok? ==>
      && InventoryValue(buildPath, source, params).Ok?
      && PlaybookPath(buildPath, params).Ok?
      && fs.IsFile(PlaybookPath(buildPath, params).value)
      && r.value == config["inventory" := InventoryValue(buildPath, source, params).value]
                          ["playbook" := VStr(PlaybookPath(buildPath, params).value)]
    ensures r.Ok? <==>
      && InventoryValue(buildPath, source, params).Ok?
      && InventoryReady(buildPath, source, params, old(fs.dirs), old(fs.files), fs.denied)
      && PlaybookPath(buildPath, params).Ok?
      && fs.IsFile(PlaybookPath(buildPath, params).value)
    ensures
      && InventoryValue(buildPath, source, params).Ok?
      && InventoryReady(buildPath, source, params, old(fs.dirs), old(fs.files), fs.denied)
      && PlaybookPath(buildPath, params).Ok?
      && !fs.IsFile(PlaybookPath(buildPath, params).value)
      ==> r == Err(ValueError("Cannot find playbook file '" + PlaybookPath(buildPath, params).value + "'"))
    ensures fs.dirs == DirsAfterInventory(buildPath, source, params, old(fs.dirs), old(fs.files), fs.denied)
    ensures InventoryValue(buildPath, source, params).Ok? &&
            InventoryReady(buildPath, source, params, old(fs.dirs), old(fs.files), fs.denied) ==>
      && fs.files == FilesAfterInventory(buildPath, source, params, old(fs.files))
      && fs.written == old(fs.written) + InventoryWrites(buildPath, source, params)
    ensures !(InventoryValue(buildPath, source, params).Ok? &&
              InventoryReady(buildPath, source, params, old(fs.dirs), old(fs.files), fs.denied)) ==>
      fs.files == old(fs.files) && fs.written == old(fs.written)
    ensures old(fs.dirs) <= fs.dirs && old(fs.written) <= fs.written
  {
    var inventory := InventoryTarget(buildPath, source, params, fs);
    if inventory.Err? {
      return Err(inventory.error);
    }
    var playbook := PlaybookPath(buildPath, params);
    if playbook.Err? {
      return Err(playbook.error);
    }
    if !fs.IsFile(playbook.value) {
      return Err(ValueError("Cannot find playbook file '" + playbook.value + "'"));
    }
    return Ok(config["inventory" := inventory.value]["playbook" := VStr(playbook.value)]);
  }

  /** `configure`. The clone of the repository is `checkout` (None when it fails),
      `identityPath` is `~/.ssh/id_rsa` and `keyPath` the name of the temporary key file. */
  method Configure(workfolder: string, source: seq<(string, Value)>, params: seq<(string, Value)>, fs: FileSystem,
                   identityPath: string, checkout: Option<map<string, string>>, keyPath: string)
    returns (r: Result<map<string, Value>, Exc>)
    modifies fs
    ensures ConfigParam(source, SOURCE_SCHEMA).Err? ==> r == Err(ConfigParam(source, SOURCE_SCHEMA).error) && unchanged(fs)
    ensures ConfigParam(source, SOURCE_SCHEMA).Ok? && ConfigParam(params, PARAMS_SCHEMA).Err? ==>
      r == Err(ConfigParam(params, PARAMS_SCHEMA).error) && unchanged(fs)
    ensures (ConfigParam(source, SOURCE_SCHEMA).Ok? && ConfigParam(params, PARAMS_SCHEMA).Ok? &&
             ClonesRepository(ConfigParam(params, PARAMS_SCHEMA).value) && checkout.None?) ==> r.Err?
    ensures r.Ok? ==>
      && ConfigParam(source, SOURCE_SCHEMA).Ok?
      && ConfigParam(params, PARAMS_SCHEMA).Ok?
      && var sourceConfig := ConfigParam(source, SOURCE_SCHEMA).value;
         var paramsConfig := ConfigParam(params, PARAMS_SCHEMA).value;
         var buildPath := BuildPath(workfolder, paramsConfig);
         && ExtraVars(sourceConfig + paramsConfig, source).Ok?
         && InventoryValue(buildPath, source, params).Ok?
         && PlaybookPath(buildPath, params).Ok?
         && fs.IsFile(PlaybookPath(buildPath, params).value)
         && r.value == Assembled(sourceConfig + paramsConfig, ExtraVars(sourceConfig + paramsConfig, source).value,
                                 KeyFile(sourceConfig, buildPath, source, keyPath),
                                 InventoryValue(buildPath, source, params).value,
                                 PlaybookPath(buildPath, params).value)
    ensures ConfigParam(source, SOURCE_SCHEMA).Ok? && ConfigParam(params, PARAMS_SCHEMA).Ok? ==>
      var buildPath := BuildPath(workfolder, ConfigParam(params, PARAMS_SCHEMA).value);
      var ready := ReadyForPlaybook(workfolder, source, params, ConfigParam(source, SOURCE_SCHEMA).value,
                                        ConfigParam(params, PARAMS_SCHEMA).value, identityPath, checkout, keyPath,
                                        old(fs.dirs), old(fs.files), fs.denied);
      && (r.Ok? <==> ready && PlaybookPath(buildPath, params).Ok? && fs.IsFile(PlaybookPath(buildPath, params).value))
      && (ready && PlaybookPath(buildPath, params).Ok? && !fs.IsFile(PlaybookPath(buildPath, params).value) ==>
            r.Err? && r.error.ValueError?)
    ensures r.Ok? ==>
      var sourceConfig := ConfigParam(source, SOURCE_SCHEMA).value;
      var paramsConfig := ConfigParam(params, PARAMS_SCHEMA).value;
      var buildPath := BuildPath(workfolder, paramsConfig);
      var keyed := FilesAfterKey(source, keyPath, FilesAfterClone(source, paramsConfig, identityPath, checkout, old(fs.files)));
      && fs.dirs == DirsAfterInventory(buildPath, source, params, DirsAfterClone(workfolder, paramsConfig, old(fs.dirs)),
                                       keyed, fs.denied)
      && fs.files == FilesAfterInventory(buildPath, source, params, keyed)
      && fs.written == old(fs.written) + CloneWrites(source, paramsConfig, identityPath) + KeyWrites(source, keyPath)
                                       + InventoryWrites(buildPath, source, params)
    ensures r.Ok? && ClonesRepository(ConfigParam(params, PARAMS_SCHEMA).value) ==> GetOr(source, "src_private_key", VNone).VStr?
    ensures r.Ok? && Truthy(GetOr(source, "private_key", VNone)) ==> GetOr(source, "private_key", VNone).VStr?
    ensures old(fs.dirs) <= fs.dirs && old(fs.written) <= fs.written
  {
    var config := GetConfigParam(source, SOURCE_SCHEMA);
    if config.Err? {
      return Err(config.error);
    }
    var configParams := GetConfigParam(params, PARAMS_SCHEMA);
    if configParams.Err? {
      return Err(configParams.error);
    }
    r := AssembleConfig(workfolder, source, params, config.value, configParams.value, fs,
                        identityPath, checkout, keyPath);
  }

  // ----- properties of the merged configuration -----
  // The lemmas take the two schemas as parameters; `SchemasDistinct` and the
  // declared type `TDict` of `extra_vars` in both make them apply to
  // `SOURCE_SCHEMA` and `PARAMS_SCHEMA`.

  /** The schemas as `configure` uses them: no field twice, `extra_vars` a dict in both. */
  predicate SchemaPair(sourceSchema: seq<(string, FieldType)>, paramsSchema: seq<(string, FieldType)>) {
    && DistinctKeys(sourceSchema) && DistinctKeys(paramsSchema)
    && GetOr(sourceSchema, "extra_vars", TAny) == TDict && GetOr(paramsSchema, "extra_vars", TAny) == TDict
  }

  lemma ResourceSchemas()
    ensures SchemaPair(SOURCE_SCHEMA, PARAMS_SCHEMA)
  {
    SchemasDistinct();
    SourceExtraVars();
    ParamsExtraVars();
  }

  lemma SourceExtraVars()
    ensures GetOr(SOURCE_SCHEMA, "extra_vars", TAny) == TDict
  {
  }

  lemma ParamsExtraVars()
    ensures GetOr(PARAMS_SCHEMA, "extra_vars", TAny) == TDict
  {
  }

  /** After `config.update(config_params)`: a field kept from `params` wins, a field
      kept only from `source` stays, and no other field is present. */
  lemma MergedFields(source: seq<(string, Value)>, params: seq<(string, Value)>,
                     sourceSchema: seq<(string, FieldType)>, paramsSchema: seq<(string, FieldType)>, k: string)
    requires DistinctKeys(sourceSchema) && DistinctKeys(paramsSchema)
    requires ConfigParam(source, sourceSchema).Ok? && ConfigParam(params, paramsSchema).Ok?
    ensures var merged := ConfigParam(source, sourceSchema).value + ConfigParam(params, paramsSchema).value;
      && (k in merged <==> Kept(params, paramsSchema, k) || Kept(source, sourceSchema, k))
      && (Kept(params, paramsSchema, k) ==> merged[k] == FieldOutcome(params, paramsSchema, k).value)
      && (!Kept(params, paramsSchema, k) && Kept(source, sourceSchema, k) ==>
            merged[k] == FieldOutcome(source, sourceSchema, k).value)
  {
    ConfigParamFields(source, sourceSchema);
    ConfigParamFields(params, paramsSchema);
  }

  /** The configured extra vars are a dict; without extra vars in `params` they hold
      the entries of the dict `source` gives. */
  lemma ConfiguredExtraVars(source: seq<(string, Value)>, params: seq<(string, Value)>,
                            sourceSchema: seq<(string, FieldType)>, paramsSchema: seq<(string, FieldType)>)
    requires SchemaPair(sourceSchema, paramsSchema)
    requires ConfigParam(source, sourceSchema).Ok? && ConfigParam(params, paramsSchema).Ok?
    requires GetOr(source, "extra_vars", VDict([])).VDict?
    ensures var merged := ConfigParam(source, sourceSchema).value + ConfigParam(params, paramsSchema).value;
      var raw := GetOr(source, "extra_vars", VDict([]));
      && ("extra_vars" in merged ==> merged["extra_vars"].VDict?)
      && (!Kept(params, paramsSchema, "extra_vars") ==>
            (if "extra_vars" in merged then merged["extra_vars"] else VDict([])).entries == raw.entries)
  {
    var ev := "extra_vars";
    MergedFields(source, params, sourceSchema, paramsSchema, ev);
    var raw := GetOr(source, ev, VDict([]));
    var fromSource := GetOr(source, ev, VNone);
    assert ev in Keys(source) ==> fromSource == raw;
    assert ev !in Keys(source) ==> raw == VDict([]) && fromSource == VNone;
    if Kept(params, paramsSchema, ev) {
      var c := FieldOutcome(params, paramsSchema, ev);
      assert c == Coerce(GetOr(params, ev, VNone), TDict);
      assert HasType(c.value, TDict);
    } else if Kept(source, sourceSchema, ev) {
      assert FieldOutcome(source, sourceSchema, ev) == Coerce(raw, TDict) == Coerced(raw);
    } else if ev in Keys(source) {
      assert Coerce(raw, TDict).Coerced?;
      assert !Truthy(raw);
    }
  }

  /** The merged extra vars: a variable set in `source['extra_vars']` takes its value
      from there, even when `params['extra_vars']` sets it too; any other variable keeps
      its configured value. */
  lemma ExtraVarsMerge(source: seq<(string, Value)>, params: seq<(string, Value)>,
                       sourceSchema: seq<(string, FieldType)>, paramsSchema: seq<(string, FieldType)>, k: string)
    requires SchemaPair(sourceSchema, paramsSchema)
    requires ConfigParam(source, sourceSchema).Ok? && ConfigParam(params, paramsSchema).Ok?
    requires GetOr(source, "extra_vars", VDict([])).VDict?
    requires DistinctKeys(GetOr(source, "extra_vars", VDict([])).entries)
    ensures var merged := ConfigParam(source, sourceSchema).value + ConfigParam(params, paramsSchema).value;
      var raw := GetOr(source, "extra_vars", VDict([])).entries;
      && ExtraVars(merged, source).Ok?
      && Get(ExtraVars(merged, source).value, k) ==
           (if k in Keys(raw) then Get(raw, k)
            else if "extra_vars" in merged && merged["extra_vars"].VDict? then Get(merged["extra_vars"].entries, k)
            else None)
  {
    var merged := ConfigParam(source, sourceSchema).value + ConfigParam(params, paramsSchema).value;
    var raw := GetOr(source, "extra_vars", VDict([])).entries;
    ConfiguredExtraVars(source, params, sourceSchema, paramsSchema);
    var configured := if "extra_vars" in merged then merged["extra_vars"] else VDict([]);
    assert configured.VDict?;
    assert DictUpdate(configured.entries, VDict(raw)) == Ok(Update(configured.entries, raw));
    assert ExtraVars(merged, source) == Ok(Update(configured.entries, raw));
    UpdateGet(configured.entries, raw, k);
  }

  /** Without extra vars in `params`, the merged extra vars are those of `source`. */
  lemma ExtraVarsFromSource(source: seq<(string, Value)>, params: seq<(string, Value)>,
                            sourceSchema: seq<(string, FieldType)>, paramsSchema: seq<(string, FieldType)>, k: string)
    requires SchemaPair(sourceSchema, paramsSchema)
    requires ConfigParam(source, sourceSchema).Ok? && ConfigParam(params, paramsSchema).Ok?
    requires GetOr(source, "extra_vars", VDict([])).VDict?
    requires DistinctKeys(GetOr(source, "extra_vars", VDict([])).entries)
    requires !Kept(params, paramsSchema, "extra_vars")
    ensures var merged := ConfigParam(source, sourceSchema).value + ConfigParam(params, paramsSchema).value;
      && ExtraVars(merged, source).Ok?
      && Get(ExtraVars(merged, source).value, k) == Get(GetOr(source, "extra_vars", VDict([])).entries, k)
  {
    var merged := ConfigParam(source, sourceSchema).value + ConfigParam(params, paramsSchema).value;
    var raw := GetOr(source, "extra_vars", VDict([])).entries;
    ConfiguredExtraVars(source, params, sourceSchema, paramsSchema);
    ExtraVarsMerge(source, params, sourceSchema, paramsSchema, k);
  }
}
