# Ansible playbook resource — a Dafny model

This project models the Concourse resource that runs an Ansible playbook. The
resource reads two JSON objects: the resource `source` and the step `params`. It
resolves them into a configuration for Ansible, then runs the playbook. It turns
the run's statistics into a summary, and turns the summary into the
`(statuscode, metadata)` pair that it reports back. The model covers the
following parts:

- **Configuration** (`ConfigResolver`, `Configure`):
  - `_get_config_param` coerces the fields of a schema. Boolean fields come from
    the lower-cased text. `str`, `int`, `list` and `dict` fields come from the
    Python constructors. Untyped fields are copied. A `ValueError` drops the
    field, and any other exception escapes.
  - `configure` merges the two configurations and prepares the build path: the
    working folder, or a fresh clone of the repository. It also merges the extra
    variables, writes the private key file, chooses the inventory and checks that
    the playbook file exists.
- **Inventory** (`Inventory`):
  - `_hosts_group` and `hosts` print an INI inventory from the JSON
    specification. This covers a single host line, a list of host lines, or
    groups. Groups with `children` come first, and each group gets its
    `[name:vars]` and `[name:children]` blocks.
  - `inventory` chooses the inventory path. That is the executable if one is
    given, otherwise a folder under the build path, which is created if it is
    missing.
- **Reporting** (`Reporting`):
  - `summarize` keeps the hosts, in order, together with the hosts that had
    failures or were unreachable.
  - `metadata` derives the status code: the Ansible return code, or 0, 2 or 3
    when the run itself succeeded. It lists every summary field as text.
- **The playbook runner** (`PlaybookCli`):
  - `PlaybookCLI` lays its configuration over the default command-line options.
  - `run` prepares the loader, the vault secret, the variable manager, the
    passwords and the fact-cache flush.
  - It maps the executor's outcome to a return code.
- **The runtime breakdown** (`Runtime`): `_human_runtime` of the concourse
  callback plugin.

Python values are the `PyValues.Value` datatype. Dictionaries are ordered lists
of pairs, with `dict.get`, `dict.update`, `str()`, `repr()`, `int()` and
`str.lower()` written out. An exception that the code does not catch becomes an
`Err` result that carries its class.

The filesystem is the `Fs.FileSystem` class. It holds directories, files, the
paths where creating something fails, and a log of the files written.

Some behaviour lives outside the model. The git clone is a parameter
(`checkout`): `None` when cloning fails, otherwise the files it checks out. Two
further parameters stand for paths: the home-directory identity file path and
the temporary key file name. The Ansible engine is reduced to what `run` does to
it. The inventory hosts and the executor's outcome are parameters.

### Two behaviours worth knowing

- One would expect the step's `extra_vars` to override the resource's. The
  code does the opposite: it starts from the merged configuration's
  `extra_vars` and updates it with the **source**'s `extra_vars`, so the source
  wins on every key. The source value is uncoerced. The model follows the code.
  `Configure.ExtraVarsMerge` and `Configure.ExtraVarsFromSource` state the
  result.
- Every group header is the literal text `[%s]`. The header is built with
  `.format`, which has nothing to fill, so the group's name is never printed.
  The model reproduces this (`Inventory.HEADER`, `Inventory.NodeLayout`).

## Model

| member | source | states |
|---|---|---|
| ConfigResolver.GetConfigParam | assets/ansible_playbook.py:67-83 | The loop over the schema returns exactly the specification `ConfigParam`: the configuration, or the exception that escaped. |
| ConfigResolver.CoerceField | assets/ansible_playbook.py:70-82 | One iteration of the loop is one `Step`. A missing or falsy value leaves the configuration unchanged. Otherwise it stores the coerced value, drops the field on ValueError, or lets any other exception escape. |
| ConfigResolver.ConfigParam | assets/ansible_playbook.py:67-83 | Definition: the fields folded one `Step` at a time, stopping at the first exception that escapes. `ConfigParamSucceeds` and `ConfigParamContents` state its meaning. |
| ConfigResolver.Step | assets/ansible_playbook.py:70-82 | Definition: one field. A falsy value is skipped, a ValueError drops the field, and another exception escapes. |
| ConfigResolver.ConfigParamSucceeds | assets/ansible_playbook.py:67-83 | Resolution succeeds if and only if no field of the schema raises an exception other than ValueError. |
| ConfigResolver.ConfigParamContents | assets/ansible_playbook.py:67-83 | On success, a field is in the configuration if and only if its value is truthy and its coercion did not raise. Its value is then the coerced value. |
| ConfigResolver.ConfigParamFields | assets/ansible_playbook.py:67-83 | Both of the above together, for a schema without repeated names. |
| ConfigResolver.ConfigParamStops | assets/ansible_playbook.py:78-82 | Once a field's exception escapes, the fields after it do not change the outcome. |
| ConfigResolver.FieldAppend | assets/ansible_playbook.py:69-82 | Adding a field to the schema changes the outcome of that field only. |
| ConfigResolver.Coerce | assets/ansible_playbook.py:72-82 | A coerced value has the field's type. Boolean, string and untyped fields never raise. |
| ConfigResolver.DictFromPairs | assets/ansible_playbook.py:79 | `dict(value)` on a list succeeds only with a dictionary. |
| ConfigResolver.DictFromPairsGet | assets/ansible_playbook.py:79 | When `dict(items)` succeeds, every element was a pair, and each key holds the value of its last pair (`LastValue`). A key no pair names keeps its earlier value. |
| ConfigResolver.PairOf | assets/ansible_playbook.py:79 | Definition: the key and the value an element contributes: a two-element list with a text key, a two-character string, or a two-key dict. |
| ConfigResolver.LastValue | assets/ansible_playbook.py:79 | Definition: the value of the last pair with a given key, searched from the end. |
| ConfigResolver.DictUpdate | assets/ansible_playbook.py:174 | Definition: `dict.update` with a dict or a list of pairs, or the exception it raises. `UpdateGet`, `UpdateKeys`, `UpdateKeysPrefix` and `SettingsOverride` state its result. |
| ConfigResolver.BoolCoercion | assets/ansible_playbook.py:73-74 | A truthy value coerces to `True` if and only if its lower-cased `str()` is one of "true", "1", "yes" or "y". |
| ConfigResolver.TrueWordLower | assets/ansible_playbook.py:74 | Lower-casing and then looking up in the word list is the same as comparing with a true word ignoring case. |
| ConfigResolver.IntTextIsTrueWord | assets/ansible_playbook.py:74 | An integer's text is a true word if and only if the integer is 1. |
| ConfigResolver.IntCoercionRoundTrip | assets/ansible_playbook.py:79 | `int(str(n)) == n` for every integer. |
| ConfigResolver.SchemasDistinct | assets/ansible_playbook.py:26-60 | Neither the source schema nor the params schema repeats a field name. |
| Configure.ResourceSchemas | assets/ansible_playbook.py:26-60 | The schemas are distinct and both type `extra_vars` as a dictionary. |
| Configure.Configure | assets/ansible_playbook.py:206-253 | An exception while resolving the source or the params fails with the filesystem unchanged. Once both resolve, the method succeeds if and only if every step before the playbook check can finish (`ReadyForPlaybook`) and the playbook path names a file. When everything before the check can finish but the playbook is missing, it raises ValueError. On success, the result is the merged configuration with `extra_vars`, `private_key_file`, `inventory` and `playbook` set. The new state is then exact. The directories are the old ones plus the clone folder and the inventory folder. The files are the old ones after the identity write, the checkout, the key write and the hosts write. The write log gains exactly those three writes, in that order, each when it applies. |
| Configure.AssembleConfig | assets/ansible_playbook.py:210-253 | The steps after resolution. It succeeds if and only if the clone, extra-vars, key and inventory steps can finish on the states they meet and the playbook path names a file. A missing playbook then raises ValueError. The result is assembled from the build path, the key file, the inventory and the playbook path. On success, the directories, the files and the write log are exactly those the clone, key and inventory steps leave (`DirsAfterClone`, `FilesAfterClone`, `FilesAfterKey`, `DirsAfterInventory`, `FilesAfterInventory`, `CloneWrites`, `KeyWrites`, `InventoryWrites`). |
| Configure.PrepareBuildPath | assets/ansible_playbook.py:211-222 | Succeeds if and only if `CloneReady` holds. With a truthy `src` in the params, the build path is under the working folder and nothing is touched. Without it, a failed clone fails. On success, exactly the identity file has been written, and the clone's folder and files have been added under `workfolder/src`. |
| Configure.PrepareKeyFile | assets/ansible_playbook.py:228-242 | Succeeds if and only if `KeyReady` holds. Without a truthy `private_key`, it succeeds with nothing touched, and the key file is the configured path joined to the build path. With one, success means exactly that key has been written to the temporary file, and that file is used. |
| Configure.PlaceInventoryAndPlaybook | assets/ansible_playbook.py:243-252 | Succeeds if and only if the inventory resolves and can be produced and the playbook path names a file. When the inventory is ready and the playbook is missing, it raises ValueError naming the path. On success, the configuration gains both values. The directories are always `DirsAfterInventory`. Whenever the inventory step succeeds, even if the playbook check then fails, the files are `FilesAfterInventory` and the write log gains exactly `InventoryWrites`. Otherwise both are unchanged. |
| Configure.BuildPath | assets/ansible_playbook.py:212-216 | Definition: `workfolder/<src>` for a truthy `src`, else `workfolder/src`. |
| Configure.ExtraVars | assets/ansible_playbook.py:225-226 | Definition: the configured `extra_vars` updated with the source's. `ExtraVarsMerge` states the result. |
| Configure.KeyFile | assets/ansible_playbook.py:229-242 | Definition: the temporary key file for an inline key, else the configured key path under the build path, else none. |
| Configure.PlaybookPath | assets/ansible_playbook.py:246-247 | Definition: `params['playbook']`, default `playbook.yml`, joined to the build path. It is a TypeError when that value is not text. |
| Configure.CloneReady | assets/ansible_playbook.py:212-222 | Definition: no clone is needed, or the identity file can be written, `src_private_key` is text and the clone succeeds. |
| Configure.KeyReady | assets/ansible_playbook.py:229-239 | Definition: no inline key, or a text key whose file can be written. |
| Configure.ReadyForPlaybook | assets/ansible_playbook.py:206-244 | Definition: every step before the playbook check can finish, each on the filesystem state the steps before it leave. |
| Configure.Prepared | assets/ansible_playbook.py:224-242 | Definition: the merged fields with `extra_vars` wrapped in a one-element list and, when there is one, `private_key_file`. |
| Configure.Assembled | assets/ansible_playbook.py:206-253 | Definition: `Prepared` with `inventory` and `playbook` set. `ConfiguredOptions` states what reaches the options. |
| Configure.PrepareSources | assets/ansible_playbook.py:211-242 | Succeeds if and only if `CloneReady`, the extra-vars update and `KeyReady` hold, each on the state the earlier steps leave. The result is `Prepared`. On success, the directories, the files and the write log are exactly those the clone and key steps leave. |
| Configure.CloneWrites | assets/ansible_playbook.py:218-220 | Definition: the identity file write of a successful clone step, or nothing without a clone. |
| Configure.KeyWrites | assets/ansible_playbook.py:230-235 | Definition: the key file write of a successful key step, or nothing without an inline key. |
| Configure.DirsAfterClone | assets/ansible_playbook.py:212-222 | Definition: the directories after a successful clone step, with the clone folder added. |
| Configure.FilesAfterClone | assets/ansible_playbook.py:218-222 | Definition: the files after a successful clone step: the identity file, then the checked-out files. |
| Configure.FilesAfterKey | assets/ansible_playbook.py:230-235 | Definition: the files after a successful key step, with the key file set. |
| Fs.FileSystem.Populate | assets/ansible_playbook.py:222 | The clone adds the clone folder and the checked-out files, and writes nothing to the log. |
| Configure.MergedFields | assets/ansible_playbook.py:207-210 | Every key of the merged configuration comes from the params if the params kept it, and from the source otherwise. |
| Configure.ConfiguredExtraVars | assets/ansible_playbook.py:225 | The `extra_vars` taken from the merged configuration are the params' if kept, else the source's if kept, else empty. |
| Configure.ExtraVarsMerge | assets/ansible_playbook.py:224-227 | The final `extra_vars` is a one-element list. For each key it holds the source's uncoerced `extra_vars` value if the source has that key, and the configured value otherwise. |
| Configure.ExtraVarsFromSource | assets/ansible_playbook.py:224-227 | When the params keep no `extra_vars`, the result holds exactly the source's `extra_vars`. |
| Inventory.HostsGroup | assets/ansible_playbook.py:85-124 | Printing one group appends exactly `GroupLines(name, group)` to the output. |
| Inventory.PrintNode | assets/ansible_playbook.py:90-113 | A dictionary group appends its hosts, a blank line, its vars block and its children block. |
| Inventory.PrintEntries | assets/ansible_playbook.py:92-96 | Each host is printed as its name, and each token list space-joined, in order. |
| Inventory.PrintVarLines | assets/ansible_playbook.py:102-103 | One `k='v'` line per variable, in order. |
| Inventory.PrintVars | assets/ansible_playbook.py:98-108 | The vars block is appended. |
| Inventory.PrintChildren | assets/ansible_playbook.py:109-113 | The children block is appended. |
| Inventory.NodeLayout | assets/ansible_playbook.py:89-124 | A dictionary group's text has this layout: the `[%s]` header, the host lines, a blank line, the vars block, the children block and a final blank line. |
| Inventory.VarsBlockLayout | assets/ansible_playbook.py:98-108 | No `vars` gives no block. Vars without `.keys()` give just the header and one blank line. A mapping gives the header, one line per variable and two blank lines. |
| Inventory.ChildrenBlockLayout | assets/ansible_playbook.py:109-113 | The children block is the header, the children in order and a blank line. |
| Inventory.PrintGroups | assets/ansible_playbook.py:137-140 | Printing groups in order appends each group's lines in that order. |
| Inventory.RenderSpec | assets/ansible_playbook.py:126-153 | The rendered text is the text of the specification's lines. |
| Inventory.Hosts | assets/ansible_playbook.py:126-168 | A specification that is not text fails with nothing written. Otherwise the rendered text is written to `path/hosts_file`, and a failed write fails. |
| Inventory.FlatSpecText | assets/ansible_playbook.py:142-153 | A single host line is written as itself. A list of hosts is written one per line, and a list of tokens is written space-joined. |
| Inventory.WriteOrderSplit | assets/ansible_playbook.py:132-140 | Groups are written in this order: those with children first, then the rest, each in their original order. |
| Inventory.WriteOrderPartition | assets/ansible_playbook.py:132-140 | The write order is a permutation of the groups, and no group with children follows one without. |
| Inventory.ParentNameOf | assets/ansible_playbook.py:132-136 | A group's name is among the parent names if and only if the group has children. |
| Inventory.GroupsSpecText | assets/ansible_playbook.py:128-140 | The text of a group specification is the parent groups' lines followed by the other groups' lines. |
| Inventory.SettingsOverride | assets/ansible_playbook.py:172-174 | Every inventory setting is the params' value when the params set it, else the source's. |
| Inventory.InventoryDefault | assets/ansible_playbook.py:172-201 | With no inventory settings, the inventory is the folder `workfolder/inventory`. |
| Inventory.FolderReady | assets/ansible_playbook.py:187-203 | Definition: the folder exists or can be created. When `hosts` is given, its specification is text and the hosts file can be written. |
| Inventory.InventoryReady | assets/ansible_playbook.py:172-203 | Definition: the settings update succeeds, and either an executable is set or the folder is `FolderReady`. |
| Inventory.Settings | assets/ansible_playbook.py:172-174 | Definition: the source's inventory settings updated with the params'. It is an AttributeError when the source's value is not a dictionary. `SettingsOverride` states the precedence. |
| Inventory.InventoryValue | assets/ansible_playbook.py:175-201 | Definition: the executable, or `workfolder/path[/file]`, or the TypeError `os.path.join` raises. `InventoryDefault` and `InventoryTarget` state its use. |
| Inventory.SpecOf | assets/ansible_playbook.py:126-153 | Definition: the specification read from the JSON value, or the TypeError for an entry that is not text. `Hosts` states its use. |
| Inventory.SpecLines | assets/ansible_playbook.py:126-156 | Definition: the lines `hosts` prints for each shape of specification. `FlatSpecText` and `GroupsSpecText` state them. |
| Inventory.WriteOrder | assets/ansible_playbook.py:132-140 | Definition: the groups with `children`, then the others. `WriteOrderSplit` and `WriteOrderPartition` state the order. |
| Inventory.GroupLines | assets/ansible_playbook.py:85-124 | Definition: the lines one group prints. `NodeLayout`, `VarsBlockLayout` and `ChildrenBlockLayout` state their layout. |
| Inventory.OutputBuffer.Print | assets/ansible_playbook.py:89 | `print(line, file=output)` appends exactly one line. |
| Inventory.EnsureFolder | assets/ansible_playbook.py:187-193 | The folder exists afterwards unless creating it failed. A failed creation leaves the filesystem unchanged. |
| Inventory.OpenFolder | assets/ansible_playbook.py:186-197 | Succeeds if and only if the folder exists or can be created and a truthy `file` is text. A denied folder fails with nothing touched. Only the directory set can change. |
| Inventory.WriteHosts | assets/ansible_playbook.py:202-203 | Without `hosts`, nothing happens. With `hosts`, it succeeds if and only if `HostsWritable` holds, and then exactly the inventory text is written to `folder/hostsFile`. |
| Inventory.HostsWritable | assets/ansible_playbook.py:158-165 | Definition: `hosts` has a shape the inventory writer accepts, and the hosts file path is neither denied nor a directory. |
| Inventory.DirsAfterFolder | assets/ansible_playbook.py:187-193 | Definition: the folder is added unless it exists already or its creation is refused. |
| Inventory.HostsWrites | assets/ansible_playbook.py:202-203 | Definition: the hosts file write of a successful folder step when `hosts` is given, or nothing. |
| Inventory.FilesAfterHosts | assets/ansible_playbook.py:202-203 | Definition: the files after a successful folder step, with the hosts file set when `hosts` is given. |
| Inventory.FolderSettings | assets/ansible_playbook.py:172-186 | Definition: the folder, `file` and `hosts` the folder step uses, when the settings resolve without an executable and with a text `path`. |
| Inventory.DirsAfterInventory | assets/ansible_playbook.py:183-193 | Definition: the directories after `inventory`, whatever its outcome. |
| Inventory.InventoryWrites | assets/ansible_playbook.py:183-203 | Definition: the writes of a successful `inventory`. |
| Inventory.FilesAfterInventory | assets/ansible_playbook.py:183-203 | Definition: the files after a successful `inventory`. |
| Inventory.InventoryFolder | assets/ansible_playbook.py:185-203 | Succeeds if and only if `FolderReady` holds and a truthy `file` is text. The folder is created when it is missing. The result is the folder, or the file within it. Whatever the outcome, the directories are exactly `DirsAfterFolder`. On success, the files and the write log change by exactly the hosts write (`FilesAfterHosts`, `HostsWrites`). On failure, both are unchanged. |
| Inventory.InventoryTarget | assets/ansible_playbook.py:170-204 | A failing settings update fails with nothing touched. A truthy executable is returned as it is. Otherwise the result is `InventoryValue`, and the step succeeds if and only if `InventoryValue` resolves and `InventoryReady` holds. Whatever the outcome, the directories are exactly `DirsAfterInventory`. On success, the files are `FilesAfterInventory` and the write log gains exactly `InventoryWrites`. On failure, both are unchanged. |
| Reporting.Summarize | assets/ansible_playbook.py:255-277 | `hosts_all` is the processed hosts in order. Failed and unreachable hosts are those with a positive counter. The counters are passed through. |
| Reporting.PositiveIsFilter | assets/ansible_playbook.py:259-264 | The failed or unreachable hosts are the hosts filtered by a positive counter, in order. |
| Reporting.SummaryHosts | assets/ansible_playbook.py:255-277 | A host is listed as failed, or as unreachable, if and only if it was processed and its counter is positive. |
| Reporting.Positive | assets/ansible_playbook.py:259-264 | Definition: the hosts whose counter is positive, in order. `PositiveIsFilter` and `SummaryHosts` state its meaning. |
| Reporting.StatusCode | assets/ansible_playbook.py:280-287 | Definition: the status code. `StatusCodeMeaning` states it as three if-and-only-ifs. |
| Reporting.ResultItems | assets/ansible_playbook.py:288-290 | Definition: the summary's fields as name and `str()` pairs in dictionary order. `ResultKeys` states the order. |
| Reporting.Metadata | assets/ansible_playbook.py:279-292 | Returns the status code and one name/value entry per summary field in order, followed by the status code. |
| Reporting.ListEntries | assets/ansible_playbook.py:288-290 | The loop lists every item as a name/value entry, in order. |
| Reporting.StatusCodeMeaning | assets/ansible_playbook.py:280-287 | A nonzero return code is passed through. Otherwise the code is 3 if a host was unreachable, else 2 if a host failed, else 0. The code is 0 if and only if all three conditions hold. |
| Reporting.MetadataShape | assets/ansible_playbook.py:288-291 | The metadata has ten entries: the nine summary fields in order, then `statuscode`. |
| Reporting.ResultKeys | assets/ansible_playbook.py:265-275 | The summary's fields are listed in the order of the result dictionary. |
| PyValues.UpdateGet | assets/ansible_playbook.py:174 | After `dict.update`, each key maps to the new value if the update has it, else to the old value. |
| PyValues.UpdateKeys | assets/ansible_playbook.py:174 | A key is present after `dict.update` if and only if either side has it. This is the key set of the inventory settings update. |
| PyValues.UpdateKeysPrefix | assets/ansible_playbook.py:226 | `dict.update` keeps the existing keys first and in their order. |
| PyValues.SetKeys | assets/ansible_playbook.py:227 | Assigning a key keeps the key order and appends a new key. |
| PyValues.FilterMembers | assets/ansible_playbook.py:133-135 | A list comprehension with a condition keeps exactly the members that satisfy it. |
| PyValues.FilterPartition | assets/ansible_playbook.py:133-140 | Filtering with a condition and with its negation splits a list into two parts that together are a permutation of it. |
| PyValues.IntToStringRoundTrip | assets/ansible_playbook.py:291 | `str()` of an integer is read back by `int()` as the same integer. |
| PyValues.NatToStringDigits | assets/ansible_playbook.py:291 | The decimal text of a natural number is non-empty digits whose value is the number. |
| PyValues.Iterate | assets/ansible_playbook.py:92 | Iterating a value succeeds if and only if it is a list, a string or a dictionary. |
| Fs.FileSystem.MakeDirs | assets/ansible_playbook.py:189 | Creating a directory succeeds unless the path is denied or is a file. Only the directory set changes. |
| Fs.FileSystem.Write | assets/ansible_playbook.py:158-163 | Writing a file succeeds unless the path is denied or is a directory. It sets the contents and logs the write. |
| PlaybookCli.PlaybookCLI.constructor | assets/playbook_cli.py:70-78 | The runner's options are the defaults overlaid with the configuration. |
| PlaybookCli.OptionsOverlay | assets/playbook_cli.py:73-74 | An option is present if it is a default or configured. A configured value wins, and a default fills the gaps. |
| PlaybookCli.Options | assets/playbook_cli.py:73-74 | Definition: the configuration laid over the defaults. `OptionsOverlay` states presence and precedence. |
| PlaybookCli.ConfiguredOptions | assets/playbook_cli.py:73-74 | The options built from a configuration keep its extra variables, key file, inventory and playbook. |
| PlaybookCli.DefaultOptions | assets/playbook_cli.py:29-68 | With no configuration, the defaults are 5 forks, the `smart` connection, the user `root`, a timeout of 10 and the tag `all`. |
| PlaybookCli.RunKeysDefaulted | assets/playbook_cli.py:29-68 | Every option that `run` reads has a default. |
| PlaybookCli.Passwords | assets/playbook_cli.py:121-124 | `become_pass` and `conn_pass` are present if and only if the matching option is not `None`, and they carry its value. |
| PlaybookCli.FlushCache | assets/playbook_cli.py:156-160 | The facts of every inventory host are cleared, in order, and nothing else changes. |
| PlaybookCli.VariableManager.ClearFacts | assets/playbook_cli.py:160 | Clearing one host's facts records that host and changes nothing else. |
| PlaybookCli.PlaybookCLI.Prepare | assets/playbook_cli.py:93-129 | The base directory is set on the loader only when truthy. Safe-basedir mode holds when the base directory is absent or truthy. The vault secret is registered only for a truthy password. Extra variables are loaded only when given. The passwords follow `Passwords`. The cache is flushed only when asked. |
| PlaybookCli.PlaybookCLI.Run | assets/playbook_cli.py:83-154 | A missing playbook raises AttributeError. An exception from the executor escapes. Otherwise the result is the return code (1 for an Ansible error, else 0), the executor's results (empty text after an Ansible error) and the stats. On success, the passwords, the loaded extra variables and the flushed facts are those `Prepare` sets up. So are the vault secret (`default` with the password text, or none), the loader's `basedir` (set exactly when a truthy `basedir` is given) and the variable manager's safe-basedir flag. |
| PlaybookCli.ReturnCode | assets/playbook_cli.py:144-149 | Definition: 1 after an AnsibleError, else 0. `Run` states its use. |
| Runtime.HumanRuntime | ansible/callbacks/concourse.py:35-38 | Definition: the breakdown as written. `HumanRuntimeBounds`, `ShortRuntime`, `LongRuntimeKeepsHours` and `RuntimeExample` state its behaviour. |
| Runtime.HumanRuntimeFixed | ansible/callbacks/concourse.py:35-38 | Definition: the corrected breakdown, with the seconds taken modulo 60. `FixedRecombines` states its meaning. |
| Runtime.HumanRuntimeBounds | ansible/callbacks/concourse.py:35-38 | Days pass through, hours are the whole hours, and minutes are the minutes past the hour, within 0..59. |
| Runtime.ShortRuntime | ansible/callbacks/concourse.py:35-38 | Under one hour, minutes and seconds add up to the runtime, with the seconds in 0..59. |
| Runtime.LongRuntimeKeepsHours | ansible/callbacks/concourse.py:36-38 | From one hour on, the seconds component still contains the whole hours. |
| Runtime.RuntimeExample | ansible/callbacks/concourse.py:36-38 | 3700 seconds come out as 1 hour, 1 minute and 3640 seconds, which do not add up to 3700. |
| Runtime.FixedRecombines | ansible/callbacks/concourse.py:35-38 | With the seconds taken modulo 60, every component is in range and the parts add up to the runtime. |
| Runtime.FixedAgreesUnderAnHour | ansible/callbacks/concourse.py:35-38 | Under one hour, the corrected breakdown equals the one as written. |

## Left out

- The git clone is not modelled as a process. It is the `checkout` parameter, whose effect is a directory and the files it checks out. The branch and URI only reach the clone.
- `chmod 0o600` on the identity file is not modelled.
- `os.path.expanduser("~/.ssh/id_rsa")` is a parameter (`identityPath`). The name chosen by `NamedTemporaryFile` is a parameter (`keyPath`).
- `os.path.join` is concatenation with `/`. Absolute second components and normalisation are not modelled.
- Logging (`self.logger`) is left out, as are `display.verbosity` and the messages written. The vars-block and ValueError paths keep their control flow but not the log line.
- `update` is not modelled: it only chains `configure`, the runner, `summarize` and `metadata`, and adds a wall-clock timestamp. The callback plugin's `v2_*` hooks and `StderrDisplay` are not modelled either, except `_human_runtime`.
- `group_vars` and `host_vars` are read by `inventory` but never used, so they are not modelled.
- `inventory` updates the source's own inventory dictionary in place. The model computes the merged settings as a new value, so that aliasing is not captured.
- Configurations are maps, so the key order of the dictionaries `configure` returns is not kept. The JSON inputs are ordered lists of pairs.
- `str.lower()` lower-cases ASCII letters only. `int()` accepts ASCII digits with surrounding whitespace and a sign, and single underscores between digits, as Python does, but no other Unicode digits. `repr()` escapes only backslash, quotes, newline, carriage return and tab.
- `dict()` on a list is modelled for pairs of text keys. A key that is not text is a TypeError here.
- Exception messages are not modelled exactly. Only the exception class is kept.
- Configure.Configure: the exact success condition is stated, and so is the ValueError for a missing playbook. For the other failures, which exception class each step raises is stated only on the step's own method.
- Configure.AssembleConfig, Configure.PrepareSources and Configure.Configure: after a failure, the filesystem state is stated only as grown (directories and write log). The exact state a failing step leaves is stated on that step's own method.
- Floating-point values are not modelled: `PyValues.Value` has no float case. So `int()` truncating a float field such as `forks` is not shown. Neither is a float such as `1.0` giving `False` under the boolean coercion.
- Fs.FileSystem.Populate: does not require the checked-out paths to lie under the clone folder.
- Fs.FileSystem.MakeDirs and Fs.FileSystem.Write: do not check that the parent directory exists. A path is refused only when it is denied or when a file or directory of the other kind is in the way.
- The Ansible engine is abstract. The inventory's hosts and the executor's outcome (return code, output, stats, or the exception it raises) are parameters. `load_extra_vars` is recorded only as the flag `extraVarsLoaded`, without the variables it loads. `VaultSecret` is recorded as the pair of identifier and password text. The `namedtuple` options are the options map. Field-name validation by `namedtuple` is not modelled.

## Findings

| source | as written | input that shows it | evidently intended | confidence | as-written member | corrected member |
|---|---|---|---|---|---|---|
| ansible/callbacks/concourse.py:36-38 | the seconds are the total seconds less the minutes part, so whole hours stay in them | a runtime of 3700 seconds gives 1 hour, 1 minute and 3640 seconds | seconds taken modulo 60, so the parts add up to the runtime | high, not executed | Runtime.LongRuntimeKeepsHours | Runtime.FixedRecombines |
