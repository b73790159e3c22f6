# Bot provisioning, modelled in Dafny

This project models the `create` slash command of the bot-setup cog
(`BotSetup.setup_bot` in cogs/bot_setup.py) together with the cog's two
credit-ledger helpers, `load_credits` and `update_credits`. One run of the
command does the following:

- checks the author's credit balance;
- creates `bots/<name>` with `os.makedirs(..., exist_ok=True)`;
- lays the `files` template over it, one top-level entry at a time;
- writes `config.json` with the 21 settings of the request;
- checks that `bot.py` and `config.json` are present;
- looks up the virtual environment's interpreter;
- logs in with the bot token, starts the instance with `subprocess.Popen`,
  and debits one credit;
- removes `bots/<name>` only when the token check, the start or the debit
  raised.

Modules:

- `Optional`: the `Option` type.
- `Ledger`: the `users` table as a map from user id to balance.
  `Balance` is `load_credits`; `Store` is the INSERT OR REPLACE of
  `update_credits`.
- `Config`: the command's parameters (`Request`) and the `config.json`
  record built from them. The record's members are grouped by the kind of
  their values: 14 ids, 6 strings and the `allow_membership` flag. It comes
  with a decoder, `Decode`, and the round trip through it.
- `FileTree`: directory trees, one pass of the copy loop (`CopyItem`), and
  the whole overlay (`Overlay`) with its properties.
- `Provisioning`:
  - the answers of the outside world as inputs of a run (`Environment`);
  - the replies (`Outcome`);
  - the copy loop as a method (`CopyTemplate`);
  - the class `BotSetup`, whose fields are the ledger, the `bots` folder
    and the processes started.

  `SetupBot` and the three methods it hands over to (`Materialize`,
  `Configure`, `StartInstance`) are each proved against a specification
  predicate of the part of the run they perform: `Provisioned`,
  `AfterMakedirs`, `AfterCopy` and `AfterConfig`.
- `RunProperties`: what a run, and a sequence of runs, guarantee.

Things the outside world decides are inputs of a run, not computations:

- whether the `files` template exists, and its contents;
- whether writing `config.json` raises;
- what `get_venv_python` returns or raises;
- whether the login succeeds, is rejected (LoginFailure) or fails otherwise;
- whether `Popen` raises.

Kind clashes between the template and an existing instance folder follow
what the library calls do:

- A template directory over an existing file makes `rmtree` raise. The run
  ends in "Setup Failed" with the folder partly copied.
- A template file over an existing directory is written into that directory
  by `copy2`. It raises only when a directory of the same name is already in
  there.
- A template that is a file makes `os.listdir` raise.
- A file at `bots/<name>` makes `makedirs` raise.

## Model

| member | source | states |
|---|---|---|
| Ledger.Balance | cogs/bot_setup.py:18-24 | a user with no row has balance 0 |
| Ledger.Store | cogs/bot_setup.py:26-29 | the written user's balance becomes the amount; every other user's balance is unchanged; only that user's row is added |
| Ledger.StoreAbsorbs | cogs/bot_setup.py:26-29 | a second INSERT OR REPLACE of the same user overrides the first; writing back the balance just read changes no balance |
| Provisioning.BotSetup.LoadCredits | cogs/bot_setup.py:18-24 | returns the stored balance of the user, 0 when there is no row |
| Provisioning.BotSetup.UpdateCredits | cogs/bot_setup.py:26-29 | the ledger becomes the old ledger with that one row inserted or replaced |
| Config.ConfigRecord | cogs/bot_setup.py:86-109 | the record has every id key and every string key; the prefix is "!", the owner is the author and the token is the supplied one |
| Config.KeysDistinct | cogs/bot_setup.py:87-109 | the 21 JSON key spellings are pairwise distinct, so the grouped record stands for exactly the 21-key dictionary |
| Config.ConfigRoundTrip | cogs/bot_setup.py:86-112 | reading the record back yields every setting of the request under its own key, the prefix "!" and the author as owner |
| FileTree.Overlay | cogs/bot_setup.py:69-80 | the folder's names after the copy loop are the old names plus the template's; entries outside the template are unchanged; template directories replace the old entry wholesale; a template file replaces a file, or is written inside a directory standing at its name |
| FileTree.CopiesIff | cogs/bot_setup.py:75-80 | among the kind clashes, a pass of the copy loop raises exactly when a template directory meets a file, or a template file meets a directory holding a directory of the same name (other OS errors are not modelled) |
| FileTree.OverlayPlacesTemplate | cogs/bot_setup.py:69-80 | when template and folder agree on kinds, nothing raises and every template entry ends up as it is in the template |
| FileTree.OverlayIdempotent | cogs/bot_setup.py:69-80 | laying the template over the folder a second time changes nothing |
| FileTree.OverlayExtend | cogs/bot_setup.py:71-80 | copying one more entry extends the overlay of the entries already copied by that entry's copy |
| FileTree.OverlayPartly | cogs/bot_setup.py:71-80 | a loop that stopped part way leaves each entry either untouched or copied, drops no entry of the folder, and touches nothing outside the template |
| Provisioning.CopyTemplate | cogs/bot_setup.py:71-80 | the loop, visiting entries in any order, succeeds exactly when no copy raises; it then yields the overlay; otherwise it yields a partial copy that keeps every entry of the folder |
| Provisioning.MadeDir | cogs/bot_setup.py:65-66 | makedirs with exist_ok=True fails when a file stands at the name (the only failure modelled); it yields an empty folder when nothing was there, and the existing folder with its contents when one was |
| Provisioning.BotSetup.SetupBot | cogs/bot_setup.py:55-168 | the new state and reply are those of the run specification `Provisioned`: credit gate, makedirs, then the later stages |
| Provisioning.BotSetup.Materialize | cogs/bot_setup.py:68-83 | a missing template gives "could not find the files folder" with the folder kept; a failed copy gives "Setup Failed" with a partial copy that has lost no entry; otherwise the run goes on from the overlay |
| Provisioning.BotSetup.Configure | cogs/bot_setup.py:85-112 | when config.json can be written it holds the request's record and the run goes on; otherwise "Setup Failed" with the folder kept |
| Provisioning.BotSetup.StartInstance | cogs/bot_setup.py:114-161 | presence check, interpreter lookup, then login, spawn and debit of the balance read at the start; the folder is removed on a rejected token or any later error |
| RunProperties.CreditGate | cogs/bot_setup.py:56-60 | the reply is "Insufficient Credits" exactly when the balance is at most 0, and then nothing changes |
| RunProperties.CreatedIff | cogs/bot_setup.py:126-143 | an instance is created exactly when every step succeeds, the login before the spawn; only then is a process started and the ledger written, with the balance read at the start minus one, which is at least 0 |
| RunProperties.OtherInstancesUntouched | cogs/bot_setup.py:63-168 | a run changes no entry of `bots` other than its own instance |
| RunProperties.RollbackRemovesFolder | cogs/bot_setup.py:144-159 | "Invalid Token" and "Error" leave the world as before the run minus `bots/<name>`, including an instance that existed before the run |
| RunProperties.LateFailureKeepsFolder | cogs/bot_setup.py:111-161 | a missing bot.py or a missing environment leaves the folder with the request's config.json in it, and the ledger and processes unchanged |
| RunProperties.SetupFailedKeepsFolder | cogs/bot_setup.py:63-168 | "Setup Failed" (makedirs, the copy, the config.json write or an interpreter lookup raising something other than FileNotFoundError) leaves the ledger and processes unchanged and never removes `bots/<name>`: the world is unchanged when makedirs raised, and otherwise the folder keeps every entry it had before the run |
| RunProperties.MissingTemplateKeepsFolder | cogs/bot_setup.py:66-83 | a missing template leaves the folder makedirs made, empty if it is new; when the folder existed the run changes nothing at all |
| RunProperties.CreatedInstance | cogs/bot_setup.py:69-136 | a created instance holds bot.py and the request's config.json, which reads back as the request's settings, and, when kinds agree, every other template entry as in the template; every entry of an existing folder of that name that the template does not cover is kept |
| RunProperties.NonNegativePreserved | cogs/bot_setup.py:56-136 | no run makes a balance negative |
| RunProperties.StepAccounting | cogs/bot_setup.py:128-136 | a run debits a user one credit exactly when it creates an instance for them, and starts one process exactly when it creates one |
| RunProperties.CreditsConserved | cogs/bot_setup.py:56-136 | over runs one after another, each balance falls by exactly the number of instances created for that user, one process is started per instance, and nobody creates more instances than their starting balance |

## Left out

- Discord plumbing is not modelled: the slash-command decorator, the embeds and the `ctx.respond` calls. Replies are `Outcome` tags, and responding never fails.
- Role and channel parameters are reduced to their integer ids.
- SQLite is not modelled: `init_db`, the SQL text and `commit`. The ledger is a map. A database error in `load_credits` or `update_credits` is not modelled.
- `json.dump` is not modelled. The record is grouped by the kind of its values rather than kept as a string-keyed dictionary. `Config.KeysDistinct` shows that the grouping loses no key.
- A partially written `config.json` is not modelled: a failed write leaves the folder as the copy left it.
- `copy2` and `copytree` metadata, symbolic links, and template entries that are neither files nor directories are not modelled.
- Path joining is not modelled: the instance name is one key of `bots`. In the code, `os.path.join("bots", bot_name)` with a name such as `.`, `a/b` or `../files` points elsewhere; with `.`, the rollback `rmtree` would empty `bots` of every instance. `RunProperties.OtherInstancesUntouched` and `RunProperties.RollbackRemovesFolder` therefore hold only for a plain, single-component name.
- An `rmtree` that itself fails during rollback is not modelled.
- MadeDir: an OS error in `makedirs` other than a file standing at the name (a denied permission, a full disk) is not modelled; in the code it ends in "Setup Failed" with nothing changed.
- CopyTemplate: OS errors in `os.listdir`, `copy2`, `rmtree` or `copytree` other than the kind clashes are not modelled; in the code they end in "Setup Failed" with the folder as far as the loop got, the same outcome as a kind clash.
- Materialize: for the same reason, "Setup Failed" after the copy is reached only through a kind clash.
- The network login, the child process, and `utils.venv.get_venv_python` appear only as outcome inputs. A started process is a record of interpreter, script and folder.
- Concurrency is not modelled. In particular, the lost update between the read at line 56 and the write at line 136 of two simultaneous commands is absent. `RunProperties.CreditsConserved` is about runs one after another.
- Credits added by other parts of the bot are not part of this model.

### Where the code departs from the repository's design description

The model follows the code where the two differ:

- The design has name collisions fail. The code merges them (`exist_ok=True`), and a later token failure deletes the colliding instance (`RunProperties.RollbackRemovesFolder`).
- The design re-checks the balance when debiting and reports a lost race. The code writes the value read at the start minus one. There is no such outcome.
- The design rolls back on every failure after the folder is created. The code removes the folder only in the two handlers around the token check, the start and the debit (lines 144-159). A missing template, a failed copy, a failed `config.json` write, a failed interpreter lookup, a missing `bot.py` or a missing environment all leave the folder behind (`RunProperties.MissingTemplateKeepsFolder` for the missing template, `RunProperties.SetupFailedKeepsFolder` for a failed copy, write or lookup, `RunProperties.LateFailureKeepsFolder` for a missing `bot.py` or environment).
