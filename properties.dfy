/**
 * What one run of `setup_bot`, and a sequence of runs, guarantee about the
 * credit ledger, the `bots` folder and the processes started
 * (cogs/bot_setup.py:55-168).
 */
module RunProperties {
  import opened Optional
  import opened FileTree
  import Ledger
  import Config
  import opened Provisioning

  /** A run is refused for lack of credits exactly when the author's balance
      is not positive, and a refused run changes nothing. */
  lemma CreditGate(before: World, after: World, author: int, req: Config.Request,
                   env: Environment, res: Outcome)
    requires Provisioned(before, after, author, req, env, res)
    ensures res == InsufficientCredits <==> Ledger.Balance(before.credits, author) <= 0
    ensures res == InsufficientCredits ==> after == before
  {
  }

  /** Every step of a run succeeded: the conditions under which an instance
      is created. */
  ghost predicate AllStepsSucceed(before: World, author: int, req: Config.Request, env: Environment)
  {
    && Ledger.Balance(before.credits, author) > 0
    && MadeDir(before.bots, req.botName).Some?
    && env.template.Some? && env.template.value.Dir?
    && Copies(MadeDir(before.bots, req.botName).value, env.template.value.children)
    && var copied := Overlay(MadeDir(before.bots, req.botName).value, env.template.value.children);
       && ConfigWrites(copied, env)
       && BotFile in copied
       && env.venv.Interpreter?
       && env.login == LoginOk
       && env.spawn == Spawned
  }

  /** A run creates an instance exactly when every step succeeds; only then
      is a process started (after the token was accepted) and one credit
      debited from the balance read at the start. */
  lemma CreatedIff(before: World, after: World, author: int, req: Config.Request,
                   env: Environment, res: Outcome)
    requires Provisioned(before, after, author, req, env, res)
    ensures res.Created? <==> AllStepsSucceed(before, author, req, env)
    ensures res.Created? ==>
      var balance := Ledger.Balance(before.credits, author);
      && res.creditsLeft == balance - 1 >= 0
      && after.credits == Ledger.Store(before.credits, author, balance - 1)
      && after.processes == before.processes + [Process(env.venv.python, BotFile, req.botName)]
    ensures !res.Created? ==> after.credits == before.credits && after.processes == before.processes
  {
  }

  /** A run touches no instance folder but its own. */
  lemma OtherInstancesUntouched(before: World, after: World, author: int, req: Config.Request,
                                env: Environment, res: Outcome)
    requires Provisioned(before, after, author, req, env, res)
    ensures forall other :: other != req.botName ==> Lookup(after.bots, other) == Lookup(before.bots, other)
  {
  }

  /** A rejected token, or any failure of the token check, the start or the
      debit, removes `bots/<name>` altogether (even when it existed before the
      run) and changes nothing else. */
  lemma RollbackRemovesFolder(before: World, after: World, author: int, req: Config.Request,
                              env: Environment, res: Outcome)
    requires Provisioned(before, after, author, req, env, res)
    requires res == InvalidToken || res == Error
    ensures after == before.(bots := before.bots - {req.botName})
  {
  }

  /** A failure before the token check leaves `bots/<name>` behind; when it
      comes after `config.json` was written, the folder holds that file
      with the record of the request, and only `bot.py` can be missing. */
  lemma LateFailureKeepsFolder(before: World, after: World, author: int, req: Config.Request,
                               env: Environment, res: Outcome)
    requires Provisioned(before, after, author, req, env, res)
    requires res == BotFileMissing || res.VenvMissing?
    ensures after.credits == before.credits && after.processes == before.processes
    ensures req.botName in after.bots && after.bots[req.botName].Dir?
    ensures var folder := after.bots[req.botName].children;
      && ConfigFile in folder && folder[ConfigFile] == ConfigNode(req, author)
      && (res == BotFileMissing <==> BotFile !in folder)
  {
  }

  /** "Setup Failed" never removes `bots/<name>` and never touches the ledger
      or the processes: whether `makedirs`, the copy, the `config.json` write
      or the interpreter lookup raised, the folder stays behind with every
      entry it had before the run. */
  lemma SetupFailedKeepsFolder(before: World, after: World, author: int, req: Config.Request,
                               env: Environment, res: Outcome)
    requires Provisioned(before, after, author, req, env, res)
    requires res == SetupFailed
    ensures after.credits == before.credits && after.processes == before.processes
    ensures req.botName in after.bots
    ensures MadeDir(before.bots, req.botName).None? ==> after == before
    ensures MadeDir(before.bots, req.botName).Some? ==>
      && after.bots[req.botName].Dir?
      && forall name :: name in MadeDir(before.bots, req.botName).value ==> name in after.bots[req.botName].children
  {
  }

  /** A missing `files` template leaves `bots/<name>` as `makedirs` made it:
      empty when it did not exist before the run, and with its old contents
      when it did, so that the run changes nothing at all. */
  lemma MissingTemplateKeepsFolder(before: World, after: World, author: int, req: Config.Request,
                                   env: Environment, res: Outcome)
    requires Provisioned(before, after, author, req, env, res)
    requires res == TemplateMissing
    ensures after.credits == before.credits && after.processes == before.processes
    ensures req.botName in after.bots && after.bots[req.botName].Dir?
    ensures req.botName !in before.bots ==> after.bots[req.botName] == Dir(map[])
    ensures req.botName in before.bots ==> after == before
    ensures forall other :: other != req.botName ==> Lookup(after.bots, other) == Lookup(before.bots, other)
  {
  }

  /** A created instance holds every template entry as it is in the
      template (when no entry clashes in kind with what was already there),
      keeps every entry of a folder of the same name that the template does
      not replace, and its `config.json` reads back as the settings of the
      request. */
  lemma CreatedInstance(before: World, after: World, author: int, req: Config.Request,
                        env: Environment, res: Outcome)
    requires Provisioned(before, after, author, req, env, res)
    requires res.Created?
    ensures req.botName in after.bots && after.bots[req.botName].Dir?
    ensures var folder := after.bots[req.botName].children;
      && BotFile in folder && ConfigFile in folder
      && folder[ConfigFile] == ConfigNode(req, author)
      && Config.Decode(folder[ConfigFile].content.record) == Some(Config.SettingsOf(req, author))
    ensures env.template.Some? && env.template.value.Dir?
    ensures var tmpl := env.template.value.children;
      var start := MadeDir(before.bots, req.botName).value;
      SameKinds(start, tmpl) ==>
        forall name :: name in tmpl && name != ConfigFile ==> after.bots[req.botName].children[name] == tmpl[name]
    ensures var start := MadeDir(before.bots, req.botName).value;
      forall name :: name in start && name !in env.template.value.children && name != ConfigFile ==>
        name in after.bots[req.botName].children && after.bots[req.botName].children[name] == start[name]
  {
    CreatedIff(before, after, author, req, env, res);
    var start := MadeDir(before.bots, req.botName).value;
    var tmpl := env.template.value.children;
    var folder := Overlay(start, tmpl)[ConfigFile := ConfigNode(req, author)];
    assert after.bots[req.botName] == Dir(folder);
    Config.ConfigRoundTrip(req, author);
    if SameKinds(start, tmpl) {
      OverlayPlacesTemplate(start, tmpl);
    }
  }

  /** No run makes a balance negative. */
  lemma NonNegativePreserved(before: World, after: World, author: int, req: Config.Request,
                             env: Environment, res: Outcome)
    requires Provisioned(before, after, author, req, env, res)
    requires Ledger.NonNegative(before.credits)
    ensures Ledger.NonNegative(after.credits)
  {
  }

  /** One invocation of the `create` command: who ran it, with which
      parameters, what the outside world answered, and the reply. */
  datatype Command = Command(author: int, req: Config.Request, env: Environment, res: Outcome)

  /** `worlds[i + 1]` is what `runs[i]` made of `worlds[i]`: the commands
      run one after another. */
  ghost predicate Trace(worlds: seq<World>, runs: seq<Command>)
  {
    && |worlds| == |runs| + 1
    && forall i :: 0 <= i < |runs| ==>
         Provisioned(worlds[i], worlds[i + 1], runs[i].author, runs[i].req, runs[i].env, runs[i].res)
  }

  /** How many of `runs` created an instance for `user`. */
  function CreatedFor(runs: seq<Command>, user: int): nat
  {
    if runs == [] then 0
    else CreatedFor(runs[..|runs| - 1], user) + (if runs[|runs| - 1].res.Created? && runs[|runs| - 1].author == user then 1 else 0)
  }

  /** How many of `runs` created an instance. */
  function CreatedAll(runs: seq<Command>): nat
  {
    if runs == [] then 0
    else CreatedAll(runs[..|runs| - 1]) + (if runs[|runs| - 1].res.Created? then 1 else 0)
  }

  /** One run debits `user` one credit exactly when it created an instance
      for `user`, and starts one process exactly when it created one. */
  lemma StepAccounting(before: World, after: World, cmd: Command, user: int)
    requires Provisioned(before, after, cmd.author, cmd.req, cmd.env, cmd.res)
    ensures Ledger.Balance(after.credits, user) ==
            Ledger.Balance(before.credits, user) - (if cmd.res.Created? && cmd.author == user then 1 else 0)
    ensures |after.processes| == |before.processes| + (if cmd.res.Created? then 1 else 0)
    ensures Ledger.Balance(before.credits, user) >= 0 ==> Ledger.Balance(after.credits, user) >= 0
  {
    CreatedIff(before, after, cmd.author, cmd.req, cmd.env, cmd.res);
  }

  /**
   * Over any sequence of runs, each user's balance falls by exactly the
   * number of instances created for them, one process is started per
   * instance created, and nobody who started with a non-negative balance
   * creates more instances than that balance.
   */
  lemma {:induction false} CreditsConserved(worlds: seq<World>, runs: seq<Command>, user: int)
    requires Trace(worlds, runs)
    ensures Ledger.Balance(worlds[0].credits, user) - Ledger.Balance(worlds[|runs|].credits, user) ==
            CreatedFor(runs, user)
    ensures |worlds[|runs|].processes| == |worlds[0].processes| + CreatedAll(runs)
    ensures Ledger.Balance(worlds[0].credits, user) >= 0 ==>
            Ledger.Balance(worlds[|runs|].credits, user) >= 0 &&
            CreatedFor(runs, user) <= Ledger.Balance(worlds[0].credits, user)
  {
    if runs != [] {
      var k := |runs| - 1;
      assert Trace(worlds[..k + 1], runs[..k]);
      CreditsConserved(worlds[..k + 1], runs[..k], user);
      StepAccounting(worlds[k], worlds[k + 1], runs[k], user);
    }
  }
}
