/**
 * The `create` command of the bot-setup cog (cogs/bot_setup.py:55-168): one
 * sequential run that checks the author's credits, materialises
 * `bots/<name>` from the `files` template, writes its `config.json`, checks
 * the bot token, starts the instance and finally debits one credit; or
 * stops on the first failure, removing `bots/<name>` only when the token check,
 * the start or the debit raised.
 *
 * Everything the run asks of the outside world (whether the template exists,
 * whether the environment is found, what the login and the process spawn do)
 * is an input of the run, an `Environment`.
 */
module Provisioning {
  import opened Optional
  import opened FileTree
  import Ledger
  import Config

  /** The entry point every instance runs, and the name of its configuration. */
  const BotFile: string := "bot.py"
  const ConfigFile: string := "config.json"

  /** What `get_venv_python(venv_name)` does: return an interpreter path,
      raise FileNotFoundError (with its message), or raise anything else. */
  datatype VenvLookup = Interpreter(python: string) | VenvNotFound(message: string) | VenvFailure

  /** What logging in with the token and closing the client does: succeed,
      raise LoginFailure, or raise anything else. */
  datatype Login = LoginOk | LoginRejected | LoginError

  /** What `subprocess.Popen` does: start the process, or raise. */
  datatype Spawn = Spawned | SpawnError

  /** The outside world's answers during one run. `template` is the `files`
      folder if it exists; `configWritable` is false when opening or writing
      `config.json` raises for a reason other than a directory standing there. */
  datatype Environment = Environment(
    template: Option<Node>,
    configWritable: bool,
    venv: VenvLookup,
    login: Login,
    spawn: Spawn)

  /** A child process started by the cog: interpreter, script, and the
      instance folder it runs in. */
  datatype Process = Process(python: string, script: string, instance: string)

  /** The reply the command gives. */
  datatype Outcome =
    | InsufficientCredits         // "Insufficient Credits"
    | TemplateMissing             // "Could not find the 'files' folder"
    | BotFileMissing              // "Could not find bot.py or config.json"
    | VenvMissing(message: string) // the FileNotFoundError's message
    | InvalidToken                // "Invalid Token"
    | Error                       // "Error": any other failure of the token check, start or debit
    | SetupFailed                 // "Setup Failed": any other exception
    | Created(creditsLeft: int)   // "Bot Creation Success"

  /** Everything a run can change: the credit ledger, the contents of the
      `bots` folder, and the processes started so far. */
  datatype World = World(credits: Ledger.Credits, bots: Listing, processes: seq<Process>)

  /** The contents of `bots/<name>` after `os.makedirs(..., exist_ok=True)`:
      what was there already, an empty folder, or None when a file stands in
      the way and makedirs raises. */
  function MadeDir(bots: Listing, name: string): (r: Option<Listing>)
    ensures r.None? <==> name in bots && bots[name].File?
    ensures name !in bots ==> r == Some(map[])
    ensures name in bots && bots[name].Dir? ==> r == Some(bots[name].children)
  {
    if name !in bots then Some(map[])
    else if bots[name].Dir? then Some(bots[name].children)
    else None
  }

  /** The `config.json` file of a request by `author`. */
  function ConfigNode(req: Config.Request, author: int): Node
  {
    File(Json(Config.ConfigData(req, author)))
  }

  /** Writing `config.json` into the folder `d` succeeds: nothing in the
      environment makes it raise, and no directory stands at that name. */
  predicate ConfigWrites(d: Listing, env: Environment)
  {
    env.configWritable && !(ConfigFile in d && d[ConfigFile].Dir?)
  }

  /**
   * One run of `setup_bot` by `author` with the parameters `req`, from the
   * world `before` to the world `after`, replying `res`: the credit check
   * and the creation of `bots/<name>` (cogs/bot_setup.py:56-66).
   */
  ghost predicate Provisioned(before: World, after: World, author: int, req: Config.Request,
                              env: Environment, res: Outcome)
  {
    var name := req.botName;
    if Ledger.Balance(before.credits, author) <= 0 then
      res == InsufficientCredits && after == before
    else match MadeDir(before.bots, name)
      case None => res == SetupFailed && after == before
      case Some(start) =>
        AfterMakedirs(before.(bots := before.bots[name := Dir(start)]), start, after, author, req, env, res)
  }

  /** The rest of a run from the world `made`, in which `bots/<name>` holds
      `start`: the copy of the template (cogs/bot_setup.py:68-83). */
  ghost predicate AfterMakedirs(made: World, start: Listing, after: World, author: int,
                               req: Config.Request, env: Environment, res: Outcome)
  {
    var name := req.botName;
    match env.template
    case None => res == TemplateMissing && after == made
    case Some(File(_)) => res == SetupFailed && after == made
    case Some(Dir(tmpl)) =>
      if Copies(start, tmpl) then
        var copied := Overlay(start, tmpl);
        AfterCopy(made.(bots := made.bots[name := Dir(copied)]), copied, after, author, req, env, res)
      else
        && res == SetupFailed
        && name in after.bots && after.bots[name].Dir?
        && after == made.(bots := made.bots[name := after.bots[name]])
        && PartlyCopied(start, tmpl, after.bots[name].children)
  }

  /** The rest of a run from the world `copiedWorld`, in which `bots/<name>`
      holds the copied template `copied`: the configuration file
      (cogs/bot_setup.py:85-112). */
  ghost predicate AfterCopy(copiedWorld: World, copied: Listing, after: World, author: int,
                         req: Config.Request, env: Environment, res: Outcome)
  {
    if ConfigWrites(copied, env) then
      var folder := copied[ConfigFile := ConfigNode(req, author)];
      AfterConfig(copiedWorld.(bots := copiedWorld.bots[req.botName := Dir(folder)]), folder, after,
                 author, req, env, res)
    else
      res == SetupFailed && after == copiedWorld
  }

  /** The rest of a run from the world `written`, in which `bots/<name>`
      holds `folder`, configuration included: the presence check, the
      environment, the token check, the start and the debit
      (cogs/bot_setup.py:114-161). */
  ghost predicate AfterConfig(written: World, folder: Listing, after: World, author: int,
                             req: Config.Request, env: Environment, res: Outcome)
  {
    var name := req.botName;
    var removed := written.(bots := written.bots - {name});
    var balance := Ledger.Balance(written.credits, author);
    if !(BotFile in folder && ConfigFile in folder) then
      res == BotFileMissing && after == written
    else match env.venv
      case VenvNotFound(message) => res == VenvMissing(message) && after == written
      case VenvFailure => res == SetupFailed && after == written
      case Interpreter(python) =>
        match env.login
        case LoginRejected => res == InvalidToken && after == removed
        case LoginError => res == Error && after == removed
        case LoginOk =>
          if env.spawn == SpawnError then
            res == Error && after == removed
          else
            && res == Created(balance - 1)
            && after == World(Ledger.Store(written.credits, author, balance - 1), written.bots,
                              written.processes + [Process(python, BotFile, name)])
  }

  /**
   * The copy loop of cogs/bot_setup.py:71-80 over the instance folder `dest`:
   * the template's entries are visited in no particular order (the order of
   * `os.listdir`) and copied one at a time. `ok` is false when a copy raised;
   * the folder is then left as far as the loop got.
   */
  method CopyTemplate(dest: Listing, tmpl: Listing) returns (r: Listing, ok: bool)
    ensures ok <==> Copies(dest, tmpl)
    ensures ok ==> r == Overlay(dest, tmpl)
    ensures !ok ==> PartlyCopied(dest, tmpl, r)
  {
    r, ok := dest, true;
    var todo := tmpl.Keys;
    while todo != {}
      invariant todo <= tmpl.Keys
      invariant Copies(dest, tmpl - todo)
      invariant r == Overlay(dest, tmpl - todo)
      decreases todo
    {
      var name :| name in todo;
      assert Lookup(r, name) == Lookup(dest, name);
      var item := CopyItem(Lookup(r, name), name, tmpl[name]);
      if item.None? {
        OverlayPartly(dest, tmpl, todo);
        ok := false;
        return;
      }
      OverlayExtend(dest, tmpl, todo, name);
      r := r[name := item.value];
      todo := todo - {name};
    }
    assert tmpl - todo == tmpl;
  }

  /** The cog, with the state it reaches: the credit ledger, the `bots`
      folder and the processes it has started. */
  class BotSetup {
    var credits: Ledger.Credits
    var bots: Listing
    var processes: seq<Process>

    constructor (credits: Ledger.Credits, bots: Listing)
      ensures State() == World(credits, bots, [])
    {
      this.credits := credits;
      this.bots := bots;
      this.processes := [];
    }

    function State(): World
      reads this
    {
      World(credits, bots, processes)
    }

    /** `load_credits` (cogs/bot_setup.py:18-24). */
    method LoadCredits(userId: int) returns (r: int)
      ensures r == Ledger.Balance(credits, userId)
    {
      r := Ledger.Balance(credits, userId);
    }

    /** `update_credits` (cogs/bot_setup.py:26-29). */
    method UpdateCredits(userId: int, amount: int)
      modifies this`credits
      ensures credits == Ledger.Store(old(credits), userId, amount)
    {
      credits := credits[userId := amount];
    }

    /** `setup_bot` (cogs/bot_setup.py:55-168). */
    method SetupBot(authorId: int, req: Config.Request, env: Environment) returns (res: Outcome)
      modifies this
      ensures Provisioned(old(State()), State(), authorId, req, env, res)
    {
      var userCredits := LoadCredits(authorId);
      if userCredits <= 0 {
        return InsufficientCredits;
      }
      var name := req.botName;
      // os.makedirs(bots/<name>, exist_ok=True)
      if name in bots && bots[name].File? {
        return SetupFailed;
      }
      var folder := if name in bots then bots[name].children else map[];
      bots := bots[name := Dir(folder)];
      res := Materialize(authorId, userCredits, req, env, folder);
    }

    /**
     * The copy of the `files` template into `bots/<name>`, which holds
     * `folder` (cogs/bot_setup.py:68-83); the run goes on with the
     * configuration file when every entry was copied.
     */
    method Materialize(authorId: int, userCredits: int, req: Config.Request, env: Environment,
                       folder: Listing) returns (res: Outcome)
      requires userCredits == Ledger.Balance(credits, authorId)
      requires req.botName in bots && bots[req.botName] == Dir(folder)
      modifies this
      ensures AfterMakedirs(old(State()), folder, State(), authorId, req, env, res)
    {
      if env.template.None? {
        return TemplateMissing;
      }
      if env.template.value.File? {
        // os.listdir on a file raises
        return SetupFailed;
      }
      var copied, ok := CopyTemplate(folder, env.template.value.children);
      bots := bots[req.botName := Dir(copied)];
      if !ok {
        return SetupFailed;
      }
      res := Configure(authorId, userCredits, req, env, copied);
    }

    /**
     * Writing `config.json` into `bots/<name>`, which holds `folder`
     * (cogs/bot_setup.py:85-112); the run goes on with the start of the
     * instance when the file was written.
     */
    method Configure(authorId: int, userCredits: int, req: Config.Request, env: Environment,
                     folder: Listing) returns (res: Outcome)
      requires userCredits == Ledger.Balance(credits, authorId)
      requires req.botName in bots && bots[req.botName] == Dir(folder)
      modifies this
      ensures AfterCopy(old(State()), folder, State(), authorId, req, env, res)
    {
      if !ConfigWrites(folder, env) {
        return SetupFailed;
      }
      var written := folder[ConfigFile := ConfigNode(req, authorId)];
      bots := bots[req.botName := Dir(written)];
      res := StartInstance(authorId, userCredits, req, env, written);
    }

    /**
     * The last part of `setup_bot` (cogs/bot_setup.py:114-161), once
     * `bots/<name>` holds `folder`: check that `bot.py` and `config.json` are
     * there, look up the interpreter, check the token, start the instance and
     * debit one of the `userCredits` read at the start of the run; remove the
     * instance folder when the token check, the start or the debit raised.
     */
    method StartInstance(authorId: int, userCredits: int, req: Config.Request, env: Environment,
                         folder: Listing) returns (res: Outcome)
      requires userCredits == Ledger.Balance(credits, authorId)
      requires req.botName in bots && bots[req.botName] == Dir(folder)
      modifies this
      ensures AfterConfig(old(State()), folder, State(), authorId, req, env, res)
    {
      var name := req.botName;
      if !(BotFile in folder && ConfigFile in folder) {
        return BotFileMissing;
      }
      var python;
      match env.venv {
        case VenvNotFound(message) =>
          return VenvMissing(message);
        case VenvFailure =>
          return SetupFailed;
        case Interpreter(p) =>
          python := p;
      }
      // token check, start, debit; rmtree on LoginFailure or any other exception
      if env.login == LoginRejected {
        bots := bots - {name};
        return InvalidToken;
      }
      if env.login == LoginError || env.spawn == SpawnError {
        bots := bots - {name};
        return Error;
      }
      processes := processes + [Process(python, BotFile, name)];
      UpdateCredits(authorId, userCredits - 1);
      res := Created(userCredits - 1);
    }
  }
}
