/**
 * The Telegram command handler of messageHandler.js: a per-chat registry of
 * smart-account wallets (`walletConnections`) and `handleMessage`, which picks
 * a reply from the command text and the chat's wallet, may create a wallet, and
 * posts the reply back to the chat.
 *
 * Everything the handler asks of the outside world (key generation and the
 * Nexus client, `getBalance`, `axios.post`) is an outcome supplied in a `World`
 * value; the posts are recorded in a ghost outbox.
 */
module MessageHandler {
  import opened Wrappers
  import opened Text

  type ChatId = int

  /** The Biconomy Nexus client kept with a wallet; opaque here. */
  datatype NexusClient = NexusClient(id: nat)

  /** One entry of `walletConnections`. */
  datatype Wallet = Wallet(smartAccountAddress: string, nexusClient: NexusClient, privateKey: string)

  /** The part of a Telegram message the handler reads; `text` is absent for non-text messages. */
  datatype Message = Message(chatId: ChatId, text: Option<string>)

  /** How the key generation, client creation and address lookup of `createSmartAccount` end. */
  datatype AccountCreation =
    | Created(address: string, client: NexusClient, privateKey: string)
    | CreationFailed

  /** How `nexusClient.getBalance` ends. */
  datatype BalanceQuery = BalanceOk(balance: nat) | BalanceFailed

  /** The outcomes of the external calls made while one message is handled. */
  datatype World = World(creation: AccountCreation, balance: BalanceQuery, postFails: bool)

  /** The reply texts, one variant per distinct text. */
  datatype Response =
    | WalletCreated(address: string)
    | WalletExists(address: string)
    | NeedWallet
    | BalanceIs(balance: nat)
    | BalanceError
    | PrivateKey(key: string)
    | SwapUsage
    | SwapComingSoon
    | BridgeUsage
    | BridgeComingSoon
    | UnknownCommand
    | GenericError

  /** One `axios.post` to Telegram's sendMessage. */
  datatype Post = Post(chatId: ChatId, response: Response)

  /** The branch `handleMessage` takes for a text; `arity` is `text.split(' ').length`. */
  datatype Command =
    | Start
    | Balance
    | Export
    | Swap(arity: nat)
    | Bridge(arity: nat)
    | Unknown
    | NoText

  const ExactCommands: set<string> := {"/start", "/balance", "/export"}

  /**
   * The branch selected for a message text: the three exact commands first,
   * then the `/swap` prefix, then the `/bridge` prefix, then anything else.
   * A missing text matches no exact command and fails at `startsWith`.
   */
  function Route(text: Option<string>): (c: Command)
    ensures c == Start <==> text == Some("/start")
    ensures c == NoText <==> text.None?
  {
    match text
    case None => NoText
    case Some(t) =>
      if t == "/start" then Start
      else if t == "/balance" then Balance
      else if t == "/export" then Export
      else if "/swap" <= t then Swap(|Split(t, ' ')|)
      else if "/bridge" <= t then Bridge(|Split(t, ' ')|)
      else Unknown
  }

  /**
   * The order in which the branches are tried: the exact commands, then the
   * `/swap` prefix (so `/swapx` is a swap), then the `/bridge` prefix.
   */
  lemma RoutePriority(text: Option<string>)
    ensures var c := Route(text);
      && (c == Balance <==> text == Some("/balance"))
      && (c == Export <==> text == Some("/export"))
      && (c.Swap? <==> text.Some? && text.value !in ExactCommands && "/swap" <= text.value)
      && (c.Bridge? <==>
            text.Some? && text.value !in ExactCommands && !("/swap" <= text.value) && "/bridge" <= text.value)
      && (c == Unknown <==>
            text.Some? && text.value !in ExactCommands && !("/swap" <= text.value) && !("/bridge" <= text.value))
      && ((c.Swap? || c.Bridge?) ==> c.arity == multiset(text.value)[' '] + 1)
  {
    if text.Some? {
      var t := text.value;
      assert t in ExactCommands <==> t == "/start" || t == "/balance" || t == "/export";
      if t !in ExactCommands && !("/swap" <= t) && "/bridge" <= t {
        assert Route(text) == Bridge(|Split(t, ' ')|);
      }
    }
  }

  /** The registry after a message, and the reply chosen for it. */
  datatype Outcome = Outcome(wallets: map<ChatId, Wallet>, response: Response)

  /** The reply to a command other than `/start`, which never touches the registry. */
  function Reply(wallet: Option<Wallet>, command: Command, balance: BalanceQuery): (r: Response)
    requires command != Start
    ensures r == GenericError <==> command == NoText
    ensures r == NeedWallet <==> wallet.None? && command !in {Unknown, NoText}
    ensures command == Unknown ==> r == UnknownCommand
    ensures command == Balance && wallet.Some? ==>
      r == if balance.BalanceOk? then BalanceIs(balance.balance) else BalanceError
    ensures command == Export && wallet.Some? ==> r == PrivateKey(wallet.value.privateKey)
  {
    match command
    case Unknown => UnknownCommand
    case NoText => GenericError
    case Balance =>
      if wallet.None? then NeedWallet
      else if balance.BalanceOk? then BalanceIs(balance.balance)
      else BalanceError
    case Export =>
      if wallet.None? then NeedWallet else PrivateKey(wallet.value.privateKey)
    case Swap(arity) =>
      if wallet.None? then NeedWallet else if arity != 4 then SwapUsage else SwapComingSoon
    case Bridge(arity) =>
      if wallet.None? then NeedWallet else if arity != 4 then BridgeUsage else BridgeComingSoon
  }

  /**
   * What one message does to the registry and which text it answers with,
   * before posting. Only `/start` from a chat without a wallet, when the
   * account is created, adds an entry; every other case leaves it as it was.
   */
  function Respond(wallets: map<ChatId, Wallet>, message: Message, world: World): (r: Outcome)
    ensures
      if message.text == Some("/start") && message.chatId !in wallets && world.creation.Created? then
        && r.wallets == wallets[message.chatId := Wallet(world.creation.address, world.creation.client, world.creation.privateKey)]
        && r.response == WalletCreated(world.creation.address)
      else
        r.wallets == wallets
    ensures r.response == GenericError <==>
      message.text.None? || (message.text == Some("/start") && message.chatId !in wallets && world.creation.CreationFailed?)
  {
    var chatId := message.chatId;
    var command := Route(message.text);
    if command == Start then
      if chatId in wallets then Outcome(wallets, WalletExists(wallets[chatId].smartAccountAddress))
      else match world.creation
        case Created(address, client, key) => Outcome(wallets[chatId := Wallet(address, client, key)], WalletCreated(address))
        case CreationFailed => Outcome(wallets, GenericError)
    else
      var wallet := if chatId in wallets then Some(wallets[chatId]) else None;
      Outcome(wallets, Reply(wallet, command, world.balance))
  }

  /**
   * The posts sent for a chosen reply: the reply itself; if that post throws,
   * the catch block posts the generic error as well. A reply that is already
   * the generic error comes from the catch block and is posted once.
   * These are attempted posts: one whose `axios.post` throws is listed too.
   */
  function Posts(chatId: ChatId, response: Response, postFails: bool): (posts: seq<Post>)
    ensures 1 <= |posts| <= 2
    ensures posts[0] == Post(chatId, response)
    ensures |posts| == 2 <==> postFails && response != GenericError
    ensures |posts| == 2 ==> posts[1] == Post(chatId, GenericError)
  {
    if response == GenericError || !postFails then [Post(chatId, response)]
    else [Post(chatId, response), Post(chatId, GenericError)]
  }

  /** `/start` from a chat that has a wallet keeps the registry and repeats the stored address. */
  lemma StartWithWallet(wallets: map<ChatId, Wallet>, chatId: ChatId, world: World)
    requires chatId in wallets
    ensures var r := Respond(wallets, Message(chatId, Some("/start")), world);
      r.wallets == wallets && r.response == WalletExists(wallets[chatId].smartAccountAddress)
  {
  }

  /** A successful `/start` adds exactly one entry and leaves every other chat's entry as it was. */
  lemma StartCreatesOneWallet(wallets: map<ChatId, Wallet>, chatId: ChatId, world: World)
    requires chatId !in wallets && world.creation.Created?
    ensures var r := Respond(wallets, Message(chatId, Some("/start")), world);
      && r.wallets.Keys == wallets.Keys + {chatId}
      && |r.wallets| == |wallets| + 1
      && r.wallets[chatId].smartAccountAddress == world.creation.address
      && forall c :: c in wallets ==> r.wallets[c] == wallets[c]
  {
    var r := Respond(wallets, Message(chatId, Some("/start")), world);
    assert r.wallets.Keys == wallets.Keys + {chatId};
  }

  /** Without a wallet, every wallet command asks for `/start` first. */
  lemma NoWalletNeedsStart(wallets: map<ChatId, Wallet>, message: Message, world: World)
    requires message.chatId !in wallets
    requires message.text.Some?
    requires var t := message.text.value;
      t == "/balance" || t == "/export" || "/swap" <= t || "/bridge" <= t
    ensures Respond(wallets, message, world) == Outcome(wallets, NeedWallet)
  {
    assert message.text.value != "/start" by {
      assert "/start"[2] != "/swap"[2];
    }
  }

  /** With a wallet, a `/swap` text gets the usage line unless it holds exactly three spaces. */
  lemma SwapArity(wallets: map<ChatId, Wallet>, message: Message, world: World)
    requires message.chatId in wallets
    requires message.text.Some? && message.text.value !in ExactCommands && "/swap" <= message.text.value
    ensures Respond(wallets, message, world).response ==
      if multiset(message.text.value)[' '] == 3 then SwapComingSoon else SwapUsage
  {
  }

  /** With a wallet, a `/bridge` text gets the usage line unless it holds exactly three spaces. */
  lemma BridgeArity(wallets: map<ChatId, Wallet>, message: Message, world: World)
    requires message.chatId in wallets
    requires message.text.Some? && message.text.value !in ExactCommands
    requires !("/swap" <= message.text.value) && "/bridge" <= message.text.value
    ensures Respond(wallets, message, world).response ==
      if multiset(message.text.value)[' '] == 3 then BridgeComingSoon else BridgeUsage
  {
  }

  /** Any text that is no exact command and has neither prefix gets the unknown-command reply, wallet or not. */
  lemma UnknownTextReply(wallets: map<ChatId, Wallet>, message: Message, world: World)
    requires message.text.Some? && message.text.value !in ExactCommands
    requires !("/swap" <= message.text.value) && !("/bridge" <= message.text.value)
    ensures Respond(wallets, message, world) == Outcome(wallets, UnknownCommand)
  {
    RoutePriority(message.text);
  }

  /** With a wallet, a successful balance query is answered with that balance. */
  lemma BalanceReply(wallets: map<ChatId, Wallet>, chatId: ChatId, world: World)
    requires chatId in wallets && world.balance.BalanceOk?
    ensures Respond(wallets, Message(chatId, Some("/balance")), world) == Outcome(wallets, BalanceIs(world.balance.balance))
  {
  }

  /** A failed balance query is answered with its own error text, not the generic one. */
  lemma BalanceFailureCaught(wallets: map<ChatId, Wallet>, chatId: ChatId, world: World)
    requires chatId in wallets && world.balance.BalanceFailed?
    ensures Respond(wallets, Message(chatId, Some("/balance")), world) == Outcome(wallets, BalanceError)
  {
  }

  /** Two `/start` messages in a row: the second creates nothing and repeats the first one's address. */
  lemma StartTwice(wallets: map<ChatId, Wallet>, chatId: ChatId, first: World, second: World)
    requires chatId !in wallets && first.creation.Created?
    ensures var start := Message(chatId, Some("/start"));
      var r1 := Respond(wallets, start, first);
      var r2 := Respond(r1.wallets, start, second);
      r2.wallets == r1.wallets && r2.response == WalletExists(first.creation.address)
  {
  }

  /** The registry after handling a sequence of messages, each with its own world. */
  function Run(wallets: map<ChatId, Wallet>, steps: seq<(Message, World)>): map<ChatId, Wallet>
    decreases |steps|
  {
    if steps == [] then wallets
    else Run(Respond(wallets, steps[0].0, steps[0].1).wallets, steps[1..])
  }

  /** Once a chat has a wallet, no later message removes or replaces it. */
  lemma {:induction false} WalletsPersist(wallets: map<ChatId, Wallet>, steps: seq<(Message, World)>)
    ensures forall c :: c in wallets ==> c in Run(wallets, steps) && Run(wallets, steps)[c] == wallets[c]
    decreases |steps|
  {
    if steps != [] {
      WalletsPersist(Respond(wallets, steps[0].0, steps[0].1).wallets, steps[1..]);
    }
  }

  /** A chat gains a wallet only through a `/start` of its own whose account creation succeeded. */
  lemma {:induction false} WalletsComeFromStart(wallets: map<ChatId, Wallet>, steps: seq<(Message, World)>, c: ChatId)
    requires c in Run(wallets, steps) && c !in wallets
    ensures exists k :: 0 <= k < |steps| && steps[k].0 == Message(c, Some("/start")) && steps[k].1.creation.Created?
    decreases |steps|
  {
    var next := Respond(wallets, steps[0].0, steps[0].1).wallets;
    if c in next {
      assert steps[0].0 == Message(c, Some("/start")) && steps[0].1.creation.Created?;
    } else {
      WalletsComeFromStart(next, steps[1..], c);
      var k :| 0 <= k < |steps| - 1 && steps[1..][k].0 == Message(c, Some("/start")) && steps[1..][k].1.creation.Created?;
      assert steps[k + 1] == steps[1..][k];
    }
  }

  /** The handler's module-level state: the wallet registry and, as a ghost, every post it has sent. */
  class Handler {
    var walletConnections: map<ChatId, Wallet>
    /** Every post attempted so far, delivered or not. */
    ghost var sent: seq<Post>

    constructor ()
      ensures walletConnections == map[] && sent == []
    {
      walletConnections := map[];
      sent := [];
    }

    /**
     * `createSmartAccount`: on success the new wallet is stored under the chat
     * and its address returned; a failure anywhere before the store leaves the
     * registry untouched and is rethrown (None).
     */
    method CreateSmartAccount(chatId: ChatId, creation: AccountCreation) returns (address: Option<string>)
      modifies this`walletConnections
      ensures creation.Created? ==>
        && address == Some(creation.address)
        && walletConnections == old(walletConnections)[chatId := Wallet(creation.address, creation.client, creation.privateKey)]
      ensures creation.CreationFailed? ==> address == None && walletConnections == old(walletConnections)
    {
      match creation
      case CreationFailed =>
        address := None;
      case Created(smartAccountAddress, nexusClient, privateKey) =>
        walletConnections := walletConnections[chatId := Wallet(smartAccountAddress, nexusClient, privateKey)];
        address := Some(smartAccountAddress);
    }

    /**
     * The `try` block of `handleMessage` up to the post: choose the reply along
     * the if/else chain, creating the wallet for a first `/start`. None stands
     * for an exception on its way to the catch block.
     */
    method ChooseResponse(message: Message, world: World) returns (responseText: Option<Response>)
      modifies this`walletConnections
      ensures var r := Respond(old(walletConnections), message, world);
        && walletConnections == r.wallets
        && responseText == if r.response == GenericError then None else Some(r.response)
    {
      var chatId := message.chatId;
      var text := message.text;
      responseText := None;

      if text == Some("/start") {
        assert Route(text) == Start;
        if chatId !in walletConnections {
          var address := CreateSmartAccount(chatId, world.creation);
          if address.Some? {
            responseText := Some(WalletCreated(address.value));
          }
        } else {
          responseText := Some(WalletExists(walletConnections[chatId].smartAccountAddress));
        }
      } else if text == Some("/balance") {
        assert Route(text) == Balance;
        if chatId !in walletConnections {
          responseText := Some(NeedWallet);
        } else {
          match world.balance
          case BalanceOk(balance) => responseText := Some(BalanceIs(balance));
          case BalanceFailed => responseText := Some(BalanceError);
        }
      } else if text == Some("/export") {
        assert Route(text) == Export;
        if chatId !in walletConnections {
          responseText := Some(NeedWallet);
        } else {
          responseText := Some(PrivateKey(walletConnections[chatId].privateKey));
        }
      } else if text.None? {
        // `text.startsWith` throws on a missing text: responseText stays None.
      } else if "/swap" <= text.value {
        if chatId !in walletConnections {
          responseText := Some(NeedWallet);
        } else {
          var parts := Split(text.value, ' ');
          assert Route(text) == Swap(|parts|);
          responseText := Some(if |parts| != 4 then SwapUsage else SwapComingSoon);
        }
      } else if "/bridge" <= text.value {
        if chatId !in walletConnections {
          responseText := Some(NeedWallet);
        } else {
          var parts := Split(text.value, ' ');
          assert Route(text) == Bridge(|parts|);
          responseText := Some(if |parts| != 4 then BridgeUsage else BridgeComingSoon);
        }
      } else {
        assert Route(text) == Unknown;
        responseText := Some(UnknownCommand);
      }
    }

    /**
     * `handleMessage`: choose the reply, then post it; if that post throws,
     * the catch block posts the generic error.
     */
    method HandleMessage(message: Message, world: World)
      modifies this
      ensures var r := Respond(old(walletConnections), message, world);
        && walletConnections == r.wallets
        && sent == old(sent) + Posts(message.chatId, r.response, world.postFails)
    {
      var responseText := ChooseResponse(message, world);
      match responseText
      case Some(response) =>
        sent := sent + [Post(message.chatId, response)];
        if world.postFails {
          sent := sent + [Post(message.chatId, GenericError)];
        }
      case None =>
        sent := sent + [Post(message.chatId, GenericError)];
    }
  }
}
