/** The channel provider: the selected channel, the in-memory message log,
    the loaded address book and the persisted "last channel" address and
    "initialised" flag.

    A channel address is represented by its base58 text. The address book is
    the list of channels joined so far, in join order, looked up by name and
    by address. The external calls (loading the address book, joining a
    channel, reading and posting to a channel) are not modelled: each
    transition receives the outcome its call delivered, and `post` returns
    the transport call it would make. */
module Channels {
  import opened Common
  import Identity

  type Address = string

  datatype Channel = Channel(name: string, address: Address)

  datatype Message = Message(sender: string, content: string, timestamp: int)

  /** The public configuration of a well-known channel. */
  datatype ChannelConfig = ChannelConfig(name: string, address: Address)

  /** The channels joined so far. */
  datatype AddressBook = AddressBook(entries: seq<Channel>)

  /** The name of the well-known public channel. */
  const DefaultChannel: string := "lobby"

  function ChannelByName(book: AddressBook, name: string): (c: Option<Channel>)
  {
    Find(book.entries, (c: Channel) => c.name == name)
  }

  function ChannelByAddress(book: AddressBook, address: Address): (c: Option<Channel>)
  {
    Find(book.entries, (c: Channel) => c.address == address)
  }

  /** What the provider reads from the wallet and identity providers. */
  datatype Env = Env(wallet: Option<Identity.Wallet>, connected: bool, identityReady: bool,
                     did: Option<string>, decryptionKey: Option<Identity.Key>)

  /** Wallet, connection, DID and decryption key are all available: the part
      of the subscription and posting guards that does not involve the
      channel. */
  predicate SessionAvailable(env: Env)
  {
    env.wallet.Some? && env.connected && Truthy(env.did) && env.decryptionKey.Some?
  }

  /** The provider's state cells. `subscription` is the channel the live
      subscription reads, if there is one. */
  datatype Session = Session(
    channel: Option<Channel>,
    messages: seq<Message>,
    addressBook: Option<AddressBook>,
    currentChannelInState: Option<string>,
    initialised: bool,
    subscription: Option<Channel>)

  /** The state on mount, from the stored last-channel address and flag. */
  function Initial(storedChannel: Option<string>, storedInitialised: bool): (s: Session)
  {
    Session(None, [], None, storedChannel, storedInitialised, None)
  }

  /** The selected channel is always the one whose address is stored as the
      last channel. */
  predicate Consistent(s: Session)
  {
    s.channel.Some? ==> s.currentChannelInState == Some(s.channel.value.address)
  }

  /** `setCurrentChannel`: nothing happens for an absent channel or one whose
      address is already stored; otherwise the log is cleared, the address
      stored and the channel selected. */
  function Switched(s: Session, newChannel: Option<Channel>): (t: Session)
    ensures newChannel.None? || s.currentChannelInState == Some(newChannel.value.address) ==> t == s
    ensures newChannel.Some? && s.currentChannelInState != Some(newChannel.value.address) ==>
      t.messages == [] && t.currentChannelInState == Some(newChannel.value.address) &&
      t.channel == newChannel
    ensures t.addressBook == s.addressBook && t.initialised == s.initialised &&
      t.subscription == s.subscription
  {
    if newChannel.None? || Some(newChannel.value.address) == s.currentChannelInState then s
    else s.(messages := [], currentChannelInState := Some(newChannel.value.address), channel := newChannel)
  }

  /** The subscription callback: a message is appended at the tail of the
      log, an empty unit clears it. Without a live subscription nothing is
      delivered. */
  function Delivered(s: Session, message: Option<Message>): (t: Session)
    ensures t.(messages := s.messages) == s
    ensures s.subscription.None? ==> t.messages == s.messages
    ensures s.subscription.Some? && message.Some? ==>
      |t.messages| == |s.messages| + 1 && t.messages[..|s.messages|] == s.messages &&
      t.messages[|s.messages|] == message.value
    ensures s.subscription.Some? && message.None? ==> t.messages == []
  {
    if s.subscription.None? then s
    else if message.Some? then s.(messages := s.messages + [message.value])
    else s.(messages := [])
  }

  /** The subscription effect: when it runs, the previous subscription is
      released and a new one is opened on the selected channel if wallet,
      connection, channel, DID and decryption key are all available. */
  function Subscribed(s: Session, env: Env): (t: Session)
    ensures t.(subscription := s.subscription) == s
    ensures t.subscription.Some? <==> SessionAvailable(env) && s.channel.Some?
    ensures t.subscription.Some? ==> t.subscription == s.channel
  {
    if env.wallet.None? || !env.connected || s.channel.None? || !Truthy(env.did) || env.decryptionKey.None? then
      s.(subscription := None)
    else
      s.(subscription := s.channel)
  }

  /** The effect that loads the address book once the identity is ready:
      `loaded` is the book the load delivered. A book already loaded is
      kept. */
  function AddressBookLoaded(s: Session, env: Env, loaded: AddressBook): (t: Session)
    ensures t.(addressBook := s.addressBook) == s
    ensures s.addressBook.Some? ==> t == s
    ensures t.addressBook != s.addressBook <==> SessionAvailable(env) && env.identityReady && s.addressBook.None?
    ensures t.addressBook != s.addressBook ==> t.addressBook == Some(loaded)
  {
    if env.wallet.None? || !env.connected || !env.identityReady || !Truthy(env.did) ||
       env.decryptionKey.None? || s.addressBook.Some?
    then s
    else s.(addressBook := Some(loaded))
  }

  /** The effect that restores the last channel: with no channel selected,
      the wallet connected, the identity ready and the address book loaded,
      the channel stored by address is selected if the book knows it. The
      log and the stored address are never touched. */
  function Restored(s: Session, env: Env): (t: Session)
    ensures t.(channel := s.channel) == s
    ensures t.channel != s.channel <==>
      s.channel.None? && env.wallet.Some? && env.connected && env.identityReady &&
      s.addressBook.Some? && Truthy(s.currentChannelInState) &&
      ChannelByAddress(s.addressBook.value, s.currentChannelInState.value).Some?
    ensures t.channel != s.channel ==>
      t.channel == ChannelByAddress(s.addressBook.value, s.currentChannelInState.value) &&
      t.channel.value.address == s.currentChannelInState.value
  {
    if s.channel.Some? || env.wallet.None? || !env.connected || !env.identityReady || s.addressBook.None? then s
    else if Truthy(s.currentChannelInState) then
      match ChannelByAddress(s.addressBook.value, s.currentChannelInState.value)
      case Some(c) => s.(channel := Some(c))
      case None => s
    else s
  }

  /** The outcome of `joinPublicChannel`: what it resolves or rejects with,
      the address book afterwards, and the configuration `joinChannel` was
      called with, if it was called. */
  datatype Joining = Joining(result: Result<Channel>, addressBook: Option<AddressBook>,
                             joinRequest: Option<ChannelConfig>)

  /** `joinPublicChannel`. `configs` are the public channel configurations by
      name; `joined` is what `joinChannel` delivers when called. A successful
      join adds the channel to the address book. */
  function PublicChannelJoined(book: Option<AddressBook>, configs: map<string, ChannelConfig>,
                             joined: Result<Channel>): (r: Joining)
    ensures book.None? ==>
      r == Joining(Failure("Load address book first"), book, None)
    ensures book.Some? && ChannelByName(book.value, DefaultChannel).Some? ==>
      r == Joining(Success(ChannelByName(book.value, DefaultChannel).value), book, None)
    ensures book.Some? && ChannelByName(book.value, DefaultChannel).None? && DefaultChannel !in configs ==>
      r == Joining(Failure("No channel named " + DefaultChannel + " found in config"), book, None)
    ensures r.joinRequest.Some? <==>
      book.Some? && ChannelByName(book.value, DefaultChannel).None? && DefaultChannel in configs
    ensures r.joinRequest.Some? ==>
      r.joinRequest.value == configs[DefaultChannel] && r.result == joined &&
      r.addressBook == (if joined.Success? then Some(AddressBook(book.value.entries + [joined.value])) else book)
  {
    if book.None? then Joining(Failure("Load address book first"), book, None)
    else
      match ChannelByName(book.value, DefaultChannel)
      case Some(defaultChannel) => Joining(Success(defaultChannel), book, None)
      case None =>
        if DefaultChannel !in configs then
          Joining(Failure("No channel named " + DefaultChannel + " found in config"), book, None)
        else if joined.Success? then
          Joining(joined, Some(AddressBook(book.value.entries + [joined.value])), Some(configs[DefaultChannel]))
        else
          Joining(joined, book, Some(configs[DefaultChannel]))
  }

  /** The outcome of `joinPublicChannelAndSetDefault`: the state afterwards,
      whether it resolved, and the `joinChannel` call it made, if any. */
  datatype Bootstrap = Bootstrap(session: Session, outcome: Outcome, joinRequest: Option<ChannelConfig>)

  /** `joinPublicChannelAndSetDefault`: join the public channel; once that
      resolved, if no last channel is stored, select the default channel
      and set the initialised flag. */
  function Bootstrapped(s: Session, configs: map<string, ChannelConfig>, joined: Result<Channel>): (r: Bootstrap)
    ensures var j := PublicChannelJoined(s.addressBook, configs, joined);
      r.joinRequest == j.joinRequest && r.session.addressBook == j.addressBook &&
      (r.outcome.Pass? <==> j.result.Success?) &&
      (r.outcome.Fail? ==> r.outcome.error == j.result.error)
    ensures r.outcome.Fail? ==>
      r.session == s.(addressBook := r.session.addressBook)
    ensures r.outcome.Pass? && Truthy(s.currentChannelInState) ==>
      r.session == s.(addressBook := r.session.addressBook)
    ensures r.outcome.Pass? && !Truthy(s.currentChannelInState) ==>
      r.session.addressBook.Some? && r.session.initialised && r.session.subscription == s.subscription &&
      var d := ChannelByName(r.session.addressBook.value, DefaultChannel);
      (d.Some? && s.currentChannelInState != Some(d.value.address) ==>
        r.session.channel == d && r.session.messages == [] &&
        r.session.currentChannelInState == Some(d.value.address)) &&
      (d.None? || s.currentChannelInState == Some(d.value.address) ==>
        r.session.channel == s.channel && r.session.messages == s.messages &&
        r.session.currentChannelInState == s.currentChannelInState)
    ensures r.session.initialised <==>
      s.initialised || (r.outcome.Pass? && !Truthy(s.currentChannelInState))
    ensures r.session.currentChannelInState != s.currentChannelInState ==>
      r.outcome.Pass? && !Truthy(s.currentChannelInState) && r.session.addressBook.Some? &&
      r.session.channel == ChannelByName(r.session.addressBook.value, DefaultChannel)
  {
    var j := PublicChannelJoined(s.addressBook, configs, joined);
    var s1 := s.(addressBook := j.addressBook);
    if j.result.Failure? then Bootstrap(s1, Fail(j.result.error), j.joinRequest)
    else if !Truthy(s.currentChannelInState) && s.addressBook.Some? then
      Bootstrap(Switched(s1, ChannelByName(s1.addressBook.value, DefaultChannel)).(initialised := true),
                Pass, j.joinRequest)
    else Bootstrap(s1, Pass, j.joinRequest)
  }

  /** The transport call `post` makes. */
  datatype PostCall = PostCall(channel: Channel, did: string, decryptionKey: Identity.Key, text: string)

  /** The events that drive the provider, one per callback or effect run. */
  datatype Event =
    | SetCurrentChannel(newChannel: Option<Channel>)
    | Receive(message: Option<Message>)
    | Subscribe(env: Env)
    | LoadAddressBook(env: Env, loaded: AddressBook)
    | RestoreChannel(env: Env)
    | JoinPublicChannelAndSetDefault(joined: Result<Channel>)

  function Step(s: Session, configs: map<string, ChannelConfig>, e: Event): (t: Session)
  {
    match e
    case SetCurrentChannel(newChannel) => Switched(s, newChannel)
    case Receive(message) => Delivered(s, message)
    case Subscribe(env) => Subscribed(s, env)
    case LoadAddressBook(env, loaded) => AddressBookLoaded(s, env, loaded)
    case RestoreChannel(env) => Restored(s, env)
    case JoinPublicChannelAndSetDefault(joined) => Bootstrapped(s, configs, joined).session
  }

  /** The state after the events `es`, in order. */
  function Run(s: Session, configs: map<string, ChannelConfig>, es: seq<Event>): (t: Session)
    decreases |es|
  {
    if es == [] then s else Run(Step(s, configs, es[0]), configs, es[1..])
  }

  /** Every event keeps the selected channel and the stored address in step. */
  lemma StepKeepsConsistent(s: Session, configs: map<string, ChannelConfig>, e: Event)
    requires Consistent(s)
    ensures Consistent(Step(s, configs, e))
  {
  }

  lemma {:induction false} RunKeepsConsistent(s: Session, configs: map<string, ChannelConfig>, es: seq<Event>)
    requires Consistent(s)
    ensures Consistent(Run(s, configs, es))
    decreases |es|
  {
    if es != [] {
      StepKeepsConsistent(s, configs, es[0]);
      RunKeepsConsistent(Step(s, configs, es[0]), configs, es[1..]);
    }
  }

  /** The initialised flag is only ever set: no sequence of events clears it. */
  lemma {:induction false} InitialisedNeverResets(s: Session, configs: map<string, ChannelConfig>, es: seq<Event>)
    requires s.initialised
    ensures Run(s, configs, es).initialised
    decreases |es|
  {
    if es != [] {
      InitialisedNeverResets(Step(s, configs, es[0]), configs, es[1..]);
    }
  }

  /** A loaded address book stays loaded and only gains entries at its end. */
  lemma {:induction false} AddressBookOnlyGrows(s: Session, configs: map<string, ChannelConfig>, es: seq<Event>)
    requires s.addressBook.Some?
    ensures var t := Run(s, configs, es);
      t.addressBook.Some? &&
      |s.addressBook.value.entries| <= |t.addressBook.value.entries| &&
      t.addressBook.value.entries[..|s.addressBook.value.entries|] == s.addressBook.value.entries
    decreases |es|
  {
    if es != [] {
      var s1 := Step(s, configs, es[0]);
      assert s1.addressBook.Some? &&
        s1.addressBook.value.entries[..|s.addressBook.value.entries|] == s.addressBook.value.entries;
      AddressBookOnlyGrows(s1, configs, es[1..]);
    }
  }

  /** The log after the subscription delivered `units`, in order. */
  function DeliveredAll(s: Session, units: seq<Option<Message>>): (t: Session)
    decreases |units|
  {
    if units == [] then s else DeliveredAll(Delivered(s, units[0]), units[1..])
  }

  /** The messages carried by `units`, in order. */
  function Received(units: seq<Option<Message>>): (ms: seq<Message>)
  {
    if units == [] then []
    else (if units[0].Some? then [units[0].value] else []) + Received(units[1..])
  }

  predicate NoClear(units: seq<Option<Message>>)
  {
    forall i :: 0 <= i < |units| ==> units[i].Some?
  }

  lemma {:induction false} DeliveredAllAppend(s: Session, a: seq<Option<Message>>, b: seq<Option<Message>>)
    ensures DeliveredAll(s, a + b) == DeliveredAll(DeliveredAll(s, a), b)
    decreases |a|
  {
    if a != [] {
      assert (a + b)[1..] == a[1..] + b;
      DeliveredAllAppend(Delivered(s, a[0]), a[1..], b);
    } else {
      assert a + b == b;
    }
  }

  lemma {:induction false} DeliveredAllKeepsSubscription(s: Session, units: seq<Option<Message>>)
    ensures DeliveredAll(s, units).subscription == s.subscription
    decreases |units|
  {
    if units != [] {
      DeliveredAllKeepsSubscription(Delivered(s, units[0]), units[1..]);
    }
  }

  /** Without a clear, delivered messages are appended to the log in arrival
      order. */
  lemma {:induction false} LogAppendsInOrder(s: Session, units: seq<Option<Message>>)
    requires s.subscription.Some? && NoClear(units)
    ensures DeliveredAll(s, units).messages == s.messages + Received(units)
    decreases |units|
  {
    if units != [] {
      var s1 := Delivered(s, units[0]);
      assert NoClear(units[1..]) by {
        forall i | 0 <= i < |units[1..]| ensures units[1..][i].Some? {
          assert units[1..][i] == units[i + 1];
        }
      }
      LogAppendsInOrder(s1, units[1..]);
      assert s1.messages == s.messages + [units[0].value];
    }
  }

  /** After a clear, the log holds exactly the messages delivered since the
      last clear, whatever it held before. */
  lemma LogSinceLastClear(s: Session, before: seq<Option<Message>>, after: seq<Option<Message>>)
    requires s.subscription.Some? && NoClear(after)
    ensures DeliveredAll(s, before + [None] + after).messages == Received(after)
  {
    DeliveredAllAppend(s, before + [None], after);
    DeliveredAllAppend(s, before, [None]);
    var s1 := DeliveredAll(s, before);
    DeliveredAllKeepsSubscription(s, before);
    assert DeliveredAll(s1, [None]) == Delivered(s1, None);
    LogAppendsInOrder(DeliveredAll(s, before + [None]), after);
  }

  /** The subscription delivers `m1`, a clear, then `m2`: the log reads
      `[m1]`, then `[]`, then `[m2]`. */
  lemma ClearBetweenMessages(s: Session, m1: Message, m2: Message)
    requires s.subscription.Some? && s.messages == []
    ensures DeliveredAll(s, [Some(m1)]).messages == [m1]
    ensures DeliveredAll(s, [Some(m1), None]).messages == []
    ensures DeliveredAll(s, [Some(m1), None, Some(m2)]).messages == [m2]
  {
    LogAppendsInOrder(s, [Some(m1)]);
    LogSinceLastClear(s, [Some(m1)], []);
    LogSinceLastClear(s, [Some(m1)], [Some(m2)]);
    assert [Some(m1)] + [None] + [Some(m2)] == [Some(m1), None, Some(m2)];
    assert Received([Some(m2)]) == [m2];
  }

  /** Switching to the same channel twice acts once. */
  lemma SwitchIdempotent(s: Session, newChannel: Option<Channel>)
    ensures Switched(Switched(s, newChannel), newChannel) == Switched(s, newChannel)
  {
  }

  /** Bootstrapping while already a member of the public channel makes no
      join call, and a second bootstrap changes nothing further. */
  lemma BootstrapIdempotentWhenJoined(s: Session, configs: map<string, ChannelConfig>,
                                      joined1: Result<Channel>, joined2: Result<Channel>)
    requires s.addressBook.Some? && ChannelByName(s.addressBook.value, DefaultChannel).Some?
    ensures var first := Bootstrapped(s, configs, joined1);
      var second := Bootstrapped(first.session, configs, joined2);
      first.joinRequest.None? && first.outcome.Pass? &&
      second.joinRequest.None? && second.outcome.Pass? &&
      second.session == first.session
  {
  }

  /** The channel provider. `publicChannelConfigs` stands for
      `publicChannelConfigByName`. */
  class ChannelProvider {
    const publicChannelConfigs: map<string, ChannelConfig>
    var channel: Option<Channel>
    var messages: seq<Message>
    var addressBook: Option<AddressBook>
    var currentChannelInState: Option<string>
    var solariumInitialised: bool
    var subscription: Option<Channel>

    function State(): Session
      reads this
    {
      Session(channel, messages, addressBook, currentChannelInState, solariumInitialised, subscription)
    }

    ghost predicate Valid()
      reads this
    {
      Consistent(State())
    }

    constructor (configs: map<string, ChannelConfig>, storedChannel: Option<string>, storedInitialised: bool)
      ensures Valid() && publicChannelConfigs == configs
      ensures State() == Initial(storedChannel, storedInitialised)
    {
      publicChannelConfigs := configs;
      channel := None;
      messages := [];
      addressBook := None;
      currentChannelInState := storedChannel;
      solariumInitialised := storedInitialised;
      subscription := None;
    }

    method SetCurrentChannel(newChannel: Option<Channel>)
      requires Valid()
      modifies this
      ensures Valid()
      ensures State() == Switched(old(State()), newChannel)
    {
      if newChannel.None? || Some(newChannel.value.address) == currentChannelInState {
        return;
      }
      messages := [];
      currentChannelInState := Some(newChannel.value.address);
      channel := newChannel;
    }

    /** The subscription callback. */
    method OnMessage(message: Option<Message>)
      requires Valid()
      modifies this
      ensures Valid()
      ensures State() == Delivered(old(State()), message)
    {
      if subscription.None? {
        return;
      }
      if message.Some? {
        messages := messages + [message.value];
      } else {
        messages := [];
      }
    }

    /** The subscription effect. */
    method SubscribeEffect(env: Env)
      requires Valid()
      modifies this
      ensures Valid()
      ensures State() == Subscribed(old(State()), env)
    {
      subscription := None;
      if env.wallet.None? || !env.connected || channel.None? || !Truthy(env.did) || env.decryptionKey.None? {
        return;
      }
      subscription := channel;
    }

    /** The address-book effect; `loaded` is what the load delivered. */
    method LoadAddressBookEffect(env: Env, loaded: AddressBook)
      requires Valid()
      modifies this
      ensures Valid()
      ensures State() == AddressBookLoaded(old(State()), env, loaded)
    {
      if env.wallet.None? || !env.connected || !env.identityReady || !Truthy(env.did) ||
         env.decryptionKey.None? || addressBook.Some? {
        return;
      }
      addressBook := Some(loaded);
    }

    /** The effect that restores the last channel. */
    method RestoreChannelEffect(env: Env)
      requires Valid()
      modifies this
      ensures Valid()
      ensures State() == Restored(old(State()), env)
    {
      if channel.Some? || env.wallet.None? || !env.connected || !env.identityReady || addressBook.None? {
        return;
      }
      if Truthy(currentChannelInState) {
        var groupOrDirectChannel := ChannelByAddress(addressBook.value, currentChannelInState.value);
        if groupOrDirectChannel.Some? {
          channel := groupOrDirectChannel;
        }
      }
    }

    /** `joinPublicChannel`; `joined` is what `joinChannel` delivers if it is
        called. */
    method JoinPublicChannel(joined: Result<Channel>) returns (r: Result<Channel>, joinRequest: Option<ChannelConfig>)
      requires Valid()
      modifies this
      ensures Valid()
      ensures var j := PublicChannelJoined(old(addressBook), publicChannelConfigs, joined);
        r == j.result && joinRequest == j.joinRequest &&
        State() == old(State()).(addressBook := j.addressBook)
    {
      joinRequest := None;
      if addressBook.None? {
        r := Failure("Load address book first");
        return;
      }
      var defaultChannel := ChannelByName(addressBook.value, DefaultChannel);
      if defaultChannel.None? {
        if DefaultChannel !in publicChannelConfigs {
          r := Failure("No channel named " + DefaultChannel + " found in config");
          return;
        }
        joinRequest := Some(publicChannelConfigs[DefaultChannel]);
        r := joined;
        if joined.Success? {
          addressBook := Some(AddressBook(addressBook.value.entries + [joined.value]));
        }
        return;
      }
      r := Success(defaultChannel.value);
    }

    /** `joinPublicChannelAndSetDefault`, the action exposed as
        `joinPublicChannel`. */
    method JoinPublicChannelAndSetDefault(joined: Result<Channel>) returns (r: Outcome, joinRequest: Option<ChannelConfig>)
      requires Valid()
      modifies this
      ensures Valid()
      ensures var b := Bootstrapped(old(State()), publicChannelConfigs, joined);
        State() == b.session && r == b.outcome && joinRequest == b.joinRequest
    {
      var storedChannel := currentChannelInState;
      var book := addressBook;
      var result;
      result, joinRequest := JoinPublicChannel(joined);
      if result.Failure? {
        r := Fail(result.error);
        return;
      }
      if !Truthy(storedChannel) && book.Some? {
        SetCurrentChannel(ChannelByName(addressBook.value, DefaultChannel));
        solariumInitialised := true;
      }
      r := Pass;
    }

    /** `post`: the transport call it makes, or the error it throws before
        making any. The log is not touched. */
    method Post(env: Env, text: string) returns (r: Result<PostCall>)
      ensures r.Failure? <==> !SessionAvailable(env) || channel.None?
      ensures r.Failure? ==> r.error == "Posting unavailable."
      ensures r.Success? ==>
        r.value == PostCall(channel.value, env.did.value, env.decryptionKey.value, text)
    {
      if env.wallet.None? || !env.connected || channel.None? || !Truthy(env.did) || env.decryptionKey.None? {
        return Failure("Posting unavailable.");
      }
      return Success(PostCall(channel.value, env.did.value, env.decryptionKey.value, text));
    }
  }
}
