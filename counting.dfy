/**
 * The counting-channel cog. Per server, a map from channel to the channel's
 * counting state; one shared list of "shielded" authors whose next message
 * delete was caused by the bot itself. Every handler returns the calls it makes
 * on the chat platform as a list of effects.
 */
module CountingEngine {
  import opened Wrappers
  import opened Text
  import opened CountPatterns

  type ServerId = string
  type ChannelId = string
  type AuthorId = string

  /** `{"last": ..., "count": ..., "goal": ..., "strict": ...}` of one counting channel. */
  datatype ChanState = ChanState(last: Option<AuthorId>, count: int, goal: int, strict: bool)

  /** The entry `add` creates. */
  const NewChannel := ChanState(None, 0, 0, false)

  /** `self.set`: server -> channel -> state (the `"channels"` level is folded in). */
  type Settings = map<ServerId, map<ChannelId, ChanState>>

  /** A message as the handlers see it; `server` is None for a direct message. */
  datatype Message = Message(author: AuthorId, server: Option<ServerId>, channel: ChannelId, content: string)

  /** Replies of the admin commands. */
  datatype Reply =
    | ServerInitialized
    | AlreadyCounting
    | ChannelAdded
    | Uninitialized
    | NotCounting
    | ChannelRemoved
    | CountSet(count: int)
    | StrictSet(on: bool)
    | GoalSet(goal: int)

  /** Messages the bot posts into a counting channel. */
  datatype Notice =
    | NoTwoInARow(author: AuthorId)
    | MustStartWith(author: AuthorId, expected: int)
    | Sneaky(author: AuthorId)
    | GoalReached(goal: int)

  datatype Effect =
    | Say(reply: Reply)
    | SetTopic(channel: ChannelId, topic: Option<string>)
    | Save
    | DeleteMessage                                 // the message being handled
    | Post(channel: ChannelId, notice: Notice)
    | DeletePost                                    // the notice just posted, after its delay
    | LockChannel(channel: ChannelId)               // the default role may no longer send
    | DenySend(channel: ChannelId, member: AuthorId)
    | DenyRead(channel: ChannelId, member: AuthorId)

  /** The channel topic that announces the next number (and the goal when there is one). */
  function Topic(next: int, goal: int): string {
    "Next message must start with " + IntToString(next)
    + (if goal > 0 then " | Reach " + IntToString(goal) + " to complete." else "")
  }

  /** The whole state of the cog. */
  datatype CogState = CogState(settings: Settings, shield: seq<AuthorId>)

  /** The state after one event, and the effects the event caused. */
  datatype Step = Step(state: CogState, effects: seq<Effect>)

  // ---------------------------------------------------------------------------
  // The shield list

  predicate NoDuplicates(s: seq<AuthorId>) {
    forall i, j :: 0 <= i < j < |s| ==> s[i] != s[j]
  }

  /** `if a not in shield: shield.append(a)` */
  function Shielded(shield: seq<AuthorId>, a: AuthorId): (r: seq<AuthorId>)
    ensures a in r
    ensures forall x :: x in r <==> x in shield || x == a
    ensures NoDuplicates(shield) ==> NoDuplicates(r)
  {
    if a in shield then shield else shield + [a]
  }

  /** `shield.remove(a)`: drops the first occurrence. */
  function RemoveFirst(shield: seq<AuthorId>, a: AuthorId): (r: seq<AuthorId>)
    ensures forall x :: x in r ==> x in shield
    ensures forall x :: x in shield && x != a ==> x in r
    ensures a in shield ==> |r| == |shield| - 1
    ensures NoDuplicates(shield) ==> NoDuplicates(r) && a !in r
  {
    if shield == [] then []
    else if shield[0] == a then shield[1..]
    else
      var rest := RemoveFirst(shield[1..], a);
      assert NoDuplicates(shield) ==> NoDuplicates(shield[1..]) && shield[0] !in shield[1..];
      [shield[0]] + rest
  }

  /** Shielding an unshielded author and then consuming the shield restores the list. */
  lemma {:induction false} ShieldRoundTrip(shield: seq<AuthorId>, a: AuthorId)
    requires a !in shield
    ensures RemoveFirst(Shielded(shield, a), a) == shield
  {
    if shield != [] {
      assert (shield + [a])[1..] == shield[1..] + [a];
      ShieldRoundTrip(shield[1..], a);
    }
  }

  // ---------------------------------------------------------------------------
  // Settings helpers

  predicate Registered(settings: Settings, server: ServerId, ch: ChannelId) {
    server in settings && ch in settings[server]
  }

  /** Nothing but the entry for `ch` of `server` differs between a and b. */
  predicate OthersUnchanged(a: Settings, b: Settings, server: ServerId, ch: ChannelId) {
    && (forall sv :: sv in a && sv != server ==> sv in b && b[sv] == a[sv])
    && (forall sv :: sv in b && sv != server ==> sv in a)
    && (server in a && server in b ==>
          && (forall c :: c in a[server] && c != ch ==> c in b[server] && b[server][c] == a[server][c])
          && (forall c :: c in b[server] && c != ch ==> c in a[server]))
  }

  function Replace(settings: Settings, server: ServerId, ch: ChannelId, st: ChanState): (r: Settings)
    requires server in settings
    ensures Registered(r, server, ch) && r[server][ch] == st
    ensures OthersUnchanged(settings, r, server, ch)
  {
    settings[server := settings[server][ch := st]]
  }

  /** The error reply of a command on an unknown server or channel. */
  function Refusal(settings: Settings, server: ServerId): Reply {
    if server in settings then NotCounting else Uninitialized
  }

  // ---------------------------------------------------------------------------
  // Admin commands

  /** `count add`: register a channel, initialising the server first when needed. */
  function AddSpec(s: CogState, server: ServerId, ch: ChannelId): (r: Step)
    ensures r.state.shield == s.shield
    ensures Registered(r.state.settings, server, ch)
    ensures OthersUnchanged(s.settings, r.state.settings, server, ch)
    ensures Registered(s.settings, server, ch) ==>
              r.state == s && r.effects == [Say(AlreadyCounting)]
    ensures server in s.settings && ch !in s.settings[server] ==>
              r.state.settings[server][ch] == NewChannel && Save in r.effects
    ensures server !in s.settings ==>
              && r.state.settings[server] == map[ch := NewChannel]
              && |r.effects| >= 1 && r.effects[0] == Say(ServerInitialized)
              && Save in r.effects
  {
    var initialised := if server in s.settings then s.settings else s.settings[server := map[]];
    var greeting := if server in s.settings then [] else [Say(ServerInitialized)];
    if ch in initialised[server] then
      Step(s.(settings := initialised), greeting + [Say(AlreadyCounting)])
    else
      Step(s.(settings := Replace(initialised, server, ch, NewChannel)),
           greeting + [Save, SetTopic(ch, Some(Topic(1, 0))), Say(ChannelAdded)])
  }

  /** `count remove`: unregister a channel and clear its topic. */
  function RemoveSpec(s: CogState, server: ServerId, ch: ChannelId): (r: Step)
    ensures r.state.shield == s.shield
    ensures !Registered(s.settings, server, ch) ==>
              r.state == s && r.effects == [Say(Refusal(s.settings, server))]
    ensures Registered(s.settings, server, ch) ==>
              && server in r.state.settings && ch !in r.state.settings[server]
              && OthersUnchanged(s.settings, r.state.settings, server, ch)
              && r.effects == [Save, SetTopic(ch, None), Say(ChannelRemoved)]
  {
    if !Registered(s.settings, server, ch) then Step(s, [Say(Refusal(s.settings, server))])
    else
      Step(s.(settings := s.settings[server := s.settings[server] - {ch}]),
           [Save, SetTopic(ch, None), Say(ChannelRemoved)])
  }

  /** `count set`: the count becomes n and anybody may post next. */
  function SetSpec(s: CogState, server: ServerId, ch: ChannelId, n: int): (r: Step)
    ensures r.state.shield == s.shield
    ensures !Registered(s.settings, server, ch) ==>
              r.state == s && r.effects == [Say(Refusal(s.settings, server))]
    ensures Registered(s.settings, server, ch) ==> Registered(r.state.settings, server, ch)
    ensures Registered(s.settings, server, ch) ==>
              var was, now := s.settings[server][ch], r.state.settings[server][ch];
              && OthersUnchanged(s.settings, r.state.settings, server, ch)
              && now.count == n && now.last == None && now.goal == was.goal && now.strict == was.strict
              && r.effects == [Save, SetTopic(ch, Some(Topic(n + 1, 0))), Say(CountSet(n))]
  {
    if !Registered(s.settings, server, ch) then Step(s, [Say(Refusal(s.settings, server))])
    else
      var st := s.settings[server][ch];
      Step(s.(settings := Replace(s.settings, server, ch, st.(count := n, last := None))),
           [Save, SetTopic(ch, Some(Topic(n + 1, 0))), Say(CountSet(n))])
  }

  /** `count strict`: flip strict mode. */
  function StrictSpec(s: CogState, server: ServerId, ch: ChannelId): (r: Step)
    ensures r.state.shield == s.shield
    ensures !Registered(s.settings, server, ch) ==>
              r.state == s && r.effects == [Say(Refusal(s.settings, server))]
    ensures Registered(s.settings, server, ch) ==> Registered(r.state.settings, server, ch)
    ensures Registered(s.settings, server, ch) ==>
              var was, now := s.settings[server][ch], r.state.settings[server][ch];
              && OthersUnchanged(s.settings, r.state.settings, server, ch)
              && now.strict == !was.strict && now.count == was.count && now.last == was.last && now.goal == was.goal
              && r.effects == [Save, Say(StrictSet(now.strict))]
  {
    if !Registered(s.settings, server, ch) then Step(s, [Say(Refusal(s.settings, server))])
    else
      var st := s.settings[server][ch];
      Step(s.(settings := Replace(s.settings, server, ch, st.(strict := !st.strict))),
           [Save, Say(StrictSet(!st.strict))])
  }

  /** `count goal`: set the goal (0 removes it) and show it in the topic. */
  function GoalSpec(s: CogState, server: ServerId, ch: ChannelId, goal: int): (r: Step)
    ensures r.state.shield == s.shield
    ensures !Registered(s.settings, server, ch) ==>
              r.state == s && r.effects == [Say(Refusal(s.settings, server))]
    ensures Registered(s.settings, server, ch) ==> Registered(r.state.settings, server, ch)
    ensures Registered(s.settings, server, ch) ==>
              var was, now := s.settings[server][ch], r.state.settings[server][ch];
              && OthersUnchanged(s.settings, r.state.settings, server, ch)
              && now.goal == goal && now.count == was.count && now.last == was.last && now.strict == was.strict
              && r.effects == [Save, SetTopic(ch, Some(Topic(was.count + 1, goal))), Say(GoalSet(goal))]
  {
    if !Registered(s.settings, server, ch) then Step(s, [Say(Refusal(s.settings, server))])
    else
      var st := s.settings[server][ch];
      Step(s.(settings := Replace(s.settings, server, ch, st.(goal := goal))),
           [Save, SetTopic(ch, Some(Topic(st.count + 1, goal))), Say(GoalSet(goal))])
  }

  // ---------------------------------------------------------------------------
  // Events

  /** How `on_message` classifies a message in a registered channel, in the handler's order. */
  datatype Verdict = TwoInARow | Ignored | Accepted | WrongNumber

  function Judge(st: ChanState, author: AuthorId, content: string): (v: Verdict)
    ensures st.strict && st.last == Some(author) ==> v == TwoInARow
    ensures v == Ignored <==> !(st.strict && st.last == Some(author)) && st.goal > 0 && st.count > st.goal
    ensures v == Accepted ==> AcceptsCount(content, st.count + 1)
    ensures v == WrongNumber ==> !AcceptsCount(content, st.count + 1)
  {
    if st.strict && st.last == Some(author) then TwoInARow
    else if st.goal > 0 && st.count > st.goal then Ignored
    else if AcceptsCount(content, st.count + 1) then Accepted
    else WrongNumber
  }

  /** What the bot does after accepting the count n in a channel whose goal is `goal`. */
  function AcceptEffects(ch: ChannelId, n: int, goal: int): (e: seq<Effect>)
    ensures LockChannel(ch) in e <==> n == goal
    ensures Post(ch, GoalReached(goal)) in e <==> n == goal
    ensures n == goal ==> |e| == 2
    ensures SetTopic(ch, Some(Topic(n + 1, goal))) in e <==> n != goal
    ensures Save in e <==> n != goal && n % 10 == 0
  {
    if n == goal then [LockChannel(ch), Post(ch, GoalReached(goal))]
    else [SetTopic(ch, Some(Topic(n + 1, goal)))] + (if n % 10 == 0 then [Save] else [])
  }

  /** `respond`: delete the message, post a correction and remove it again. */
  function RespondEffects(ch: ChannelId, notice: Notice): seq<Effect> {
    [DeleteMessage, Post(ch, notice), DeletePost]
  }

  /** The answer to a tampered count: call-out, no sending, then no reading, then retract. */
  function PenaltyEffects(ch: ChannelId, a: AuthorId): seq<Effect> {
    [Post(ch, Sneaky(a)), DenySend(ch, a), DenyRead(ch, a), DeletePost]
  }

  /** The message is not the bot's own and sits in a registered channel of a known server. */
  predicate Watched(s: CogState, bot: AuthorId, m: Message) {
    m.author != bot && m.server.Some? && Registered(s.settings, m.server.value, m.channel)
  }

  /** `on_message` */
  function MessageSpec(s: CogState, bot: AuthorId, m: Message): (r: Step)
    ensures !Watched(s, bot, m) ==> r == Step(s, [])
    ensures NoDuplicates(s.shield) ==> NoDuplicates(r.state.shield)
    ensures Watched(s, bot, m) ==>
              var st := s.settings[m.server.value][m.channel];
              match Judge(st, m.author, m.content)
              case Accepted =>
                Registered(r.state.settings, m.server.value, m.channel) &&
                var now := r.state.settings[m.server.value][m.channel];
                && r.state.shield == s.shield
                && OthersUnchanged(s.settings, r.state.settings, m.server.value, m.channel)
                && now.count == st.count + 1 && now.last == Some(m.author)
                && now.goal == st.goal && now.strict == st.strict
              case Ignored => r == Step(s, [])
              case _ =>
                && r.state.settings == s.settings
                && r.state.shield == Shielded(s.shield, m.author)
                && |r.effects| >= 1 && r.effects[0] == DeleteMessage
  {
    if !Watched(s, bot, m) then Step(s, [])
    else
      var server, ch := m.server.value, m.channel;
      var st := s.settings[server][ch];
      match Judge(st, m.author, m.content)
      case TwoInARow =>
        Step(s.(shield := Shielded(s.shield, m.author)), RespondEffects(ch, NoTwoInARow(m.author)))
      case Ignored => Step(s, [])
      case Accepted =>
        Step(s.(settings := Replace(s.settings, server, ch, st.(count := st.count + 1, last := Some(m.author)))),
             AcceptEffects(ch, st.count + 1, st.goal))
      case WrongNumber =>
        Step(s.(shield := Shielded(s.shield, m.author)),
             RespondEffects(ch, MustStartWith(m.author, st.count + 1)))
  }

  /** The step of an accepted message, as OnMessage's proof uses it (MessageSpec unfolded once, here only). */
  lemma MessageAccepted(s: CogState, bot: AuthorId, m: Message)
    requires Watched(s, bot, m)
    requires Judge(s.settings[m.server.value][m.channel], m.author, m.content) == Accepted
    ensures var st := s.settings[m.server.value][m.channel];
            MessageSpec(s, bot, m) ==
              Step(s.(settings := Replace(s.settings, m.server.value, m.channel, st.(count := st.count + 1, last := Some(m.author)))),
                   AcceptEffects(m.channel, st.count + 1, st.goal))
  {
  }

  /** The step of a rejected message, as OnMessage's proof uses it: it is answered and its author shielded. */
  lemma MessageRejected(s: CogState, bot: AuthorId, m: Message)
    requires Watched(s, bot, m)
    ensures var st := s.settings[m.server.value][m.channel];
            var shielded := s.(shield := Shielded(s.shield, m.author));
            match Judge(st, m.author, m.content)
            case TwoInARow => MessageSpec(s, bot, m) == Step(shielded, RespondEffects(m.channel, NoTwoInARow(m.author)))
            case WrongNumber => MessageSpec(s, bot, m) == Step(shielded, RespondEffects(m.channel, MustStartWith(m.author, st.count + 1)))
            case _ => true
  {
  }

  /** `on_message_edit`: the leading numbers before and after the edit are compared. */
  function EditSpec(s: CogState, bot: AuthorId, before: string, after: Message): (r: Step)
    ensures r.state.settings == s.settings
    ensures NoDuplicates(s.shield) ==> NoDuplicates(r.state.shield)
    ensures Watched(s, bot, after) && LeadingNumber(before) != LeadingNumber(after.content) ==>
              && r.state.shield == Shielded(s.shield, after.author)
              && r.effects == [DeleteMessage] + PenaltyEffects(after.channel, after.author)
    ensures !Watched(s, bot, after) || LeadingNumber(before) == LeadingNumber(after.content) ==>
              r == Step(s, [])
  {
    if !Watched(s, bot, after) || LeadingNumber(before) == LeadingNumber(after.content) then Step(s, [])
    else
      Step(s.(shield := Shielded(s.shield, after.author)),
           [DeleteMessage] + PenaltyEffects(after.channel, after.author))
  }

  /** `on_message_delete`: a shielded author's delete is absorbed, any other is punished. */
  function DeleteSpec(s: CogState, bot: AuthorId, m: Message): (r: Step)
    ensures r.state.settings == s.settings
    ensures NoDuplicates(s.shield) ==> NoDuplicates(r.state.shield)
    ensures Watched(s, bot, m) && m.author in s.shield ==>
              r.effects == [] && |r.state.shield| == |s.shield| - 1
              && (NoDuplicates(s.shield) ==> m.author !in r.state.shield)
              && (forall x :: x in s.shield && x != m.author ==> x in r.state.shield)
              && (forall x :: x in r.state.shield ==> x in s.shield)
    ensures Watched(s, bot, m) && m.author !in s.shield ==>
              r.state == s && r.effects == PenaltyEffects(m.channel, m.author)
    ensures !Watched(s, bot, m) ==> r == Step(s, [])
  {
    if !Watched(s, bot, m) then Step(s, [])
    else if m.author in s.shield then Step(s.(shield := RemoveFirst(s.shield, m.author)), [])
    else Step(s, PenaltyEffects(m.channel, m.author))
  }

  // ---------------------------------------------------------------------------
  // The cog

  class Counting {
    const bot: AuthorId
    var settings: Settings
    var shield: seq<AuthorId>

    ghost predicate Valid()
      reads this
    {
      NoDuplicates(shield)
    }

    ghost function State(): CogState
      reads this
    {
      CogState(settings, shield)
    }

    /** `__init__`: the settings come from the stored file; the shield starts empty. */
    constructor (bot: AuthorId, stored: Settings)
      ensures Valid()
      ensures this.bot == bot && settings == stored && shield == []
    {
      this.bot := bot;
      settings := stored;
      shield := [];
    }

    method ServerInit(server: ServerId)
      modifies this
      ensures settings == old(settings)[server := map[]] && shield == old(shield)
    {
      settings := settings[server := map[]];
    }

    method Add(server: ServerId, channel: ChannelId) returns (effects: seq<Effect>)
      requires Valid()
      modifies this
      ensures Valid()
      ensures Step(State(), effects) == AddSpec(old(State()), server, channel)
    {
      effects := [];
      if server !in settings {
        ServerInit(server);
        effects := effects + [Say(ServerInitialized)];
      }
      if channel in settings[server] {
        effects := effects + [Say(AlreadyCounting)];
        return;
      }
      settings := settings[server := settings[server][channel := ChanState(None, 0, 0, false)]];
      effects := effects + [Save, SetTopic(channel, Some(Topic(1, 0))), Say(ChannelAdded)];
    }

    method Remove(server: ServerId, channel: ChannelId) returns (effects: seq<Effect>)
      requires Valid()
      modifies this
      ensures Valid()
      ensures Step(State(), effects) == RemoveSpec(old(State()), server, channel)
    {
      if server !in settings {
        return [Say(Uninitialized)];
      }
      if channel !in settings[server] {
        return [Say(NotCounting)];
      }
      settings := settings[server := settings[server] - {channel}];
      effects := [Save, SetTopic(channel, None), Say(ChannelRemoved)];
    }

    /** `count set` */
    method SetCount(server: ServerId, channel: ChannelId, count: int) returns (effects: seq<Effect>)
      requires Valid()
      modifies this
      ensures Valid()
      ensures Step(State(), effects) == SetSpec(old(State()), server, channel, count)
    {
      if server !in settings {
        return [Say(Uninitialized)];
      }
      if channel !in settings[server] {
        return [Say(NotCounting)];
      }
      var st := settings[server][channel].(count := count, last := None);
      settings := Replace(settings, server, channel, st);
      effects := [Save, SetTopic(channel, Some(Topic(count + 1, 0))), Say(CountSet(count))];
    }

    method Strict(server: ServerId, channel: ChannelId) returns (effects: seq<Effect>)
      requires Valid()
      modifies this
      ensures Valid()
      ensures Step(State(), effects) == StrictSpec(old(State()), server, channel)
    {
      if server !in settings {
        return [Say(Uninitialized)];
      }
      if channel !in settings[server] {
        return [Say(NotCounting)];
      }
      var flipped := !settings[server][channel].strict;
      settings := settings[server := settings[server][channel := settings[server][channel].(strict := flipped)]];
      effects := [Save, Say(StrictSet(settings[server][channel].strict))];
    }

    method Goal(server: ServerId, channel: ChannelId, goal: int) returns (effects: seq<Effect>)
      requires Valid()
      modifies this
      ensures Valid()
      ensures Step(State(), effects) == GoalSpec(old(State()), server, channel, goal)
    {
      if server !in settings {
        return [Say(Uninitialized)];
      }
      if channel !in settings[server] {
        return [Say(NotCounting)];
      }
      settings := settings[server := settings[server][channel := settings[server][channel].(goal := goal)]];
      effects := [Save];
      var currentCount := settings[server][channel].count;
      effects := effects + [SetTopic(channel, Some(Topic(currentCount + 1, goal)))];
      effects := effects + [Say(GoalSet(goal))];
    }

    /** `respond`, the shield part: the author is shielded against the delete that follows. */
    method Respond(author: AuthorId, channel: ChannelId, notice: Notice) returns (effects: seq<Effect>)
      requires Valid()
      modifies this
      ensures Valid()
      ensures settings == old(settings) && shield == Shielded(old(shield), author)
      ensures effects == RespondEffects(channel, notice)
    {
      if author !in shield {
        shield := shield + [author];
      }
      effects := [DeleteMessage, Post(channel, notice), DeletePost];
    }

    /** The two field writes of an accepted message. */
    method Advance(server: ServerId, channel: ChannelId, author: AuthorId)
      requires Registered(settings, server, channel)
      modifies this
      ensures shield == old(shield)
      ensures settings == Replace(old(settings), server, channel,
                                  old(settings)[server][channel].(count := old(settings)[server][channel].count + 1,
                                                                  last := Some(author)))
    {
      var currentCount := settings[server][channel].count + 1;
      var st := settings[server][channel].(count := currentCount, last := Some(author));
      settings := Replace(settings, server, channel, st);
    }

    method OnMessage(m: Message) returns (effects: seq<Effect>)
      requires Valid()
      modifies this
      ensures Valid()
      ensures Step(State(), effects) == MessageSpec(old(State()), bot, m)
    {
      effects := [];
      if m.author == bot {
        return;
      }
      if m.server.None? || m.server.value !in settings {
        return;
      }
      var server := m.server.value;
      if m.channel !in settings[server] {
        return;
      }
      var channel := m.channel;
      ghost var st := settings[server][channel];
      if settings[server][channel].strict && settings[server][channel].last == Some(m.author) {
        assert Judge(st, m.author, m.content) == TwoInARow;
        MessageRejected(State(), bot, m);
        effects := Respond(m.author, channel, NoTwoInARow(m.author));
        return;
      }
      var currentCount := settings[server][channel].count;
      var currentGoal := settings[server][channel].goal;
      if currentGoal > 0 && currentCount > currentGoal {
        assert Judge(st, m.author, m.content) == Ignored;
        return;
      }
      var nextCount := currentCount + 1;
      if AcceptsCount(m.content, nextCount) {
        assert Judge(st, m.author, m.content) == Accepted;
        ghost var s0 := State();
        Advance(server, channel, m.author);
        ghost var accepted := Step(s0.(settings := Replace(s0.settings, server, channel, st.(count := nextCount, last := Some(m.author)))),
                                   AcceptEffects(channel, nextCount, currentGoal));
        MessageAccepted(s0, bot, m);
        assert State() == accepted.state;
        currentCount := nextCount;
        if currentCount == currentGoal {
          effects := [LockChannel(channel), Post(channel, GoalReached(currentGoal))];
          assert effects == accepted.effects;
          return;
        }
        effects := [SetTopic(channel, Some(Topic(nextCount + 1, currentGoal)))];
        if nextCount % 10 == 0 {
          effects := effects + [Save];
        }
        assert effects == accepted.effects;
      } else {
        assert Judge(st, m.author, m.content) == WrongNumber;
        MessageRejected(State(), bot, m);
        effects := Respond(m.author, channel, MustStartWith(m.author, nextCount));
      }
    }

    method OnMessageEdit(before: string, after: Message) returns (effects: seq<Effect>)
      requires Valid()
      modifies this
      ensures Valid()
      ensures Step(State(), effects) == EditSpec(old(State()), bot, before, after)
    {
      effects := [];
      if after.author == bot {
        return;
      }
      if after.server.None? || after.server.value !in settings {
        return;
      }
      var server := after.server.value;
      if after.channel !in settings[server] {
        return;
      }
      var channel := after.channel;
      var beforeCount := LeadingNumber(before);
      var afterCount := LeadingNumber(after.content);
      if beforeCount != afterCount {
        if after.author !in shield {
          shield := shield + [after.author];
        }
        effects := [DeleteMessage, Post(channel, Sneaky(after.author)), DenySend(channel, after.author),
                    DenyRead(channel, after.author), DeletePost];
      }
    }

    method OnMessageDelete(m: Message) returns (effects: seq<Effect>)
      requires Valid()
      modifies this
      ensures Valid()
      ensures Step(State(), effects) == DeleteSpec(old(State()), bot, m)
    {
      effects := [];
      if m.author == bot {
        return;
      }
      if m.server.None? || m.server.value !in settings {
        return;
      }
      var server := m.server.value;
      if m.channel !in settings[server] {
        return;
      }
      var channel := m.channel;
      if m.author in shield {
        shield := RemoveFirst(shield, m.author);
        return;
      }
      effects := [Post(channel, Sneaky(m.author)), DenySend(channel, m.author),
                  DenyRead(channel, m.author), DeletePost];
    }
  }

  // ---------------------------------------------------------------------------
  // Properties that relate several events

  /** A message is accepted exactly when it is not a repeat in strict mode, the goal is not passed, and it starts with the next number. */
  lemma AcceptedExactlyWhen(st: ChanState, author: AuthorId, content: string)
    ensures Judge(st, author, content) == Accepted <==>
              && !(st.strict && st.last == Some(author))
              && !(st.goal > 0 && st.count > st.goal)
              && AcceptsCount(content, st.count + 1)
  {
  }

  /** In strict mode nobody gets two accepted messages in a row, whatever the second one says. */
  lemma StrictNoTwoInARow(s: CogState, bot: AuthorId, m1: Message, m2: Message)
    requires Watched(s, bot, m1)
    requires s.settings[m1.server.value][m1.channel].strict
    requires Judge(s.settings[m1.server.value][m1.channel], m1.author, m1.content) == Accepted
    requires m2.author == m1.author && m2.server == m1.server && m2.channel == m1.channel
    ensures var s1 := MessageSpec(s, bot, m1).state;
            var r := MessageSpec(s1, bot, m2);
            && Judge(s1.settings[m1.server.value][m1.channel], m2.author, m2.content) == TwoInARow
            && r.state.settings == s1.settings
            && m2.author in r.state.shield
  {
  }

  /**
   * The bot's own delete of a rejected message is absorbed by the shield: the
   * reject followed by its delete leaves the cog exactly as it was.
   */
  lemma RejectThenDeleteRestores(s: CogState, bot: AuthorId, m: Message)
    requires Watched(s, bot, m) && m.author !in s.shield
    requires Judge(s.settings[m.server.value][m.channel], m.author, m.content) in {TwoInARow, WrongNumber}
    ensures var s1 := MessageSpec(s, bot, m).state;
            DeleteSpec(s1, bot, m) == Step(s, [])
  {
    ShieldRoundTrip(s.shield, m.author);
  }

  /** Likewise for a tampering edit: the bot deletes the edited message, and that delete is absorbed. */
  lemma TamperThenDeleteRestores(s: CogState, bot: AuthorId, before: string, after: Message)
    requires Watched(s, bot, after) && after.author !in s.shield
    requires LeadingNumber(before) != LeadingNumber(after.content)
    ensures var s1 := EditSpec(s, bot, before, after).state;
            DeleteSpec(s1, bot, after) == Step(s, [])
  {
    ShieldRoundTrip(s.shield, after.author);
  }

  /** Editing an accepted count into another text accepted for the same number is allowed silently. */
  lemma EditKeepingCountIsSilent(s: CogState, bot: AuthorId, n: int, before: string, after: Message)
    requires AcceptsCount(before, n) && AcceptsCount(after.content, n)
    ensures EditSpec(s, bot, before, after) == Step(s, [])
  {
    AcceptedMessageToken(before, n);
    AcceptedMessageToken(after.content, n);
  }

  /** Editing an accepted count so that it no longer starts with its number is punished. */
  lemma EditChangingCountIsPunished(s: CogState, bot: AuthorId, n: nat, before: string, after: Message)
    requires Watched(s, bot, after)
    requires AcceptsCount(before, n) && !AcceptsCount(after.content, n)
    ensures var r := EditSpec(s, bot, before, after);
            && DeleteMessage in r.effects && DenySend(after.channel, after.author) in r.effects
            && after.author in r.state.shield
  {
    AcceptedMessageToken(before, n);
    var lit := IntToString(n);
    if LeadingNumber(after.content) == Some(lit) {
      LeadingNumberIsTheMatch(after.content, lit);
      assert false;
    }
  }

  /**
   * Edits of a count accepted for a negative number go unnoticed when the new
   * text does not start with a digit: neither text yields a token, and the two
   * missing tokens compare equal. So "-5" edited into "-6" or "x" is silent.
   */
  lemma NegativeCountEditIsSilent(s: CogState, bot: AuthorId, n: int, before: string, after: Message)
    requires n < 0 && AcceptsCount(before, n)
    requires after.content == "" || !IsDigit(after.content[0])
    ensures EditSpec(s, bot, before, after) == Step(s, [])
  {
    AcceptedMessageToken(before, n);
    assert LeadingDigits(after.content) == "";
  }

  /** A channel whose count passed its goal ignores every message except strict repeats; its count is frozen. */
  lemma PassedGoalIsFrozen(s: CogState, bot: AuthorId, m: Message)
    requires Watched(s, bot, m)
    requires var st := s.settings[m.server.value][m.channel]; st.goal > 0 && st.count > st.goal
    ensures MessageSpec(s, bot, m).state.settings == s.settings
  {
  }

  /**
   * The goal itself does not self-lock: at count == goal the engine still
   * accepts goal + 1 (the channel is closed only by the permission change),
   * and from then on every message, by any author, is ignored.
   */
  lemma GoalGateIsStrict(s: CogState, bot: AuthorId, m: Message, goal: nat)
    requires Watched(s, bot, m) && goal > 0
    requires s.settings[m.server.value][m.channel] == ChanState(None, goal, goal, false)
    requires m.content == IntToString(goal + 1)
    ensures var r := MessageSpec(s, bot, m);
            && r.state.settings[m.server.value][m.channel].count == goal + 1
            && forall a, c :: Judge(r.state.settings[m.server.value][m.channel], a, c) == Ignored
  {
    assert Judge(ChanState(None, goal, goal, false), m.author, m.content) == Accepted;
  }

  /** With no goal (0), a count set to -1 makes the next message "0" reach the "goal" 0 and lock the channel. */
  lemma ZeroGoalLocksAfterMinusOne(s: CogState, bot: AuthorId, server: ServerId, ch: ChannelId, author: AuthorId)
    requires Registered(s.settings, server, ch) && author != bot
    requires s.settings[server][ch].goal == 0 && !s.settings[server][ch].strict
    ensures var s1 := SetSpec(s, server, ch, -1).state;
            var r := MessageSpec(s1, bot, Message(author, Some(server), ch, "0"));
            && LockChannel(ch) in r.effects
            && r.state.settings[server][ch].count == 0
  {
    assert IntToString(0) == "0";
    var s1 := SetSpec(s, server, ch, -1).state;
    assert Judge(s1.settings[server][ch], author, "0") == Accepted;
  }

  /** Toggling strict mode twice gives back the same cog. */
  lemma StrictTwiceIsIdentity(s: CogState, server: ServerId, ch: ChannelId)
    ensures StrictSpec(StrictSpec(s, server, ch).state, server, ch).state == s
  {
    if Registered(s.settings, server, ch) {
      var s2 := StrictSpec(StrictSpec(s, server, ch).state, server, ch).state;
      assert s2.settings[server] == s.settings[server];
    }
  }

  /** Count 5, goal 10: "6 let's go" is taken, "7 let's go" is not. */
  lemma CountFromFiveExample(s: CogState, bot: AuthorId, server: ServerId, ch: ChannelId, author: AuthorId)
    requires Registered(s.settings, server, ch) && author != bot
    requires s.settings[server][ch] == ChanState(None, 5, 10, false)
    ensures MessageSpec(s, bot, Message(author, Some(server), ch, "6 let's go")).state.settings[server][ch].count == 6
    ensures MessageSpec(s, bot, Message(author, Some(server), ch, "7 let's go")).state.settings == s.settings
  {
    AcceptExamples();
  }
}
